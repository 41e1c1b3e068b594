/** The registration, login and logout handlers, and the session token and
    cookie they issue. Clock readings (seconds) and the production flag of
    the environment are parameters. */
module AuthController {
  import opened Common
  import opened UserController

  const SecondsPerDay: nat := 24 * 60 * 60

  /** The `expiresIn` option given to the token signer. */
  const TokenExpiresIn: string := "7d"

  /** The cookie's `maxAge`, in milliseconds. */
  const CookieMaxAgeMs: nat := 7 * 24 * 60 * 60 * 1000

  predicate IsDigits(s: string)
  {
    forall k | 0 <= k < |s| :: '0' <= s[k] <= '9'
  }

  function DecimalValue(s: string): nat
    requires IsDigits(s)
  {
    if s == [] then 0
    else DecimalValue(s[..|s| - 1]) * 10 + (s[|s| - 1] as int - '0' as int)
  }

  /** The seconds a day-count duration such as `"7d"` stands for; other
      duration forms are not modelled and give `None`. */
  function ExpiresInSeconds(spec: string): (r: Option<nat>)
    ensures r.Some? ==> r.value % SecondsPerDay == 0
  {
    if |spec| >= 2 && spec[|spec| - 1] == 'd' && IsDigits(spec[..|spec| - 1])
    then Some(DecimalValue(spec[..|spec| - 1]) * SecondsPerDay)
    else None
  }

  /** The token's lifetime and the cookie's lifetime are the same seven days. */
  lemma CookieMatchesTokenLifetime()
    ensures ExpiresInSeconds(TokenExpiresIn) == Some(7 * SecondsPerDay)
    ensures CookieMaxAgeMs == 7 * SecondsPerDay * 1000
  {
    assert TokenExpiresIn[..1] == "7";
    assert DecimalValue("7") == 7 by {
      assert "7"[..0] == "";
    }
  }

  /** `jwt.sign({ id }, secret, { expiresIn: '7d' })` at time `now`. */
  function IssueToken(id: UserId, now: nat): (t: Token)
    ensures t.userId == id && t.issuedAt == now && t.expiresAt == now + 7 * SecondsPerDay
  {
    CookieMatchesTokenLifetime();
    Token(id, now, now + ExpiresInSeconds(TokenExpiresIn).value)
  }

  /** The `token` cookie: HTTP-only, same-site strict, secure in production,
      and living exactly as long as the token it carries. */
  function SessionCookie(token: Token, production: bool): (c: Cookie)
    ensures c.name == "token" && c.value == token && c.httpOnly && c.sameSite == "strict"
    ensures c.secure == production
    ensures c.maxAgeMs == CookieMaxAgeMs
    ensures token.expiresAt - token.issuedAt == 7 * SecondsPerDay ==>
      c.maxAgeMs == (token.expiresAt - token.issuedAt) * 1000
  {
    Cookie("token", token, true, CookieMaxAgeMs, "strict", production)
  }

  /** The successful answer of register and login. */
  function SessionResponse(status: Status, message: string, u: User, now: nat, production: bool): (r: Response)
    ensures r.success && r.status == status && r.message == Some(message)
    ensures r.body == AuthBody(PublicUser(u.id, u.username, u.email), IssueToken(u.id, now))
    ensures r.cookie == SetCookie(SessionCookie(IssueToken(u.id, now), production))
  {
    var token := IssueToken(u.id, now);
    Response(status, true, Some(message), AuthBody(PublicUser(u.id, u.username, u.email), token),
             SetCookie(SessionCookie(token, production)))
  }

  /** `User.findOne({ $or: [{ email }, { username }] })` finds a record. */
  predicate AccountTaken(users: Users, username: string, email: string)
    ensures AccountTaken(users, username, email) <==>
      (exists id | id in users :: users[id].email == email) ||
      (exists id | id in users :: users[id].username == username)
  {
    exists id | id in users :: users[id].email == email || users[id].username == username
  }

  /** Adding a record whose username and email are both free keeps the
      table unique. */
  lemma RegistrationKeepsAccountsUnique(users: Users, u: User)
    requires UniqueAccounts(users) && u.id !in users && !AccountTaken(users, u.username, u.email)
    ensures UniqueAccounts(users[u.id := u])
  {
    var after := users[u.id := u];
    forall a, b | a in after && b in after && a != b
      ensures after[a].email != after[b].email && after[a].username != after[b].username
    {
      if a == u.id {
        assert b in users;
      } else if b == u.id {
        assert a in users;
      }
    }
  }

  /** POST /auth/register. */
  method RegisterUser(store: Store, username: string, email: string, password: string,
                      now: nat, production: bool) returns (r: Response)
    requires store.Valid()
    modifies store`users, store`nextId
    ensures store.Valid()
    ensures AccountTaken(old(store.users), username, email) ==>
      && r == Failure(BadRequest, "User with this email or username already exists")
      && store.users == old(store.users) && store.nextId == old(store.nextId)
    ensures !AccountTaken(old(store.users), username, email) ==>
      var id := old(store.nextId);
      var u := User(id, username, email, store.hashPassword(password), []);
      && id !in old(store.users)
      && store.users == old(store.users)[id := u]
      && store.nextId == old(store.nextId) + 1
      && |store.users| == |old(store.users)| + 1
      && r == SessionResponse(Created, "User registered successfully", u, now, production)
    ensures r.success <==> 200 <= r.status.Code() < 300
    ensures UniqueAccounts(old(store.users)) ==> UniqueAccounts(store.users)
    ensures !AccountTaken(old(store.users), username, email) &&
            store.passwordMatches(password, store.hashPassword(password)) ==>
      LoginUser(store, email, password, now, production).status == OK
  {
    if AccountTaken(store.users, username, email) {
      return Failure(BadRequest, "User with this email or username already exists");
    }
    var id := store.nextId;
    var u := User(id, username, email, store.hashPassword(password), []);
    if UniqueAccounts(store.users) {
      RegistrationKeepsAccountsUnique(store.users, u);
    }
    store.users := store.users[id := u];
    store.nextId := store.nextId + 1;
    r := SessionResponse(Created, "User registered successfully", u, now, production);
    if store.passwordMatches(password, u.passwordHash) {
      AccountCanLogIn(store, id, password, now, production);
    }
  }

  /** The right password for an account that alone holds its email logs in
      (with unique accounts, every stored account holds its email alone). */
  lemma AccountCanLogIn(store: Store, id: UserId, password: string, now: nat, production: bool)
    requires store.Valid() && id in store.users
    requires forall k | k in store.users && k != id :: store.users[k].email != store.users[id].email
    requires store.passwordMatches(password, store.users[id].passwordHash)
    ensures LoginUser(store, store.users[id].email, password, now, production).status == OK
  {
  }

  /** `User.findOne({ email })`: the earliest created record with that email,
      searching the ids from `from` up to `bound`. */
  function FirstWithEmail(users: Users, email: string, from: nat, bound: nat): (r: Option<UserId>)
    decreases bound - from
    ensures r.Some? ==> from <= r.value < bound && r.value in users && users[r.value].email == email
    ensures r.Some? ==> forall k | from <= k < r.value && k in users :: users[k].email != email
    ensures r.None? ==> forall k | from <= k < bound && k in users :: users[k].email != email
  {
    if from >= bound then None
    else if from in users && users[from].email == email then Some(from)
    else FirstWithEmail(users, email, from + 1, bound)
  }

  /** The one answer for every failed login, whichever check failed. */
  function InvalidCredentials(): Response
  {
    Failure(Unauthorized, "Invalid email or password")
  }

  /** POST /auth/login, against the store's table and its password
      comparison. Login reads the table and never changes it. */
  function LoginUser(store: Store, email: string, password: string, now: nat, production: bool): (r: Response)
    reads store
    requires store.Valid()
    ensures r.status == Unauthorized || r.status == OK
    ensures r.success <==> 200 <= r.status.Code() < 300
    ensures r.status == Unauthorized ==> r == InvalidCredentials()
    ensures (forall k | k in store.users :: store.users[k].email != email) ==> r == InvalidCredentials()
    ensures r.status == OK ==>
      exists id | id in store.users ::
        && store.users[id].email == email && store.passwordMatches(password, store.users[id].passwordHash)
        && r == SessionResponse(OK, "Login successful", store.users[id], now, production)
    ensures UniqueAccounts(store.users) ==>
      (r.status == OK <==>
        exists id | id in store.users ::
          store.users[id].email == email && store.passwordMatches(password, store.users[id].passwordHash))
  {
    match FirstWithEmail(store.users, email, 0, store.nextId)
    case None => InvalidCredentials()
    case Some(id) =>
      if store.passwordMatches(password, store.users[id].passwordHash)
      then SessionResponse(OK, "Login successful", store.users[id], now, production)
      else InvalidCredentials()
  }

  /** An unknown email and a wrong password for a known one are answered alike. */
  lemma LoginFailuresIndistinguishable(store: Store, unknownEmail: string, anyPassword: string,
                                       knownId: UserId, wrongPassword: string, now: nat, production: bool)
    requires store.Valid() && UniqueAccounts(store.users)
    requires forall k | k in store.users :: store.users[k].email != unknownEmail
    requires knownId in store.users
    requires !store.passwordMatches(wrongPassword, store.users[knownId].passwordHash)
    ensures LoginUser(store, unknownEmail, anyPassword, now, production)
         == LoginUser(store, store.users[knownId].email, wrongPassword, now, production)
  {
  }

  /** POST /auth/logout: clears the `token` cookie and always succeeds;
      it takes no input, so it answers the same with or without a session. */
  function LogoutUser(): (r: Response)
    ensures r.status == OK && r.success && r.message == Some("Logout successful")
    ensures r.body == NoBody && r.cookie == ClearCookie("token")
  {
    Response(OK, true, Some("Logout successful"), NoBody, ClearCookie("token"))
  }
}

/** The server's user records and the handlers of the profile and favorites
    endpoints. The document store is a map from user id to record; handlers
    run one at a time, each as one atomic step. The authenticated user id
    that the session middleware attaches to a request is a parameter. */
module UserController {
  import opened Common
  import opened Favorites

  type UserId = nat

  /** A stored user document. `passwordHash` is whatever the password hashing
      produced; the plain password is never stored. */
  datatype User = User(
    id: UserId,
    username: string,
    email: string,
    passwordHash: string,
    favoriteCountries: seq<Favorite>)

  /** The document as read with `.select('-password')`: every field but the hash. */
  datatype Profile = Profile(
    id: UserId,
    username: string,
    email: string,
    favoriteCountries: seq<Favorite>)

  /** The `{ id, username, email }` object that register and login send back. */
  datatype PublicUser = PublicUser(id: UserId, username: string, email: string)

  /** The claims of a session token: the user id, issue time and expiry in
      seconds (the `iat` and `exp` claims, sections 4.1.6 and 4.1.4 of
      RFC 7519). The signature is not modelled. */
  datatype Token = Token(userId: UserId, issuedAt: nat, expiresAt: nat)

  datatype Cookie = Cookie(
    name: string,
    value: Token,
    httpOnly: bool,
    maxAgeMs: nat,
    sameSite: string,
    secure: bool)

  /** What a response does to the client's cookies. */
  datatype CookieOp = KeepCookies | SetCookie(cookie: Cookie) | ClearCookie(name: string)

  datatype Status = OK | Created | BadRequest | Unauthorized | NotFound
  {
    /** The HTTP status code sent: 2xx exactly for the successes, 4xx for the rest. */
    function Code(): (c: nat)
      ensures 200 <= c < 300 <==> this == OK || this == Created
      ensures 400 <= c < 500 <==> !(this == OK || this == Created)
    {
      match this
      case OK => 200
      case Created => 201
      case BadRequest => 400
      case Unauthorized => 401
      case NotFound => 404
    }
  }

  /** The JSON payload beside `success` and `message`. */
  datatype Body =
    | NoBody
    | FavoritesBody(favoriteCountries: seq<Favorite>)
    | ProfileBody(profile: Profile)
    | AuthBody(user: PublicUser, token: Token)

  datatype Response = Response(
    status: Status,
    success: bool,
    message: Option<string>,
    body: Body,
    cookie: CookieOp)

  type Users = map<UserId, User>

  /** An error response `{ success: false, message }`. */
  function Failure(status: Status, message: string): (r: Response)
    ensures !r.success && r.status == status && r.body == NoBody && r.cookie == KeepCookies
  {
    Response(status, false, Some(message), NoBody, KeepCookies)
  }

  function UserNotFound(): Response
  {
    Failure(NotFound, "User not found")
  }

  /** No two users share an email and no two share a username. */
  ghost predicate UniqueAccounts(users: Users)
    ensures UniqueAccounts(users) <==>
      && (forall a, b | a in users && b in users && users[a].email == users[b].email :: a == b)
      && (forall a, b | a in users && b in users && users[a].username == users[b].username :: a == b)
  {
    forall a, b | a in users && b in users && a != b ::
      users[a].email != users[b].email && users[a].username != users[b].username
  }

  /** The record with the password hash left out. */
  function ProfileOf(u: User): (p: Profile)
    ensures p.id == u.id && p.username == u.username && p.email == u.email
    ensures p.favoriteCountries == u.favoriteCountries
  {
    Profile(u.id, u.username, u.email, u.favoriteCountries)
  }

  /** GET /user/profile. */
  function GetUserProfile(users: Users, id: UserId): (r: Response)
    ensures id !in users ==> r == UserNotFound()
    ensures id in users ==>
      r.status == OK && r.success && r.message == None && r.cookie == KeepCookies &&
      r.body == ProfileBody(ProfileOf(users[id]))
  {
    if id !in users then UserNotFound()
    else Response(OK, true, None, ProfileBody(ProfileOf(users[id])), KeepCookies)
  }

  /** The profile response does not depend on the stored password hash. */
  lemma ProfileIgnoresPassword(users: Users, id: UserId, otherHash: string)
    requires id in users
    ensures GetUserProfile(users[id := users[id].(passwordHash := otherHash)], id) == GetUserProfile(users, id)
  {
  }

  /** GET /user/getall/favorite: the stored list, verbatim. */
  function GetFavoriteCountries(users: Users, id: UserId): (r: Response)
    ensures id !in users ==> r == UserNotFound()
    ensures id in users ==>
      r.status == OK && r.success && r.message == None && r.cookie == KeepCookies &&
      r.body == FavoritesBody(users[id].favoriteCountries)
  {
    if id !in users then UserNotFound()
    else Response(OK, true, None, FavoritesBody(users[id].favoriteCountries), KeepCookies)
  }

  /** The record after a profile update: both fields overwritten, nothing else touched. */
  function Renamed(u: User, username: string, email: string): (v: User)
    ensures v.username == username && v.email == email
    ensures v.id == u.id && v.passwordHash == u.passwordHash && v.favoriteCountries == u.favoriteCountries
  {
    u.(username := username, email := email)
  }

  /** A profile update does not check other users: renaming a user to
      another user's email breaks uniqueness. */
  lemma UpdateCanDuplicateEmail(users: Users, id: UserId, other: UserId, username: string)
    requires id in users && other in users && id != other
    ensures !UniqueAccounts(users[id := Renamed(users[id], username, users[other].email)])
  {
    var after := users[id := Renamed(users[id], username, users[other].email)];
    assert after[id].email == after[other].email;
  }

  /** A concrete table that is unique before such an update and not after it. */
  lemma UpdateBreaksUniquenessExample()
    ensures var before := map[0 := User(0, "ann", "ann@mail.io", "h0", []),
                              1 := User(1, "bob", "bob@mail.io", "h1", [])];
            UniqueAccounts(before) &&
            !UniqueAccounts(before[1 := Renamed(before[1], "bob", "ann@mail.io")])
  {
    var before := map[0 := User(0, "ann", "ann@mail.io", "h0", []),
                      1 := User(1, "bob", "bob@mail.io", "h1", [])];
    UpdateCanDuplicateEmail(before, 1, 0, "bob");
  }

  /** The user table. Ids are handed out from a counter, standing in for the
      database's generated ids. The hash and comparison functions stand for
      the password hashing of the user model, which is not part of this model. */
  class Store {
    var users: Users
    var nextId: UserId
    const hashPassword: string -> string
    const passwordMatches: (string, string) -> bool

    /** Every record sits under its own id, below the id counter, and has a
        favorites list without repeated country codes. */
    ghost predicate Valid()
      reads this
    {
      forall id | id in users ::
        users[id].id == id && id < nextId && NoDuplicateCodes(users[id].favoriteCountries)
    }

    constructor (hashPassword: string -> string, passwordMatches: (string, string) -> bool)
      ensures Valid() && users == map[] && nextId == 0
      ensures this.hashPassword == hashPassword && this.passwordMatches == passwordMatches
    {
      users := map[];
      nextId := 0;
      this.hashPassword := hashPassword;
      this.passwordMatches := passwordMatches;
    }

    /** POST /user/favorites. */
    method AddFavoriteCountry(id: UserId, countryCode: string, countryName: string, flagUrl: string)
      returns (r: Response)
      requires Valid()
      modifies this`users
      ensures Valid()
      ensures id !in old(users) ==> r == UserNotFound() && users == old(users)
      ensures id in old(users) && HasCode(old(users)[id].favoriteCountries, countryCode) ==>
        r == Failure(BadRequest, "Country already in favorites") && users == old(users)
      ensures id in old(users) && !HasCode(old(users)[id].favoriteCountries, countryCode) ==>
        && users == old(users)[id := old(users)[id].(favoriteCountries :=
             old(users)[id].favoriteCountries + [Favorite(countryCode, countryName, flagUrl)])]
        && r == Response(OK, true, Some("Country added to favorites"),
                         FavoritesBody(users[id].favoriteCountries), KeepCookies)
      ensures id in old(users) ==>
        users[id].favoriteCountries ==
          WithFavorite(old(users)[id].favoriteCountries, Favorite(countryCode, countryName, flagUrl))
      ensures UniqueAccounts(old(users)) ==> UniqueAccounts(users)
    {
      if id !in users {
        return UserNotFound();
      }
      var user := users[id];
      if HasCode(user.favoriteCountries, countryCode) {
        return Failure(BadRequest, "Country already in favorites");
      }
      var favorite := Favorite(countryCode, countryName, flagUrl);
      AppendKeepsNoDuplicates(user.favoriteCountries, favorite);
      user := user.(favoriteCountries := user.favoriteCountries + [favorite]);
      users := users[id := user];
      r := Response(OK, true, Some("Country added to favorites"), FavoritesBody(user.favoriteCountries), KeepCookies);
    }

    /** DELETE /user/favorites/:countryCode. Removing an absent code succeeds. */
    method RemoveFavoriteCountry(id: UserId, countryCode: string) returns (r: Response)
      requires Valid()
      modifies this`users
      ensures Valid()
      ensures id !in old(users) ==> r == UserNotFound() && users == old(users)
      ensures id in old(users) ==>
        && users == old(users)[id := old(users)[id].(favoriteCountries :=
             WithoutCode(old(users)[id].favoriteCountries, countryCode))]
        && r == Response(OK, true, Some("Country removed from favorites"),
                         FavoritesBody(users[id].favoriteCountries), KeepCookies)
      ensures id in old(users) && !HasCode(old(users)[id].favoriteCountries, countryCode) ==>
        users == old(users)
      ensures UniqueAccounts(old(users)) ==> UniqueAccounts(users)
    {
      if id !in users {
        return UserNotFound();
      }
      var user := users[id];
      WithoutCodeKeepsNoDuplicates(user.favoriteCountries, countryCode);
      if !HasCode(user.favoriteCountries, countryCode) {
        WithoutAbsentCode(user.favoriteCountries, countryCode);
      }
      user := user.(favoriteCountries := WithoutCode(user.favoriteCountries, countryCode));
      users := users[id := user];
      r := Response(OK, true, Some("Country removed from favorites"), FavoritesBody(user.favoriteCountries), KeepCookies);
    }

    /** PUT /user/profile: overwrites username and email without looking at
        the other users. */
    method UpdateUserProfile(id: UserId, username: string, email: string) returns (r: Response)
      requires Valid()
      modifies this`users
      ensures Valid()
      ensures id !in old(users) ==> r == UserNotFound() && users == old(users)
      ensures id in old(users) ==>
        && users == old(users)[id := Renamed(old(users)[id], username, email)]
        && r == Response(OK, true, Some("Profile updated successfully"),
                         ProfileBody(ProfileOf(users[id])), KeepCookies)
    {
      if id !in users {
        return UserNotFound();
      }
      var user := Renamed(users[id], username, email);
      users := users[id := user];
      r := Response(OK, true, Some("Profile updated successfully"), ProfileBody(ProfileOf(user)), KeepCookies);
    }
  }
}

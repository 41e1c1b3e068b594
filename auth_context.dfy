/** The client's session cache: the signed-in user, a loading flag and the
    last error message. Each request to the server is one method whose
    argument is what the request produced; the flags are shown as they are
    once the request has settled. */
module AuthContext {
  import opened Common

  /** The user object the server sent back, as far as the client reads it. */
  datatype ClientUser = ClientUser(username: Option<string>, email: Option<string>)

  class AuthSession {
    var user: Option<ClientUser>
    var loading: bool
    var error: Option<string>

    /** `isAuthenticated: !!user`. */
    predicate IsAuthenticated()
      reads this
      ensures IsAuthenticated() <==> user != None
    {
      user.Some?
    }

    /** The state before the initial profile check has answered. */
    constructor ()
      ensures user == None && loading && error == None
    {
      user := None;
      loading := true;
      error := None;
    }

    /** The initial profile fetch: the fetched user, or signed out when it fails. */
    method CheckAuthStatus(reply: Reply<ClientUser>)
      modifies this
      ensures user == (if reply.Ok? then Some(reply.value) else None)
      ensures IsAuthenticated() <==> reply.Ok?
      ensures !loading && error == old(error)
    {
      loading := true;
      match reply {
        case Ok(u) => user := Some(u);
        case Failed(_) => user := None;
      }
      loading := false;
    }

    /** The shared shape of login, register and profile update: clear the
        error, take the returned user, or record the server's message (or
        `fallback`) and keep the current user. */
    method ReceiveUser(reply: Reply<ClientUser>, fallback: string) returns (ok: bool)
      modifies this
      ensures ok <==> reply.Ok?
      ensures !loading
      ensures reply.Ok? ==> user == Some(reply.value) && error == None
      ensures reply.Failed? ==> user == old(user) && error == Some(OrElse(reply.message, fallback))
    {
      loading := true;
      error := None;
      match reply {
        case Ok(u) =>
          user := Some(u);
          ok := true;
        case Failed(message) =>
          error := Some(OrElse(message, fallback));
          ok := false;
      }
      loading := false;
    }

    method Login(reply: Reply<ClientUser>) returns (ok: bool)
      modifies this
      ensures ok <==> reply.Ok?
      ensures !loading
      ensures reply.Ok? ==> user == Some(reply.value) && IsAuthenticated() && error == None
      ensures reply.Failed? ==> user == old(user) && error == Some(OrElse(reply.message, "Login failed"))
    {
      ok := ReceiveUser(reply, "Login failed");
    }

    method Register(reply: Reply<ClientUser>) returns (ok: bool)
      modifies this
      ensures ok <==> reply.Ok?
      ensures !loading
      ensures reply.Ok? ==> user == Some(reply.value) && IsAuthenticated() && error == None
      ensures reply.Failed? ==> user == old(user) && error == Some(OrElse(reply.message, "Registration failed"))
    {
      ok := ReceiveUser(reply, "Registration failed");
    }

    method UpdateProfile(reply: Reply<ClientUser>) returns (ok: bool)
      modifies this
      ensures ok <==> reply.Ok?
      ensures !loading
      ensures reply.Ok? ==> user == Some(reply.value) && error == None
      ensures reply.Failed? ==> user == old(user) && error == Some(OrElse(reply.message, "Profile update failed"))
    {
      ok := ReceiveUser(reply, "Profile update failed");
    }

    /** Logout does not clear an earlier error first; on success it forgets the user. */
    method Logout(reply: Reply<()>) returns (ok: bool)
      modifies this
      ensures ok <==> reply.Ok?
      ensures !loading
      ensures reply.Ok? ==> user == None && !IsAuthenticated() && error == old(error)
      ensures reply.Failed? ==> user == old(user) && error == Some(OrElse(reply.message, "Logout failed"))
    {
      loading := true;
      match reply {
        case Ok(_) =>
          user := None;
          ok := true;
        case Failed(message) =>
          error := Some(OrElse(message, "Logout failed"));
          ok := false;
      }
      loading := false;
    }
  }
}

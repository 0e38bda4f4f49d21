/** The authentication state (hooks/use-auth.ts): what `AuthProvider`
    holds and how mounting, `login` and `logout` change it, the guard of
    `useAuth` and the mapping of `useRequireAuth`.  The saved token read
    from local storage on mount is an input; the login request goes
    through the API client's model. */
module Auth {
  import opened Wrappers
  import opened ApiClient

  /** The context value a consumer sees. */
  datatype Session = Session(isAuthenticated: bool, token: Option<string>, loading: bool, error: Option<string>)

  class Provider {
    var isAuthenticated: bool
    var token: Option<string>
    var loading: bool
    var error: Option<string>

    /** The initial state: signed out, loading, no error. */
    constructor()
      ensures !isAuthenticated && token == None && loading && error == None
      ensures Valid()
    {
      isAuthenticated := false;
      token := None;
      loading := true;
      error := None;
    }

    /** A held token always goes with being authenticated (the converse
        fails: a login answer without `access_token` authenticates with no
        token). */
    predicate Valid()
      reads this
    {
      token.Some? ==> isAuthenticated
    }

    function Snapshot(): (s: Session)
      reads this
      ensures s.isAuthenticated == isAuthenticated && s.token == token
      ensures s.loading == loading && s.error == error
    {
      Session(isAuthenticated, token, loading, error)
    }

    /** The mount effect: a saved token that is present and not empty is
        taken and authenticates; loading ends either way. */
    method Mount(saved: Option<string>)
      modifies this
      requires Valid()
      ensures Valid()
      ensures saved.Some? && saved.value != "" ==> token == saved && isAuthenticated
      ensures !(saved.Some? && saved.value != "") ==> token == old(token) && isAuthenticated == old(isAuthenticated)
      ensures !loading && error == old(error)
    {
      if saved.Some? && saved.value != "" {
        token := saved;
        isAuthenticated := true;
      }
      loading := false;
    }

    /** `login`: loading with no error while the request runs; an answer
        stores its `access_token` (in the client too) and authenticates; a failure records the
        message, which is thrown again, and leaves the session as it was;
        loading ends either way. */
    method Login(client: Client, sent: Sent) returns (rethrown: Option<string>)
      modifies this, client
      requires Valid()
      ensures Valid()
      ensures !loading
      ensures rethrown.None? ==>
        isAuthenticated && error == None && token == client.token
        && sent.Received? && HandleResponse(sent.response).Parsed?
        && var fields := HandleResponse(sent.response).fields;
           token == (if "access_token" in fields then Some(fields["access_token"]) else None)
      ensures rethrown.Some? ==> client.token == old(client.token)
      ensures rethrown.Some? ==>
        isAuthenticated == old(isAuthenticated) && token == old(token) && error == rethrown
        && |rethrown.value| >= 14 && rethrown.value[..14] == "Login failed: "
      ensures sent.NetworkFailure? ==> rethrown == Some("Login failed: " + sent.message)
    {
      loading := true;
      error := None;
      var answer := client.Login(sent);
      match answer {
        case Parsed(fields) =>
          token := if "access_token" in fields then Some(fields["access_token"]) else None;
          isAuthenticated := true;
          rethrown := None;
        case Thrown(message) =>
          error := Some(message);
          rethrown := Some(message);
      }
      loading := false;
    }

    /** `logout`: the client forgets its token and the session is signed
        out with no error; loading is untouched. */
    method Logout(client: Client)
      modifies this, client
      ensures Valid()
      ensures token == None && !isAuthenticated && error == None && loading == old(loading)
      ensures !client.HasToken()
    {
      client.Logout();
      token := None;
      isAuthenticated := false;
      error := None;
    }
  }

  /** `useAuth`: the provider's value, or the error it throws outside one. */
  datatype Lookup = Found(session: Session) | Missing(message: string)

  function UseAuth(context: Option<Session>): (r: Lookup)
    ensures r.Found? <==> context.Some?
    ensures r.Found? ==> r.session == context.value
    ensures r.Missing? ==> r.message == "useAuth must be used within an AuthProvider"
  {
    if context.None? then Missing("useAuth must be used within an AuthProvider") else Found(context.value)
  }

  datatype Guard = Guard(loading: bool, authenticated: bool)

  /** `useRequireAuth`: still loading and not authenticated while the
      session loads; afterwards authenticated exactly as the session is. */
  function RequireAuth(s: Session): (g: Guard)
    ensures g.loading == s.loading
    ensures g.authenticated <==> !s.loading && s.isAuthenticated
  {
    if s.loading then Guard(true, false)
    else if !s.isAuthenticated then Guard(false, false)
    else Guard(false, true)
  }

  /** After a mount with a usable saved token, a protected page is let in. */
  method MountWithToken(saved: string) returns (g: Guard)
    requires saved != ""
    ensures g == Guard(false, true)
  {
    var p := new Provider();
    p.Mount(Some(saved));
    g := RequireAuth(p.Snapshot());
  }

  /** After a logout, once loaded, a protected page is refused. */
  method LoggedOutRefused(saved: Option<string>, client: Client) returns (g: Guard)
    modifies client
    ensures g == Guard(false, false)
  {
    var p := new Provider();
    p.Mount(saved);
    p.Logout(client);
    g := RequireAuth(p.Snapshot());
  }
}

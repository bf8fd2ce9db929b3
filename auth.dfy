/**
 * The authentication context (AuthContext.jsx): the session fields every page
 * reads, and the six operations that change them. The HTTP calls are not
 * modelled: each operation receives how the server answered. `localStorage`'s
 * `token` entry and axios's default `Authorization` header are fields of the
 * session; a `navigate` call is recorded with the delay it is made after.
 */
module Auth {
  import opened Wrappers

  /** The user record the server returns */
  datatype User = User(username: string, email: string)

  /** The body of a successful login or registration */
  datatype AuthData = AuthData(token: string, user: User)

  /** How the server answered: with a body, or with a failure carrying
      `error.response?.data?.error` when there is one */
  datatype ServerReply<T> = Replied(data: T) | ServerFailed(serverError: Option<string>)

  /** The object an operation resolves to */
  datatype AuthResult = Success(message: Option<string>, registered: Option<User>) | Failure(error: string)

  /** A `navigate(to)` call, made `delayMs` after the operation (0: at once) */
  datatype ScheduledNavigation = ScheduledNavigation(delayMs: nat, to: string)

  /** Which of several navigations requested together takes effect last: the
      one with the longest delay, and among equal delays the one requested last */
  function LastToFire(navs: seq<ScheduledNavigation>): (i: nat)
    requires navs != []
    ensures i < |navs|
    ensures forall k :: 0 <= k < |navs| ==> navs[k].delayMs <= navs[i].delayMs
    ensures forall k :: i < k < |navs| ==> navs[k].delayMs < navs[i].delayMs
  {
    if |navs| == 1 then 0
    else
      var front := navs[..|navs| - 1];
      var j := LastToFire(front);
      assert forall k :: 0 <= k < |front| ==> front[k] == navs[k];
      if navs[|navs| - 1].delayMs >= navs[j].delayMs then |navs| - 1 else j
  }

  const RegisteredMessage := "Registration successful! Welcome!"
  const RegisteredResult := "Registration successful!"
  const RegisterFallback := "Registration failed. Please try again."
  const LoggedInMessage := "Login successful! Welcome back!"
  const LoggedInResult := "Login successful!"
  const LoginFallback := "Login failed"
  const UpdateFallback := "Update failed"
  const PasswordFallback := "Password update failed"
  const WelcomeDelayMs: nat := 1000

  /** `error.response?.data?.error || fallback`: the server's text when it sent
      a non-empty one, the fallback otherwise */
  function ErrorText(serverError: Option<string>, fallback: string): (text: string)
    ensures serverError.Some? && serverError.value != "" ==> text == serverError.value
    ensures text == fallback || (serverError == Some(text) && text != "")
    ensures fallback != "" ==> text != ""
  {
    if serverError.Some? && serverError.value != "" then serverError.value else fallback
  }

  /** The `Authorization` header value for a token: the token behind "Bearer " */
  function BearerHeader(token: string): (header: string)
    ensures |header| == |"Bearer "| + |token|
    ensures header[..7] == "Bearer " && header[7..] == token
  {
    "Bearer " + token
  }

  /** A stored token is used only when it is truthy: present and non-empty */
  predicate TokenPresent(token: Option<string>) {
    token.Some? && token.value != ""
  }

  class AuthSession {
    var user: Option<User>
    var loading: bool
    var message: string
    var isAuthenticated: bool
    /** `localStorage.getItem('token')` */
    var storedToken: Option<string>
    /** `axios.defaults.headers.common['Authorization']` */
    var authHeader: Option<string>
    var navigations: seq<ScheduledNavigation>

    /** The header, when set, carries the stored token, and an authenticated
        session has a user and a stored token */
    ghost predicate Valid()
      reads this
    {
      && (authHeader.Some? ==> storedToken.Some? && authHeader.value == BearerHeader(storedToken.value))
      && (isAuthenticated ==> user.Some? && storedToken.Some?)
    }

    /** Mounting the provider with `token` in storage: no user, still loading,
        and the header set from the stored token when it is truthy */
    constructor (token: Option<string>)
      ensures Valid()
      ensures user == None && loading && message == "" && !isAuthenticated
      ensures storedToken == token
      ensures authHeader == if TokenPresent(token) then Some(BearerHeader(token.value)) else None
      ensures navigations == []
    {
      user, loading, message, isAuthenticated := None, true, "", false;
      storedToken := token;
      authHeader := if TokenPresent(token) then Some(BearerHeader(token.value)) else None;
      navigations := [];
    }

    /** `checkAuthStatus`: with a truthy stored token ask the server who is
        logged in; a failure forgets the token. Loading ends on every path. */
    method CheckAuthStatus(reply: ServerReply<User>)
      requires Valid()
      modifies this
      ensures Valid()
      ensures !loading && message == old(message) && navigations == old(navigations)
      ensures !TokenPresent(old(storedToken)) ==>
        user == old(user) && isAuthenticated == old(isAuthenticated)
        && storedToken == old(storedToken) && authHeader == old(authHeader)
      ensures TokenPresent(old(storedToken)) && reply.Replied? ==>
        user == Some(reply.data) && isAuthenticated
        && storedToken == old(storedToken) && authHeader == old(authHeader)
      ensures TokenPresent(old(storedToken)) && reply.ServerFailed? ==>
        user == old(user) && !isAuthenticated && storedToken == None && authHeader == None
    {
      if TokenPresent(storedToken) {
        match reply
        case Replied(data) =>
          user := Some(data);
          isAuthenticated := true;
        case ServerFailed(_) =>
          storedToken := None;
          authHeader := None;
          isAuthenticated := false;
      }
      loading := false;
    }

    /** The success path shared by `register` and `login`: store the token,
        set the header and the user, show `welcome`, go home after a second */
    method SignIn(data: AuthData, welcome: string)
      requires Valid()
      modifies this
      ensures Valid()
      ensures storedToken == Some(data.token) && authHeader == Some(BearerHeader(data.token))
      ensures user == Some(data.user) && isAuthenticated && message == welcome
      ensures navigations == old(navigations) + [ScheduledNavigation(WelcomeDelayMs, "/")]
      ensures loading == old(loading)
    {
      storedToken := Some(data.token);
      authHeader := Some(BearerHeader(data.token));
      user := Some(data.user);
      message := welcome;
      isAuthenticated := true;
      navigations := navigations + [ScheduledNavigation(WelcomeDelayMs, "/")];
    }

    /** `register` */
    method Register(reply: ServerReply<AuthData>) returns (r: AuthResult)
      requires Valid()
      modifies this
      ensures Valid()
      ensures loading == old(loading)
      ensures reply.Replied? ==>
        && storedToken == Some(reply.data.token) && authHeader == Some(BearerHeader(reply.data.token))
        && user == Some(reply.data.user) && isAuthenticated && message == RegisteredMessage
        && navigations == old(navigations) + [ScheduledNavigation(WelcomeDelayMs, "/")]
        && r == Success(Some(RegisteredResult), Some(reply.data.user))
      ensures reply.ServerFailed? ==>
        && storedToken == old(storedToken) && authHeader == old(authHeader) && user == old(user)
        && !isAuthenticated && message == "" && navigations == old(navigations)
        && r == Failure(ErrorText(reply.serverError, RegisterFallback))
    {
      message := "";
      match reply
      case Replied(data) =>
        SignIn(data, RegisteredMessage);
        r := Success(Some(RegisteredResult), Some(data.user));
      case ServerFailed(serverError) =>
        isAuthenticated := false;
        message := "";
        r := Failure(ErrorText(serverError, RegisterFallback));
    }

    /** `login` */
    method Login(reply: ServerReply<AuthData>) returns (r: AuthResult)
      requires Valid()
      modifies this
      ensures Valid()
      ensures loading == old(loading)
      ensures reply.Replied? ==>
        && storedToken == Some(reply.data.token) && authHeader == Some(BearerHeader(reply.data.token))
        && user == Some(reply.data.user) && isAuthenticated && message == LoggedInMessage
        && navigations == old(navigations) + [ScheduledNavigation(WelcomeDelayMs, "/")]
        && r == Success(Some(LoggedInResult), None)
      ensures reply.ServerFailed? ==>
        && storedToken == old(storedToken) && authHeader == old(authHeader) && user == old(user)
        && !isAuthenticated && message == "" && navigations == old(navigations)
        && r == Failure(ErrorText(reply.serverError, LoginFallback))
    {
      message := "";
      match reply
      case Replied(data) =>
        SignIn(data, LoggedInMessage);
        r := Success(Some(LoggedInResult), None);
      case ServerFailed(serverError) =>
        isAuthenticated := false;
        message := "";
        r := Failure(ErrorText(serverError, LoginFallback));
    }

    /** `logout`: whether or not the server is reached, the token, the header
        and the user are forgotten and the login page is shown */
    method Logout(serverReached: bool)
      requires Valid()
      modifies this
      ensures Valid()
      ensures storedToken == None && authHeader == None && user == None && !isAuthenticated
      ensures navigations == old(navigations) + [ScheduledNavigation(0, "/login")]
      ensures loading == old(loading) && message == old(message)
    {
      // the request's outcome only decides whether an error is logged
      storedToken := None;
      authHeader := None;
      user := None;
      isAuthenticated := false;
      navigations := navigations + [ScheduledNavigation(0, "/login")];
    }

    /** `updateDetails`: the server's copy of the user replaces the local one */
    method UpdateDetails(reply: ServerReply<User>) returns (r: AuthResult)
      requires Valid()
      modifies this
      ensures Valid()
      ensures reply.Replied? ==> user == Some(reply.data) && r == Success(None, None)
      ensures reply.ServerFailed? ==> user == old(user) && r == Failure(ErrorText(reply.serverError, UpdateFallback))
      ensures loading == old(loading) && message == old(message) && isAuthenticated == old(isAuthenticated)
      ensures storedToken == old(storedToken) && authHeader == old(authHeader) && navigations == old(navigations)
    {
      match reply
      case Replied(data) =>
        user := Some(data);
        r := Success(None, None);
      case ServerFailed(serverError) =>
        r := Failure(ErrorText(serverError, UpdateFallback));
    }

    /** `setMessage`, exposed to the pages */
    method SetMessage(text: string)
      requires Valid()
      modifies this
      ensures Valid()
      ensures message == text
      ensures user == old(user) && loading == old(loading) && isAuthenticated == old(isAuthenticated)
      ensures storedToken == old(storedToken) && authHeader == old(authHeader) && navigations == old(navigations)
    {
      message := text;
    }
  }

  /** `updatePassword` changes nothing in the session: it only reports the
      server's answer */
  function UpdatePassword(reply: ServerReply<()>): (r: AuthResult)
    ensures r.Success? <==> reply.Replied?
    ensures r.Success? ==> r == Success(None, None)
    ensures r.Failure? ==> r.error != "" && (r.error == PasswordFallback || Some(r.error) == reply.serverError)
  {
    match reply
    case Replied(_) => Success(None, None)
    case ServerFailed(serverError) => Failure(ErrorText(serverError, PasswordFallback))
  }
}

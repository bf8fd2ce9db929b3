/**
 * The login page (Login.jsx): the email pattern, the order of the form's
 * checks, where a successful login leads, and the form's `error`/`loading`
 * updates around the call to the session's `login`.
 */
module LoginPage {
  import opened Wrappers
  import opened JsText
  import opened Routing
  import opened Auth

  const FillAllFields := "Please fill in all fields"
  const InvalidEmail := "Please enter a valid email address"
  const LoginFailed := "Login failed"
  const Unexpected := "An unexpected error occurred"

  // ------------------------------------------------------------ email pattern

  /** A character of the class `[^\s@]` */
  predicate PlainChar(c: char) {
    !IsSpace(c) && c != '@'
  }

  predicate Plain(s: string) {
    forall k :: 0 <= k < |s| ==> PlainChar(s[k])
  }

  /** `s` splits as `local@name.suffix` at the given '@' and '.' positions,
      with three non-empty parts made of `[^\s@]` characters */
  ghost predicate EmailSplit(s: string, at: int, dot: int) {
    && 0 < at && at + 1 < dot && dot + 1 < |s|
    && s[at] == '@' && s[dot] == '.'
    && Plain(s[..at]) && Plain(s[at + 1..dot]) && Plain(s[dot + 1..])
  }

  /** `/^[^\s@]+@[^\s@]+\.[^\s@]+$/.test(s)`, read as the regular expression
      says: some split into the three parts */
  ghost predicate MatchesEmailPattern(s: string) {
    exists at, dot :: EmailSplit(s, at, dot)
  }

  /** The domain has a '.' that is neither its first nor its last character */
  predicate HasInnerDot(domain: string) {
    exists j | 0 < j < |domain| - 1 :: domain[j] == '.'
  }

  /** The email check, one condition at a time: no whitespace, a non-empty
      text before the first '@', no second '@', and an inner dot after it */
  function IsValidEmail(s: string): (valid: bool)
    ensures valid ==> NoSpace(s)
    ensures valid ==> exists at :: 0 < at < |s| - 3 && s[at] == '@' && forall k :: 0 <= k < |s| && k != at ==> s[k] != '@'
  {
    NoSpace(s) &&
    match IndexOf(s, '@')
    case None => false
    case Some(at) => at > 0 && (forall k | at < k < |s| :: s[k] != '@') && HasInnerDot(s[at + 1..])
  }

  /** The step-by-step check accepts exactly the texts the regular expression matches */
  lemma EmailPatternIff(s: string)
    ensures IsValidEmail(s) <==> MatchesEmailPattern(s)
  {
    if IsValidEmail(s) {
      ValidEmailSplits(s);
    }
    if MatchesEmailPattern(s) {
      var at, dot :| EmailSplit(s, at, dot);
      SplitIsValidEmail(s, at, dot);
    }
  }

  lemma ValidEmailSplits(s: string)
    requires IsValidEmail(s)
    ensures MatchesEmailPattern(s)
  {
    var at := IndexOf(s, '@').value;
    var domain := s[at + 1..];
    var j :| 0 < j < |domain| - 1 && domain[j] == '.';
    var dot := at + 1 + j;
    assert s[dot] == domain[j];
    assert Plain(s[..at]) by {
      forall k | 0 <= k < at ensures PlainChar(s[..at][k]) {
        assert s[..at][k] == s[k];
      }
    }
    var name, suffix := s[at + 1..dot], s[dot + 1..];
    assert Plain(name) by {
      forall k | 0 <= k < |name| ensures PlainChar(name[k]) {
        assert name[k] == s[at + 1 + k];
      }
    }
    assert Plain(suffix) by {
      forall k | 0 <= k < |suffix| ensures PlainChar(suffix[k]) {
        assert suffix[k] == s[dot + 1 + k];
      }
    }
    assert EmailSplit(s, at, dot);
  }

  lemma SplitIsValidEmail(s: string, at: int, dot: int)
    requires EmailSplit(s, at, dot)
    ensures IsValidEmail(s)
  {
    // every character is in one of the three parts or is the '@' or the '.'
    forall k | 0 <= k < |s|
      ensures !IsSpace(s[k]) && (k != at ==> s[k] != '@')
    {
      if k < at {
        assert s[..at][k] == s[k];
      } else if at < k < dot {
        assert s[at + 1..dot][k - at - 1] == s[k];
      } else if dot < k {
        assert s[dot + 1..][k - dot - 1] == s[k];
      }
    }
    IndexOfIs(s, '@', at);
    var domain := s[at + 1..];
    assert domain[dot - at - 1] == '.';
  }

  /** The checks of `handleSubmit` in their order: both fields present, then
      the email pattern; None lets the login request go out */
  function ValidationError(email: string, password: string): (e: Option<string>)
    ensures e.None? <==> email != "" && password != "" && MatchesEmailPattern(email)
    ensures email == "" || password == "" ==> e == Some(FillAllFields)
    ensures e == Some(InvalidEmail) <==> email != "" && password != "" && !MatchesEmailPattern(email)
  {
    EmailPatternIff(email);
    if email == "" || password == "" then Some(FillAllFields)
    else if !IsValidEmail(email) then Some(InvalidEmail)
    else None
  }

  /** `location.state?.from?.pathname || '/'` */
  function RedirectTarget(state: RouteState): (to: string)
    ensures to != ""
    ensures to == "/" || state == FromLocation(Location(to))
    ensures state.FromLocation? && state.from.pathname != "" ==> to == state.from.pathname
  {
    if state.FromLocation? && state.from.pathname != "" then state.from.pathname else "/"
  }

  // ------------------------------------------------------------------ the form

  datatype Field = EmailField | PasswordField

  datatype Credentials = Credentials(email: string, password: string)

  /** The form's error after the session's `login` resolved with `result` */
  function OutcomeError(result: AuthResult): (error: string)
    ensures error == "" <==> result.Success?
    ensures result.Failure? ==> error == (if result.error != "" then result.error else LoginFailed)
  {
    match result
    case Success(_, _) => ""
    case Failure(e) => if e != "" then e else LoginFailed
  }

  class LoginForm {
    var email: string
    var password: string
    var error: string
    var loading: bool
    /** Where a successful login leads */
    const from: string
    var navigations: seq<Navigation>
    /** The credentials passed to `login`, one entry per call */
    var loginRequests: seq<Credentials>

    /** The page opened with `state` in its location */
    constructor (state: RouteState)
      ensures email == "" && password == "" && error == "" && !loading
      ensures from == RedirectTarget(state) && navigations == [] && loginRequests == []
    {
      email, password, error, loading := "", "", "", false;
      from := RedirectTarget(state);
      navigations, loginRequests := [], [];
    }

    /** `handleChange` for one of the two inputs */
    method HandleChange(field: Field, value: string)
      modifies this
      ensures field.EmailField? ==> email == value && password == old(password)
      ensures field.PasswordField? ==> password == value && email == old(email)
      ensures error == old(error) && loading == old(loading)
      ensures navigations == old(navigations) && loginRequests == old(loginRequests)
    {
      match field
      case EmailField => email := value;
      case PasswordField => password := value;
    }

    /** `handleSubmit`: validate, then ask the session to log in and leave for
        `from` on success. `reply` is the server's answer to the login
        request, used only when the request is made. */
    method HandleSubmit(auth: AuthSession, reply: ServerReply<AuthData>)
      requires auth.Valid()
      modifies this, auth
      ensures auth.Valid() && !loading
      ensures email == old(email) && password == old(password)
      ensures ValidationError(email, password).Some? ==>
        && error == ValidationError(email, password).value
        && loginRequests == old(loginRequests) && navigations == old(navigations)
        && unchanged(auth)
      ensures ValidationError(email, password).None? && reply.Replied? ==>
        && loginRequests == old(loginRequests) + [Credentials(email, password)]
        && error == ""
        && navigations == old(navigations) + [Navigation(from, NoState, true)]
        && auth.isAuthenticated && auth.user == Some(reply.data.user) && auth.storedToken == Some(reply.data.token)
        && auth.navigations == old(auth.navigations) + [ScheduledNavigation(WelcomeDelayMs, "/")]
      ensures ValidationError(email, password).None? && reply.ServerFailed? ==>
        && loginRequests == old(loginRequests) + [Credentials(email, password)]
        && error == ErrorText(reply.serverError, LoginFallback)
        && navigations == old(navigations)
        && !auth.isAuthenticated && auth.user == old(auth.user) && auth.storedToken == old(auth.storedToken)
        && auth.navigations == old(auth.navigations)
    {
      error := "";
      loading := true;
      var invalid := ValidationError(email, password);
      if invalid.Some? {
        error := invalid.value;
        loading := false;
        return;
      }
      loginRequests := loginRequests + [Credentials(email, password)];
      var result := auth.Login(reply);
      error := OutcomeError(result);
      if result.Success? {
        navigations := navigations + [Navigation(from, NoState, true)];
      }
      loading := false;
    }

    /** Leaving the page clears the session's message */
    method Unmount(auth: AuthSession)
      requires auth.Valid()
      modifies auth
      ensures auth.Valid() && auth.message == ""
      ensures auth.user == old(auth.user) && auth.loading == old(auth.loading)
      ensures auth.isAuthenticated == old(auth.isAuthenticated) && auth.storedToken == old(auth.storedToken)
      ensures auth.authHeader == old(auth.authHeader) && auth.navigations == old(auth.navigations)
    {
      auth.SetMessage("");
    }
  }

  /** After a successful login the form navigates to `from` at once, but the
      session's own navigation to "/" a second later fires last: whatever
      `from` was, the user ends on "/" */
  lemma SignedInEndsHome(from: string)
    ensures var navs := [ScheduledNavigation(0, from), ScheduledNavigation(WelcomeDelayMs, "/")];
      navs[LastToFire(navs)].to == "/"
  {
  }

  /** An empty email is always reported as missing, never as malformed, and
      a submission with an empty field never reaches the server */
  lemma EmptyFieldChecksFirst(email: string, password: string)
    requires email == "" || password == ""
    ensures ValidationError(email, password) == Some(FillAllFields)
    ensures ValidationError(email, password) != Some(InvalidEmail)
  {
  }

  /** A plain address passes */
  lemma EmailAccepted()
    ensures IsValidEmail("ana@site.io")
  {
    var s := "ana@site.io";
    assert s[..3] == "ana" && s[4..8] == "site" && s[9..] == "io";
    assert EmailSplit(s, 3, 8);
    SplitIsValidEmail(s, 3, 8);
  }

  /** An address without a dot after the '@', and one with a second '@', are refused */
  lemma EmailRefused()
    ensures !IsValidEmail("ana@site")
    ensures !IsValidEmail("ana@x@site.io")
  {
    RefusedWithoutDot();
    RefusedSecondAt();
  }

  lemma RefusedWithoutDot()
    ensures !IsValidEmail("ana@site")
  {
    IndexOfIs("ana@site", '@', 3);
    assert "ana@site"[4..] == "site";
  }

  lemma RefusedSecondAt()
    ensures !IsValidEmail("ana@x@site.io")
  {
    IndexOfIs("ana@x@site.io", '@', 3);
    assert "ana@x@site.io"[5] == '@';
  }
}

/**
 * The landing page's decisions (Home.jsx): the FAQ accordion, where the
 * course and video buttons lead, the name shown for the signed-in user, the
 * enroll badge, and the logout button.
 */
module HomePage {
  import opened Wrappers
  import opened JsText
  import opened Routing
  import opened Auth
  import opened LoginPage

  /** `toggleAccordion(index)`: the open entry after a click on entry `index` */
  function ToggleAccordion(active: Option<nat>, index: nat): (next: Option<nat>)
    ensures AnswerShown(next, index) <==> !AnswerShown(active, index)
    ensures forall j :: j != index ==> !AnswerShown(next, j)
  {
    if active == Some(index) then None else Some(index)
  }

  /** Whether entry `index` shows its answer */
  predicate AnswerShown(active: Option<nat>, index: nat) {
    active == Some(index)
  }

  /** After any click at most one answer is shown, and clicking the same entry
      twice restores the accordion */
  lemma AccordionAtMostOne(active: Option<nat>, clicked: nat, i: nat, j: nat)
    requires AnswerShown(ToggleAccordion(active, clicked), i) && AnswerShown(ToggleAccordion(active, clicked), j)
    ensures i == j == clicked
    ensures active.None? || active == Some(clicked) ==>
      ToggleAccordion(ToggleAccordion(active, clicked), clicked) == active
  {
  }

  /** `handleCourseAccess` / `handleVideoAccess`: go to `target`, or to the
      login page carrying `target` as `from` when nobody is signed in */
  function AccessTarget(isAuthenticated: bool, target: string): (n: Navigation)
    ensures isAuthenticated ==> n.to == target && n.state.NoState?
    ensures !isAuthenticated ==> n.to == "/login" && n.state == FromText(target)
    ensures !n.replace
  {
    if !isAuthenticated then Navigation("/login", FromText(target), false) else NavigateTo(target)
  }

  /** `handleCourseAccess`. The login page reads `from.pathname`, which the
      text `from` lacks, so its form leads to "/" rather than to the courses */
  function CourseAccess(isAuthenticated: bool): (n: Navigation)
    ensures isAuthenticated ==> n.to == "/courses"
    ensures !isAuthenticated ==> n.to == "/login" && RedirectTarget(n.state) == "/"
  {
    AccessTarget(isAuthenticated, "/courses")
  }

  /** `handleVideoAccess`, with the same loss of the requested page */
  function VideoAccess(isAuthenticated: bool): (n: Navigation)
    ensures isAuthenticated ==> n.to == "/videos"
    ensures !isAuthenticated ==> n.to == "/login" && RedirectTarget(n.state) == "/"
  {
    AccessTarget(isAuthenticated, "/videos")
  }

  /** Home passes `from` as a path text, while the login page reads
      `from.pathname`: the login form's own navigation after signing in from
      the course or video button goes to "/", not to the page asked for. A
      location passed by the route guard is read by the form; either way the
      session's welcome navigation to "/" fires a second later and is the
      last one. */
  lemma AccessRedirectLandsHome(path: string)
    requires path != ""
    ensures RedirectTarget(AccessTarget(false, path).state) == "/"
    ensures RedirectTarget(FromLocation(Location(path))) == path
    ensures var navs := [ScheduledNavigation(0, RedirectTarget(FromLocation(Location(path)))),
                         ScheduledNavigation(WelcomeDelayMs, "/")];
      navs[LastToFire(navs)].to == "/"
  {
    SignedInEndsHome(path);
  }

  /** `user.username || user.email.split('@')[0]` */
  function DisplayName(user: User): (name: string)
    ensures user.username != "" ==> name == user.username
    ensures user.username == "" ==> name == EmailLocalPart(user.email)
  {
    if user.username != "" then user.username else EmailLocalPart(user.email)
  }

  /** `email.split('@')[0]`: the text before the first '@', or all of it */
  function EmailLocalPart(email: string): (local: string)
    ensures forall k :: 0 <= k < |local| ==> local[k] != '@'
    ensures local == email || (|local| < |email| && email[..|local| + 1] == local + "@")
  {
    match IndexOf(email, '@')
    case None => email
    case Some(i) => email[..i]
  }

  /** The shown name is never the empty text when the user has a username or
      an email that does not start with '@', and it never contains an '@'
      unless it is the username */
  lemma DisplayNameShape(user: User)
    ensures user.username == "" && user.email != "" && user.email[0] != '@' ==> DisplayName(user) != ""
    ensures user.username == "" ==> forall k :: 0 <= k < |DisplayName(user)| ==> DisplayName(user)[k] != '@'
  {
  }

  /** The enroll badge: to the login page when nobody is signed in, nothing otherwise */
  function EnrollTarget(isAuthenticated: bool): (n: Option<Navigation>)
    ensures n.Some? <==> !isAuthenticated
    ensures n.Some? ==> n.value.to == "/login" && RedirectTarget(n.value.state) == "/"
  {
    if !isAuthenticated then Some(NavigateTo("/login")) else None
  }

  /** `handleLogout`: the session's logout (which already heads for the login
      page), then the page's own navigation home */
  method HandleLogout(auth: AuthSession, serverReached: bool) returns (n: Navigation)
    requires auth.Valid()
    modifies auth
    ensures auth.Valid() && !auth.isAuthenticated && auth.user == None && auth.storedToken == None
    ensures auth.authHeader == None
    ensures auth.navigations == old(auth.navigations) + [ScheduledNavigation(0, "/login")]
    ensures auth.loading == old(auth.loading) && auth.message == old(auth.message)
    ensures n == NavigateTo("/")
  {
    auth.Logout(serverReached);
    n := NavigateTo("/");
  }
}

/** What the components hand to the router's `navigate` and `<Navigate>`. */
module Routing {

  /** A router location; only its path matters here */
  datatype Location = Location(pathname: string)

  /** The `state` attached to a navigation: nothing, `{ from: location }`
      (as the route guard passes it) or `{ from: '/path' }` (as the home page
      passes it) */
  datatype RouteState = NoState | FromLocation(from: Location) | FromText(text: string)

  datatype Navigation = Navigation(to: string, state: RouteState, replace: bool)

  /** `navigate(to)` with no options */
  function NavigateTo(to: string): (n: Navigation)
    ensures n.to == to && n.state.NoState? && !n.replace
  {
    Navigation(to, NoState, false)
  }
}

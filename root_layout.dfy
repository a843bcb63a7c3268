/**
 * The app's root layout: the gate that decides between nothing, the login
 * screen and the main navigator, and the drawer content that shows only the
 * allowed routes.
 */
module RootLayout {
  import opened Seqs

  /** What the root layout renders. */
  datatype Screen = Nothing | Login | MainNavigator

  /** `RootLayout`: fonts first (nothing until they are loaded), then the login check. */
  function RootView(loaded: bool, isLoggedIn: bool): (r: Screen)
    ensures r == Nothing <==> !loaded
    ensures r == Login <==> loaded && !isLoggedIn
    ensures r == MainNavigator <==> loaded && isLoggedIn
  {
    if !loaded then Nothing
    else if !isLoggedIn then Login
    else MainNavigator
  }

  /** The drawer shows only these routes. */
  const Allowed: seq<string> := ["(tabs)", "pr-list"]

  /** The drawer's declared screens: route name and drawer caption, in declaration order. */
  const DrawerScreens: seq<(string, string)> := [("(tabs)", "Home"), ("pr-list", "PR List")]

  /** Every declared drawer screen survives the filter, so the drawer lists them all, in order. */
  lemma DeclaredScreensAllShown()
    ensures AllowedNames([DrawerScreens[0].0, DrawerScreens[1].0]) == [DrawerScreens[0].0, DrawerScreens[1].0]
  {
    var names := [DrawerScreens[0].0, DrawerScreens[1].0];
    assert forall i :: 0 <= i < |names| ==> names[i] in Allowed;
    FilterKeepsAll(names, (n: string) => n in Allowed);
  }

  /** A navigator route: its unique key and its route name. */
  datatype Route = Route(key: string, name: string)

  /** The drawer navigator's state; `index` is the focused route. */
  datatype DrawerState = DrawerState(stateKey: string, index: int, routeNames: seq<string>, routes: seq<Route>, history: seq<string>)

  /** The drawer content's props: the navigator state and everything else the navigator passes, kept opaque. */
  datatype DrawerProps<Rest> = DrawerProps(state: DrawerState, rest: Rest)

  function AllowedNames(names: seq<string>): (r: seq<string>)
    ensures forall i :: 0 <= i < |r| ==> r[i] in Allowed && r[i] in names
    ensures forall i :: 0 <= i < |names| && names[i] in Allowed ==> names[i] in r
  {
    Filter(names, (n: string) => n in Allowed)
  }

  function AllowedRoutes(routes: seq<Route>): (r: seq<Route>)
    ensures forall i :: 0 <= i < |r| ==> r[i].name in Allowed && r[i] in routes
    ensures forall i :: 0 <= i < |routes| && routes[i].name in Allowed ==> routes[i] in r
  {
    Filter(routes, (route: Route) => route.name in Allowed)
  }

  /** `CustomDrawerContent`'s `filteredProps`: both route lists cut to the allowed names; every other field as it was. */
  function FilterDrawerProps<Rest>(props: DrawerProps<Rest>): (r: DrawerProps<Rest>)
    ensures r.rest == props.rest
    ensures r.state.stateKey == props.state.stateKey && r.state.index == props.state.index && r.state.history == props.state.history
    ensures r.state.routeNames == AllowedNames(props.state.routeNames)
    ensures r.state.routes == AllowedRoutes(props.state.routes)
  {
    props.(state := props.state.(routeNames := AllowedNames(props.state.routeNames), routes := AllowedRoutes(props.state.routes)))
  }

  /** Filtering already-filtered props changes nothing. */
  lemma FilterDrawerPropsIdempotent<Rest>(props: DrawerProps<Rest>)
    ensures FilterDrawerProps(FilterDrawerProps(props)) == FilterDrawerProps(props)
  {
    FilterIdempotent(props.state.routeNames, (n: string) => n in Allowed);
    FilterIdempotent(props.state.routes, (route: Route) => route.name in Allowed);
  }

  function Names(routes: seq<Route>): (r: seq<string>)
    ensures |r| == |routes|
    ensures forall i :: 0 <= i < |routes| ==> r[i] == routes[i].name
  {
    if routes == [] then [] else [routes[0].name] + Names(routes[1..])
  }

  /** The two filters agree: the names of the kept routes are the kept names, in the same order. */
  lemma {:induction false} FiltersAgree(routes: seq<Route>)
    ensures Names(AllowedRoutes(routes)) == AllowedNames(Names(routes))
  {
    if routes != [] {
      FiltersAgree(routes[1..]);
      assert Names(routes)[1..] == Names(routes[1..]);
      var keepRoute := (route: Route) => route.name in Allowed;
      var keepName := (n: string) => n in Allowed;
      assert Filter(routes, keepRoute) == (if keepRoute(routes[0]) then [routes[0]] else []) + Filter(routes[1..], keepRoute);
      assert Filter(Names(routes), keepName) == (if keepName(routes[0].name) then [routes[0].name] else []) + Filter(Names(routes)[1..], keepName);
      NamesAppend(if keepRoute(routes[0]) then [routes[0]] else [], Filter(routes[1..], keepRoute));
    }
  }

  lemma {:induction false} NamesAppend(a: seq<Route>, b: seq<Route>)
    ensures Names(a + b) == Names(a) + Names(b)
  {
    if a == [] {
      assert a + b == b;
    } else {
      assert (a + b)[1..] == a[1..] + b;
      NamesAppend(a[1..], b);
    }
  }
}

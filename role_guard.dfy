/**
 * The role guard (components/auth/role-guard.tsx): which roles a path
 * requires, where a signed-in user without them is sent, and what the
 * guard renders.
 */
module RoleGuard {
  import opened Common
  import opened AuthContext

  /** One entry of `ROUTE_PERMISSIONS`. */
  datatype Route = Route(path: string, roles: seq<string>)

  /** `ROUTE_PERMISSIONS`, in declaration order (the order `Object.entries` yields). */
  const RoutePermissions: seq<Route> := [
    Route("/resumen", ["admin", "scanner"]),
    Route("/eventos", ["admin"]),
    Route("/my-events", ["admin"]),
    Route("/asistentes", ["admin", "scanner"]),
    Route("/escaner", ["admin", "scanner"]),
    Route("/analiticas", ["admin"]),
    Route("/registro", ["admin"]),
    Route("/events", ["buyer", "admin", "scanner"]),
    Route("/event", ["buyer", "admin", "scanner"]),
    Route("/tickets", ["buyer"]),
    Route("/cart", ["buyer"]),
    Route("/payment", ["buyer"]),
    Route("/confirmation", ["buyer"]),
    Route("/profile", ["buyer", "admin", "scanner"]),
    Route("/auth", []),
    Route("/", ["buyer", "admin", "scanner"])
  ]

  /** The position of `path` among the table's routes from `from` on, `|table|` when absent. */
  function RouteIndex(table: seq<Route>, path: string, from: nat): (i: nat)
    requires from <= |table|
    ensures from <= i <= |table|
    ensures i < |table| ==> table[i].path == path
    ensures forall j :: from <= j < i ==> table[j].path != path
    decreases |table| - from
  {
    if from == |table| then from
    else if table[from].path == path then from
    else RouteIndex(table, path, from + 1)
  }

  /** `pathname.startsWith(route + '/') || pathname.startsWith(route + '?')`. */
  predicate UnderRoute(route: string, path: string) {
    route + "/" <= path || route + "?" <= path
  }

  /** The first route from `from` on that `path` lies under, `|table|` when there is none. */
  function FirstRouteAbove(table: seq<Route>, path: string, from: nat): (i: nat)
    requires from <= |table|
    ensures from <= i <= |table|
    ensures i < |table| ==> UnderRoute(table[i].path, path)
    ensures forall j :: from <= j < i ==> !UnderRoute(table[j].path, path)
    decreases |table| - from
  {
    if from == |table| then from
    else if UnderRoute(table[from].path, path) then from
    else FirstRouteAbove(table, path, from + 1)
  }

  /**
   * `getRequiredRoles` over a route table: the roles of an exact entry
   * (every entry, even `[]`, is truthy), else of the first route the path
   * lies under, else none.
   */
  function RolesFor(table: seq<Route>, path: string): seq<string> {
    var exact := RouteIndex(table, path, 0);
    if exact < |table| then table[exact].roles
    else
      var above := FirstRouteAbove(table, path, 0);
      if above < |table| then table[above].roles else []
  }

  function RequiredRoles(path: string): seq<string> {
    RolesFor(RoutePermissions, path)
  }

  /**
   * The lookup, stated without the index functions: an exact route gives
   * its own roles; otherwise the first route in table order that the path
   * lies under decides; otherwise no role is required.
   */
  lemma RolesForCharacterized(table: seq<Route>, path: string, k: nat)
    requires k < |table|
    ensures table[k].path == path && (forall j :: 0 <= j < k ==> table[j].path != path) ==>
      RolesFor(table, path) == table[k].roles
    ensures ((forall j :: 0 <= j < |table| ==> table[j].path != path)
             && UnderRoute(table[k].path, path)
             && (forall j :: 0 <= j < k ==> !UnderRoute(table[j].path, path))) ==>
      RolesFor(table, path) == table[k].roles
  {
    var exact := RouteIndex(table, path, 0);
    var above := FirstRouteAbove(table, path, 0);
    if table[k].path == path && (forall j :: 0 <= j < k ==> table[j].path != path) {
      assert exact == k;
    }
    if (forall j :: 0 <= j < |table| ==> table[j].path != path)
       && UnderRoute(table[k].path, path)
       && (forall j :: 0 <= j < k ==> !UnderRoute(table[j].path, path)) {
      assert exact == |table|;
      assert above == k;
    }
  }

  /** A path that is no route and lies under none requires no role. */
  lemma RolesForNoRoute(table: seq<Route>, path: string)
    requires forall j :: 0 <= j < |table| ==> table[j].path != path
    requires forall j :: 0 <= j < |table| ==> !UnderRoute(table[j].path, path)
    ensures RolesFor(table, path) == []
  {
    var exact := RouteIndex(table, path, 0);
    var above := FirstRouteAbove(table, path, 0);
    assert exact == |table| && above == |table|;
  }

  /** `/` lies above a path only through `//` or `/?`, never above `/x…`. */
  lemma RootIsNeverAbove(path: string)
    requires |path| >= 2 && path[1] != '/' && path[1] != '?'
    ensures !UnderRoute("/", path)
  {
    assert ("/" + "/")[1] == '/' && ("/" + "?")[1] == '?';
  }

  /** `DEFAULT_REDIRECTS[userRole] || '/'`. */
  function DefaultRoute(userRole: Option<string>): (r: string)
    ensures userRole == Some("admin") ==> r == "/resumen"
    ensures userRole == Some("scanner") ==> r == "/escaner"
    ensures userRole !in {Some("admin"), Some("scanner")} ==> r == "/"
  {
    match userRole
    case Some("admin") => "/resumen"
    case Some("scanner") => "/escaner"
    case _ => "/"
  }

  predicate Denied(userRole: Option<string>, path: string) {
    |RequiredRoles(path)| > 0 && !HasAnyRole(userRole, RequiredRoles(path))
  }

  /** The guard's effect: where it navigates, if anywhere. */
  function RoleRedirect(loading: bool, signedIn: bool, userRole: Option<string>, path: string): (r: Option<string>)
    ensures loading || !signedIn ==> r.None?
    ensures !loading && signedIn && Denied(userRole, path) ==> r == Some(DefaultRoute(userRole))
    ensures r.Some? && !Denied(userRole, path) ==> path == "/" && r.value in {"/resumen", "/escaner"}
  {
    if loading || !signedIn then None
    else if Denied(userRole, path) then Some(DefaultRoute(userRole))
    else if path == "/" && Truthy(userRole) then
      if HasAnyRole(userRole, ["admin"]) then Some("/resumen")
      else if HasAnyRole(userRole, ["scanner"]) then Some("/escaner")
      else None
    else None
  }

  datatype GuardView = Spinner | Children | AccessDenied

  function RoleGuardView(loading: bool, signedIn: bool, userRole: Option<string>, path: string): (v: GuardView)
    ensures v == Spinner <==> loading
    ensures v == AccessDenied <==> !loading && signedIn && Denied(userRole, path)
  {
    if loading then Spinner
    else if !signedIn then Children
    else if Denied(userRole, path) then AccessDenied
    else Children
  }

  /** The access-denied view always comes with a redirect to the role's home. */
  lemma DeniedViewRedirects(signedIn: bool, userRole: Option<string>, path: string)
    requires RoleGuardView(false, signedIn, userRole, path) == AccessDenied
    ensures RoleRedirect(false, signedIn, userRole, path) == Some(DefaultRoute(userRole))
  {
  }

  /**
   * On `/` an admin goes to `/resumen`, a scanner to `/escaner`, a buyer
   * stays; any other role (or none) is denied and sent to `/` itself.
   */
  lemma RootRedirects(userRole: Option<string>)
    ensures RequiredRoles("/") == ["buyer", "admin", "scanner"]
    ensures userRole == Some("admin") ==> RoleRedirect(false, true, userRole, "/") == Some("/resumen")
    ensures userRole == Some("scanner") ==> RoleRedirect(false, true, userRole, "/") == Some("/escaner")
    ensures userRole == Some("buyer") ==> RoleRedirect(false, true, userRole, "/") == None
    ensures userRole !in {Some("admin"), Some("scanner"), Some("buyer")} ==>
      RoleRedirect(false, true, userRole, "/") == Some("/")
  {
    RootRoles();
  }

  lemma RootRoles()
    ensures RequiredRoles("/") == ["buyer", "admin", "scanner"]
  {
    assert forall j :: 0 <= j < 15 ==> RoutePermissions[j].path != "/";
    RolesForCharacterized(RoutePermissions, "/", 15);
  }

  /**
   * No route among `lo..hi` lies above `path` when each differs from it at
   * position `i`.
   */
  lemma NoneAboveByChar(table: seq<Route>, path: string, lo: nat, hi: nat, i: nat)
    requires lo <= hi <= |table| && i < |path|
    requires forall j :: lo <= j < hi ==> i < |table[j].path| && table[j].path[i] != path[i]
    ensures forall j :: lo <= j < hi ==> !UnderRoute(table[j].path, path)
  {
    forall j | lo <= j < hi
      ensures !UnderRoute(table[j].path, path)
    {
      UnderRouteStartsWith(table[j].path, path);
    }
  }

  /**
   * `path` is no route of the table when each route differs from it in
   * length or at position `i`.
   */
  lemma NoRouteByChar(table: seq<Route>, path: string, i: nat)
    requires i < |path|
    requires forall j :: 0 <= j < |table| ==>
      |table[j].path| != |path| || (i < |table[j].path| && table[j].path[i] != path[i])
    ensures forall j :: 0 <= j < |table| ==> table[j].path != path
  {
  }

  /** A path under a route starts with that route. */
  lemma UnderRouteStartsWith(route: string, path: string)
    ensures UnderRoute(route, path) ==> route <= path
  {
    if route + "/" <= path {
      assert route <= route + "/";
    }
    if route + "?" <= path {
      assert route <= route + "?";
    }
  }

  /** Examples: `/auth` needs no role, a ticket page needs a buyer, `/orders` needs no role. */
  lemma RequiredRolesExamples()
    ensures RequiredRoles("/auth") == []
    ensures RequiredRoles("/tickets/x") == ["buyer"]
    ensures RequiredRoles("/orders") == []
  {
    AuthRoles();
    TicketPageRoles();
    OrdersRoles();
  }

  lemma AuthRoles()
    ensures RequiredRoles("/auth") == []
  {
    assert forall j :: 0 <= j < 14 ==> RoutePermissions[j].path != "/auth";
    RolesForCharacterized(RoutePermissions, "/auth", 14);
  }

  lemma TicketPageRoles()
    ensures RequiredRoles("/tickets/x") == ["buyer"]
  {
    var t := "/tickets/x";
    NoRouteByChar(RoutePermissions, t, 1);
    NoneAboveByChar(RoutePermissions, t, 0, 9, 1);
    assert UnderRoute(RoutePermissions[9].path, t) by {
      assert RoutePermissions[9].path + "/" == "/tickets/";
    }
    RolesForCharacterized(RoutePermissions, t, 9);
  }

  lemma OrdersRoles()
    ensures RequiredRoles("/orders") == []
  {
    var o := "/orders";
    NoRouteByChar(RoutePermissions, o, 1);
    NoneAboveByChar(RoutePermissions, o, 0, 15, 1);
    RootIsNeverAbove(o);
    assert forall j :: 0 <= j < |RoutePermissions| ==> !UnderRoute(RoutePermissions[j].path, o);
    RolesForNoRoute(RoutePermissions, o);
  }
}

/**
 * The authentication guard (components/auth/auth-guard.tsx): which paths
 * need a signed-in user, where the guard navigates and what it renders.
 */
module AuthGuard {
  import opened Common
  import RoleGuard

  /** `PROTECTED_ROUTES`. */
  const ProtectedRoutes: seq<string> := [
    "/resumen", "/eventos", "/my-events", "/asistentes", "/escaner", "/analiticas", "/registro",
    "/events", "/event", "/tickets", "/cart", "/payment", "/confirmation",
    "/profile"
  ]

  /** The first route from `from` on that starts `path`, `|routes|` when there is none. */
  function ProtectingRoute(routes: seq<string>, path: string, from: nat): (i: nat)
    requires from <= |routes|
    ensures from <= i <= |routes|
    ensures i < |routes| ==> routes[i] <= path
    ensures forall j :: from <= j < i ==> !(routes[j] <= path)
    decreases |routes| - from
  {
    if from == |routes| then from
    else if routes[from] <= path then from
    else ProtectingRoute(routes, path, from + 1)
  }

  /** `PROTECTED_ROUTES.some(route => pathname.startsWith(route))`: a raw string prefix test. */
  predicate IsProtected(path: string) {
    ProtectingRoute(ProtectedRoutes, path, 0) < |ProtectedRoutes|
  }

  lemma IsProtectedCharacterized(path: string)
    ensures IsProtected(path) <==> exists k :: 0 <= k < |ProtectedRoutes| && ProtectedRoutes[k] <= path
  {
    var i := ProtectingRoute(ProtectedRoutes, path, 0);
    if i == |ProtectedRoutes| {
      assert forall k :: 0 <= k < |ProtectedRoutes| ==> !(ProtectedRoutes[k] <= path);
    }
  }

  /**
   * The raw prefix test protects more than the listed pages (`/eventsX`
   * lies under `/events`) and leaves `/`, `/auth` and `/orders` open.
   */
  lemma ProtectionExamples()
    ensures IsProtected("/eventsX")
    ensures !IsProtected("/") && !IsProtected("/auth") && !IsProtected("/orders")
  {
    EventsPrefixProtected();
    RootOpen();
    AuthOpen();
    OrdersOpen();
  }

  lemma EventsPrefixProtected()
    ensures IsProtected("/eventsX")
  {
    assert ProtectedRoutes[7] == "/events";
    assert "/events" <= "/eventsX";
    IsProtectedCharacterized("/eventsX");
  }

  lemma RootOpen()
    ensures !IsProtected("/")
  {
    assert forall k :: 0 <= k < |ProtectedRoutes| ==> |ProtectedRoutes[k]| > 1;
    IsProtectedCharacterized("/");
  }

  /**
   * No route starts `path` when each one differs from it at position `i`
   * or `i + 1`.
   */
  lemma NoneStarts(routes: seq<string>, path: string, i: nat)
    requires i + 1 < |path|
    requires forall k :: 0 <= k < |routes| ==>
      i + 1 < |routes[k]| && (routes[k][i] != path[i] || routes[k][i + 1] != path[i + 1])
    ensures ProtectingRoute(routes, path, 0) == |routes|
  {
    var j := ProtectingRoute(routes, path, 0);
    if j < |routes| {
      assert false;
    }
  }

  /** `/auth` is open: every route differs from it in its second or third character. */
  lemma AuthOpen()
    ensures !IsProtected("/auth")
  {
    NoneStarts(ProtectedRoutes, "/auth", 1);
  }

  /** `/orders` is open, for the same reason. */
  lemma OrdersOpen()
    ensures !IsProtected("/orders")
  {
    NoneStarts(ProtectedRoutes, "/orders", 1);
  }

  /** The guard's effect: where it navigates, if anywhere. */
  function AuthRedirect(loading: bool, signedIn: bool, path: string): (r: Option<string>)
    ensures r == Some("/auth") <==> !loading && !signedIn && IsProtected(path)
    ensures r == Some("/") <==> !loading && signedIn && path == "/auth"
    ensures r.None? || r == Some("/auth") || r == Some("/")
  {
    if loading then None
    else if !signedIn && IsProtected(path) then Some("/auth")
    else if signedIn && path == "/auth" then Some("/")
    else None
  }

  datatype AuthView = Spinner | Children

  function AuthGuardView(loading: bool, signedIn: bool, path: string): (v: AuthView)
    ensures v == Children <==> !loading && (signedIn || !IsProtected(path))
  {
    if loading then Spinner
    else if IsProtected(path) && !signedIn then Spinner
    else Children
  }

  /**
   * Once loaded, a spinner means a redirect to `/auth` is under way: a
   * signed-out user never sees a protected page.
   */
  lemma SpinnerMeansSignIn(signedIn: bool, path: string)
    ensures AuthGuardView(false, signedIn, path) == Spinner <==> AuthRedirect(false, signedIn, path) == Some("/auth")
  {
  }

  /** Every page this guard protects is also one the role guard requires a role for. */
  lemma ProtectedRoutesNeedRoles(k: nat)
    requires k < |ProtectedRoutes|
    ensures |RoleGuard.RequiredRoles(ProtectedRoutes[k])| > 0
  {
    assert ProtectedRoutes[k] == RoleGuard.RoutePermissions[k].path;
    assert forall j :: 0 <= j < k ==> RoleGuard.RoutePermissions[j].path != ProtectedRoutes[k];
    RoleGuard.RolesForCharacterized(RoleGuard.RoutePermissions, ProtectedRoutes[k], k);
  }
}

/**
 * The higher-order page wrapper `withRoleProtection`
 * (components/auth/with-role-protection.tsx): where it navigates and what
 * it renders for a given allow-list, and its four ready-made allow-lists.
 */
module WithRoleProtection {
  import opened Common
  import opened AuthContext
  import RoleGuard

  /** `WithRoleProtectionOptions`; an absent optional field is `None`. */
  datatype ProtectionOptions = ProtectionOptions(
    allowedRoles: seq<string>,
    redirectTo: Option<string>,
    showAccessDenied: Option<bool>)

  /** `showAccessDenied = true` in the destructuring: the default applies only when the field is absent. */
  function ShowsAccessDenied(o: ProtectionOptions): bool {
    o.showAccessDenied.GetOr(true)
  }

  /** The signed-in user's role is not on the allow-list (`!hasAnyRole(allowedRoles)`). */
  predicate Lacks(o: ProtectionOptions, userRole: Option<string>) {
    !HasAnyRole(userRole, o.allowedRoles)
  }

  /**
   * The wrapper's effect: nothing while loading, `/auth` without a user,
   * and for a user without an allowed role the truthy `redirectTo` or else
   * the role's home page.
   */
  function ProtectionRedirect(o: ProtectionOptions, loading: bool, signedIn: bool, userRole: Option<string>): (r: Option<string>)
    ensures loading ==> r.None?
    ensures !loading && !signedIn ==> r == Some("/auth")
    ensures !loading && signedIn ==> (r.Some? <==> Lacks(o, userRole))
    ensures !loading && signedIn && Lacks(o, userRole) ==>
      r == (if Truthy(o.redirectTo) then o.redirectTo else Some(RoleGuard.DefaultRoute(userRole)))
  {
    if loading then None
    else if !signedIn then Some("/auth")
    else if Lacks(o, userRole) then
      if Truthy(o.redirectTo) then Some(o.redirectTo.value) else Some(RoleGuard.DefaultRoute(userRole))
    else None
  }

  datatype ProtectedView = Spinner | AccessDenied | Wrapped

  /** What `ProtectedComponent` renders, as written. */
  function ProtectionView(o: ProtectionOptions, loading: bool, signedIn: bool, userRole: Option<string>): (v: ProtectedView)
    ensures v == Spinner <==> loading || (signedIn && Lacks(o, userRole) && !ShowsAccessDenied(o))
    ensures v == AccessDenied <==> !loading && signedIn && Lacks(o, userRole) && ShowsAccessDenied(o)
  {
    if loading then Spinner
    else if signedIn && Lacks(o, userRole) && ShowsAccessDenied(o) then AccessDenied
    else if signedIn && Lacks(o, userRole) then Spinner
    else Wrapped
  }

  /**
   * Once loaded, a spinner is only ever shown while the wrapper navigates a
   * signed-in user away, and the denied card only with such a navigation.
   */
  lemma ViewsComeWithRedirect(o: ProtectionOptions, signedIn: bool, userRole: Option<string>)
    ensures ProtectionView(o, false, signedIn, userRole) != Wrapped <==>
      signedIn && ProtectionRedirect(o, false, signedIn, userRole).Some?
  {
  }

  /**
   * As written, a signed-out visitor gets the wrapped page rendered while
   * the wrapper sends them to `/auth`, whatever the allow-list.
   */
  lemma SignedOutSeesWrapped(o: ProtectionOptions, userRole: Option<string>)
    ensures ProtectionView(o, false, false, userRole) == Wrapped
    ensures ProtectionRedirect(o, false, false, userRole) == Some("/auth")
  {
  }

  /**
   * The evident intent: the page renders only for a signed-in user holding
   * an allowed role; a signed-out visitor waits on a spinner for `/auth`.
   */
  function GuardedProtectionView(o: ProtectionOptions, loading: bool, signedIn: bool, userRole: Option<string>): (v: ProtectedView)
    ensures v == Wrapped <==> !loading && signedIn && HasAnyRole(userRole, o.allowedRoles)
    ensures v == AccessDenied <==> !loading && signedIn && Lacks(o, userRole) && ShowsAccessDenied(o)
  {
    if !loading && !signedIn then Spinner else ProtectionView(o, loading, signedIn, userRole)
  }

  /** The correction changes nothing for a signed-in user or while loading. */
  lemma GuardedViewAgrees(o: ProtectionOptions, loading: bool, signedIn: bool, userRole: Option<string>)
    ensures loading || signedIn ==>
      GuardedProtectionView(o, loading, signedIn, userRole) == ProtectionView(o, loading, signedIn, userRole)
    ensures !loading && !signedIn ==>
      GuardedProtectionView(o, loading, signedIn, userRole) == Spinner &&
      ProtectionRedirect(o, loading, signedIn, userRole) == Some("/auth")
  {
  }

  /** `withAdminProtection`. */
  const AdminProtection := ProtectionOptions(["admin"], None, None)
  /** `withScannerProtection`. */
  const ScannerProtection := ProtectionOptions(["admin", "scanner"], None, None)
  /** `withBuyerProtection`. */
  const BuyerProtection := ProtectionOptions(["buyer"], None, None)
  /** `withAuthenticatedProtection`. */
  const AuthenticatedProtection := ProtectionOptions(["buyer", "admin", "scanner"], None, None)

  /**
   * Who gets through each ready-made wrapper: admins only; admins and
   * scanners; buyers only; any of the three roles. All four show the
   * denied card and send everyone else to their role's home page.
   */
  lemma ConvenienceRoles(role: string)
    ensures !Lacks(AdminProtection, Some(role)) <==> role == "admin"
    ensures !Lacks(ScannerProtection, Some(role)) <==> role == "admin" || role == "scanner"
    ensures !Lacks(BuyerProtection, Some(role)) <==> role == "buyer"
    ensures !Lacks(AuthenticatedProtection, Some(role)) <==> role in {"buyer", "admin", "scanner"}
    ensures ShowsAccessDenied(AdminProtection) && ShowsAccessDenied(ScannerProtection)
    ensures ShowsAccessDenied(BuyerProtection) && ShowsAccessDenied(AuthenticatedProtection)
  {
  }

  /** A user without a role is turned away by every ready-made wrapper and sent to `/`. */
  lemma NoRoleTurnedAway(o: ProtectionOptions)
    requires o in {AdminProtection, ScannerProtection, BuyerProtection, AuthenticatedProtection}
    ensures ProtectionView(o, false, true, None) == AccessDenied
    ensures ProtectionRedirect(o, false, true, None) == Some("/")
  {
  }
}

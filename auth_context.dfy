/**
 * The pure decisions of the authentication context (contexts/auth-context.tsx):
 * how a display name and an avatar are drawn from the identity provider's
 * metadata, which errors count as "session expired", how the effective role
 * and full name fall back from the application's own `users` table to the
 * provider's metadata, the row written for a first-time user, and the
 * in-progress guard around creating it. That guard reads the `creatingUser`
 * Set its closure captured. The authentication effect's closure holds the
 * first render's Set, which the state updates replace but never change, so
 * from there the guard never refuses (`CreateFromAuthEffect`,
 * `AsWrittenOverlap`). `CreateUserInDatabase` reads the current set,
 * which is what the guard is for (`GuardedOverlap`).
 */
module AuthContext {
  import opened Common

  /** The provider-supplied `user_metadata`; every field may be missing. */
  datatype UserMetadata = UserMetadata(
    full_name: Option<string>,
    name: Option<string>,
    display_name: Option<string>,
    first_name: Option<string>,
    avatar_url: Option<string>,
    picture: Option<string>,
    photo: Option<string>,
    phone: Option<string>,
    role: Option<string>)

  datatype AppMetadata = AppMetadata(provider: Option<string>, role: Option<string>)

  /** The signed-in user as the authentication provider reports it. */
  datatype AuthUser = AuthUser(
    id: string,
    email: Option<string>,
    email_confirmed_at: Option<string>,
    created_at: Option<string>,
    updated_at: Option<string>,
    user_metadata: UserMetadata,
    app_metadata: AppMetadata)

  /** A row of the application's own `users` table. */
  datatype UserRow = UserRow(
    id: string,
    email: string,
    name: Option<string>,
    role: Option<string>,
    phone: Option<string>,
    avatar_url: Option<string>,
    email_verified: bool,
    is_active: bool)

  /** `authUser.email?.split('@')[0]`: missing when there is no e-mail. */
  function EmailLocalPart(u: AuthUser): (r: Option<string>)
    ensures u.email.None? <==> r.None?
    ensures u.email.Some? ==> r.value <= u.email.value && '@' !in r.value
  {
    match u.email
    case None => None
    case Some(e) => Some(LocalPart(e))
  }

  /**
   * The display name: the first non-empty of full_name, name, display_name
   * and the e-mail's local part, else 'Usuario'. It is never empty.
   */
  function ExtractUserName(u: AuthUser): (r: string)
    ensures r != ""
    ensures Truthy(u.user_metadata.full_name) ==> r == u.user_metadata.full_name.value
    ensures !Truthy(u.user_metadata.full_name) && Truthy(u.user_metadata.name) ==>
      r == u.user_metadata.name.value
    ensures (!Truthy(u.user_metadata.full_name) && !Truthy(u.user_metadata.name)
             && Truthy(u.user_metadata.display_name)) ==> r == u.user_metadata.display_name.value
    ensures (!Truthy(u.user_metadata.full_name) && !Truthy(u.user_metadata.name)
             && !Truthy(u.user_metadata.display_name) && Truthy(EmailLocalPart(u))) ==>
            r == EmailLocalPart(u).value
    ensures (!Truthy(u.user_metadata.full_name) && !Truthy(u.user_metadata.name)
             && !Truthy(u.user_metadata.display_name) && !Truthy(EmailLocalPart(u))) ==> r == "Usuario"
  {
    var m := u.user_metadata;
    OrElse(Or(Or(Or(m.full_name, m.name), m.display_name), EmailLocalPart(u)), "Usuario")
  }

  /** The avatar: the first non-empty of avatar_url, picture and photo, else null. */
  function ExtractAvatarUrl(u: AuthUser): (r: Option<string>)
    ensures r.None? <==> (!Truthy(u.user_metadata.avatar_url) && !Truthy(u.user_metadata.picture)
      && !Truthy(u.user_metadata.photo))
    ensures r.Some? ==> r.value != ""
    ensures Truthy(u.user_metadata.avatar_url) ==> r == u.user_metadata.avatar_url
    ensures !Truthy(u.user_metadata.avatar_url) && Truthy(u.user_metadata.picture) ==>
      r == u.user_metadata.picture
    ensures !Truthy(u.user_metadata.avatar_url) && !Truthy(u.user_metadata.picture) ==>
      r == (if Truthy(u.user_metadata.photo) then u.user_metadata.photo else None)
  {
    var m := u.user_metadata;
    var chosen := Or(Or(m.avatar_url, m.picture), m.photo);
    if Truthy(chosen) then chosen else None
  }

  // ---------------------------------------------------------------------
  // Classification of authentication errors

  /** The phrases whose presence in an error message means the session is gone. */
  const AuthPhrases: seq<string> :=
    ["JWT expired", "invalid JWT", "token has expired", "Authentication required", "Invalid JWT"]

  /** `error?.message || error?.error_description || error?.error || ''`. */
  function AuthErrorMessage(e: ErrorObject): (r: string)
    ensures Truthy(e.message) ==> r == e.message.value
    ensures !Truthy(e.message) && Truthy(e.error_description) ==> r == e.error_description.value
    ensures !Truthy(e.message) && !Truthy(e.error_description) ==> r == e.error.GetOr("")
  {
    OrElse(Or(Or(e.message, e.error_description), e.error), "")
  }

  /** The test in `handleAuthError`: true exactly for errors that sign the user out. */
  predicate IsAuthError(e: ErrorObject) {
    var msg := AuthErrorMessage(e);
    Contains(msg, "JWT expired")
    || Contains(msg, "invalid JWT")
    || Contains(msg, "token has expired")
    || Contains(msg, "Authentication required")
    || Contains(msg, "Invalid JWT")
    || e.status == Some(401)
    || e.code == Some("PGRST301")
  }

  /** Both directions of the classification, stated over the phrase table. */
  lemma IsAuthErrorCharacterized(e: ErrorObject)
    ensures IsAuthError(e) <==>
      (|| (exists k :: 0 <= k < |AuthPhrases| && Contains(AuthErrorMessage(e), AuthPhrases[k]))
       || e.status == Some(401)
       || e.code == Some("PGRST301"))
  {
    var msg := AuthErrorMessage(e);
    if exists k :: 0 <= k < |AuthPhrases| && Contains(msg, AuthPhrases[k]) {
      var k :| 0 <= k < |AuthPhrases| && Contains(msg, AuthPhrases[k]);
      assert k == 0 || k == 1 || k == 2 || k == 3 || k == 4;
    }
    if Contains(msg, "JWT expired") { assert Contains(msg, AuthPhrases[0]); }
    if Contains(msg, "invalid JWT") { assert Contains(msg, AuthPhrases[1]); }
    if Contains(msg, "token has expired") { assert Contains(msg, AuthPhrases[2]); }
    if Contains(msg, "Authentication required") { assert Contains(msg, AuthPhrases[3]); }
    if Contains(msg, "Invalid JWT") { assert Contains(msg, AuthPhrases[4]); }
  }

  // ---------------------------------------------------------------------
  // Role and name fallbacks

  /**
   * `customUserData?.role || user?.user_metadata?.role || user?.app_metadata?.role || null`.
   * The role is never the empty string.
   */
  function UserRole(custom: Option<UserRow>, user: Option<AuthUser>): (r: Option<string>)
    ensures r.Some? ==> r.value != ""
    ensures custom.Some? && Truthy(custom.value.role) ==> r == custom.value.role
    ensures ((custom.None? || !Truthy(custom.value.role)) && user.Some?
             && Truthy(user.value.user_metadata.role)) ==> r == user.value.user_metadata.role
    ensures (custom.None? || !Truthy(custom.value.role)) && user.None? ==> r.None?
    ensures ((custom.None? || !Truthy(custom.value.role)) && user.Some?
             && !Truthy(user.value.user_metadata.role)) ==>
            r == (if Truthy(user.value.app_metadata.role) then user.value.app_metadata.role else None)
  {
    var fromTable := if custom.Some? then custom.value.role else None;
    var fromMeta := if user.Some? then user.value.user_metadata.role else None;
    var fromApp := if user.Some? then user.value.app_metadata.role else None;
    var chosen := Or(Or(fromTable, fromMeta), fromApp);
    if Truthy(chosen) then chosen else None
  }

  /** `customUserData?.name || user?.user_metadata?.full_name || user?.user_metadata?.name || null`. */
  function UserFullName(custom: Option<UserRow>, user: Option<AuthUser>): (r: Option<string>)
    ensures r.Some? ==> r.value != ""
    ensures custom.Some? && Truthy(custom.value.name) ==> r == custom.value.name
    ensures ((custom.None? || !Truthy(custom.value.name)) && user.Some?
             && Truthy(user.value.user_metadata.full_name)) ==> r == user.value.user_metadata.full_name
    ensures ((custom.None? || !Truthy(custom.value.name)) && user.Some?
             && !Truthy(user.value.user_metadata.full_name)) ==>
            r == (if Truthy(user.value.user_metadata.name) then user.value.user_metadata.name else None)
    ensures (custom.None? || !Truthy(custom.value.name)) && user.None? ==> r.None?
  {
    var fromTable := if custom.Some? then custom.value.name else None;
    var fromFull := if user.Some? then user.value.user_metadata.full_name else None;
    var fromName := if user.Some? then user.value.user_metadata.name else None;
    var chosen := Or(Or(fromTable, fromFull), fromName);
    if Truthy(chosen) then chosen else None
  }

  /** `hasRole(role)`: `userRole === role`. */
  predicate HasRole(userRole: Option<string>, role: string) {
    userRole == Some(role)
  }

  /** `hasAnyRole(roles)`: false without a role, membership otherwise. */
  predicate HasAnyRole(userRole: Option<string>, roles: seq<string>) {
    if Truthy(userRole) then userRole.value in roles else false
  }

  lemma HasAnyRoleCharacterized(userRole: Option<string>, roles: seq<string>)
    requires userRole.Some? ==> userRole.value != ""
    ensures HasAnyRole(userRole, roles) <==> exists k :: 0 <= k < |roles| && HasRole(userRole, roles[k])
  {
  }

  /** The row inserted for a user who is not yet in the `users` table. */
  function NewUserRow(u: AuthUser): (r: UserRow)
    ensures r.id == u.id
    ensures r.email == u.email.GetOr("")
    ensures r.name == Some(ExtractUserName(u))
    ensures r.role == Some("buyer") && r.is_active
    ensures r.avatar_url == ExtractAvatarUrl(u)
    ensures r.phone == (if Truthy(u.user_metadata.phone) then u.user_metadata.phone else None)
    ensures r.email_verified <==> Truthy(u.email_confirmed_at)
  {
    UserRow(
      u.id,
      OrElse(u.email, ""),
      Some(ExtractUserName(u)),
      Some("buyer"),
      if Truthy(u.user_metadata.phone) then u.user_metadata.phone else None,
      ExtractAvatarUrl(u),
      Truthy(u.email_confirmed_at),
      true)
  }

  /** A first-time user's role, read back through the fallback chain, is 'buyer'. */
  lemma NewUserIsBuyer(u: AuthUser)
    ensures UserRole(Some(NewUserRow(u)), Some(u)) == Some("buyer")
    ensures HasRole(UserRole(Some(NewUserRow(u)), Some(u)), "buyer")
  {
  }

  // ---------------------------------------------------------------------
  // Creating the `users` row, guarded against concurrent attempts

  datatype CreateOutcome =
    | AlreadyInProgress
    | AlreadyExists(row: UserRow)
    | Created(row: UserRow)
    | Failed(error: ErrorObject)

  /** The part of the provider that writes the `users` table. */
  class UserDirectory {
    /** Ids whose creation has started and not yet finished (`creatingUser`). */
    var creatingUser: set<string>
    /** The `users` table, by id. */
    var users: map<string, UserRow>

    ghost predicate Valid()
      reads this
    {
      forall id :: id in users ==> users[id].id == id
    }

    constructor (existing: map<string, UserRow>)
      requires forall id :: id in existing ==> existing[id].id == id
      ensures Valid() && users == existing && creatingUser == {}
    {
      users := existing;
      creatingUser := {};
    }

    /**
     * The guard at the head of `createUserInDatabase`: proceed only if the
     * id is not in `seen`, the `creatingUser` Set the calling closure
     * captured, and then mark the id in the current set.
     */
    method BeginCreation(u: AuthUser, seen: set<string>) returns (proceed: bool)
      modifies this`creatingUser
      ensures proceed <==> u.id !in seen
      ensures creatingUser == if proceed then old(creatingUser) + {u.id} else old(creatingUser)
    {
      if u.id in seen {
        return false;
      }
      creatingUser := creatingUser + {u.id};
      return true;
    }

    /**
     * The body of `createUserInDatabase` after the guard: look the user up,
     * insert the defaults if absent, and in every case remove the id from
     * the in-progress set. A lookup error other than "no rows" (PGRST116)
     * and an insert error are reported as failures.
     */
    method FinishCreation(u: AuthUser, lookupFault: Option<ErrorObject>, insertFault: Option<ErrorObject>)
      returns (r: CreateOutcome)
      requires Valid()
      modifies this
      ensures Valid()
      ensures creatingUser == old(creatingUser) - {u.id}
      ensures lookupFault.Some? && lookupFault.value.code != Some("PGRST116") ==>
        r == Failed(lookupFault.value) && users == old(users)
      ensures (lookupFault.None? || lookupFault.value.code == Some("PGRST116")) && u.id in old(users) ==>
        r == AlreadyExists(old(users)[u.id]) && users == old(users)
      ensures (lookupFault.None? || lookupFault.value.code == Some("PGRST116")) && u.id !in old(users) ==>
        (if insertFault.Some? then r == Failed(insertFault.value) && users == old(users)
         else r == Created(NewUserRow(u)) && users == old(users)[u.id := NewUserRow(u)])
    {
      if lookupFault.Some? && lookupFault.value.code != Some("PGRST116") {
        r := Failed(lookupFault.value);
      } else if u.id in users {
        r := AlreadyExists(users[u.id]);
      } else if insertFault.Some? {
        r := Failed(insertFault.value);
      } else {
        var row := NewUserRow(u);
        users := users[u.id := row];
        r := Created(row);
      }
      // finally: always clear the in-progress mark
      creatingUser := creatingUser - {u.id};
    }

    /**
     * `createUserInDatabase` as one call: returns at once when the id is
     * already being created, and otherwise leaves the in-progress set as it
     * found it.
     */
    method CreateUserInDatabase(u: AuthUser, lookupFault: Option<ErrorObject>, insertFault: Option<ErrorObject>)
      returns (r: CreateOutcome)
      requires Valid()
      modifies this
      ensures Valid()
      ensures creatingUser == old(creatingUser)
      ensures u.id in old(creatingUser) ==> r == AlreadyInProgress && users == old(users)
      ensures u.id !in old(creatingUser) ==> r != AlreadyInProgress
      ensures r.Created? ==>
                (r.row.role == Some("buyer") && r.row.is_active && users == old(users)[u.id := r.row])
      ensures !r.Created? ==> users == old(users)
    {
      var proceed := BeginCreation(u, creatingUser);
      if !proceed {
        return AlreadyInProgress;
      }
      r := FinishCreation(u, lookupFault, insertFault);
    }

    /**
     * `createUserInDatabase` as the authentication effect calls it: its
     * closure holds the first render's empty Set, so the creation always
     * goes ahead, and its `finally` also clears a mark another creation of
     * the same id had set.
     */
    method CreateFromAuthEffect(u: AuthUser, lookupFault: Option<ErrorObject>, insertFault: Option<ErrorObject>)
      returns (r: CreateOutcome)
      requires Valid()
      modifies this
      ensures Valid()
      ensures r != AlreadyInProgress
      ensures creatingUser == old(creatingUser) - {u.id}
      ensures r.Created? ==>
                (r.row.role == Some("buyer") && r.row.is_active && users == old(users)[u.id := r.row])
      ensures !r.Created? ==> users == old(users)
    {
      var proceed := BeginCreation(u, FirstRenderCreating);
      r := FinishCreation(u, lookupFault, insertFault);
    }

    /**
     * As written: two creations of the same id that overlap (the second
     * starts before the first's `finally`) both pass the guard when they
     * come from the authentication effect.
     */
    method AsWrittenOverlap(u: AuthUser) returns (first: bool, second: bool)
      requires creatingUser == {}
      modifies this`creatingUser
      ensures first && second
      ensures creatingUser == {u.id}
    {
      first := BeginCreation(u, FirstRenderCreating);
      second := BeginCreation(u, FirstRenderCreating);
    }

    /**
     * Corrected: reading the current set, the second of two overlapping
     * creations of the same id is refused.
     */
    method GuardedOverlap(u: AuthUser) returns (first: bool, second: bool)
      requires creatingUser == {}
      modifies this`creatingUser
      ensures first && !second
      ensures creatingUser == {u.id}
    {
      first := BeginCreation(u, creatingUser);
      second := BeginCreation(u, creatingUser);
    }
  }

  /** The `creatingUser` Set of the first render, which the authentication effect's closure keeps. */
  const FirstRenderCreating: set<string> := {}
}

/**
 * The three route guards. Each resolves the request's user and role from the
 * store (never from the token's role claim) and answers Allow or Deny.
 * They are pure functions of the store, so no decision changes the store.
 */
module Guards {
  import opened Wrappers
  import opened Errors
  import opened Schemas
  import opened Stores

  /** The request user the JWT strategy attaches: `{ userId, email, role }`. */
  datatype Principal = Principal(userId: Id, email: string, role: string)

  /** A guard's answer. */
  datatype Decision = Allow | Deny(reason: DenyReason)

  /** The route's metadata list; absent metadata behaves as an empty list. */
  function Required(meta: Option<seq<string>>): seq<string> {
    meta.GetOr([])
  }

  /** The request carries a user with a non-empty userId. */
  predicate HasUserId(user: Option<Principal>) {
    user.Some? && user.value.userId != ""
  }

  /** The request's userId names a stored user. */
  predicate KnownUser(s: Store, user: Option<Principal>) {
    HasUserId(user) && user.value.userId in s.users
  }

  /** The stored user's roleId names a stored role. */
  predicate HasRole(s: Store, user: Option<Principal>) {
    KnownUser(s, user) && s.users[user.value.userId].roleId in s.roles
  }

  /** The role the store assigns to the request's user. */
  function DbRole(s: Store, user: Option<Principal>): Role
    requires HasRole(s, user)
  {
    s.roles[s.users[user.value.userId].roleId]
  }

  /** The lookups RolesGuard and PermissionsGuard share: request user, stored user, stored role. */
  function ResolveRole(s: Store, user: Option<Principal>): (r: Result<Role, DenyReason>)
    ensures r.Ok? <==> HasRole(s, user)
    ensures r.Ok? ==> r.value == DbRole(s, user)
    ensures !HasUserId(user) ==> r == Err(AccessDenied)
    ensures HasUserId(user) && !KnownUser(s, user) ==> r == Err(UserNotFound)
    ensures KnownUser(s, user) && !HasRole(s, user) ==> r == Err(RoleNotFound)
  {
    if user.None? || user.value.userId == "" then Err(AccessDenied)
    else if user.value.userId !in s.users then Err(UserNotFound)
    else
      var roleId := s.users[user.value.userId].roleId;
      if roleId !in s.roles then Err(RoleNotFound)
      else Ok(s.roles[roleId])
  }

  /** RolesGuard: any one of the required role names suffices; a super-admin role passes. */
  function RolesGuard(s: Store, user: Option<Principal>, meta: Option<seq<string>>): (d: Decision)
    ensures Required(meta) == [] ==> d == Allow
    ensures Required(meta) != [] && !HasUserId(user) ==> d == Deny(AccessDenied)
    ensures Required(meta) != [] && HasUserId(user) && !KnownUser(s, user) ==> d == Deny(UserNotFound)
    ensures Required(meta) != [] && KnownUser(s, user) && !HasRole(s, user) ==> d == Deny(RoleNotFound)
    ensures Required(meta) != [] && HasRole(s, user) && DbRole(s, user).isSuperAdmin ==> d == Allow
    ensures Required(meta) != [] && HasRole(s, user) && !DbRole(s, user).isSuperAdmin ==>
      (d == Allow <==> DbRole(s, user).name in Required(meta))
      && (d != Allow ==> d == Deny(InsufficientRole))
  {
    var required := Required(meta);
    if required == [] then Allow
    else
      match ResolveRole(s, user)
      case Err(reason) => Deny(reason)
      case Ok(role) =>
        if role.isSuperAdmin then Allow
        else if role.name in required then Allow
        else Deny(InsufficientRole)
  }

  /** PermissionsGuard: every required key must be granted; a super-admin role passes. */
  function PermissionsGuard(s: Store, user: Option<Principal>, meta: Option<seq<string>>): (d: Decision)
    ensures Required(meta) == [] ==> d == Allow
    ensures Required(meta) != [] && !HasUserId(user) ==> d == Deny(AccessDenied)
    ensures Required(meta) != [] && HasUserId(user) && !KnownUser(s, user) ==> d == Deny(UserNotFound)
    ensures Required(meta) != [] && KnownUser(s, user) && !HasRole(s, user) ==> d == Deny(RoleNotFound)
    ensures Required(meta) != [] && HasRole(s, user) && DbRole(s, user).isSuperAdmin ==> d == Allow
    ensures Required(meta) != [] && HasRole(s, user) && !DbRole(s, user).isSuperAdmin ==>
      (d == Allow <==> forall k :: k in Required(meta) ==> Grants(s.permissions, DbRole(s, user).permissions, k))
      && (d != Allow ==> d == Deny(InsufficientPermissions))
  {
    var required := Required(meta);
    if required == [] then Allow
    else
      match ResolveRole(s, user)
      case Err(reason) => Deny(reason)
      case Ok(role) =>
        if role.isSuperAdmin then Allow
        else
          var granted := GrantedKeys(s.permissions, role.permissions);
          if forall k | k in required :: k in granted then Allow
          else Deny(InsufficientPermissions)
  }

  /** SuperAdminGuard: the same gate for every route it protects; no metadata is read. */
  function SuperAdminGuard(s: Store, user: Option<Principal>): (d: Decision)
    ensures !HasUserId(user) ==> d == Deny(AccessDenied)
    ensures HasUserId(user) && !KnownUser(s, user) ==> d == Deny(UserNotFound)
    ensures KnownUser(s, user) ==> (d == Allow <==> HasRole(s, user) && DbRole(s, user).isSuperAdmin)
    ensures KnownUser(s, user) && d != Allow ==> d == Deny(NotSuperAdmin)
  {
    if user.None? || user.value.userId == "" then Deny(AccessDenied)
    else if user.value.userId !in s.users then Deny(UserNotFound)
    else
      var roleId := s.users[user.value.userId].roleId;
      if roleId in s.roles && s.roles[roleId].isSuperAdmin then Allow
      else Deny(NotSuperAdmin)
  }

  /** A user who passes the super-admin gate passes every role and permission requirement. */
  lemma SuperAdminPassesEveryGuard(s: Store, user: Option<Principal>, roles: Option<seq<string>>, perms: Option<seq<string>>)
    requires SuperAdminGuard(s, user) == Allow
    ensures RolesGuard(s, user, roles) == Allow
    ensures PermissionsGuard(s, user, perms) == Allow
  {}

  /** A user whose role is missing is refused with the super-admin message, not "Role not found". */
  lemma SuperAdminGateMissingRole(s: Store, user: Option<Principal>)
    requires KnownUser(s, user) && !HasRole(s, user)
    ensures SuperAdminGuard(s, user) == Deny(NotSuperAdmin)
    ensures RolesGuard(s, user, Some([Admin])) == Deny(RoleNotFound)
  {}

  /** The decisions never read the token's role claim. */
  lemma GuardsIgnoreTokenRole(s: Store, p: Principal, claim: string, meta: Option<seq<string>>)
    ensures RolesGuard(s, Some(p.(role := claim)), meta) == RolesGuard(s, Some(p), meta)
    ensures PermissionsGuard(s, Some(p.(role := claim)), meta) == PermissionsGuard(s, Some(p), meta)
    ensures SuperAdminGuard(s, Some(p.(role := claim))) == SuperAdminGuard(s, Some(p))
  {}

  /** The decisions never read the stored user's `isActive` flag. */
  lemma GuardsIgnoreIsActive(s: Store, user: Option<Principal>, uid: Id, active: bool, meta: Option<seq<string>>)
    requires uid in s.users
    ensures var s' := s.(users := s.users[uid := s.users[uid].(isActive := active)]);
      && RolesGuard(s', user, meta) == RolesGuard(s, user, meta)
      && PermissionsGuard(s', user, meta) == PermissionsGuard(s, user, meta)
      && SuperAdminGuard(s', user) == SuperAdminGuard(s, user)
  {
    var s' := s.(users := s.users[uid := s.users[uid].(isActive := active)]);
    assert HasRole(s', user) <==> HasRole(s, user);
    if HasRole(s, user) {
      assert DbRole(s', user) == DbRole(s, user);
    }
  }

  /** Granting a role more permission ids never turns an Allow into a Deny. */
  lemma PermissionsGuardMonotone(s: Store, user: Option<Principal>, meta: Option<seq<string>>, rid: Id, extra: seq<Id>)
    requires rid in s.roles
    requires PermissionsGuard(s, user, meta) == Allow
    ensures var s' := s.(roles := s.roles[rid := s.roles[rid].(permissions := s.roles[rid].permissions + extra)]);
      PermissionsGuard(s', user, meta) == Allow
  {
    var s' := s.(roles := s.roles[rid := s.roles[rid].(permissions := s.roles[rid].permissions + extra)]);
    if Required(meta) != [] {
      assert HasRole(s', user);
      if !DbRole(s, user).isSuperAdmin && s.users[user.value.userId].roleId == rid {
        forall k | k in Required(meta)
          ensures Grants(s'.permissions, DbRole(s', user).permissions, k)
        {
          GrantsMonotone(s.permissions, s.roles[rid].permissions, extra, k);
        }
      }
    }
  }

  /** Only the set of required names matters: order and repetition do not. */
  lemma GuardsDependOnRequiredSet(s: Store, user: Option<Principal>, a: seq<string>, b: seq<string>)
    requires forall k :: k in a <==> k in b
    ensures RolesGuard(s, user, Some(a)) == RolesGuard(s, user, Some(b))
    ensures PermissionsGuard(s, user, Some(a)) == PermissionsGuard(s, user, Some(b))
  {
    assert a == [] <==> b == [] by {
      if a != [] { assert a[0] in b; }
      if b != [] { assert b[0] in a; }
    }
  }

  /** A non-super-admin missing any one required key is refused, whatever else it holds. */
  lemma OneMissingKeyDenies(s: Store, user: Option<Principal>, required: seq<string>, k: string)
    requires HasRole(s, user) && !DbRole(s, user).isSuperAdmin
    requires k in required && !Grants(s.permissions, DbRole(s, user).permissions, k)
    ensures PermissionsGuard(s, user, Some(required)) == Deny(InsufficientPermissions)
  {}
}

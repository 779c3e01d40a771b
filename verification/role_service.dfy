/** The role store: unique names, permission ids kept as references. */
module RoleService {
  import opened Wrappers
  import opened Errors
  import opened Schemas
  import opened Stores
  import Guards

  /** The body of a create request. */
  datatype CreateRole = CreateRole(name: string, permissions: Option<seq<Id>>, isSuperAdmin: Option<bool>)

  /** The body of an update request: every given property is written. */
  datatype UpdateRole = UpdateRole(name: Option<string>, permissions: Option<seq<Id>>, isSuperAdmin: Option<bool>)

  /** A role as a read returns it: permission ids replaced by the records that exist. */
  datatype RoleView = RoleView(name: string, permissions: seq<Permission>, isSuperAdmin: bool)

  /** The read view of a stored role. */
  function View(s: Store, r: Role): (v: RoleView)
    ensures v.name == r.name && v.isSuperAdmin == r.isSuperAdmin
    ensures forall p :: p in v.permissions <==>
      exists i :: 0 <= i < |r.permissions| && r.permissions[i] in s.permissions && s.permissions[r.permissions[i]] == p
  {
    RoleView(r.name, Populate(s.permissions, r.permissions), r.isSuperAdmin)
  }

  /**
   * Creates a role under the fresh id `id`; a used name is a conflict. The
   * permission list defaults to empty and `isSuperAdmin` to false; permission
   * ids are not checked against the permission store.
   */
  function Create(s: Store, dto: CreateRole, id: Id): (r: Result<Store, Error>)
    requires id !in s.roles
    ensures r.Ok? <==> !KeyTaken(s.roles, RoleName, dto.name)
    ensures r.Err? ==> r.error == Conflict(RoleRecord)
    ensures r.Ok? ==> r.value.roles.Keys == s.roles.Keys + {id}
    ensures r.Ok? ==>
      var role := r.value.roles[id];
      && role.name == dto.name
      && role.permissions == dto.permissions.GetOr([])
      && (role.isSuperAdmin <==> dto.isSuperAdmin == Some(true))
      && (forall o | o in s.roles :: r.value.roles[o] == s.roles[o])
      && r.value == s.(roles := r.value.roles)
  {
    if KeyTaken(s.roles, RoleName, dto.name) then Err(Conflict(RoleRecord))
    else Ok(s.(roles := s.roles[id := Role(dto.name, dto.permissions.GetOr([]), dto.isSuperAdmin.GetOr(false))]))
  }

  /** Reads one role with its permissions populated. */
  function FindOne(s: Store, id: Id): (r: Result<RoleView, Error>)
    ensures r.Ok? <==> id in s.roles
    ensures r.Ok? ==> r.value == View(s, s.roles[id])
    ensures r.Err? ==> r.error == NotFound(RoleRecord)
  {
    if id in s.roles then Ok(View(s, s.roles[id])) else Err(NotFound(RoleRecord))
  }

  /**
   * Updates one role. A non-empty name held by another role is a conflict,
   * checked before the role is looked up; then every supplied property,
   * including an empty name, is written.
   */
  function Update(s: Store, id: Id, dto: UpdateRole): (r: Result<Store, Error>)
    ensures Truthy(dto.name) && KeyTakenByOther(s.roles, RoleName, dto.name.value, id) ==>
      r == Err(Conflict(RoleRecord))
    ensures !(Truthy(dto.name) && KeyTakenByOther(s.roles, RoleName, dto.name.value, id)) ==>
      (r.Ok? <==> id in s.roles) && (r.Err? ==> r.error == NotFound(RoleRecord))
    ensures r.Ok? ==> r.value.roles.Keys == s.roles.Keys
    ensures r.Ok? ==>
      var before := s.roles[id];
      var role := r.value.roles[id];
      && role.name == dto.name.GetOr(before.name)
      && role.permissions == dto.permissions.GetOr(before.permissions)
      && role.isSuperAdmin == dto.isSuperAdmin.GetOr(before.isSuperAdmin)
      && (forall o | o in s.roles && o != id :: r.value.roles[o] == s.roles[o])
      && r.value == s.(roles := r.value.roles)
  {
    if Truthy(dto.name) && KeyTakenByOther(s.roles, RoleName, dto.name.value, id) then Err(Conflict(RoleRecord))
    else if id !in s.roles then Err(NotFound(RoleRecord))
    else
      var role := s.roles[id];
      var role' := Role(dto.name.GetOr(role.name), dto.permissions.GetOr(role.permissions), dto.isSuperAdmin.GetOr(role.isSuperAdmin));
      Ok(s.(roles := s.roles[id := role']))
  }

  /** Deletes one role only; users keep its id. */
  function Remove(s: Store, id: Id): (r: Result<Store, Error>)
    ensures r.Ok? <==> id in s.roles
    ensures r.Err? ==> r.error == NotFound(RoleRecord)
    ensures r.Ok? ==> r.value.users == s.users && r.value.roles == s.roles - {id}
    ensures r.Ok? ==> r.value == s.(roles := r.value.roles)
  {
    if id in s.roles then Ok(s.(roles := s.roles - {id})) else Err(NotFound(RoleRecord))
  }

  /** Create keeps role names unique. */
  lemma CreateKeepsNamesUnique(s: Store, dto: CreateRole, id: Id)
    requires id !in s.roles && UniqueOn(s.roles, RoleName)
    requires Create(s, dto, id).Ok?
    ensures UniqueOn(Create(s, dto, id).value.roles, RoleName)
  {
    UniqueOnInsert(s.roles, RoleName, id, Create(s, dto, id).value.roles[id]);
  }

  /**
   * Update keeps role names unique when the supplied name, if any, is
   * non-empty: an empty name skips the pre-check yet is written.
   */
  lemma UpdateKeepsNamesUnique(s: Store, id: Id, dto: UpdateRole)
    requires UniqueOn(s.roles, RoleName) && dto.name != Some("")
    requires Update(s, id, dto).Ok?
    ensures UniqueOn(Update(s, id, dto).value.roles, RoleName)
  {
    var role := Update(s, id, dto).value.roles[id];
    if dto.name.None? {
      assert role.name == s.roles[id].name;
      assert !KeyTakenByOther(s.roles, RoleName, role.name, id);
    }
    UniqueOnReplace(s.roles, RoleName, id, role);
  }

  /**
   * A role created without the super-admin flag gets no bypass: its users
   * pass a role requirement exactly when the role's name is listed.
   */
  lemma CreatedRoleIsOrdinary(s: Store, dto: CreateRole, id: Id, user: Option<Guards.Principal>, meta: seq<string>)
    requires id !in s.roles && dto.isSuperAdmin != Some(true)
    requires Create(s, dto, id).Ok?
    requires Guards.KnownUser(s, user) && s.users[user.value.userId].roleId == id && meta != []
    ensures Guards.RolesGuard(Create(s, dto, id).value, user, Some(meta)) == Guards.Allow <==> dto.name in meta
    ensures Guards.SuperAdminGuard(Create(s, dto, id).value, user) == Guards.Deny(NotSuperAdmin)
  {
    var s' := Create(s, dto, id).value;
    assert Guards.HasRole(s', user) && Guards.DbRole(s', user) == s'.roles[id];
  }

  /** After a role is deleted, its users are refused by the guards with "Role not found". */
  lemma RemovedRoleLocksOutUsers(s: Store, id: Id, user: Option<Guards.Principal>, meta: seq<string>)
    requires id in s.roles && Guards.KnownUser(s, user) && s.users[user.value.userId].roleId == id
    requires meta != []
    ensures var s' := Remove(s, id).value;
      && Guards.RolesGuard(s', user, Some(meta)) == Guards.Deny(RoleNotFound)
      && Guards.PermissionsGuard(s', user, Some(meta)) == Guards.Deny(RoleNotFound)
      && Guards.SuperAdminGuard(s', user) == Guards.Deny(NotSuperAdmin)
  {
    var s' := Remove(s, id).value;
    assert Guards.KnownUser(s', user) && !Guards.HasRole(s', user);
  }
}

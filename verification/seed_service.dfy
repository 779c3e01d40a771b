/**
 * Start-up seeding: an ADMIN super-admin role and an admin user, each created
 * only when missing, so repeated start-ups against the same store change nothing.
 */
module SeedService {
  import opened Wrappers
  import opened Errors
  import opened Schemas
  import opened Stores
  import Guards

  /** The admin account settings read from the environment. */
  datatype AdminConfig = AdminConfig(email: string, password: Option<string>)

  /** The default admin e-mail, used when the environment gives none. */
  const DefaultAdminEmail: string := "admin@system.com"

  /** The full name of the seeded admin user. */
  const AdminFullName: string := "Super Admin"

  /** Builds the admin settings: an unset or empty e-mail falls back to the default. */
  function LoadAdminConfig(envEmail: Option<string>, envPassword: Option<string>): (c: AdminConfig)
    ensures Truthy(envEmail) ==> c.email == envEmail.value
    ensures !Truthy(envEmail) ==> c.email == DefaultAdminEmail
    ensures c.password == envPassword
  {
    AdminConfig(if Truthy(envEmail) then envEmail.value else DefaultAdminEmail, envPassword)
  }

  /** The service instance's state: the store and its in-memory `isSeeded` flag. */
  datatype SeedState = SeedState(store: Store, isSeeded: bool)

  /** The store holds a role named ADMIN. */
  predicate HasAdminRole(s: Store) {
    KeyTaken(s.roles, RoleName, Admin)
  }

  /** Creates the ADMIN role, super-admin and without permissions, under `roleId` unless one exists. */
  function SeedRoles(s: Store, roleId: Id): (s': Store)
    requires roleId !in s.roles
    ensures HasAdminRole(s) ==> s' == s
    ensures !HasAdminRole(s) ==> s' == s.(roles := s.roles[roleId := Role(Admin, [], true)])
  {
    if HasAdminRole(s) then s else s.(roles := s.roles[roleId := Role(Admin, [], true)])
  }

  /** The id of the ADMIN role; role names are unique, so there is one. */
  function AdminRoleId(s: Store): (rid: Id)
    requires HasAdminRole(s) && UniqueOn(s.roles, RoleName)
    ensures rid in s.roles && s.roles[rid].name == Admin
    ensures forall o | o in s.roles && s.roles[o].name == Admin :: o == rid
  {
    var rid :| rid in s.roles && RoleName(s.roles[rid]) == Admin;
    rid
  }

  /**
   * Creates the admin user under `userId`. A missing or empty password is an
   * error; a user already holding the admin e-mail means nothing to do;
   * otherwise a missing ADMIN role is an error.
   */
  function SeedAdmin(s: Store, cfg: AdminConfig, userId: Id): (r: Result<Store, Error>)
    requires userId !in s.users && UniqueOn(s.roles, RoleName)
    ensures !Truthy(cfg.password) ==> r == Err(AdminPasswordMissing)
    ensures Truthy(cfg.password) && KeyTaken(s.users, UserEmail, cfg.email) ==> r == Ok(s)
    ensures Truthy(cfg.password) && !KeyTaken(s.users, UserEmail, cfg.email) && !HasAdminRole(s) ==>
      r == Err(AdminRoleMissing)
    ensures Truthy(cfg.password) && !KeyTaken(s.users, UserEmail, cfg.email) && HasAdminRole(s) ==>
      && r.Ok? && r.value.users.Keys == s.users.Keys + {userId}
      && r.value == s.(users := r.value.users)
      && (forall o | o in s.users :: r.value.users[o] == s.users[o])
      && r.value.users[userId].fullName == AdminFullName
      && r.value.users[userId].email == cfg.email
      && r.value.users[userId].password == cfg.password.value
      && r.value.users[userId].isActive
      && r.value.users[userId].roleId in s.roles
      && s.roles[r.value.users[userId].roleId].name == Admin
  {
    if !Truthy(cfg.password) then Err(AdminPasswordMissing)
    else if KeyTaken(s.users, UserEmail, cfg.email) then Ok(s)
    else if !HasAdminRole(s) then Err(AdminRoleMissing)
    else Ok(s.(users := s.users[userId := User(AdminFullName, cfg.email, cfg.password.value, true, AdminRoleId(s))]))
  }

  /**
   * One start-up: nothing when already seeded; otherwise seed the role, then
   * the admin. The role seeding persists even when the admin seeding fails,
   * and the flag is set only after both succeed.
   */
  function OnModuleInit(st: SeedState, cfg: AdminConfig, roleId: Id, userId: Id): (r: (SeedState, Option<Error>))
    requires roleId !in st.store.roles && userId !in st.store.users && UniqueOn(st.store.roles, RoleName)
    ensures st.isSeeded ==> r == (st, None)
    ensures !st.isSeeded ==> r.0.store.roles == SeedRoles(st.store, roleId).roles
    ensures !st.isSeeded ==> HasAdminRole(r.0.store)
    ensures r.0.isSeeded <==> r.1.None?
    ensures !st.isSeeded && r.1.Some? ==> r.0.store == SeedRoles(st.store, roleId)
    ensures !st.isSeeded ==> (r.1 == Some(AdminPasswordMissing) <==> !Truthy(cfg.password))
    ensures !st.isSeeded && r.1.None? ==> KeyTaken(r.0.store.users, UserEmail, cfg.email)
    ensures !st.isSeeded && r.1.None? ==> forall o | o in st.store.users :: o in r.0.store.users && r.0.store.users[o] == st.store.users[o]
    ensures !st.isSeeded && r.1.None? && !KeyTaken(st.store.users, UserEmail, cfg.email) ==>
      && userId in r.0.store.users
      && r.0.store.users[userId].email == cfg.email
      && r.0.store.users[userId].roleId in r.0.store.roles
      && r.0.store.roles[r.0.store.users[userId].roleId].name == Admin
  {
    if st.isSeeded then (st, None)
    else
      var s1 := SeedRoles(st.store, roleId);
      SeedRolesKeepsNamesUnique(st.store, roleId);
      match SeedAdmin(s1, cfg, userId)
      case Err(e) => (SeedState(s1, false), Some(e))
      case Ok(s2) => (SeedState(s2, true), None)
  }

  /** Seeding the role keeps role names unique and leaves exactly one ADMIN role. */
  lemma SeedRolesKeepsNamesUnique(s: Store, roleId: Id)
    requires roleId !in s.roles && UniqueOn(s.roles, RoleName)
    ensures UniqueOn(SeedRoles(s, roleId).roles, RoleName)
    ensures HasAdminRole(SeedRoles(s, roleId))
  {
    if !HasAdminRole(s) {
      UniqueOnInsert(s.roles, RoleName, roleId, Role(Admin, [], true));
      assert RoleName(SeedRoles(s, roleId).roles[roleId]) == Admin;
    }
  }

  /** Seeding the role twice is seeding it once. */
  lemma SeedRolesIdempotent(s: Store, r1: Id, r2: Id)
    requires r1 !in s.roles && r2 !in SeedRoles(s, r1).roles
    ensures SeedRoles(SeedRoles(s, r1), r2) == SeedRoles(s, r1)
  {
    if !HasAdminRole(s) {
      assert SeedRoles(s, r1).roles[r1].name == Admin;
    }
  }

  /** Once the admin is seeded, seeding again changes nothing. */
  lemma SeedAdminIdempotent(s: Store, cfg: AdminConfig, u1: Id, u2: Id)
    requires u1 !in s.users && UniqueOn(s.roles, RoleName)
    requires SeedAdmin(s, cfg, u1).Ok?
    requires u2 !in SeedAdmin(s, cfg, u1).value.users
    ensures SeedAdmin(SeedAdmin(s, cfg, u1).value, cfg, u2) == SeedAdmin(s, cfg, u1)
  {
    var s1 := SeedAdmin(s, cfg, u1).value;
    if !KeyTaken(s.users, UserEmail, cfg.email) {
      assert UserEmail(s1.users[u1]) == cfg.email;
    }
    assert KeyTaken(s1.users, UserEmail, cfg.email);
  }

  /**
   * A start-up that succeeds leaves a store that a later start-up, with a
   * fresh `isSeeded` flag and new ids, leaves unchanged.
   */
  lemma RestartChangesNothing(st: SeedState, cfg: AdminConfig, r1: Id, u1: Id, r2: Id, u2: Id)
    requires !st.isSeeded
    requires r1 !in st.store.roles && u1 !in st.store.users && UniqueOn(st.store.roles, RoleName)
    requires OnModuleInit(st, cfg, r1, u1).1.None?
    ensures var s' := OnModuleInit(st, cfg, r1, u1).0.store;
      r2 !in s'.roles && u2 !in s'.users ==>
        && UniqueOn(s'.roles, RoleName)
        && OnModuleInit(SeedState(s', false), cfg, r2, u2) == (SeedState(s', true), None)
  {
    var s' := OnModuleInit(st, cfg, r1, u1).0.store;
    var s1 := SeedRoles(st.store, r1);
    SeedRolesKeepsNamesUnique(st.store, r1);
    assert s'.roles == s1.roles;
    if r2 !in s'.roles && u2 !in s'.users {
      assert SeedRoles(s', r2) == s';
      SeedAdminIdempotent(s1, cfg, u1, u2);
    }
  }

  /**
   * On a store with neither an ADMIN role nor a user with the admin e-mail,
   * a successful start-up yields an admin user who passes the super-admin gate.
   */
  lemma SeededAdminIsSuperAdmin(st: SeedState, cfg: AdminConfig, roleId: Id, userId: Id, claim: string)
    requires !st.isSeeded && userId != ""
    requires roleId !in st.store.roles && userId !in st.store.users && UniqueOn(st.store.roles, RoleName)
    requires !HasAdminRole(st.store) && !KeyTaken(st.store.users, UserEmail, cfg.email)
    requires OnModuleInit(st, cfg, roleId, userId).1.None?
    ensures var s' := OnModuleInit(st, cfg, roleId, userId).0.store;
      Guards.SuperAdminGuard(s', Some(Guards.Principal(userId, cfg.email, claim))) == Guards.Allow
  {
    var s1 := SeedRoles(st.store, roleId);
    UniqueOnInsert(st.store.roles, RoleName, roleId, Role(Admin, [], true));
    assert AdminRoleId(s1) == roleId;
  }
}

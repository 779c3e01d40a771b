/** The user store: unique e-mails and partial updates of truthy properties. */
module UserService {
  import opened Wrappers
  import opened Errors
  import opened Schemas
  import opened Stores

  /** The body of a create request. */
  datatype CreateUser = CreateUser(
    fullName: string,
    email: string,
    password: string,
    roleId: Id,
    isActive: Option<bool>)

  /** The body of an update request. */
  datatype UpdateUser = UpdateUser(
    fullName: Option<string>,
    email: Option<string>,
    password: Option<string>,
    roleId: Option<Id>,
    isActive: Option<bool>)

  /**
   * A user as a default read returns it: no password, and the role record
   * when that role exists. `populate` puts the record, or null for a
   * dangling id, where the id was; the view keeps the stored id beside it.
   */
  datatype UserView = UserView(fullName: string, email: string, isActive: bool, roleId: Id, role: Option<Role>)

  /** The read view of a stored user. */
  function View(s: Store, u: User): (v: UserView)
    ensures v.fullName == u.fullName && v.email == u.email && v.isActive == u.isActive && v.roleId == u.roleId
    ensures v.role.Some? <==> u.roleId in s.roles
    ensures v.role.Some? ==> v.role.value == s.roles[u.roleId]
  {
    UserView(u.fullName, u.email, u.isActive, u.roleId, if u.roleId in s.roles then Some(s.roles[u.roleId]) else None)
  }

  /**
   * Creates a user under the fresh id `id`; a used e-mail is a conflict. The
   * role id is not checked; `isActive` defaults to true.
   */
  function Create(s: Store, dto: CreateUser, id: Id): (r: Result<Store, Error>)
    requires id !in s.users
    ensures r.Ok? <==> !KeyTaken(s.users, UserEmail, dto.email)
    ensures r.Err? ==> r.error == Conflict(UserRecord)
    ensures r.Ok? ==> r.value.users.Keys == s.users.Keys + {id}
    ensures r.Ok? ==>
      var u := r.value.users[id];
      && u.email == dto.email && u.fullName == dto.fullName && u.password == dto.password
      && u.roleId == dto.roleId && (u.isActive <==> dto.isActive != Some(false))
      && (forall o | o in s.users :: r.value.users[o] == s.users[o])
      && r.value == s.(users := r.value.users)
  {
    if KeyTaken(s.users, UserEmail, dto.email) then Err(Conflict(UserRecord))
    else Ok(s.(users := s.users[id := User(dto.fullName, dto.email, dto.password, dto.isActive.GetOr(true), dto.roleId)]))
  }

  /** Reads one user, without its password. */
  function FindOne(s: Store, id: Id): (r: Result<UserView, Error>)
    ensures r.Ok? <==> id in s.users
    ensures r.Ok? ==> r.value == View(s, s.users[id])
    ensures r.Err? ==> r.error == NotFound(UserRecord)
  {
    if id in s.users then Ok(View(s, s.users[id])) else Err(NotFound(UserRecord))
  }

  /** A string property after an update: changed only when the supplied value is non-empty. */
  function SetIfTruthy(given: Option<string>, current: string): (v: string)
    ensures Truthy(given) ==> v == given.value
    ensures !Truthy(given) ==> v == current
  {
    if Truthy(given) then given.value else current
  }

  /**
   * Updates one user. A non-empty e-mail held by another user is a conflict,
   * checked before the user is looked up; then full name, e-mail, password
   * and role id change only when non-empty, and `isActive` whenever given.
   */
  function Update(s: Store, id: Id, dto: UpdateUser): (r: Result<Store, Error>)
    ensures Truthy(dto.email) && KeyTakenByOther(s.users, UserEmail, dto.email.value, id) ==>
      r == Err(Conflict(UserRecord))
    ensures !(Truthy(dto.email) && KeyTakenByOther(s.users, UserEmail, dto.email.value, id)) ==>
      (r.Ok? <==> id in s.users) && (r.Err? ==> r.error == NotFound(UserRecord))
    ensures r.Ok? ==> r.value.users.Keys == s.users.Keys
    ensures r.Ok? ==>
      var before := s.users[id];
      var u := r.value.users[id];
      && u.fullName == SetIfTruthy(dto.fullName, before.fullName)
      && u.email == SetIfTruthy(dto.email, before.email)
      && u.password == SetIfTruthy(dto.password, before.password)
      && u.roleId == SetIfTruthy(dto.roleId, before.roleId)
      && u.isActive == dto.isActive.GetOr(before.isActive)
      && (forall o | o in s.users && o != id :: r.value.users[o] == s.users[o])
      && r.value == s.(users := r.value.users)
  {
    if Truthy(dto.email) && KeyTakenByOther(s.users, UserEmail, dto.email.value, id) then Err(Conflict(UserRecord))
    else if id !in s.users then Err(NotFound(UserRecord))
    else
      var u := s.users[id];
      var u' := User(
        SetIfTruthy(dto.fullName, u.fullName), SetIfTruthy(dto.email, u.email),
        SetIfTruthy(dto.password, u.password), dto.isActive.GetOr(u.isActive),
        SetIfTruthy(dto.roleId, u.roleId));
      Ok(s.(users := s.users[id := u']))
  }

  /** Deletes one user. */
  function Remove(s: Store, id: Id): (r: Result<Store, Error>)
    ensures r.Ok? <==> id in s.users
    ensures r.Err? ==> r.error == NotFound(UserRecord)
    ensures r.Ok? ==> r.value == s.(users := s.users - {id})
  {
    if id in s.users then Ok(s.(users := s.users - {id})) else Err(NotFound(UserRecord))
  }

  /** Create keeps user e-mails unique. */
  lemma CreateKeepsEmailsUnique(s: Store, dto: CreateUser, id: Id)
    requires id !in s.users && UniqueOn(s.users, UserEmail)
    requires Create(s, dto, id).Ok?
    ensures UniqueOn(Create(s, dto, id).value.users, UserEmail)
  {
    UniqueOnInsert(s.users, UserEmail, id, Create(s, dto, id).value.users[id]);
  }

  /** Update keeps user e-mails unique: an empty e-mail is never written. */
  lemma UpdateKeepsEmailsUnique(s: Store, id: Id, dto: UpdateUser)
    requires UniqueOn(s.users, UserEmail)
    requires Update(s, id, dto).Ok?
    ensures UniqueOn(Update(s, id, dto).value.users, UserEmail)
  {
    var u := Update(s, id, dto).value.users[id];
    if !Truthy(dto.email) {
      assert u.email == s.users[id].email;
      assert !KeyTakenByOther(s.users, UserEmail, u.email, id);
    }
    UniqueOnReplace(s.users, UserEmail, id, u);
  }
}

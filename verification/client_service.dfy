/**
 * The client store: unique client e-mails, and exactly one assigned user,
 * who must hold the EMPLOYEE role.
 */
module ClientService {
  import opened Wrappers
  import opened Errors
  import opened Schemas
  import opened Stores

  /** The body of a create request. */
  datatype CreateClient = CreateClient(
    name: string,
    email: string,
    phone: Option<string>,
    company: Option<string>,
    address: Option<string>,
    notes: Option<string>,
    assignedEmployeeId: Id,
    isActive: Option<bool>)

  /** The body of an update request: only the given properties change. */
  datatype UpdateClient = UpdateClient(
    name: Option<string>,
    email: Option<string>,
    phone: Option<string>,
    company: Option<string>,
    address: Option<string>,
    notes: Option<string>,
    assignedEmployeeId: Option<Id>,
    isActive: Option<bool>)

  /** An optional property after an update: the supplied value, else the old one. */
  function Keep(given: Option<string>, current: Option<string>): Option<string> {
    if given.Some? then given else current
  }

  /** The user exists, and its role exists and is named exactly EMPLOYEE. */
  function ValidateEmployee(s: Store, employeeId: Id): (r: Outcome<Error>)
    ensures employeeId !in s.users ==> r == Fail(NotFound(EmployeeRecord))
    ensures employeeId in s.users ==>
      var roleId := s.users[employeeId].roleId;
      (r == Pass <==> roleId in s.roles && s.roles[roleId].name == Employee)
      && (r != Pass ==> r == Fail(NotAnEmployee))
  {
    if employeeId !in s.users then Fail(NotFound(EmployeeRecord))
    else
      var roleId := s.users[employeeId].roleId;
      if roleId !in s.roles || s.roles[roleId].name != Employee then Fail(NotAnEmployee)
      else Pass
  }

  /**
   * Creates a client under the fresh id `id`. A used e-mail is a conflict,
   * checked before the employee; `isActive` defaults to true.
   */
  function Create(s: Store, dto: CreateClient, id: Id): (r: Result<Store, Error>)
    requires id !in s.clients
    ensures KeyTaken(s.clients, ClientEmail, dto.email) ==> r == Err(Conflict(ClientRecord))
    ensures !KeyTaken(s.clients, ClientEmail, dto.email) && ValidateEmployee(s, dto.assignedEmployeeId).Fail? ==>
      r == Err(ValidateEmployee(s, dto.assignedEmployeeId).error)
    ensures r.Ok? <==> !KeyTaken(s.clients, ClientEmail, dto.email) && ValidateEmployee(s, dto.assignedEmployeeId) == Pass
    ensures r.Ok? ==> r.value.clients.Keys == s.clients.Keys + {id}
    ensures r.Ok? ==>
      var c := r.value.clients[id];
      && c.assignedEmployeeId == dto.assignedEmployeeId
      && c.email == dto.email && c.name == dto.name
      && c.phone == dto.phone && c.company == dto.company
      && c.address == dto.address && c.notes == dto.notes
      && (c.isActive <==> dto.isActive != Some(false))
      && (forall o | o in s.clients :: r.value.clients[o] == s.clients[o])
      && r.value == s.(clients := r.value.clients)
  {
    if KeyTaken(s.clients, ClientEmail, dto.email) then Err(Conflict(ClientRecord))
    else
      match ValidateEmployee(s, dto.assignedEmployeeId)
      case Fail(e) => Err(e)
      case Pass =>
        var c := Client(dto.name, dto.email, dto.phone, dto.company, dto.address, dto.notes,
          dto.assignedEmployeeId, dto.isActive.GetOr(true));
        Ok(s.(clients := s.clients[id := c]))
  }

  /** `find()`: every client, unfiltered and unchanged. */
  function FindAll(s: Store): (r: map<Id, Client>)
    ensures r.Keys == s.clients.Keys
    ensures forall id | id in r :: r[id] == s.clients[id]
  {
    s.clients
  }

  /** The employee filter splits the full list: every client is listed under its own employee and nowhere else. */
  lemma FindAllSplitsByEmployee(s: Store, id: Id, employeeId: Id)
    requires id in FindAll(s)
    ensures id in FindAllForEmployee(s, employeeId) <==> FindAll(s)[id].assignedEmployeeId == employeeId
  {}

  /** Exactly the clients assigned to the given employee. */
  function FindAllForEmployee(s: Store, employeeId: Id): (r: map<Id, Client>)
    ensures forall id :: id in r <==> id in s.clients && s.clients[id].assignedEmployeeId == employeeId
    ensures forall id | id in r :: r[id] == s.clients[id]
  {
    map id | id in s.clients && s.clients[id].assignedEmployeeId == employeeId :: s.clients[id]
  }

  /** Reads one client. */
  function FindOne(s: Store, id: Id): (r: Result<Client, Error>)
    ensures r.Ok? <==> id in s.clients
    ensures r.Ok? ==> r.value == s.clients[id]
    ensures r.Err? ==> r.error == NotFound(ClientRecord)
  {
    if id in s.clients then Ok(s.clients[id]) else Err(NotFound(ClientRecord))
  }

  /** Reads one client assigned to the employee; a client assigned elsewhere is reported as not found. */
  function FindOneForEmployee(s: Store, id: Id, employeeId: Id): (r: Result<Client, Error>)
    ensures r.Ok? <==> id in s.clients && s.clients[id].assignedEmployeeId == employeeId
    ensures r.Ok? ==> r.value == s.clients[id]
    ensures r.Err? ==> r.error == NotFound(ClientRecord)
  {
    if id in s.clients && s.clients[id].assignedEmployeeId == employeeId then Ok(s.clients[id])
    else Err(NotFound(ClientRecord))
  }

  /** The update names a non-empty e-mail that another client holds. */
  predicate EmailClash(s: Store, id: Id, dto: UpdateClient) {
    Truthy(dto.email) && KeyTakenByOther(s.clients, ClientEmail, dto.email.value, id)
  }

  /** The update names a non-empty employee id that fails validation. */
  predicate EmployeeRejected(s: Store, dto: UpdateClient) {
    Truthy(dto.assignedEmployeeId) && ValidateEmployee(s, dto.assignedEmployeeId.value).Fail?
  }

  /**
   * Updates one client. A non-empty e-mail held by another client is a
   * conflict; a non-empty employee id is validated; only then is an unknown
   * id reported as not found.
   */
  function Update(s: Store, id: Id, dto: UpdateClient): (r: Result<Store, Error>)
    ensures EmailClash(s, id, dto) ==> r == Err(Conflict(ClientRecord))
    ensures !EmailClash(s, id, dto) && EmployeeRejected(s, dto) ==>
      r == Err(ValidateEmployee(s, dto.assignedEmployeeId.value).error)
    ensures !EmailClash(s, id, dto) && !EmployeeRejected(s, dto) ==>
      (r.Ok? <==> id in s.clients) && (r.Err? ==> r.error == NotFound(ClientRecord))
    ensures r.Ok? ==> r.value.clients.Keys == s.clients.Keys
    ensures r.Ok? ==>
      var before := s.clients[id];
      var c := r.value.clients[id];
      && c.name == dto.name.GetOr(before.name)
      && c.email == dto.email.GetOr(before.email)
      && c.phone == Keep(dto.phone, before.phone)
      && c.company == Keep(dto.company, before.company)
      && c.address == Keep(dto.address, before.address)
      && c.notes == Keep(dto.notes, before.notes)
      && c.assignedEmployeeId == dto.assignedEmployeeId.GetOr(before.assignedEmployeeId)
      && c.isActive == dto.isActive.GetOr(before.isActive)
      && (forall o | o in s.clients && o != id :: r.value.clients[o] == s.clients[o])
      && r.value == s.(clients := r.value.clients)
  {
    if EmailClash(s, id, dto) then Err(Conflict(ClientRecord))
    else if EmployeeRejected(s, dto) then
      Err(ValidateEmployee(s, dto.assignedEmployeeId.value).error)
    else if id !in s.clients then Err(NotFound(ClientRecord))
    else
      var c := s.clients[id];
      var c' := Client(
        dto.name.GetOr(c.name), dto.email.GetOr(c.email),
        Keep(dto.phone, c.phone), Keep(dto.company, c.company),
        Keep(dto.address, c.address), Keep(dto.notes, c.notes),
        dto.assignedEmployeeId.GetOr(c.assignedEmployeeId), dto.isActive.GetOr(c.isActive));
      Ok(s.(clients := s.clients[id := c']))
  }

  /** Deletes one client. */
  function Remove(s: Store, id: Id): (r: Result<Store, Error>)
    ensures r.Ok? <==> id in s.clients
    ensures r.Err? ==> r.error == NotFound(ClientRecord)
    ensures r.Ok? ==> r.value == s.(clients := s.clients - {id})
  {
    if id in s.clients then Ok(s.(clients := s.clients - {id})) else Err(NotFound(ClientRecord))
  }

  /** Create keeps client e-mails unique. */
  lemma CreateKeepsEmailsUnique(s: Store, dto: CreateClient, id: Id)
    requires id !in s.clients && UniqueOn(s.clients, ClientEmail)
    requires Create(s, dto, id).Ok?
    ensures UniqueOn(Create(s, dto, id).value.clients, ClientEmail)
  {
    var c := Create(s, dto, id).value.clients[id];
    UniqueOnInsert(s.clients, ClientEmail, id, c);
  }

  /**
   * Update keeps client e-mails unique when the supplied e-mail, if any, is
   * non-empty (the request body's e-mail format check guarantees it).
   */
  lemma UpdateKeepsEmailsUnique(s: Store, id: Id, dto: UpdateClient)
    requires UniqueOn(s.clients, ClientEmail) && dto.email != Some("")
    requires Update(s, id, dto).Ok?
    ensures UniqueOn(Update(s, id, dto).value.clients, ClientEmail)
  {
    var c := Update(s, id, dto).value.clients[id];
    if dto.email.None? {
      assert c.email == s.clients[id].email;
      assert !KeyTakenByOther(s.clients, ClientEmail, c.email, id);
    }
    UniqueOnReplace(s.clients, ClientEmail, id, c);
  }

  /** A client may keep its own e-mail on update. */
  lemma UpdateMayKeepOwnEmail(s: Store, id: Id)
    requires id in s.clients && UniqueOn(s.clients, ClientEmail)
    ensures Update(s, id, UpdateClient(None, Some(s.clients[id].email), None, None, None, None, None, None)).Ok?
  {}
}

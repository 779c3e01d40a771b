/**
 * The controllers: which guards and requirements protect each endpoint, and
 * how the list and read endpoints choose a query from the token's role.
 */
module Routes {
  import opened Wrappers
  import opened Errors
  import opened Schemas
  import opened Stores
  import opened Guards
  import CandidateService
  import VacancyService
  import ClientService

  /** The endpoints. Every endpoint of the role and user controllers shares one gate. */
  datatype Route =
    | CandidateCreate | CandidateList | CandidateRead | CandidateUpdate | CandidateDelete
    | VacancyCreate | VacancyList | VacancyRead | VacancyUpdate | VacancyDelete
    | VacancyAssignAgency | VacancyRemoveAgency
    | ClientCreate | ClientList | ClientRead | ClientUpdate | ClientDelete
    | TemplateCreate | TemplateList | TemplateRead | TemplateUpdate | TemplateDelete
    | RoleEndpoint | UserEndpoint

  /** The `@Roles` and `@Permissions` metadata of one endpoint. */
  datatype Requirement = Requirement(roles: seq<string>, permissions: seq<string>)

  /** The guards after authentication: roles then permissions, or the super-admin gate. */
  datatype Gate = Guarded(req: Requirement) | SuperAdminOnly

  /** The requirement table of the controllers. */
  function GateOf(r: Route): (g: Gate)
    ensures g.SuperAdminOnly? <==> r == RoleEndpoint || r == UserEndpoint
    ensures g.Guarded? ==> g.req.roles != [] && |g.req.permissions| == 1
  {
    match r
    case CandidateCreate => Guarded(Requirement([Admin, Agency], ["CREATE_CANDIDATE"]))
    case CandidateList => Guarded(Requirement([Admin, Employee, Agency], ["READ_CANDIDATE"]))
    case CandidateRead => Guarded(Requirement([Admin, Agency], ["READ_CANDIDATE"]))
    case CandidateUpdate => Guarded(Requirement([Agency], ["UPDATE_CANDIDATE"]))
    case CandidateDelete => Guarded(Requirement([Agency], ["DELETE_CANDIDATE"]))
    case VacancyCreate => Guarded(Requirement([Employee], ["CREATE_JOB_VACANCY"]))
    case VacancyList => Guarded(Requirement([Admin, Employee, Agency], ["READ_JOB_VACANCY"]))
    case VacancyRead => Guarded(Requirement([Admin, Employee, Agency], ["READ_JOB_VACANCY"]))
    case VacancyUpdate => Guarded(Requirement([Employee], ["UPDATE_JOB_VACANCY"]))
    case VacancyDelete => Guarded(Requirement([Employee], ["DELETE_JOB_VACANCY"]))
    case VacancyAssignAgency => Guarded(Requirement([Employee], ["UPDATE_JOB_VACANCY"]))
    case VacancyRemoveAgency => Guarded(Requirement([Employee], ["UPDATE_JOB_VACANCY"]))
    case ClientCreate => Guarded(Requirement([Admin], ["CREATE_CLIENT"]))
    case ClientList => Guarded(Requirement([Admin, Employee], ["READ_CLIENT"]))
    case ClientRead => Guarded(Requirement([Admin, Employee], ["READ_CLIENT"]))
    case ClientUpdate => Guarded(Requirement([Admin], ["UPDATE_CLIENT"]))
    case ClientDelete => Guarded(Requirement([Admin], ["DELETE_CLIENT"]))
    case TemplateCreate => Guarded(Requirement([Admin, Employee], ["CREATE_JOB_TEMPLATE"]))
    case TemplateList => Guarded(Requirement([Admin, Employee], ["READ_JOB_TEMPLATE"]))
    case TemplateRead => Guarded(Requirement([Admin, Employee], ["READ_JOB_TEMPLATE"]))
    case TemplateUpdate => Guarded(Requirement([Admin, Employee], ["UPDATE_JOB_TEMPLATE"]))
    case TemplateDelete => Guarded(Requirement([Admin], ["DELETE_JOB_TEMPLATE"]))
    case RoleEndpoint => SuperAdminOnly
    case UserEndpoint => SuperAdminOnly
  }

  /** The guard chain of an endpoint; the first refusal is the one reported. */
  function Authorize(s: Store, user: Option<Principal>, r: Route): (d: Decision)
    ensures GateOf(r).SuperAdminOnly? ==> d == SuperAdminGuard(s, user)
    ensures GateOf(r).Guarded? && RolesGuard(s, user, Some(GateOf(r).req.roles)) != Allow ==>
      d == RolesGuard(s, user, Some(GateOf(r).req.roles))
    ensures GateOf(r).Guarded? && RolesGuard(s, user, Some(GateOf(r).req.roles)) == Allow ==>
      d == PermissionsGuard(s, user, Some(GateOf(r).req.permissions))
  {
    match GateOf(r)
    case SuperAdminOnly => SuperAdminGuard(s, user)
    case Guarded(req) =>
      var first := RolesGuard(s, user, Some(req.roles));
      if first != Allow then first else PermissionsGuard(s, user, Some(req.permissions))
  }

  /**
   * On a guarded endpoint, an ordinary user passes exactly when the stored
   * role's name is listed and the role grants every listed permission key.
   */
  lemma AuthorizeMeaning(s: Store, user: Option<Principal>, r: Route)
    requires GateOf(r).Guarded? && HasRole(s, user) && !DbRole(s, user).isSuperAdmin
    ensures Authorize(s, user, r) == Allow <==>
      && DbRole(s, user).name in GateOf(r).req.roles
      && forall k :: k in GateOf(r).req.permissions ==> Grants(s.permissions, DbRole(s, user).permissions, k)
  {}

  /** A request without a stored user, or whose role is gone, is refused on every endpoint. */
  lemma UnresolvedUserRefused(s: Store, user: Option<Principal>, r: Route)
    requires !HasRole(s, user)
    ensures Authorize(s, user, r) != Allow
  {}

  /** A user whose stored role is a super-admin role passes every endpoint. */
  lemma SuperAdminPassesEveryRoute(s: Store, user: Option<Principal>, r: Route)
    requires HasRole(s, user) && DbRole(s, user).isSuperAdmin
    ensures Authorize(s, user, r) == Allow
  {}

  /**
   * The role and user endpoints admit exactly the users whose stored role is
   * super-admin; a role named ADMIN without the flag is refused.
   */
  lemma RoleAndUserRoutesNeedSuperAdmin(s: Store, user: Option<Principal>, r: Route)
    requires r == RoleEndpoint || r == UserEndpoint
    ensures Authorize(s, user, r) == Allow <==> HasRole(s, user) && DbRole(s, user).isSuperAdmin
  {}

  /** An ordinary EMPLOYEE can never create, read, update or delete single candidates. */
  lemma EmployeeLockedOutOfCandidates(s: Store, user: Option<Principal>, r: Route)
    requires HasRole(s, user) && !DbRole(s, user).isSuperAdmin && DbRole(s, user).name == Employee
    requires r in {CandidateCreate, CandidateRead, CandidateUpdate, CandidateDelete}
    ensures Authorize(s, user, r) == Deny(InsufficientRole)
  {}

  /** An ordinary AGENCY can never reach the template endpoints. */
  lemma AgencyLockedOutOfTemplates(s: Store, user: Option<Principal>, r: Route)
    requires HasRole(s, user) && !DbRole(s, user).isSuperAdmin && DbRole(s, user).name == Agency
    requires r in {TemplateCreate, TemplateList, TemplateRead, TemplateUpdate, TemplateDelete}
    ensures Authorize(s, user, r) == Deny(InsufficientRole)
  {}

  /** Among ordinary users, only an EMPLOYEE can change vacancies or their agencies. */
  lemma OnlyEmployeeChangesVacancies(s: Store, user: Option<Principal>, r: Route)
    requires r in {VacancyCreate, VacancyUpdate, VacancyDelete, VacancyAssignAgency, VacancyRemoveAgency}
    requires Authorize(s, user, r) == Allow
    ensures HasRole(s, user)
    ensures !DbRole(s, user).isSuperAdmin ==> DbRole(s, user).name == Employee
  {}

  /** Among ordinary users, only an ADMIN can create, update or delete clients. */
  lemma OnlyAdminWritesClients(s: Store, user: Option<Principal>, r: Route)
    requires r in {ClientCreate, ClientUpdate, ClientDelete}
    requires Authorize(s, user, r) == Allow
    ensures HasRole(s, user)
    ensures !DbRole(s, user).isSuperAdmin ==> DbRole(s, user).name == Admin
  {}

  /**
   * The candidate list: a token role of AGENCY sees the candidates it created
   * and the filter is ignored; otherwise a non-empty vacancy filter selects
   * that vacancy's candidates, and no filter selects all.
   */
  function ListCandidates(s: Store, user: Principal, jobVacancyId: Option<string>): (r: map<Id, Candidate>)
    ensures forall id :: id in r <==>
      && id in s.candidates
      && (user.role == Agency ==> s.candidates[id].createdBy == user.userId)
      && (user.role != Agency && Truthy(jobVacancyId) ==> s.candidates[id].jobVacancyId == jobVacancyId.value)
    ensures forall id | id in r :: r[id] == s.candidates[id]
  {
    if user.role == Agency then CandidateService.FindByAgency(s, user.userId)
    else if Truthy(jobVacancyId) then CandidateService.FindByJobVacancy(s, jobVacancyId.value)
    else CandidateService.FindAll(s)
  }

  /**
   * The vacancy list: a token role of AGENCY sees the vacancies it is assigned
   * to; otherwise a non-empty client filter selects that client's vacancies.
   */
  function ListVacancies(s: Store, user: Principal, clientId: Option<string>): (r: map<Id, JobVacancy>)
    ensures forall id :: id in r <==>
      && id in s.vacancies
      && (user.role == Agency ==> user.userId in s.vacancies[id].assignedAgencies)
      && (user.role != Agency && Truthy(clientId) ==> s.vacancies[id].clientId == clientId.value)
    ensures forall id | id in r :: r[id] == s.vacancies[id]
  {
    if user.role == Agency then VacancyService.FindByAgency(s, user.userId)
    else if Truthy(clientId) then VacancyService.FindByClient(s, clientId.value)
    else VacancyService.FindAll(s)
  }

  /** The client list: a token role of ADMIN sees all clients, anyone else those assigned to them. */
  function ListClients(s: Store, user: Principal): (r: map<Id, Client>)
    ensures forall id :: id in r <==>
      id in s.clients && (user.role != Admin ==> s.clients[id].assignedEmployeeId == user.userId)
    ensures forall id | id in r :: r[id] == s.clients[id]
  {
    if user.role == Admin then ClientService.FindAll(s) else ClientService.FindAllForEmployee(s, user.userId)
  }

  /** One client: a token role of ADMIN reads any; anyone else gets "not found" for unassigned clients. */
  function ReadClient(s: Store, user: Principal, id: Id): (r: Result<Client, Error>)
    ensures r.Ok? <==> id in s.clients && (user.role != Admin ==> s.clients[id].assignedEmployeeId == user.userId)
    ensures r.Ok? ==> r.value == s.clients[id]
    ensures r.Err? ==> r.error == NotFound(ClientRecord)
  {
    if user.role == Admin then ClientService.FindOne(s, id) else ClientService.FindOneForEmployee(s, id, user.userId)
  }

  /** The whole read-candidate endpoint: the guard chain, then the service with the token's role. */
  function ReadCandidate(s: Store, user: Principal, id: Id): (r: Result<Candidate, Error>)
    ensures Authorize(s, Some(user), CandidateRead) != Allow ==>
      r == Err(Forbidden(Authorize(s, Some(user), CandidateRead).reason))
    ensures Authorize(s, Some(user), CandidateRead) == Allow ==>
      (r.Ok? <==> id in s.candidates && (user.role != Agency || s.candidates[id].createdBy == user.userId))
    ensures r.Ok? ==> id in s.candidates && r.value == s.candidates[id]
    ensures Authorize(s, Some(user), CandidateRead) == Allow && id !in s.candidates ==>
      r == Err(NotFound(CandidateRecord))
    ensures Authorize(s, Some(user), CandidateRead) == Allow ==>
      (id in s.candidates && user.role == Agency && s.candidates[id].createdBy != user.userId ==>
         r == Err(NotCreator(ViewAction)))
  {
    var d := Authorize(s, Some(user), CandidateRead);
    if d != Allow then Err(Forbidden(d.reason))
    else CandidateService.FindOne(s, id, user.userId, user.role)
  }

  /** The whole read-vacancy endpoint: the guard chain, then the unfiltered service read. */
  function ReadVacancy(s: Store, user: Principal, id: Id): (r: Result<JobVacancy, Error>)
    ensures Authorize(s, Some(user), VacancyRead) != Allow ==>
      r == Err(Forbidden(Authorize(s, Some(user), VacancyRead).reason))
    ensures Authorize(s, Some(user), VacancyRead) == Allow ==>
      (r.Ok? <==> id in s.vacancies) && (r.Ok? ==> r.value == s.vacancies[id])
    ensures r.Err? && Authorize(s, Some(user), VacancyRead) == Allow ==> r.error == NotFound(VacancyRecord)
  {
    var d := Authorize(s, Some(user), VacancyRead);
    if d != Allow then Err(Forbidden(d.reason))
    else VacancyService.FindOne(s, id)
  }

  /**
   * Reading one vacancy applies no assignment filter: an AGENCY user that
   * passes the guards reads a vacancy it is not assigned to, although the
   * list endpoint would not show it.
   */
  lemma VacancyReadIgnoresAssignment(s: Store, user: Principal, id: Id, q: Option<string>)
    requires user.role == Agency && id in s.vacancies && user.userId !in s.vacancies[id].assignedAgencies
    requires Authorize(s, Some(user), VacancyRead) == Allow
    ensures ReadVacancy(s, user, id) == Ok(s.vacancies[id])
    ensures id !in ListVacancies(s, user, q)
  {}

  /** Whatever the filter, a token role of AGENCY lists only its own candidates. */
  lemma AgencyListIgnoresFilter(s: Store, user: Principal, a: Option<string>, b: Option<string>)
    requires user.role == Agency
    ensures ListCandidates(s, user, a) == ListCandidates(s, user, b)
  {
    var ra, rb := ListCandidates(s, user, a), ListCandidates(s, user, b);
    assert ra.Keys == rb.Keys;
  }

  /**
   * An AGENCY user who is allowed through the guards still cannot read a
   * candidate another agency created: the service answers with the
   * creator error.
   */
  lemma AgencyCannotReadOthersCandidate(s: Store, user: Principal, id: Id)
    requires user.role == Agency && id in s.candidates && s.candidates[id].createdBy != user.userId
    requires Authorize(s, Some(user), CandidateRead) == Allow
    ensures ReadCandidate(s, user, id) == Err(NotCreator(ViewAction))
  {}

  /**
   * The list endpoints read the token's role, the guards the stored one: a
   * stored ADMIN whose token still says AGENCY is let through as an ADMIN
   * yet sees only the candidates it created.
   */
  lemma StaleTokenNarrowsList(s: Store, user: Principal, q: Option<string>, id: Id)
    requires user.role == Agency && HasRole(s, Some(user)) && DbRole(s, Some(user)).name == Admin
    requires id in s.candidates && s.candidates[id].createdBy != user.userId
    ensures RolesGuard(s, Some(user), Some(GateOf(CandidateList).req.roles)) == Allow
    ensures id !in ListCandidates(s, user, q)
  {}
}

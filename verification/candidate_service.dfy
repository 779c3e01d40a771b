/**
 * The candidate store: intake restricted to agencies assigned to the vacancy,
 * data checked against the vacancy's field schema, and creator-only edits.
 */
module CandidateService {
  import opened Wrappers
  import opened Errors
  import opened Schemas
  import opened Stores
  import opened Validator

  /** The body of a create request. */
  datatype CreateCandidate = CreateCandidate(
    jobVacancyId: Id,
    data: map<string, Value>,
    status: Option<Status>,
    notes: Option<string>)

  /** The body of an update request: only the given properties change. */
  datatype UpdateCandidate = UpdateCandidate(
    data: Option<map<string, Value>>,
    status: Option<Status>,
    notes: Option<string>)

  /**
   * Creates a candidate under the fresh id `id`, in this order: the vacancy
   * must exist (else bad request), the caller must be among its assigned
   * agencies whatever the caller's role (else forbidden), and the data must
   * pass validation. The stored candidate's creator is the caller; `status`
   * defaults to pending and `isActive` to true. No error path stores anything.
   */
  function Create(s: Store, dto: CreateCandidate, userId: Id, id: Id, numeric: NumericTest): (r: Result<Store, Error>)
    requires id !in s.candidates
    ensures dto.jobVacancyId !in s.vacancies ==> r == Err(ReferenceMissing(VacancyRecord))
    ensures dto.jobVacancyId in s.vacancies && userId !in s.vacancies[dto.jobVacancyId].assignedAgencies ==>
      r == Err(NotAssignedToVacancy)
    ensures dto.jobVacancyId in s.vacancies && userId in s.vacancies[dto.jobVacancyId].assignedAgencies ==>
      match Validate(dto.data, s.vacancies[dto.jobVacancyId].fields, numeric)
      case Some(e) => r == Err(InvalidField(e))
      case None => r.Ok?
    ensures r.Ok? ==> r.value.candidates.Keys == s.candidates.Keys + {id}
    ensures r.Ok? ==>
      var c := r.value.candidates[id];
      && c.createdBy == userId
      && c.jobVacancyId == dto.jobVacancyId
      && c.data == dto.data
      && c.status == dto.status.GetOr(Pending)
      && c.notes == dto.notes
      && c.isActive
      && (forall o | o in s.candidates :: r.value.candidates[o] == s.candidates[o])
      && r.value == s.(candidates := r.value.candidates)
  {
    if dto.jobVacancyId !in s.vacancies then Err(ReferenceMissing(VacancyRecord))
    else
      var vacancy := s.vacancies[dto.jobVacancyId];
      if userId !in vacancy.assignedAgencies then Err(NotAssignedToVacancy)
      else
        match Validate(dto.data, vacancy.fields, numeric)
        case Some(e) => Err(InvalidField(e))
        case None =>
          var c := Candidate(dto.jobVacancyId, dto.data, userId, dto.status.GetOr(Pending), dto.notes, true);
          Ok(s.(candidates := s.candidates[id := c]))
  }

  /** `find()`: every candidate, unfiltered and unchanged. */
  function FindAll(s: Store): (r: map<Id, Candidate>)
    ensures r.Keys == s.candidates.Keys
    ensures forall id | id in r :: r[id] == s.candidates[id]
  {
    s.candidates
  }

  /** The vacancy filter splits the full list: every candidate is listed under its own vacancy and nowhere else. */
  lemma FindAllSplitsByJobVacancy(s: Store, id: Id, jobVacancyId: Id)
    requires id in FindAll(s)
    ensures id in FindByJobVacancy(s, jobVacancyId) <==> FindAll(s)[id].jobVacancyId == jobVacancyId
  {}

  /** `find({ jobVacancyId })`: exactly the candidates of that vacancy. */
  function FindByJobVacancy(s: Store, jobVacancyId: Id): (r: map<Id, Candidate>)
    ensures forall id :: id in r <==> id in s.candidates && s.candidates[id].jobVacancyId == jobVacancyId
    ensures forall id | id in r :: r[id] == s.candidates[id]
  {
    map id | id in s.candidates && s.candidates[id].jobVacancyId == jobVacancyId :: s.candidates[id]
  }

  /** `find({ createdBy: agencyId })`: exactly the candidates that agency created. */
  function FindByAgency(s: Store, agencyId: Id): (r: map<Id, Candidate>)
    ensures forall id :: id in r <==> id in s.candidates && s.candidates[id].createdBy == agencyId
    ensures forall id | id in r :: r[id] == s.candidates[id]
  {
    map id | id in s.candidates && s.candidates[id].createdBy == agencyId :: s.candidates[id]
  }

  /**
   * Reads one candidate. An unknown id is not found; only a caller whose
   * token role is AGENCY must be the candidate's creator.
   */
  function FindOne(s: Store, id: Id, userId: Id, role: string): (r: Result<Candidate, Error>)
    ensures id !in s.candidates ==> r == Err(NotFound(CandidateRecord))
    ensures id in s.candidates ==>
      (r.Ok? <==> role != Agency || s.candidates[id].createdBy == userId)
    ensures r.Ok? ==> r.value == s.candidates[id]
    ensures r.Err? && id in s.candidates ==> r.error == NotCreator(ViewAction)
  {
    if id !in s.candidates then Err(NotFound(CandidateRecord))
    else
      var c := s.candidates[id];
      if role == Agency && c.createdBy != userId then Err(NotCreator(ViewAction))
      else Ok(c)
  }

  /**
   * Updates one candidate. Not found is checked first, then the caller must be
   * its creator, whatever the caller's role; supplied data is validated only
   * while the candidate's vacancy still exists, and replaces the old data.
   */
  function Update(s: Store, id: Id, dto: UpdateCandidate, userId: Id, numeric: NumericTest): (r: Result<Store, Error>)
    ensures id !in s.candidates ==> r == Err(NotFound(CandidateRecord))
    ensures id in s.candidates && s.candidates[id].createdBy != userId ==> r == Err(NotCreator(UpdateAction))
    ensures id in s.candidates && s.candidates[id].createdBy == userId ==>
      var vid := s.candidates[id].jobVacancyId;
      if dto.data.Some? && vid in s.vacancies && Validate(dto.data.value, s.vacancies[vid].fields, numeric).Some?
      then r == Err(InvalidField(Validate(dto.data.value, s.vacancies[vid].fields, numeric).value))
      else r.Ok?
    ensures r.Ok? ==> r.value.candidates.Keys == s.candidates.Keys
    ensures r.Ok? ==>
      var before := s.candidates[id];
      var c := r.value.candidates[id];
      && c.data == dto.data.GetOr(before.data)
      && c.status == dto.status.GetOr(before.status)
      && c.notes == (if dto.notes.Some? then dto.notes else before.notes)
      && c.createdBy == before.createdBy && c.jobVacancyId == before.jobVacancyId
      && c.isActive == before.isActive
      && (forall o | o in s.candidates && o != id :: r.value.candidates[o] == s.candidates[o])
      && r.value == s.(candidates := r.value.candidates)
  {
    if id !in s.candidates then Err(NotFound(CandidateRecord))
    else
      var c := s.candidates[id];
      if c.createdBy != userId then Err(NotCreator(UpdateAction))
      else
        var check :=
          if dto.data.Some? && c.jobVacancyId in s.vacancies
          then Validate(dto.data.value, s.vacancies[c.jobVacancyId].fields, numeric)
          else None;
        if check.Some? then Err(InvalidField(check.value))
        else
          var c' := c.(
            data := dto.data.GetOr(c.data),
            status := dto.status.GetOr(c.status),
            notes := if dto.notes.Some? then dto.notes else c.notes);
          Ok(s.(candidates := s.candidates[id := c']))
  }

  /**
   * Deletes one candidate (the reply is `{ deleted: true }`). Not found is
   * checked first, then the caller must be its creator, whatever its role.
   */
  function Remove(s: Store, id: Id, userId: Id): (r: Result<Store, Error>)
    ensures id !in s.candidates ==> r == Err(NotFound(CandidateRecord))
    ensures id in s.candidates && s.candidates[id].createdBy != userId ==> r == Err(NotCreator(DeleteAction))
    ensures id in s.candidates && s.candidates[id].createdBy == userId ==>
      r == Ok(s.(candidates := s.candidates - {id}))
  {
    if id !in s.candidates then Err(NotFound(CandidateRecord))
    else if s.candidates[id].createdBy != userId then Err(NotCreator(DeleteAction))
    else Ok(s.(candidates := s.candidates - {id}))
  }

  /**
   * Ownership end to end: after an agency creates a candidate, that agency
   * reads it back and finds it in its own list, and any other caller is
   * refused update and delete.
   */
  lemma CreatorOwnsCandidate(s: Store, dto: CreateCandidate, agency: Id, other: Id, id: Id,
                             numeric: NumericTest, edit: UpdateCandidate)
    requires id !in s.candidates && other != agency
    requires Create(s, dto, agency, id, numeric).Ok?
    ensures var s1 := Create(s, dto, agency, id, numeric).value;
      && FindOne(s1, id, agency, Agency).Ok?
      && id in FindByAgency(s1, agency)
      && FindOne(s1, id, other, Agency) == Err(NotCreator(ViewAction))
      && Update(s1, id, edit, other, numeric) == Err(NotCreator(UpdateAction))
      && Remove(s1, id, other) == Err(NotCreator(DeleteAction))
  {}

  /** A deleted candidate is gone: reading it again is not found, and nothing else was deleted. */
  lemma RemoveDeletesExactlyOne(s: Store, id: Id, userId: Id, other: Id, role: string)
    requires Remove(s, id, userId).Ok? && other != id
    ensures var s1 := Remove(s, id, userId).value;
      && FindOne(s1, id, userId, role) == Err(NotFound(CandidateRecord))
      && (other in s.candidates ==> other in s1.candidates && s1.candidates[other] == s.candidates[other])
      && s1.vacancies == s.vacancies
  {}

  /**
   * Once a candidate's vacancy is gone, its creator's data updates are no
   * longer validated.
   */
  lemma OrphanedUpdateSkipsValidation(s: Store, id: Id, data: map<string, Value>, userId: Id, numeric: NumericTest)
    requires id in s.candidates && s.candidates[id].createdBy == userId
    requires s.candidates[id].jobVacancyId !in s.vacancies
    ensures Update(s, id, UpdateCandidate(Some(data), None, None), userId, numeric).Ok?
  {}
}

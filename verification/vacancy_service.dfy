/**
 * The job-vacancy store: each vacancy takes a snapshot of its template's
 * fields when created, and keeps a set of assigned agencies.
 */
module VacancyService {
  import opened Wrappers
  import opened Errors
  import opened Schemas
  import opened Stores
  import TemplateService

  /** The body of a create request; `fields` is never taken from it. */
  datatype CreateVacancy = CreateVacancy(
    title: string,
    description: Option<string>,
    clientId: Id,
    jobTemplateId: Id,
    assignedAgencies: Option<seq<Id>>,
    isActive: Option<bool>)

  /** The body of an update request: only the given properties change. */
  datatype UpdateVacancy = UpdateVacancy(
    title: Option<string>,
    description: Option<string>,
    fields: Option<seq<VacancyFieldInput>>,
    assignedAgencies: Option<seq<Id>>,
    isActive: Option<bool>)

  /** A template field stored as a vacancy field: templates carry no options, so `options` is []. */
  function SnapshotField(f: TemplateField): VacancyField {
    VacancyField(f.key, f.fieldType, f.required, [])
  }

  /** The snapshot a vacancy keeps of its template's fields. */
  function Snapshot(fields: seq<TemplateField>): (vs: seq<VacancyField>)
    ensures |vs| == |fields|
    ensures forall i :: 0 <= i < |fields| ==>
      vs[i].key == fields[i].key && vs[i].fieldType == fields[i].fieldType
      && vs[i].required == fields[i].required && vs[i].options == []
  {
    seq(|fields|, i requires 0 <= i < |fields| => SnapshotField(fields[i]))
  }

  /** A vacancy schema read back as template fields (the options dropped). */
  function AsTemplateFields(vs: seq<VacancyField>): (fs: seq<TemplateField>)
    ensures |fs| == |vs|
    ensures forall i :: 0 <= i < |vs| ==>
      fs[i].key == vs[i].key && fs[i].fieldType == vs[i].fieldType && fs[i].required == vs[i].required
  {
    seq(|vs|, i requires 0 <= i < |vs| => TemplateField(vs[i].key, vs[i].fieldType, vs[i].required))
  }

  /** The snapshot loses nothing of the template's fields. */
  lemma SnapshotRoundTrip(fields: seq<TemplateField>)
    ensures AsTemplateFields(Snapshot(fields)) == fields
  {}

  /**
   * Creates a vacancy under the fresh id `id`. Its fields are the template's
   * fields at this moment and its creator is the caller; an unknown template
   * is a bad request and nothing is stored.
   */
  function Create(s: Store, dto: CreateVacancy, userId: Id, id: Id): (r: Result<Store, Error>)
    requires id !in s.vacancies
    ensures r.Ok? <==> dto.jobTemplateId in s.templates
    ensures r.Err? ==> r.error == ReferenceMissing(TemplateRecord)
    ensures r.Ok? ==> r.value.vacancies.Keys == s.vacancies.Keys + {id}
    ensures r.Ok? ==>
      var v := r.value.vacancies[id];
      && v.fields == Snapshot(s.templates[dto.jobTemplateId].fields)
      && v.createdBy == userId
      && v.title == dto.title && v.description == dto.description
      && v.clientId == dto.clientId && v.jobTemplateId == dto.jobTemplateId
      && v.assignedAgencies == dto.assignedAgencies.GetOr([])
      && (v.isActive <==> dto.isActive != Some(false))
      && (forall o | o in s.vacancies :: r.value.vacancies[o] == s.vacancies[o])
      && r.value == s.(vacancies := r.value.vacancies)
  {
    if dto.jobTemplateId !in s.templates then Err(ReferenceMissing(TemplateRecord))
    else
      var template := s.templates[dto.jobTemplateId];
      var v := JobVacancy(dto.title, dto.description, dto.clientId, dto.jobTemplateId,
        Snapshot(template.fields), dto.assignedAgencies.GetOr([]), userId, dto.isActive.GetOr(true));
      Ok(s.(vacancies := s.vacancies[id := v]))
  }

  /** `find()`: every vacancy, unfiltered and unchanged. */
  function FindAll(s: Store): (r: map<Id, JobVacancy>)
    ensures r.Keys == s.vacancies.Keys
    ensures forall id | id in r :: r[id] == s.vacancies[id]
  {
    s.vacancies
  }

  /** `find({ clientId })`: exactly the vacancies of that client. */
  function FindByClient(s: Store, clientId: Id): (r: map<Id, JobVacancy>)
    ensures forall id :: id in r <==> id in s.vacancies && s.vacancies[id].clientId == clientId
    ensures forall id | id in r :: r[id] == s.vacancies[id]
  {
    map id | id in s.vacancies && s.vacancies[id].clientId == clientId :: s.vacancies[id]
  }

  /** `find({ assignedAgencies: agencyId })`: exactly the vacancies the agency is assigned to. */
  function FindByAgency(s: Store, agencyId: Id): (r: map<Id, JobVacancy>)
    ensures forall id :: id in r <==> id in s.vacancies && agencyId in s.vacancies[id].assignedAgencies
    ensures forall id | id in r :: r[id] == s.vacancies[id]
  {
    map id | id in s.vacancies && agencyId in s.vacancies[id].assignedAgencies :: s.vacancies[id]
  }

  /** The client filter splits the full list: every vacancy is listed under its own client and nowhere else. */
  lemma FindAllSplitsByClient(s: Store, id: Id, clientId: Id)
    requires id in FindAll(s)
    ensures id in FindByClient(s, clientId) <==> FindAll(s)[id].clientId == clientId
  {}

  /** Reads one vacancy; there is no ownership or assignment check. */
  function FindOne(s: Store, id: Id): (r: Result<JobVacancy, Error>)
    ensures r.Ok? <==> id in s.vacancies
    ensures r.Ok? ==> r.value == s.vacancies[id]
    ensures r.Err? ==> r.error == NotFound(VacancyRecord)
  {
    if id in s.vacancies then Ok(s.vacancies[id]) else Err(NotFound(VacancyRecord))
  }

  /**
   * Overwrites the supplied properties of one vacancy, whoever asks; a
   * supplied field list replaces the snapshot wholesale.
   */
  function Update(s: Store, id: Id, dto: UpdateVacancy): (r: Result<Store, Error>)
    ensures r.Ok? <==> id in s.vacancies
    ensures r.Err? ==> r.error == NotFound(VacancyRecord)
    ensures r.Ok? ==> r.value.vacancies.Keys == s.vacancies.Keys
    ensures r.Ok? ==>
      var before := s.vacancies[id];
      var v := r.value.vacancies[id];
      && v.title == dto.title.GetOr(before.title)
      && v.description == (if dto.description.Some? then dto.description else before.description)
      && v.fields == (if dto.fields.Some? then ToVacancyFields(dto.fields.value) else before.fields)
      && v.assignedAgencies == dto.assignedAgencies.GetOr(before.assignedAgencies)
      && v.isActive == dto.isActive.GetOr(before.isActive)
      && v.clientId == before.clientId && v.jobTemplateId == before.jobTemplateId
      && v.createdBy == before.createdBy
      && (forall o | o in s.vacancies && o != id :: r.value.vacancies[o] == s.vacancies[o])
      && r.value == s.(vacancies := r.value.vacancies)
  {
    if id !in s.vacancies then Err(NotFound(VacancyRecord))
    else
      var v := s.vacancies[id];
      var v' := v.(
        title := dto.title.GetOr(v.title),
        description := if dto.description.Some? then dto.description else v.description,
        fields := if dto.fields.Some? then ToVacancyFields(dto.fields.value) else v.fields,
        assignedAgencies := dto.assignedAgencies.GetOr(v.assignedAgencies),
        isActive := dto.isActive.GetOr(v.isActive));
      Ok(s.(vacancies := s.vacancies[id := v']))
  }

  /** Deletes one vacancy, whoever asks (the reply is `{ deleted: true }`). */
  function Remove(s: Store, id: Id): (r: Result<Store, Error>)
    ensures r.Ok? <==> id in s.vacancies
    ensures r.Err? ==> r.error == NotFound(VacancyRecord)
    ensures r.Ok? ==> r.value == s.(vacancies := s.vacancies - {id})
  {
    if id in s.vacancies then Ok(s.(vacancies := s.vacancies - {id})) else Err(NotFound(VacancyRecord))
  }

  /** `$addToSet`: appends `x` unless it is already present. */
  function AddToSet(xs: seq<Id>, x: Id): (ys: seq<Id>)
    ensures forall y :: y in ys <==> y in xs || y == x
    ensures x in xs ==> ys == xs
    ensures |xs| <= |ys| <= |xs| + 1 && ys[..|xs|] == xs
  {
    if x in xs then xs else xs + [x]
  }

  /**
   * `$pull` works member by member: pulling from a concatenation is pulling
   * from each part, so the survivors keep their order.
   */
  lemma {:induction false} PullAppend(a: seq<Id>, b: seq<Id>, x: Id)
    ensures Pull(a + b, x) == Pull(a, x) + Pull(b, x)
  {
    if a == [] {
      assert a + b == b;
    } else {
      assert (a + b)[0] == a[0];
      assert (a + b)[1..] == a[1..] + b;
      PullAppend(a[1..], b, x);
    }
  }

  /** `$pull` on one member: it goes exactly when it is the pulled id. */
  lemma PullSingleton(y: Id, x: Id)
    ensures Pull([y], x) == if y == x then [] else [y]
  {}

  /** `$pull`: removes every occurrence of `x`, keeping the order of the rest. */
  function Pull(xs: seq<Id>, x: Id): (ys: seq<Id>)
    ensures forall y :: y in ys <==> y in xs && y != x
    ensures |ys| <= |xs|
    ensures x !in xs ==> ys == xs
  {
    if xs == [] then []
    else if xs[0] == x then Pull(xs[1..], x)
    else [xs[0]] + Pull(xs[1..], x)
  }

  /** Assigns an agency to a vacancy as a set insertion. */
  function AssignAgency(s: Store, id: Id, agencyId: Id): (r: Result<Store, Error>)
    ensures r.Ok? <==> id in s.vacancies
    ensures r.Err? ==> r.error == NotFound(VacancyRecord)
    ensures r.Ok? ==> r.value.vacancies.Keys == s.vacancies.Keys
    ensures r.Ok? ==>
      var v := r.value.vacancies[id];
      && (forall a :: a in v.assignedAgencies <==> a in s.vacancies[id].assignedAgencies || a == agencyId)
      && v == s.vacancies[id].(assignedAgencies := v.assignedAgencies)
      && (forall o | o in s.vacancies && o != id :: r.value.vacancies[o] == s.vacancies[o])
      && r.value == s.(vacancies := r.value.vacancies)
  {
    if id !in s.vacancies then Err(NotFound(VacancyRecord))
    else
      var v := s.vacancies[id];
      Ok(s.(vacancies := s.vacancies[id := v.(assignedAgencies := AddToSet(v.assignedAgencies, agencyId))]))
  }

  /** Withdraws an agency from a vacancy, every occurrence of it. */
  function RemoveAgency(s: Store, id: Id, agencyId: Id): (r: Result<Store, Error>)
    ensures r.Ok? <==> id in s.vacancies
    ensures r.Err? ==> r.error == NotFound(VacancyRecord)
    ensures r.Ok? ==> r.value.vacancies.Keys == s.vacancies.Keys
    ensures r.Ok? ==>
      var v := r.value.vacancies[id];
      && (forall a :: a in v.assignedAgencies <==> a in s.vacancies[id].assignedAgencies && a != agencyId)
      && v == s.vacancies[id].(assignedAgencies := v.assignedAgencies)
      && (forall o | o in s.vacancies && o != id :: r.value.vacancies[o] == s.vacancies[o])
      && r.value == s.(vacancies := r.value.vacancies)
  {
    if id !in s.vacancies then Err(NotFound(VacancyRecord))
    else
      var v := s.vacancies[id];
      Ok(s.(vacancies := s.vacancies[id := v.(assignedAgencies := Pull(v.assignedAgencies, agencyId))]))
  }

  /** Assigning the same agency twice is the same as assigning it once. */
  lemma AssignAgencyIdempotent(s: Store, id: Id, agencyId: Id)
    requires id in s.vacancies
    ensures AssignAgency(s, id, agencyId).Ok?
    ensures AssignAgency(AssignAgency(s, id, agencyId).value, id, agencyId) == AssignAgency(s, id, agencyId)
  {
    var v := s.vacancies[id];
    var v1 := v.(assignedAgencies := AddToSet(v.assignedAgencies, agencyId));
    var s1 := s.(vacancies := s.vacancies[id := v1]);
    assert AddToSet(v1.assignedAgencies, agencyId) == v1.assignedAgencies;
    assert s1.vacancies[id := v1] == s1.vacancies;
  }

  /** After assign-then-remove the agency is no longer among the vacancy's agencies. */
  lemma AssignThenRemoveAgency(s: Store, id: Id, agencyId: Id)
    requires id in s.vacancies
    ensures var s1 := AssignAgency(s, id, agencyId).value;
      var s2 := RemoveAgency(s1, id, agencyId).value;
      && id in FindByAgency(s1, agencyId)
      && id !in FindByAgency(s2, agencyId)
      && (forall a | a != agencyId :: a in s2.vacancies[id].assignedAgencies <==> a in s.vacancies[id].assignedAgencies)
  {}

  /**
   * The snapshot is independent of later template edits: after a vacancy is
   * created, updating or removing its template leaves the vacancy as it was.
   */
  lemma SnapshotSurvivesTemplateEdits(s: Store, dto: CreateVacancy, userId: Id, id: Id,
                                      tid: Id, edit: TemplateService.UpdateTemplate)
    requires id !in s.vacancies && dto.jobTemplateId in s.templates
    ensures var s1 := Create(s, dto, userId, id).value;
      var fields := Snapshot(s.templates[dto.jobTemplateId].fields);
      && (TemplateService.Update(s1, tid, edit).Ok? ==>
            TemplateService.Update(s1, tid, edit).value.vacancies[id].fields == fields)
      && (TemplateService.Remove(s1, tid).Ok? ==>
            TemplateService.Remove(s1, tid).value.vacancies[id].fields == fields)
  {}
}

/** The job-template store: the forms vacancies copy their fields from. */
module TemplateService {
  import opened Wrappers
  import opened Errors
  import opened Schemas
  import opened Stores

  /** The body of a create request. */
  datatype CreateTemplate = CreateTemplate(
    name: string,
    description: Option<string>,
    fields: seq<FieldInput>,
    isActive: Option<bool>)

  /** The body of an update request: only the given properties change. */
  datatype UpdateTemplate = UpdateTemplate(
    name: Option<string>,
    description: Option<string>,
    fields: Option<seq<FieldInput>>,
    isActive: Option<bool>)

  /** Stores a new template under the fresh id `id`; `isActive` defaults to true. */
  function Create(s: Store, dto: CreateTemplate, id: Id): (s': Store)
    requires id !in s.templates
    ensures s'.templates.Keys == s.templates.Keys + {id}
    ensures forall t | t in s.templates :: s'.templates[t] == s.templates[t]
    ensures var t := s'.templates[id];
      && t.name == dto.name && t.description == dto.description
      && t.fields == ToTemplateFields(dto.fields)
      && (t.isActive <==> dto.isActive != Some(false))
    ensures s' == s.(templates := s'.templates)
  {
    var t := JobTemplate(dto.name, dto.description, ToTemplateFields(dto.fields), dto.isActive.GetOr(true));
    s.(templates := s.templates[id := t])
  }

  /** Reads one template. */
  function FindOne(s: Store, id: Id): (r: Result<JobTemplate, Error>)
    ensures r.Ok? <==> id in s.templates
    ensures r.Ok? ==> r.value == s.templates[id]
    ensures r.Err? ==> r.error == NotFound(TemplateRecord)
  {
    if id in s.templates then Ok(s.templates[id]) else Err(NotFound(TemplateRecord))
  }

  /** Overwrites the supplied properties of one template. No vacancy is touched. */
  function Update(s: Store, id: Id, dto: UpdateTemplate): (r: Result<Store, Error>)
    ensures r.Ok? <==> id in s.templates
    ensures r.Err? ==> r.error == NotFound(TemplateRecord)
    ensures r.Ok? ==> r.value.templates.Keys == s.templates.Keys
    ensures r.Ok? ==>
      var before := s.templates[id];
      var t := r.value.templates[id];
      (forall o | o in s.templates && o != id :: r.value.templates[o] == s.templates[o])
      && t.name == dto.name.GetOr(before.name)
      && t.description == (if dto.description.Some? then dto.description else before.description)
      && t.fields == (if dto.fields.Some? then ToTemplateFields(dto.fields.value) else before.fields)
      && t.isActive == dto.isActive.GetOr(before.isActive)
      && r.value == s.(templates := r.value.templates)
  {
    if id !in s.templates then Err(NotFound(TemplateRecord))
    else
      var t := s.templates[id];
      var t' := JobTemplate(
        dto.name.GetOr(t.name),
        if dto.description.Some? then dto.description else t.description,
        if dto.fields.Some? then ToTemplateFields(dto.fields.value) else t.fields,
        dto.isActive.GetOr(t.isActive));
      Ok(s.(templates := s.templates[id := t']))
  }

  /** Deletes one template (the reply is `{ deleted: true }`). No vacancy is touched. */
  function Remove(s: Store, id: Id): (r: Result<Store, Error>)
    ensures r.Ok? <==> id in s.templates
    ensures r.Err? ==> r.error == NotFound(TemplateRecord)
    ensures r.Ok? ==> r.value == s.(templates := s.templates - {id})
  {
    if id in s.templates then Ok(s.(templates := s.templates - {id})) else Err(NotFound(TemplateRecord))
  }
}

/**
 * The persisted records: users, roles, permissions, clients, job templates,
 * job vacancies and candidates, with the defaults their schemas declare.
 */
module Schemas {
  import opened Wrappers

  /** A record id (a Mongo ObjectId, kept abstract). */
  type Id = string

  /** The role names the controllers and services test for. */
  const Admin: string := "ADMIN"
  const Employee: string := "EMPLOYEE"
  const Agency: string := "AGENCY"

  /** JavaScript truthiness of an optional string property: present and non-empty. */
  predicate Truthy(o: Option<string>) {
    o.Some? && o.value != ""
  }

  /** A user account; its password is never returned by default reads. */
  datatype User = User(
    fullName: string,
    email: string,          // unique among users
    password: string,
    isActive: bool,
    roleId: Id)             // exactly one, mandatory

  /** A role; a super-admin role passes every role and permission check. */
  datatype Role = Role(
    name: string,           // unique among roles
    permissions: seq<Id>,   // ids of Permission records
    isSuperAdmin: bool)

  /** A named permission. */
  datatype Permission = Permission(
    key: string,            // unique among permissions
    description: Option<string>)

  /** A client company with exactly one assigned employee. */
  datatype Client = Client(
    name: string,
    email: string,          // unique among clients
    phone: Option<string>,
    company: Option<string>,
    address: Option<string>,
    notes: Option<string>,
    assignedEmployeeId: Id,
    isActive: bool)

  /** The six field types a template or vacancy field may have. */
  datatype FieldType = Text | Email | Number | Date | Select | Textarea

  /** A field of a job template; templates carry no select options. */
  datatype TemplateField = TemplateField(key: string, fieldType: FieldType, required: bool)

  /** A reusable form definition. */
  datatype JobTemplate = JobTemplate(
    name: string,
    description: Option<string>,
    fields: seq<TemplateField>,
    isActive: bool)

  /** A field of a vacancy's own schema. */
  datatype VacancyField = VacancyField(
    key: string,
    fieldType: FieldType,
    required: bool,
    options: seq<string>)

  /** A job vacancy, holding its own copy of a template's fields. */
  datatype JobVacancy = JobVacancy(
    title: string,
    description: Option<string>,
    clientId: Id,
    jobTemplateId: Id,
    fields: seq<VacancyField>,
    assignedAgencies: seq<Id>,
    createdBy: Id,
    isActive: bool)

  /**
   * A value read from a candidate's free-form data: a JSON value, or a
   * function, which no JSON body holds but which a plain object inherits
   * from `Object.prototype` under names such as `toString`.
   */
  datatype Value = JNull | JBool(b: bool) | JNumber(n: real) | JString(s: string) | JObject | JFunction

  /** The review states of a candidate. */
  datatype Status = Pending | Reviewed | Shortlisted | Rejected | Hired

  /** A candidate submitted by an agency for one vacancy. */
  datatype Candidate = Candidate(
    jobVacancyId: Id,
    data: map<string, Value>,
    createdBy: Id,
    status: Status,
    notes: Option<string>,
    isActive: bool)

  /** A template field as a request body gives it: `required` may be omitted. */
  datatype FieldInput = FieldInput(key: string, fieldType: FieldType, required: Option<bool>)

  /** A vacancy field as a request body gives it: `required` and `options` may be omitted. */
  datatype VacancyFieldInput = VacancyFieldInput(
    key: string,
    fieldType: FieldType,
    required: Option<bool>,
    options: Option<seq<string>>)

  /** Casts a body field to a template field: `required` defaults to false. */
  function ToTemplateField(f: FieldInput): (t: TemplateField)
    ensures t.key == f.key && t.fieldType == f.fieldType
    ensures t.required <==> f.required == Some(true)
  {
    TemplateField(f.key, f.fieldType, f.required.GetOr(false))
  }

  /** Casts every body field, in order. */
  function ToTemplateFields(fs: seq<FieldInput>): (ts: seq<TemplateField>)
    ensures |ts| == |fs|
    ensures forall i :: 0 <= i < |fs| ==> ts[i] == ToTemplateField(fs[i])
  {
    seq(|fs|, i requires 0 <= i < |fs| => ToTemplateField(fs[i]))
  }

  /** Casts a body field to a vacancy field: `required` defaults to false, `options` to []. */
  function ToVacancyField(f: VacancyFieldInput): (v: VacancyField)
    ensures v.key == f.key && v.fieldType == f.fieldType
    ensures v.required <==> f.required == Some(true)
    ensures f.options.None? ==> v.options == []
    ensures f.options.Some? ==> v.options == f.options.value
  {
    VacancyField(f.key, f.fieldType, f.required.GetOr(false), f.options.GetOr([]))
  }

  /** Casts every body field, in order. */
  function ToVacancyFields(fs: seq<VacancyFieldInput>): (vs: seq<VacancyField>)
    ensures |vs| == |fs|
    ensures forall i :: 0 <= i < |fs| ==> vs[i] == ToVacancyField(fs[i])
  {
    seq(|fs|, i requires 0 <= i < |fs| => ToVacancyField(fs[i]))
  }
}

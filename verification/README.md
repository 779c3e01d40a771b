# Recruitment backend access control and candidate intake, in Dafny

This project models the core of a NestJS/Mongoose recruitment backend. Three
route guards decide whether a request may reach an endpoint:

- `RolesGuard` checks the endpoint's role list (any one role suffices).
- `PermissionsGuard` checks its permission-key list (every key is needed).
- `SuperAdminGuard` protects the role and user controllers.

Each guard re-reads the caller's user and role from the store. The project
also models the services behind the endpoints:

- **Templates** define dynamic form fields.
- **Vacancies** copy a template's fields when they are created (the
  "snapshot") and keep a set of assigned agencies.
- **Candidates** are submitted by an assigned agency. Their free-form `data`
  is validated against the vacancy's snapshot, and only their creator may
  change or delete them.
- **Clients** each have one assigned employee.
- **Users, roles and permissions** keep unique e-mails, names and keys through
  pre-checks.
- **The start-up seeding** creates an ADMIN super-admin role and an admin user
  when they are missing.

The controllers are modelled as a requirement table (`Routes.GateOf`) and as
the dispatch of the list and read endpoints on the token's role.

## Modelling choices

- **The database** is a value `Store`: one finite map per collection, keyed by
  `Id` (a string). Every service operation is a pure function from a store to
  a `Result`. Thrown Nest exceptions become `Err` values of `Errors.Error`,
  and `Errors.Status` maps them to HTTP status codes.
- **Fresh ObjectIds** are parameters of the create operations, with
  `requires id !in ...`.
- **Missing request user.** The request user attached by the JWT strategy is
  an `Option<Principal>`. An empty `userId` stands for a missing or falsy one.
- **Truthiness.** A JavaScript truthiness test on an optional string is
  `Schemas.Truthy`: present and non-empty. On a candidate value it is
  `Validator.IsTruthy`: undefined, `null`, `false`, `0` and `""` are falsy.
- **`Number()` parsing** is not modelled. It is an abstract parameter
  `numeric: string -> bool` that says which strings convert to a number that
  is not NaN.
- **The e-mail regular expression** `^[^\s@]+@[^\s@]+\.[^\s@]+$` is modelled
  twice:
  - as the pattern's own structure (`EmailFormat.MatchesEmailPattern`);
  - as a scanner (`EmailFormat.IsValidEmail`).

  `EmailFormat.IsValidEmailMatchesPattern` proves the two agree. `\s` is the
  JavaScript whitespace set, taken by code point.
- **Inherited property names.** Candidate `data` is a plain JavaScript object,
  so `data[key]` also finds what it inherits from `Object.prototype`.
  `Validator.Lookup` returns a function for the inherited method names
  (`toString`, `constructor`, ...) and an object for `__proto__`. Both are
  truthy, fail the e-mail pattern and convert to NaN.
- **`populate`** drops referenced ids whose record is gone. `Stores.Populate`
  and `Stores.GrantedKeys` do the same.
- **Uniqueness.** The unique indexes of the schemas are not enforced by the
  model. `Stores.UniqueOn` states the property. Lemmas show which services
  keep it through their own pre-checks, and under which extra hypothesis.

## Where the code and the documented design disagree (the model follows the code)

- **Validation stops early.** The validator stops at the first failing field
  and reports one violation. It does not collect a list.
- **No ownership bypass.** Super-admin status bypasses the role and permission
  guards only. Every candidate update and delete still requires
  `createdBy == userId`. A candidate read is restricted only when the token
  role is AGENCY.
- **No vacancy ownership check.** Vacancy update and delete check no
  ownership. Any user who passes the EMPLOYEE/permission guards may change any
  vacancy.
- **Roles come from the store.** The guards ignore the token's role claim and
  re-read the user and role. The list endpoints, however, dispatch on the
  token's role claim (`Routes.StaleTokenNarrowsList`).
- **Falsy includes `0` and `false`.** A required field holding `0` or `false`
  is reported as missing, not only an empty or null value.
- **Create-time errors.** An unknown template or vacancy at create time is a
  400 "not found" (`ReferenceMissing`). An agency that is not assigned to the
  vacancy gets a 403.

## Model

| member | source | states |
|---|---|---|
| Guards.ResolveRole | src/common/guards/roles.guard.ts:27-42 | the request user must carry a userId ("Access denied"), name a stored user ("User not found") whose roleId names a stored role ("Role not found"); otherwise the stored role is returned |
| Guards.RolesGuard | src/common/guards/roles.guard.ts:17-55 | absent or empty role metadata allows; otherwise the lookup errors in order, then a super-admin role allows, else allowed exactly when the stored role's name is one of the listed roles, "Insufficient role permissions" otherwise |
| Guards.PermissionsGuard | src/common/guards/permissions.guard.ts:19-59 | absent or empty permission metadata allows; otherwise the lookup errors, then super-admin allows, else allowed exactly when every listed key is the key of an existing permission the role references, "Insufficient permissions" otherwise |
| Guards.SuperAdminGuard | src/common/guards/super-admin.guard.ts:11-30 | "Access denied" without userId, "User not found" for an unknown user, and otherwise allowed exactly when the user's role exists and is super-admin; a missing role gives the super-admin message |
| Guards.SuperAdminPassesEveryGuard | src/common/guards/roles.guard.ts:44-47 | a user passing the super-admin gate passes every role and permission requirement |
| Guards.SuperAdminGateMissingRole | src/common/guards/super-admin.guard.ts:24-27 | a stored user with a dangling roleId gets "Only super admin..." from the super-admin gate but "Role not found" from RolesGuard |
| Guards.GuardsIgnoreTokenRole | src/modules/auth/strategies/jwt.strategy.ts:19-21 | the token's role claim never changes a guard decision |
| Guards.GuardsIgnoreIsActive | src/common/guards/roles.guard.ts:34-42 | a deactivated user is decided exactly like an active one |
| Guards.PermissionsGuardMonotone | src/common/guards/permissions.guard.ts:51-52 | adding permission ids to a role never turns an Allow into a Deny |
| Guards.GuardsDependOnRequiredSet | src/common/guards/permissions.guard.ts:51-56 | only the set of listed names matters, not their order or repetition |
| Guards.OneMissingKeyDenies | src/common/guards/permissions.guard.ts:52-56 | an ordinary role lacking any one listed key is refused (AND semantics) |
| Errors.DenyMessagesDistinct | src/common/guards/roles.guard.ts:30-52 | the six guard refusal messages are pairwise distinct |
| Stores.Populate | src/common/guards/permissions.guard.ts:41 | the populated list holds exactly the records of the referenced ids that exist, and is no longer than the id list |
| Stores.PopulateAppend | src/common/guards/permissions.guard.ts:41 | populating a concatenation of id lists gives the two populated lists one after the other, so records keep the order of their ids |
| Stores.PopulateSingleton | src/common/guards/permissions.guard.ts:41 | one id populates to its record, or to nothing when no record has that id |
| Stores.GrantedKeys | src/common/guards/permissions.guard.ts:51 | a key is in the role's key list exactly when an existing referenced permission has that key |
| Stores.GrantsMonotone | src/common/guards/permissions.guard.ts:51-52 | appending ids to a role keeps every key it granted |
| Stores.UniqueOnInsert | src/modules/user/schemas/user.schema.ts:10-11 | inserting a record whose key is not taken keeps keys unique |
| Stores.UniqueOnReplace | src/modules/role/schemas/role.schema.ts:7-8 | replacing a record by one whose key no other record holds keeps keys unique |
| Stores.UniqueOnRemove | src/modules/client/schemas/client.schema.ts:9-10 | deleting a record keeps keys unique |
| Schemas.ToTemplateField | src/modules/job-template/schemas/job-template.schema.ts:6-34 | a template field keeps key and type; `required` defaults to false |
| Schemas.ToTemplateFields | src/modules/job-template/schemas/job-template.schema.ts:6-34 | the stored field list corresponds one-to-one, in order, to the supplied fields |
| Schemas.ToVacancyField | src/modules/job-vacancy/schemas/job-vacancy.schema.ts:6-48 | a vacancy field keeps key and type; `required` defaults to false and `options` to empty |
| Schemas.ToVacancyFields | src/modules/job-vacancy/schemas/job-vacancy.schema.ts:6-48 | the stored vacancy field list corresponds one-to-one, in order, to the supplied fields |
| EmailFormat.IndexOf | src/modules/candidate/candidate.service.ts:52-54 | the index of the first occurrence of a character, or the length when absent |
| EmailFormat.IsValidEmail | src/modules/candidate/candidate.service.ts:52-54 | an accepted address has at least five characters, holds an `@`, and neither starts nor ends with `@` |
| EmailFormat.IsValidEmailMatchesPattern | src/modules/candidate/candidate.service.ts:52-54 | the scanner accepts exactly the strings matching the e-mail regular expression: non-empty local part and domain without whitespace or `@`, split by one `@`, with a dot that has text on both sides in the domain |
| EmailFormat.AcceptsPlainAddress | src/modules/candidate/candidate.service.ts:52-54 | a plain address is accepted |
| EmailFormat.RejectsMissingAt | src/modules/candidate/candidate.service.ts:52-54 | a string without `@` is rejected |
| EmailFormat.RejectsEmptyLocalPart | src/modules/candidate/candidate.service.ts:52-54 | an address with an empty local part is rejected |
| EmailFormat.RejectsTwoAts | src/modules/candidate/candidate.service.ts:52-54 | an address with two `@` is rejected |
| Validator.Lookup | src/modules/candidate/candidate.service.ts:38 | an own key gives its value; an absent key gives a value exactly when it names an `Object.prototype` method or is `__proto__`, and that value is a function or an object |
| Validator.CheckField | src/modules/candidate/candidate.service.ts:37-48 | one field, reading the value as `data[key]` does, inherited names included: a required field with a falsy value is "required"; a truthy value of an email field must be a valid e-mail string; a truthy value of a number field must convert to a number; falsy optional values pass |
| Validator.Validate | src/modules/candidate/candidate.service.ts:36-50 | no violation exactly when every field passes; a reported violation is the first failing field's, all earlier fields passing |
| Validator.ValidateAppend | src/modules/candidate/candidate.service.ts:37 | fields are checked in order: a violation in the prefix wins, otherwise the suffix decides |
| Validator.ValidateIgnoresUnknownKeys | src/modules/candidate/candidate.service.ts:37-38 | data keys no field mentions never affect the result |
| Validator.MissingRequiredEmail | src/modules/candidate/candidate.service.ts:38-40 | a missing required email field is reported as required, not as a format error |
| Validator.MalformedEmailIsFormatError | src/modules/candidate/candidate.service.ts:41-44 | a non-empty string that is not an e-mail is a format error on an email field |
| Validator.NumericStringPasses | src/modules/candidate/candidate.service.ts:45-47 | a string that converts to a number passes a number field |
| Validator.UnknownKeyNotReported | src/modules/candidate/candidate.service.ts:37 | extra data keys are not reported |
| Validator.InheritedNamesArePresent | src/modules/candidate/candidate.service.ts:38-47 | on empty data a required field `constructor` or `__proto__` passes, an e-mail field `toString` is a format error and a number field `valueOf` is a number error |
| Validator.FalsyValuesFailRequired | src/modules/candidate/candidate.service.ts:38 | `0`, `false` and `null` fail a required field |
| TemplateService.Create | src/modules/job-template/job-template.service.ts:14-17 | adds exactly one template with the supplied name, description and fields; `isActive` defaults to true; nothing else changes |
| TemplateService.FindOne | src/modules/job-template/job-template.service.ts:23-29 | the stored template, or not found |
| TemplateService.Update | src/modules/job-template/job-template.service.ts:31-39 | not found for an unknown id; otherwise only the given properties of that template change |
| TemplateService.Remove | src/modules/job-template/job-template.service.ts:41-47 | deletes exactly that template, or not found |
| VacancyService.Snapshot | src/modules/job-vacancy/job-vacancy.service.ts:24 | the snapshot copies each template field's key, type and required flag, in order, with no options |
| VacancyService.AsTemplateFields | src/modules/job-vacancy/job-vacancy.service.ts:24 | reads a vacancy's fields back as template fields, one for one: each keeps its position, key, type and required flag |
| VacancyService.SnapshotRoundTrip | src/modules/job-vacancy/job-vacancy.service.ts:24 | reading a snapshot back gives the template's fields exactly |
| VacancyService.Create | src/modules/job-vacancy/job-vacancy.service.ts:16-28 | an unknown template is a reference error; otherwise exactly one vacancy is added whose fields are the template's snapshot and whose creator is the caller |
| VacancyService.FindAll | src/modules/job-vacancy/job-vacancy.service.ts:30-32 | every stored vacancy, unchanged |
| VacancyService.FindAllSplitsByClient | src/modules/job-vacancy/job-vacancy.service.ts:30-36 | a vacancy of the full list is in a client's list exactly when it belongs to that client |
| VacancyService.FindByClient | src/modules/job-vacancy/job-vacancy.service.ts:34-36 | exactly the vacancies of that client |
| VacancyService.FindByAgency | src/modules/job-vacancy/job-vacancy.service.ts:38-40 | exactly the vacancies listing that agency |
| VacancyService.FindOne | src/modules/job-vacancy/job-vacancy.service.ts:42-48 | the stored vacancy, or not found |
| VacancyService.Update | src/modules/job-vacancy/job-vacancy.service.ts:50-58 | not found for an unknown id; otherwise only the given properties change, with no ownership check |
| VacancyService.Remove | src/modules/job-vacancy/job-vacancy.service.ts:60-66 | deletes exactly that vacancy, or not found |
| VacancyService.AddToSet | src/modules/job-vacancy/job-vacancy.service.ts:70 | the result holds the old members plus the new one, appended only when absent |
| VacancyService.Pull | src/modules/job-vacancy/job-vacancy.service.ts:80 | the result holds exactly the old members other than the removed one |
| VacancyService.PullAppend | src/modules/job-vacancy/job-vacancy.service.ts:80 | pulling from a concatenation pulls from each part, so the remaining agencies keep their order |
| VacancyService.PullSingleton | src/modules/job-vacancy/job-vacancy.service.ts:80 | a single member is removed exactly when it is the pulled id |
| VacancyService.AssignAgency | src/modules/job-vacancy/job-vacancy.service.ts:68-76 | not found for an unknown id; otherwise the agency set gains the agency and nothing else changes |
| VacancyService.RemoveAgency | src/modules/job-vacancy/job-vacancy.service.ts:78-86 | not found for an unknown id; otherwise the agency set loses every copy of the agency and nothing else changes |
| VacancyService.AssignAgencyIdempotent | src/modules/job-vacancy/job-vacancy.service.ts:68-76 | assigning the same agency twice is assigning it once |
| VacancyService.AssignThenRemoveAgency | src/modules/job-vacancy/job-vacancy.service.ts:68-86 | after assign then remove, the agency is no longer assigned and every other agency still is exactly when it was before |
| VacancyService.SnapshotSurvivesTemplateEdits | src/modules/job-vacancy/job-vacancy.service.ts:22-26 | editing or deleting the template afterwards leaves the vacancy's fields unchanged |
| CandidateService.Create | src/modules/candidate/candidate.service.ts:16-34 | unknown vacancy, then unassigned agency, then the first validation violation; otherwise exactly one candidate is added, created by the caller, status pending by default |
| CandidateService.FindAll | src/modules/candidate/candidate.service.ts:56-58 | every stored candidate, unchanged |
| CandidateService.FindAllSplitsByJobVacancy | src/modules/candidate/candidate.service.ts:56-62 | a candidate of the full list is in a vacancy's list exactly when it was submitted for that vacancy |
| CandidateService.FindByJobVacancy | src/modules/candidate/candidate.service.ts:60-62 | exactly the candidates of that vacancy |
| CandidateService.FindByAgency | src/modules/candidate/candidate.service.ts:64-66 | exactly the candidates that agency created |
| CandidateService.FindOne | src/modules/candidate/candidate.service.ts:68-79 | not found first; the candidate is returned unless the role is AGENCY and the caller did not create it |
| CandidateService.Update | src/modules/candidate/candidate.service.ts:81-102 | not found, then creator-only; supplied data is validated against the vacancy only when the vacancy still exists; only the given properties change |
| CandidateService.Remove | src/modules/candidate/candidate.service.ts:104-116 | not found, then creator-only; deletes exactly that candidate |
| CandidateService.CreatorOwnsCandidate | src/modules/candidate/candidate.service.ts:29-32 | after an agency creates a candidate it reads it back and finds it in its own list, while another AGENCY caller is refused reading it and any other caller is refused updating or deleting it |
| CandidateService.RemoveDeletesExactlyOne | src/modules/candidate/candidate.service.ts:114 | a removed candidate reads as not found afterwards; every other candidate and every vacancy is untouched |
| CandidateService.OrphanedUpdateSkipsValidation | src/modules/candidate/candidate.service.ts:91-96 | when the vacancy is gone, the creator's data update succeeds whatever the data |
| ClientService.ValidateEmployee | src/modules/client/client.service.ts:109-119 | an unknown user is "employee not found"; a user whose role is missing or not named EMPLOYEE is refused |
| ClientService.Create | src/modules/client/client.service.ts:18-34 | a taken e-mail is a conflict, checked before the employee; otherwise exactly one client is added with the supplied properties |
| ClientService.FindAll | src/modules/client/client.service.ts:36-38 | every stored client, unchanged |
| ClientService.FindAllSplitsByEmployee | src/modules/client/client.service.ts:36-46 | a client of the full list is in an employee's list exactly when it is assigned to that employee |
| ClientService.FindAllForEmployee | src/modules/client/client.service.ts:40-46 | exactly the clients assigned to that employee |
| ClientService.FindOne | src/modules/client/client.service.ts:48-54 | the stored client, or not found |
| ClientService.FindOneForEmployee | src/modules/client/client.service.ts:56-66 | the client when it exists and is assigned to that employee, else not found |
| ClientService.Update | src/modules/client/client.service.ts:68-100 | a non-empty e-mail held by another client is a conflict, then a non-empty employee id must be an employee, then not found; only the given properties change |
| ClientService.Remove | src/modules/client/client.service.ts:102-107 | deletes exactly that client, or not found |
| ClientService.CreateKeepsEmailsUnique | src/modules/client/client.service.ts:19-22 | create keeps client e-mails unique |
| ClientService.UpdateKeepsEmailsUnique | src/modules/client/client.service.ts:72-80 | update keeps client e-mails unique when no empty e-mail is supplied |
| ClientService.UpdateMayKeepOwnEmail | src/modules/client/client.service.ts:73-76 | re-sending a client's own e-mail is not a conflict |
| UserService.View | src/modules/user/user.service.ts:39-45 | a read shows the user's properties with the role record attached when it exists, and no password |
| UserService.Create | src/modules/user/user.service.ts:22-33 | a taken e-mail is a conflict; otherwise exactly one user is added with the supplied properties, active by default; the role id is not checked |
| UserService.FindOne | src/modules/user/user.service.ts:39-45 | the user's read view, or not found |
| UserService.SetIfTruthy | src/modules/user/user.service.ts:64-67 | a property changes only when a non-empty value is supplied |
| UserService.Update | src/modules/user/user.service.ts:47-73 | a non-empty e-mail held by another user is a conflict before not found; name, e-mail, password and role change only when non-empty, `isActive` whenever given |
| UserService.Remove | src/modules/user/user.service.ts:75-80 | deletes exactly that user, or not found |
| UserService.CreateKeepsEmailsUnique | src/modules/user/user.service.ts:23-26 | create keeps user e-mails unique |
| UserService.UpdateKeepsEmailsUnique | src/modules/user/user.service.ts:48-65 | update keeps user e-mails unique, with no extra hypothesis, because an empty e-mail is never written |
| RoleService.View | src/modules/role/role.service.ts:30-36 | a read shows exactly the existing permission records the role references |
| RoleService.Create | src/modules/role/role.service.ts:14-24 | a taken name is a conflict; otherwise exactly one role is added, permissions default to empty and super-admin to false |
| RoleService.FindOne | src/modules/role/role.service.ts:30-36 | the role with populated permissions, or not found |
| RoleService.Update | src/modules/role/role.service.ts:38-65 | a non-empty name held by another role is a conflict before not found; every supplied property, an empty name included, is written |
| RoleService.Remove | src/modules/role/role.service.ts:67-72 | deletes exactly that role; users keep its id |
| RoleService.CreateKeepsNamesUnique | src/modules/role/role.service.ts:15-18 | create keeps role names unique |
| RoleService.UpdateKeepsNamesUnique | src/modules/role/role.service.ts:39-47 | update keeps role names unique when no empty name is supplied |
| RoleService.CreatedRoleIsOrdinary | src/modules/role/schemas/role.schema.ts:13-14 | a role created without the flag is not super-admin: its users pass a role requirement exactly when its name is listed, and fail the super-admin gate |
| RoleService.RemovedRoleLocksOutUsers | src/modules/role/role.service.ts:67-72 | after its role is deleted, a user is refused by all three guards |
| PermissionService.Create | src/modules/permission/permission.service.ts:14-20 | a taken key is a conflict; otherwise exactly that permission is added |
| PermissionService.FindOne | src/modules/permission/permission.service.ts:26-32 | the stored permission, or not found |
| PermissionService.Update | src/modules/permission/permission.service.ts:34-53 | a non-empty key held by another permission is a conflict before not found; the supplied properties are written |
| PermissionService.Remove | src/modules/permission/permission.service.ts:55-60 | deletes exactly that permission; roles keep its id |
| PermissionService.CreateKeepsKeysUnique | src/modules/permission/permission.service.ts:15-18 | create keeps permission keys unique |
| PermissionService.UpdateKeepsKeysUnique | src/modules/permission/permission.service.ts:35-43 | update keeps permission keys unique when no empty key is supplied |
| PermissionService.EmptyKeySkipsConflictCheck | src/modules/permission/permission.service.ts:35 | an empty key skips the pre-check and can leave two permissions with the same key |
| PermissionService.RemoveRevokesKey | src/modules/permission/permission.service.ts:55-60 | with unique keys, a deleted permission's key is granted by no role any more |
| SeedService.LoadAdminConfig | src/config/admin.config.ts:3-6 | an unset or empty admin e-mail falls back to admin@system.com; the password is taken as given |
| SeedService.SeedRoles | src/seed/seed.service.ts:26-36 | creates the super-admin ADMIN role without permissions only when no role is named ADMIN |
| SeedService.AdminRoleId | src/seed/seed.service.ts:49 | the id of the only role named ADMIN |
| SeedService.SeedAdmin | src/seed/seed.service.ts:38-63 | a missing or empty password is an error; an existing admin e-mail means no change; a missing ADMIN role is an error; otherwise one active "Super Admin" user with the ADMIN role is added |
| SeedService.OnModuleInit | src/seed/seed.service.ts:19-24 | a seeded instance does nothing; otherwise the ADMIN role exists afterwards even if the admin seeding fails, and the flag is set exactly when no error occurred; on success a user holds the admin e-mail, existing users are kept, and a newly created admin's role is the ADMIN role |
| SeedService.SeedRolesKeepsNamesUnique | src/seed/seed.service.ts:27-35 | role seeding keeps role names unique and leaves an ADMIN role |
| SeedService.SeedRolesIdempotent | src/seed/seed.service.ts:26-36 | seeding roles twice is seeding them once |
| SeedService.SeedAdminIdempotent | src/seed/seed.service.ts:46-47 | once the admin is seeded, seeding again changes nothing |
| SeedService.RestartChangesNothing | src/seed/seed.service.ts:19-24 | after a successful start-up, a later start-up with a fresh flag leaves the store unchanged and succeeds |
| SeedService.SeededAdminIsSuperAdmin | src/seed/seed.service.ts:29-33 | on a store without ADMIN role or admin user, the seeded admin passes the super-admin gate |
| Routes.GateOf | src/modules/candidate/candidate.controller.ts:26-84 | the role and user controllers use the super-admin gate; every other endpoint lists at least one role and exactly one permission key (the table also holds the decorators of job-vacancy.controller.ts:26-98, client.controller.ts:25-74 and job-template.controller.ts:24-67, whose entries the per-controller lemmas below cite) |
| Routes.Authorize | src/modules/job-vacancy/job-vacancy.controller.ts:26 | RolesGuard runs before PermissionsGuard, so a role refusal is the one reported; super-admin endpoints use only the super-admin gate |
| Routes.AuthorizeMeaning | src/common/guards/permissions.guard.ts:19-59 | an ordinary user passes a guarded endpoint exactly when its stored role is listed and grants every listed key |
| Routes.UnresolvedUserRefused | src/common/guards/roles.guard.ts:27-42 | a request whose user or role cannot be resolved is refused on every endpoint |
| Routes.SuperAdminPassesEveryRoute | src/common/guards/super-admin.guard.ts:11-30 | a super-admin role passes every endpoint |
| Routes.RoleAndUserRoutesNeedSuperAdmin | src/modules/role/role.controller.ts:19 | the role endpoints (and the user endpoints, user.controller.ts:19) admit exactly the users whose stored role is super-admin |
| Routes.EmployeeLockedOutOfCandidates | src/modules/candidate/candidate.controller.ts:30-84 | an ordinary EMPLOYEE is refused creating, reading, updating and deleting single candidates |
| Routes.AgencyLockedOutOfTemplates | src/modules/job-template/job-template.controller.ts:28-67 | an ordinary AGENCY is refused every template endpoint |
| Routes.OnlyEmployeeChangesVacancies | src/modules/job-vacancy/job-vacancy.controller.ts:30-98 | only an EMPLOYEE (or a super-admin) passes the vacancy write endpoints |
| Routes.OnlyAdminWritesClients | src/modules/client/client.controller.ts:29-74 | only an ADMIN (or a super-admin) passes the client write endpoints |
| Routes.ListCandidates | src/modules/candidate/candidate.controller.ts:41-57 | a token role of AGENCY lists exactly its own candidates; otherwise a non-empty vacancy filter selects that vacancy's candidates, else all |
| Routes.ListVacancies | src/modules/job-vacancy/job-vacancy.controller.ts:41-57 | a token role of AGENCY lists exactly the vacancies it is assigned to; otherwise a non-empty client filter selects that client's vacancies, else all |
| Routes.ListClients | src/modules/client/client.controller.ts:37-46 | dispatches on the token role: ADMIN to the service's full client list, anyone else to exactly the clients assigned to them (the handler's later response conversion is not modelled) |
| Routes.ReadClient | src/modules/client/client.controller.ts:48-59 | dispatches on the token role: ADMIN to the service read of any client, anyone else to the read that gives not found for a client assigned elsewhere (the handler's later response conversion is not modelled) |
| Routes.ReadCandidate | src/modules/candidate/candidate.controller.ts:59-68 | a guard refusal is reported as such; once allowed, the read succeeds exactly when the candidate exists and the caller's token role is not AGENCY or the caller created it; a missing id is "not found" and another creator's candidate is the "not creator" error for an AGENCY caller |
| Routes.ReadVacancy | src/modules/job-vacancy/job-vacancy.controller.ts:59-65 | a guard refusal is reported as such; past the guards, any stored vacancy is returned and an unknown id is not found |
| Routes.VacancyReadIgnoresAssignment | src/modules/job-vacancy/job-vacancy.controller.ts:60-64 | an AGENCY user passing the guards reads a vacancy it is not assigned to, though its list omits it |
| Routes.AgencyListIgnoresFilter | src/modules/candidate/candidate.controller.ts:49-50 | for a token role of AGENCY the vacancy filter has no effect |
| Routes.AgencyCannotReadOthersCandidate | src/modules/candidate/candidate.controller.ts:59-68 | an AGENCY user passing the guards still gets the creator error for another agency's candidate |
| Routes.StaleTokenNarrowsList | src/modules/candidate/candidate.controller.ts:41-57 | a stored ADMIN whose token still says AGENCY passes the role guard yet lists only its own candidates |

## Left out

- Authentication is not modelled. That covers JWT signing and verification
  and the login flow in `auth.service.ts`. The request user is an input.
- Password hashing in the user schema's pre-save hook is not modelled.
  Passwords are stored as given.
- The ObjectId parameter pipe and the DTO decorators are not modelled. Their
  inputs are assumed to have the declared shapes: class-validator
  `@IsEmail`, `@IsNotEmpty`, `@IsMongoId` and the like.
- The database's unique indexes and Mongoose's save-time validators are not
  modelled. The store can hold anything the services write.
- Candidate `data` holds no arrays. JavaScript's `Number()` and truthiness
  coercions of arrays are left out.
- Validator.CheckField: of the names a plain object inherits, only the
  `Object.prototype` members are modelled; a prototype changed at run time is
  not.
- `Number()` conversion is an abstract parameter. The decimal, hexadecimal,
  whitespace and `Infinity` rules of JavaScript are left out.
- Routes.ListClients, Routes.ReadClient: model only the service call the
  handler picks from the token role (ADMIN or other). As written, the handlers
  then call `toObject()` on the plain objects a `lean()` query returns. Those
  have no such method, so a request that finds at least one client fails
  with a 500 error. The template list and read handlers do the same on their
  `lean()` results. That failure is not modelled.
- Response shaping is not modelled: `plainToInstance`, `select`, `lean`, and
  populate projections beyond the permission list and the user's role.
- The `findAll` operations of the user, role, permission and template services
  return their whole collection, possibly populated. They are not modelled
  separately.
- The permission controller is not part of this model: `permission.service.ts`
  has no controller among the sources.
- The role controller's `addPermissionByKey`, `removePermissionByKey` and
  `addMultiplePermissionsByKey` routes call service methods that
  `role.service.ts` does not define, so they are not modelled.
- Timestamps (`createdAt`, `updatedAt`) are not modelled.
- Concurrency is not modelled: two simultaneous creates can both pass a
  uniqueness pre-check. Each operation is atomic on a single store.
- Console logging in the seed is not modelled.
- References are not checked: a vacancy's `clientId`, a user's `roleId` and a
  role's permission ids are never validated by the services, and the model
  does not validate them either.
- ClientService.UpdateKeepsEmailsUnique: holds only when the supplied e-mail
  is not the empty string. An empty e-mail skips the pre-check but is still
  written, and only the unique index would refuse it.
- RoleService.UpdateKeepsNamesUnique: holds only when the supplied name is not
  the empty string, for the same reason.
- PermissionService.UpdateKeepsKeysUnique: holds only when the supplied key is
  not the empty string, for the same reason
  (`PermissionService.EmptyKeySkipsConflictCheck` exhibits the case).
- SeedService.SeedAdmin, SeedService.AdminRoleId, SeedService.OnModuleInit: assume role names are
  unique, as the role schema's unique index promises. Without that index,
  the database's choice among several ADMIN roles is not modelled.

/** The exceptions the services and guards throw, as data. */
module Errors {

  /** The reasons a guard refuses a request (all are HTTP 403 Forbidden). */
  datatype DenyReason =
    | AccessDenied              // no request user, or no userId in it
    | UserNotFound              // the userId is not in the user store
    | RoleNotFound              // the user's roleId is not in the role store
    | InsufficientRole          // RolesGuard: the role name is not required
    | InsufficientPermissions   // PermissionsGuard: a required key is missing
    | NotSuperAdmin             // SuperAdminGuard: role missing or not super-admin

  /** The message each guard denial carries. */
  function DenyMessage(r: DenyReason): string {
    match r
    case AccessDenied => "Access denied"
    case UserNotFound => "User not found"
    case RoleNotFound => "Role not found"
    case InsufficientRole => "Insufficient role permissions"
    case InsufficientPermissions => "Insufficient permissions"
    case NotSuperAdmin => "Only super admin can access this resource"
  }

  /** Distinct denial reasons carry distinct messages. */
  lemma DenyMessagesDistinct(a: DenyReason, b: DenyReason)
    ensures a != b ==> DenyMessage(a) != DenyMessage(b)
  {}

  /** The kinds of record a lookup can fail to find or a uniqueness check can hit. */
  datatype Entity =
    | UserRecord | RoleRecord | PermissionRecord | ClientRecord
    | EmployeeRecord | TemplateRecord | VacancyRecord | CandidateRecord

  /** The operations guarded by the candidate ownership rule. */
  datatype CandidateAction = ViewAction | UpdateAction | DeleteAction

  /** A field of a candidate's data that violates the vacancy's field schema. */
  datatype FieldViolation =
    | Required(key: string)     // "Field <key> is required"
    | NotAnEmail(key: string)   // "Field <key> must be a valid email"
    | NotANumber(key: string)   // "Field <key> must be a number"

  /** Every exception of the modelled core. */
  datatype Error =
    | Forbidden(reason: DenyReason)          // 403 from a guard
    | NotAssignedToVacancy                   // 403: agency not assigned to the vacancy
    | NotCreator(action: CandidateAction)    // 403: candidate created by someone else
    | NotAnEmployee                          // 403: assigned user lacks the EMPLOYEE role
    | NotFound(entity: Entity)               // 404
    | Conflict(entity: Entity)               // 409: unique email / name / key taken
    | ReferenceMissing(entity: Entity)       // 400: vacancy or template named in a body is unknown
    | InvalidField(violation: FieldViolation) // 400: candidate data rejected
    | AdminPasswordMissing                   // seeding: no admin password configured
    | AdminRoleMissing                       // seeding: no role named ADMIN

  /** The HTTP status each exception is reported with (seeding errors abort start-up). */
  function Status(e: Error): nat {
    match e
    case Forbidden(_) | NotAssignedToVacancy | NotCreator(_) | NotAnEmployee => 403
    case NotFound(_) => 404
    case Conflict(_) => 409
    case ReferenceMissing(_) | InvalidField(_) => 400
    case AdminPasswordMissing | AdminRoleMissing => 500
  }
}

/** The leave requests the security screens receive, as the admin service declares them,
    and the date library those screens call, kept abstract. */
module Requests {
  import opened JsText

  /** One logged gate event. Every field is optional in the records the API sends. */
  datatype SecurityAction = SecurityAction(
    id: Option<string>,              // `_id`
    action: Option<string>,          // `action`: 'out' | 'in'
    securityStatus: Option<string>,  // `security_status`: 'out' | 'in'
    actionTime: Option<string>,      // `action_time`
    updatedAtSnake: Option<string>,  // `updated_at`
    updatedAtCamel: Option<string>,  // `updatedAt`
    createdAtSnake: Option<string>,  // `created_at`
    createdAtCamel: Option<string>)  // `createdAt`

  /** The student snapshot embedded in a request (`student_info`), as far as the screens read it. */
  datatype StudentInfo = StudentInfo(name: string, hostelName: string, roomNo: string)

  datatype LeaveRequest = LeaveRequest(
    requestId: string,                                   // `request_id`
    studentEnrollmentNumber: string,                     // `student_enrollment_number`
    appliedFrom: string,                                 // `applied_from`
    appliedTo: Option<string>,                           // `applied_to`
    reason: Option<string>,
    securityStatus: string,                              // 'pending' | 'out' | 'in'
    securityGuardAction: Option<seq<SecurityAction>>,    // `security_guard_action`
    studentInfo: StudentInfo,                            // `student_info`
    updatedAt: string)                                   // `updated_at` of the document

  /** What a timestamp is handed to dayjs as: a raw string, or a Date built from milliseconds. */
  datatype Stamp = Iso(text: string) | Epoch(ms: int)

  /** JavaScript truthiness of the value given to `formatTime`: a Date object is always truthy. */
  predicate StampTruthy(t: Stamp)
  {
    t.Epoch? || t.text != ""
  }

  /** The dayjs operations the screens use. Instants are milliseconds; the calendar is local time. */
  datatype Dayjs = Dayjs(
    parse: string -> Option<int>,   // `dayjs(s)`; None for an invalid date
    addDays: (int, int) -> int,     // `.add(n, 'day')`, `.subtract(n, 'day')` with n negated
    display: Stamp -> string,       // `dayjs(x).format('DD/MM/YYYY, hh:mm a')`
    fileStamp: int -> string)       // `dayjs(now).format('DDMMYYYY_HHmm')`
}

/** The tables of the application (tasks, attendance, leaves, expenses, user
    roles, and the user, organization and monthly-summary rows the store
    reads and writes), the closed value lists of their text columns, and the
    insert schemas: which fields a create may set, which it must set, what
    the defaults are, and which inputs are refused with which message. */
module Schema {
  import opened Wrappers

  type UserId = int
  /** An instant, as milliseconds since the epoch. */
  type Timestamp = int

  // ---- closed value lists of the text columns ----

  const TaskStatuses: seq<string> := ["pending", "in_progress", "completed"]
  const TaskPriorities: seq<string> := ["low", "medium", "high", "critical"]
  const AttendanceStatuses: seq<string> := ["present", "absent", "leave"]
  const LeaveTypes: seq<string> := ["sick", "casual", "vacation", "other"]
  const ApprovalStatuses: seq<string> := ["pending", "approved", "rejected"]
  const Roles: seq<string> := ["admin", "staff", "proprietor"]

  // ---- rows ----

  datatype User = User(
    id: UserId, email: string, password: string, firstName: string, lastName: string,
    role: string, department: Option<string>, title: Option<string>,
    organizationId: Option<int>, isActive: bool)

  datatype Task = Task(
    id: int, title: string, description: Option<string>,
    assignedToId: UserId, assignedById: UserId, organizationId: Option<int>,
    status: string, priority: string, dueDate: Option<Timestamp>,
    completionLevel: int, createdAt: Timestamp, updatedAt: Option<Timestamp>)

  /** `date` is the text of a date column, "YYYY-MM-DD". */
  datatype Attendance = Attendance(
    id: int, userId: UserId, date: string, status: string,
    checkInTime: Option<Timestamp>, checkOutTime: Option<Timestamp>,
    organizationId: Option<int>)

  datatype Leave = Leave(
    id: int, userId: UserId, leaveType: string, startDate: string, endDate: string,
    days: Option<int>, reason: string, status: string,
    approvedById: Option<UserId>, approvedAt: Option<Timestamp>,
    organizationId: Option<int>, createdAt: Timestamp)

  /** `amount` is an integer number of cents. */
  datatype Expense = Expense(
    id: int, userId: UserId, amount: int, description: string, date: string,
    category: string, status: string, receiptUrl: Option<string>,
    approvedById: Option<UserId>, approvedAt: Option<Timestamp>,
    organizationId: Option<int>, createdAt: Timestamp)

  datatype MonthlySummary = MonthlySummary(
    id: int, userId: UserId, month: int, year: int,
    totalTasks: int, completedTasks: int, inProgressTasks: int, pendingTasks: int,
    attendanceDays: int, leaveDays: int, totalExpenses: string,
    organizationId: Option<int>)

  /** A row of the role table with its serial id; its user id is unique, so
      the table is a map from user id to this row. */
  datatype RoleRow = RoleRow(id: int, role: string, department: Option<string>, title: Option<string>)

  // ---- projections used to count and filter rows by a text column ----

  function TaskStatusOf(t: Task): string { t.status }
  function AttendanceStatusOf(a: Attendance): string { a.status }
  function LeaveStatusOf(l: Leave): string { l.status }
  function ExpenseStatusOf(e: Expense): string { e.status }

  // ---- rows whose text columns hold listed values ----

  predicate TaskWellTyped(t: Task) { t.status in TaskStatuses && t.priority in TaskPriorities }
  predicate AttendanceWellTyped(a: Attendance) { a.status in AttendanceStatuses }
  predicate LeaveWellTyped(l: Leave) { l.leaveType in LeaveTypes && l.status in ApprovalStatuses }
  predicate ExpenseWellTyped(e: Expense) { e.status in ApprovalStatuses }

  // ---- validation issues, as the insert schemas report them ----

  datatype Issue = Issue(path: string, message: string)

  /** The quoted options joined by " | ": 'a' | 'b' | 'c'. */
  function QuotedOptions(options: seq<string>): string
  {
    if options == [] then ""
    else if |options| == 1 then "'" + options[0] + "'"
    else "'" + options[0] + "' | " + QuotedOptions(options[1..])
  }

  function EnumMessage(options: seq<string>, received: string): string
  {
    "Invalid enum value. Expected " + QuotedOptions(options) + ", received '" + received + "'"
  }

  function Missing<T>(field: Option<T>, path: string): (r: seq<Issue>)
    ensures |r| <= 1 && (r == [] <==> field.Some?)
  {
    if field.None? then [Issue(path, "Required")] else []
  }

  /** An optional field holding a value outside the list. */
  function NotListed(field: Option<string>, options: seq<string>, path: string): (r: seq<Issue>)
    ensures |r| <= 1 && (r == [] <==> field.None? || field.value in options)
  {
    if field.Some? && field.value !in options then [Issue(path, EnumMessage(options, field.value))] else []
  }

  /** A required field that is absent or holds a value outside the list. */
  function RequiredListed(field: Option<string>, options: seq<string>, path: string): (r: seq<Issue>)
    ensures |r| <= 1 && (r == [] <==> field.Some? && field.value in options)
  {
    if field.None? then [Issue(path, "Required")] else NotListed(field, options, path)
  }

  // ---- tasks ----

  /** A request body for a task, before validation: every field may be absent. */
  datatype TaskBody = TaskBody(
    title: Option<string>, description: Option<string>,
    assignedToId: Option<UserId>, assignedById: Option<UserId>, organizationId: Option<int>,
    status: Option<string>, priority: Option<string>, dueDate: Option<Timestamp>,
    completionLevel: Option<int>)

  /** What a task create may set. */
  datatype InsertTask = InsertTask(
    title: string, description: Option<string>,
    assignedToId: UserId, assignedById: UserId, organizationId: Option<int>,
    status: Option<string>, priority: Option<string>, dueDate: Option<Timestamp>,
    completionLevel: Option<int>)

  function TaskIssues(b: TaskBody): seq<Issue>
  {
    Missing(b.title, "title") + Missing(b.assignedToId, "assignedToId") + Missing(b.assignedById, "assignedById")
    + NotListed(b.status, TaskStatuses, "status") + NotListed(b.priority, TaskPriorities, "priority")
  }

  /** The insert schema of tasks: title and both user ids are required,
      status and priority must be listed values when given; nothing is
      checked about completionLevel. */
  function ParseTask(b: TaskBody): (r: Result<InsertTask, seq<Issue>>)
    ensures r.Ok? <==> b.title.Some? && b.assignedToId.Some? && b.assignedById.Some?
                       && (b.status.None? || b.status.value in TaskStatuses)
                       && (b.priority.None? || b.priority.value in TaskPriorities)
    ensures r.Ok? ==> r.value.title == b.title.value && r.value.status == b.status
                      && r.value.priority == b.priority && r.value.completionLevel == b.completionLevel
                      && r.value.assignedToId == b.assignedToId.value && r.value.assignedById == b.assignedById.value
    ensures r.Ok? ==> r.value.description == b.description && r.value.dueDate == b.dueDate
                      && r.value.organizationId == b.organizationId
    ensures r.Err? ==> r.error != []
  {
    var issues := TaskIssues(b);
    if issues != [] then Err(issues)
    else Ok(InsertTask(b.title.value, b.description, b.assignedToId.value, b.assignedById.value,
                       b.organizationId, b.status, b.priority, b.dueDate, b.completionLevel))
  }

  /** The row a task insert creates: status "pending", priority "medium" and
      completion level 0 unless given. */
  function NewTask(id: int, ins: InsertTask, now: Timestamp): (t: Task)
    ensures t.id == id && t.title == ins.title && t.assignedToId == ins.assignedToId
    ensures t.assignedById == ins.assignedById && t.organizationId == ins.organizationId
    ensures t.status == (if ins.status.Some? then ins.status.value else "pending")
    ensures t.priority == (if ins.priority.Some? then ins.priority.value else "medium")
    ensures t.completionLevel == (if ins.completionLevel.Some? then ins.completionLevel.value else 0)
    ensures t.description == ins.description && t.dueDate == ins.dueDate
    ensures t.createdAt == now && t.updatedAt.None?
  {
    Task(id, ins.title, ins.description, ins.assignedToId, ins.assignedById, ins.organizationId,
         ins.status.GetOr("pending"), ins.priority.GetOr("medium"), ins.dueDate,
         ins.completionLevel.GetOr(0), now, None)
  }

  /** A validated task body creates a row whose status and priority are listed values. */
  lemma ParsedTaskWellTyped(b: TaskBody, id: int, now: Timestamp)
    requires ParseTask(b).Ok?
    ensures TaskWellTyped(NewTask(id, ParseTask(b).value, now))
  {
  }

  /** The completion level is documented as 0 to 100 but not checked: 150 is accepted and stored. */
  lemma CompletionLevelUnchecked(id: int, now: Timestamp)
    ensures var b := TaskBody(Some("t"), None, Some(1), Some(2), None, None, None, None, Some(150));
            ParseTask(b).Ok? && NewTask(id, ParseTask(b).value, now).completionLevel == 150
  {
  }

  /** The partial task schema used by updates: every field optional, listed values still checked. */
  datatype TaskPatch = TaskPatch(
    title: Option<string>, description: Option<string>,
    assignedToId: Option<UserId>, assignedById: Option<UserId>, organizationId: Option<int>,
    status: Option<string>, priority: Option<string>, dueDate: Option<Timestamp>,
    completionLevel: Option<int>)

  function ParseTaskPatch(b: TaskBody): (r: Result<TaskPatch, seq<Issue>>)
    ensures r.Ok? <==> (b.status.None? || b.status.value in TaskStatuses)
                       && (b.priority.None? || b.priority.value in TaskPriorities)
    ensures r.Ok? ==> r.value.title == b.title && r.value.status == b.status && r.value.priority == b.priority
                      && r.value.completionLevel == b.completionLevel
    ensures r.Ok? ==> r.value.description == b.description && r.value.assignedToId == b.assignedToId
                      && r.value.assignedById == b.assignedById && r.value.organizationId == b.organizationId
                      && r.value.dueDate == b.dueDate
    ensures r.Err? ==> r.error != []
  {
    var issues := NotListed(b.status, TaskStatuses, "status") + NotListed(b.priority, TaskPriorities, "priority");
    if issues != [] then Err(issues)
    else Ok(TaskPatch(b.title, b.description, b.assignedToId, b.assignedById, b.organizationId,
                      b.status, b.priority, b.dueDate, b.completionLevel))
  }

  // ---- attendance ----

  datatype AttendanceBody = AttendanceBody(
    userId: Option<UserId>, date: Option<string>, status: Option<string>,
    checkInTime: Option<Timestamp>, checkOutTime: Option<Timestamp>, organizationId: Option<int>)

  datatype InsertAttendance = InsertAttendance(
    userId: UserId, date: string, status: Option<string>,
    checkInTime: Option<Timestamp>, checkOutTime: Option<Timestamp>, organizationId: Option<int>)

  /** The insert schema of attendance: user and date required, status a listed value when given. */
  function ParseAttendance(b: AttendanceBody): (r: Result<InsertAttendance, seq<Issue>>)
    ensures r.Ok? <==> b.userId.Some? && b.date.Some? && (b.status.None? || b.status.value in AttendanceStatuses)
    ensures r.Ok? ==> r.value.userId == b.userId.value && r.value.date == b.date.value && r.value.status == b.status
    ensures r.Ok? ==> r.value.checkInTime == b.checkInTime && r.value.checkOutTime == b.checkOutTime
                      && r.value.organizationId == b.organizationId
    ensures r.Err? ==> r.error != []
  {
    var issues := Missing(b.userId, "userId") + Missing(b.date, "date") + NotListed(b.status, AttendanceStatuses, "status");
    if issues != [] then Err(issues)
    else Ok(InsertAttendance(b.userId.value, b.date.value, b.status, b.checkInTime, b.checkOutTime, b.organizationId))
  }

  function NewAttendance(id: int, ins: InsertAttendance): (a: Attendance)
    ensures a.id == id && a.userId == ins.userId && a.date == ins.date
    ensures a.status == (if ins.status.Some? then ins.status.value else "present")
    ensures a.checkInTime == ins.checkInTime && a.checkOutTime == ins.checkOutTime
    ensures a.organizationId == ins.organizationId
  {
    Attendance(id, ins.userId, ins.date, ins.status.GetOr("present"), ins.checkInTime, ins.checkOutTime, ins.organizationId)
  }

  /** The status "half_day", which the attendance page offers, is refused by the insert schema. */
  lemma HalfDayRefused(userId: UserId, date: string)
    ensures ParseAttendance(AttendanceBody(Some(userId), Some(date), Some("half_day"), None, None, None)).Err?
  {
    assert "half_day" !in AttendanceStatuses;
  }

  // ---- leaves ----

  /** A leave body may carry a status; the insert schema omits that field, so it is dropped. */
  datatype LeaveBody = LeaveBody(
    userId: Option<UserId>, leaveType: Option<string>, startDate: Option<string>, endDate: Option<string>,
    days: Option<int>, reason: Option<string>, status: Option<string>, organizationId: Option<int>)

  datatype InsertLeave = InsertLeave(
    userId: UserId, leaveType: string, startDate: string, endDate: string,
    days: Option<int>, reason: string, organizationId: Option<int>)

  function LeaveIssues(b: LeaveBody): seq<Issue>
  {
    Missing(b.userId, "userId") + RequiredListed(b.leaveType, LeaveTypes, "type")
    + Missing(b.startDate, "startDate") + Missing(b.endDate, "endDate") + Missing(b.reason, "reason")
  }

  /** The insert schema of leaves: user, a listed type, both dates and a reason are required. */
  function ParseLeave(b: LeaveBody): (r: Result<InsertLeave, seq<Issue>>)
    ensures r.Ok? <==> b.userId.Some? && b.leaveType.Some? && b.leaveType.value in LeaveTypes
                       && b.startDate.Some? && b.endDate.Some? && b.reason.Some?
    ensures r.Ok? ==> r.value.userId == b.userId.value && r.value.leaveType == b.leaveType.value
                      && r.value.days == b.days && r.value.organizationId == b.organizationId
    ensures r.Ok? ==> r.value.startDate == b.startDate.value && r.value.endDate == b.endDate.value
                      && r.value.reason == b.reason.value
    ensures r.Err? ==> r.error != []
  {
    var issues := LeaveIssues(b);
    if issues != [] then Err(issues)
    else Ok(InsertLeave(b.userId.value, b.leaveType.value, b.startDate.value, b.endDate.value,
                        b.days, b.reason.value, b.organizationId))
  }

  /** A new leave is pending and carries no approver. */
  function NewLeave(id: int, ins: InsertLeave, now: Timestamp): (l: Leave)
    ensures l.id == id && l.userId == ins.userId && l.leaveType == ins.leaveType
    ensures l.startDate == ins.startDate && l.endDate == ins.endDate && l.days == ins.days
    ensures l.reason == ins.reason
    ensures l.status == "pending" && l.approvedById.None? && l.approvedAt.None?
    ensures l.organizationId == ins.organizationId && l.createdAt == now
  {
    Leave(id, ins.userId, ins.leaveType, ins.startDate, ins.endDate, ins.days, ins.reason,
          "pending", None, None, ins.organizationId, now)
  }

  /** Whatever status a body carries, the leave it creates is pending. */
  lemma CreatedLeaveIsPending(b: LeaveBody, id: int, now: Timestamp)
    requires ParseLeave(b).Ok?
    ensures NewLeave(id, ParseLeave(b).value, now).status == "pending"
    ensures LeaveWellTyped(NewLeave(id, ParseLeave(b).value, now))
  {
  }

  /** The type "emergency", which the leave form offers, is refused. */
  lemma EmergencyRefused(b: LeaveBody)
    requires b.leaveType == Some("emergency")
    ensures ParseLeave(b).Err?
  {
    assert "emergency" !in LeaveTypes;
  }

  // ---- expenses ----

  datatype ExpenseBody = ExpenseBody(
    userId: Option<UserId>, amount: Option<int>, description: Option<string>, date: Option<string>,
    category: Option<string>, status: Option<string>, receiptUrl: Option<string>, organizationId: Option<int>)

  datatype InsertExpense = InsertExpense(
    userId: UserId, amount: int, description: string, date: string, category: string,
    receiptUrl: Option<string>, organizationId: Option<int>)

  function ExpenseIssues(b: ExpenseBody): seq<Issue>
  {
    Missing(b.userId, "userId") + Missing(b.amount, "amount") + Missing(b.description, "description")
    + Missing(b.date, "date") + Missing(b.category, "category")
  }

  /** The insert schema of expenses: user, amount in cents, description, date and category are required. */
  function ParseExpense(b: ExpenseBody): (r: Result<InsertExpense, seq<Issue>>)
    ensures r.Ok? <==> b.userId.Some? && b.amount.Some? && b.description.Some? && b.date.Some? && b.category.Some?
    ensures r.Ok? ==> r.value.userId == b.userId.value && r.value.amount == b.amount.value
    ensures r.Ok? ==> r.value.description == b.description.value && r.value.date == b.date.value
                      && r.value.category == b.category.value && r.value.receiptUrl == b.receiptUrl
                      && r.value.organizationId == b.organizationId
    ensures r.Err? ==> r.error != []
  {
    var issues := ExpenseIssues(b);
    if issues != [] then Err(issues)
    else Ok(InsertExpense(b.userId.value, b.amount.value, b.description.value, b.date.value,
                          b.category.value, b.receiptUrl, b.organizationId))
  }

  /** A new expense is pending and carries no approver. */
  function NewExpense(id: int, ins: InsertExpense, now: Timestamp): (e: Expense)
    ensures e.id == id && e.userId == ins.userId && e.amount == ins.amount
    ensures e.description == ins.description && e.date == ins.date && e.category == ins.category
    ensures e.receiptUrl == ins.receiptUrl
    ensures e.status == "pending" && e.approvedById.None? && e.approvedAt.None?
    ensures e.organizationId == ins.organizationId && e.createdAt == now
  {
    Expense(id, ins.userId, ins.amount, ins.description, ins.date, ins.category, "pending",
            ins.receiptUrl, None, None, ins.organizationId, now)
  }

  lemma CreatedExpenseIsPending(b: ExpenseBody, id: int, now: Timestamp)
    requires ParseExpense(b).Ok?
    ensures NewExpense(id, ParseExpense(b).value, now).status == "pending"
    ensures ExpenseWellTyped(NewExpense(id, ParseExpense(b).value, now))
  {
  }

  // ---- user roles ----

  datatype InsertUserRole = InsertUserRole(userId: UserId, role: Option<string>, department: Option<string>, title: Option<string>)

  /** The row stored under the serial id `id`; its role defaults to "staff". */
  function NewRoleRow(id: int, ins: InsertUserRole): (r: RoleRow)
    ensures r.id == id
    ensures r.role == (if ins.role.Some? then ins.role.value else "staff")
    ensures r.department == ins.department && r.title == ins.title
  {
    RoleRow(id, ins.role.GetOr("staff"), ins.department, ins.title)
  }

  datatype UserRoleBody = UserRoleBody(userId: Option<UserId>, role: Option<string>, department: Option<string>, title: Option<string>)

  /** The insert schema of role rows: a user id is required, a role is a
      listed one when given. */
  function ParseUserRole(b: UserRoleBody): (r: Result<InsertUserRole, seq<Issue>>)
    ensures r.Ok? <==> b.userId.Some? && (b.role.None? || b.role.value in Roles)
    ensures r.Ok? ==> r.value == InsertUserRole(b.userId.value, b.role, b.department, b.title)
    ensures r.Err? ==> r.error != []
  {
    var issues := Missing(b.userId, "userId") + NotListed(b.role, Roles, "role");
    if issues != [] then Err(issues) else Ok(InsertUserRole(b.userId.value, b.role, b.department, b.title))
  }
}

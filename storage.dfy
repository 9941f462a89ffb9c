/** The record store: every table as a sequence of rows in insertion order,
    each with its own serial id counter, and the store's operations as
    methods that read or rewrite those tables. A query's `where` becomes a
    selection function on a table; an update rewrites the matching rows and
    keeps every other row; the `enrich*` helpers look up the users a row
    refers to, one row at a time. */
module Storage {
  import opened Wrappers
  import opened Schema
  import Seqs

  // ---- users ----

  /** What a user insert sets. The users table is declared outside the
      shown schema, so every column is given explicitly. */
  datatype InsertUser = InsertUser(
    email: string, password: string, firstName: string, lastName: string, role: string,
    department: Option<string>, title: Option<string>, organizationId: Option<int>, isActive: bool)

  /** A partial user update: an absent field is left as it is. */
  datatype UserPatch = UserPatch(
    email: Option<string>, password: Option<string>, firstName: Option<string>, lastName: Option<string>,
    role: Option<string>, department: Option<string>, title: Option<string>,
    organizationId: Option<int>, isActive: Option<bool>)

  /** A monthly summary row as inserted, without its id. */
  datatype InsertSummary = InsertSummary(
    userId: UserId, month: int, year: int,
    totalTasks: int, completedTasks: int, inProgressTasks: int, pendingTasks: int,
    attendanceDays: int, leaveDays: int, totalExpenses: string, organizationId: Option<int>)

  // ---- rows joined with the users they refer to ----

  datatype TaskWithAssignee = TaskWithAssignee(task: Task, assignee: Option<User>, assigner: Option<User>)
  datatype AttendanceWithUser = AttendanceWithUser(record: Attendance, user: Option<User>)
  datatype LeaveWithUser = LeaveWithUser(leave: Leave, user: Option<User>, approvedBy: Option<User>)
  datatype ExpenseWithUser = ExpenseWithUser(expense: Expense, user: Option<User>, approvedBy: Option<User>)

  /** A number argument that JavaScript treats as true: present and not 0. */
  predicate Truthy(n: Option<int>) { n.Some? && n.value != 0 }

  // ---- ids ----

  function UserIdOf(u: User): int { u.id }
  function TaskIdOf(t: Task): int { t.id }
  function AttendanceIdOf(a: Attendance): int { a.id }
  function LeaveIdOf(l: Leave): int { l.id }
  function ExpenseIdOf(e: Expense): int { e.id }
  function SummaryIdOf(s: MonthlySummary): int { s.id }

  /** No two rows of the table share an id. */
  predicate UniqueIds<T>(xs: seq<T>, id: T -> int)
  {
    forall i, j :: 0 <= i < |xs| && 0 <= j < |xs| && i != j ==> id(xs[i]) != id(xs[j])
  }

  /** Every id was handed out by the serial counter, which now stands at `next`. */
  predicate IdsBelow<T>(xs: seq<T>, id: T -> int, next: int)
  {
    forall i :: 0 <= i < |xs| ==> 1 <= id(xs[i]) < next
  }

  predicate Keyed<T>(xs: seq<T>, id: T -> int, next: int)
  {
    UniqueIds(xs, id) && IdsBelow(xs, id, next)
  }

  /** `const [row] = select … where id = k`: the first row with id `k`. */
  function FirstById<T(!new)>(xs: seq<T>, id: T -> int, k: int): (r: Option<T>)
    ensures r.Some? ==> r.value in xs && id(r.value) == k
    ensures r.None? <==> forall i :: 0 <= i < |xs| ==> id(xs[i]) != k
  {
    var r := Seqs.Find(xs, x => id(x) == k);
    assert r.None? ==> forall i :: 0 <= i < |xs| ==> id(xs[i]) != k by {
      if r.None? {
        forall i | 0 <= i < |xs| ensures id(xs[i]) != k { assert xs[i] in xs; }
      }
    }
    r
  }

  /** In a table with unique ids, the row found by id is the only row with that id. */
  lemma FirstByIdIsTheRow<T(!new)>(xs: seq<T>, id: T -> int, i: int)
    requires UniqueIds(xs, id) && 0 <= i < |xs|
    ensures FirstById(xs, id, id(xs[i])) == Some(xs[i])
  {
    var r := FirstById(xs, id, id(xs[i]));
    var j :| 0 <= j < |xs| && xs[j] == r.value && forall m :: 0 <= m < j ==> id(xs[m]) != id(xs[i]);
    assert j == i;
  }

  /** The rows whose id is not `k` (a delete by id), in their order. */
  function WithoutId<T(!new)>(xs: seq<T>, id: T -> int, k: int): (r: seq<T>)
    ensures forall x :: x in r <==> x in xs && id(x) != k
    ensures Seqs.IsSubseq(r, xs)
  {
    if xs == [] then []
    else if id(xs[0]) != k then
      var rest := WithoutId(xs[1..], id, k);
      assert ([xs[0]] + rest)[1..] == rest;
      [xs[0]] + rest
    else WithoutId(xs[1..], id, k)
  }

  lemma KeyedTail<T>(xs: seq<T>, id: T -> int, next: int)
    requires Keyed(xs, id, next) && xs != []
    ensures Keyed(xs[1..], id, next)
    ensures forall y :: y in xs[1..] ==> id(y) != id(xs[0])
  {
    var rest := xs[1..];
    forall i, j | 0 <= i < |rest| && 0 <= j < |rest| && i != j ensures id(rest[i]) != id(rest[j]) {
      assert rest[i] == xs[i + 1] && rest[j] == xs[j + 1];
    }
    forall y | y in rest ensures id(y) != id(xs[0]) {
      var m :| 0 <= m < |rest| && rest[m] == y;
      assert y == xs[m + 1];
    }
  }

  lemma KeyedCons<T>(x: T, rest: seq<T>, id: T -> int, next: int)
    requires Keyed(rest, id, next) && 1 <= id(x) < next
    requires forall y :: y in rest ==> id(y) != id(x)
    ensures Keyed([x] + rest, id, next)
  {
    var r := [x] + rest;
    forall i, j | 0 <= i < |r| && 0 <= j < |r| && i != j ensures id(r[i]) != id(r[j]) {
      if i > 0 { assert r[i] == rest[i - 1]; }
      if j > 0 { assert r[j] == rest[j - 1]; }
    }
    forall i | 0 <= i < |r| ensures 1 <= id(r[i]) < next {
      if i > 0 { assert r[i] == rest[i - 1]; }
    }
  }

  /** A delete keeps the ids unique and within the counter. */
  lemma {:induction false} WithoutIdKeyed<T(!new)>(xs: seq<T>, id: T -> int, k: int, next: int)
    requires Keyed(xs, id, next)
    ensures Keyed(WithoutId(xs, id, k), id, next)
  {
    if xs != [] {
      KeyedTail(xs, id, next);
      WithoutIdKeyed(xs[1..], id, k, next);
      if id(xs[0]) != k {
        KeyedCons(xs[0], WithoutId(xs[1..], id, k), id, next);
      }
    }
  }

  /** An insert with the counter's id keeps the ids unique and advances the counter. */
  lemma AppendKeyed<T>(xs: seq<T>, x: T, id: T -> int, next: int)
    requires Keyed(xs, id, next) && id(x) == next && 1 <= next
    ensures Keyed(xs + [x], id, next + 1)
  {
  }

  // ---- selections (the `where` of the lookups) ----

  function TasksAssignedTo(ts: seq<Task>, userId: UserId): (r: seq<Task>)
    ensures forall t :: t in r <==> t in ts && t.assignedToId == userId
    ensures Seqs.IsSubseq(r, ts)
  {
    var p := (t: Task) => t.assignedToId == userId;
    Seqs.FilterIsSubseq(ts, p);
    Seqs.Filter(ts, p)
  }

  function TasksInOrganization(ts: seq<Task>, orgId: int): (r: seq<Task>)
    ensures forall t :: t in r <==> t in ts && t.organizationId == Some(orgId)
    ensures Seqs.IsSubseq(r, ts)
  {
    var p := (t: Task) => t.organizationId == Some(orgId);
    Seqs.FilterIsSubseq(ts, p);
    Seqs.Filter(ts, p)
  }

  function AttendanceOfUser(xs: seq<Attendance>, userId: UserId): (r: seq<Attendance>)
    ensures forall a :: a in r <==> a in xs && a.userId == userId
    ensures Seqs.IsSubseq(r, xs)
  {
    var p := (a: Attendance) => a.userId == userId;
    Seqs.FilterIsSubseq(xs, p);
    Seqs.Filter(xs, p)
  }

  function AttendanceInOrganization(xs: seq<Attendance>, orgId: int): (r: seq<Attendance>)
    ensures forall a :: a in r <==> a in xs && a.organizationId == Some(orgId)
    ensures Seqs.IsSubseq(r, xs)
  {
    var p := (a: Attendance) => a.organizationId == Some(orgId);
    Seqs.FilterIsSubseq(xs, p);
    Seqs.Filter(xs, p)
  }

  function LeavesOfUser(ls: seq<Leave>, userId: UserId): (r: seq<Leave>)
    ensures forall l :: l in r <==> l in ls && l.userId == userId
    ensures Seqs.IsSubseq(r, ls)
  {
    var p := (l: Leave) => l.userId == userId;
    Seqs.FilterIsSubseq(ls, p);
    Seqs.Filter(ls, p)
  }

  function LeavesInOrganization(ls: seq<Leave>, orgId: int): (r: seq<Leave>)
    ensures forall l :: l in r <==> l in ls && l.organizationId == Some(orgId)
    ensures Seqs.IsSubseq(r, ls)
  {
    var p := (l: Leave) => l.organizationId == Some(orgId);
    Seqs.FilterIsSubseq(ls, p);
    Seqs.Filter(ls, p)
  }

  function PendingLeaves(ls: seq<Leave>): (r: seq<Leave>)
    ensures forall l :: l in r <==> l in ls && l.status == "pending"
    ensures Seqs.IsSubseq(r, ls)
  {
    var p := (l: Leave) => l.status == "pending";
    Seqs.FilterIsSubseq(ls, p);
    Seqs.Filter(ls, p)
  }

  function ExpensesOfUser(es: seq<Expense>, userId: UserId): (r: seq<Expense>)
    ensures forall e :: e in r <==> e in es && e.userId == userId
    ensures Seqs.IsSubseq(r, es)
  {
    var p := (e: Expense) => e.userId == userId;
    Seqs.FilterIsSubseq(es, p);
    Seqs.Filter(es, p)
  }

  function ExpensesInOrganization(es: seq<Expense>, orgId: int): (r: seq<Expense>)
    ensures forall e :: e in r <==> e in es && e.organizationId == Some(orgId)
    ensures Seqs.IsSubseq(r, es)
  {
    var p := (e: Expense) => e.organizationId == Some(orgId);
    Seqs.FilterIsSubseq(es, p);
    Seqs.Filter(es, p)
  }

  function PendingExpenses(es: seq<Expense>): (r: seq<Expense>)
    ensures forall e :: e in r <==> e in es && e.status == "pending"
    ensures Seqs.IsSubseq(r, es)
  {
    var p := (e: Expense) => e.status == "pending";
    Seqs.FilterIsSubseq(es, p);
    Seqs.Filter(es, p)
  }

  function UsersInOrganization(us: seq<User>, orgId: int): (r: seq<User>)
    ensures forall u :: u in r <==> u in us && u.organizationId == Some(orgId)
    ensures Seqs.IsSubseq(r, us)
  {
    var p := (u: User) => u.organizationId == Some(orgId);
    Seqs.FilterIsSubseq(us, p);
    Seqs.Filter(us, p)
  }

  function SummariesOfUser(ss: seq<MonthlySummary>, userId: UserId): (r: seq<MonthlySummary>)
    ensures forall s :: s in r <==> s in ss && s.userId == userId
    ensures Seqs.IsSubseq(r, ss)
  {
    var p := (s: MonthlySummary) => s.userId == userId;
    Seqs.FilterIsSubseq(ss, p);
    Seqs.Filter(ss, p)
  }

  /** The summary of one user for one month of one year, if any. */
  function SummaryFor(ss: seq<MonthlySummary>, userId: UserId, month: int, year: int): (r: Option<MonthlySummary>)
    ensures r.Some? ==> r.value in ss && r.value.userId == userId && r.value.month == month && r.value.year == year
    ensures r.None? <==> forall s :: s in ss ==> !(s.userId == userId && s.month == month && s.year == year)
  {
    Seqs.Find(ss, (s: MonthlySummary) => s.userId == userId && s.month == month && s.year == year)
  }

  /** The first record of a user on the given day, if any. */
  function RecordOn(xs: seq<Attendance>, userId: UserId, day: string): (r: Option<Attendance>)
    ensures r.Some? ==> r.value in xs && r.value.userId == userId && r.value.date == day
    ensures r.None? <==> forall a :: a in xs ==> !(a.userId == userId && a.date == day)
  {
    Seqs.Find(xs, (a: Attendance) => a.userId == userId && a.date == day)
  }

  function UserByEmail(us: seq<User>, email: string): (r: Option<User>)
    ensures r.Some? ==> r.value in us && r.value.email == email
    ensures r.None? <==> forall u :: u in us ==> u.email != email
  {
    Seqs.Find(us, (u: User) => u.email == email)
  }

  /** The user with the id `id`, when there is one. */
  function UserById(us: seq<User>, id: int): (r: Option<User>)
    ensures r.Some? ==> r.value in us && r.value.id == id
    ensures r.None? <==> forall u :: u in us ==> u.id != id
  {
    assert forall u :: u in us ==> exists i :: 0 <= i < |us| && us[i] == u;
    FirstById(us, UserIdOf, id)
  }

  // ---- joins ----

  /** A task with its assignee and its assigner, each the user with that id if one exists. */
  function EnrichedTasks(us: seq<User>, ts: seq<Task>): (r: seq<TaskWithAssignee>)
    ensures |r| == |ts|
    ensures forall i :: 0 <= i < |ts| ==> r[i].task == ts[i]
    ensures forall i :: 0 <= i < |ts| ==> (r[i].assignee.Some? <==> exists u :: u in us && u.id == ts[i].assignedToId)
    ensures forall i :: 0 <= i < |ts| && r[i].assignee.Some? ==> r[i].assignee.value in us && r[i].assignee.value.id == ts[i].assignedToId
    ensures forall i :: 0 <= i < |ts| ==> (r[i].assigner.Some? <==> exists u :: u in us && u.id == ts[i].assignedById)
    ensures forall i :: 0 <= i < |ts| && r[i].assigner.Some? ==> r[i].assigner.value in us && r[i].assigner.value.id == ts[i].assignedById
  {
    seq(|ts|, i requires 0 <= i < |ts| =>
      TaskWithAssignee(ts[i], UserById(us, ts[i].assignedToId), UserById(us, ts[i].assignedById)))
  }

  function EnrichedAttendance(us: seq<User>, xs: seq<Attendance>): (r: seq<AttendanceWithUser>)
    ensures |r| == |xs|
    ensures forall i :: 0 <= i < |xs| ==> r[i].record == xs[i]
    ensures forall i :: 0 <= i < |xs| ==> (r[i].user.Some? <==> exists u :: u in us && u.id == xs[i].userId)
    ensures forall i :: 0 <= i < |xs| && r[i].user.Some? ==> r[i].user.value in us && r[i].user.value.id == xs[i].userId
  {
    seq(|xs|, i requires 0 <= i < |xs| => AttendanceWithUser(xs[i], UserById(us, xs[i].userId)))
  }

  /** The approver of a leave or expense is looked up only when its approver id is truthy. */
  function ApproverOf(us: seq<User>, approvedById: Option<UserId>): (r: Option<User>)
    ensures !Truthy(approvedById) ==> r.None?
    ensures Truthy(approvedById) ==> (r.Some? <==> exists u :: u in us && u.id == approvedById.value)
    ensures r.Some? ==> r.value in us && Some(r.value.id) == approvedById
  {
    if Truthy(approvedById) then UserById(us, approvedById.value) else None
  }

  function EnrichedLeaves(us: seq<User>, ls: seq<Leave>): (r: seq<LeaveWithUser>)
    ensures |r| == |ls|
    ensures forall i :: 0 <= i < |ls| ==> r[i].leave == ls[i] && r[i].approvedBy == ApproverOf(us, ls[i].approvedById)
    ensures forall i :: 0 <= i < |ls| ==> (r[i].user.Some? <==> exists u :: u in us && u.id == ls[i].userId)
    ensures forall i :: 0 <= i < |ls| && r[i].user.Some? ==> r[i].user.value in us && r[i].user.value.id == ls[i].userId
  {
    seq(|ls|, i requires 0 <= i < |ls| =>
      LeaveWithUser(ls[i], UserById(us, ls[i].userId), ApproverOf(us, ls[i].approvedById)))
  }

  function EnrichedExpenses(us: seq<User>, es: seq<Expense>): (r: seq<ExpenseWithUser>)
    ensures |r| == |es|
    ensures forall i :: 0 <= i < |es| ==> r[i].expense == es[i] && r[i].approvedBy == ApproverOf(us, es[i].approvedById)
    ensures forall i :: 0 <= i < |es| ==> (r[i].user.Some? <==> exists u :: u in us && u.id == es[i].userId)
    ensures forall i :: 0 <= i < |es| && r[i].user.Some? ==> r[i].user.value in us && r[i].user.value.id == es[i].userId
  {
    seq(|es|, i requires 0 <= i < |es| =>
      ExpenseWithUser(es[i], UserById(us, es[i].userId), ApproverOf(us, es[i].approvedById)))
  }

  // ---- row updates ----

  /** The status update of one leave: the status is set, and the approver and
      the approval time are stamped only when a truthy approver id is given. */
  function StampLeave(l: Leave, status: string, approvedById: Option<UserId>, now: Timestamp): (r: Leave)
    ensures r.status == status
    ensures Truthy(approvedById) ==> r.approvedById == approvedById && r.approvedAt == Some(now)
    ensures !Truthy(approvedById) ==> r.approvedById == l.approvedById && r.approvedAt == l.approvedAt
    ensures r.(status := l.status, approvedById := l.approvedById, approvedAt := l.approvedAt) == l
  {
    if Truthy(approvedById) then l.(status := status, approvedById := approvedById, approvedAt := Some(now))
    else l.(status := status)
  }

  /** `update leaves set … where id = k`: the rows with id `k` are stamped, all others kept. */
  function SetLeaveStatus(ls: seq<Leave>, k: int, status: string, approvedById: Option<UserId>, now: Timestamp): (r: seq<Leave>)
    ensures |r| == |ls|
    ensures forall i :: 0 <= i < |ls| ==> r[i].id == ls[i].id
    ensures forall i :: 0 <= i < |ls| && ls[i].id == k ==> r[i] == StampLeave(ls[i], status, approvedById, now)
    ensures forall i :: 0 <= i < |ls| && ls[i].id != k ==> r[i] == ls[i]
  {
    seq(|ls|, i requires 0 <= i < |ls| => if ls[i].id == k then StampLeave(ls[i], status, approvedById, now) else ls[i])
  }

  /** The status update of one expense, stamped as a leave is; the twin is
      kept because the two tables are distinct row types. The claim itself
      (amount, description, date, category and receipt) is never touched. */
  function StampExpense(e: Expense, status: string, approvedById: Option<UserId>, now: Timestamp): (r: Expense)
    ensures r.status == status
    ensures r.amount == e.amount && r.description == e.description && r.date == e.date
            && r.category == e.category && r.receiptUrl == e.receiptUrl
    ensures Truthy(approvedById) ==> r.approvedById == approvedById && r.approvedAt == Some(now)
    ensures !Truthy(approvedById) ==> r.approvedById == e.approvedById && r.approvedAt == e.approvedAt
    ensures r.(status := e.status, approvedById := e.approvedById, approvedAt := e.approvedAt) == e
  {
    if Truthy(approvedById) then e.(status := status, approvedById := approvedById, approvedAt := Some(now))
    else e.(status := status)
  }

  function SetExpenseStatus(es: seq<Expense>, k: int, status: string, approvedById: Option<UserId>, now: Timestamp): (r: seq<Expense>)
    ensures |r| == |es|
    ensures forall i :: 0 <= i < |es| ==> r[i].id == es[i].id
    ensures forall i :: 0 <= i < |es| && es[i].id == k ==> r[i] == StampExpense(es[i], status, approvedById, now)
    ensures forall i :: 0 <= i < |es| && es[i].id != k ==> r[i] == es[i]
  {
    seq(|es|, i requires 0 <= i < |es| => if es[i].id == k then StampExpense(es[i], status, approvedById, now) else es[i])
  }

  /** A leave decided to anything but "pending" drops out of the pending
      selection, and the update brings no new row into it. */
  lemma DecidedLeaveNotPending(ls: seq<Leave>, k: int, status: string, approvedById: Option<UserId>, now: Timestamp)
    requires status != "pending"
    ensures forall l :: l in PendingLeaves(SetLeaveStatus(ls, k, status, approvedById, now)) ==> l.id != k && l in PendingLeaves(ls)
  {
    var r := SetLeaveStatus(ls, k, status, approvedById, now);
    forall l | l in PendingLeaves(r) ensures l.id != k && l in PendingLeaves(ls) {
      var i :| 0 <= i < |r| && r[i] == l;
      assert ls[i].id != k;
    }
  }

  lemma DecidedExpenseNotPending(es: seq<Expense>, k: int, status: string, approvedById: Option<UserId>, now: Timestamp)
    requires status != "pending"
    ensures forall e :: e in PendingExpenses(SetExpenseStatus(es, k, status, approvedById, now)) ==> e.id != k && e in PendingExpenses(es)
  {
    var r := SetExpenseStatus(es, k, status, approvedById, now);
    forall e | e in PendingExpenses(r) ensures e.id != k && e in PendingExpenses(es) {
      var i :| 0 <= i < |r| && r[i] == e;
      assert es[i].id != k;
    }
  }

  /** A task update writes the given fields and a fresh update time; every
      other field keeps its value. */
  function ApplyTaskPatch(t: Task, p: TaskPatch, now: Timestamp): (r: Task)
    ensures r.id == t.id && r.createdAt == t.createdAt && r.updatedAt == Some(now)
    ensures p.title.Some? ==> r.title == p.title.value
    ensures p.title.None? ==> r.title == t.title
    ensures p.description.Some? ==> r.description == p.description
    ensures p.description.None? ==> r.description == t.description
    ensures p.assignedToId.Some? ==> r.assignedToId == p.assignedToId.value
    ensures p.assignedToId.None? ==> r.assignedToId == t.assignedToId
    ensures p.assignedById.Some? ==> r.assignedById == p.assignedById.value
    ensures p.assignedById.None? ==> r.assignedById == t.assignedById
    ensures p.organizationId.Some? ==> r.organizationId == p.organizationId
    ensures p.organizationId.None? ==> r.organizationId == t.organizationId
    ensures p.status.Some? ==> r.status == p.status.value
    ensures p.status.None? ==> r.status == t.status
    ensures p.priority.Some? ==> r.priority == p.priority.value
    ensures p.priority.None? ==> r.priority == t.priority
    ensures p.dueDate.Some? ==> r.dueDate == p.dueDate
    ensures p.dueDate.None? ==> r.dueDate == t.dueDate
    ensures p.completionLevel.Some? ==> r.completionLevel == p.completionLevel.value
    ensures p.completionLevel.None? ==> r.completionLevel == t.completionLevel
  {
    Task(t.id, p.title.GetOr(t.title),
         if p.description.Some? then p.description else t.description,
         p.assignedToId.GetOr(t.assignedToId), p.assignedById.GetOr(t.assignedById),
         if p.organizationId.Some? then p.organizationId else t.organizationId,
         p.status.GetOr(t.status), p.priority.GetOr(t.priority),
         if p.dueDate.Some? then p.dueDate else t.dueDate,
         p.completionLevel.GetOr(t.completionLevel), t.createdAt, Some(now))
  }

  function PatchTasks(ts: seq<Task>, k: int, p: TaskPatch, now: Timestamp): (r: seq<Task>)
    ensures |r| == |ts|
    ensures forall i :: 0 <= i < |ts| ==> r[i].id == ts[i].id
    ensures forall i :: 0 <= i < |ts| && ts[i].id == k ==> r[i] == ApplyTaskPatch(ts[i], p, now)
    ensures forall i :: 0 <= i < |ts| && ts[i].id != k ==> r[i] == ts[i]
  {
    seq(|ts|, i requires 0 <= i < |ts| => if ts[i].id == k then ApplyTaskPatch(ts[i], p, now) else ts[i])
  }

  /** An update with a well-typed status and priority keeps a well-typed task well-typed. */
  lemma PatchKeepsTaskWellTyped(t: Task, b: TaskBody, now: Timestamp)
    requires TaskWellTyped(t) && ParseTaskPatch(b).Ok?
    ensures TaskWellTyped(ApplyTaskPatch(t, ParseTaskPatch(b).value, now))
  {
  }

  /** A patch that gives no field. */
  predicate SetsNothing(p: UserPatch)
  {
    p.email.None? && p.password.None? && p.firstName.None? && p.lastName.None? && p.role.None?
    && p.department.None? && p.title.None? && p.organizationId.None? && p.isActive.None?
  }

  /** The password of a user update is hashed only when it is a non-empty string. */
  function HashPatchPassword(p: UserPatch, hash: string -> string): (r: UserPatch)
    ensures p.password.Some? && p.password.value != "" ==> r.password == Some(hash(p.password.value))
    ensures !(p.password.Some? && p.password.value != "") ==> r.password == p.password
    ensures r.(password := p.password) == p
  {
    if p.password.Some? && p.password.value != "" then p.(password := Some(hash(p.password.value))) else p
  }

  function ApplyUserPatch(u: User, p: UserPatch): (r: User)
    ensures r.id == u.id
    ensures p.password.Some? ==> r.password == p.password.value
    ensures p.password.None? ==> r.password == u.password
    ensures p.email.Some? ==> r.email == p.email.value
    ensures p.email.None? ==> r.email == u.email
    ensures p.firstName.Some? ==> r.firstName == p.firstName.value
    ensures p.firstName.None? ==> r.firstName == u.firstName
    ensures p.lastName.Some? ==> r.lastName == p.lastName.value
    ensures p.lastName.None? ==> r.lastName == u.lastName
    ensures p.department.Some? ==> r.department == p.department
    ensures p.department.None? ==> r.department == u.department
    ensures p.title.Some? ==> r.title == p.title
    ensures p.title.None? ==> r.title == u.title
    ensures p.role.Some? ==> r.role == p.role.value
    ensures p.role.None? ==> r.role == u.role
    ensures p.organizationId.Some? ==> r.organizationId == p.organizationId
    ensures p.organizationId.None? ==> r.organizationId == u.organizationId
    ensures p.isActive.Some? ==> r.isActive == p.isActive.value
    ensures p.isActive.None? ==> r.isActive == u.isActive
  {
    User(u.id, p.email.GetOr(u.email), p.password.GetOr(u.password),
         p.firstName.GetOr(u.firstName), p.lastName.GetOr(u.lastName), p.role.GetOr(u.role),
         if p.department.Some? then p.department else u.department,
         if p.title.Some? then p.title else u.title,
         if p.organizationId.Some? then p.organizationId else u.organizationId,
         p.isActive.GetOr(u.isActive))
  }

  function PatchUsers(us: seq<User>, k: int, p: UserPatch): (r: seq<User>)
    ensures |r| == |us|
    ensures forall i :: 0 <= i < |us| ==> r[i].id == us[i].id
    ensures forall i :: 0 <= i < |us| && us[i].id == k ==> r[i] == ApplyUserPatch(us[i], p)
    ensures forall i :: 0 <= i < |us| && us[i].id != k ==> r[i] == us[i]
  {
    seq(|us|, i requires 0 <= i < |us| => if us[i].id == k then ApplyUserPatch(us[i], p) else us[i])
  }

  /** The stored password after an update: the hash of a new non-empty
      password, the empty string as given, or the old value. */
  lemma UpdatedPassword(u: User, p: UserPatch, hash: string -> string)
    ensures var r := ApplyUserPatch(u, HashPatchPassword(p, hash));
            && (p.password.None? ==> r.password == u.password)
            && (p.password == Some("") ==> r.password == "")
            && (p.password.Some? && p.password.value != "" ==> r.password == hash(p.password.value))
  {
  }

  /** The whole state of the store, for stating what an operation leaves unchanged. */
  datatype Tables = Tables(
    users: seq<User>, tasks: seq<Task>, attendance: seq<Attendance>, leaves: seq<Leave>,
    expenses: seq<Expense>, summaries: seq<MonthlySummary>,
    nextUserId: int, nextTaskId: int, nextAttendanceId: int, nextLeaveId: int,
    nextExpenseId: int, nextSummaryId: int)

  class DatabaseStorage {
    var users: seq<User>
    var tasks: seq<Task>
    var attendance: seq<Attendance>
    var leaves: seq<Leave>
    var expenses: seq<Expense>
    var summaries: seq<MonthlySummary>
    var nextUserId: int
    var nextTaskId: int
    var nextAttendanceId: int
    var nextLeaveId: int
    var nextExpenseId: int
    var nextSummaryId: int

    /** Each table's ids are unique and were handed out by its counter. */
    ghost predicate Valid()
      reads this
    {
      Keyed(users, UserIdOf, nextUserId) && Keyed(tasks, TaskIdOf, nextTaskId)
      && Keyed(attendance, AttendanceIdOf, nextAttendanceId) && Keyed(leaves, LeaveIdOf, nextLeaveId)
      && Keyed(expenses, ExpenseIdOf, nextExpenseId) && Keyed(summaries, SummaryIdOf, nextSummaryId)
      && nextUserId >= 1 && nextTaskId >= 1 && nextAttendanceId >= 1 && nextLeaveId >= 1
      && nextExpenseId >= 1 && nextSummaryId >= 1
    }

    ghost function State(): Tables
      reads this
    {
      Tables(users, tasks, attendance, leaves, expenses, summaries,
             nextUserId, nextTaskId, nextAttendanceId, nextLeaveId, nextExpenseId, nextSummaryId)
    }

    constructor ()
      ensures Valid()
      ensures State() == Tables([], [], [], [], [], [], 1, 1, 1, 1, 1, 1)
    {
      users, tasks, attendance, leaves, expenses, summaries := [], [], [], [], [], [];
      nextUserId, nextTaskId, nextAttendanceId, nextLeaveId, nextExpenseId, nextSummaryId := 1, 1, 1, 1, 1, 1;
    }

    // ---- users ----

    method GetUserByEmail(email: string) returns (r: Option<User>)
      ensures r == UserByEmail(users, email)
    {
      r := UserByEmail(users, email);
    }

    method GetUser(id: int) returns (r: Option<User>)
      requires Valid()
      ensures r.Some? ==> r.value in users && r.value.id == id
      ensures r.None? <==> forall u :: u in users ==> u.id != id
      ensures forall i :: 0 <= i < |users| && users[i].id == id ==> r == Some(users[i])
    {
      r := UserById(users, id);
      forall i | 0 <= i < |users| && users[i].id == id ensures r == Some(users[i]) {
        FirstByIdIsTheRow(users, UserIdOf, i);
      }
    }

    /** Inserts a user whose stored password is the hash of the given one. */
    method CreateUser(ins: InsertUser, hash: string -> string) returns (u: User)
      requires Valid()
      modifies this
      ensures Valid()
      ensures u.id == old(nextUserId) && u.password == hash(ins.password)
      ensures u == User(u.id, ins.email, hash(ins.password), ins.firstName, ins.lastName, ins.role,
                        ins.department, ins.title, ins.organizationId, ins.isActive)
      ensures State() == old(State()).(users := old(users) + [u], nextUserId := old(nextUserId) + 1)
    {
      var hashed := hash(ins.password);
      u := User(nextUserId, ins.email, hashed, ins.firstName, ins.lastName, ins.role,
                ins.department, ins.title, ins.organizationId, ins.isActive);
      AppendKeyed(users, u, UserIdOf, nextUserId);
      users := users + [u];
      nextUserId := nextUserId + 1;
    }

    /** Writes the given fields of user `id`, with a non-empty new password hashed first. */
    /** Unlike the task update, nothing is added to the patch, so a patch
        with no field given leaves the update with no value to set; the
        query builder refuses that by throwing, which the result's `Err`
        stands for, and no row is touched. */
    method UpdateUser(id: int, updates: UserPatch, hash: string -> string) returns (r: Result<Option<User>, ()>)
      requires Valid()
      modifies this
      ensures Valid()
      ensures SetsNothing(updates) ==> r == Err(()) && State() == old(State())
      ensures !SetsNothing(updates) ==> r.Ok? && users == PatchUsers(old(users), id, HashPatchPassword(updates, hash))
      ensures State() == old(State()).(users := users)
      ensures r.Ok? ==> (r.value.Some? <==> exists i :: 0 <= i < |old(users)| && old(users)[i].id == id)
      ensures r.Ok? ==> forall i :: 0 <= i < |old(users)| && old(users)[i].id == id ==>
                r.value == Some(ApplyUserPatch(old(users)[i], HashPatchPassword(updates, hash)))
    {
      if SetsNothing(updates) {
        return Err(());
      }
      var p := HashPatchPassword(updates, hash);
      ghost var before := users;
      users := PatchUsers(users, id, p);
      var updated := FirstById(users, UserIdOf, id);
      forall i | 0 <= i < |before| && before[i].id == id
        ensures updated == Some(ApplyUserPatch(before[i], p))
      {
        FirstByIdIsTheRow(users, UserIdOf, i);
      }
      r := Ok(updated);
    }

    method DeleteUser(id: int)
      requires Valid()
      modifies this
      ensures Valid()
      ensures users == WithoutId(old(users), UserIdOf, id)
      ensures State() == old(State()).(users := users)
    {
      WithoutIdKeyed(users, UserIdOf, id, nextUserId);
      users := WithoutId(users, UserIdOf, id);
    }

    method GetUsersByOrganization(orgId: int) returns (r: seq<User>)
      ensures r == UsersInOrganization(users, orgId)
    {
      r := UsersInOrganization(users, orgId);
    }

    // ---- tasks ----

    /** Joins each task with its assignee and its assigner, one task at a time. */
    method EnrichTasks(list: seq<Task>) returns (r: seq<TaskWithAssignee>)
      ensures r == EnrichedTasks(users, list)
    {
      r := [];
      for k := 0 to |list|
        invariant |r| == k
        invariant forall i :: 0 <= i < k ==> r[i] == TaskWithAssignee(list[i], UserById(users, list[i].assignedToId), UserById(users, list[i].assignedById))
      {
        var assignee := UserById(users, list[k].assignedToId);
        var assigner := UserById(users, list[k].assignedById);
        r := r + [TaskWithAssignee(list[k], assignee, assigner)];
      }
    }

    method GetTasks() returns (r: seq<TaskWithAssignee>)
      ensures r == EnrichedTasks(users, tasks)
    {
      r := EnrichTasks(tasks);
    }

    method GetTasksByUserId(userId: UserId) returns (r: seq<TaskWithAssignee>)
      ensures r == EnrichedTasks(users, TasksAssignedTo(tasks, userId))
    {
      r := EnrichTasks(TasksAssignedTo(tasks, userId));
    }

    method GetTasksByOrganization(orgId: int) returns (r: seq<TaskWithAssignee>)
      ensures r == EnrichedTasks(users, TasksInOrganization(tasks, orgId))
    {
      r := EnrichTasks(TasksInOrganization(tasks, orgId));
    }

    method GetTask(id: int) returns (r: Option<TaskWithAssignee>)
      requires Valid()
      ensures r.None? <==> forall i :: 0 <= i < |tasks| ==> tasks[i].id != id
      ensures forall i :: 0 <= i < |tasks| && tasks[i].id == id ==> r == Some(EnrichedTasks(users, [tasks[i]])[0])
    {
      var found := FirstById(tasks, TaskIdOf, id);
      if found.None? {
        return None;
      }
      var enriched := EnrichTasks([found.value]);
      r := Some(enriched[0]);
      forall i | 0 <= i < |tasks| && tasks[i].id == id ensures r == Some(EnrichedTasks(users, [tasks[i]])[0]) {
        FirstByIdIsTheRow(tasks, TaskIdOf, i);
      }
    }

    method CreateTask(ins: InsertTask, now: Timestamp) returns (t: Task)
      requires Valid()
      modifies this
      ensures Valid()
      ensures t == NewTask(old(nextTaskId), ins, now)
      ensures State() == old(State()).(tasks := old(tasks) + [t], nextTaskId := old(nextTaskId) + 1)
    {
      t := NewTask(nextTaskId, ins, now);
      AppendKeyed(tasks, t, TaskIdOf, nextTaskId);
      tasks := tasks + [t];
      nextTaskId := nextTaskId + 1;
    }

    /** Writes the given fields of task `id` and stamps its update time. */
    method UpdateTask(id: int, updates: TaskPatch, now: Timestamp) returns (updated: Option<Task>)
      requires Valid()
      modifies this
      ensures Valid()
      ensures tasks == PatchTasks(old(tasks), id, updates, now)
      ensures State() == old(State()).(tasks := tasks)
      ensures updated.Some? <==> exists i :: 0 <= i < |old(tasks)| && old(tasks)[i].id == id
      ensures forall i :: 0 <= i < |old(tasks)| && old(tasks)[i].id == id ==> updated == Some(ApplyTaskPatch(old(tasks)[i], updates, now))
    {
      ghost var before := tasks;
      tasks := PatchTasks(tasks, id, updates, now);
      updated := FirstById(tasks, TaskIdOf, id);
      forall i | 0 <= i < |before| && before[i].id == id ensures updated == Some(ApplyTaskPatch(before[i], updates, now)) {
        FirstByIdIsTheRow(tasks, TaskIdOf, i);
      }
    }

    method DeleteTask(id: int)
      requires Valid()
      modifies this
      ensures Valid()
      ensures tasks == WithoutId(old(tasks), TaskIdOf, id)
      ensures State() == old(State()).(tasks := tasks)
    {
      WithoutIdKeyed(tasks, TaskIdOf, id, nextTaskId);
      tasks := WithoutId(tasks, TaskIdOf, id);
    }

    // ---- attendance ----

    method EnrichAttendance(list: seq<Attendance>) returns (r: seq<AttendanceWithUser>)
      ensures r == EnrichedAttendance(users, list)
    {
      r := [];
      for k := 0 to |list|
        invariant |r| == k
        invariant forall i :: 0 <= i < k ==> r[i] == AttendanceWithUser(list[i], UserById(users, list[i].userId))
      {
        var user := UserById(users, list[k].userId);
        r := r + [AttendanceWithUser(list[k], user)];
      }
    }

    method GetAttendance() returns (r: seq<AttendanceWithUser>)
      ensures r == EnrichedAttendance(users, attendance)
    {
      r := EnrichAttendance(attendance);
    }

    method GetAttendanceByUserId(userId: UserId) returns (r: seq<Attendance>)
      ensures r == AttendanceOfUser(attendance, userId)
    {
      r := AttendanceOfUser(attendance, userId);
    }

    method GetAttendanceByOrganization(orgId: int) returns (r: seq<AttendanceWithUser>)
      ensures r == EnrichedAttendance(users, AttendanceInOrganization(attendance, orgId))
    {
      r := EnrichAttendance(AttendanceInOrganization(attendance, orgId));
    }

    method CreateAttendance(ins: InsertAttendance) returns (a: Attendance)
      requires Valid()
      modifies this
      ensures Valid()
      ensures a == NewAttendance(old(nextAttendanceId), ins)
      ensures State() == old(State()).(attendance := old(attendance) + [a], nextAttendanceId := old(nextAttendanceId) + 1)
    {
      a := NewAttendance(nextAttendanceId, ins);
      AppendKeyed(attendance, a, AttendanceIdOf, nextAttendanceId);
      attendance := attendance + [a];
      nextAttendanceId := nextAttendanceId + 1;
    }

    /** The record of a user for `today`, the current UTC date as "YYYY-MM-DD". */
    method GetTodayAttendance(userId: UserId, today: string) returns (r: Option<Attendance>)
      ensures r == RecordOn(attendance, userId, today)
    {
      r := RecordOn(attendance, userId, today);
    }

    // ---- leaves ----

    /** Joins each leave with its user and, when its approver id is truthy, its approver. */
    method EnrichLeaves(list: seq<Leave>) returns (r: seq<LeaveWithUser>)
      ensures r == EnrichedLeaves(users, list)
    {
      r := [];
      for k := 0 to |list|
        invariant |r| == k
        invariant forall i :: 0 <= i < k ==> r[i] == LeaveWithUser(list[i], UserById(users, list[i].userId), ApproverOf(users, list[i].approvedById))
      {
        var user := UserById(users, list[k].userId);
        var approvedBy: Option<User> := None;
        if Truthy(list[k].approvedById) {
          approvedBy := UserById(users, list[k].approvedById.value);
        }
        r := r + [LeaveWithUser(list[k], user, approvedBy)];
      }
    }

    method GetLeaves() returns (r: seq<LeaveWithUser>)
      ensures r == EnrichedLeaves(users, leaves)
    {
      r := EnrichLeaves(leaves);
    }

    method GetLeavesByUserId(userId: UserId) returns (r: seq<Leave>)
      ensures r == LeavesOfUser(leaves, userId)
    {
      r := LeavesOfUser(leaves, userId);
    }

    method GetLeavesByOrganization(orgId: int) returns (r: seq<LeaveWithUser>)
      ensures r == EnrichedLeaves(users, LeavesInOrganization(leaves, orgId))
    {
      r := EnrichLeaves(LeavesInOrganization(leaves, orgId));
    }

    method CreateLeave(ins: InsertLeave, now: Timestamp) returns (l: Leave)
      requires Valid()
      modifies this
      ensures Valid()
      ensures l == NewLeave(old(nextLeaveId), ins, now)
      ensures State() == old(State()).(leaves := old(leaves) + [l], nextLeaveId := old(nextLeaveId) + 1)
    {
      l := NewLeave(nextLeaveId, ins, now);
      AppendKeyed(leaves, l, LeaveIdOf, nextLeaveId);
      leaves := leaves + [l];
      nextLeaveId := nextLeaveId + 1;
    }

    /** Sets the status of leave `id`; the approver is recorded only when a truthy id is given. */
    method UpdateLeaveStatus(id: int, status: string, approvedById: Option<UserId>, now: Timestamp) returns (updated: Option<Leave>)
      requires Valid()
      modifies this
      ensures Valid()
      ensures leaves == SetLeaveStatus(old(leaves), id, status, approvedById, now)
      ensures State() == old(State()).(leaves := leaves)
      ensures updated.Some? <==> exists i :: 0 <= i < |old(leaves)| && old(leaves)[i].id == id
      ensures forall i :: 0 <= i < |old(leaves)| && old(leaves)[i].id == id ==>
                updated == Some(StampLeave(old(leaves)[i], status, approvedById, now))
    {
      ghost var before := leaves;
      leaves := SetLeaveStatus(leaves, id, status, approvedById, now);
      updated := FirstById(leaves, LeaveIdOf, id);
      forall i | 0 <= i < |before| && before[i].id == id
        ensures updated == Some(StampLeave(before[i], status, approvedById, now))
      {
        FirstByIdIsTheRow(leaves, LeaveIdOf, i);
      }
    }

    method GetPendingLeaves() returns (r: seq<LeaveWithUser>)
      ensures r == EnrichedLeaves(users, PendingLeaves(leaves))
    {
      r := EnrichLeaves(PendingLeaves(leaves));
    }

    // ---- expenses ----

    method EnrichExpenses(list: seq<Expense>) returns (r: seq<ExpenseWithUser>)
      ensures r == EnrichedExpenses(users, list)
    {
      r := [];
      for k := 0 to |list|
        invariant |r| == k
        invariant forall i :: 0 <= i < k ==> r[i] == ExpenseWithUser(list[i], UserById(users, list[i].userId), ApproverOf(users, list[i].approvedById))
      {
        var user := UserById(users, list[k].userId);
        var approvedBy: Option<User> := None;
        if Truthy(list[k].approvedById) {
          approvedBy := UserById(users, list[k].approvedById.value);
        }
        r := r + [ExpenseWithUser(list[k], user, approvedBy)];
      }
    }

    method GetExpenses() returns (r: seq<ExpenseWithUser>)
      ensures r == EnrichedExpenses(users, expenses)
    {
      r := EnrichExpenses(expenses);
    }

    method GetExpensesByUserId(userId: UserId) returns (r: seq<Expense>)
      ensures r == ExpensesOfUser(expenses, userId)
    {
      r := ExpensesOfUser(expenses, userId);
    }

    method GetExpensesByOrganization(orgId: int) returns (r: seq<ExpenseWithUser>)
      ensures r == EnrichedExpenses(users, ExpensesInOrganization(expenses, orgId))
    {
      r := EnrichExpenses(ExpensesInOrganization(expenses, orgId));
    }

    method CreateExpense(ins: InsertExpense, now: Timestamp) returns (e: Expense)
      requires Valid()
      modifies this
      ensures Valid()
      ensures e == NewExpense(old(nextExpenseId), ins, now)
      ensures State() == old(State()).(expenses := old(expenses) + [e], nextExpenseId := old(nextExpenseId) + 1)
    {
      e := NewExpense(nextExpenseId, ins, now);
      AppendKeyed(expenses, e, ExpenseIdOf, nextExpenseId);
      expenses := expenses + [e];
      nextExpenseId := nextExpenseId + 1;
    }

    method UpdateExpenseStatus(id: int, status: string, approvedById: Option<UserId>, now: Timestamp) returns (updated: Option<Expense>)
      requires Valid()
      modifies this
      ensures Valid()
      ensures expenses == SetExpenseStatus(old(expenses), id, status, approvedById, now)
      ensures State() == old(State()).(expenses := expenses)
      ensures updated.Some? <==> exists i :: 0 <= i < |old(expenses)| && old(expenses)[i].id == id
      ensures forall i :: 0 <= i < |old(expenses)| && old(expenses)[i].id == id ==>
                updated == Some(StampExpense(old(expenses)[i], status, approvedById, now))
    {
      ghost var before := expenses;
      expenses := SetExpenseStatus(expenses, id, status, approvedById, now);
      updated := FirstById(expenses, ExpenseIdOf, id);
      forall i | 0 <= i < |before| && before[i].id == id
        ensures updated == Some(StampExpense(before[i], status, approvedById, now))
      {
        FirstByIdIsTheRow(expenses, ExpenseIdOf, i);
      }
    }

    method GetPendingExpenses() returns (r: seq<ExpenseWithUser>)
      ensures r == EnrichedExpenses(users, PendingExpenses(expenses))
    {
      r := EnrichExpenses(PendingExpenses(expenses));
    }

    // ---- monthly summaries ----

    method GetMonthlySummaries() returns (r: seq<MonthlySummary>)
      ensures r == summaries
    {
      r := summaries;
    }

    method GetMonthlySummariesByUser(userId: UserId) returns (r: seq<MonthlySummary>)
      ensures r == SummariesOfUser(summaries, userId)
    {
      r := SummariesOfUser(summaries, userId);
    }

    method GetMonthlySummary(userId: UserId, month: int, year: int) returns (r: Option<MonthlySummary>)
      ensures r == SummaryFor(summaries, userId, month, year)
    {
      r := SummaryFor(summaries, userId, month, year);
    }

    method CreateMonthlySummary(ins: InsertSummary) returns (s: MonthlySummary)
      requires Valid()
      modifies this
      ensures Valid()
      ensures s.id == old(nextSummaryId) && s.userId == ins.userId && s.month == ins.month && s.year == ins.year
      ensures s.totalTasks == ins.totalTasks && s.completedTasks == ins.completedTasks
      ensures s.inProgressTasks == ins.inProgressTasks && s.pendingTasks == ins.pendingTasks
      ensures s.attendanceDays == ins.attendanceDays && s.leaveDays == ins.leaveDays
      ensures s.totalExpenses == ins.totalExpenses && s.organizationId == ins.organizationId
      ensures State() == old(State()).(summaries := old(summaries) + [s], nextSummaryId := old(nextSummaryId) + 1)
    {
      s := MonthlySummary(nextSummaryId, ins.userId, ins.month, ins.year, ins.totalTasks, ins.completedTasks,
                          ins.inProgressTasks, ins.pendingTasks, ins.attendanceDays, ins.leaveDays,
                          ins.totalExpenses, ins.organizationId);
      AppendKeyed(summaries, s, SummaryIdOf, nextSummaryId);
      summaries := summaries + [s];
      nextSummaryId := nextSummaryId + 1;
    }
  }
}

/** The HTTP handlers: authentication, the role bootstrap that gives every
    signed-in user a role row (the very first one becomes admin), the
    role-scoped list handlers, and the create, update, delete and status
    handlers with the status codes they answer. */
module Server {
  import opened Wrappers
  import opened Schema
  import opened Storage
  import opened Api
  import Seqs

  const Unauthorized: string := "Unauthorized"
  const InternalError: string := "Internal Server Error"
  const TaskNotFound: string := "Task not found"

  /** An HTTP answer: a JSON value, an error with a message, or 204 with no
      body; `Unanswered` when the handler throws outside any `try`, so its
      promise rejects without a reply of its own. */
  datatype Reply<T> = Json(status: int, value: T) | Failure(status: int, message: string) | NoContent | Unanswered

  /** A failed validation answers 400 with the first issue's message. */
  function ValidationFailure<T>(issues: seq<Issue>): (r: Reply<T>)
    requires issues != []
    ensures r.Failure? && r.status == 400 && r.message == issues[0].message
  {
    Failure(400, issues[0].message)
  }

  // ---- roles ----

  /** A signed-in user as the handlers see it: the account (if the auth
      store has one) overlaid with the role row's role, department and title. */
  datatype EnrichedUser = EnrichedUser(user: Option<User>, role: string, department: Option<string>, title: Option<string>)

  /** The roles that see every row. */
  predicate SeesAll(role: string) { role == "admin" || role == "proprietor" }

  /** The role row written for a user who has none. */
  function BootstrapInsert(userId: UserId, isFirstUser: bool): InsertUserRole
  {
    InsertUserRole(userId, Some(if isFirstUser then "admin" else "staff"), Some("General"),
                   Some(if isFirstUser then "Administrator" else "Staff Member"))
  }

  /** The role table after `userId` signs in: an existing row is kept as
      it is; a missing one is added under the next serial id, admin when
      the table was empty and staff otherwise, in the department "General". */
  function SignIn(rows: map<UserId, RoleRow>, userId: UserId): (r: map<UserId, RoleRow>)
    ensures userId in r && r.Keys == rows.Keys + {userId}
    ensures userId in rows ==> r == rows
    ensures userId !in rows && |rows| == 0 ==> r[userId] == RoleRow(1, "admin", Some("General"), Some("Administrator"))
    ensures userId !in rows && |rows| > 0 ==> r[userId] == RoleRow(|rows| + 1, "staff", Some("General"), Some("Staff Member"))
    ensures forall k :: k in rows ==> r[k] == rows[k]
  {
    if userId in rows then rows else rows[userId := NewRoleRow(|rows| + 1, BootstrapInsert(userId, |rows| == 0))]
  }

  /** `role?.role || "staff"`. */
  function EffectiveRole(row: RoleRow): (r: string)
    ensures r != ""
    ensures row.role != "" ==> r == row.role
    ensures row.role == "" ==> r == "staff"
  {
    if row.role == "" then "staff" else row.role
  }

  function Enriched(user: Option<User>, row: RoleRow): (e: EnrichedUser)
    ensures e.user == user && e.role == EffectiveRole(row) && e.role != ""
    ensures e.department == row.department && e.title == row.title
  {
    EnrichedUser(user, EffectiveRole(row), row.department, row.title)
  }

  /** `b` keeps every row of `a`. */
  predicate Extends(a: map<UserId, RoleRow>, b: map<UserId, RoleRow>)
  {
    forall k :: k in a ==> k in b && b[k] == a[k]
  }

  /** The role table after a sequence of sign-ins. */
  function SignIns(rows: map<UserId, RoleRow>, us: seq<UserId>): map<UserId, RoleRow>
    decreases |us|
  {
    if us == [] then rows else SignIns(SignIn(rows, us[0]), us[1..])
  }

  /** Sign-ins never change or drop a row that is already there. */
  lemma {:induction false} SignInsExtend(rows: map<UserId, RoleRow>, us: seq<UserId>)
    decreases |us|
    ensures Extends(rows, SignIns(rows, us))
  {
    if us != [] {
      SignInsExtend(SignIn(rows, us[0]), us[1..]);
    }
  }

  /** Once the table holds a row, sign-ins keep every row and add only staff rows, one per new user. */
  lemma {:induction false} LaterSignInsAreStaff(rows: map<UserId, RoleRow>, us: seq<UserId>)
    requires |rows| > 0
    decreases |us|
    ensures Extends(rows, SignIns(rows, us))
    ensures SignIns(rows, us).Keys == rows.Keys + (set u | u in us)
    ensures forall k :: k in SignIns(rows, us) && k !in rows ==> SignIns(rows, us)[k].role == "staff"
  {
    if us != [] {
      var next := SignIn(rows, us[0]);
      assert |next| > 0 by { assert us[0] in next; }
      LaterSignInsAreStaff(next, us[1..]);
      assert (set u | u in us) == {us[0]} + (set u | u in us[1..]);
    }
  }

  /** Starting from an empty table, the first user to sign in is the only admin the bootstrap creates. */
  lemma FirstSignInIsAdmin(us: seq<UserId>)
    requires us != []
    ensures us[0] in SignIns(map[], us) && SignIns(map[], us)[us[0]].role == "admin"
    ensures forall k :: k in SignIns(map[], us) && k != us[0] ==> SignIns(map[], us)[k].role == "staff"
    ensures SignIns(map[], us).Keys == set u | u in us
  {
    var first := SignIn(map[], us[0]);
    assert first.Keys == {us[0]};
    LaterSignInsAreStaff(first, us[1..]);
    assert (set u | u in us) == {us[0]} + (set u | u in us[1..]);
  }

  /** The role table, one row per user id. */
  class UserRoles {
    var rows: map<UserId, RoleRow>

    constructor ()
      ensures rows == map[]
    {
      rows := map[];
    }

    method GetUserRole(userId: UserId) returns (r: Option<RoleRow>)
      ensures r.Some? <==> userId in rows
      ensures r.Some? ==> r.value == rows[userId]
    {
      if userId in rows { r := Some(rows[userId]); } else { r := None; }
    }

    method CountUserRoles() returns (n: nat)
      ensures n == |rows|
    {
      n := |rows|;
    }

    /** Inserts a role row under the next serial id; a second row for the
        same user violates the unique user id. */
    method AssignUserRole(ins: InsertUserRole) returns (r: Result<RoleRow, string>)
      modifies this
      ensures ins.userId in old(rows) ==> r.Err? && rows == old(rows)
      ensures ins.userId !in old(rows) ==>
                r == Ok(NewRoleRow(|old(rows)| + 1, ins)) && rows == old(rows)[ins.userId := r.value]
    {
      if ins.userId in rows {
        r := Err("duplicate key value violates unique constraint");
      } else {
        var row := NewRoleRow(|rows| + 1, ins);
        rows := rows[ins.userId := row];
        r := Ok(row);
      }
    }
  }

  /** Looks up the caller's role row, writing the bootstrap row first when there is none. */
  method GetEnrichedUser(roles: UserRoles, userId: UserId, user: Option<User>) returns (e: EnrichedUser)
    modifies roles
    ensures roles.rows == SignIn(old(roles.rows), userId)
    ensures e == Enriched(user, roles.rows[userId])
  {
    var role := roles.GetUserRole(userId);
    if role.None? {
      var count := roles.CountUserRoles();
      var isFirstUser := count == 0;
      var inserted := roles.AssignUserRole(BootstrapInsert(userId, isFirstUser));
      role := Some(inserted.value);
    }
    e := Enriched(user, role.value);
  }

  // ---- role-scoped selections ----

  /** The tasks a list request returns: all of them for admin and
      proprietor, otherwise those assigned to the caller. */
  function VisibleTasks(role: string, caller: UserId, ts: seq<Task>): (r: seq<Task>)
    ensures forall t :: t in r <==> t in ts && (SeesAll(role) || t.assignedToId == caller)
    ensures SeesAll(role) ==> r == ts
  {
    if SeesAll(role) then ts else TasksAssignedTo(ts, caller)
  }

  function VisibleLeaves(role: string, caller: UserId, ls: seq<Leave>): (r: seq<Leave>)
    ensures forall l :: l in r <==> l in ls && (SeesAll(role) || l.userId == caller)
    ensures SeesAll(role) ==> r == ls
  {
    if SeesAll(role) then ls else LeavesOfUser(ls, caller)
  }

  function VisibleExpenses(role: string, caller: UserId, es: seq<Expense>): (r: seq<Expense>)
    ensures forall e :: e in r <==> e in es && (SeesAll(role) || e.userId == caller)
    ensures SeesAll(role) ==> r == es
  {
    if SeesAll(role) then es else ExpensesOfUser(es, caller)
  }

  function VisibleAttendance(role: string, caller: UserId, xs: seq<Attendance>): (r: seq<Attendance>)
    ensures forall a :: a in r <==> a in xs && (SeesAll(role) || a.userId == caller)
    ensures SeesAll(role) ==> r == xs
  {
    if SeesAll(role) then xs else AttendanceOfUser(xs, caller)
  }

  // ---- list handlers ----

  /** Rows added from `a` to `b` are all staff rows. */
  predicate NewRowsStaff(a: map<UserId, RoleRow>, b: map<UserId, RoleRow>)
  {
    forall k :: k in b && k !in a ==> b[k].role == "staff"
  }

  /** Enriches the users of a list of rows one after the other; every
      missing role row is bootstrapped on the way. */
  method EnrichUsers(roles: UserRoles, ids: seq<UserId>, authUser: UserId -> Option<User>) returns (es: seq<EnrichedUser>)
    modifies roles
    ensures roles.rows == SignIns(old(roles.rows), ids)
    ensures |es| == |ids|
    ensures forall i :: 0 <= i < |ids| ==> ids[i] in roles.rows && es[i] == Enriched(authUser(ids[i]), roles.rows[ids[i]])
  {
    es := [];
    ghost var start := roles.rows;
    for i := 0 to |ids|
      invariant |es| == i
      invariant SignIns(start, ids) == SignIns(roles.rows, ids[i..])
      invariant EnrichedUpTo(es, ids, roles.rows, authUser)
    {
      ghost var before := roles.rows;
      SignInsStep(before, ids, i);
      var e := GetEnrichedUser(roles, ids[i], authUser(ids[i]));
      SignInKeeps(before, ids[i]);
      EnrichedStep(es, ids, before, roles.rows, authUser, e);
      es := es + [e];
    }
    assert ids[|ids|..] == [];
  }

  /** Each of the first |es| users is signed in and `es` holds them enriched. */
  predicate EnrichedUpTo(es: seq<EnrichedUser>, ids: seq<UserId>, rows: map<UserId, RoleRow>, authUser: UserId -> Option<User>)
  {
    |es| <= |ids| && forall j :: 0 <= j < |es| ==> ids[j] in rows && es[j] == Enriched(authUser(ids[j]), rows[ids[j]])
  }

  lemma EnrichedStep(es: seq<EnrichedUser>, ids: seq<UserId>, before: map<UserId, RoleRow>, after: map<UserId, RoleRow>,
                     authUser: UserId -> Option<User>, e: EnrichedUser)
    requires EnrichedUpTo(es, ids, before, authUser) && |es| < |ids| && Extends(before, after)
    requires ids[|es|] in after && e == Enriched(authUser(ids[|es|]), after[ids[|es|]])
    ensures EnrichedUpTo(es + [e], ids, after, authUser)
  {
    forall j | 0 <= j < |es| + 1
      ensures ids[j] in after && (es + [e])[j] == Enriched(authUser(ids[j]), after[ids[j]])
    {
      if j < |es| {
        assert (es + [e])[j] == es[j];
        assert ids[j] in before && es[j] == Enriched(authUser(ids[j]), before[ids[j]]);
        ExtendsAt(before, after, ids[j]);
      } else {
        assert (es + [e])[j] == e;
      }
    }
  }

  lemma SignInsStep(rows: map<UserId, RoleRow>, ids: seq<UserId>, i: nat)
    requires i < |ids|
    ensures SignIns(rows, ids[i..]) == SignIns(SignIn(rows, ids[i]), ids[i + 1..])
  {
    assert ids[i..][1..] == ids[i + 1..];
  }

  lemma ExtendsAt(a: map<UserId, RoleRow>, b: map<UserId, RoleRow>, k: UserId)
    requires Extends(a, b) && k in a
    ensures k in b && b[k] == a[k]
  {
  }

  lemma SignInKeeps(rows: map<UserId, RoleRow>, u: UserId)
    ensures Extends(rows, SignIn(rows, u))
  {
  }

  /** After the caller's sign-in (which leaves the table non-empty) every
      further bootstrapped row is a staff row, and no row changes. */
  lemma AfterCaller(old_rows: map<UserId, RoleRow>, u: UserId, us: seq<UserId>, final: map<UserId, RoleRow>)
    requires final == SignIns(SignIn(old_rows, u), us)
    ensures Extends(SignIn(old_rows, u), final)
    ensures forall k :: k in final && k !in old_rows && k != u ==> final[k].role == "staff"
  {
    LaterSignInsAreStaff(SignIn(old_rows, u), us);
  }

  lemma SignInsConcat(rows: map<UserId, RoleRow>, a: seq<UserId>, b: seq<UserId>)
    ensures SignIns(rows, a + b) == SignIns(SignIns(rows, a), b)
    decreases |a|
  {
    if a == [] {
      assert a + b == b;
    } else {
      assert (a + b)[0] == a[0] && (a + b)[1..] == a[1..] + b;
      SignInsConcat(SignIn(rows, a[0]), a[1..], b);
    }
  }

  datatype ListedTask = ListedTask(task: Task, assignee: EnrichedUser, assigner: EnrichedUser)

  /** The role of a caller once signed in on the given role table. */
  function CallerRole(rows: map<UserId, RoleRow>, caller: UserId): string
  {
    EffectiveRole(SignIn(rows, caller)[caller])
  }

  /** The listed tasks carry the given tasks, each with its assignee and
      assigner enriched against the role table. */
  predicate TasksListed(out: seq<ListedTask>, ts: seq<Task>, rows: map<UserId, RoleRow>, authUser: UserId -> Option<User>)
  {
    && |out| == |ts|
    && forall i :: 0 <= i < |ts| ==>
         (&& out[i].task == ts[i]
          && ts[i].assignedToId in rows && ts[i].assignedById in rows
          && out[i].assignee == Enriched(authUser(ts[i].assignedToId), rows[ts[i].assignedToId])
          && out[i].assigner == Enriched(authUser(ts[i].assignedById), rows[ts[i].assignedById]))
  }

  /** GET tasks: the visible tasks, each with its assignee and assigner
      enriched (which writes role rows for them when missing). The store is
      only read. The model enriches all assignees, then all assigners. */
  method ListTasks(db: DatabaseStorage, roles: UserRoles, caller: Option<UserId>, authUser: UserId -> Option<User>)
    returns (reply: Reply<seq<ListedTask>>)
    modifies roles
    ensures caller.None? ==> reply == Failure(401, Unauthorized) && roles.rows == old(roles.rows)
    ensures caller.Some? ==> reply.Json? && reply.status == 200
    ensures caller.Some? ==>
              TasksListed(reply.value, VisibleTasks(CallerRole(old(roles.rows), caller.value), caller.value, db.tasks), roles.rows, authUser)
    ensures caller.Some? ==> Extends(SignIn(old(roles.rows), caller.value), roles.rows)
    ensures caller.Some? ==> forall k :: k in roles.rows && k !in old(roles.rows) && k != caller.value ==> roles.rows[k].role == "staff"
  {
    if caller.None? {
      return Failure(401, Unauthorized);
    }
    var u := caller.value;
    var me := GetEnrichedUser(roles, u, authUser(u));
    var out := ListVisibleTasks(db, roles, u, me.role, authUser);
    ghost var vs := VisibleTasks(me.role, u, db.tasks);
    AfterCaller(old(roles.rows), u, AssigneeIds(vs) + AssignerIds(vs), roles.rows);
    reply := Json(200, out);
  }

  /** The tasks a caller with `role` sees, each with its assignee and then
      its assigner enriched: every assignee first, then every assigner. */
  method ListVisibleTasks(db: DatabaseStorage, roles: UserRoles, u: UserId, role: string, authUser: UserId -> Option<User>)
    returns (out: seq<ListedTask>)
    modifies roles
    ensures TasksListed(out, VisibleTasks(role, u, db.tasks), roles.rows, authUser)
    ensures roles.rows == SignIns(old(roles.rows), AssigneeIds(VisibleTasks(role, u, db.tasks)) + AssignerIds(VisibleTasks(role, u, db.tasks)))
  {
    var rows: seq<TaskWithAssignee>;
    if role == "admin" || role == "proprietor" {
      rows := db.GetTasks();
    } else {
      rows := db.GetTasksByUserId(u);
    }
    ghost var start := roles.rows;
    var ts := TasksOf(rows);
    TasksOfEnriched(db.users, VisibleTasks(role, u, db.tasks));
    var toIds := AssigneeIds(ts);
    var byIds := AssignerIds(ts);
    var assignees := EnrichUsers(roles, toIds, authUser);
    ghost var afterAssignees := roles.rows;
    var assigners := EnrichUsers(roles, byIds, authUser);
    SignInsExtend(afterAssignees, byIds);
    SignInsConcat(start, toIds, byIds);
    out := seq(|ts|, i requires 0 <= i < |ts| => ListedTask(ts[i], assignees[i], assigners[i]));
    TasksListedFrom(out, ts, assignees, assigners, afterAssignees, roles.rows, authUser);
  }

  /** The tasks of the store's enriched rows. */
  function TasksOf(rows: seq<TaskWithAssignee>): (ts: seq<Task>)
    ensures |ts| == |rows|
    ensures forall i :: 0 <= i < |rows| ==> ts[i] == rows[i].task
  {
    seq(|rows|, i requires 0 <= i < |rows| => rows[i].task)
  }

  lemma TasksOfEnriched(us: seq<User>, ts: seq<Task>)
    ensures TasksOf(EnrichedTasks(us, ts)) == ts
  {
    var r := TasksOf(EnrichedTasks(us, ts));
    assert |r| == |ts|;
    assert forall i :: 0 <= i < |ts| ==> r[i] == ts[i];
  }

  function AssigneeIds(ts: seq<Task>): (ids: seq<UserId>)
    ensures |ids| == |ts|
    ensures forall i :: 0 <= i < |ts| ==> ids[i] == ts[i].assignedToId
  {
    seq(|ts|, i requires 0 <= i < |ts| => ts[i].assignedToId)
  }

  function AssignerIds(ts: seq<Task>): (ids: seq<UserId>)
    ensures |ids| == |ts|
    ensures forall i :: 0 <= i < |ts| ==> ids[i] == ts[i].assignedById
  {
    seq(|ts|, i requires 0 <= i < |ts| => ts[i].assignedById)
  }

  /** The two enrichment passes together list every task with both of its
      users enriched against the final table: the second pass keeps every
      row the first one read. */
  lemma TasksListedFrom(out: seq<ListedTask>, ts: seq<Task>, assignees: seq<EnrichedUser>, assigners: seq<EnrichedUser>,
                        mid: map<UserId, RoleRow>, final: map<UserId, RoleRow>, authUser: UserId -> Option<User>)
    requires |out| == |ts| == |assignees| == |assigners|
    requires forall i :: 0 <= i < |ts| ==> out[i] == ListedTask(ts[i], assignees[i], assigners[i])
    requires forall i :: 0 <= i < |ts| ==>
               ts[i].assignedToId in mid && assignees[i] == Enriched(authUser(ts[i].assignedToId), mid[ts[i].assignedToId])
    requires forall i :: 0 <= i < |ts| ==>
               ts[i].assignedById in final && assigners[i] == Enriched(authUser(ts[i].assignedById), final[ts[i].assignedById])
    requires Extends(mid, final)
    ensures TasksListed(out, ts, final, authUser)
  {
  }

  /** Admin and proprietor get every record joined with its user; anyone else gets their own records. */
  datatype AttendanceListing = WithUsers(all: seq<AttendanceWithUser>) | Own(own: seq<Attendance>)

  method ListAttendance(db: DatabaseStorage, roles: UserRoles, caller: Option<UserId>, authUser: UserId -> Option<User>)
    returns (reply: Reply<AttendanceListing>)
    modifies roles
    ensures caller.None? ==> reply == Failure(401, Unauthorized) && roles.rows == old(roles.rows)
    ensures caller.Some? ==> roles.rows == SignIn(old(roles.rows), caller.value)
    ensures caller.Some? && SeesAll(CallerRole(old(roles.rows), caller.value)) ==>
              reply == Json(200, WithUsers(EnrichedAttendance(db.users, db.attendance)))
    ensures caller.Some? && !SeesAll(CallerRole(old(roles.rows), caller.value)) ==>
              reply == Json(200, Own(AttendanceOfUser(db.attendance, caller.value)))
  {
    if caller.None? {
      return Failure(401, Unauthorized);
    }
    var u := caller.value;
    var me := GetEnrichedUser(roles, u, authUser(u));
    if me.role == "admin" || me.role == "proprietor" {
      var all := db.GetAttendance();
      reply := Json(200, WithUsers(all));
    } else {
      var own := db.GetAttendanceByUserId(u);
      reply := Json(200, Own(own));
    }
  }

  /** A listed leave or expense: the row, its user enriched, and (on the
      admin path only, where the store joined it) its approver. */
  datatype ListedLeave = ListedLeave(leave: Leave, user: EnrichedUser, approvedBy: Option<Option<User>>)
  datatype ListedExpense = ListedExpense(expense: Expense, user: EnrichedUser, approvedBy: Option<Option<User>>)

  predicate LeavesListed(out: seq<ListedLeave>, ls: seq<Leave>, seesAll: bool, users: seq<User>,
                         rows: map<UserId, RoleRow>, authUser: UserId -> Option<User>)
  {
    && |out| == |ls|
    && forall i :: 0 <= i < |ls| ==>
         (&& out[i].leave == ls[i]
          && ls[i].userId in rows
          && out[i].user == Enriched(authUser(ls[i].userId), rows[ls[i].userId])
          && out[i].approvedBy == (if seesAll then Some(ApproverOf(users, ls[i].approvedById)) else None))
  }

  method ListLeaves(db: DatabaseStorage, roles: UserRoles, caller: Option<UserId>, authUser: UserId -> Option<User>)
    returns (reply: Reply<seq<ListedLeave>>)
    modifies roles
    ensures caller.None? ==> reply == Failure(401, Unauthorized) && roles.rows == old(roles.rows)
    ensures caller.Some? ==> reply.Json? && reply.status == 200
    ensures caller.Some? ==>
              var role := CallerRole(old(roles.rows), caller.value);
              LeavesListed(reply.value, VisibleLeaves(role, caller.value, db.leaves), SeesAll(role), db.users, roles.rows, authUser)
    ensures caller.Some? ==> Extends(SignIn(old(roles.rows), caller.value), roles.rows)
    ensures caller.Some? ==> forall k :: k in roles.rows && k !in old(roles.rows) && k != caller.value ==> roles.rows[k].role == "staff"
  {
    if caller.None? {
      return Failure(401, Unauthorized);
    }
    var u := caller.value;
    var me := GetEnrichedUser(roles, u, authUser(u));
    var out := ListVisibleLeaves(db, roles, u, me.role, authUser);
    AfterCaller(old(roles.rows), u, LeaveUserIds(VisibleLeaves(me.role, u, db.leaves)), roles.rows);
    reply := Json(200, out);
  }

  /** The leaves a caller with `role` sees, each with its owner enriched
      and, for an admin or proprietor, its approver looked up. */
  method ListVisibleLeaves(db: DatabaseStorage, roles: UserRoles, u: UserId, role: string, authUser: UserId -> Option<User>)
    returns (out: seq<ListedLeave>)
    modifies roles
    ensures LeavesListed(out, VisibleLeaves(role, u, db.leaves), SeesAll(role), db.users, roles.rows, authUser)
    ensures roles.rows == SignIns(old(roles.rows), LeaveUserIds(VisibleLeaves(role, u, db.leaves)))
  {
    var seesAll := role == "admin" || role == "proprietor";
    var list: seq<Leave>;
    var approvers: seq<Option<Option<User>>>;
    if seesAll {
      var joined := db.GetLeaves();
      list := LeavesOf(joined);
      LeavesOfEnriched(db.users, db.leaves);
      approvers := LeaveApprovers(joined);
    } else {
      list := db.GetLeavesByUserId(u);
      approvers := NoApprovers(|list|);
    }
    assert list == VisibleLeaves(role, u, db.leaves);
    var ids := LeaveUserIds(list);
    var users := EnrichUsers(roles, ids, authUser);
    out := seq(|list|, i requires 0 <= i < |list| => ListedLeave(list[i], users[i], approvers[i]));
    LeavesListedFrom(out, list, seesAll, db.users, roles.rows, authUser, users, approvers);
  }

  function LeavesOf(joined: seq<LeaveWithUser>): (ls: seq<Leave>)
    ensures |ls| == |joined|
    ensures forall i :: 0 <= i < |joined| ==> ls[i] == joined[i].leave
  {
    seq(|joined|, i requires 0 <= i < |joined| => joined[i].leave)
  }

  lemma LeavesOfEnriched(us: seq<User>, ls: seq<Leave>)
    ensures LeavesOf(EnrichedLeaves(us, ls)) == ls
  {
    var r := LeavesOf(EnrichedLeaves(us, ls));
    assert |r| == |ls|;
    assert forall i :: 0 <= i < |ls| ==> r[i] == ls[i];
  }

  function LeaveApprovers(joined: seq<LeaveWithUser>): (aps: seq<Option<Option<User>>>)
    ensures |aps| == |joined|
    ensures forall i :: 0 <= i < |joined| ==> aps[i] == Some(joined[i].approvedBy)
  {
    seq(|joined|, i requires 0 <= i < |joined| => Some(joined[i].approvedBy))
  }

  function NoApprovers(n: nat): (aps: seq<Option<Option<User>>>)
    ensures |aps| == n
    ensures forall i :: 0 <= i < n ==> aps[i] == None
  {
    seq(n, i => None)
  }

  function LeaveUserIds(ls: seq<Leave>): (ids: seq<UserId>)
    ensures |ids| == |ls|
    ensures forall i :: 0 <= i < |ls| ==> ids[i] == ls[i].userId
  {
    seq(|ls|, i requires 0 <= i < |ls| => ls[i].userId)
  }

  /** The listed leaves carry each row, its enriched user and its approver. */
  lemma LeavesListedFrom(out: seq<ListedLeave>, ls: seq<Leave>, seesAll: bool, us: seq<User>,
                         rows: map<UserId, RoleRow>, authUser: UserId -> Option<User>,
                         users: seq<EnrichedUser>, approvers: seq<Option<Option<User>>>)
    requires |out| == |ls| == |users| == |approvers|
    requires forall i :: 0 <= i < |ls| ==> out[i] == ListedLeave(ls[i], users[i], approvers[i])
    requires forall i :: 0 <= i < |ls| ==>
               ls[i].userId in rows && users[i] == Enriched(authUser(ls[i].userId), rows[ls[i].userId])
    requires forall i :: 0 <= i < |ls| ==>
               approvers[i] == (if seesAll then Some(ApproverOf(us, ls[i].approvedById)) else None)
    ensures LeavesListed(out, ls, seesAll, us, rows, authUser)
  {
  }

  predicate ExpensesListed(out: seq<ListedExpense>, es: seq<Expense>, seesAll: bool, users: seq<User>,
                           rows: map<UserId, RoleRow>, authUser: UserId -> Option<User>)
  {
    && |out| == |es|
    && forall i :: 0 <= i < |es| ==>
         (&& out[i].expense == es[i]
          && es[i].userId in rows
          && out[i].user == Enriched(authUser(es[i].userId), rows[es[i].userId])
          && out[i].approvedBy == (if seesAll then Some(ApproverOf(users, es[i].approvedById)) else None))
  }

  method ListExpenses(db: DatabaseStorage, roles: UserRoles, caller: Option<UserId>, authUser: UserId -> Option<User>)
    returns (reply: Reply<seq<ListedExpense>>)
    modifies roles
    ensures caller.None? ==> reply == Failure(401, Unauthorized) && roles.rows == old(roles.rows)
    ensures caller.Some? ==> reply.Json? && reply.status == 200
    ensures caller.Some? ==>
              var role := CallerRole(old(roles.rows), caller.value);
              ExpensesListed(reply.value, VisibleExpenses(role, caller.value, db.expenses), SeesAll(role), db.users, roles.rows, authUser)
    ensures caller.Some? ==> Extends(SignIn(old(roles.rows), caller.value), roles.rows)
    ensures caller.Some? ==> forall k :: k in roles.rows && k !in old(roles.rows) && k != caller.value ==> roles.rows[k].role == "staff"
  {
    if caller.None? {
      return Failure(401, Unauthorized);
    }
    var u := caller.value;
    var me := GetEnrichedUser(roles, u, authUser(u));
    var out := ListVisibleExpenses(db, roles, u, me.role, authUser);
    AfterCaller(old(roles.rows), u, ExpenseUserIds(VisibleExpenses(me.role, u, db.expenses)), roles.rows);
    reply := Json(200, out);
  }

  /** The expenses a caller with `role` sees, each with its owner enriched
      and, for an admin or proprietor, its approver looked up. */
  method ListVisibleExpenses(db: DatabaseStorage, roles: UserRoles, u: UserId, role: string, authUser: UserId -> Option<User>)
    returns (out: seq<ListedExpense>)
    modifies roles
    ensures ExpensesListed(out, VisibleExpenses(role, u, db.expenses), SeesAll(role), db.users, roles.rows, authUser)
    ensures roles.rows == SignIns(old(roles.rows), ExpenseUserIds(VisibleExpenses(role, u, db.expenses)))
  {
    var seesAll := role == "admin" || role == "proprietor";
    var list: seq<Expense>;
    var approvers: seq<Option<Option<User>>>;
    if seesAll {
      var joined := db.GetExpenses();
      list := ExpensesOf(joined);
      ExpensesOfEnriched(db.users, db.expenses);
      approvers := ExpenseApprovers(joined);
    } else {
      list := db.GetExpensesByUserId(u);
      approvers := NoApprovers(|list|);
    }
    assert list == VisibleExpenses(role, u, db.expenses);
    var ids := ExpenseUserIds(list);
    var users := EnrichUsers(roles, ids, authUser);
    out := seq(|list|, i requires 0 <= i < |list| => ListedExpense(list[i], users[i], approvers[i]));
    ExpensesListedFrom(out, list, seesAll, db.users, roles.rows, authUser, users, approvers);
  }

  function ExpensesOf(joined: seq<ExpenseWithUser>): (es: seq<Expense>)
    ensures |es| == |joined|
    ensures forall i :: 0 <= i < |joined| ==> es[i] == joined[i].expense
  {
    seq(|joined|, i requires 0 <= i < |joined| => joined[i].expense)
  }

  lemma ExpensesOfEnriched(us: seq<User>, es: seq<Expense>)
    ensures ExpensesOf(EnrichedExpenses(us, es)) == es
  {
    var r := ExpensesOf(EnrichedExpenses(us, es));
    assert |r| == |es|;
    assert forall i :: 0 <= i < |es| ==> r[i] == es[i];
  }

  function ExpenseApprovers(joined: seq<ExpenseWithUser>): (aps: seq<Option<Option<User>>>)
    ensures |aps| == |joined|
    ensures forall i :: 0 <= i < |joined| ==> aps[i] == Some(joined[i].approvedBy)
  {
    seq(|joined|, i requires 0 <= i < |joined| => Some(joined[i].approvedBy))
  }

  function ExpenseUserIds(es: seq<Expense>): (ids: seq<UserId>)
    ensures |ids| == |es|
    ensures forall i :: 0 <= i < |es| ==> ids[i] == es[i].userId
  {
    seq(|es|, i requires 0 <= i < |es| => es[i].userId)
  }

  /** The listed expenses carry each row, its enriched user and its approver. */
  lemma ExpensesListedFrom(out: seq<ListedExpense>, es: seq<Expense>, seesAll: bool, us: seq<User>,
                           rows: map<UserId, RoleRow>, authUser: UserId -> Option<User>,
                           users: seq<EnrichedUser>, approvers: seq<Option<Option<User>>>)
    requires |out| == |es| == |users| == |approvers|
    requires forall i :: 0 <= i < |es| ==> out[i] == ListedExpense(es[i], users[i], approvers[i])
    requires forall i :: 0 <= i < |es| ==>
               es[i].userId in rows && users[i] == Enriched(authUser(es[i].userId), rows[es[i].userId])
    requires forall i :: 0 <= i < |es| ==>
               approvers[i] == (if seesAll then Some(ApproverOf(us, es[i].approvedById)) else None)
    ensures ExpensesListed(out, es, seesAll, us, rows, authUser)
  {
  }

  /** An element of the users listing: the account's fields spread first
      and the role row's after, so the row's role, department and title
      overwrite the account's; the names, email and organization are read
      from `account`, which is absent when the role row's user has no
      account. `id` is the id the element carries. */
  datatype UserEntry = UserEntry(id: int, userId: UserId, role: string, department: Option<string>,
                                 title: Option<string>, account: Option<User>)

  /** `{ ...user, ...role }` as written: the row's serial `id` overwrites the account id. */
  function ListedEntryAsWritten(user: Option<User>, userId: UserId, row: RoleRow): (e: UserEntry)
    ensures e.id == row.id && e.userId == userId && e.account == user
    ensures e.role == row.role && e.department == row.department && e.title == row.title
  {
    UserEntry(row.id, userId, row.role, row.department, row.title, user)
  }

  /** The discrepancy: starting from an empty role table, the first user to
      sign in is listed with the id 1 whatever their own id is. */
  lemma ListedIdIsRowId(userId: UserId, user: Option<User>)
    requires userId != 1
    ensures var rows := SignIn(map[], userId);
            ListedEntryAsWritten(user, userId, rows[userId]).id == 1 != userId
  {
  }

  /** The corrected element: the account's id is kept, so `id` and `userId` agree. */
  function ListedEntry(user: Option<User>, userId: UserId, row: RoleRow): (e: UserEntry)
    ensures e.id == userId && e.userId == userId && e.account == user
    ensures e.role == row.role && e.department == row.department && e.title == row.title
    ensures e == ListedEntryAsWritten(user, userId, row).(id := userId)
  {
    UserEntry(userId, userId, row.role, row.department, row.title, user)
  }

  /** Each role row's user appears in the listing exactly once. */
  predicate ListsEachRowOnce(es: seq<UserEntry>, rows: map<UserId, RoleRow>)
  {
    && (forall i :: 0 <= i < |es| ==> es[i].userId in rows)
    && (forall k :: k in rows ==> exists i :: 0 <= i < |es| && es[i].userId == k)
    && (forall i, j :: 0 <= i < j < |es| ==> es[i].userId != es[j].userId)
  }

  /** The listing as the handler builds it: one element per role row, spread
      from the account and the row. */
  predicate UsersListedAsWritten(es: seq<UserEntry>, rows: map<UserId, RoleRow>, authUser: UserId -> Option<User>)
  {
    && ListsEachRowOnce(es, rows)
    && (forall i :: 0 <= i < |es| ==> es[i] == ListedEntryAsWritten(authUser(es[i].userId), es[i].userId, rows[es[i].userId]))
  }

  /** The corrected listing: the same rows, with every element keeping its user's id. */
  predicate UsersListed(es: seq<UserEntry>, rows: map<UserId, RoleRow>, authUser: UserId -> Option<User>)
  {
    && ListsEachRowOnce(es, rows)
    && (forall i :: 0 <= i < |es| ==> es[i] == ListedEntry(authUser(es[i].userId), es[i].userId, rows[es[i].userId]))
  }

  /** The fix of the handler: put the account id back over the row's id. */
  function WithOwnIds(es: seq<UserEntry>): (r: seq<UserEntry>)
    ensures |r| == |es|
    ensures forall i :: 0 <= i < |es| ==> r[i] == es[i].(id := es[i].userId)
  {
    seq(|es|, i requires 0 <= i < |es| => es[i].(id := es[i].userId))
  }

  /** Putting the ids back turns the handler's listing into the corrected one. */
  lemma OwnIdsCorrectListing(es: seq<UserEntry>, rows: map<UserId, RoleRow>, authUser: UserId -> Option<User>)
    requires UsersListedAsWritten(es, rows, authUser)
    ensures UsersListed(WithOwnIds(es), rows, authUser)
  {
    var r := WithOwnIds(es);
    forall k | k in rows
      ensures exists i :: 0 <= i < |r| && r[i].userId == k
    {
      var i :| 0 <= i < |es| && es[i].userId == k;
      assert r[i].userId == k;
    }
    forall i | 0 <= i < |r|
      ensures r[i] == ListedEntry(authUser(r[i].userId), r[i].userId, rows[r[i].userId])
    {
      assert r[i].userId == es[i].userId;
    }
  }

  /** Appending the element of `e.userId` covers that user too. */
  lemma CoveredStep(es: seq<UserEntry>, e: UserEntry, rows: map<UserId, RoleRow>, left: set<UserId>)
    requires forall k :: k in rows && k !in left ==> exists i :: 0 <= i < |es| && es[i].userId == k
    ensures forall k :: k in rows && k !in left - {e.userId} ==> exists i :: 0 <= i < |es + [e]| && (es + [e])[i].userId == k
  {
    forall k | k in rows && k !in left - {e.userId}
      ensures exists i :: 0 <= i < |es + [e]| && (es + [e])[i].userId == k
    {
      if k == e.userId {
        assert (es + [e])[|es|].userId == k;
      } else {
        var i :| 0 <= i < |es| && es[i].userId == k;
        assert (es + [e])[i].userId == k;
      }
    }
  }

  /** GET users, as written: 401 without a caller; otherwise one element per
      role row, in an order the model leaves open, each spread from the
      account and the row, so it carries the row's serial id. */
  method ListUsers(roles: UserRoles, caller: Option<UserId>, authUser: UserId -> Option<User>)
    returns (reply: Reply<seq<UserEntry>>)
    ensures caller.None? ==> reply == Failure(401, Unauthorized)
    ensures caller.Some? ==> reply.Json? && reply.status == 200
    ensures caller.Some? ==> |reply.value| == |roles.rows| && UsersListedAsWritten(reply.value, roles.rows, authUser)
  {
    if caller.None? {
      return Failure(401, Unauthorized);
    }
    var rows := roles.rows;
    var left := rows.Keys;
    var es: seq<UserEntry> := [];
    while left != {}
      invariant left <= rows.Keys
      invariant |es| + |left| == |rows.Keys|
      invariant forall i :: 0 <= i < |es| ==> es[i].userId in rows && es[i].userId !in left
      invariant forall i :: 0 <= i < |es| ==> es[i] == ListedEntryAsWritten(authUser(es[i].userId), es[i].userId, rows[es[i].userId])
      invariant forall k :: k in rows && k !in left ==> exists i :: 0 <= i < |es| && es[i].userId == k
      invariant forall i, j :: 0 <= i < j < |es| ==> es[i].userId != es[j].userId
      decreases |left|
    {
      var key := Seqs.Pick(left);
      CoveredStep(es, ListedEntryAsWritten(authUser(key), key, rows[key]), rows, left);
      es := es + [ListedEntryAsWritten(authUser(key), key, rows[key])];
      left := left - {key};
    }
    assert |rows.Keys| == |rows|;
    reply := Json(200, es);
  }

  /** POST a role row. A body the role schema refuses answers 400 with its
      first message; a second row for a user breaks the unique user id and
      answers 500; otherwise the stored row is returned. */
  method AssignRoleRoute(roles: UserRoles, caller: Option<UserId>, body: UserRoleBody)
    returns (reply: Reply<RoleRow>)
    modifies roles
    ensures caller.None? ==> reply == Failure(401, Unauthorized) && roles.rows == old(roles.rows)
    ensures caller.Some? && ParseUserRole(body).Err? ==>
              reply == ValidationFailure(ParseUserRole(body).error) && roles.rows == old(roles.rows)
    ensures caller.Some? && ParseUserRole(body).Ok? && body.userId.value in old(roles.rows) ==>
              reply == Failure(500, InternalError) && roles.rows == old(roles.rows)
    ensures caller.Some? && ParseUserRole(body).Ok? && body.userId.value !in old(roles.rows) ==>
              reply == Json(200, NewRoleRow(|old(roles.rows)| + 1, ParseUserRole(body).value))
              && roles.rows == old(roles.rows)[body.userId.value := reply.value]
  {
    if caller.None? {
      return Failure(401, Unauthorized);
    }
    var input := ParseUserRole(body);
    if input.Err? {
      return ValidationFailure(input.error);
    }
    var r := roles.AssignUserRole(input.value);
    if r.Err? {
      return Failure(500, InternalError);
    }
    reply := Json(200, r.value);
  }

  /** GET me: the caller, enriched. */
  method Me(roles: UserRoles, caller: Option<UserId>, authUser: UserId -> Option<User>) returns (reply: Reply<EnrichedUser>)
    modifies roles
    ensures caller.None? ==> reply == Failure(401, Unauthorized) && roles.rows == old(roles.rows)
    ensures caller.Some? ==> roles.rows == SignIn(old(roles.rows), caller.value)
    ensures caller.Some? ==> reply == Json(200, Enriched(authUser(caller.value), roles.rows[caller.value]))
  {
    if caller.None? {
      return Failure(401, Unauthorized);
    }
    var me := GetEnrichedUser(roles, caller.value, authUser(caller.value));
    reply := Json(200, me);
  }

  // ---- task handlers ----

  method GetTaskRoute(db: DatabaseStorage, caller: Option<UserId>, id: int) returns (reply: Reply<TaskWithAssignee>)
    requires db.Valid()
    ensures caller.None? ==> reply == Failure(401, Unauthorized)
    ensures caller.Some? && (forall i :: 0 <= i < |db.tasks| ==> db.tasks[i].id != id) ==> reply == Failure(404, TaskNotFound)
    ensures caller.Some? ==> forall i :: 0 <= i < |db.tasks| && db.tasks[i].id == id ==>
              reply == Json(200, EnrichedTasks(db.users, [db.tasks[i]])[0])
  {
    if caller.None? {
      return Failure(401, Unauthorized);
    }
    var task := db.GetTask(id);
    if task.None? {
      return Failure(404, TaskNotFound);
    }
    reply := Json(200, task.value);
  }

  /** POST tasks. Any authenticated caller may create; the role is not consulted.
      `dbFails` stands for an insert the database refuses. */
  method CreateTaskRoute(db: DatabaseStorage, caller: Option<UserId>, body: TaskBody, now: Timestamp, dbFails: bool)
    returns (reply: Reply<Task>)
    requires db.Valid()
    modifies db
    ensures db.Valid()
    ensures caller.None? ==> reply == Failure(401, Unauthorized) && db.State() == old(db.State())
    ensures caller.Some? && ParseTask(body).Err? ==> reply == ValidationFailure(ParseTask(body).error) && db.State() == old(db.State())
    ensures caller.Some? && ParseTask(body).Ok? && dbFails ==> reply == Failure(500, InternalError) && db.State() == old(db.State())
    ensures caller.Some? && ParseTask(body).Ok? && !dbFails ==>
              reply == Json(201, NewTask(old(db.nextTaskId), ParseTask(body).value, now))
              && db.State() == old(db.State()).(tasks := old(db.tasks) + [reply.value], nextTaskId := old(db.nextTaskId) + 1)
  {
    if caller.None? {
      return Failure(401, Unauthorized);
    }
    var input := ParseTask(body);
    if input.Err? {
      return ValidationFailure(input.error);
    }
    if dbFails {
      return Failure(500, InternalError);
    }
    var task := db.CreateTask(input.value, now);
    reply := Json(201, task);
  }

  /** PATCH a task: the partial schema is checked, then the row is updated.
      A missing row answers 200 with no task. */
  method UpdateTaskRoute(db: DatabaseStorage, caller: Option<UserId>, id: int, body: TaskBody, now: Timestamp, dbFails: bool)
    returns (reply: Reply<Option<Task>>)
    requires db.Valid()
    modifies db
    ensures db.Valid()
    ensures caller.None? ==> reply == Failure(401, Unauthorized) && db.State() == old(db.State())
    ensures caller.Some? && ParseTaskPatch(body).Err? ==> reply == ValidationFailure(ParseTaskPatch(body).error) && db.State() == old(db.State())
    ensures caller.Some? && ParseTaskPatch(body).Ok? && dbFails ==> reply == Failure(500, InternalError) && db.State() == old(db.State())
    ensures caller.Some? && ParseTaskPatch(body).Ok? && !dbFails ==>
              reply.Json? && reply.status == 200
              && db.State() == old(db.State()).(tasks := PatchTasks(old(db.tasks), id, ParseTaskPatch(body).value, now))
              && (reply.value.None? <==> forall i :: 0 <= i < |old(db.tasks)| ==> old(db.tasks)[i].id != id)
    ensures caller.Some? && ParseTaskPatch(body).Ok? && !dbFails ==>
              forall i :: 0 <= i < |old(db.tasks)| && old(db.tasks)[i].id == id ==>
                reply.value == Some(ApplyTaskPatch(old(db.tasks)[i], ParseTaskPatch(body).value, now))
  {
    if caller.None? {
      return Failure(401, Unauthorized);
    }
    var input := ParseTaskPatch(body);
    if input.Err? {
      return ValidationFailure(input.error);
    }
    if dbFails {
      return Failure(500, InternalError);
    }
    var task := db.UpdateTask(id, input.value, now);
    reply := Json(200, task);
  }

  /** DELETE a task: 204 whether or not the row existed. */
  method DeleteTaskRoute(db: DatabaseStorage, caller: Option<UserId>, id: int) returns (reply: Reply<()>)
    requires db.Valid()
    modifies db
    ensures db.Valid()
    ensures caller.None? ==> reply == Failure(401, Unauthorized) && db.State() == old(db.State())
    ensures caller.Some? ==> reply == NoContent && db.State() == old(db.State()).(tasks := WithoutId(old(db.tasks), TaskIdOf, id))
  {
    if caller.None? {
      return Failure(401, Unauthorized);
    }
    db.DeleteTask(id);
    reply := NoContent;
  }

  // ---- create handlers of attendance, leaves and expenses ----

  method MarkAttendanceRoute(db: DatabaseStorage, caller: Option<UserId>, body: AttendanceBody, dbFails: bool)
    returns (reply: Reply<Attendance>)
    requires db.Valid()
    modifies db
    ensures db.Valid()
    ensures caller.None? ==> reply == Failure(401, Unauthorized) && db.State() == old(db.State())
    ensures caller.Some? && ParseAttendance(body).Err? ==> reply == ValidationFailure(ParseAttendance(body).error) && db.State() == old(db.State())
    ensures caller.Some? && ParseAttendance(body).Ok? && dbFails ==> reply == Failure(500, InternalError) && db.State() == old(db.State())
    ensures caller.Some? && ParseAttendance(body).Ok? && !dbFails ==>
              reply == Json(201, NewAttendance(old(db.nextAttendanceId), ParseAttendance(body).value))
              && db.State() == old(db.State()).(attendance := old(db.attendance) + [reply.value], nextAttendanceId := old(db.nextAttendanceId) + 1)
  {
    if caller.None? {
      return Failure(401, Unauthorized);
    }
    var input := ParseAttendance(body);
    if input.Err? {
      return ValidationFailure(input.error);
    }
    if dbFails {
      return Failure(500, InternalError);
    }
    var record := db.CreateAttendance(input.value);
    reply := Json(201, record);
  }

  method CreateLeaveRoute(db: DatabaseStorage, caller: Option<UserId>, body: LeaveBody, now: Timestamp, dbFails: bool)
    returns (reply: Reply<Leave>)
    requires db.Valid()
    modifies db
    ensures db.Valid()
    ensures caller.None? ==> reply == Failure(401, Unauthorized) && db.State() == old(db.State())
    ensures caller.Some? && ParseLeave(body).Err? ==> reply == ValidationFailure(ParseLeave(body).error) && db.State() == old(db.State())
    ensures caller.Some? && ParseLeave(body).Ok? && dbFails ==> reply == Failure(500, InternalError) && db.State() == old(db.State())
    ensures caller.Some? && ParseLeave(body).Ok? && !dbFails ==>
              reply == Json(201, NewLeave(old(db.nextLeaveId), ParseLeave(body).value, now)) && reply.value.status == "pending"
              && db.State() == old(db.State()).(leaves := old(db.leaves) + [reply.value], nextLeaveId := old(db.nextLeaveId) + 1)
  {
    if caller.None? {
      return Failure(401, Unauthorized);
    }
    var input := ParseLeave(body);
    if input.Err? {
      return ValidationFailure(input.error);
    }
    if dbFails {
      return Failure(500, InternalError);
    }
    var leave := db.CreateLeave(input.value, now);
    reply := Json(201, leave);
  }

  method CreateExpenseRoute(db: DatabaseStorage, caller: Option<UserId>, body: ExpenseBody, now: Timestamp, dbFails: bool)
    returns (reply: Reply<Expense>)
    requires db.Valid()
    modifies db
    ensures db.Valid()
    ensures caller.None? ==> reply == Failure(401, Unauthorized) && db.State() == old(db.State())
    ensures caller.Some? && ParseExpense(body).Err? ==> reply == ValidationFailure(ParseExpense(body).error) && db.State() == old(db.State())
    ensures caller.Some? && ParseExpense(body).Ok? && dbFails ==> reply == Failure(500, InternalError) && db.State() == old(db.State())
    ensures caller.Some? && ParseExpense(body).Ok? && !dbFails ==>
              reply == Json(201, NewExpense(old(db.nextExpenseId), ParseExpense(body).value, now)) && reply.value.status == "pending"
              && db.State() == old(db.State()).(expenses := old(db.expenses) + [reply.value], nextExpenseId := old(db.nextExpenseId) + 1)
  {
    if caller.None? {
      return Failure(401, Unauthorized);
    }
    var input := ParseExpense(body);
    if input.Err? {
      return ValidationFailure(input.error);
    }
    if dbFails {
      return Failure(500, InternalError);
    }
    var expense := db.CreateExpense(input.value, now);
    reply := Json(201, expense);
  }

  // ---- status handlers ----

  /** PATCH the status of a leave, as written: the body's status is stored
      without checking it against the declared input, and no approver is
      passed, so the approver fields are never stamped. A body without a
      status leaves the update with no value to set, which the query builder
      refuses by throwing, and nothing catches it. */
  method UpdateLeaveStatusRoute(db: DatabaseStorage, caller: Option<UserId>, id: int, status: Option<string>, now: Timestamp)
    returns (reply: Reply<Option<Leave>>)
    requires db.Valid()
    modifies db
    ensures db.Valid()
    ensures caller.None? ==> reply == Failure(401, Unauthorized) && db.State() == old(db.State())
    ensures caller.Some? && status.None? ==> reply == Unanswered && db.State() == old(db.State())
    ensures caller.Some? && status.Some? ==> (reply.Json? && reply.status == 200
              && db.State() == old(db.State()).(leaves := SetLeaveStatus(old(db.leaves), id, status.value, None, now))
              && (reply.value.None? <==> forall i :: 0 <= i < |old(db.leaves)| ==> old(db.leaves)[i].id != id))
    ensures caller.Some? && status.Some? ==>
              forall i :: 0 <= i < |old(db.leaves)| && old(db.leaves)[i].id == id ==>
                reply.value == Some(StampLeave(old(db.leaves)[i], status.value, None, now))
    ensures forall i :: 0 <= i < |db.leaves| ==>
              db.leaves[i].approvedById == old(db.leaves)[i].approvedById && db.leaves[i].approvedAt == old(db.leaves)[i].approvedAt
  {
    if caller.None? {
      return Failure(401, Unauthorized);
    }
    if status.None? {
      return Unanswered;
    }
    var leave := db.UpdateLeaveStatus(id, status.value, None, now);
    reply := Json(200, leave);
  }

  method UpdateExpenseStatusRoute(db: DatabaseStorage, caller: Option<UserId>, id: int, status: Option<string>, now: Timestamp)
    returns (reply: Reply<Option<Expense>>)
    requires db.Valid()
    modifies db
    ensures db.Valid()
    ensures caller.None? ==> reply == Failure(401, Unauthorized) && db.State() == old(db.State())
    ensures caller.Some? && status.None? ==> reply == Unanswered && db.State() == old(db.State())
    ensures caller.Some? && status.Some? ==> (reply.Json? && reply.status == 200
              && db.State() == old(db.State()).(expenses := SetExpenseStatus(old(db.expenses), id, status.value, None, now))
              && (reply.value.None? <==> forall i :: 0 <= i < |old(db.expenses)| ==> old(db.expenses)[i].id != id))
    ensures caller.Some? && status.Some? ==>
              forall i :: 0 <= i < |old(db.expenses)| && old(db.expenses)[i].id == id ==>
                reply.value == Some(StampExpense(old(db.expenses)[i], status.value, None, now))
    ensures forall i :: 0 <= i < |db.expenses| ==>
              db.expenses[i].approvedById == old(db.expenses)[i].approvedById && db.expenses[i].approvedAt == old(db.expenses)[i].approvedAt
  {
    if caller.None? {
      return Failure(401, Unauthorized);
    }
    if status.None? {
      return Unanswered;
    }
    var expense := db.UpdateExpenseStatus(id, status.value, None, now);
    reply := Json(200, expense);
  }

  /** Every leave row holds listed values. */
  predicate LeavesWellTyped(ls: seq<Leave>) { forall i :: 0 <= i < |ls| ==> LeaveWellTyped(ls[i]) }
  predicate ExpensesWellTyped(es: seq<Expense>) { forall i :: 0 <= i < |es| ==> ExpenseWellTyped(es[i]) }

  /** As written, one request turns a table of listed statuses into one
      holding "archived". */
  lemma UncheckedStatusStored(now: Timestamp)
    ensures var l := Leave(1, 2, "sick", "2024-03-01", "2024-03-01", Some(1), "flu", "pending", None, None, None, 0);
            LeavesWellTyped([l]) && !LeavesWellTyped(SetLeaveStatus([l], 1, "archived", None, now))
  {
    var l := Leave(1, 2, "sick", "2024-03-01", "2024-03-01", Some(1), "flu", "pending", None, None, None, 0);
    var r := SetLeaveStatus([l], 1, "archived", None, now);
    assert r[0].status == "archived";
    assert !LeaveWellTyped(r[0]);
  }

  /** Setting a listed status keeps every row well-typed. */
  lemma ListedStatusKeepsLeavesWellTyped(ls: seq<Leave>, id: int, status: string, approvedById: Option<UserId>, now: Timestamp)
    requires status in ApprovalStatuses
    ensures LeavesWellTyped(ls) ==> LeavesWellTyped(SetLeaveStatus(ls, id, status, approvedById, now))
  {
  }

  /** PATCH the status of a leave with the body checked against the declared
      input: an unlisted status answers 400 and stores nothing; a listed one
      is stored together with the given approver id. */
  method UpdateLeaveStatusCheckedRoute(db: DatabaseStorage, caller: Option<UserId>, id: int, body: StatusBody, now: Timestamp)
    returns (reply: Reply<Option<Leave>>)
    requires db.Valid()
    modifies db
    ensures db.Valid()
    ensures caller.None? ==> reply == Failure(401, Unauthorized) && db.State() == old(db.State())
    ensures caller.Some? && ParseStatusUpdate(body).Err? ==> reply == ValidationFailure(ParseStatusUpdate(body).error) && db.State() == old(db.State())
    ensures caller.Some? && ParseStatusUpdate(body).Ok? ==> (reply.Json? && reply.status == 200
              && db.State() == old(db.State()).(leaves := SetLeaveStatus(old(db.leaves), id, body.status.value, body.approvedById, now))
              && (reply.value.None? <==> forall i :: 0 <= i < |old(db.leaves)| ==> old(db.leaves)[i].id != id))
    ensures caller.Some? && ParseStatusUpdate(body).Ok? ==>
              forall i :: 0 <= i < |old(db.leaves)| && old(db.leaves)[i].id == id ==>
                reply.value == Some(StampLeave(old(db.leaves)[i], body.status.value, body.approvedById, now))
    ensures LeavesWellTyped(old(db.leaves)) ==> LeavesWellTyped(db.leaves)
  {
    if caller.None? {
      return Failure(401, Unauthorized);
    }
    var input := ParseStatusUpdate(body);
    if input.Err? {
      return ValidationFailure(input.error);
    }
    ListedStatusKeepsLeavesWellTyped(db.leaves, id, input.value.status, input.value.approvedById, now);
    var leave := db.UpdateLeaveStatus(id, input.value.status, input.value.approvedById, now);
    reply := Json(200, leave);
  }

  lemma ListedStatusKeepsExpensesWellTyped(es: seq<Expense>, id: int, status: string, approvedById: Option<UserId>, now: Timestamp)
    requires status in ApprovalStatuses
    ensures ExpensesWellTyped(es) ==> ExpensesWellTyped(SetExpenseStatus(es, id, status, approvedById, now))
  {
  }

  method UpdateExpenseStatusCheckedRoute(db: DatabaseStorage, caller: Option<UserId>, id: int, body: StatusBody, now: Timestamp)
    returns (reply: Reply<Option<Expense>>)
    requires db.Valid()
    modifies db
    ensures db.Valid()
    ensures caller.None? ==> reply == Failure(401, Unauthorized) && db.State() == old(db.State())
    ensures caller.Some? && ParseStatusUpdate(body).Err? ==> reply == ValidationFailure(ParseStatusUpdate(body).error) && db.State() == old(db.State())
    ensures caller.Some? && ParseStatusUpdate(body).Ok? ==> (reply.Json? && reply.status == 200
              && db.State() == old(db.State()).(expenses := SetExpenseStatus(old(db.expenses), id, body.status.value, body.approvedById, now))
              && (reply.value.None? <==> forall i :: 0 <= i < |old(db.expenses)| ==> old(db.expenses)[i].id != id))
    ensures caller.Some? && ParseStatusUpdate(body).Ok? ==>
              forall i :: 0 <= i < |old(db.expenses)| && old(db.expenses)[i].id == id ==>
                reply.value == Some(StampExpense(old(db.expenses)[i], body.status.value, body.approvedById, now))
    ensures ExpensesWellTyped(old(db.expenses)) ==> ExpensesWellTyped(db.expenses)
  {
    if caller.None? {
      return Failure(401, Unauthorized);
    }
    var input := ParseStatusUpdate(body);
    if input.Err? {
      return ValidationFailure(input.error);
    }
    ListedStatusKeepsExpensesWellTyped(db.expenses, id, input.value.status, input.value.approvedById, now);
    var expense := db.UpdateExpenseStatus(id, input.value.status, input.value.approvedById, now);
    reply := Json(200, expense);
  }
}

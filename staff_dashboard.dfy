/** The staff dashboard: the viewer's tasks, the three status counts, and
    the first three open tasks that are due in the future. */
module StaffDashboard {
  import opened Wrappers
  import opened Schema
  import opened Server
  import opened ClientView
  import Seqs

  /** `tasks.filter(t => t.assignedToId === user?.id)`: nothing without a viewer. */
  function MyTasks(viewer: Option<Viewer>, rows: seq<ListedTask>): (r: seq<ListedTask>)
    ensures forall t :: t in r <==> t in rows && viewer.Some? && t.task.assignedToId == viewer.value.id
    ensures Seqs.IsSubseq(r, rows)
    ensures viewer.None? ==> r == []
  {
    if viewer.None? then
      Seqs.FilterIsSubseq(rows, (t: ListedTask) => false);
      []
    else
      var p := (t: ListedTask) => t.task.assignedToId == viewer.value.id;
      Seqs.FilterIsSubseq(rows, p);
      Seqs.Filter(rows, p)
  }

  function TaskStatus(t: ListedTask): string { t.task.status }

  /** The tasks not completed; with the completed ones they make up the list. */
  function OpenTasks(mine: seq<ListedTask>): (r: seq<ListedTask>)
    ensures forall t :: t in r <==> t in mine && t.task.status != "completed"
    ensures |r| + Seqs.CountKey(mine, TaskStatus, "completed") == |mine|
  {
    Seqs.WhereNot(mine, TaskStatus, "completed")
  }

  /** A task is upcoming when it has a due date later than now. */
  predicate DueAfter(t: ListedTask, now: Timestamp)
  {
    t.task.dueDate.Some? && t.task.dueDate.value > now
  }

  /** The open tasks due after `now`, in list order. */
  function DueTasks(mine: seq<ListedTask>, now: Timestamp): (r: seq<ListedTask>)
    ensures forall t :: t in r <==> t in mine && t.task.status != "completed" && DueAfter(t, now)
    ensures Seqs.IsSubseq(r, OpenTasks(mine))
  {
    Seqs.FilterIsSubseq(OpenTasks(mine), (t: ListedTask) => DueAfter(t, now));
    Seqs.Filter(OpenTasks(mine), (t: ListedTask) => DueAfter(t, now))
  }

  /** The first three open tasks, in list order, that are due after `now`. */
  function Upcoming(mine: seq<ListedTask>, now: Timestamp): (r: seq<ListedTask>)
    ensures |r| <= 3 && |r| <= |DueTasks(mine, now)|
    ensures forall t :: t in r ==> t in mine && t.task.status != "completed" && DueAfter(t, now)
    ensures r == DueTasks(mine, now)[..|r|]
    ensures |r| < 3 ==> forall t :: t in mine && t.task.status != "completed" && DueAfter(t, now) ==> t in r
  {
    var due := DueTasks(mine, now);
    var r := Seqs.Take(due, 3);
    assert forall t :: t in r ==> t in due by {
      forall t | t in r ensures t in due {
        var i :| 0 <= i < |r| && r[i] == t;
        assert due[i] == t;
      }
    }
    assert |r| < 3 ==> r == due;
    r
  }

  /** The upcoming tasks keep their order in the viewer's list. */
  lemma UpcomingInOrder(mine: seq<ListedTask>, now: Timestamp)
    ensures Seqs.IsSubseq(Upcoming(mine, now), OpenTasks(mine))
  {
    Seqs.PrefixIsSubseq(DueTasks(mine, now), OpenTasks(mine), |Upcoming(mine, now)|);
  }

  datatype TaskCounts = TaskCounts(completed: nat, inProgress: nat, pending: nat)

  function Counts(mine: seq<ListedTask>): (c: TaskCounts)
    ensures c.completed == |Seqs.Where(mine, TaskStatus, "completed")|
    ensures c.inProgress == |Seqs.Where(mine, TaskStatus, "in_progress")|
    ensures c.pending == |Seqs.Where(mine, TaskStatus, "pending")|
    ensures c.completed + c.inProgress + c.pending <= |mine|
    ensures c.completed + |OpenTasks(mine)| == |mine|
    ensures c.completed > 0 <==> exists t :: t in mine && t.task.status == "completed"
    ensures c.inProgress > 0 <==> exists t :: t in mine && t.task.status == "in_progress"
    ensures c.pending > 0 <==> exists t :: t in mine && t.task.status == "pending"
  {
    Seqs.CountKeys3(mine, TaskStatus, "completed", "in_progress", "pending");
    TaskCounts(Seqs.CountKey(mine, TaskStatus, "completed"), Seqs.CountKey(mine, TaskStatus, "in_progress"),
               Seqs.CountKey(mine, TaskStatus, "pending"))
  }

  /** When every task carries a listed status, the three counts add up to
      the number of tasks. */
  lemma CountsAddUp(mine: seq<ListedTask>)
    requires forall t :: t in mine ==> t.task.status in TaskStatuses
    ensures Counts(mine).completed + Counts(mine).inProgress + Counts(mine).pending == |mine|
  {
    assert forall i :: 0 <= i < |mine| ==> mine[i] in mine;
    Seqs.CountKeys3Exact(mine, TaskStatus, "completed", "in_progress", "pending");
  }
}

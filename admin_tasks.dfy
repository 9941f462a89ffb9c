/** The admin tasks page: the organization's tasks with a search box over
    the title and the assignee's name, and the create-task dialog. The rows
    are the server's task listing, where every assignee is an enriched user
    object even when it has no account. */
module AdminTasks {
  import opened Wrappers
  import opened Schema
  import opened ClientView
  import opened Server
  import Seqs

  function ListedOrg(t: ListedTask): Option<int> { t.task.organizationId }

  function OrgTasks(viewer: Option<Viewer>, rows: seq<ListedTask>): (r: seq<ListedTask>)
    ensures forall t :: t in r <==> t in rows && InViewerOrganization(viewer, t.task.organizationId)
    ensures !HasOrganization(viewer) ==> r == rows
  {
    OrgFilter(viewer, rows, ListedOrg)
  }

  // ---- the search, as written ----

  /** One evaluation of the filter callback: `Some(b)` for its value, `None`
      when it throws. The title is checked first; when it does not match,
      `t.assignee?.firstName.toLowerCase()` is evaluated, and an assignee
      without an account has no `firstName`, so the call throws. */
  function SearchTaskAsWritten(t: ListedTask, search: string): (r: Option<bool>)
    ensures r.None? <==> !Matches(t.task.title, search) && t.assignee.user.None?
  {
    if Matches(t.task.title, search) then Some(true)
    else if t.assignee.user.None? then None
    else Some(Matches(t.assignee.user.value.firstName, search) || Matches(t.assignee.user.value.lastName, search))
  }

  /** The corrected match: an assignee without an account matches on no name. */
  predicate TaskMatches(t: ListedTask, search: string)
  {
    Matches(t.task.title, search)
    || (t.assignee.user.Some? && (Matches(t.assignee.user.value.firstName, search) || Matches(t.assignee.user.value.lastName, search)))
  }

  function FilteredTasks(rows: seq<ListedTask>, search: string): (r: seq<ListedTask>)
    ensures forall t :: t in r <==> t in rows && TaskMatches(t, search)
    ensures Seqs.IsSubseq(r, rows)
  {
    var p := (t: ListedTask) => TaskMatches(t, search);
    Seqs.FilterIsSubseq(rows, p);
    Seqs.Filter(rows, p)
  }

  function TaskCreated(t: ListedTask): int { t.task.createdAt }

  /** The cards in the order the page lists them: the organization's tasks
      that match the search, newest creation time first. */
  function TasksShown(viewer: Option<Viewer>, rows: seq<ListedTask>, search: string): (r: seq<ListedTask>)
    ensures Seqs.SortedDesc(r, TaskCreated)
    ensures multiset(r) == multiset(FilteredTasks(OrgTasks(viewer, rows), search))
    ensures forall t :: t in r <==> t in rows && InViewerOrganization(viewer, t.task.organizationId) && TaskMatches(t, search)
  {
    var s := FilteredTasks(OrgTasks(viewer, rows), search);
    var r := Seqs.SortDesc(s, TaskCreated);
    assert forall t :: t in r <==> t in multiset(s);
    r
  }

  /** `orgTasks.filter(…)` as written: `None` when some callback throws,
      which fails the render of the page; otherwise the corrected listing. */
  function FilterTasksAsWritten(rows: seq<ListedTask>, search: string): (r: Option<seq<ListedTask>>)
    ensures r.None? <==> exists t :: t in rows && SearchTaskAsWritten(t, search).None?
    ensures r.Some? ==> r.value == FilteredTasks(rows, search)
  {
    if rows == [] then Some([])
    else
      match SearchTaskAsWritten(rows[0], search)
      case None => None
      case Some(b) =>
        match FilterTasksAsWritten(rows[1..], search)
        case None =>
          var t :| t in rows[1..] && SearchTaskAsWritten(t, search).None?;
          assert t in rows;
          None
        case Some(rest) =>
          assert forall t :: t in rows ==> t == rows[0] || t in rows[1..];
          assert rows == [rows[0]] + rows[1..];
          Some(if b then [rows[0]] + rest else rest)
  }

  /** An empty search matches every title, so nothing throws and the whole list is shown. */
  lemma EmptySearchShowsAll(rows: seq<ListedTask>)
    ensures FilterTasksAsWritten(rows, "") == Some(FilteredTasks(rows, ""))
    ensures forall t :: t in FilteredTasks(rows, "") <==> t in rows
  {
    forall t | t in rows ensures Matches(t.task.title, "") {
      EmptySearchMatches(t.task.title);
    }
  }

  /** The discrepancy: a search that misses the title of a task whose
      assignee has no account fails the page instead of hiding that task. */
  lemma SearchThrowsOnAccountlessAssignee(rows: seq<ListedTask>, t: ListedTask, search: string)
    requires t in rows && t.assignee.user.None? && !Matches(t.task.title, search)
    ensures FilterTasksAsWritten(rows, search).None?
    ensures t !in FilteredTasks(rows, search)
  {
  }

  /** Such a task and search exist: an empty title never contains "a". */
  lemma AccountlessAssigneeExample(task: Task)
    requires task.title == ""
    ensures SearchTaskAsWritten(ListedTask(task, EnrichedUser(None, "staff", None, None), EnrichedUser(None, "staff", None, None)), "a").None?
  {
    assert !Text.Includes(Text.ToLower(""), Text.ToLower("a")) by {
      Text.IncludesIff("", "a");
    }
  }

  // ---- creating a task ----

  datatype TaskForm = TaskForm(title: string, description: string, assignedToId: string, priority: string, dueDate: string)

  const EmptyTaskForm: TaskForm := TaskForm("", "", "", "medium", "")

  /** The body the dialog sends, or `None` when nobody is signed in and the
      handler returns at once. The task is assigned by the viewer, within the
      viewer's organization, pending and at completion level 0; an empty due
      date is sent as null. */
  function CreateTaskPayload(form: TaskForm, viewer: Option<Viewer>, parseInt: string -> Option<int>,
                             toInstant: string -> Timestamp): (b: Option<TaskBody>)
    ensures b.None? <==> viewer.None?
    ensures b.Some? ==> b.value.title == Some(form.title) && b.value.description == Some(form.description)
    ensures b.Some? ==> b.value.assignedToId == parseInt(form.assignedToId) && b.value.assignedById == Some(viewer.value.id)
    ensures b.Some? ==> b.value.organizationId == viewer.value.organizationId
    ensures b.Some? ==> b.value.status == Some("pending") && b.value.completionLevel == Some(0)
    ensures b.Some? ==> b.value.priority == Some(form.priority)
    ensures b.Some? ==> (b.value.dueDate.None? <==> form.dueDate == "")
    ensures b.Some? && form.dueDate != "" ==> b.value.dueDate == Some(toInstant(form.dueDate))
  {
    if viewer.None? then None
    else
      Some(TaskBody(Some(form.title), Some(form.description), parseInt(form.assignedToId), Some(viewer.value.id),
                    viewer.value.organizationId, Some("pending"), Some(form.priority),
                    if form.dueDate != "" then Some(toInstant(form.dueDate)) else None, Some(0)))
  }

  /** With a chosen assignee and one of the offered priorities, the server
      accepts the body, and the stored task is a pending task at level 0
      assigned by the viewer, with the form's title, description, assignee
      and due date, in the viewer's organization. */
  lemma CreatedTaskAccepted(form: TaskForm, viewer: Viewer, parseInt: string -> Option<int>,
                            toInstant: string -> Timestamp, id: int, now: Timestamp)
    requires parseInt(form.assignedToId).Some? && form.priority in TaskPriorities
    ensures var b := CreateTaskPayload(form, Some(viewer), parseInt, toInstant).value;
            ParseTask(b).Ok?
            && var t := NewTask(id, ParseTask(b).value, now);
            t.status == "pending" && t.completionLevel == 0 && t.assignedById == viewer.id
            && t.priority == form.priority && TaskWellTyped(t)
            && t.title == form.title && t.description == Some(form.description)
            && Some(t.assignedToId) == parseInt(form.assignedToId)
            && t.organizationId == viewer.organizationId
            && (t.dueDate.None? <==> form.dueDate == "")
            && (form.dueDate != "" ==> t.dueDate == Some(toInstant(form.dueDate)))
  {
  }

  /** Picking a staff member of the listing and submitting assigns the task
      to that member's own user id. */
  lemma PickedAssigneeIsChosenUser(form: TaskForm, viewer: Viewer, u: UserEntry, users: seq<UserEntry>,
                                   rows: map<UserId, RoleRow>, authUser: UserId -> Option<User>,
                                   parseInt: string -> Option<int>, toInstant: string -> Timestamp)
    requires UsersListed(users, rows, authUser) && u in StaffUsers(users)
    requires parseInt(PickerValue(u)) == Some(u.id)
    ensures CreateTaskPayload(form.(assignedToId := PickerValue(u)), Some(viewer), parseInt, toInstant).value.assignedToId
            == Some(u.userId)
  {
    ListedIdIsUserId(u, users, rows, authUser);
  }

  /** With the listing as written, the first user to sign in carries the
      role row's id 1, so a task created for them is assigned to user 1. */
  lemma PickedAssigneeAsWritten(form: TaskForm, viewer: Viewer, userId: UserId, user: Option<User>,
                                parseInt: string -> Option<int>, toInstant: string -> Timestamp)
    requires userId != 1 && parseInt("1") == Some(1)
    ensures var u := ListedEntryAsWritten(user, userId, SignIn(map[], userId)[userId]);
            CreateTaskPayload(form.(assignedToId := PickerValue(u)), Some(viewer), parseInt, toInstant).value.assignedToId
            == Some(1) != Some(userId)
  {
    assert Text.IntToString(1) == "1";
  }

  /** The create-task dialog. */
  class TaskDialog {
    var open: bool
    var form: TaskForm

    constructor ()
      ensures !open && form == EmptyTaskForm
    {
      open := false;
      form := EmptyTaskForm;
    }

    /** Without a viewer nothing is sent and nothing changes; otherwise the
        payload is sent, and a success closes the dialog and resets the form. */
    method Create(viewer: Option<Viewer>, parseInt: string -> Option<int>, toInstant: string -> Timestamp,
                  succeeded: bool) returns (sent: Option<TaskBody>)
      modifies this
      ensures sent == CreateTaskPayload(old(form), viewer, parseInt, toInstant)
      ensures viewer.Some? && succeeded ==> !open && form == EmptyTaskForm
      ensures viewer.None? || !succeeded ==> open == old(open) && form == old(form)
    {
      sent := CreateTaskPayload(form, viewer, parseInt, toInstant);
      if viewer.Some? && succeeded {
        open := false;
        form := EmptyTaskForm;
      }
    }
  }
}

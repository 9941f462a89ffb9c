/** The approvals page: the organization's leave requests and expense
    claims, newest first, with approve and reject buttons on the pending
    ones and a count badge on each tab. */
module AdminApprovals {
  import opened Wrappers
  import opened Schema
  import opened Server
  import opened Api
  import opened ClientView
  import Seqs

  function LeaveOrg(l: ListedLeave): Option<int> { l.leave.organizationId }
  function ExpenseOrg(e: ListedExpense): Option<int> { e.expense.organizationId }
  function LeaveCreated(l: ListedLeave): int { l.leave.createdAt }
  function ExpenseCreated(e: ListedExpense): int { e.expense.createdAt }

  function OrgLeaves(viewer: Option<Viewer>, rows: seq<ListedLeave>): (r: seq<ListedLeave>)
    ensures forall l :: l in r <==> l in rows && InViewerOrganization(viewer, l.leave.organizationId)
    ensures !HasOrganization(viewer) ==> r == rows
  {
    OrgFilter(viewer, rows, LeaveOrg)
  }

  function OrgExpenses(viewer: Option<Viewer>, rows: seq<ListedExpense>): (r: seq<ListedExpense>)
    ensures forall e :: e in r <==> e in rows && InViewerOrganization(viewer, e.expense.organizationId)
    ensures !HasOrganization(viewer) ==> r == rows
  {
    OrgFilter(viewer, rows, ExpenseOrg)
  }

  /** A row offers the approve and reject buttons only while it is pending. */
  predicate LeaveOffersDecision(l: ListedLeave) { l.leave.status == "pending" }
  predicate ExpenseOffersDecision(e: ListedExpense) { e.expense.status == "pending" }

  function PendingLeaves(viewer: Option<Viewer>, rows: seq<ListedLeave>): (r: seq<ListedLeave>)
    ensures forall l :: l in r <==> l in rows && InViewerOrganization(viewer, l.leave.organizationId) && l.leave.status == "pending"
    ensures |r| <= |OrgLeaves(viewer, rows)|
  {
    Seqs.Filter(OrgLeaves(viewer, rows), LeaveOffersDecision)
  }

  function PendingExpenses(viewer: Option<Viewer>, rows: seq<ListedExpense>): (r: seq<ListedExpense>)
    ensures forall e :: e in r <==> e in rows && InViewerOrganization(viewer, e.expense.organizationId) && e.expense.status == "pending"
    ensures |r| <= |OrgExpenses(viewer, rows)|
  {
    Seqs.Filter(OrgExpenses(viewer, rows), ExpenseOffersDecision)
  }

  /** The tab badge is shown when its count is positive, which is exactly
      when some leave of the organization is pending. */
  function ShowsLeaveBadge(viewer: Option<Viewer>, rows: seq<ListedLeave>): (b: bool)
    ensures b <==> exists l :: l in rows && InViewerOrganization(viewer, l.leave.organizationId) && l.leave.status == "pending"
  {
    var p := PendingLeaves(viewer, rows);
    assert p != [] ==> p[0] in p;
    |p| > 0
  }

  function ShowsExpenseBadge(viewer: Option<Viewer>, rows: seq<ListedExpense>): (b: bool)
    ensures b <==> exists e :: e in rows && InViewerOrganization(viewer, e.expense.organizationId) && e.expense.status == "pending"
  {
    var p := PendingExpenses(viewer, rows);
    assert p != [] ==> p[0] in p;
    |p| > 0
  }

  /** The rows in the order the tab lists them: every row of the
      organization once, newest creation time first. */
  function LeavesNewestFirst(viewer: Option<Viewer>, rows: seq<ListedLeave>): (r: seq<ListedLeave>)
    ensures Seqs.SortedDesc(r, LeaveCreated)
    ensures multiset(r) == multiset(OrgLeaves(viewer, rows))
  {
    Seqs.SortDesc(OrgLeaves(viewer, rows), LeaveCreated)
  }

  function ExpensesNewestFirst(viewer: Option<Viewer>, rows: seq<ListedExpense>): (r: seq<ListedExpense>)
    ensures Seqs.SortedDesc(r, ExpenseCreated)
    ensures multiset(r) == multiset(OrgExpenses(viewer, rows))
  {
    Seqs.SortDesc(OrgExpenses(viewer, rows), ExpenseCreated)
  }

  /** The listed rows with buttons are exactly the pending rows the badge counts. */
  lemma LeaveButtonsMatchBadge(viewer: Option<Viewer>, rows: seq<ListedLeave>)
    ensures forall l :: l in LeavesNewestFirst(viewer, rows) && LeaveOffersDecision(l) <==> l in PendingLeaves(viewer, rows)
  {
    var s := LeavesNewestFirst(viewer, rows);
    forall l ensures l in s <==> l in OrgLeaves(viewer, rows) {
      assert l in s <==> l in multiset(s);
      assert l in OrgLeaves(viewer, rows) <==> l in multiset(OrgLeaves(viewer, rows));
    }
  }

  lemma ExpenseButtonsMatchBadge(viewer: Option<Viewer>, rows: seq<ListedExpense>)
    ensures forall e :: e in ExpensesNewestFirst(viewer, rows) && ExpenseOffersDecision(e) <==> e in PendingExpenses(viewer, rows)
  {
    var s := ExpensesNewestFirst(viewer, rows);
    forall e ensures e in s <==> e in OrgExpenses(viewer, rows) {
      assert e in s <==> e in multiset(s);
      assert e in OrgExpenses(viewer, rows) <==> e in multiset(OrgExpenses(viewer, rows));
    }
  }

  // ---- the decisions ----

  /** The body an approve or reject button sends: `{ status }` and nothing else. */
  function DecisionBody(approve: bool): (b: StatusBody)
    ensures b.status == Some(if approve then "approved" else "rejected")
    ensures b.approvedById.None?
  {
    StatusBody(Some(if approve then "approved" else "rejected"), None)
  }

  /** The server's schema accepts both decisions, and the update it reads
      carries no approver: approving from this page never names the approver. */
  lemma DecisionAccepted(approve: bool)
    ensures ParseStatusUpdate(DecisionBody(approve)).Ok?
    ensures ParseStatusUpdate(DecisionBody(approve)).value == StatusUpdate(if approve then "approved" else "rejected", None)
  {
  }

  /** The request goes to the status path of the chosen leave. */
  lemma DecisionUrl(id: int)
    ensures ApplyParams(LeaveStatusPath, [("id", Num(id))]) == "/api/leaves/" + Text.IntToString(id) + "/status"
  {
    LeaveStatusUrl(id);
  }
}

/** The employees page: the organization's users with a search box, the
    create-employee dialog, the delete button that refuses the viewer's
    own account, and the role badge. */
module AdminEmployees {
  import opened Wrappers
  import opened Schema
  import opened Storage
  import opened ClientView
  import opened Server
  import StatusBadge

  /** The organization of a listed user: the account's, absent without an account. */
  function EntryOrg(u: UserEntry): Option<int>
  {
    if u.account.Some? then u.account.value.organizationId else None
  }

  function OrgUsers(viewer: Option<Viewer>, users: seq<UserEntry>): (r: seq<UserEntry>)
    ensures forall u :: u in r <==> u in users && InViewerOrganization(viewer, EntryOrg(u))
    ensures !HasOrganization(viewer) ==> r == users
  {
    OrgFilter(viewer, users, EntryOrg)
  }

  /** The names and email of a listed user, empty without an account. */
  function FirstName(u: UserEntry): string { if u.account.Some? then u.account.value.firstName else "" }
  function LastName(u: UserEntry): string { if u.account.Some? then u.account.value.lastName else "" }
  function Email(u: UserEntry): string { if u.account.Some? then u.account.value.email else "" }

  /** The corrected match: the search matches the first name, the last name
      or the email, ignoring case, and a missing field reads as empty. */
  predicate EmployeeMatches(u: UserEntry, search: string)
  {
    Matches(FirstName(u), search) || Matches(LastName(u), search) || Matches(Email(u), search)
  }

  /** The users a non-empty match list keeps, in their order. */
  function MatchingEmployees(rows: seq<UserEntry>, search: string): (r: seq<UserEntry>)
    ensures forall u :: u in r <==> u in rows && EmployeeMatches(u, search)
    ensures Seqs.IsSubseq(r, rows)
  {
    var p := (u: UserEntry) => EmployeeMatches(u, search);
    Seqs.FilterIsSubseq(rows, p);
    Seqs.Filter(rows, p)
  }

  function FilteredEmployees(viewer: Option<Viewer>, users: seq<UserEntry>, search: string): (r: seq<UserEntry>)
    ensures forall u :: u in r <==> u in users && InViewerOrganization(viewer, EntryOrg(u)) && EmployeeMatches(u, search)
    ensures Seqs.IsSubseq(r, OrgUsers(viewer, users))
  {
    MatchingEmployees(OrgUsers(viewer, users), search)
  }

  /** An empty search lists the whole organization. */
  lemma EmptySearchListsAll(viewer: Option<Viewer>, users: seq<UserEntry>)
    ensures forall u :: u in FilteredEmployees(viewer, users, "") <==> u in OrgUsers(viewer, users)
  {
    forall u | u in users ensures EmployeeMatches(u, "") {
      EmptySearchMatches(FirstName(u));
    }
  }

  // ---- the search, as written ----

  /** One evaluation of the filter callback: `Some(b)` for its value, `None`
      when it throws. `u.firstName.toLowerCase()` is evaluated first, and a
      listed user without an account has no `firstName`, so the call throws
      whatever the search. */
  function SearchEmployeeAsWritten(u: UserEntry, search: string): (r: Option<bool>)
    ensures r.None? <==> u.account.None?
    ensures r.Some? ==> r.value == EmployeeMatches(u, search)
  {
    if u.account.None? then None
    else Some(Matches(u.account.value.firstName, search) || Matches(u.account.value.lastName, search)
              || Matches(u.account.value.email, search))
  }

  /** `rows.filter(…)` as written: `None` when some callback throws, which
      fails the render of the page; otherwise the corrected match list. */
  function MatchingEmployeesAsWritten(rows: seq<UserEntry>, search: string): (r: Option<seq<UserEntry>>)
    ensures r.None? <==> exists u :: u in rows && u.account.None?
    ensures r.Some? ==> r.value == MatchingEmployees(rows, search)
  {
    if rows == [] then Some([])
    else
      match SearchEmployeeAsWritten(rows[0], search)
      case None => None
      case Some(b) =>
        match MatchingEmployeesAsWritten(rows[1..], search)
        case None =>
          var u :| u in rows[1..] && u.account.None?;
          assert u in rows;
          None
        case Some(rest) =>
          assert forall u :: u in rows ==> u == rows[0] || u in rows[1..];
          assert rows == [rows[0]] + rows[1..];
          Some(if b then [rows[0]] + rest else rest)
  }

  /** `filteredUsers` as written, over the organization's users. */
  function FilterEmployeesAsWritten(viewer: Option<Viewer>, users: seq<UserEntry>, search: string): (r: Option<seq<UserEntry>>)
    ensures r.None? <==> exists u :: u in users && InViewerOrganization(viewer, EntryOrg(u)) && u.account.None?
    ensures r.Some? ==> r.value == FilteredEmployees(viewer, users, search)
  {
    MatchingEmployeesAsWritten(OrgUsers(viewer, users), search)
  }

  /** The discrepancy: a role row whose user has no account is listed
      without names, and for a viewer without an organization the page then
      fails on every search, the empty one included, where the corrected
      filter lists that user for an empty search. */
  lemma AccountlessUserFailsEverySearch(viewer: Option<Viewer>, users: seq<UserEntry>, rows: map<UserId, RoleRow>,
                                        authUser: UserId -> Option<User>, k: UserId, search: string)
    requires UsersListed(users, rows, authUser) && k in rows && authUser(k).None? && !HasOrganization(viewer)
    ensures FilterEmployeesAsWritten(viewer, users, search).None?
    ensures exists u :: u in FilteredEmployees(viewer, users, "") && u.userId == k
  {
    var i :| 0 <= i < |users| && users[i].userId == k;
    var u := users[i];
    assert u.account.None? && InViewerOrganization(viewer, EntryOrg(u));
    EmptySearchListsAll(viewer, users);
    assert u in OrgUsers(viewer, users);
  }

  // ---- creating an employee ----

  datatype EmployeeForm = EmployeeForm(
    firstName: string, lastName: string, email: string, password: string,
    role: string, department: string, title: string, organizationId: string)

  const EmptyEmployeeForm: EmployeeForm := EmployeeForm("", "", "", "", "staff", "", "", "")

  /** The user the dialog sends. Department and title are sent as typed,
      empty strings included; an empty organization choice is sent as null,
      any other is read by `parseInt`; the account is active. */
  function CreateEmployeePayload(form: EmployeeForm, parseInt: string -> Option<int>): (u: InsertUser)
    ensures u.firstName == form.firstName && u.lastName == form.lastName
    ensures u.email == form.email && u.password == form.password && u.role == form.role
    ensures u.department == Some(form.department) && u.title == Some(form.title)
    ensures form.organizationId == "" ==> u.organizationId.None?
    ensures form.organizationId != "" ==> u.organizationId == parseInt(form.organizationId)
    ensures u.isActive
  {
    InsertUser(form.email, form.password, form.firstName, form.lastName, form.role,
               Some(form.department), Some(form.title),
               if form.organizationId != "" then parseInt(form.organizationId) else None, true)
  }

  /** The create-employee dialog. */
  class EmployeeDialog {
    var open: bool
    var form: EmployeeForm

    constructor ()
      ensures !open && form == EmptyEmployeeForm
    {
      open := false;
      form := EmptyEmployeeForm;
    }

    /** Sends the payload of the form; a success closes the dialog and
        resets the form (the role back to "staff"), a failure keeps both. */
    method Create(parseInt: string -> Option<int>, succeeded: bool) returns (sent: InsertUser)
      modifies this
      ensures sent == CreateEmployeePayload(old(form), parseInt)
      ensures succeeded ==> !open && form == EmptyEmployeeForm
      ensures !succeeded ==> open == old(open) && form == old(form)
    {
      sent := CreateEmployeePayload(form, parseInt);
      if succeeded {
        open := false;
        form := EmptyEmployeeForm;
      }
    }
  }

  // ---- deleting an employee ----

  /** The delete button of a row is disabled on the viewer's own row. */
  predicate DeleteDisabled(viewer: Option<Viewer>, id: UserId)
  {
    viewer.Some? && viewer.value.id == id
  }

  /** The id the delete handler sends to the server, or `None` when it
      refuses with "Cannot delete your own account.". Without a signed-in
      viewer the comparison with `user?.id` is false and the request is sent. */
  function DeleteRequest(viewer: Option<Viewer>, id: UserId): (r: Option<UserId>)
    ensures r.None? <==> DeleteDisabled(viewer, id)
    ensures r.Some? ==> r.value == id
    ensures r.Some? ==> viewer.None? || viewer.value.id != id
  {
    if viewer.Some? && id == viewer.value.id then None else Some(id)
  }

  /** On the users listing, the delete handler refuses exactly the viewer's
      own row and otherwise asks to delete the chosen user. */
  lemma DeleteRefusesOnlyOwnRow(viewer: Option<Viewer>, u: UserEntry, users: seq<UserEntry>,
                                rows: map<UserId, RoleRow>, authUser: UserId -> Option<User>)
    requires UsersListed(users, rows, authUser) && u in users
    ensures DeleteRequest(viewer, u.id).None? <==> viewer.Some? && viewer.value.id == u.userId
    ensures DeleteRequest(viewer, u.id).Some? ==> DeleteRequest(viewer, u.id).value == u.userId
  {
    ListedIdIsUserId(u, users, rows, authUser);
  }

  // ---- the role badge ----

  /** The colour name of a role's badge. */
  function RoleTone(role: string): string
  {
    if role == "admin" then "red" else if role == "proprietor" then "violet" else "blue"
  }

  function RoleBadgeClass(role: string): (cls: string)
    ensures |cls| > 3 && cls[3] == RoleTone(role)[0]
  {
    var n := RoleTone(role);
    "bg-" + n + "-100 text-" + n + "-800 border-" + n + "-200"
  }

  lemma RoleBadgeSpelled(role: string, n: string)
    requires RoleTone(role) == n
    ensures RoleBadgeClass(role) == "bg-" + n + "-100 text-" + n + "-800 border-" + n + "-200"
  {
  }

  /** The proprietor's class text, joined one piece at a time. */
  lemma ProprietorBadge()
    ensures RoleBadgeClass("proprietor") == "bg-violet-100 text-violet-800 border-violet-200"
  {
    RoleBadgeSpelled("proprietor", "violet");
    assert "bg-" + "violet" == "bg-violet";
    assert "bg-violet" + "-100 text-" == "bg-violet-100 text-";
    assert "bg-violet-100 text-" + "violet" == "bg-violet-100 text-violet";
    assert "bg-violet-100 text-violet" + "-800 border-" == "bg-violet-100 text-violet-800 border-";
    assert "bg-violet-100 text-violet-800 border-" + "violet" == "bg-violet-100 text-violet-800 border-violet";
  }

  /** The class texts of the three cases of the role switch. */
  lemma RoleBadgeTexts(role: string)
    requires role != "admin" && role != "proprietor"
    ensures RoleBadgeClass("admin") == "bg-red-100 text-red-800 border-red-200"
    ensures RoleBadgeClass("proprietor") == "bg-violet-100 text-violet-800 border-violet-200"
    ensures RoleBadgeClass(role) == "bg-blue-100 text-blue-800 border-blue-200"
  {
    RoleBadgesShareStatusColours(role);
    StatusBadge.SolidRed();
    StatusBadge.SolidBlue();
    ProprietorBadge();
  }

  /** The admin badge wears the colour of a rejected status, any role but
      admin and proprietor that of an in-progress one. */
  lemma RoleBadgesShareStatusColours(role: string)
    requires role != "admin" && role != "proprietor"
    ensures RoleBadgeClass("admin") == StatusBadge.SolidClass(StatusBadge.Red)
    ensures RoleBadgeClass(role) == StatusBadge.SolidClass(StatusBadge.Blue)
  {
  }

  /** The three badges are told apart. */
  lemma RoleBadgesDistinct(role: string)
    requires role != "admin" && role != "proprietor"
    ensures RoleBadgeClass("admin") != RoleBadgeClass("proprietor")
    ensures RoleBadgeClass("admin") != RoleBadgeClass(role)
    ensures RoleBadgeClass("proprietor") != RoleBadgeClass(role)
  {
  }
}

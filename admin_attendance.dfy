/** The admin attendance log: the organization's records, the list of dates
    to filter by, the search and date filters, today's counts, and the
    mark-attendance dialog. */
module AdminAttendance {
  import opened Wrappers
  import opened Schema
  import opened Storage
  import opened Text
  import opened ClientView
  import Seqs
  import Server

  function RecordOrg(a: AttendanceWithUser): Option<int> { a.record.organizationId }

  /** The records of the viewer's organization (all of them for a viewer without one). */
  function OrgAttendance(viewer: Option<Viewer>, rows: seq<AttendanceWithUser>): (r: seq<AttendanceWithUser>)
    ensures forall a :: a in r <==> a in rows && InViewerOrganization(viewer, a.record.organizationId)
    ensures !HasOrganization(viewer) ==> r == rows
  {
    OrgFilter(viewer, rows, RecordOrg)
  }

  // ---- the dates to filter by ----

  /** Each date sorts strictly after the next one. */
  predicate StrictlyDescending(ds: seq<string>)
  {
    forall i, j :: 0 <= i < j < |ds| ==> StrLess(ds[j], ds[i])
  }

  /** Inserts a date into a strictly descending list, unless it is there already. */
  function InsertDate(d: string, ds: seq<string>): (r: seq<string>)
    requires StrictlyDescending(ds)
    ensures StrictlyDescending(r)
    ensures forall x :: x in r <==> x == d || x in ds
  {
    if ds == [] then [d]
    else if d == ds[0] then ds
    else if StrLess(ds[0], d) then
      assert forall j :: 0 <= j < |ds| ==> StrLess(ds[j], d) by {
        forall j | 0 < j < |ds| ensures StrLess(ds[j], d) {
          StrLessTransitive(ds[j], ds[0], d);
        }
      }
      [d] + ds
    else
      StrLessTrichotomy(d, ds[0]);
      var rest := InsertDate(d, ds[1..]);
      assert forall x :: x in rest ==> StrLess(x, ds[0]) by {
        forall x | x in rest ensures StrLess(x, ds[0]) {
          if x != d {
            var j :| 0 <= j < |ds[1..]| && ds[1..][j] == x;
            assert ds[j + 1] == x;
          }
        }
      }
      assert forall i, j :: 0 <= i < j < |[ds[0]] + rest| ==> StrLess(([ds[0]] + rest)[j], ([ds[0]] + rest)[i]) by {
        forall i, j | 0 <= i < j < |[ds[0]] + rest| ensures StrLess(([ds[0]] + rest)[j], ([ds[0]] + rest)[i]) {
          if i == 0 {
            assert ([ds[0]] + rest)[j] == rest[j - 1];
            assert rest[j - 1] in rest;
          } else {
            assert ([ds[0]] + rest)[j] == rest[j - 1] && ([ds[0]] + rest)[i] == rest[i - 1];
          }
        }
      }
      [ds[0]] + rest
  }

  /** The dates of a list of dates, each once, newest first. */
  function SortedDistinct(ds: seq<string>): (r: seq<string>)
    ensures StrictlyDescending(r)
    ensures forall x :: x in r <==> x in ds
  {
    if ds == [] then [] else InsertDate(ds[0], SortedDistinct(ds[1..]))
  }

  /** `[...new Set(rows.map(a => a.date))].sort().reverse()`: every date of
      the records exactly once, in descending string order. */
  function UniqueDates(rows: seq<AttendanceWithUser>): (r: seq<string>)
    ensures StrictlyDescending(r)
    ensures forall d :: d in r <==> exists i :: 0 <= i < |rows| && rows[i].record.date == d
  {
    var dates := seq(|rows|, i requires 0 <= i < |rows| => rows[i].record.date);
    assert forall d :: d in dates <==> exists i :: 0 <= i < |rows| && rows[i].record.date == d by {
      forall d ensures d in dates <==> exists i :: 0 <= i < |rows| && rows[i].record.date == d {
        if d in dates {
          var i :| 0 <= i < |dates| && dates[i] == d;
          assert rows[i].record.date == d;
        }
        if exists i :: 0 <= i < |rows| && rows[i].record.date == d {
          var i :| 0 <= i < |rows| && rows[i].record.date == d;
          assert dates[i] == d;
        }
      }
    }
    SortedDistinct(dates)
  }

  /** A strictly descending list holds no date twice. */
  lemma DescendingIsDistinct(ds: seq<string>, i: int, j: int)
    requires StrictlyDescending(ds) && 0 <= i < j < |ds|
    ensures ds[i] != ds[j]
  {
    StrLessIrreflexive(ds[i]);
  }

  // ---- the filters ----

  /** `a.user?.firstName…includes(search) || a.user?.lastName…includes(search)`:
      a record without a user never matches. */
  predicate MatchesSearch(a: AttendanceWithUser, search: string)
  {
    a.user.Some? && (Matches(a.user.value.firstName, search) || Matches(a.user.value.lastName, search))
  }

  /** `!selectedDate || a.date === selectedDate`. */
  predicate MatchesDate(a: AttendanceWithUser, selectedDate: string)
  {
    selectedDate == "" || a.record.date == selectedDate
  }

  function FilteredAttendance(rows: seq<AttendanceWithUser>, search: string, selectedDate: string): (r: seq<AttendanceWithUser>)
    ensures forall a :: a in r <==> a in rows && MatchesSearch(a, search) && MatchesDate(a, selectedDate)
    ensures Seqs.IsSubseq(r, rows)
  {
    var p := (a: AttendanceWithUser) => MatchesSearch(a, search) && MatchesDate(a, selectedDate);
    Seqs.FilterIsSubseq(rows, p);
    Seqs.Filter(rows, p)
  }

  /** The records in the order the page lists them: the organization's
      records that pass the filters, latest date first. `dateInstant` stands
      for `new Date(date).getTime()`. */
  function RecordsShown(viewer: Option<Viewer>, rows: seq<AttendanceWithUser>, search: string, selectedDate: string,
                        dateInstant: string -> int): (r: seq<AttendanceWithUser>)
    ensures Seqs.SortedDesc(r, (a: AttendanceWithUser) => dateInstant(a.record.date))
    ensures multiset(r) == multiset(FilteredAttendance(OrgAttendance(viewer, rows), search, selectedDate))
    ensures forall a :: a in r <==> a in rows && InViewerOrganization(viewer, a.record.organizationId)
                                    && MatchesSearch(a, search) && MatchesDate(a, selectedDate)
  {
    var s := FilteredAttendance(OrgAttendance(viewer, rows), search, selectedDate);
    var r := Seqs.SortDesc(s, (a: AttendanceWithUser) => dateInstant(a.record.date));
    assert forall a :: a in r <==> a in multiset(s);
    r
  }

  /** With an empty search and no selected date, exactly the records that have a user are listed. */
  lemma EmptyFiltersKeepRecordsWithUser(rows: seq<AttendanceWithUser>)
    ensures forall a :: a in FilteredAttendance(rows, "", "") <==> a in rows && a.user.Some?
  {
    forall a | a in rows && a.user.Some? ensures MatchesSearch(a, "") {
      EmptySearchMatches(a.user.value.firstName);
    }
  }

  // ---- today's counts ----

  function TodayRecords(rows: seq<AttendanceWithUser>, today: string): (r: seq<AttendanceWithUser>)
    ensures forall a :: a in r <==> a in rows && a.record.date == today
  {
    Seqs.Filter(rows, (a: AttendanceWithUser) => a.record.date == today)
  }

  function RecordStatus(a: AttendanceWithUser): string { a.record.status }

  datatype TodayCounts = TodayCounts(present: nat, absent: nat, leave: nat, halfDay: nat)

  /** The four counts of today's records. Each counts only records of today
      with that status, and together they never exceed today's records. */
  function TodayCountsOf(rows: seq<AttendanceWithUser>, today: string): (c: TodayCounts)
    ensures c.present == |Seqs.Where(TodayRecords(rows, today), RecordStatus, "present")|
    ensures c.absent == |Seqs.Where(TodayRecords(rows, today), RecordStatus, "absent")|
    ensures c.leave == |Seqs.Where(TodayRecords(rows, today), RecordStatus, "leave")|
    ensures c.halfDay == |Seqs.Where(TodayRecords(rows, today), RecordStatus, "half_day")|
    ensures c.present + c.absent + c.leave + c.halfDay <= |TodayRecords(rows, today)|
    ensures c.present > 0 <==> exists a :: a in rows && a.record.date == today && a.record.status == "present"
    ensures c.absent > 0 <==> exists a :: a in rows && a.record.date == today && a.record.status == "absent"
    ensures c.leave > 0 <==> exists a :: a in rows && a.record.date == today && a.record.status == "leave"
    ensures c.halfDay > 0 <==> exists a :: a in rows && a.record.date == today && a.record.status == "half_day"
  {
    var t := TodayRecords(rows, today);
    Seqs.CountKeys4(t, RecordStatus, "present", "absent", "leave", "half_day");
    TodayCounts(Seqs.CountKey(t, RecordStatus, "present"), Seqs.CountKey(t, RecordStatus, "absent"),
                Seqs.CountKey(t, RecordStatus, "leave"), Seqs.CountKey(t, RecordStatus, "half_day"))
  }

  // ---- marking attendance ----

  /** The dialog's fields, as typed. */
  datatype MarkForm = MarkForm(userId: string, date: string, status: string, checkInTime: string, checkOutTime: string, notes: string)

  const EmptyMarkForm: MarkForm := MarkForm("", "", "present", "", "", "")

  /** The body sent for a filled form. `parseInt` reads the chosen employee
      id (`None` for NaN, which is sent as null), `toInstant` turns a date and
      a time of day into an instant. The notes are not a column and the
      insert schema drops them. */
  function MarkPayload(form: MarkForm, viewer: Option<Viewer>, parseInt: string -> Option<int>,
                       toInstant: (string, string) -> Timestamp): (b: AttendanceBody)
    ensures b.userId == parseInt(form.userId) && b.date == Some(form.date) && b.status == Some(form.status)
    ensures b.checkInTime.None? <==> form.checkInTime == ""
    ensures b.checkInTime.Some? ==> b.checkInTime.value == toInstant(form.date, form.checkInTime)
    ensures b.checkOutTime.None? <==> form.checkOutTime == ""
    ensures b.checkOutTime.Some? ==> b.checkOutTime.value == toInstant(form.date, form.checkOutTime)
    ensures b.organizationId == (if viewer.Some? then viewer.value.organizationId else None)
  {
    AttendanceBody(parseInt(form.userId), Some(form.date), Some(form.status),
                   if form.checkInTime != "" then Some(toInstant(form.date, form.checkInTime)) else None,
                   if form.checkOutTime != "" then Some(toInstant(form.date, form.checkOutTime)) else None,
                   if viewer.Some? then viewer.value.organizationId else None)
  }

  /** The dialog offers "half_day", but a record marked so is refused by the server. */
  lemma HalfDayMarkRefused(form: MarkForm, viewer: Option<Viewer>, parseInt: string -> Option<int>,
                           toInstant: (string, string) -> Timestamp)
    requires form.status == "half_day"
    ensures ParseAttendance(MarkPayload(form, viewer, parseInt, toInstant)).Err?
  {
    assert "half_day" !in AttendanceStatuses;
  }

  /** Picking a staff member of the listing and submitting marks the
      attendance of that member's own user id. */
  lemma PickedEmployeeIsChosenUser(form: MarkForm, viewer: Option<Viewer>, u: Server.UserEntry, users: seq<Server.UserEntry>,
                                   rows: map<UserId, RoleRow>, authUser: UserId -> Option<User>,
                                   parseInt: string -> Option<int>, toInstant: (string, string) -> Timestamp)
    requires Server.UsersListed(users, rows, authUser) && u in StaffUsers(users)
    requires parseInt(PickerValue(u)) == Some(u.id)
    ensures MarkPayload(form.(userId := PickerValue(u)), viewer, parseInt, toInstant).userId == Some(u.userId)
  {
    ListedIdIsUserId(u, users, rows, authUser);
  }

  /** The mark-attendance dialog and its form. */
  class MarkDialog {
    var open: bool
    var form: MarkForm

    constructor ()
      ensures !open && form == EmptyMarkForm
    {
      open := false;
      form := EmptyMarkForm;
    }

    /** Submitting sends the payload of the form; a success closes the dialog
        and clears the form, a failure keeps both. */
    method Submit(viewer: Option<Viewer>, parseInt: string -> Option<int>, toInstant: (string, string) -> Timestamp,
                  succeeded: bool) returns (sent: AttendanceBody)
      modifies this
      ensures sent == MarkPayload(old(form), viewer, parseInt, toInstant)
      ensures succeeded ==> !open && form == EmptyMarkForm
      ensures !succeeded ==> open == old(open) && form == old(form)
    {
      sent := MarkPayload(form, viewer, parseInt, toInstant);
      if succeeded {
        open := false;
        form := EmptyMarkForm;
      }
    }
  }
}

/** The staff leave page: the viewer's own requests with their counts and
    the total of approved days, and the request form, which counts the
    days of the chosen range itself. */
module StaffLeaves {
  import opened Wrappers
  import opened Schema
  import opened Server
  import opened ClientView
  import Seqs

  // ---- calendar dates ----

  datatype Date = Date(year: int, month: int, day: int)

  predicate IsLeapYear(y: int) { y % 4 == 0 && (y % 100 != 0 || y % 400 == 0) }

  function DaysInMonth(y: int, m: int): int
    requires 1 <= m <= 12
  {
    if m == 2 then (if IsLeapYear(y) then 29 else 28)
    else if m == 4 || m == 6 || m == 9 || m == 11 then 30
    else 31
  }

  predicate ValidDate(d: Date)
  {
    1 <= d.month <= 12 && 1 <= d.day <= DaysInMonth(d.year, d.month)
  }

  function DigitValue(c: char): int { c as int - '0' as int }
  predicate IsDigit(c: char) { '0' <= c <= '9' }

  /** A date field's value "YYYY-MM-DD" (as a date input delivers it), or
      `None` for anything else, the empty field included. */
  function ParseIsoDate(s: string): (r: Option<Date>)
    ensures r.Some? ==> ValidDate(r.value) && 0 <= r.value.year <= 9999
    ensures r.Some? ==> |s| == 10
  {
    if |s| == 10 && s[4] == '-' && s[7] == '-'
       && IsDigit(s[0]) && IsDigit(s[1]) && IsDigit(s[2]) && IsDigit(s[3])
       && IsDigit(s[5]) && IsDigit(s[6]) && IsDigit(s[8]) && IsDigit(s[9]) then
      var d := Date(DigitValue(s[0]) * 1000 + DigitValue(s[1]) * 100 + DigitValue(s[2]) * 10 + DigitValue(s[3]),
                    DigitValue(s[5]) * 10 + DigitValue(s[6]), DigitValue(s[8]) * 10 + DigitValue(s[9]));
      if ValidDate(d) then Some(d) else None
    else None
  }

  /** The day number of March 1 of the year `y` (years counted from March,
      so that the leap day ends a year), with 1970-03-01 at 59. */
  function MarchYearStart(y: int): int
  {
    var era := y / 400;
    var yoe := y - era * 400;
    era * 146097 + yoe * 365 + yoe / 4 - yoe / 100 - 719468
  }

  /** The month's position in a year that starts in March. */
  function MarchMonth(m: int): int
    requires 1 <= m <= 12
  {
    if m > 2 then m - 3 else m + 9
  }

  /** The year, counted from March, that a date falls in. */
  function MarchYear(d: Date): int
  {
    if d.month <= 2 then d.year - 1 else d.year
  }

  /** Days from March 1 to a date. */
  function DayOfMarchYear(d: Date): int
    requires ValidDate(d)
  {
    (153 * MarchMonth(d.month) + 2) / 5 + d.day - 1
  }

  /** The number of days from 1970-01-01 to a date of the proleptic
      Gregorian calendar, negative before it. */
  function DayNumber(d: Date): int
    requires ValidDate(d)
  {
    MarchYearStart(MarchYear(d)) + DayOfMarchYear(d)
  }

  /** The date after a date. */
  function NextDate(d: Date): (n: Date)
    requires ValidDate(d)
    ensures ValidDate(n)
  {
    if d.day < DaysInMonth(d.year, d.month) then Date(d.year, d.month, d.day + 1)
    else if d.month < 12 then Date(d.year, d.month + 1, 1)
    else Date(d.year + 1, 1, 1)
  }

  lemma EpochIsDayZero()
    ensures DayNumber(Date(1970, 1, 1)) == 0
  {
  }

  /** The start of a year written as an era of 400 years and a year of that era. */
  lemma StartInEra(y: int, era: int, yoe: int)
    requires y == era * 400 + yoe && 0 <= yoe < 400
    ensures MarchYearStart(y) == era * 146097 + yoe * 365 + yoe / 4 - yoe / 100 - 719468
  {
    assert y / 400 == era;
  }

  lemma LeapInEra(y: int, era: int, yoe: int)
    requires y == era * 400 + yoe && 0 <= yoe < 400
    ensures IsLeapYear(y) <==> yoe % 4 == 0 && (yoe % 100 != 0 || yoe == 0)
  {
    Mod4(era * 100, yoe);
    Mod100(era * 4, yoe);
    Mod400(era, yoe);
  }

  // Adding a multiple of the modulus leaves the remainder unchanged.

  lemma Mod4(q: int, r: int)
    ensures (q * 4 + r) % 4 == r % 4
  {
  }

  lemma Mod100(q: int, r: int)
    ensures (q * 100 + r) % 100 == r % 100
  {
  }

  lemma Mod400(q: int, r: int)
    ensures (q * 400 + r) % 400 == r % 400
  {
  }

  /** Within an era, a year adds 365 days and a leap day when the next year is a leap year. */
  lemma StepInEra(yoe: int)
    requires 0 <= yoe < 399
    ensures (yoe + 1) * 365 + (yoe + 1) / 4 - (yoe + 1) / 100
            == yoe * 365 + yoe / 4 - yoe / 100 + (if (yoe + 1) % 4 == 0 && (yoe + 1) % 100 != 0 then 366 else 365)
  {
  }

  /** A year counted from March has 366 days when the February that ends
      it has a leap day, 365 otherwise. */
  lemma YearLength(y: int)
    ensures MarchYearStart(y + 1) == MarchYearStart(y) + (if IsLeapYear(y + 1) then 366 else 365)
  {
    var era := y / 400;
    var yoe := y - era * 400;
    StartInEra(y, era, yoe);
    if yoe < 399 {
      StartInEra(y + 1, era, yoe + 1);
      LeapInEra(y + 1, era, yoe + 1);
      StepInEra(yoe);
    } else {
      StartInEra(y + 1, era + 1, 0);
      LeapInEra(y + 1, era + 1, 0);
    }
  }

  /** The offset of the month after a month, within one March-based year. */
  lemma MonthOffsets(m: int, y: int)
    requires 1 <= m <= 12 && m != 2
    ensures var n := if m == 12 then 1 else m + 1;
            (153 * MarchMonth(n) + 2) / 5 == (153 * MarchMonth(m) + 2) / 5 + DaysInMonth(y, m)
  {
  }

  /** The next date has the next day number. */
  lemma NextDateIsNextDay(d: Date)
    requires ValidDate(d)
    ensures DayNumber(NextDate(d)) == DayNumber(d) + 1
  {
    if d.day == DaysInMonth(d.year, d.month) {
      if d.month == 2 {
        YearLength(d.year - 1);
      } else {
        MonthOffsets(d.month, d.year);
      }
    }
  }

  /** `a` is an earlier date than `b`. */
  predicate DateBefore(a: Date, b: Date)
  {
    a.year < b.year || (a.year == b.year && (a.month < b.month || (a.month == b.month && a.day < b.day)))
  }

  /** Years add at least 365 days each. */
  lemma {:induction false} StartsIncrease(y: int, z: int)
    requires y <= z
    ensures MarchYearStart(z) >= MarchYearStart(y) + 365 * (z - y)
    decreases z - y
  {
    if y < z {
      StartsIncrease(y, z - 1);
      YearLength(z - 1);
    }
  }

  /** A date lies inside its March-based year. */
  lemma DayOfYearBounds(d: Date)
    requires ValidDate(d)
    ensures 0 <= DayOfMarchYear(d) < (if IsLeapYear(MarchYear(d) + 1) then 366 else 365)
  {
    if d.month <= 2 {
      assert MarchYear(d) + 1 == d.year;
    }
  }

  /** A month ends before a later month of the same March-based year begins. */
  lemma MonthEndsBeforeLater(m1: int, m2: int, y: int)
    requires 1 <= m1 <= 12 && 1 <= m2 <= 12 && MarchMonth(m1) < MarchMonth(m2)
    ensures (153 * MarchMonth(m1) + 2) / 5 + DaysInMonth(y, m1) <= (153 * MarchMonth(m2) + 2) / 5
  {
    var next := if m1 == 12 then 1 else m1 + 1;
    MonthOffsets(m1, y);
    assert MarchMonth(next) == MarchMonth(m1) + 1;
    assert MarchMonth(next) <= MarchMonth(m2);
  }

  /** Later dates have larger day numbers. */
  lemma DayNumberIncreasing(a: Date, b: Date)
    requires ValidDate(a) && ValidDate(b) && DateBefore(a, b)
    ensures DayNumber(a) < DayNumber(b)
  {
    DayOfYearBounds(a);
    DayOfYearBounds(b);
    if MarchYear(a) < MarchYear(b) {
      StartsIncrease(MarchYear(a) + 1, MarchYear(b));
      YearLength(MarchYear(a));
    } else {
      assert MarchYear(a) == MarchYear(b);
      if a.month != b.month {
        assert MarchMonth(a.month) < MarchMonth(b.month);
        MonthEndsBeforeLater(a.month, b.month, a.year);
      }
    }
  }

  /** Distinct dates have distinct day numbers. */
  lemma DayNumberInjective(a: Date, b: Date)
    requires ValidDate(a) && ValidDate(b) && DayNumber(a) == DayNumber(b)
    ensures a == b
  {
    if DateBefore(a, b) {
      DayNumberIncreasing(a, b);
    } else if DateBefore(b, a) {
      DayNumberIncreasing(b, a);
    }
  }

  // ---- the days of a request ----

  /** `differenceInDays(new Date(end), new Date(start)) + 1`, or `None` when
      a field holds no date: the difference is then NaN, which is sent as null. */
  function LeaveDays(startDate: string, endDate: string): (r: Option<int>)
    ensures r.Some? <==> ParseIsoDate(startDate).Some? && ParseIsoDate(endDate).Some?
  {
    match (ParseIsoDate(startDate), ParseIsoDate(endDate))
    case (Some(s), Some(e)) => Some(DayNumber(e) - DayNumber(s) + 1)
    case _ => None
  }

  /** A range counts at least one day exactly when it does not end before it
      starts, and exactly one day when it starts and ends on the same date. */
  lemma LeaveDaysMeaning(startDate: string, endDate: string)
    requires ParseIsoDate(startDate).Some? && ParseIsoDate(endDate).Some?
    ensures var s := ParseIsoDate(startDate).value; var e := ParseIsoDate(endDate).value;
            (LeaveDays(startDate, endDate).value >= 1 <==> !DateBefore(e, s))
            && (LeaveDays(startDate, endDate).value == 1 <==> s == e)
  {
    var s := ParseIsoDate(startDate).value;
    var e := ParseIsoDate(endDate).value;
    if DateBefore(e, s) {
      DayNumberIncreasing(e, s);
    } else if DateBefore(s, e) {
      DayNumberIncreasing(s, e);
    }
  }

  /** Extending a range by one date adds one day. */
  lemma OneMoreDate(startDate: string, endDate: string, laterEnd: string)
    requires ParseIsoDate(startDate).Some? && ParseIsoDate(endDate).Some?
    requires ParseIsoDate(laterEnd) == Some(NextDate(ParseIsoDate(endDate).value))
    ensures LeaveDays(startDate, laterEnd).value == LeaveDays(startDate, endDate).value + 1
  {
    NextDateIsNextDay(ParseIsoDate(endDate).value);
  }

  /** Over the end of February of a leap year: three days. */
  lemma LeapFebruaryExample()
    ensures LeaveDays("2024-02-28", "2024-03-01") == Some(3)
  {
    assert ParseIsoDate("2024-02-28") == Some(Date(2024, 2, 28));
    assert ParseIsoDate("2024-03-01") == Some(Date(2024, 3, 1));
    NextDateIsNextDay(Date(2024, 2, 28));
    NextDateIsNextDay(Date(2024, 2, 29));
  }

  /** Over the end of February of a common year: two days. */
  lemma CommonFebruaryExample()
    ensures LeaveDays("2023-02-28", "2023-03-01") == Some(2)
  {
    assert ParseIsoDate("2023-02-28") == Some(Date(2023, 2, 28));
    assert ParseIsoDate("2023-03-01") == Some(Date(2023, 3, 1));
    NextDateIsNextDay(Date(2023, 2, 28));
  }

  /** 2024-03-01 to 2024-03-03 is three days. */
  lemma MarchExample()
    ensures LeaveDays("2024-03-01", "2024-03-03") == Some(3)
  {
    assert ParseIsoDate("2024-03-01") == Some(Date(2024, 3, 1));
    assert ParseIsoDate("2024-03-03") == Some(Date(2024, 3, 3));
    NextDateIsNextDay(Date(2024, 3, 1));
    NextDateIsNextDay(Date(2024, 3, 2));
  }

  // ---- the viewer's requests ----

  /** `leaves.filter(l => l.userId === user?.id)`: nothing without a viewer. */
  function MyLeaves(viewer: Option<Viewer>, rows: seq<ListedLeave>): (r: seq<ListedLeave>)
    ensures forall l :: l in r <==> l in rows && viewer.Some? && l.leave.userId == viewer.value.id
    ensures viewer.None? ==> r == []
  {
    if viewer.None? then [] else Seqs.Filter(rows, (l: ListedLeave) => l.leave.userId == viewer.value.id)
  }

  /** The requests in the order the page lists them: the viewer's leaves,
      newest creation time first. */
  function MyLeavesShown(viewer: Option<Viewer>, rows: seq<ListedLeave>): (r: seq<ListedLeave>)
    ensures Seqs.SortedDesc(r, (l: ListedLeave) => l.leave.createdAt)
    ensures multiset(r) == multiset(MyLeaves(viewer, rows))
    ensures forall l :: l in r <==> l in rows && viewer.Some? && l.leave.userId == viewer.value.id
  {
    var s := MyLeaves(viewer, rows);
    var r := Seqs.SortDesc(s, (l: ListedLeave) => l.leave.createdAt);
    assert forall l :: l in r <==> l in multiset(s);
    r
  }

  function LeaveStatus(l: ListedLeave): string { l.leave.status }

  datatype LeaveCounts = LeaveCounts(total: nat, pending: nat, approved: nat)

  /** The three cards: all requests, the pending ones and the approved ones. */
  function Counts(mine: seq<ListedLeave>): (c: LeaveCounts)
    ensures c.total == |mine|
    ensures c.pending == |Seqs.Where(mine, LeaveStatus, "pending")|
    ensures c.approved == |Seqs.Where(mine, LeaveStatus, "approved")|
    ensures c.pending + c.approved <= c.total
    ensures c.pending > 0 <==> exists l :: l in mine && l.leave.status == "pending"
    ensures c.approved > 0 <==> exists l :: l in mine && l.leave.status == "approved"
  {
    Seqs.CountKeys3(mine, LeaveStatus, "pending", "approved", "rejected");
    LeaveCounts(|mine|, Seqs.CountKey(mine, LeaveStatus, "pending"), Seqs.CountKey(mine, LeaveStatus, "approved"))
  }

  function DaysOrZero(l: ListedLeave): int { l.leave.days.GetOr(0) }

  /** The "Total Days" card: the days of the approved requests summed from
      0, where a request with no days adds nothing (`sum + null` is `sum`). */
  function TotalApprovedDays(mine: seq<ListedLeave>): int
  {
    Seqs.SumBy(Seqs.Filter(mine, (l: ListedLeave) => l.leave.status == "approved"), DaysOrZero)
  }

  /** The total adds up over the parts of the list. */
  lemma {:induction false} TotalApprovedDaysAppend(xs: seq<ListedLeave>, ys: seq<ListedLeave>)
    ensures TotalApprovedDays(xs + ys) == TotalApprovedDays(xs) + TotalApprovedDays(ys)
  {
    if xs == [] {
      assert xs + ys == ys;
    } else {
      assert (xs + ys)[0] == xs[0] && (xs + ys)[1..] == xs[1..] + ys;
      TotalApprovedDaysAppend(xs[1..], ys);
    }
  }

  /** A request that is not approved adds nothing; an approved one adds its days. */
  lemma TotalApprovedDaysCons(l: ListedLeave, rest: seq<ListedLeave>)
    ensures TotalApprovedDays([l] + rest)
            == (if l.leave.status == "approved" then l.leave.days.GetOr(0) else 0) + TotalApprovedDays(rest)
  {
    assert ([l] + rest)[0] == l && ([l] + rest)[1..] == rest;
  }

  /** When no approved request has negative days, the total is not negative. */
  lemma {:induction false} TotalApprovedDaysNonNegative(mine: seq<ListedLeave>)
    requires forall l :: l in mine && l.leave.status == "approved" ==> l.leave.days.GetOr(0) >= 0
    ensures TotalApprovedDays(mine) >= 0
  {
    Seqs.SumByNonNegative(Seqs.Filter(mine, (l: ListedLeave) => l.leave.status == "approved"), DaysOrZero);
  }

  // ---- the request form ----

  datatype LeaveForm = LeaveForm(leaveType: string, startDate: string, endDate: string, reason: string)

  const EmptyLeaveForm: LeaveForm := LeaveForm("casual", "", "", "")

  /** The body sent, or `None` when nobody is signed in. It names the viewer
      and the viewer's organization, carries the computed days, and no
      status. */
  function LeavePayload(form: LeaveForm, viewer: Option<Viewer>): (b: Option<LeaveBody>)
    ensures b.None? <==> viewer.None?
    ensures b.Some? ==> b.value.userId == Some(viewer.value.id) && b.value.organizationId == viewer.value.organizationId
    ensures b.Some? ==> b.value.leaveType == Some(form.leaveType) && b.value.reason == Some(form.reason)
    ensures b.Some? ==> b.value.startDate == Some(form.startDate) && b.value.endDate == Some(form.endDate)
    ensures b.Some? ==> b.value.days == LeaveDays(form.startDate, form.endDate) && b.value.status.None?
  {
    if viewer.None? then None
    else Some(LeaveBody(Some(viewer.value.id), Some(form.leaveType), Some(form.startDate), Some(form.endDate),
                        LeaveDays(form.startDate, form.endDate), Some(form.reason), None, viewer.value.organizationId))
  }

  /** The server accepts the request exactly when its type is a listed one
      (so not "emergency", which the form offers), and stores it pending
      with the form's type, dates and reason, the viewer's organization and
      the computed days. */
  lemma SubmittedLeaveAccepted(form: LeaveForm, viewer: Viewer, id: int, now: Schema.Timestamp)
    ensures ParseLeave(LeavePayload(form, Some(viewer)).value).Ok? <==> form.leaveType in LeaveTypes
    ensures form.leaveType in LeaveTypes ==>
              var l := NewLeave(id, ParseLeave(LeavePayload(form, Some(viewer)).value).value, now);
              l.status == "pending" && l.userId == viewer.id && l.days == LeaveDays(form.startDate, form.endDate)
              && l.leaveType == form.leaveType && l.startDate == form.startDate && l.endDate == form.endDate
              && l.reason == form.reason && l.organizationId == viewer.organizationId
  {
  }

  lemma EmergencyRequestRefused(form: LeaveForm, viewer: Viewer)
    requires form.leaveType == "emergency"
    ensures ParseLeave(LeavePayload(form, Some(viewer)).value).Err?
  {
    EmergencyRefused(LeavePayload(form, Some(viewer)).value);
  }

  class LeaveDialog {
    var open: bool
    var form: LeaveForm

    constructor ()
      ensures !open && form == EmptyLeaveForm
    {
      open := false;
      form := EmptyLeaveForm;
    }

    /** Without a viewer nothing is sent; otherwise the payload is sent, and
        a success closes the dialog and resets the form to a casual leave. */
    method Submit(viewer: Option<Viewer>, succeeded: bool) returns (sent: Option<LeaveBody>)
      modifies this
      ensures sent == LeavePayload(old(form), viewer)
      ensures viewer.Some? && succeeded ==> !open && form == EmptyLeaveForm
      ensures viewer.None? || !succeeded ==> open == old(open) && form == old(form)
    {
      sent := LeavePayload(form, viewer);
      if viewer.Some? && succeeded {
        open := false;
        form := EmptyLeaveForm;
      }
    }
  }
}

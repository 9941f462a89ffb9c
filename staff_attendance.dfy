/** The staff attendance page: today's record of the viewer, the check-in
    and check-out buttons, and the counts over the viewer's records. */
module StaffAttendance {
  import opened Wrappers
  import opened Schema
  import opened ClientView
  import Seqs

  predicate IsTodayOf(a: Attendance, viewer: Option<Viewer>, today: string)
  {
    a.date == today && viewer.Some? && a.userId == viewer.value.id
  }

  /** `attendance.find(a => a.date === today && a.userId === user?.id)`. */
  function TodayRecord(rows: seq<Attendance>, viewer: Option<Viewer>, today: string): (r: Option<Attendance>)
    ensures r.Some? ==> r.value in rows && IsTodayOf(r.value, viewer, today)
    ensures r.None? <==> forall a :: a in rows ==> !IsTodayOf(a, viewer, today)
    ensures r.Some? ==> exists i :: 0 <= i < |rows| && rows[i] == r.value
                          && forall j :: 0 <= j < i ==> !IsTodayOf(rows[j], viewer, today)
  {
    Seqs.Find(rows, (a: Attendance) => IsTodayOf(a, viewer, today))
  }

  /** Check In is offered while there is no record for today. */
  predicate ShowsCheckIn(rows: seq<Attendance>, viewer: Option<Viewer>, today: string)
  {
    TodayRecord(rows, viewer, today).None?
  }

  /** Check Out is offered when today's record has no check-out time. */
  predicate ShowsCheckOut(rows: seq<Attendance>, viewer: Option<Viewer>, today: string)
  {
    TodayRecord(rows, viewer, today).Some? && TodayRecord(rows, viewer, today).value.checkOutTime.None?
  }

  /** At most one of the two buttons is shown. */
  lemma ButtonsExclusive(rows: seq<Attendance>, viewer: Option<Viewer>, today: string)
    ensures !(ShowsCheckIn(rows, viewer, today) && ShowsCheckOut(rows, viewer, today))
    ensures ShowsCheckIn(rows, viewer, today) <==> forall a :: a in rows ==> !IsTodayOf(a, viewer, today)
  {
  }

  /** Without a viewer no record is the viewer's, so Check In is shown. */
  lemma NoViewerShowsCheckIn(rows: seq<Attendance>, today: string)
    ensures ShowsCheckIn(rows, None, today)
  {
  }

  // ---- checking in ----

  /** The body a check-in sends: present, today, checked in now, and without
      the viewer's organization. */
  function CheckInPayload(viewer: Viewer, today: string, now: Timestamp): (b: AttendanceBody)
    ensures b.userId == Some(viewer.id) && b.date == Some(today) && b.status == Some("present")
    ensures b.checkInTime == Some(now) && b.checkOutTime.None? && b.organizationId.None?
  {
    AttendanceBody(Some(viewer.id), Some(today), Some("present"), Some(now), None, None)
  }

  /** The server stores a check-in as a present record of the viewer for
      today, with no check-out time and no organization. */
  lemma CheckInStored(viewer: Viewer, today: string, now: Timestamp, id: int)
    ensures ParseAttendance(CheckInPayload(viewer, today, now)).Ok?
    ensures var a := NewAttendance(id, ParseAttendance(CheckInPayload(viewer, today, now)).value);
            a.userId == viewer.id && a.date == today && a.status == "present"
            && a.checkInTime == Some(now) && a.checkOutTime.None? && a.organizationId.None?
  {
  }

  /** Once the stored check-in is listed after the records that had none
      for today, the page offers Check Out instead of Check In, and the
      record it shows is the new one. */
  lemma CheckInThenCheckOutShown(rows: seq<Attendance>, viewer: Viewer, today: string, now: Timestamp, id: int)
    requires ShowsCheckIn(rows, Some(viewer), today)
    ensures var a := NewAttendance(id, ParseAttendance(CheckInPayload(viewer, today, now)).value);
            TodayRecord(rows + [a], Some(viewer), today) == Some(a)
            && ShowsCheckOut(rows + [a], Some(viewer), today)
            && !ShowsCheckIn(rows + [a], Some(viewer), today)
  {
    var a := NewAttendance(id, ParseAttendance(CheckInPayload(viewer, today, now)).value);
    var r := TodayRecord(rows + [a], Some(viewer), today);
    assert a in rows + [a];
    assert r.Some?;
    assert r.value in rows + [a];
    assert r.value !in rows;
  }

  // ---- the counts ----

  /** `attendance.filter(a => a.userId === user?.id)`. */
  function MyAttendance(rows: seq<Attendance>, viewer: Option<Viewer>): (r: seq<Attendance>)
    ensures forall a :: a in r <==> a in rows && viewer.Some? && a.userId == viewer.value.id
  {
    Seqs.Filter(rows, (a: Attendance) => viewer.Some? && a.userId == viewer.value.id)
  }

  /** The history in the order the page lists it: the viewer's records,
      latest date first. `dateInstant` stands for `new Date(date).getTime()`. */
  function HistoryShown(rows: seq<Attendance>, viewer: Option<Viewer>, dateInstant: string -> int): (r: seq<Attendance>)
    ensures Seqs.SortedDesc(r, (a: Attendance) => dateInstant(a.date))
    ensures multiset(r) == multiset(MyAttendance(rows, viewer))
    ensures forall a :: a in r <==> a in rows && viewer.Some? && a.userId == viewer.value.id
  {
    var s := MyAttendance(rows, viewer);
    var r := Seqs.SortDesc(s, (a: Attendance) => dateInstant(a.date));
    assert forall a :: a in r <==> a in multiset(s);
    r
  }

  function RecordStatus(a: Attendance): string { a.status }

  datatype AttendanceCounts = AttendanceCounts(present: nat, leave: nat, absent: nat)

  function Counts(mine: seq<Attendance>): (c: AttendanceCounts)
    ensures c.present == |Seqs.Where(mine, RecordStatus, "present")|
    ensures c.leave == |Seqs.Where(mine, RecordStatus, "leave")|
    ensures c.absent == |Seqs.Where(mine, RecordStatus, "absent")|
    ensures c.present + c.leave + c.absent <= |mine|
    ensures c.present > 0 <==> exists a :: a in mine && a.status == "present"
    ensures c.leave > 0 <==> exists a :: a in mine && a.status == "leave"
    ensures c.absent > 0 <==> exists a :: a in mine && a.status == "absent"
  {
    Seqs.CountKeys3(mine, RecordStatus, "present", "leave", "absent");
    AttendanceCounts(Seqs.CountKey(mine, RecordStatus, "present"), Seqs.CountKey(mine, RecordStatus, "leave"),
                     Seqs.CountKey(mine, RecordStatus, "absent"))
  }

  // ---- the buttons' state ----

  /** The two busy flags of the page. `checkingInTrace` and
      `checkingOutTrace` record every value the flags took, so that the
      contracts can say they were raised while a request was under way. */
  class AttendancePanel {
    var checkingIn: bool
    var checkingOut: bool
    ghost var checkingInTrace: seq<bool>
    ghost var checkingOutTrace: seq<bool>

    constructor ()
      ensures !checkingIn && !checkingOut && checkingInTrace == [] && checkingOutTrace == []
    {
      checkingIn := false;
      checkingOut := false;
      checkingInTrace := [];
      checkingOutTrace := [];
    }

    /** Without a viewer nothing happens. Otherwise the flag is raised, the
        check-in is sent, and the flag is lowered whether or not it succeeded. */
    method CheckIn(viewer: Option<Viewer>, today: string, now: Timestamp) returns (sent: Option<AttendanceBody>)
      modifies this
      ensures viewer.None? ==> sent.None? && checkingInTrace == old(checkingInTrace) && checkingIn == old(checkingIn)
      ensures viewer.Some? ==> sent == Some(CheckInPayload(viewer.value, today, now))
      ensures viewer.Some? ==> checkingInTrace == old(checkingInTrace) + [true, false] && !checkingIn
      ensures checkingOut == old(checkingOut) && checkingOutTrace == old(checkingOutTrace)
    {
      if viewer.None? {
        return None;
      }
      checkingIn := true;
      checkingInTrace := checkingInTrace + [true];
      sent := Some(CheckInPayload(viewer.value, today, now));
      checkingIn := false;
      checkingInTrace := checkingInTrace + [false];
    }

    /** Without a viewer or a record for today nothing happens. Otherwise
        the flag is raised and lowered again; no request is sent, so the
        record keeps its missing check-out time. */
    method CheckOut(viewer: Option<Viewer>, rows: seq<Attendance>, today: string) returns (acted: bool)
      modifies this
      ensures acted <==> viewer.Some? && TodayRecord(rows, viewer, today).Some?
      ensures acted ==> checkingOutTrace == old(checkingOutTrace) + [true, false] && !checkingOut
      ensures !acted ==> checkingOutTrace == old(checkingOutTrace) && checkingOut == old(checkingOut)
      ensures checkingIn == old(checkingIn) && checkingInTrace == old(checkingInTrace)
    {
      if viewer.None? || TodayRecord(rows, viewer, today).None? {
        return false;
      }
      checkingOut := true;
      checkingOutTrace := checkingOutTrace + [true];
      checkingOut := false;
      checkingOutTrace := checkingOutTrace + [false];
      acted := true;
    }
  }
}

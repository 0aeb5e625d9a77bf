/**
 * The attendance sheet of one date and shift: the list of staff shown and the
 * status each staff id is marked with, as kept by the attendance page.
 */
module Attendance {

  type StaffId = string

  const PRESENT: string := "Present"
  const ABSENT: string := "Absent"

  /** A staff member as the server sends it; `id` is its `_id` field. */
  datatype Staff = Staff(id: StaffId, name: string, role: string, imageUrl: string)

  /** A saved attendance record; `staffId` is the populated staff member. */
  datatype AttendanceRecord = AttendanceRecord(staffId: Staff, status: string)

  /**
   * The reply to the load request, already decoded. The reply's `type` tag
   * selects the constructor: "attendance" gives SavedAttendance, "staff" gives
   * StaffOnly, any other tag OtherKind. RequestFailed is a request that threw.
   */
  datatype AttendanceReply =
    | SavedAttendance(records: seq<AttendanceRecord>)
    | StaffOnly(members: seq<Staff>)
    | OtherKind(kind: string)
    | RequestFailed

  /** One row of the submission payload. */
  datatype SubmissionRow = SubmissionRow(staffId: StaffId, date: string, shift: string, status: string)

  ghost predicate DistinctIds(staff: seq<Staff>)
  {
    forall i, j :: 0 <= i < j < |staff| ==> staff[i].id != staff[j].id
  }

  function Ids(staff: seq<Staff>): set<StaffId>
  {
    set s | s in staff :: s.id
  }

  function RecordIds(records: seq<AttendanceRecord>): set<StaffId>
  {
    set r | r in records :: r.staffId.id
  }

  /** The staff list of a saved attendance: each record's staff member, in order. */
  function StaffOf(records: seq<AttendanceRecord>): seq<Staff>
  {
    seq(|records|, i requires 0 <= i < |records| => records[i].staffId)
  }

  /**
   * The map built by writing each record's status under its staff id, in
   * order; a later record for the same id overwrites an earlier one.
   */
  function SavedStatuses(records: seq<AttendanceRecord>): map<StaffId, string>
  {
    if records == [] then map[]
    else
      var last := records[|records| - 1];
      SavedStatuses(records[..|records| - 1])[last.staffId.id := last.status]
  }

  /** The map built by writing "Absent" under each member's id, in order. */
  function AllAbsent(members: seq<Staff>): map<StaffId, string>
  {
    if members == [] then map[]
    else AllAbsent(members[..|members| - 1])[members[|members| - 1].id := ABSENT]
  }

  /** Whether record `i` is the last one in `records` for its staff id. */
  ghost predicate LastForId(records: seq<AttendanceRecord>, i: int)
    requires 0 <= i < |records|
  {
    forall j :: i < j < |records| ==> records[j].staffId.id != records[i].staffId.id
  }

  /** Whether `id` is currently marked Present (the button shows green). */
  predicate IsPresent(attendance: map<StaffId, string>, id: StaffId)
  {
    id in attendance && attendance[id] == PRESENT
  }

  /** The sheet after clicking the button of `id`. */
  function Toggled(attendance: map<StaffId, string>, id: StaffId): (r: map<StaffId, string>)
    ensures IsPresent(r, id) <==> !IsPresent(attendance, id)
    ensures id in r && (r[id] == PRESENT || r[id] == ABSENT)
    ensures r.Keys == attendance.Keys + {id}
    ensures forall k :: k in attendance && k != id ==> r[k] == attendance[k]
  {
    attendance[id := if IsPresent(attendance, id) then ABSENT else PRESENT]
  }

  /**
   * The status submitted for `id`: the marked one, unless it is missing or
   * empty (falsy), in which case "Absent".
   */
  function SubmittedStatus(attendance: map<StaffId, string>, id: StaffId): (s: string)
    ensures s != ""
    ensures id !in attendance ==> s == ABSENT
    ensures s == ABSENT || (id in attendance && s == attendance[id])
    ensures id in attendance && attendance[id] != "" ==> s == attendance[id]
  {
    if id in attendance && attendance[id] != "" then attendance[id] else ABSENT
  }

  /** The payload submitted for the whole sheet, one row per staff member. */
  function Submission(staff: seq<Staff>, attendance: map<StaffId, string>, date: string, shift: string)
    : (rows: seq<SubmissionRow>)
    ensures |rows| == |staff|
    ensures forall i :: 0 <= i < |staff| ==>
      rows[i] == SubmissionRow(staff[i].id, date, shift, SubmittedStatus(attendance, staff[i].id))
  {
    if staff == [] then []
    else
      var last := staff[|staff| - 1];
      Submission(staff[..|staff| - 1], attendance, date, shift)
        + [SubmissionRow(last.id, date, shift, SubmittedStatus(attendance, last.id))]
  }

  /** Loading a bare staff list marks exactly the listed ids, all "Absent". */
  lemma {:induction false} AllAbsentMarksEveryone(members: seq<Staff>)
    ensures AllAbsent(members).Keys == Ids(members)
    ensures forall id :: id in AllAbsent(members) ==> AllAbsent(members)[id] == ABSENT
  {
    if members != [] {
      var init := members[..|members| - 1];
      AllAbsentMarksEveryone(init);
      assert members == init + [members[|members| - 1]];
      assert Ids(members) == Ids(init) + {members[|members| - 1].id};
    }
  }

  /**
   * Loading a saved attendance marks exactly the ids of the records, and each
   * id with the status of its last record.
   */
  lemma {:induction false} SavedStatusesLastWins(records: seq<AttendanceRecord>)
    ensures SavedStatuses(records).Keys == RecordIds(records)
    ensures forall i :: 0 <= i < |records| && LastForId(records, i) ==>
      records[i].staffId.id in SavedStatuses(records) &&
      SavedStatuses(records)[records[i].staffId.id] == records[i].status
  {
    if records != [] {
      var n := |records| - 1;
      var init := records[..n];
      SavedStatusesLastWins(init);
      assert records == init + [records[n]];
      assert RecordIds(records) == RecordIds(init) + {records[n].staffId.id};
      forall i | 0 <= i < |records| && LastForId(records, i)
        ensures records[i].staffId.id in SavedStatuses(records)
        ensures SavedStatuses(records)[records[i].staffId.id] == records[i].status
      {
        if i < n {
          forall j | i < j < n ensures init[j].staffId.id != init[i].staffId.id {
            assert init[j] == records[j];
          }
          assert init[i] == records[i];
        }
      }
    }
  }

  /**
   * Round trip: submitting a freshly loaded saved attendance sends back every
   * record's status, provided each staff member appears once and no status is
   * empty.
   */
  lemma SavedAttendanceRoundTrip(records: seq<AttendanceRecord>, date: string, shift: string)
    requires DistinctIds(StaffOf(records))
    requires forall i :: 0 <= i < |records| ==> records[i].status != ""
    ensures var rows := Submission(StaffOf(records), SavedStatuses(records), date, shift);
      |rows| == |records| &&
      forall i :: 0 <= i < |records| ==>
        rows[i] == SubmissionRow(records[i].staffId.id, date, shift, records[i].status)
  {
    SavedStatusesLastWins(records);
    forall i | 0 <= i < |records| ensures LastForId(records, i) {
      forall j | i < j < |records| ensures records[j].staffId.id != records[i].staffId.id {
        assert StaffOf(records)[i] == records[i].staffId;
        assert StaffOf(records)[j] == records[j].staffId;
      }
    }
  }

  /** Submitting a freshly loaded staff list marks every member "Absent". */
  lemma FreshSheetSubmitsAbsent(members: seq<Staff>, date: string, shift: string)
    ensures forall row :: row in Submission(members, AllAbsent(members), date, shift) ==> row.status == ABSENT
  {
    AllAbsentMarksEveryone(members);
    var rows := Submission(members, AllAbsent(members), date, shift);
    forall row | row in rows ensures row.status == ABSENT {
      var i :| 0 <= i < |rows| && rows[i] == row;
      assert members[i] in members;
    }
  }

  /**
   * Toggling twice restores a member's status exactly when that status was
   * "Present" or "Absent"; a missing or any other status comes back "Absent".
   */
  lemma ToggleTwice(attendance: map<StaffId, string>, id: StaffId)
    ensures Toggled(Toggled(attendance, id), id) == attendance
        <==> id in attendance && (attendance[id] == PRESENT || attendance[id] == ABSENT)
    ensures Toggled(Toggled(attendance, id), id)[id]
        == (if IsPresent(attendance, id) then PRESENT else ABSENT)
  {
    var twice := Toggled(Toggled(attendance, id), id);
    if id !in attendance {
      assert id in twice;
    } else if attendance[id] != PRESENT && attendance[id] != ABSENT {
      assert twice[id] != attendance[id];
    }
  }

  /**
   * A toggle flips what is submitted for that member between "Present" and
   * not "Present", and changes nothing submitted for anyone else.
   */
  lemma ToggleFlipsSubmission(staff: seq<Staff>, attendance: map<StaffId, string>,
                              id: StaffId, date: string, shift: string)
    ensures var before := Submission(staff, attendance, date, shift);
      var after := Submission(staff, Toggled(attendance, id), date, shift);
      |after| == |before| &&
      forall i :: 0 <= i < |staff| ==>
        if staff[i].id == id then (after[i].status == PRESENT <==> before[i].status != PRESENT)
        else after[i] == before[i]
  {
  }

  /** The attendance page's state. */
  class AttendanceSheet {
    var date: string
    var shift: string
    var staff: seq<Staff>
    var attendance: map<StaffId, string>

    constructor ()
      ensures date == "" && shift == "" && staff == [] && attendance == map[]
    {
      date, shift, staff, attendance := "", "", [], map[];
    }

    method SetDate(d: string)
      modifies this
      ensures date == d
      ensures shift == old(shift) && staff == old(staff) && attendance == old(attendance)
    {
      date := d;
    }

    method SetShift(s: string)
      modifies this
      ensures shift == s
      ensures date == old(date) && staff == old(staff) && attendance == old(attendance)
    {
      shift := s;
    }

    /**
     * Handles the reply to a load. The load is refused, and nothing changes,
     * while the date or the shift is unselected.
     */
    method LoadAttendance(reply: AttendanceReply) returns (refused: bool)
      modifies this
      ensures refused <==> date == "" || shift == ""
      ensures date == old(date) && shift == old(shift)
      ensures refused || reply.OtherKind? || reply.RequestFailed? ==>
        staff == old(staff) && attendance == old(attendance)
      ensures !refused && reply.SavedAttendance? ==>
        staff == StaffOf(reply.records) && attendance == SavedStatuses(reply.records)
      ensures !refused && reply.StaffOnly? ==>
        staff == reply.members && attendance == AllAbsent(reply.members)
    {
      if date == "" || shift == "" {
        return true;
      }
      refused := false;
      match reply {
        case SavedAttendance(records) =>
          var mapped: map<StaffId, string> := map[];
          var i := 0;
          while i < |records|
            invariant 0 <= i <= |records|
            invariant mapped == SavedStatuses(records[..i])
          {
            assert records[..i + 1][..i] == records[..i];
            mapped := mapped[records[i].staffId.id := records[i].status];
            i := i + 1;
          }
          assert records[..i] == records;
          attendance := mapped;
          staff := StaffOf(records);
        case StaffOnly(members) =>
          var mapped: map<StaffId, string> := map[];
          var i := 0;
          while i < |members|
            invariant 0 <= i <= |members|
            invariant mapped == AllAbsent(members[..i])
          {
            assert members[..i + 1][..i] == members[..i];
            mapped := mapped[members[i].id := ABSENT];
            i := i + 1;
          }
          assert members[..i] == members;
          attendance := mapped;
          staff := members;
        case OtherKind(_) =>
        case RequestFailed =>
      }
    }

    /** Clicking the button of staff member `id`. */
    method ToggleAttendance(id: StaffId)
      modifies this
      ensures attendance == Toggled(old(attendance), id)
      ensures date == old(date) && shift == old(shift) && staff == old(staff)
    {
      attendance := Toggled(attendance, id);
    }

    /** The payload "Submit All" posts; the post itself and the reload after it are I/O. */
    method SubmitAttendance() returns (payload: seq<SubmissionRow>)
      ensures |payload| == |staff|
      ensures forall i :: 0 <= i < |staff| ==>
        payload[i].staffId == staff[i].id && payload[i].date == date && payload[i].shift == shift
      ensures forall i :: 0 <= i < |staff| && staff[i].id !in attendance ==> payload[i].status == ABSENT
      ensures payload == Submission(staff, attendance, date, shift)
    {
      payload := Submission(staff, attendance, date, shift);
    }
  }
}

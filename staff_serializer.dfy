/** The create paths of staff/serializers/staffSerializer.py: a Staff row
  * is written before its bank is checked, and an Attendance row only after
  * its staff list is checked. Every exception a `create` meets comes out
  * as a ValidationError wrapping it. */
module StaffSerializer {
  import opened Common

  /** A raised error: a ValidationError with its message, its re-raise as
    * `ValidationError("Got error on: {}".format(e))`, or another exception
    * (`int(None)`, `int('x')`) whose text is not modelled. */
  datatype Error = Message(text: string) | GotErrorOn(inner: Error) | Raised

  datatype Result<T> = Ok(value: T) | Err(error: Error)

  const EmptyBankName: string := "Got empty bank name. Provide either bank id or bank name."
  const EmptyStaffs: string := "Got Empty staffs list."
  const DifferentTeam: string := "Got error on: Staffs entered has different team."

  /** The validated data of a Staff: `bank` is the popped Bank, None when
    * absent. */
  datatype StaffData = StaffData(team: Option<int>, createdBy: int, fields: string, bank: Option<int>, bankName: string)

  datatype StaffRecord = StaffRecord(id: int, team: Option<int>, createdBy: int, fields: string, bank: Option<int>, bankName: string)

  /** `Staff.objects.create(**validated_data)`, the bank popped. */
  function Created(id: int, data: StaffData): StaffRecord
  {
    StaffRecord(id, data.team, data.createdBy, data.fields, None, data.bankName)
  }

  /** The row `StaffSerializer.create` leaves: with a bank, the bank set and
    * the bank name cleared by the second save; without one, the row as
    * created, whether the check then raised or not. */
  function StoredStaff(id: int, data: StaffData): (r: StaffRecord)
    ensures r.id == id && r.team == data.team && r.createdBy == data.createdBy && r.fields == data.fields
    ensures r.bank == data.bank
    ensures r.bankName == if data.bank.Some? then "" else data.bankName
  {
    if data.bank.Some? then Created(id, data).(bank := data.bank, bankName := "") else Created(id, data)
  }

  /** What `StaffSerializer.create` returns or raises. */
  function StaffOutcome(id: int, data: StaffData): (r: Result<StaffRecord>)
    ensures r.Err? <==> data.bank.None? && data.bankName == ""
    ensures r.Err? ==> r.error == GotErrorOn(Message(EmptyBankName))
    ensures r.Ok? ==> r.value == StoredStaff(id, data)
  {
    if data.bank.Some? then Ok(StoredStaff(id, data))
    else if data.bankName == "" then Err(GotErrorOn(Message(EmptyBankName)))
    else Ok(StoredStaff(id, data))
  }

  /** Every Staff row returned names a bank one way: a bank with an empty
    * name, or no bank with a name. */
  lemma ReturnedStaffNamesABank(id: int, data: StaffData)
    requires StaffOutcome(id, data).Ok?
    ensures var s := StaffOutcome(id, data).value;
      (s.bank.Some? && s.bankName == "") || (s.bank.None? && s.bankName != "")
  {
  }

  /** The Staff table and its next primary key. */
  class StaffTable {
    var rows: seq<StaffRecord>
    var nextId: int

    constructor(rows0: seq<StaffRecord>, nextId0: int)
      ensures rows == rows0 && nextId == nextId0
    {
      rows := rows0;
      nextId := nextId0;
    }

    /** `StaffSerializer.create`: the row is created first and stays, even
      * when the bank check then raises. */
    method Create(data: StaffData) returns (r: Result<StaffRecord>)
      modifies this
      ensures rows == old(rows) + [StoredStaff(old(nextId), data)]
      ensures nextId == old(nextId) + 1
      ensures r == StaffOutcome(old(nextId), data)
    {
      var instance := Created(nextId, data);
      rows := rows + [instance];
      nextId := nextId + 1;
      if data.bank.Some? {
        instance := instance.(bank := data.bank, bankName := "");
        rows := rows[..|rows| - 1] + [instance];
      } else if instance.bankName == "" {
        return Err(GotErrorOn(Message(EmptyBankName)));
      }
      return Ok(instance);
    }
  }

  /** A staff of the submitted list, with its `team_id`. */
  datatype StaffRef = StaffRef(id: int, team: Option<int>)

  /** The validated data of an Attendance: `teamId` is the URL kwarg
    * `perform_create` passes; `hasLocation` is whether both coordinates
    * were sent. */
  datatype AttendanceData = AttendanceData(teamId: Option<string>, submittedBy: int, date: int,
                                           staffs: seq<StaffRef>, hasLocation: bool)

  datatype AttendanceRecord = AttendanceRecord(id: int, team: int, submittedBy: int, date: int,
                                               staffs: seq<int>, hasLocation: bool)

  /** The loop test on one staff: `int(staff.team_id) !=
    * int(validated_data.get('team_id'))`, each `int` raising on None or on a
    * non-number. */
  function CheckStaff(s: StaffRef, teamId: Option<string>): (r: Option<Error>)
    ensures r.None? <==> s.team.Some? && teamId.Some? && ParseInt(teamId.value) == s.team
  {
    if s.team.None? then Some(Raised)
    else if teamId.None? then Some(Raised)
    else match ParseInt(teamId.value)
      case None => Some(Raised)
      case Some(t) => if s.team.value != t then Some(Message(DifferentTeam)) else None
  }

  /** The first error the loop meets. */
  function CheckStaffs(staffs: seq<StaffRef>, teamId: Option<string>): (r: Option<Error>)
    ensures r.None? <==> forall i :: 0 <= i < |staffs| ==> CheckStaff(staffs[i], teamId).None?
  {
    if staffs == [] then None
    else
      var prev := CheckStaffs(staffs[..|staffs| - 1], teamId);
      if prev.Some? then prev else CheckStaff(staffs[|staffs| - 1], teamId)
  }

  lemma {:induction false} CheckStaffsStops(staffs: seq<StaffRef>, teamId: Option<string>, i: int)
    requires 0 <= i < |staffs| && CheckStaffs(staffs[..i], teamId).None? && CheckStaff(staffs[i], teamId).Some?
    ensures CheckStaffs(staffs, teamId) == CheckStaff(staffs[i], teamId)
  {
    if i < |staffs| - 1 {
      var init := staffs[..|staffs| - 1];
      assert init[..i] == staffs[..i] && init[i] == staffs[i];
      CheckStaffsStops(init, teamId, i);
    } else {
      assert staffs[..i] == staffs[..|staffs| - 1];
    }
  }

  function IdsOf(staffs: seq<StaffRef>): (r: seq<int>)
    ensures |r| == |staffs| && forall i :: 0 <= i < |staffs| ==> r[i] == staffs[i].id
  {
    Map(staffs, (s: StaffRef) => s.id)
  }

  /** What `AttendanceSerializer.create` returns or raises. */
  function AttendanceOutcome(id: int, data: AttendanceData): (r: Result<AttendanceRecord>)
    ensures r.Err? <==> data.staffs == [] || CheckStaffs(data.staffs, data.teamId).Some?
    ensures data.staffs == [] ==> r == Err(GotErrorOn(Message(EmptyStaffs)))
    ensures r.Ok? ==> data.teamId.Some? && ParseInt(data.teamId.value) == Some(r.value.team)
  {
    if data.staffs == [] then Err(GotErrorOn(Message(EmptyStaffs)))
    else match CheckStaffs(data.staffs, data.teamId)
      case Some(e) => Err(GotErrorOn(e))
      case None =>
        assert CheckStaff(data.staffs[0], data.teamId).None?;
        var team := ParseInt(data.teamId.value).value;
        Ok(AttendanceRecord(id, team, data.submittedBy, data.date, IdsOf(data.staffs), data.hasLocation))
  }

  /** Every staff of a created record is in the record's team. */
  lemma AttendanceStaffsShareItsTeam(id: int, data: AttendanceData)
    requires AttendanceOutcome(id, data).Ok?
    ensures var a := AttendanceOutcome(id, data).value;
      |a.staffs| > 0 && forall i :: 0 <= i < |data.staffs| ==> data.staffs[i].team == Some(a.team)
  {
  }

  /** A staff of another team is reported with the message prefixed twice:
    * the loop's own text already starts with it, and the `except` adds it
    * again. */
  lemma ForeignStaffErrorIsWrappedTwice(id: int, data: AttendanceData, t: int, u: int)
    requires data.teamId == Some(IntToString(t)) && u != t
    requires data.staffs == [StaffRef(1, Some(u))]
    ensures AttendanceOutcome(id, data) == Err(GotErrorOn(Message(DifferentTeam)))
  {
    IntToStringParses(t);
    assert data.staffs[..0] == [];
  }

  /** The Attendance table and its next primary key. */
  class AttendanceTable {
    var rows: seq<AttendanceRecord>
    var nextId: int

    constructor(rows0: seq<AttendanceRecord>, nextId0: int)
      ensures rows == rows0 && nextId == nextId0
    {
      rows := rows0;
      nextId := nextId0;
    }

    /** `AttendanceSerializer.create`: the staff checks run first, and the
      * row is written only when they pass. */
    method Create(data: AttendanceData) returns (r: Result<AttendanceRecord>)
      modifies this
      ensures r == AttendanceOutcome(old(nextId), data)
      ensures r.Ok? ==> rows == old(rows) + [r.value] && nextId == old(nextId) + 1
      ensures r.Err? ==> rows == old(rows) && nextId == old(nextId)
    {
      if data.staffs == [] {
        return Err(GotErrorOn(Message(EmptyStaffs)));
      }
      var i := 0;
      while i < |data.staffs|
        invariant 0 <= i <= |data.staffs|
        invariant CheckStaffs(data.staffs[..i], data.teamId).None?
        invariant rows == old(rows) && nextId == old(nextId)
      {
        var e := CheckStaff(data.staffs[i], data.teamId);
        if e.Some? {
          CheckStaffsStops(data.staffs, data.teamId, i);
          return Err(GotErrorOn(e.value));
        }
        assert data.staffs[..i + 1][..i] == data.staffs[..i];
        i := i + 1;
      }
      assert data.staffs[..i] == data.staffs;
      var team := ParseInt(data.teamId.value).value;
      var instance := AttendanceRecord(nextId, team, data.submittedBy, data.date, IdsOf(data.staffs), data.hasLocation);
      rows := rows + [instance];
      nextId := nextId + 1;
      return Ok(instance);
    }
  }
}

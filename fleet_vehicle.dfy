/**
 * The TRASAS extension of the fleet vehicle: its own state next to the
 * fleet's kanban stage (`state_id`), kept in step in both directions
 * through the stages' XML ids; the document and usage checks that guard
 * entering `ready` and `in_use`; the state actions; the periodic
 * maintenance date and the daily maintenance reminder.
 */
module FleetVehicle {
  import opened Common
  import opened FleetLegalDocument

  // ---------------------------------------------------------------------
  // Calendar dates (the maintenance date is a month offset)
  // ---------------------------------------------------------------------

  /** A date of the proleptic Gregorian calendar. */
  datatype CivilDate = CivilDate(year: int, month: int, day: int)

  predicate IsLeap(y: int) {
    (y % 4 == 0 && y % 100 != 0) || y % 400 == 0
  }

  function DaysInMonth(y: int, m: int): (n: int)
    requires 1 <= m <= 12
    ensures 28 <= n <= 31
  {
    if m == 2 then (if IsLeap(y) then 29 else 28)
    else if m == 4 || m == 6 || m == 9 || m == 11 then 30
    else 31
  }

  predicate ValidCivil(c: CivilDate) {
    1 <= c.month <= 12 && 1 <= c.day <= DaysInMonth(c.year, c.month)
  }

  /** The day number of 1 March of year `y` (the start of the March-based year `y`), offset by 719468. */
  function MarchStart(y: int): int {
    var era := y / 400;
    var yoe := y - era * 400;
    era * 146097 + yoe * 365 + yoe / 4 - yoe / 100
  }

  /** The day of a March-based year on which a month starts. */
  function MonthOffset(m: int): int {
    var mp := if m > 2 then m - 3 else m + 9;
    (153 * mp + 2) / 5
  }

  /** The day number of a date, counted from 1 January 1970. */
  function DayNumber(c: CivilDate): Day {
    var y := if c.month <= 2 then c.year - 1 else c.year;
    MarchStart(y) + MonthOffset(c.month) + c.day - 1 - 719468
  }

  /** The calendar day after a date. */
  function NextDay(c: CivilDate): (r: CivilDate)
    requires ValidCivil(c)
    ensures ValidCivil(r)
  {
    if c.day < DaysInMonth(c.year, c.month) then CivilDate(c.year, c.month, c.day + 1)
    else if c.month < 12 then CivilDate(c.year, c.month + 1, 1)
    else CivilDate(c.year + 1, 1, 1)
  }

  /** Stepping a count over a multiple of 4 or of 100 adds one to its quotient. */
  lemma QuotientStep(a: int)
    requires 0 <= a
    ensures (a + 1) / 4 - a / 4 == if (a + 1) % 4 == 0 then 1 else 0
    ensures (a + 1) / 100 - a / 100 == if (a + 1) % 100 == 0 then 1 else 0
  {
  }

  /** Whole eras of 400 years change no remainder by 4. */
  lemma EraShift4(era: int, t: int)
    ensures (era * 400 + t) % 4 == t % 4
  {
    assert era * 400 + t == 4 * (era * 100 + t / 4) + t % 4;
  }

  /** Whole eras of 400 years change no remainder by 100. */
  lemma EraShift100(era: int, t: int)
    ensures (era * 400 + t) % 100 == t % 100
  {
    assert era * 400 + t == 100 * (era * 4 + t / 100) + t % 100;
  }

  /** Whole eras of 400 years change no remainder by 400. */
  lemma EraShift400(era: int, t: int)
    ensures (era * 400 + t) % 400 == t % 400
  {
    assert era * 400 + t == 400 * (era * 1 + t / 400) + t % 400;
  }

  /** A March-based year has 366 days when the February that ends it is a leap February, else 365. */
  lemma MarchYearLength(y: int)
    ensures MarchStart(y + 1) - MarchStart(y) == if IsLeap(y + 1) then 366 else 365
  {
    var era := y / 400;
    var yoe := y - era * 400;
    assert 0 <= yoe < 400;
    EraShift4(era, yoe + 1);
    EraShift100(era, yoe + 1);
    EraShift400(era, yoe + 1);
    assert y + 1 == era * 400 + (yoe + 1);
    if yoe == 399 {
      assert (y + 1) / 400 == era + 1;
      assert MarchStart(y + 1) == (era + 1) * 146097;
      assert MarchStart(y) == era * 146097 + 399 * 365 + 99 - 3;
    } else {
      assert (y + 1) / 400 == era;
      assert MarchStart(y + 1) == era * 146097 + (yoe + 1) * 365 + (yoe + 1) / 4 - (yoe + 1) / 100;
      QuotientStep(yoe);
    }
  }

  /** The first day of the next month within one year follows the last day of a month. */
  lemma MonthLengths(m: int)
    requires 1 <= m < 12 && m != 2
    ensures MonthOffset(m + 1) - MonthOffset(m) == DaysInMonth(0, m)
  {
    if m == 1 { } else if m == 3 { } else if m == 4 { } else if m == 5 { } else if m == 6 { }
    else if m == 7 { } else if m == 8 { } else if m == 9 { } else if m == 10 { } else { }
  }

  /** Day numbers count calendar days: the day after a date has the next day number, across months and years. */
  lemma DayNumberNextDay(c: CivilDate)
    requires ValidCivil(c)
    ensures DayNumber(NextDay(c)) == DayNumber(c) + 1
  {
    if c.day == DaysInMonth(c.year, c.month) {
      var m := c.month;
      if m == 2 {
        MarchYearLength(c.year - 1);
      } else if m == 12 {
        assert MonthOffset(1) - MonthOffset(12) == 31;
      } else {
        MonthLengths(m);
        assert DaysInMonth(0, m) == DaysInMonth(c.year, m);
      }
    }
  }

  /**
   * `date + relativedelta(months=n)`: the same day n months later, clipped
   * to the last day of a shorter month.
   */
  function AddMonths(c: CivilDate, n: nat): (r: CivilDate)
    ensures 1 <= r.month <= 12
    ensures r.year * 12 + r.month == c.year * 12 + c.month + n
    ensures r.day == if c.day <= DaysInMonth(r.year, r.month) then c.day else DaysInMonth(r.year, r.month)
    ensures c.day >= 1 ==> ValidCivil(r)
  {
    var m0 := c.month - 1 + n;
    var y := c.year + m0 / 12;
    var m := m0 % 12 + 1;
    var last := DaysInMonth(y, m);
    CivilDate(y, m, if c.day <= last then c.day else last)
  }

  // ---------------------------------------------------------------------
  // States and their stages
  // ---------------------------------------------------------------------

  /**
   * The keys of the state-to-stage table. `maintenance` and `repair` have
   * stages but are not values of the state selection.
   */
  datatype StateKey =
    | VDraft | VReady | VInUse | VRegistration | VMaintenance | VRepair | VExpired | VSuspended | VLiquidated

  /** The values the state field accepts. */
  predicate Selectable(k: StateKey) {
    k != VMaintenance && k != VRepair
  }

  /** `STATE_TO_XMLID`. */
  function StateXmlid(k: StateKey): string {
    match k
    case VDraft => "fleet.fleet_vehicle_state_new_request"
    case VReady => "trasas_fleet_management.fleet_vehicle_state_trasas_ready"
    case VInUse => "fleet.fleet_vehicle_state_registered"
    case VRegistration => "trasas_fleet_management.fleet_vehicle_state_trasas_registration"
    case VMaintenance => "trasas_fleet_management.fleet_vehicle_state_trasas_maintenance"
    case VRepair => "trasas_fleet_management.fleet_vehicle_state_trasas_repair"
    case VExpired => "trasas_fleet_management.fleet_vehicle_state_trasas_expired"
    case VSuspended => "trasas_fleet_management.fleet_vehicle_state_trasas_suspended"
    case VLiquidated => "trasas_fleet_management.fleet_vehicle_state_trasas_liquidated"
  }

  /** The reversed table `{v: k for k, v in STATE_TO_XMLID.items()}`. */
  function XmlidToState(x: string): Option<StateKey> {
    if x == StateXmlid(VDraft) then Some(VDraft)
    else if x == StateXmlid(VReady) then Some(VReady)
    else if x == StateXmlid(VInUse) then Some(VInUse)
    else if x == StateXmlid(VRegistration) then Some(VRegistration)
    else if x == StateXmlid(VMaintenance) then Some(VMaintenance)
    else if x == StateXmlid(VRepair) then Some(VRepair)
    else if x == StateXmlid(VExpired) then Some(VExpired)
    else if x == StateXmlid(VSuspended) then Some(VSuspended)
    else if x == StateXmlid(VLiquidated) then Some(VLiquidated)
    else None
  }

  /** The table is injective, so reversing it loses nothing. */
  lemma XmlidRoundTrip(k: StateKey)
    ensures XmlidToState(StateXmlid(k)) == Some(k)
  {
  }

  /** The reversed table only answers for XML ids of the table. */
  lemma XmlidToStateSound(x: string)
    ensures XmlidToState(x).Some? ==> StateXmlid(XmlidToState(x).value) == x
  {
  }

  /**
   * The XML-id registry: `env.ref` (`refs`) and the XML id `get_metadata`
   * reports for a stage record (`xmlidOf`).
   */
  datatype Registry = Registry(refs: map<string, nat>, xmlidOf: map<nat, string>)

  /** The two directions of the registry agree. */
  predicate Consistent(reg: Registry) {
    (forall x :: x in reg.refs ==> reg.refs[x] in reg.xmlidOf && reg.xmlidOf[reg.refs[x]] == x) &&
    (forall id :: id in reg.xmlidOf ==> reg.xmlidOf[id] in reg.refs && reg.refs[reg.xmlidOf[id]] == id)
  }

  /** `_sync_state_id`: the stage record of a state, when its XML id resolves. */
  function SyncStateId(k: StateKey, reg: Registry): (id: Option<nat>)
    ensures id.Some? <==> StateXmlid(k) in reg.refs
    ensures Consistent(reg) && id.Some? ==> id.value in reg.xmlidOf && XmlidToState(reg.xmlidOf[id.value]) == Some(k)
  {
    if StateXmlid(k) in reg.refs then Some(reg.refs[StateXmlid(k)]) else None
  }

  /** `_sync_state_from_id`: the state of a stage record, when its XML id is in the table. */
  function SyncStateFromId(id: Option<nat>, reg: Registry): (k: Option<StateKey>)
    ensures k.Some? ==> id.Some? && id.value in reg.xmlidOf && StateXmlid(k.value) == reg.xmlidOf[id.value]
    ensures id.None? ==> k.None?
  {
    if id.None? || id.value !in reg.xmlidOf then None else XmlidToState(reg.xmlidOf[id.value])
  }

  /** Going from a state to its stage and back gives the state again. */
  lemma SyncRoundTrip(k: StateKey, reg: Registry)
    requires Consistent(reg) && SyncStateId(k, reg).Some?
    ensures SyncStateFromId(SyncStateId(k, reg), reg) == Some(k)
  {
    XmlidRoundTrip(k);
  }

  /** A state and a stage agree when the stage is the state's own. */
  predicate Synced(state: StateKey, stateId: Option<nat>, reg: Registry) {
    stateId == SyncStateId(state, reg)
  }

  /** Going from a stage to its state and back gives the stage again. */
  lemma SyncFromIdRoundTrip(id: nat, reg: Registry)
    requires Consistent(reg) && SyncStateFromId(Some(id), reg).Some?
    ensures Synced(SyncStateFromId(Some(id), reg).value, Some(id), reg)
  {
    XmlidToStateSound(reg.xmlidOf[id]);
  }

  // ---------------------------------------------------------------------
  // Mandatory documents
  // ---------------------------------------------------------------------

  /** The documents a vehicle needs before it is ready, in the order they are checked. */
  const RequiredTypes: seq<FleetDocType> := [Registration, Inspection, Insurance]

  datatype Problem = Absent | NoAttachment | Lapsed

  datatype Missing = Missing(docType: FleetDocType, problem: Problem)

  predicate HasType(docs: seq<DocView>, t: FleetDocType) {
    exists i :: 0 <= i < |docs| && docs[i].documentType == t
  }

  predicate HasAttached(docs: seq<DocView>, t: FleetDocType) {
    exists i :: 0 <= i < |docs| && docs[i].documentType == t && docs[i].hasAttachments
  }

  /** A copy without a validity date, or valid until today or later. */
  predicate Current(d: DocView, today: Day) {
    d.validityDate.None? || d.validityDate.value >= today
  }

  predicate HasCurrent(docs: seq<DocView>, t: FleetDocType, today: Day) {
    exists i :: 0 <= i < |docs| && docs[i].documentType == t && Current(docs[i], today)
  }

  /** The problems reported for one required type. */
  function MissingFor(docs: seq<DocView>, t: FleetDocType, today: Day): seq<Missing> {
    if !HasType(docs, t) then [Missing(t, Absent)]
    else (if HasAttached(docs, t) then [] else [Missing(t, NoAttachment)]) +
         (if HasCurrent(docs, t, today) then [] else [Missing(t, Lapsed)])
  }

  function MissingDocuments(docs: seq<DocView>, today: Day): seq<Missing> {
    MissingFor(docs, Registration, today) + MissingFor(docs, Inspection, today) + MissingFor(docs, Insurance, today)
  }

  /**
   * Nothing is reported exactly when each required type has a copy with an
   * attachment and a copy still valid (not necessarily the same one).
   */
  lemma NothingMissingIff(docs: seq<DocView>, today: Day)
    ensures MissingDocuments(docs, today) == [] <==>
      forall t :: t in RequiredTypes ==> HasAttached(docs, t) && HasCurrent(docs, t, today)
  {
    forall t | t in RequiredTypes
      ensures MissingFor(docs, t, today) == [] <==> HasAttached(docs, t) && HasCurrent(docs, t, today)
    {
      if HasAttached(docs, t) {
        var i :| 0 <= i < |docs| && docs[i].documentType == t && docs[i].hasAttachments;
        assert HasType(docs, t);
      }
    }
  }

  /** `_check_mandatory_documents`, which collects every problem before raising. */
  method CheckMandatoryDocuments(docs: seq<DocView>, today: Day) returns (missing: seq<Missing>)
    ensures missing == MissingDocuments(docs, today)
  {
    missing := [];
    var k := 0;
    while k < |RequiredTypes|
      invariant 0 <= k <= |RequiredTypes|
      invariant missing == if k == 0 then [] else if k == 1 then MissingFor(docs, Registration, today)
        else if k == 2 then MissingFor(docs, Registration, today) + MissingFor(docs, Inspection, today)
        else MissingDocuments(docs, today)
    {
      var t := RequiredTypes[k];
      var found := false;
      var attached := false;
      var current := false;
      var i := 0;
      while i < |docs|
        invariant 0 <= i <= |docs|
        invariant found <==> exists j :: 0 <= j < i && docs[j].documentType == t
        invariant attached <==> exists j :: 0 <= j < i && docs[j].documentType == t && docs[j].hasAttachments
        invariant current <==> exists j :: 0 <= j < i && docs[j].documentType == t && Current(docs[j], today)
      {
        if docs[i].documentType == t {
          found := true;
          if docs[i].hasAttachments {
            attached := true;
          }
          if docs[i].validityDate.None? || docs[i].validityDate.value >= today {
            current := true;
          }
        }
        i := i + 1;
      }
      if !found {
        missing := missing + [Missing(t, Absent)];
      } else {
        if !attached {
          missing := missing + [Missing(t, NoAttachment)];
        }
        if !current {
          missing := missing + [Missing(t, Lapsed)];
        }
      }
      k := k + 1;
    }
  }

  // ---------------------------------------------------------------------
  // Writes
  // ---------------------------------------------------------------------

  datatype MaintenanceType = Every3 | Every6 | Every12

  function Months(t: MaintenanceType): nat {
    match t
    case Every3 => 3
    case Every6 => 6
    case Every12 => 12
  }

  /** `_compute_next_maintenance_date`: the start of use plus the maintenance period. */
  function NextMaintenanceDate(start: Option<CivilDate>, t: Option<MaintenanceType>): (r: Option<CivilDate>)
    ensures r.Some? <==> start.Some? && t.Some?
    ensures r.Some? ==> r.value == AddMonths(start.value, Months(t.value))
  {
    if start.Some? && t.Some? then Some(AddMonths(start.value, Months(t.value))) else None
  }

  /** The fields a write names: None for a field it leaves out. */
  datatype Vals = Vals(state: Option<StateKey>, stateId: Option<Option<nat>>,
                       startUseDate: Option<Option<CivilDate>>, maintenanceType: Option<Option<MaintenanceType>>,
                       active: Option<bool>)

  /** A write of the state alone. */
  function StateVals(k: StateKey): Vals {
    Vals(Some(k), None, None, None, None)
  }

  /**
   * The first part of `write`: a state written without a stage brings its
   * stage, a stage written without a state brings its state, and a write
   * naming both, or neither, is left as it is.
   */
  function DeriveVals(v: Vals, reg: Registry): (w: Vals)
    ensures w.startUseDate == v.startUseDate && w.maintenanceType == v.maintenanceType && w.active == v.active
    ensures v.state.Some? ==> w.state == v.state
    ensures v.stateId.Some? ==> w.stateId == v.stateId
    ensures v.state.Some? && v.stateId.None? ==>
      w.stateId == (if SyncStateId(v.state.value, reg).Some? then Some(SyncStateId(v.state.value, reg)) else None)
    ensures v.stateId.Some? && v.state.None? ==> w.state == SyncStateFromId(v.stateId.value, reg)
    ensures v.state.None? && v.stateId.None? ==> w == v
  {
    if v.state.Some? && v.stateId.None? then
      match SyncStateId(v.state.value, reg)
      case Some(id) => v.(stateId := Some(Some(id)))
      case None => v
    else if v.stateId.Some? && v.state.None? then
      match SyncStateFromId(v.stateId.value, reg)
      case Some(k) => v.(state := Some(k))
      case None => v
    else v
  }

  /** The fields of a vehicle the model keeps. */
  datatype VehicleData = VehicleData(state: StateKey, stateId: Option<nat>, startUseDate: Option<CivilDate>,
                                     maintenanceType: Option<MaintenanceType>, nextMaintenanceDate: Option<CivilDate>,
                                     active: bool)

  datatype WriteOutcome =
    | Written
    | Skipped                            // an action that passes over a vehicle in the wrong state
    | DocumentsMissing(missing: seq<Missing>)
    | UseDataMissing                     // no start-of-use date or no maintenance period
    | NotSelectable(key: StateKey)       // the state written is not a value of the selection
    | MustSuspendFirst

  /** The values a write stores, the maintenance date recomputed. */
  function Stored(d: VehicleData, v: Vals): (e: VehicleData)
    ensures e.nextMaintenanceDate == NextMaintenanceDate(e.startUseDate, e.maintenanceType)
  {
    var start := if v.startUseDate.Some? then v.startUseDate.value else d.startUseDate;
    var mtype := if v.maintenanceType.Some? then v.maintenanceType.value else d.maintenanceType;
    VehicleData(if v.state.Some? then v.state.value else d.state,
                if v.stateId.Some? then v.stateId.value else d.stateId,
                start, mtype, NextMaintenanceDate(start, mtype),
                if v.active.Some? then v.active.value else d.active)
  }

  /**
   * `write` on one vehicle: the derived values, then, unless the context
   * skips validation, the document check on entering `ready` and the usage
   * check on entering `in_use`, then the store.
   */
  function ApplyWrite(d: VehicleData, vals: Vals, skip: bool, reg: Registry, docs: seq<DocView>, today: Day)
    : (WriteOutcome, VehicleData)
  {
    var v := DeriveVals(vals, reg);
    var e := Stored(d, v);
    if !skip && v.state == Some(VReady) && d.state != VReady && MissingDocuments(docs, today) != [] then
      (DocumentsMissing(MissingDocuments(docs, today)), d)
    else if !skip && v.state == Some(VInUse) && d.state != VInUse && (e.startUseDate.None? || e.maintenanceType.None?) then
      (UseDataMissing, d)
    else if v.state.Some? && !Selectable(v.state.value) then
      (NotSelectable(v.state.value), d)
    else (Written, e)
  }

  /** A write that fails changes nothing; one that succeeds keeps the state selectable. */
  lemma ApplyWriteOutcomes(d: VehicleData, vals: Vals, skip: bool, reg: Registry, docs: seq<DocView>, today: Day)
    requires Selectable(d.state)
    ensures var (r, e) := ApplyWrite(d, vals, skip, reg, docs, today);
      (r != Written ==> e == d) && Selectable(e.state) &&
      e.nextMaintenanceDate == (if r == Written then NextMaintenanceDate(e.startUseDate, e.maintenanceType)
                                else d.nextMaintenanceDate)
  {
  }

  /** Unless validation is skipped, a vehicle only becomes ready with its documents in order. */
  lemma ReadyNeedsDocuments(d: VehicleData, vals: Vals, reg: Registry, docs: seq<DocView>, today: Day)
    requires d.state != VReady
    requires ApplyWrite(d, vals, false, reg, docs, today).1.state == VReady
    ensures ApplyWrite(d, vals, false, reg, docs, today).0 == Written
    ensures forall t :: t in RequiredTypes ==> HasAttached(docs, t) && HasCurrent(docs, t, today)
  {
    NothingMissingIff(docs, today);
  }

  /**
   * Unless validation is skipped, a vehicle only comes into use with a
   * start date and a maintenance period, and so with a maintenance date.
   */
  lemma InUseNeedsUseData(d: VehicleData, vals: Vals, reg: Registry, docs: seq<DocView>, today: Day)
    requires d.state != VInUse
    requires ApplyWrite(d, vals, false, reg, docs, today).1.state == VInUse
    ensures var e := ApplyWrite(d, vals, false, reg, docs, today).1;
      e.startUseDate.Some? && e.maintenanceType.Some? && e.nextMaintenanceDate.Some?
  {
  }

  /**
   * With a complete, consistent registry, a write naming only the state, or
   * only a stage that belongs to the table, leaves state and stage in step.
   */
  lemma WriteKeepsStageInStep(d: VehicleData, vals: Vals, skip: bool, reg: Registry, docs: seq<DocView>, today: Day)
    requires Consistent(reg) && forall k :: StateXmlid(k) in reg.refs
    requires (vals.state.Some? && vals.stateId.None?) ||
             (vals.state.None? && vals.stateId.Some? && SyncStateFromId(vals.stateId.value, reg).Some?)
    requires ApplyWrite(d, vals, skip, reg, docs, today).0 == Written
    ensures var e := ApplyWrite(d, vals, skip, reg, docs, today).1; Synced(e.state, e.stateId, reg)
  {
    if vals.state.None? {
      SyncFromIdRoundTrip(vals.stateId.value.value, reg);
    }
  }

  // ---------------------------------------------------------------------
  // The record
  // ---------------------------------------------------------------------

  class Vehicle {
    const id: nat
    var vehicleCode: string
    var state: StateKey
    var stateId: Option<nat>
    var startUseDate: Option<CivilDate>
    var maintenanceType: Option<MaintenanceType>
    var nextMaintenanceDate: Option<CivilDate>
    var active: bool

    function Data(): VehicleData
      reads this
    {
      VehicleData(state, stateId, startUseDate, maintenanceType, nextMaintenanceDate, active)
    }

    /** The selection only holds its own values, and the stored maintenance date is current. */
    ghost predicate Valid()
      reads this
    {
      Selectable(state) && nextMaintenanceDate == NextMaintenanceDate(startUseDate, maintenanceType)
    }

    constructor (id: nat, code: string, state: StateKey, stateId: Option<nat>,
                 startUseDate: Option<CivilDate>, maintenanceType: Option<MaintenanceType>)
      requires Selectable(state)
      ensures Valid() && active
      ensures this.id == id && vehicleCode == code && this.state == state && this.stateId == stateId
      ensures this.startUseDate == startUseDate && this.maintenanceType == maintenanceType
    {
      this.id := id;
      vehicleCode := code;
      this.state := state;
      this.stateId := stateId;
      this.startUseDate := startUseDate;
      this.maintenanceType := maintenanceType;
      nextMaintenanceDate := NextMaintenanceDate(startUseDate, maintenanceType);
      active := true;
    }

    /** `write`, with the vehicle's legal documents as `docs`. */
    method Write(vals: Vals, skip: bool, reg: Registry, docs: seq<DocView>, today: Day) returns (r: WriteOutcome)
      requires Valid()
      modifies this
      ensures Valid()
      ensures (r, Data()) == ApplyWrite(old(Data()), vals, skip, reg, docs, today)
      ensures vehicleCode == old(vehicleCode)
    {
      var v := Derive(vals, reg);
      if !skip {
        if v.state == Some(VReady) && state != VReady {
          var missing := CheckMandatoryDocuments(docs, today);
          if missing != [] {
            return DocumentsMissing(missing);
          }
        }
        if v.state == Some(VInUse) && state != VInUse {
          var start := if v.startUseDate.Some? then v.startUseDate.value else startUseDate;
          var mtype := if v.maintenanceType.Some? then v.maintenanceType.value else maintenanceType;
          if start.None? || mtype.None? {
            return UseDataMissing;
          }
        }
      }
      if v.state.Some? && !Selectable(v.state.value) {
        return NotSelectable(v.state.value);
      }
      Store(v);
      r := Written;
    }

    /** The state and stage of a write, each filled in from the other when only one is given. */
    static method Derive(vals: Vals, reg: Registry) returns (v: Vals)
      ensures v == DeriveVals(vals, reg)
    {
      v := vals;
      if v.state.Some? && v.stateId.None? {
        var synced := SyncStateId(v.state.value, reg);
        if synced.Some? {
          v := v.(stateId := Some(synced));
        }
      } else if v.stateId.Some? && v.state.None? {
        var newState := SyncStateFromId(v.stateId.value, reg);
        if newState.Some? {
          v := v.(state := newState);
        }
      }
    }

    /** The store: the fields `v` names, then the recomputed maintenance date. */
    method Store(v: Vals)
      modifies this
      ensures Data() == Stored(old(Data()), v)
      ensures vehicleCode == old(vehicleCode)
    {
      if v.state.Some? { state := v.state.value; }
      if v.stateId.Some? { stateId := v.stateId.value; }
      if v.startUseDate.Some? { startUseDate := v.startUseDate.value; }
      if v.maintenanceType.Some? { maintenanceType := v.maintenanceType.value; }
      if v.active.Some? { active := v.active.value; }
      nextMaintenanceDate := NextMaintenanceDate(startUseDate, maintenanceType);
    }

    /** `_onchange_state_id_trasas`: a stage in the table sets the state shown. */
    method OnchangeStateId(reg: Registry) returns (r: WriteOutcome)
      requires Valid()
      modifies this`state
      ensures Valid()
      ensures var k := SyncStateFromId(old(stateId), reg);
        (k.Some? && Selectable(k.value) ==> r == Written && state == k.value) &&
        (k.Some? && !Selectable(k.value) ==> r == NotSelectable(k.value) && state == old(state)) &&
        (k.None? ==> r == Skipped && state == old(state))
    {
      if stateId.Some? {
        var newState := SyncStateFromId(stateId, reg);
        if newState.Some? {
          if !Selectable(newState.value) {
            return NotSelectable(newState.value);
          }
          state := newState.value;
          return Written;
        }
      }
      r := Skipped;
    }

    /** A state action that passes over vehicles not in `from`. */
    method Advance(from: StateKey, to: StateKey, skip: bool, reg: Registry, docs: seq<DocView>, today: Day)
      returns (r: WriteOutcome)
      requires Valid()
      modifies this
      ensures Valid()
      ensures old(state) != from ==> r == Skipped && unchanged(this)
      ensures old(state) == from ==> (r, Data()) == ApplyWrite(old(Data()), StateVals(to), skip, reg, docs, today)
    {
      if state != from {
        return Skipped;
      }
      r := Write(StateVals(to), skip, reg, docs, today);
    }

    /** `action_to_registration`: new to registration. */
    method ActionToRegistration(skip: bool, reg: Registry, docs: seq<DocView>, today: Day) returns (r: WriteOutcome)
      requires Valid()
      modifies this
      ensures Valid()
      ensures old(state) != VDraft ==> r == Skipped && unchanged(this)
      ensures old(state) == VDraft ==> (r, Data()) == ApplyWrite(old(Data()), StateVals(VRegistration), skip, reg, docs, today)
    {
      r := Advance(VDraft, VRegistration, skip, reg, docs, today);
    }

    /** `action_set_ready`: registration to ready, through the document check of `write`. */
    method ActionSetReady(skip: bool, reg: Registry, docs: seq<DocView>, today: Day) returns (r: WriteOutcome)
      requires Valid()
      modifies this
      ensures Valid()
      ensures old(state) != VRegistration ==> r == Skipped && unchanged(this)
      ensures old(state) == VRegistration ==> (r, Data()) == ApplyWrite(old(Data()), StateVals(VReady), skip, reg, docs, today)
    {
      r := Advance(VRegistration, VReady, skip, reg, docs, today);
    }

    /** `action_start_using`: ready to in use, through the usage check of `write`. */
    method ActionStartUsing(skip: bool, reg: Registry, docs: seq<DocView>, today: Day) returns (r: WriteOutcome)
      requires Valid()
      modifies this
      ensures Valid()
      ensures old(state) != VReady ==> r == Skipped && unchanged(this)
      ensures old(state) == VReady ==> (r, Data()) == ApplyWrite(old(Data()), StateVals(VInUse), skip, reg, docs, today)
    {
      r := Advance(VReady, VInUse, skip, reg, docs, today);
    }

    /** `action_suspend`, from any state. */
    method ActionSuspend(skip: bool, reg: Registry, docs: seq<DocView>, today: Day) returns (r: WriteOutcome)
      requires Valid()
      modifies this
      ensures Valid()
      ensures (r, Data()) == ApplyWrite(old(Data()), StateVals(VSuspended), skip, reg, docs, today)
    {
      r := Write(StateVals(VSuspended), skip, reg, docs, today);
    }

    /** `action_liquidate`: only a suspended vehicle, which is archived as it is liquidated. */
    method ActionLiquidate(skip: bool, reg: Registry, docs: seq<DocView>, today: Day) returns (r: WriteOutcome)
      requires Valid()
      modifies this
      ensures Valid()
      ensures old(state) != VSuspended ==> r == MustSuspendFirst && unchanged(this)
      ensures old(state) == VSuspended ==>
        (r, Data()) == ApplyWrite(old(Data()), Vals(Some(VLiquidated), None, None, None, Some(false)), skip, reg, docs, today)
      ensures r == Written ==> state == VLiquidated && !active
    {
      if state != VSuspended {
        return MustSuspendFirst;
      }
      r := Write(Vals(Some(VLiquidated), None, None, None, Some(false)), skip, reg, docs, today);
    }
  }

  /** `create`'s code: a missing code is drawn from the vehicle sequence, `/` when it yields nothing. */
  function CreateCode(given: string, drawn: string): (code: string)
    ensures given != "" ==> code == given
    ensures given == "" ==> code == (if drawn != "" then drawn else "/")
    ensures code != ""
  {
    if given != "" then given else if drawn != "" then drawn else "/"
  }

  /**
   * `create`'s stage: the stage of the given state (draft by default)
   * whenever it resolves, even over a stage given with it.
   */
  function CreateStateId(state: Option<StateKey>, givenStateId: Option<nat>, reg: Registry): (id: Option<nat>)
    ensures var k := if state.Some? then state.value else VDraft;
      (SyncStateId(k, reg).Some? ==> Synced(k, id, reg)) &&
      (SyncStateId(k, reg).None? ==> id == givenStateId)
  {
    var synced := SyncStateId(if state.Some? then state.value else VDraft, reg);
    if synced.Some? then synced else givenStateId
  }

  /** An active vehicle, neither liquidated nor expired, five days before its maintenance date. */
  predicate DueForReminder(v: Vehicle, today: CivilDate)
    reads v
  {
    v.active && v.state != VLiquidated && v.state != VExpired &&
    v.nextMaintenanceDate.Some? && DayNumber(today) == DayNumber(v.nextMaintenanceDate.value) - 5
  }

  /**
   * `_cron_check_deadlines`: the vehicles due a maintenance reminder today,
   * five days before their maintenance date. The search skips archived,
   * liquidated and expired vehicles.
   */
  method CronCheckDeadlines(vehicles: seq<Vehicle>, today: CivilDate) returns (due: seq<Vehicle>)
    ensures forall v :: v in due <==> v in vehicles && DueForReminder(v, today)
  {
    due := [];
    var k := 0;
    while k < |vehicles|
      invariant 0 <= k <= |vehicles|
      invariant forall v :: v in due <==> v in vehicles[..k] && DueForReminder(v, today)
    {
      var v := vehicles[k];
      if v.active && v.state != VLiquidated && v.state != VExpired && v.nextMaintenanceDate.Some? {
        if DayNumber(today) == DayNumber(v.nextMaintenanceDate.value) - 5 {
          due := due + [v];
        }
      }
      assert vehicles[..k + 1] == vehicles[..k] + [v];
      k := k + 1;
    }
    assert vehicles[..k] == vehicles;
  }
}

/**
 * The maintenance-scheduling registry: inspection and repair tasks for a
 * building (and optionally one inventory item).  Any caller may set a task's
 * status to any value, complete it or cancel it; no status ordering is
 * enforced and no owner is checked.
 */
module MaintenanceRegistry {
  import opened Common

  const STATUS_SCHEDULED: int := 1
  const STATUS_IN_PROGRESS: int := 2
  const STATUS_COMPLETED: int := 3
  const STATUS_CANCELLED: int := 4

  const TYPE_INSPECTION: int := 1
  const TYPE_REPAIR: int := 2

  datatype MaintenanceRecord = MaintenanceRecord(
    buildingId: int,
    inventoryId: Option<int>,
    maintenanceType: int,
    description: string,
    scheduledDate: Timestamp,
    status: int,
    assignedTo: string,
    completionDate: Option<Timestamp>,
    notes: Option<string>)

  /** The registry state: the last id handed out and the records by id. */
  datatype Registry = Registry(lastMaintenanceId: nat, maintenanceRecords: map<int, MaintenanceRecord>)

  /** Every stored id was handed out by the counter. */
  ghost predicate WellFormed(r: Registry) {
    IdsIssued(r.maintenanceRecords, r.lastMaintenanceId)
  }

  /** A fresh registry, as the state is before any call. */
  function Empty(): (r: Registry)
    ensures WellFormed(r) && r.lastMaintenanceId == 0 && r.maintenanceRecords == map[]
  {
    Registry(0, map[])
  }

  /** Schedules a task under the next id: status scheduled, no completion date, no notes. */
  function Schedule(r: Registry, buildingId: int, inventoryId: Option<int>, maintenanceType: int,
                    description: string, scheduledDate: Timestamp, assignedTo: string): (s: Step<Registry, nat>)
    ensures s.result == Success(r.lastMaintenanceId + 1)
    ensures s.after.lastMaintenanceId == s.result.value
    ensures WellFormed(r) ==> WellFormed(s.after) && s.result.value !in r.maintenanceRecords
    ensures s.after.maintenanceRecords - {s.result.value} == r.maintenanceRecords - {s.result.value}
    ensures s.result.value in s.after.maintenanceRecords
    ensures var m := s.after.maintenanceRecords[s.result.value];
      m.buildingId == buildingId && m.inventoryId == inventoryId && m.maintenanceType == maintenanceType &&
      m.description == description && m.scheduledDate == scheduledDate && m.assignedTo == assignedTo &&
      m.status == STATUS_SCHEDULED && m.completionDate == None && m.notes == None
  {
    var newId := r.lastMaintenanceId + 1;
    var m := MaintenanceRecord(buildingId, inventoryId, maintenanceType, description, scheduledDate,
                               STATUS_SCHEDULED, assignedTo, None, None);
    Step(Registry(newId, r.maintenanceRecords[newId := m]), Success(newId))
  }

  /** Sets task `id`'s status to `newStatus`, whatever the current status is. */
  function SetStatus(r: Registry, id: int, newStatus: int): (s: Step<Registry, bool>)
    ensures id !in r.maintenanceRecords ==> s == Step(r, Failure(NotFound))
    ensures id in r.maintenanceRecords ==>
      && s.result == Success(true)
      && s.after.lastMaintenanceId == r.lastMaintenanceId
      && s.after.maintenanceRecords - {id} == r.maintenanceRecords - {id}
      && id in s.after.maintenanceRecords
      && s.after.maintenanceRecords[id].status == newStatus
      && s.after.maintenanceRecords[id].(status := r.maintenanceRecords[id].status) == r.maintenanceRecords[id]
  {
    if id !in r.maintenanceRecords then Step(r, Failure(NotFound))
    else
      var m := r.maintenanceRecords[id].(status := newStatus);
      Step(r.(maintenanceRecords := r.maintenanceRecords[id := m]), Success(true))
  }

  /** Marks task `id` completed at `now`, with `notes`. */
  function Complete(r: Registry, id: int, notes: string, now: Timestamp): (s: Step<Registry, bool>)
    ensures id !in r.maintenanceRecords ==> s == Step(r, Failure(NotFound))
    ensures id in r.maintenanceRecords ==>
      && s.result == Success(true)
      && s.after.lastMaintenanceId == r.lastMaintenanceId
      && s.after.maintenanceRecords - {id} == r.maintenanceRecords - {id}
      && id in s.after.maintenanceRecords
      && var m, was := s.after.maintenanceRecords[id], r.maintenanceRecords[id];
      && m.status == STATUS_COMPLETED && m.completionDate == Some(now) && m.notes == Some(notes)
      && m.(status := was.status, completionDate := was.completionDate, notes := was.notes) == was
  {
    if id !in r.maintenanceRecords then Step(r, Failure(NotFound))
    else
      var m := r.maintenanceRecords[id].(status := STATUS_COMPLETED, completionDate := Some(now),
                                         notes := Some(notes));
      Step(r.(maintenanceRecords := r.maintenanceRecords[id := m]), Success(true))
  }

  /** Marks task `id` cancelled, with `notes`; its completion date is left as it is. */
  function Cancel(r: Registry, id: int, notes: string): (s: Step<Registry, bool>)
    ensures id !in r.maintenanceRecords ==> s == Step(r, Failure(NotFound))
    ensures id in r.maintenanceRecords ==>
      && s.result == Success(true)
      && s.after.lastMaintenanceId == r.lastMaintenanceId
      && s.after.maintenanceRecords - {id} == r.maintenanceRecords - {id}
      && id in s.after.maintenanceRecords
      && var m, was := s.after.maintenanceRecords[id], r.maintenanceRecords[id];
      && m.status == STATUS_CANCELLED && m.notes == Some(notes) && m.completionDate == was.completionDate
      && m.(status := was.status, notes := was.notes) == was
  {
    if id !in r.maintenanceRecords then Step(r, Failure(NotFound))
    else
      var m := r.maintenanceRecords[id].(status := STATUS_CANCELLED, notes := Some(notes));
      Step(r.(maintenanceRecords := r.maintenanceRecords[id := m]), Success(true))
  }

  /** A task scheduled and then cancelled, never completed, has no completion date. */
  lemma CancelWithoutCompletion(r: Registry, buildingId: int, inventoryId: Option<int>, maintenanceType: int,
                                description: string, scheduledDate: Timestamp, assignedTo: string,
                                notes: string)
    ensures var s := Schedule(r, buildingId, inventoryId, maintenanceType, description, scheduledDate,
                              assignedTo);
      var c := Cancel(s.after, s.result.value, notes);
      && c.result == Success(true)
      && c.after.maintenanceRecords[s.result.value].status == STATUS_CANCELLED
      && c.after.maintenanceRecords[s.result.value].completionDate == None
  {
  }

  /** One call to the registry. */
  datatype Op =
    | ScheduleOp(buildingId: int, inventoryId: Option<int>, maintenanceType: int, description: string,
                 scheduledDate: Timestamp, assignedTo: string)
    | SetStatusOp(id: int, newStatus: int)
    | CompleteOp(id: int, notes: string, now: Timestamp)
    | CancelOp(id: int, notes: string)

  /** Applies one call. */
  function Apply(r: Registry, op: Op): (r': Registry)
  {
    match op
    case ScheduleOp(buildingId, inventoryId, maintenanceType, description, scheduledDate, assignedTo) =>
      Schedule(r, buildingId, inventoryId, maintenanceType, description, scheduledDate, assignedTo).after
    case SetStatusOp(id, newStatus) => SetStatus(r, id, newStatus).after
    case CompleteOp(id, notes, now) => Complete(r, id, notes, now).after
    case CancelOp(id, notes) => Cancel(r, id, notes).after
  }

  /** The registry after a sequence of calls. */
  function Run(r: Registry, ops: seq<Op>): (r': Registry)
    decreases |ops|
  {
    if ops == [] then r else Run(Apply(r, ops[0]), ops[1..])
  }

  /**
   * Tasks are never deleted, and only a completion of task `id` can change
   * its completion date: over any run that does not complete `id`, the date
   * stays what it was (in particular, null stays null).
   */
  lemma {:induction false} CompletionDateOnlyByComplete(r: Registry, ops: seq<Op>, id: int)
    requires WellFormed(r)
    requires id in r.maintenanceRecords
    requires forall i :: 0 <= i < |ops| ==> !(ops[i].CompleteOp? && ops[i].id == id)
    ensures WellFormed(Run(r, ops))
    ensures r.maintenanceRecords.Keys <= Run(r, ops).maintenanceRecords.Keys
    ensures Run(r, ops).maintenanceRecords[id].completionDate == r.maintenanceRecords[id].completionDate
    decreases |ops|
  {
    if ops != [] {
      var r1 := Apply(r, ops[0]);
      assert WellFormed(r1) && r.maintenanceRecords.Keys <= r1.maintenanceRecords.Keys;
      assert r1.maintenanceRecords[id].completionDate == r.maintenanceRecords[id].completionDate;
      assert forall i :: 0 <= i < |ops[1..]| ==> ops[1..][i] == ops[i + 1];
      CompletionDateOnlyByComplete(r1, ops[1..], id);
    }
  }

  /** The registry object, with the counter and the map the host keeps between calls. */
  class MaintenanceContract {
    var lastMaintenanceId: nat
    var maintenanceRecords: map<int, MaintenanceRecord>

    /** The registry value this object holds. */
    function State(): Registry
      reads this
    {
      Registry(lastMaintenanceId, maintenanceRecords)
    }

    ghost predicate Valid()
      reads this
    {
      WellFormed(State())
    }

    constructor ()
      ensures Valid() && State() == Empty()
    {
      lastMaintenanceId := 0;
      maintenanceRecords := map[];
    }

    method ScheduleMaintenance(buildingId: int, inventoryId: Option<int>, maintenanceType: int,
                               description: string, scheduledDate: Timestamp, assignedTo: string)
      returns (res: Result<nat>)
      requires Valid()
      modifies this
      ensures Valid()
      ensures var s := Schedule(old(State()), buildingId, inventoryId, maintenanceType, description,
                                scheduledDate, assignedTo);
        State() == s.after && res == s.result
    {
      var newId := lastMaintenanceId + 1;
      lastMaintenanceId := newId;
      maintenanceRecords := maintenanceRecords[newId := MaintenanceRecord(
        buildingId, inventoryId, maintenanceType, description, scheduledDate, STATUS_SCHEDULED, assignedTo,
        None, None)];
      res := Success(newId);
    }

    method GetMaintenanceRecord(id: int) returns (record: Option<MaintenanceRecord>)
      ensures record.Some? <==> id in maintenanceRecords
      ensures record.Some? ==> record.value == maintenanceRecords[id]
    {
      if id in maintenanceRecords {
        record := Some(maintenanceRecords[id]);
      } else {
        record := None;
      }
    }

    method UpdateMaintenanceStatus(id: int, newStatus: int) returns (res: Result<bool>)
      requires Valid()
      modifies this
      ensures Valid()
      ensures var s := SetStatus(old(State()), id, newStatus);
        State() == s.after && res == s.result
    {
      if id !in maintenanceRecords {
        return Failure(NotFound);
      }
      var record := maintenanceRecords[id];
      maintenanceRecords := maintenanceRecords[id := record.(status := newStatus)];
      res := Success(true);
    }

    method CompleteMaintenance(id: int, notes: string, now: Timestamp) returns (res: Result<bool>)
      requires Valid()
      modifies this
      ensures Valid()
      ensures var s := Complete(old(State()), id, notes, now);
        State() == s.after && res == s.result
    {
      if id !in maintenanceRecords {
        return Failure(NotFound);
      }
      var record := maintenanceRecords[id];
      maintenanceRecords := maintenanceRecords[id := record.(status := STATUS_COMPLETED,
                                                             completionDate := Some(now),
                                                             notes := Some(notes))];
      res := Success(true);
    }

    method CancelMaintenance(id: int, notes: string) returns (res: Result<bool>)
      requires Valid()
      modifies this
      ensures Valid()
      ensures var s := Cancel(old(State()), id, notes);
        State() == s.after && res == s.result
    {
      if id !in maintenanceRecords {
        return Failure(NotFound);
      }
      var record := maintenanceRecords[id];
      maintenanceRecords := maintenanceRecords[id := record.(status := STATUS_CANCELLED, notes := Some(notes))];
      res := Success(true);
    }
  }
}

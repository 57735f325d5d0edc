/**
 * The water-usage registry: meter readings and leak alerts per building,
 * each kind with its own counter and its own map.  Readings are never
 * changed once stored; an alert can only be marked resolved.
 */
module WaterUsageRegistry {
  import opened Common

  /** The reader recorded when the caller supplies none. */
  const DEFAULT_READER: Principal := "default-reader"

  const ALERT_ACTIVE: int := 1
  const ALERT_RESOLVED: int := 2

  datatype WaterReading = WaterReading(
    buildingId: int,
    timestamp: Timestamp,
    meterReading: int,
    reader: Principal)

  datatype LeakAlert = LeakAlert(
    buildingId: int,
    detectedAt: Timestamp,
    consumptionRate: int,
    threshold: int,
    status: int)

  /** The registry state: a counter and a map for readings, and another pair for alerts. */
  datatype Registry = Registry(
    lastReadingId: nat,
    waterReadings: map<int, WaterReading>,
    leakAlerts: map<int, LeakAlert>,
    lastAlertId: nat)

  /** Every stored reading id and alert id was handed out by its own counter. */
  ghost predicate WellFormed(r: Registry) {
    IdsIssued(r.waterReadings, r.lastReadingId) && IdsIssued(r.leakAlerts, r.lastAlertId)
  }

  /** A fresh registry, as the state is before any call. */
  function Empty(): (r: Registry)
    ensures WellFormed(r) && r.lastReadingId == 0 && r.lastAlertId == 0
    ensures r.waterReadings == map[] && r.leakAlerts == map[]
  {
    Registry(0, map[], map[], 0)
  }

  /**
   * Stores a reading under the next reading id, taken at `now` (the host's
   * clock) by `sender`.  `None` means the sender argument was omitted or
   * `undefined`, and the default reader is recorded; an explicit `null`
   * sender is not modelled.  The alert side is not touched.
   */
  function AddReading(r: Registry, buildingId: int, meterReading: int, sender: Option<Principal>,
                      now: Timestamp): (s: Step<Registry, nat>)
    ensures s.result == Success(r.lastReadingId + 1)
    ensures s.after.lastReadingId == s.result.value
    ensures s.after.lastAlertId == r.lastAlertId && s.after.leakAlerts == r.leakAlerts
    ensures WellFormed(r) ==> WellFormed(s.after) && s.result.value !in r.waterReadings
    ensures s.after.waterReadings - {s.result.value} == r.waterReadings - {s.result.value}
    ensures s.result.value in s.after.waterReadings
    ensures var w := s.after.waterReadings[s.result.value];
      && w.buildingId == buildingId && w.meterReading == meterReading && w.timestamp == now
      && w.reader == (if sender.Some? then sender.value else DEFAULT_READER)
  {
    var newId := r.lastReadingId + 1;
    var reader := match sender case Some(p) => p case None => DEFAULT_READER;
    var w := WaterReading(buildingId, now, meterReading, reader);
    Step(r.(lastReadingId := newId, waterReadings := r.waterReadings[newId := w]), Success(newId))
  }

  /** Raises an active alert, detected at `now`, under the next alert id.  Readings are not touched. */
  function CreateAlert(r: Registry, buildingId: int, consumptionRate: int, threshold: int,
                       now: Timestamp): (s: Step<Registry, nat>)
    ensures s.result == Success(r.lastAlertId + 1)
    ensures s.after.lastAlertId == s.result.value
    ensures s.after.lastReadingId == r.lastReadingId && s.after.waterReadings == r.waterReadings
    ensures WellFormed(r) ==> WellFormed(s.after) && s.result.value !in r.leakAlerts
    ensures s.after.leakAlerts - {s.result.value} == r.leakAlerts - {s.result.value}
    ensures s.result.value in s.after.leakAlerts
    ensures var a := s.after.leakAlerts[s.result.value];
      && a.buildingId == buildingId && a.detectedAt == now && a.consumptionRate == consumptionRate
      && a.threshold == threshold && a.status == ALERT_ACTIVE
  {
    var newId := r.lastAlertId + 1;
    var a := LeakAlert(buildingId, now, consumptionRate, threshold, ALERT_ACTIVE);
    Step(r.(lastAlertId := newId, leakAlerts := r.leakAlerts[newId := a]), Success(newId))
  }

  /** Marks alert `id` resolved, whatever its status was. */
  function ResolveAlert(r: Registry, id: int): (s: Step<Registry, bool>)
    ensures id !in r.leakAlerts ==> s == Step(r, Failure(NotFound))
    ensures id in r.leakAlerts ==>
      && s.result == Success(true)
      && s.after.lastAlertId == r.lastAlertId
      && s.after.lastReadingId == r.lastReadingId && s.after.waterReadings == r.waterReadings
      && s.after.leakAlerts - {id} == r.leakAlerts - {id}
      && id in s.after.leakAlerts
      && s.after.leakAlerts[id].status == ALERT_RESOLVED
      && s.after.leakAlerts[id].(status := r.leakAlerts[id].status) == r.leakAlerts[id]
  {
    if id !in r.leakAlerts then Step(r, Failure(NotFound))
    else
      var a := r.leakAlerts[id].(status := ALERT_RESOLVED);
      Step(r.(leakAlerts := r.leakAlerts[id := a]), Success(true))
  }

  /** Resolving twice succeeds both times and the second call changes nothing. */
  lemma ResolveIdempotent(r: Registry, id: int)
    requires ResolveAlert(r, id).result.Success?
    ensures var s := ResolveAlert(r, id);
      ResolveAlert(s.after, id) == s.(result := Success(true))
  {
    var s := ResolveAlert(r, id);
    assert s.after.leakAlerts[id := s.after.leakAlerts[id]] == s.after.leakAlerts;
  }

  /** One call to the registry. */
  datatype Op =
    | AddReadingOp(buildingId: int, meterReading: int, sender: Option<Principal>, now: Timestamp)
    | CreateAlertOp(buildingId: int, consumptionRate: int, threshold: int, now: Timestamp)
    | ResolveAlertOp(id: int)

  /** Applies one call. */
  function Apply(r: Registry, op: Op): (r': Registry)
  {
    match op
    case AddReadingOp(buildingId, meterReading, sender, now) =>
      AddReading(r, buildingId, meterReading, sender, now).after
    case CreateAlertOp(buildingId, consumptionRate, threshold, now) =>
      CreateAlert(r, buildingId, consumptionRate, threshold, now).after
    case ResolveAlertOp(id) =>
      ResolveAlert(r, id).after
  }

  /** The registry after a sequence of calls. */
  function Run(r: Registry, ops: seq<Op>): (r': Registry)
    decreases |ops|
  {
    if ops == [] then r else Run(Apply(r, ops[0]), ops[1..])
  }

  /**
   * Readings are immutable: over any run, every reading already stored is
   * still stored, unchanged; and the alert side never changes the reading
   * counter.
   */
  lemma {:induction false} ReadingsNeverChange(r: Registry, ops: seq<Op>)
    requires WellFormed(r)
    ensures WellFormed(Run(r, ops))
    ensures r.lastReadingId <= Run(r, ops).lastReadingId
    ensures forall id :: id in r.waterReadings ==>
      id in Run(r, ops).waterReadings && Run(r, ops).waterReadings[id] == r.waterReadings[id]
    decreases |ops|
  {
    if ops != [] {
      var r1 := Apply(r, ops[0]);
      assert WellFormed(r1) && r.lastReadingId <= r1.lastReadingId;
      assert forall id :: id in r.waterReadings ==> id in r1.waterReadings && r1.waterReadings[id] == r.waterReadings[id];
      ReadingsNeverChange(r1, ops[1..]);
    }
  }

  /**
   * Once resolved, an alert stays resolved: over any run, an alert whose
   * status is resolved is still present and still resolved.
   */
  lemma {:induction false} ResolvedStaysResolved(r: Registry, ops: seq<Op>, id: int)
    requires WellFormed(r)
    requires id in r.leakAlerts && r.leakAlerts[id].status == ALERT_RESOLVED
    ensures id in Run(r, ops).leakAlerts && Run(r, ops).leakAlerts[id].status == ALERT_RESOLVED
    decreases |ops|
  {
    if ops != [] {
      var r1 := Apply(r, ops[0]);
      assert WellFormed(r1) && id in r1.leakAlerts && r1.leakAlerts[id].status == ALERT_RESOLVED;
      ResolvedStaysResolved(r1, ops[1..], id);
    }
  }

  /** The registry object, with the two counters and two maps the host keeps between calls. */
  class WaterUsageContract {
    var lastReadingId: nat
    var waterReadings: map<int, WaterReading>
    var leakAlerts: map<int, LeakAlert>
    var lastAlertId: nat

    /** The registry value this object holds. */
    function State(): Registry
      reads this
    {
      Registry(lastReadingId, waterReadings, leakAlerts, lastAlertId)
    }

    ghost predicate Valid()
      reads this
    {
      WellFormed(State())
    }

    constructor ()
      ensures Valid() && State() == Empty()
    {
      lastReadingId := 0;
      waterReadings := map[];
      leakAlerts := map[];
      lastAlertId := 0;
    }

    method AddWaterReading(buildingId: int, meterReading: int, sender: Option<Principal>, now: Timestamp)
      returns (res: Result<nat>)
      requires Valid()
      modifies this
      ensures Valid()
      ensures var s := AddReading(old(State()), buildingId, meterReading, sender, now);
        State() == s.after && res == s.result
    {
      var reader := if sender.Some? then sender.value else DEFAULT_READER;
      var newId := lastReadingId + 1;
      lastReadingId := newId;
      waterReadings := waterReadings[newId := WaterReading(buildingId, now, meterReading, reader)];
      res := Success(newId);
    }

    method GetWaterReading(id: int) returns (reading: Option<WaterReading>)
      ensures reading.Some? <==> id in waterReadings
      ensures reading.Some? ==> reading.value == waterReadings[id]
    {
      if id in waterReadings {
        reading := Some(waterReadings[id]);
      } else {
        reading := None;
      }
    }

    method CreateLeakAlert(buildingId: int, consumptionRate: int, threshold: int, now: Timestamp)
      returns (res: Result<nat>)
      requires Valid()
      modifies this
      ensures Valid()
      ensures var s := CreateAlert(old(State()), buildingId, consumptionRate, threshold, now);
        State() == s.after && res == s.result
    {
      var newId := lastAlertId + 1;
      lastAlertId := newId;
      leakAlerts := leakAlerts[newId := LeakAlert(buildingId, now, consumptionRate, threshold, ALERT_ACTIVE)];
      res := Success(newId);
    }

    method GetLeakAlert(id: int) returns (alert: Option<LeakAlert>)
      ensures alert.Some? <==> id in leakAlerts
      ensures alert.Some? ==> alert.value == leakAlerts[id]
    {
      if id in leakAlerts {
        alert := Some(leakAlerts[id]);
      } else {
        alert := None;
      }
    }

    method ResolveLeakAlert(id: int) returns (res: Result<bool>)
      requires Valid()
      modifies this
      ensures Valid()
      ensures var s := ResolveAlert(old(State()), id);
        State() == s.after && res == s.result
    {
      if id !in leakAlerts {
        return Failure(NotFound);
      }
      var alert := leakAlerts[id];
      leakAlerts := leakAlerts[id := alert.(status := ALERT_RESOLVED)];
      res := Success(true);
    }
  }
}

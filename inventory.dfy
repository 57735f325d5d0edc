/**
 * The system-inventory registry: plumbing fixtures and equipment, each tied
 * (by an unchecked building id) to a building.  Any caller may add, edit,
 * stamp a maintenance date on, or remove an item; there is no owner.
 */
module InventoryRegistry {
  import opened Common

  /** Fixture kinds used for `itemType`; any other number is stored as given. */
  const FIXTURE_TYPE_SINK: int := 1
  const FIXTURE_TYPE_TOILET: int := 2
  const FIXTURE_TYPE_WATER_HEATER: int := 4

  datatype InventoryItem = InventoryItem(
    buildingId: int,
    itemType: int,
    description: string,
    location: string,
    installationDate: Timestamp,
    manufacturer: string,
    model: string,
    lastMaintenanceDate: Option<Timestamp>)

  /** The registry state: the last id handed out and the items by id. */
  datatype Registry = Registry(lastInventoryId: nat, inventoryItems: map<int, InventoryItem>)

  /** Every stored id was handed out by the counter. */
  ghost predicate WellFormed(r: Registry) {
    IdsIssued(r.inventoryItems, r.lastInventoryId)
  }

  /** A fresh registry, as the state is before any call. */
  function Empty(): (r: Registry)
    ensures WellFormed(r) && r.lastInventoryId == 0 && r.inventoryItems == map[]
  {
    Registry(0, map[])
  }

  /** Adds an item, never yet maintained, under the next id. */
  function Add(r: Registry, buildingId: int, itemType: int, description: string, location: string,
               installationDate: Timestamp, manufacturer: string, model: string): (s: Step<Registry, nat>)
    ensures s.result == Success(r.lastInventoryId + 1)
    ensures s.after.lastInventoryId == s.result.value
    ensures WellFormed(r) ==> WellFormed(s.after) && s.result.value !in r.inventoryItems
    ensures s.after.inventoryItems - {s.result.value} == r.inventoryItems - {s.result.value}
    ensures s.result.value in s.after.inventoryItems
    ensures var it := s.after.inventoryItems[s.result.value];
      it.buildingId == buildingId && it.itemType == itemType && it.description == description &&
      it.location == location && it.installationDate == installationDate &&
      it.manufacturer == manufacturer && it.model == model && it.lastMaintenanceDate == None
  {
    var newId := r.lastInventoryId + 1;
    var item := InventoryItem(buildingId, itemType, description, location, installationDate,
                              manufacturer, model, None);
    Step(Registry(newId, r.inventoryItems[newId := item]), Success(newId))
  }

  /** Replaces the descriptive fields of item `id`. */
  function UpdateItem(r: Registry, id: int, description: string, location: string, manufacturer: string,
                      model: string): (s: Step<Registry, bool>)
    ensures id !in r.inventoryItems ==> s == Step(r, Failure(NotFound))
    ensures id in r.inventoryItems ==>
      && s.result == Success(true)
      && s.after.lastInventoryId == r.lastInventoryId
      && s.after.inventoryItems - {id} == r.inventoryItems - {id}
      && id in s.after.inventoryItems
      && var it, was := s.after.inventoryItems[id], r.inventoryItems[id];
      && it.description == description && it.location == location
      && it.manufacturer == manufacturer && it.model == model
      && it.buildingId == was.buildingId && it.itemType == was.itemType
      && it.installationDate == was.installationDate && it.lastMaintenanceDate == was.lastMaintenanceDate
  {
    if id !in r.inventoryItems then Step(r, Failure(NotFound))
    else
      var it := r.inventoryItems[id].(description := description, location := location,
                                      manufacturer := manufacturer, model := model);
      Step(r.(inventoryItems := r.inventoryItems[id := it]), Success(true))
  }

  /** Records `date` as item `id`'s last maintenance date. */
  function SetMaintenanceDate(r: Registry, id: int, date: Timestamp): (s: Step<Registry, bool>)
    ensures id !in r.inventoryItems ==> s == Step(r, Failure(NotFound))
    ensures id in r.inventoryItems ==>
      && s.result == Success(true)
      && s.after.lastInventoryId == r.lastInventoryId
      && s.after.inventoryItems - {id} == r.inventoryItems - {id}
      && id in s.after.inventoryItems
      && s.after.inventoryItems[id].lastMaintenanceDate == Some(date)
      && s.after.inventoryItems[id].(lastMaintenanceDate := r.inventoryItems[id].lastMaintenanceDate)
         == r.inventoryItems[id]
  {
    if id !in r.inventoryItems then Step(r, Failure(NotFound))
    else
      var it := r.inventoryItems[id].(lastMaintenanceDate := Some(date));
      Step(r.(inventoryItems := r.inventoryItems[id := it]), Success(true))
  }

  /** Deletes item `id`; the counter is left as it is. */
  function Remove(r: Registry, id: int): (s: Step<Registry, bool>)
    ensures id !in r.inventoryItems ==> s == Step(r, Failure(NotFound))
    ensures id in r.inventoryItems ==>
      && s.result == Success(true)
      && s.after.lastInventoryId == r.lastInventoryId
      && s.after.inventoryItems.Keys == r.inventoryItems.Keys - {id}
      && s.after.inventoryItems - {id} == r.inventoryItems - {id}
    ensures WellFormed(r) ==> WellFormed(s.after)
  {
    if id !in r.inventoryItems then Step(r, Failure(NotFound))
    else Step(r.(inventoryItems := r.inventoryItems - {id}), Success(true))
  }

  /**
   * Removing an item makes it unknown: a second removal, an edit or a
   * maintenance stamp on the same id all fail with NotFound and change nothing.
   */
  lemma RemovedItemIsGone(r: Registry, id: int, description: string, location: string,
                          manufacturer: string, model: string, date: Timestamp)
    requires Remove(r, id).result.Success?
    ensures var r' := Remove(r, id).after;
      && id !in r'.inventoryItems
      && Remove(r', id) == Step(r', Failure(NotFound))
      && UpdateItem(r', id, description, location, manufacturer, model) == Step(r', Failure(NotFound))
      && SetMaintenanceDate(r', id, date) == Step(r', Failure(NotFound))
  {
  }

  /** After a removal, the next item added never receives the removed id. */
  lemma RemovedIdNotReused(r: Registry, id: int, buildingId: int, itemType: int, description: string,
                           location: string, installationDate: Timestamp, manufacturer: string, model: string)
    requires WellFormed(r)
    requires Remove(r, id).result.Success?
    ensures Add(Remove(r, id).after, buildingId, itemType, description, location, installationDate,
                manufacturer, model).result.value > id
  {
  }

  /** One call to the registry. */
  datatype Op =
    | AddOp(buildingId: int, itemType: int, description: string, location: string,
            installationDate: Timestamp, manufacturer: string, model: string)
    | UpdateItemOp(id: int, description: string, location: string, manufacturer: string, model: string)
    | SetMaintenanceDateOp(id: int, date: Timestamp)
    | RemoveOp(id: int)

  /** Applies one call. */
  function Apply(r: Registry, op: Op): (r': Registry)
  {
    match op
    case AddOp(buildingId, itemType, description, location, installationDate, manufacturer, model) =>
      Add(r, buildingId, itemType, description, location, installationDate, manufacturer, model).after
    case UpdateItemOp(id, description, location, manufacturer, model) =>
      UpdateItem(r, id, description, location, manufacturer, model).after
    case SetMaintenanceDateOp(id, date) =>
      SetMaintenanceDate(r, id, date).after
    case RemoveOp(id) =>
      Remove(r, id).after
  }

  /** Runs a sequence of calls; yields the final registry and the ids returned by the additions, in order. */
  function Run(r: Registry, ops: seq<Op>): (out: (Registry, seq<nat>))
    decreases |ops|
  {
    if ops == [] then (r, [])
    else
      var rest := Run(Apply(r, ops[0]), ops[1..]);
      match ops[0]
      case AddOp(buildingId, itemType, description, location, installationDate, manufacturer, model) =>
        var id := Add(r, buildingId, itemType, description, location, installationDate,
                      manufacturer, model).result.value;
        (rest.0, [id] + rest.1)
      case _ => rest
  }

  /**
   * Over any sequence of calls, removals included, the additions receive the
   * consecutive ids following the counter, so an id is never handed out
   * twice, and never one that was in use (or removed) before the run.
   */
  lemma {:induction false} RunNeverReusesIds(r: Registry, ops: seq<Op>)
    requires WellFormed(r)
    ensures var (r', ids) := Run(r, ops);
      && WellFormed(r')
      && r'.lastInventoryId == r.lastInventoryId + |ids|
      && (forall i :: 0 <= i < |ids| ==> ids[i] == r.lastInventoryId + 1 + i)
      && (forall i, k :: 0 <= i < |ids| && k in r.inventoryItems ==> k < ids[i])
    decreases |ops|
  {
    if ops != [] {
      var r1 := Apply(r, ops[0]);
      assert WellFormed(r1);
      RunNeverReusesIds(r1, ops[1..]);
      if ops[0].AddOp? {
        assert r1.lastInventoryId == r.lastInventoryId + 1;
      } else {
        assert r1.lastInventoryId == r.lastInventoryId;
      }
    }
  }

  /** The registry object, with the counter and the map the host keeps between calls. */
  class InventoryContract {
    var lastInventoryId: nat
    var inventoryItems: map<int, InventoryItem>

    /** The registry value this object holds. */
    function State(): Registry
      reads this
    {
      Registry(lastInventoryId, inventoryItems)
    }

    ghost predicate Valid()
      reads this
    {
      WellFormed(State())
    }

    constructor ()
      ensures Valid() && State() == Empty()
    {
      lastInventoryId := 0;
      inventoryItems := map[];
    }

    method AddInventoryItem(buildingId: int, itemType: int, description: string, location: string,
                            installationDate: Timestamp, manufacturer: string, model: string)
      returns (res: Result<nat>)
      requires Valid()
      modifies this
      ensures Valid()
      ensures var s := Add(old(State()), buildingId, itemType, description, location, installationDate,
                           manufacturer, model);
        State() == s.after && res == s.result
    {
      var newId := lastInventoryId + 1;
      lastInventoryId := newId;
      inventoryItems := inventoryItems[newId := InventoryItem(buildingId, itemType, description, location,
                                                              installationDate, manufacturer, model, None)];
      res := Success(newId);
    }

    method GetInventoryItem(id: int) returns (item: Option<InventoryItem>)
      ensures item.Some? <==> id in inventoryItems
      ensures item.Some? ==> item.value == inventoryItems[id]
    {
      if id in inventoryItems {
        item := Some(inventoryItems[id]);
      } else {
        item := None;
      }
    }

    method UpdateInventoryItem(id: int, description: string, location: string, manufacturer: string,
                               model: string) returns (res: Result<bool>)
      requires Valid()
      modifies this
      ensures Valid()
      ensures var s := UpdateItem(old(State()), id, description, location, manufacturer, model);
        State() == s.after && res == s.result
    {
      if id !in inventoryItems {
        return Failure(NotFound);
      }
      var item := inventoryItems[id];
      inventoryItems := inventoryItems[id := item.(description := description, location := location,
                                                   manufacturer := manufacturer, model := model)];
      res := Success(true);
    }

    method UpdateMaintenanceDate(id: int, maintenanceDate: Timestamp) returns (res: Result<bool>)
      requires Valid()
      modifies this
      ensures Valid()
      ensures var s := SetMaintenanceDate(old(State()), id, maintenanceDate);
        State() == s.after && res == s.result
    {
      if id !in inventoryItems {
        return Failure(NotFound);
      }
      var item := inventoryItems[id];
      inventoryItems := inventoryItems[id := item.(lastMaintenanceDate := Some(maintenanceDate))];
      res := Success(true);
    }

    method RemoveInventoryItem(id: int) returns (res: Result<bool>)
      requires Valid()
      modifies this
      ensures Valid()
      ensures var s := Remove(old(State()), id);
        State() == s.after && res == s.result
    {
      if id !in inventoryItems {
        return Failure(NotFound);
      }
      inventoryItems := inventoryItems - {id};
      res := Success(true);
    }
  }
}

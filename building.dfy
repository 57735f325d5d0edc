/**
 * The building registry: buildings keyed by an auto-incremented id, each
 * owned by the principal that registered it.  Only the owner may update a
 * building's details or hand it over to another owner.
 */
module BuildingRegistry {
  import opened Common

  datatype Building = Building(
    name: string,
    address: string,
    owner: Principal,
    yearBuilt: int,
    totalFloors: int,
    registrationDate: Timestamp)

  /** The registry state: the last id handed out and the buildings by id. */
  datatype Registry = Registry(lastBuildingId: nat, buildings: map<int, Building>)

  /** Every stored id was handed out by the counter. */
  ghost predicate WellFormed(r: Registry) {
    IdsIssued(r.buildings, r.lastBuildingId)
  }

  /** A fresh registry, as the state is before any call. */
  function Empty(): (r: Registry)
    ensures WellFormed(r) && r.lastBuildingId == 0 && r.buildings == map[]
  {
    Registry(0, map[])
  }

  /** Registers a building owned by `sender`, stamped with `now`, under the next id. */
  function Register(r: Registry, name: string, address: string, yearBuilt: int, totalFloors: int,
                    sender: Principal, now: Timestamp): (s: Step<Registry, nat>)
    ensures s.result == Success(r.lastBuildingId + 1)
    ensures s.after.lastBuildingId == s.result.value
    ensures WellFormed(r) ==> WellFormed(s.after) && s.result.value !in r.buildings
    ensures s.after.buildings - {s.result.value} == r.buildings - {s.result.value}
    ensures s.result.value in s.after.buildings
    ensures var b := s.after.buildings[s.result.value];
      b.name == name && b.address == address && b.owner == sender &&
      b.yearBuilt == yearBuilt && b.totalFloors == totalFloors && b.registrationDate == now
  {
    var newId := r.lastBuildingId + 1;
    var b := Building(name, address, sender, yearBuilt, totalFloors, now);
    Step(Registry(newId, r.buildings[newId := b]), Success(newId))
  }

  /**
   * The authorization guard shared by update and transfer: an unknown id is
   * NotFound, whoever asks; a known id asked for by anyone but its owner is
   * Unauthorized.
   */
  function Authorize(r: Registry, id: int, sender: Principal): (e: Option<ErrorCode>)
    ensures e == Some(NotFound) <==> id !in r.buildings
    ensures e == Some(Unauthorized) <==> id in r.buildings && r.buildings[id].owner != sender
    ensures e == None <==> id in r.buildings && r.buildings[id].owner == sender
  {
    if id !in r.buildings then Some(NotFound)
    else if r.buildings[id].owner != sender then Some(Unauthorized)
    else None
  }

  /** Replaces the descriptive fields of building `id`, when `sender` owns it. */
  function Update(r: Registry, id: int, name: string, address: string, yearBuilt: int, totalFloors: int,
                  sender: Principal): (s: Step<Registry, bool>)
    ensures Authorize(r, id, sender).Some? ==>
      s == Step(r, Failure(Authorize(r, id, sender).value))
    ensures Authorize(r, id, sender).None? ==>
      && s.result == Success(true)
      && s.after.lastBuildingId == r.lastBuildingId
      && s.after.buildings - {id} == r.buildings - {id}
      && id in s.after.buildings
      && var b, old_b := s.after.buildings[id], r.buildings[id];
      && b.name == name && b.address == address && b.yearBuilt == yearBuilt && b.totalFloors == totalFloors
      && b.owner == old_b.owner && b.registrationDate == old_b.registrationDate
  {
    match Authorize(r, id, sender)
    case Some(e) => Step(r, Failure(e))
    case None =>
      var b := r.buildings[id].(name := name, address := address, yearBuilt := yearBuilt,
                                totalFloors := totalFloors);
      Step(r.(buildings := r.buildings[id := b]), Success(true))
  }

  /** Hands building `id` over to `newOwner`, when `sender` owns it. */
  function Transfer(r: Registry, id: int, newOwner: Principal, sender: Principal): (s: Step<Registry, bool>)
    ensures Authorize(r, id, sender).Some? ==>
      s == Step(r, Failure(Authorize(r, id, sender).value))
    ensures Authorize(r, id, sender).None? ==>
      && s.result == Success(true)
      && s.after.lastBuildingId == r.lastBuildingId
      && s.after.buildings - {id} == r.buildings - {id}
      && id in s.after.buildings
      && s.after.buildings[id].owner == newOwner
      && s.after.buildings[id].(owner := sender) == r.buildings[id]
  {
    match Authorize(r, id, sender)
    case Some(e) => Step(r, Failure(e))
    case None =>
      Step(r.(buildings := r.buildings[id := r.buildings[id].(owner := newOwner)]), Success(true))
  }

  /** An unknown id is reported as NotFound (code 1) by both guarded operations, for every caller. */
  lemma NotFoundBeforeUnauthorized(r: Registry, id: int, name: string, address: string, yearBuilt: int,
                                   totalFloors: int, newOwner: Principal, sender: Principal)
    requires id !in r.buildings
    ensures Update(r, id, name, address, yearBuilt, totalFloors, sender) == Step(r, Failure(NotFound))
    ensures Transfer(r, id, newOwner, sender) == Step(r, Failure(NotFound))
  {
  }

  /**
   * After a transfer, the new owner passes the ownership guard and the old
   * owner (when different) is refused with Unauthorized.
   */
  lemma TransferMovesAuthority(r: Registry, id: int, newOwner: Principal, sender: Principal,
                               name: string, address: string, yearBuilt: int, totalFloors: int)
    requires Transfer(r, id, newOwner, sender).result.Success?
    ensures var r' := Transfer(r, id, newOwner, sender).after;
      && Update(r', id, name, address, yearBuilt, totalFloors, newOwner).result == Success(true)
      && (sender != newOwner ==>
            Update(r', id, name, address, yearBuilt, totalFloors, sender) == Step(r', Failure(Unauthorized)))
  {
  }

  /** One call to the registry, with the caller and clock values the host supplies. */
  datatype Op =
    | RegisterOp(name: string, address: string, yearBuilt: int, totalFloors: int,
                 sender: Principal, now: Timestamp)
    | UpdateOp(id: int, name: string, address: string, yearBuilt: int, totalFloors: int,
               sender: Principal)
    | TransferOp(id: int, newOwner: Principal, sender: Principal)

  /** Applies one call. */
  function Apply(r: Registry, op: Op): (r': Registry)
  {
    match op
    case RegisterOp(name, address, yearBuilt, totalFloors, sender, now) =>
      Register(r, name, address, yearBuilt, totalFloors, sender, now).after
    case UpdateOp(id, name, address, yearBuilt, totalFloors, sender) =>
      Update(r, id, name, address, yearBuilt, totalFloors, sender).after
    case TransferOp(id, newOwner, sender) =>
      Transfer(r, id, newOwner, sender).after
  }

  /** Runs a sequence of calls; yields the final registry and the ids returned by the registrations, in order. */
  function Run(r: Registry, ops: seq<Op>): (out: (Registry, seq<nat>))
    decreases |ops|
  {
    if ops == [] then (r, [])
    else
      var rest := Run(Apply(r, ops[0]), ops[1..]);
      if ops[0].RegisterOp? then
        (rest.0, [Register(r, ops[0].name, ops[0].address, ops[0].yearBuilt, ops[0].totalFloors,
                           ops[0].sender, ops[0].now).result.value] + rest.1)
      else rest
  }

  /**
   * Over any sequence of calls, the registrations receive the consecutive ids
   * following the counter, the counter advances by exactly the number of
   * registrations, and no id already in use is handed out again.
   */
  lemma {:induction false} RunIssuesConsecutiveIds(r: Registry, ops: seq<Op>)
    requires WellFormed(r)
    ensures var (r', ids) := Run(r, ops);
      && WellFormed(r')
      && r'.lastBuildingId == r.lastBuildingId + |ids|
      && (forall i :: 0 <= i < |ids| ==> ids[i] == r.lastBuildingId + 1 + i)
      && (forall i :: 0 <= i < |ids| ==> ids[i] !in r.buildings)
      && r.buildings.Keys <= r'.buildings.Keys
    decreases |ops|
  {
    if ops != [] {
      var r1 := Apply(r, ops[0]);
      assert WellFormed(r1) && r.buildings.Keys <= r1.buildings.Keys;
      RunIssuesConsecutiveIds(r1, ops[1..]);
      if ops[0].RegisterOp? {
        assert r1.lastBuildingId == r.lastBuildingId + 1;
      } else {
        assert r1.lastBuildingId == r.lastBuildingId;
      }
    }
  }

  /** From a fresh registry, the registrations of any run receive ids 1, 2, 3, ... in call order. */
  lemma IdsFromFreshRegistry(ops: seq<Op>)
    ensures var ids := Run(Empty(), ops).1;
      forall i :: 0 <= i < |ids| ==> ids[i] == i + 1
  {
    RunIssuesConsecutiveIds(Empty(), ops);
  }

  /**
   * The end-to-end scenario: "owner1" registers building 1; an update by
   * another caller is refused with code 2; "owner1" transfers it to "owner2",
   * who is then its owner.
   */
  lemma OwnershipScenario(now: Timestamp)
    ensures var s1 := Register(Empty(), "Office Building", "123 Main St", 2010, 5, "owner1", now);
      && s1.result == Success(1)
      && s1.after.buildings[1].owner == "owner1"
      && var s2 := Update(s1.after, 1, "New Name", "New Address", 2012, 6, "unauthorized");
      && s2.result.Failure? && s2.result.error.Code() == 2
      && s2.after.buildings[1].name == "Office Building"
      && var s3 := Transfer(s2.after, 1, "owner2", "owner1");
      && s3.result == Success(true)
      && s3.after.buildings[1].owner == "owner2"
  {
  }

  /** The registry object, with the counter and the map the host keeps between calls. */
  class BuildingContract {
    var lastBuildingId: nat
    var buildings: map<int, Building>

    /** The registry value this object holds. */
    function State(): Registry
      reads this
    {
      Registry(lastBuildingId, buildings)
    }

    ghost predicate Valid()
      reads this
    {
      WellFormed(State())
    }

    constructor ()
      ensures Valid() && State() == Empty()
    {
      lastBuildingId := 0;
      buildings := map[];
    }

    method RegisterBuilding(name: string, address: string, yearBuilt: int, totalFloors: int,
                            sender: Principal, now: Timestamp) returns (res: Result<nat>)
      requires Valid()
      modifies this
      ensures Valid()
      ensures var s := Register(old(State()), name, address, yearBuilt, totalFloors, sender, now);
        State() == s.after && res == s.result
    {
      var newId := lastBuildingId + 1;
      lastBuildingId := newId;
      buildings := buildings[newId := Building(name, address, sender, yearBuilt, totalFloors, now)];
      res := Success(newId);
    }

    method GetBuilding(id: int) returns (b: Option<Building>)
      ensures b.Some? <==> id in buildings
      ensures b.Some? ==> b.value == buildings[id]
    {
      if id in buildings {
        b := Some(buildings[id]);
      } else {
        b := None;
      }
    }

    method UpdateBuilding(id: int, name: string, address: string, yearBuilt: int, totalFloors: int,
                          sender: Principal) returns (res: Result<bool>)
      requires Valid()
      modifies this
      ensures Valid()
      ensures var s := Update(old(State()), id, name, address, yearBuilt, totalFloors, sender);
        State() == s.after && res == s.result
    {
      if id !in buildings {
        return Failure(NotFound);
      }
      var building := buildings[id];
      if building.owner != sender {
        return Failure(Unauthorized);
      }
      buildings := buildings[id := building.(name := name, address := address, yearBuilt := yearBuilt,
                                             totalFloors := totalFloors)];
      res := Success(true);
    }

    method TransferBuilding(id: int, newOwner: Principal, sender: Principal) returns (res: Result<bool>)
      requires Valid()
      modifies this
      ensures Valid()
      ensures var s := Transfer(old(State()), id, newOwner, sender);
        State() == s.after && res == s.result
    {
      if id !in buildings {
        return Failure(NotFound);
      }
      var building := buildings[id];
      if building.owner != sender {
        return Failure(Unauthorized);
      }
      buildings := buildings[id := building.(owner := newOwner)];
      res := Success(true);
    }
  }
}

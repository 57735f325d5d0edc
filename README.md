# Building-management registries, modelled in Dafny

The repository keeps four small registries for commercial plumbing
maintenance. Each is a table of records keyed by an auto-incremented id,
held together with its counter in the state that persists between calls:

- **Building registry** (`building.dfy`, module `BuildingRegistry`). Buildings are owned by the principal that
  registered them. Only the owner may update a building's details or transfer it.
  An unknown id fails with error 1 (not found). A known id asked for by anyone but its owner
  fails with error 2 (unauthorized). The not-found check always comes first.
- **Inventory registry** (`inventory.dfy`, module `InventoryRegistry`). Fixtures are tied to a building id
  that is never checked. Anyone may add, edit, stamp a maintenance date on, or remove an item.
- **Maintenance registry** (`maintenance.dfy`, module `MaintenanceRegistry`). Inspection and repair tasks.
  Their status may be set to any value at any time. Completing a task stamps a completion date;
  cancelling one leaves that date alone.
- **Water-usage registry** (`water.dfy`, module `WaterUsageRegistry`). Meter readings and leak alerts, each with
  its own counter and map. Readings are never changed once stored. Resolving an alert sets its status to 2.

`common.dfy` (module `Common`) holds the shared vocabulary: principals, date values, `Option`
(for JavaScript's `null`, or an omitted argument where a parameter has a default), the two error codes and the
`Success(value)` / `Failure(error)` reply.

Each registry is modelled twice, and the two are tied together:

1. As **values**: a `Registry` datatype (counter(s) and map(s)) and one pure transition function per
   mutating operation, returning `Step(after, result)`. Their contracts state the error cases,
   the fields written and kept, and that no other entry or counter changes. Lemmas about these
   functions state the cross-call properties. Some of them are inductions over any sequence of calls (`Run`):
   ids are consecutive and never reused, readings are immutable, a resolved alert stays resolved,
   and only a completion changes a task's completion date.
2. As **objects**: a class with the source's own fields (`lastBuildingId`, `buildings`, ...). Its methods
   update those fields step by step, as the source does. Each method is proved to leave the object in exactly the state,
   and return exactly the reply, that the transition function gives. Getters are read-only methods.

The clock (`Date.now()`) and the caller (`sender`) are explicit parameters (`now`, `sender`).

## Model

| member | source | states |
|---|---|---|
| `Common.ErrorCode.Code` | tests/building-registration.test.ts:39-40 | NotFound is reported as 1 and Unauthorized as 2, and no other code is used |
| `BuildingRegistry.Empty` | tests/building-registration.test.ts:7-10 | a fresh registry has counter 0, no buildings, and satisfies the id invariant |
| `BuildingRegistry.Register` | tests/building-registration.test.ts:14-31 | replies with id = counter + 1 and advances the counter to it; the id was unused; the invariant is kept; the new record has owner = sender, registration date = clock, and the given name, address, year and floors; no other entry changes |
| `BuildingRegistry.Authorize` | tests/building-registration.test.ts:37-40 | the guard yields NotFound exactly when the id is absent, Unauthorized exactly when present with another owner, and passes exactly when the sender owns it |
| `BuildingRegistry.Update` | tests/building-registration.test.ts:37-51 | on a guard failure the state is unchanged and the error is returned; otherwise success, the four descriptive fields are replaced, owner and registration date kept, counter and other entries unchanged |
| `BuildingRegistry.Transfer` | tests/building-registration.test.ts:53-65 | on a guard failure the state is unchanged and the error is returned; otherwise success and only the owner field of that entry changes, to the new owner |
| `BuildingRegistry.NotFoundBeforeUnauthorized` | tests/building-registration.test.ts:38-40 | for an absent id both update and transfer return NotFound (code 1) and change nothing, whoever the caller is |
| `BuildingRegistry.TransferMovesAuthority` | tests/building-registration.test.ts:53-62 | after a successful transfer the new owner's update succeeds and the previous owner's update (if a different principal) fails with Unauthorized, leaving the state unchanged |
| `BuildingRegistry.RunIssuesConsecutiveIds` | tests/building-registration.test.ts:14-16 | over any sequence of calls, registrations get counter+1, counter+2, ... in order; the counter advances by their number; no id already in use is issued; stored ids are never dropped; the invariant is kept |
| `BuildingRegistry.IdsFromFreshRegistry` | tests/building-registration.test.ts:71-88 | from a fresh registry the registrations of any run receive ids 1, 2, 3, ... |
| `BuildingRegistry.OwnershipScenario` | tests/building-registration.test.ts:121-159 | register by owner1 gives id 1 owned by owner1; an update by another caller fails with code 2 and keeps the name; a transfer by owner1 makes owner2 the owner |
| `BuildingRegistry.BuildingContract.constructor` | tests/building-registration.test.ts:7-10 | a new registry object holds the empty registry |
| `BuildingRegistry.BuildingContract.RegisterBuilding` | tests/building-registration.test.ts:14-31 | the object's new state and reply are those of `Register` on its old state; the invariant is kept |
| `BuildingRegistry.BuildingContract.GetBuilding` | tests/building-registration.test.ts:33-35 | returns the stored building exactly when the id is present, nothing otherwise |
| `BuildingRegistry.BuildingContract.UpdateBuilding` | tests/building-registration.test.ts:37-51 | the object's new state and reply are those of `Update` on its old state |
| `BuildingRegistry.BuildingContract.TransferBuilding` | tests/building-registration.test.ts:53-65 | the object's new state and reply are those of `Transfer` on its old state |
| `InventoryRegistry.Empty` | tests/system-inventory.test.ts:28-31 | a fresh registry has counter 0, no items, and satisfies the id invariant |
| `InventoryRegistry.Add` | tests/system-inventory.test.ts:40-57 | replies with id = counter + 1 and advances the counter; the id was unused; the new item holds exactly the given fields and no maintenance date; no other entry changes |
| `InventoryRegistry.UpdateItem` | tests/system-inventory.test.ts:63-76 | an absent id gives NotFound and no change; otherwise description, location, manufacturer and model are replaced, the building, type, installation date and maintenance date kept, nothing else changes |
| `InventoryRegistry.SetMaintenanceDate` | tests/system-inventory.test.ts:78-88 | an absent id gives NotFound and no change; otherwise only the item's last maintenance date changes, to the given date |
| `InventoryRegistry.Remove` | tests/system-inventory.test.ts:90-98 | an absent id gives NotFound and no change; otherwise exactly that key is deleted, the counter is not decremented, other entries are kept |
| `InventoryRegistry.RemovedItemIsGone` | tests/system-inventory.test.ts:90-98 | after a removal the id is absent, and a second removal, an edit or a maintenance stamp on it each fail with NotFound and change nothing |
| `InventoryRegistry.RemovedIdNotReused` | tests/system-inventory.test.ts:41-42 | the next item added after a removal receives an id greater than the removed one |
| `InventoryRegistry.RunNeverReusesIds` | tests/system-inventory.test.ts:40-98 | over any sequence of calls, removals included, additions get counter+1, counter+2, ... in order, each above every id in use before the run; the invariant is kept |
| `InventoryRegistry.InventoryContract.constructor` | tests/system-inventory.test.ts:28-31 | a new registry object holds the empty registry |
| `InventoryRegistry.InventoryContract.AddInventoryItem` | tests/system-inventory.test.ts:40-57 | the object's new state and reply are those of `Add` on its old state |
| `InventoryRegistry.InventoryContract.GetInventoryItem` | tests/system-inventory.test.ts:59-61 | returns the stored item exactly when the id is present, nothing otherwise |
| `InventoryRegistry.InventoryContract.UpdateInventoryItem` | tests/system-inventory.test.ts:63-76 | the object's new state and reply are those of `UpdateItem` on its old state |
| `InventoryRegistry.InventoryContract.UpdateMaintenanceDate` | tests/system-inventory.test.ts:78-88 | the object's new state and reply are those of `SetMaintenanceDate` on its old state |
| `InventoryRegistry.InventoryContract.RemoveInventoryItem` | tests/system-inventory.test.ts:90-98 | the object's new state and reply are those of `Remove` on its old state |
| `MaintenanceRegistry.Empty` | tests/maintenance-scheduling.test.ts:7-10 | a fresh registry has counter 0, no records, and satisfies the id invariant |
| `MaintenanceRegistry.Schedule` | tests/maintenance-scheduling.test.ts:23-41 | replies with id = counter + 1 and advances the counter; the id was unused; the record holds the given fields with status scheduled (1), no completion date and no notes; no other entry changes |
| `MaintenanceRegistry.SetStatus` | tests/maintenance-scheduling.test.ts:47-57 | an absent id gives NotFound and no change; otherwise the status becomes the given value, whatever it was, and nothing else changes |
| `MaintenanceRegistry.Complete` | tests/maintenance-scheduling.test.ts:59-73 | an absent id gives NotFound and no change; otherwise status completed (3), completion date = clock (non-null), notes = the argument; every other field and entry kept |
| `MaintenanceRegistry.Cancel` | tests/maintenance-scheduling.test.ts:75-86 | an absent id gives NotFound and no change; otherwise status cancelled (4), notes = the argument, completion date and every other field kept |
| `MaintenanceRegistry.CancelWithoutCompletion` | tests/maintenance-scheduling.test.ts:153-163 | a task scheduled and then cancelled is cancelled and still has no completion date |
| `MaintenanceRegistry.CompletionDateOnlyByComplete` | tests/maintenance-scheduling.test.ts:47-86 | over any run that does not complete task `id`, no task is deleted and `id`'s completion date stays what it was |
| `MaintenanceRegistry.MaintenanceContract.constructor` | tests/maintenance-scheduling.test.ts:7-10 | a new registry object holds the empty registry |
| `MaintenanceRegistry.MaintenanceContract.ScheduleMaintenance` | tests/maintenance-scheduling.test.ts:23-41 | the object's new state and reply are those of `Schedule` on its old state |
| `MaintenanceRegistry.MaintenanceContract.GetMaintenanceRecord` | tests/maintenance-scheduling.test.ts:43-45 | returns the stored record exactly when the id is present, nothing otherwise |
| `MaintenanceRegistry.MaintenanceContract.UpdateMaintenanceStatus` | tests/maintenance-scheduling.test.ts:47-57 | the object's new state and reply are those of `SetStatus` on its old state |
| `MaintenanceRegistry.MaintenanceContract.CompleteMaintenance` | tests/maintenance-scheduling.test.ts:59-73 | the object's new state and reply are those of `Complete` on its old state |
| `MaintenanceRegistry.MaintenanceContract.CancelMaintenance` | tests/maintenance-scheduling.test.ts:75-86 | the object's new state and reply are those of `Cancel` on its old state |
| `WaterUsageRegistry.Empty` | tests/water-usage.test.ts:7-12 | a fresh registry has both counters 0, both maps empty, and satisfies the id invariant |
| `WaterUsageRegistry.AddReading` | tests/water-usage.test.ts:16-31 | replies with reading id = reading counter + 1 and advances it; the reading holds building, meter value, timestamp = clock and reader = sender or "default-reader"; alert counter and alerts unchanged; no other reading changes |
| `WaterUsageRegistry.CreateAlert` | tests/water-usage.test.ts:37-53 | replies with alert id = alert counter + 1 and advances it; the alert is active (1) with detection time = clock and the given rate and threshold; reading counter and readings unchanged |
| `WaterUsageRegistry.ResolveAlert` | tests/water-usage.test.ts:59-69 | an absent id gives NotFound and no change; otherwise only that alert's status changes, to resolved (2); counters and readings unchanged |
| `WaterUsageRegistry.ResolveIdempotent` | tests/water-usage.test.ts:59-69 | resolving an alert a second time also succeeds and leaves the state as the first resolution left it |
| `WaterUsageRegistry.ReadingsNeverChange` | tests/water-usage.test.ts:15-70 | over any sequence of calls every stored reading stays stored and unchanged, the reading counter never decreases, and the invariant is kept |
| `WaterUsageRegistry.ResolvedStaysResolved` | tests/water-usage.test.ts:37-69 | over any sequence of calls a resolved alert stays present and resolved |
| `WaterUsageRegistry.WaterUsageContract.constructor` | tests/water-usage.test.ts:7-12 | a new registry object holds the empty registry |
| `WaterUsageRegistry.WaterUsageContract.AddWaterReading` | tests/water-usage.test.ts:16-31 | the object's new state and reply are those of `AddReading` on its old state |
| `WaterUsageRegistry.WaterUsageContract.GetWaterReading` | tests/water-usage.test.ts:33-35 | returns the stored reading exactly when the id is present, nothing otherwise |
| `WaterUsageRegistry.WaterUsageContract.CreateLeakAlert` | tests/water-usage.test.ts:37-53 | the object's new state and reply are those of `CreateAlert` on its old state |
| `WaterUsageRegistry.WaterUsageContract.GetLeakAlert` | tests/water-usage.test.ts:55-57 | returns the stored alert exactly when the id is present, nothing otherwise |
| `WaterUsageRegistry.WaterUsageContract.ResolveLeakAlert` | tests/water-usage.test.ts:59-69 | the object's new state and reply are those of `ResolveAlert` on its old state |

## Left out

- The clock: `Date.now()` is not modelled. Each operation that stamps a time takes the reading as a parameter `now`.
- The caller identity is a parameter `sender`. The water registry's default `'default-reader'` applies when `sender` is `None`, which stands for an omitted or `undefined` argument. An explicit `null` sender, which JavaScript stores as `reader: null`, is not modelled.
- Aliasing of returned records: the getters hand back the stored object itself, so a caller that mutated it would change the stored state. The model returns record values, so that path is not captured.
- Dynamic typing: the operations accept any JavaScript values. The model gives each field a fixed type: strings, integers, `Option` where the code stores or is passed `null`. Arguments of other types, or `undefined` written into a field by a spread update, are not modelled.
- JavaScript `Map` key identity: ids are modelled as mathematical integers. A lookup with a non-number key (which always misses) is not modelled.
- Number precision: counters and timestamps are unbounded integers. Loss of precision above 2^53 in JavaScript numbers is not modelled.
- The `simnet` example test at the top of the inventory test file, and the test runner (`describe`/`it`/`beforeEach`). A `beforeEach` reset corresponds to constructing a fresh registry object.
- The Clarity contracts these registries stand in for are not part of this model. Only the behaviour written in the test files is modelled.
- Deliberately not added, because the code has none of them: validation of `buildingId`/`inventoryId` against another registry; authorization on the inventory, maintenance and water-usage registries; any ordering of maintenance or alert statuses. The status constants (`STATUS_SCHEDULED` to `STATUS_CANCELLED` for tasks; alert status 1 "active" and 2 "resolved") suggest a life cycle, but every mutator sets the status unconditionally, and the model does the same.

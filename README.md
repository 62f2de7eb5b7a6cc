# Lattis sandbox backend: a verified Dafny model

This project models the core of a small Flask/SQLAlchemy back end for a
bike- and scooter-sharing operator. There are three parts.

- **The in-memory `DataStore`** (`data_store.dfy`, module `InMemoryStore`).
  It is a class with one list of records per resource. Adding stamps a
  record with `id = len(list) + 1` and appends it. A lookup returns the
  first record with that id. An update merges fields into that record. A
  delete filters the list. In the other mode (`use_in_memory=False`) every
  operation returns a fixed mock-call string.
- **The resource handlers** for trips, invoices and payments, maintenance
  tasks and alerts, vehicles, pricing rules, geofences and user roles.
  - They work on one shared database object, `Database.Db`.
  - Each table is a `Tables.Table`: a map from an auto-increment primary
    key to a row, plus the next id to hand out.
  - A handler that writes is a method with `modifies` on the tables it
    touches. A handler that only reads is a function.
  - Every handler returns a `Http.Response`: a status code and a JSON body.
  - `schema.load` is modelled as a `Parsed` input: either the validation
    error's details or the loaded fields.
- **The stateless validators** in `future_modules.dfy` and
  `integration.dfy`. Each is a total function from a JSON request body to
  a response, and its checks run in the source's order.

Things outside the model are parameters:

- The clock. A handler receives the current time as `now`.
- `json.loads` of stored geofence coordinates. It is a `decode` function
  that returns `None` where Python raises.

An exception that no handler catches ends in the application's 500 handler
(`main.py:31-33`). The model returns `Http.InternalServerError` there.

Some behaviour of the source as written that the model keeps:

- `manage_access` answers with `f"Access {action}ed for …"`, so a revoke
  answers "Access revokeed for …" (`api/user.py:56`).
- A stored geofence whose coordinates fail to decode makes `get_geofence`
  and `list_geofences` answer 500. The `JSONDecodeError` raised at
  `api/geofencing.py:100` and `api/geofencing.py:114` is not caught by the
  handlers' `except SQLAlchemyError`, so the application's handler at
  `main.py:31-33` answers it.
- `models.py` declares only some of the classes the handlers import. Record
  fields are taken from what the handlers read and write; the columns this
  assumes are listed under "Left out".

## Model

| member | source | states |
|---|---|---|
| InMemoryStore.FirstIndex | data_store.py:62-66 | The index of the first record carrying the id, or -1 when no record has it; no earlier record has the id |
| InMemoryStore.FindFirst | data_store.py:64 | The `next(...)` scan as a loop; returns exactly `FirstIndex` |
| InMemoryStore.Added | data_store.py:54-58 | The old list is kept as a prefix; one record is appended with id old length + 1; its other keys are the caller's; its key set is the caller's plus `id` |
| InMemoryStore.MockCall | data_store.py:184-187 | The mock-mode reply is the JSON text `{"message": "Mock API call: <method> <endpoint>"}`: a string with that fixed prefix, ending `"}`, whose length grows with the method and the endpoint |
| InMemoryStore.Merged | data_store.py:72 | `dict.update`: keys of the update take its values, all other keys keep theirs, no key is lost |
| InMemoryStore.Listing | data_store.py:48-52 | One entry per record, in list order |
| InMemoryStore.WithoutId | data_store.py:80 | The list a delete leaves, `[v for v in s if v['id'] != id]`: never longer than the input (which records survive is WithoutIdMembers, their order WithoutIdAppend) |
| InMemoryStore.WithoutIdMembers | data_store.py:80 | A delete keeps exactly the records that do not carry the id |
| InMemoryStore.WithoutIdAppend | data_store.py:80 | Deleting from a concatenation deletes from each part, so the survivors keep their order |
| InMemoryStore.RemoveId | data_store.py:78-81 | The list comprehension as a loop; its result is `WithoutId` of the input |
| InMemoryStore.WithoutAbsentId | data_store.py:78-81 | Deleting an id that no record carries leaves the list unchanged |
| InMemoryStore.AddsKeepIdsDense | data_store.py:54-58 | After adds only, the record at position i has id i + 1, so all ids differ (under value semantics; see "Left out") |
| InMemoryStore.IdReusedAfterDelete | data_store.py:54-83 | add, add, delete id 1, add leaves two records that both carry id 2 |
| InMemoryStore.DuplicateIdScenario | data_store.py:4-83 | The same sequence run on a fresh in-memory store yields ids [2, 2] |
| InMemoryStore.DataStore.constructor | data_store.py:5-16 | Records the mode; every list starts empty, so every stored record carries an id (an invariant each mutator keeps) |
| InMemoryStore.DataStore.RegisterUser | data_store.py:19-25 | In memory, appends the id-stamped user and returns it; otherwise the mock string, users unchanged |
| InMemoryStore.DataStore.LoginUser | data_store.py:27-32 | A constant login message or the mock string; no list changes |
| InMemoryStore.DataStore.LogoutUser | data_store.py:34-38 | A constant logout message or the mock string; no list changes |
| InMemoryStore.DataStore.GetCurrentUser | data_store.py:40-45 | The fixed demo user `{id: 1, username: demo_user}` or the mock string; no list changes |
| InMemoryStore.DataStore.GetVehicles | data_store.py:48-52 | The vehicle list or the mock string |
| InMemoryStore.DataStore.AddVehicle | data_store.py:54-60 | In memory, the list becomes `Added(old, vehicle)` and the stamped record is returned; otherwise the mock string and no change |
| InMemoryStore.DataStore.GetVehicle | data_store.py:62-66 | The first vehicle with the id, or None; otherwise the mock string for `/api/v1/vehicles/<id>` |
| InMemoryStore.DataStore.UpdateVehicle | data_store.py:68-76 | Merges the update into the first matching vehicle only and returns it; an absent id returns None with no change |
| InMemoryStore.DataStore.DeleteVehicle | data_store.py:78-83 | The list becomes `WithoutId(old, id)`; the reply is "Vehicle deleted" even when nothing matched |
| InMemoryStore.DataStore.GetFleets | data_store.py:86-90 | The fleet list or the mock string |
| InMemoryStore.DataStore.AddFleet | data_store.py:92-98 | As AddVehicle, for fleets |
| InMemoryStore.DataStore.GetFleet | data_store.py:100-104 | As GetVehicle, for fleets |
| InMemoryStore.DataStore.UpdateFleet | data_store.py:106-114 | As UpdateVehicle, for fleets |
| InMemoryStore.DataStore.DeleteFleet | data_store.py:116-121 | As DeleteVehicle, for fleets, with "Fleet deleted" |
| InMemoryStore.DataStore.GetTrips | data_store.py:124-128 | The trip list or the mock string |
| InMemoryStore.DataStore.AddTrip | data_store.py:130-136 | As AddVehicle, for trips |
| InMemoryStore.DataStore.GetTrip | data_store.py:138-142 | As GetVehicle, for trips |
| InMemoryStore.DataStore.UpdateTrip | data_store.py:144-152 | As UpdateVehicle, for trips |
| InMemoryStore.DataStore.GetMaintenance | data_store.py:155-159 | The task list or the mock string |
| InMemoryStore.DataStore.AddMaintenance | data_store.py:161-167 | As AddVehicle, for maintenance tasks |
| InMemoryStore.DataStore.GetReports | data_store.py:170-174 | The report list or the mock string |
| InMemoryStore.DataStore.AddReport | data_store.py:176-182 | As AddVehicle, for reports |
| Tables.Table.Insert | api/vehicle.py:27-30 | `session.add` and commit: the row is stored under a fresh id; every other row is kept |
| Tables.Table.Put | api/trip.py:64-66 | Assigning attributes and committing: only that row changes; the ids stay the same |
| Tables.Table.Remove | api/vehicle.py:84-85 | `session.delete` and commit: only that id disappears |
| Tables.Table.All | api/trip.py:95 | `Query.all()`: every row exactly once, with its id, in ascending id order |
| Tables.Table.FirstWhere | api/pricing.py:30 | `filter_by(...).first()`: the smallest id whose row matches, or none when no row matches |
| Tables.Where | api/maintenance.py:81 | `filter_by(...).all()`: exactly the matching rows |
| Tables.WhereAscending | api/maintenance.py:81 | Filtering keeps ascending id order |
| Tables.CountAfterPut | api/pricing.py:30-41 | A write that keeps a row's match status keeps the number of matches |
| Tables.CountAfterInsert | api/pricing.py:30-41 | An insert adds one match exactly when the new row matches |
| TripApi.StartTrip | api/trip.py:23-46 | 400 on invalid input; 404 when the vehicle is missing; 201 exactly when the vehicle exists; the new trip is active with no end location even if one was submitted; no change unless 201 |
| TripApi.EndTrip | api/trip.py:49-71 | Checks run in this order: input, then existence (404), then already ended (400). 200 exactly for an active trip, which gets its end location and end time and is then terminal. No change unless 200 |
| TripApi.EndTripTwice | api/trip.py:61-67 | A second end is refused, and the trip keeps the first end's location and time |
| TripApi.GetTrip | api/trip.py:74-90 | 404 when missing; `end_time` is null exactly while the trip is active |
| TripApi.ListTrips | api/trip.py:93-106 | One entry per stored trip, each trip present |
| PaymentApi.CreateInvoice | api/payment.py:25-50 | 400 or 404 (unknown user) with no change; otherwise a Pending invoice with the submitted fields under a fresh id, 201 |
| PaymentApi.GetInvoice | api/payment.py:53-69 | 404 exactly when missing; otherwise that invoice's fields |
| PaymentApi.ListInvoices | api/payment.py:72-85 | One entry per stored invoice |
| PaymentApi.ProcessPayment | api/payment.py:88-115 | Checks run in this order: 404, then already Paid (whatever the amount), then amount mismatch. 200 exactly for an unpaid invoice and a matching amount; only its status changes, to Paid. No change otherwise |
| PaymentApi.InsertByDateSorted | api/payment.py:128 | Inserting into a newest-first list keeps it newest first |
| PaymentApi.InsertByDatePerm | api/payment.py:128 | Inserting adds exactly the one element |
| PaymentApi.SortNewestFirst | api/payment.py:128 | `order_by(created_at.desc())`: the result is newest first and a permutation of the input |
| PaymentApi.BillingHistory | api/payment.py:128 | Exactly the user's invoices, each once, newest first |
| PaymentApi.GetBillingHistory | api/payment.py:118-135 | 400 for a missing or zero user id; 404 for an unknown user; otherwise that user's history |
| MaintenanceApi.ScheduleMaintenance | api/maintenance.py:27-51 | 404 for an unknown vehicle with no change; otherwise a task with status Scheduled and the submitted fields, 201 |
| MaintenanceApi.UpdateMaintenance | api/maintenance.py:54-72 | 404 when missing; otherwise the status becomes any submitted string and nothing else changes |
| MaintenanceApi.TasksOf | api/maintenance.py:81 | Exactly the tasks of that vehicle, in ascending id order |
| MaintenanceApi.GetVehicleMaintenance | api/maintenance.py:75-91 | 404 exactly for an unknown vehicle; otherwise the vehicle's tasks |
| MaintenanceApi.ListMaintenance | api/maintenance.py:94-107 | One entry per stored task |
| MaintenanceApi.CreateAlert | api/maintenance.py:110-133 | 404 for an unknown vehicle with no change; otherwise an open alert (no resolution time), 201; keeps every alert open |
| MaintenanceApi.OpenAlerts | api/maintenance.py:138 | Exactly the alerts with no resolution time, in ascending id order |
| MaintenanceApi.ListAlerts | api/maintenance.py:136-147 | The open alerts, every open alert present |
| MaintenanceApi.EveryAlertListed | api/maintenance.py:109-147 | While no alert is resolved (which no handler does), the alert list shows all alerts |
| VehicleApi.Patched | api/vehicle.py:67-68 | The vehicle after the `setattr` loop: each submitted field takes its submitted value, every other field and the creation time keep theirs |
| VehicleApi.WithField | api/vehicle.py:68 | `setattr` changes only the named field |
| VehicleApi.PatchedFields | api/vehicle.py:57-68 | Submitted fields read back as submitted, others unchanged; an empty patch is the identity; applying a patch twice equals once |
| VehicleApi.ApplyPatch | api/vehicle.py:67-68 | The `setattr` loop yields `Patched` of the vehicle, whatever order the fields come in |
| VehicleApi.CreateVehicle | api/vehicle.py:19-34 | 400 and no change on invalid input; otherwise the submitted fields under a fresh id, 201 |
| VehicleApi.GetVehicle | api/vehicle.py:37-52 | 404 exactly when missing; otherwise that vehicle's fields |
| VehicleApi.UpdateVehicle | api/vehicle.py:55-75 | 404 when missing; otherwise only that vehicle changes, to `Patched`; no change unless 200 |
| VehicleApi.DeleteVehicle | api/vehicle.py:78-90 | 404 and no change when missing; otherwise removes only that vehicle; a later get answers 404 |
| VehicleApi.ListVehicles | api/vehicle.py:93-105 | One entry per stored vehicle |
| PricingApi.BaseUpserted | api/pricing.py:30-39 | The rules after `set_base_price`: no rule is dropped; when a base rule exists the ids stay the same (it is updated in place), otherwise exactly one rule is added |
| PricingApi.SurgeUpserted | api/pricing.py:57-68 | The rules after `set_surge_pricing`: no rule is dropped; when a surge rule exists the ids stay the same, otherwise exactly one rule is added |
| PricingApi.SetBasePrice | api/pricing.py:22-46 | 400 and no change on invalid input; otherwise the rules become `BaseUpserted` and the reply is 200 |
| PricingApi.SetSurgePricing | api/pricing.py:49-75 | 400 and no change on invalid input; otherwise the rules become `SurgeUpserted` and the reply is 200 |
| PricingApi.BaseUpsertEffect | api/pricing.py:30-39 | Afterwards the first base rule carries the new price; rules of other types are exactly as before |
| PricingApi.BaseUpsertCount | api/pricing.py:30-39 | The number of base rules becomes 1 if it was 0 and is otherwise unchanged, so at most one stays at most one |
| PricingApi.BaseUpsertIdempotent | api/pricing.py:30-39 | Setting the same base price twice equals setting it once |
| PricingApi.SurgeUpsertEffect | api/pricing.py:57-68 | Afterwards the first surge rule carries the new multiplier and conditions; rules of other types are exactly as before |
| PricingApi.SurgeUpsertCount | api/pricing.py:57-68 | The number of surge rules becomes 1 if it was 0 and is otherwise unchanged |
| PricingApi.SurgeUpsertIdempotent | api/pricing.py:57-68 | Setting the same surge pricing twice equals setting it once |
| PricingApi.RuleJson | api/pricing.py:86 | `conditions` is null exactly for a rule without stored conditions (such as a new base rule) |
| PricingApi.GetPricingRules | api/pricing.py:78-91 | One entry per stored rule |
| GeofenceApi.CreateGeofence | api/geofencing.py:19-43 | 400 for invalid input or undecodable coordinates, with no change; otherwise name and coordinate text stored verbatim, 201; every stored geofence stays decodable |
| GeofenceApi.ApplyInput | api/geofencing.py:65-66 | The `setattr` loop writes both loaded fields and keeps the creation time |
| GeofenceApi.UpdateGeofence | api/geofencing.py:46-73 | Both fields required. Checks run in this order: input, then existence (404), then coordinates (400). No change unless 200. Decodability is preserved |
| GeofenceApi.DeleteGeofence | api/geofencing.py:76-88 | 404 and no change when missing; otherwise removes only that geofence |
| GeofenceApi.GetGeofence | api/geofencing.py:91-105 | 404 when missing; the decoded coordinates otherwise; never 500 while every stored geofence is decodable |
| GeofenceApi.FencesJson | api/geofencing.py:111-116 | The comprehension succeeds exactly when every row decodes, with one entry per row |
| GeofenceApi.ListGeofences | api/geofencing.py:108-119 | 200 exactly when every stored geofence decodes, 500 otherwise; on 200 the i-th entry is the i-th geofence in id order with its decoded coordinates, and every geofence appears |
| Json.Contains | api/user.py:40 | Python `in`: a key of a dict, an element of a list, a substring of a string; an error on any other value |
| Json.ContainsAll | api/user.py:40 | `all(k in data …)`: an error exactly when the body cannot be searched; on a dict, every key present; on a string, every key a substring |
| UserApi.RoleAfter | api/user.py:50-53 | Grant gives the submitted role; revoke gives 'user' whatever was submitted |
| UserApi.AccessUpdated | api/user.py:46-55 | The users after an accepted request: the same ids, and every user is as before except possibly its role |
| UserApi.AccessMessage | api/user.py:56 | The reply text starts "Access <action>", ends with the username, and is 14 characters longer than the two together ("Access revokeed for …" on a revoke) |
| UserApi.ManageAccess | api/user.py:10-59 | Checks run in this order: 500 for a body `in` cannot search, 400 for missing fields, 500 for a non-dict body, 400 for an invalid action, 404 for an unknown username. On 200 the users become `AccessUpdated` with the message "Access <action>ed for <username>". No change otherwise |
| UserApi.AccessChangesOneRole | api/user.py:46-55 | Only the first user with that username changes, and only its role |
| UserApi.AccessIdempotent | api/user.py:50-53 | Granting or revoking twice equals doing it once |
| UserApi.RevokeAfterGrant | api/user.py:50-53 | Revoke after any grant leaves the role 'user' |
| UserApi.GetUsers | api/user.py:66-85 | One entry per stored user |
| UserApi.GetUser | api/user.py:88-116 | 404 exactly when missing; otherwise that user's fields |
| FutureModules.Pick | api/future_modules.py:48-52 | The echo holds exactly the named keys with the body's values |
| FutureModules.SetDynamicPricing | api/future_modules.py:6-55 | The first failing check decides the 400 message. Booleans count as numbers. 200 exactly when every check passes, echoing exactly the three fields |
| FutureModules.PricingEchoAccepted | api/future_modules.py:48-53 | The echoed rules, resubmitted, are accepted with the same reply |
| FutureModules.DefineGeofence | api/future_modules.py:58-117 | Same order as the checks at 92-106. Coordinates must be a list of dicts, each with lat and lon. 200 exactly when every check passes, echoing the three fields |
| FutureModules.EmptyZoneAccepted | api/future_modules.py:102-103 | A zone with an empty coordinate list is accepted |
| FutureModules.ZoneEchoAccepted | api/future_modules.py:110-115 | The echoed zone, resubmitted, is accepted with the same reply |
| Integration.IngestGbfsData | api/integration.py:6-31 | 200 with the fixed message exactly for a non-empty dict with `gbfs_data`; 400 otherwise |
| Integration.GbfsPayloadIgnored | api/integration.py:29 | The value under `gbfs_data` never changes the reply |
| Integration.CrmReference | api/integration.py:75 | The reference starts with "CRM-" followed by the ticket id |
| Integration.ConnectRepairTicket | api/integration.py:34-79 | 400 for a body that is not a non-empty dict, then for missing fields; otherwise the three fields echoed plus the status 'Connected to CRM' and the CRM reference |
| Integration.CrmEchoStable | api/integration.py:70-77 | The CRM reply, resubmitted, yields the same reply |
| Scenarios.TripLifecycle | api/trip.py:23-71 | A vehicle is created (id 1) and a trip started (id 1). The first end is accepted; the second is refused with "Trip has already ended" |
| Scenarios.InvoiceLifecycle | api/payment.py:25-115 | A 10.0 invoice is created (id 1). Paying 9.0 is refused, paying 10.0 succeeds, and paying again is refused as already paid |

## Left out

- The SQLAlchemy error paths are not modelled: the `except SQLAlchemyError` branches, their rollbacks and 500 replies, and the logging. Commits always succeed here.
- Ids are fresh from a counter and never reused. SQLite may reuse the id of a deleted last row; that is not modelled.
- `Query.all()` is taken to return rows in ascending id order, and `Query.first()` (`api/pricing.py:30`, `api/pricing.py:57`, `api/user.py:46`) the matching row with the smallest id. SQL guarantees neither without `ORDER BY`.
- PaymentApi.BillingHistory: invoices with equal `created_at` may come out in any order. The model fixes one order and states only newest first and exact contents.
- Clock values are integers. `isoformat()` is a stand-in text (`Http.IsoFormat`), not the ISO 8601 layout.
- Invoice amounts, the base price and the surge multiplier (`fields.Float`) are exact reals. Floating-point rounding, of the stored values and of the amount comparison, is not modelled.
- `json.loads` of geofence coordinates is a parameter `decode`. The stored conditions of pricing rules are assumed to read back as written (`json.dumps` then `json.loads` is taken as the identity).
- marshmallow's validation and coercion rules are not modelled. A load either fails with some details or yields typed fields.
- `request.args.get('user_id', type=int)` is modelled as an optional integer.
- UserApi.ManageAccess: the username is compared as a JSON value with the stored string; SQL coercion of non-string usernames is not modelled. A granted role that is not a string, or longer than the column's 20 characters, is stored as given, whereas the database would reject it.
- Json.PyStr: `str()` of a float, list or dict in the CRM reference is a fixed stand-in, not Python's repr.
- Python compares `1 == 1.0 == True` across types; the in-memory store's id match compares JSON values exactly, so a record whose id was overwritten with a float or boolean does not match.
- The in-memory store hands back the very list or dict it holds, so a caller can change the store through the result. The model returns values, so this aliasing is not captured.
- AddsKeepIdsDense: holds only when each `add_*` receives a distinct dict that the caller does not change afterwards. `add_*` stores the caller's own dict and writes `id` into it (`data_store.py:56-57`), so adding the same dict twice leaves two entries that are one object carrying the later id. The model copies records, so this argument-side aliasing is not captured.
- Columns the handlers read but `models.py` does not declare are assumed to exist. `created_at` of vehicles, maintenance tasks, geofences and pricing rules is no handler's to set (`api/vehicle.py:27`, `api/maintenance.py:39-44`, `api/geofencing.py:33-36`, `api/pricing.py:34-38`, `api/pricing.py:62-67`); the model takes it as a column default equal to the request time `now`. User's `email` and `created_at` are assumed columns too. As written, `models.py:3-7` has no `Vehicle.created_at` and `models.py:21-24` no `User.email` or `User.created_at`, so `get_vehicle`/`list_vehicles` (`api/vehicle.py:48`, `api/vehicle.py:101`) and `get_user`/`get_users` (`api/user.py:81-82`, `api/user.py:112-113`) raise `AttributeError` on any stored row and answer 500; the model answers 200 with the assumed columns.
- A request body that is not JSON is not modelled: every handler receives a JSON value. In the four validators (`api/future_modules.py:32`, `api/future_modules.py:91`, `api/integration.py:23`, `api/integration.py:60`) `request.get_json()` then raises inside the `try`, and the catch-all `except Exception` answers 500 "An error occurred while processing the request" with the error text as `details`. That path is reachable in the source and left out here; every check after `get_json()` is total, so the catch-all is reached only through it.
- In the other handlers a body that is not JSON makes Flask raise before `schema.load`; that path is not modelled either.
- Blueprint registration: `main.py` registers only some of the blueprints. The model covers the handlers themselves, not which URLs reach them.
- The authentication module, the fleet, rebalancing and reporting endpoints, the front-end script and the endpoint test script are not part of this model.
- Concurrent requests are not modelled; every request runs alone.

/** The prototyping `DataStore`: one Python list of dict records per
    resource, ids taken from the list length, lookups by a linear scan that
    yields the first match, deletes by rebuilding the list without the
    matching records. A store built with `use_in_memory=False` answers every
    call with the text of a mock API call and keeps no lists. */
module InMemoryStore {
  import opened Json
  import opened Http

  /** A stored dict. */
  type Record = map<string, Value>

  predicate HasId(r: Record, id: int) {
    "id" in r && r["id"] == Int(id)
  }

  /** Every record carries the key `'id'`, so `v['id']` never raises. */
  predicate Stamped(s: seq<Record>) {
    forall r :: r in s ==> "id" in r
  }

  /** Index of the record `next(v for v in s if v['id'] == id)` yields, or -1 for None. */
  function FirstIndex(s: seq<Record>, id: int): (i: int)
    ensures -1 <= i < |s|
    ensures i >= 0 ==> HasId(s[i], id)
    ensures forall j :: 0 <= j < |s| && (i < 0 || j < i) ==> !HasId(s[j], id)
  {
    if s == [] then -1
    else if HasId(s[0], id) then 0
    else
      var i := FirstIndex(s[1..], id);
      assert forall j :: 1 <= j < |s| ==> s[j] == s[1..][j - 1];
      if i < 0 then -1 else i + 1
  }

  /** The list `[v for v in s if v['id'] != id]`. */
  function WithoutId(s: seq<Record>, id: int): (r: seq<Record>)
    ensures |r| <= |s|
  {
    if s == [] then []
    else (if HasId(s[0], id) then [] else [s[0]]) + WithoutId(s[1..], id)
  }

  /** Deleting drops exactly the records that carry the id. */
  lemma {:induction false} WithoutIdMembers(s: seq<Record>, id: int)
    ensures forall x :: x in WithoutId(s, id) <==> x in s && !HasId(x, id)
  {
    if s != [] {
      WithoutIdMembers(s[1..], id);
      assert s == [s[0]] + s[1..];
    }
  }

  /** The list after `add_*`: the record gets the key `'id'` with the old
      length plus one and goes at the end. */
  function Added(s: seq<Record>, rec: Record): (r: seq<Record>)
    ensures |r| == |s| + 1 && r[..|s|] == s
    ensures HasId(r[|s|], |s| + 1)
    ensures forall k :: k in rec && k != "id" ==> k in r[|s|] && r[|s|][k] == rec[k]
    ensures r[|s|].Keys == rec.Keys + {"id"}
  {
    s + [rec["id" := Int(|s| + 1)]]
  }

  /** `dict.update`: the keys of `data` take its values, every other key keeps its own. */
  function Merged(rec: Record, data: Record): (r: Record)
    ensures r.Keys == rec.Keys + data.Keys
    ensures forall k :: k in data ==> r[k] == data[k]
    ensures forall k :: k in rec && k !in data ==> r[k] == rec[k]
  {
    rec + data
  }

  /** What a `get_*` call returns when `use_in_memory` is set: the list itself. */
  function Listing(s: seq<Record>): (v: Value)
    ensures v.Arr? && |v.items| == |s|
    ensures forall i :: 0 <= i < |s| ==> v.items[i] == Obj(s[i])
  {
    Arr(seq(|s|, i requires 0 <= i < |s| => Obj(s[i])))
  }

  /** The JSON text `_mock_api_call` returns: `json.dumps({"message": ...})`. */
  function MockCall(verb: string, endpoint: string): (r: Value)
    ensures r.Str? && |r.s| == |verb| + |endpoint| + 31
    ensures r.s[..28] == "{\"message\": \"Mock API call: "
    ensures r.s[|r.s| - 2..] == "\"}"
  {
    Str("{\"message\": \"Mock API call: " + verb + " " + endpoint + "\"}")
  }

  /** The scan behind every `get_*`/`update_*`: the first index whose record carries `id`. */
  method FindFirst(s: seq<Record>, id: int) returns (i: int)
    ensures i == FirstIndex(s, id)
  {
    i := 0;
    while i < |s| && !HasId(s[i], id)
      invariant 0 <= i <= |s|
      invariant forall j :: 0 <= j < i ==> !HasId(s[j], id)
    {
      i := i + 1;
    }
    if i == |s| {
      i := -1;
    }
    FirstIndexUnique(s, id, i);
  }

  /** The two properties in FirstIndex's contract single out its result. */
  lemma FirstIndexUnique(s: seq<Record>, id: int, i: int)
    requires -1 <= i < |s|
    requires i >= 0 ==> HasId(s[i], id)
    requires forall j :: 0 <= j < |s| && (i < 0 || j < i) ==> !HasId(s[j], id)
    ensures i == FirstIndex(s, id)
  {
  }

  /** The comprehension behind every `delete_*`, one record at a time. */
  method RemoveId(s: seq<Record>, id: int) returns (r: seq<Record>)
    ensures r == WithoutId(s, id)
  {
    r := [];
    var i := 0;
    while i < |s|
      invariant 0 <= i <= |s|
      invariant r == WithoutId(s[..i], id)
    {
      WithoutIdAppend(s[..i], [s[i]], id);
      assert s[..i + 1] == s[..i] + [s[i]];
      if !HasId(s[i], id) {
        r := r + [s[i]];
      }
      i := i + 1;
    }
    assert s[..i] == s;
  }

  lemma {:induction false} WithoutIdAppend(a: seq<Record>, b: seq<Record>, id: int)
    ensures WithoutId(a + b, id) == WithoutId(a, id) + WithoutId(b, id)
  {
    if a == [] {
      assert a + b == b;
    } else {
      var head := if HasId(a[0], id) then [] else [a[0]];
      assert (a + b)[0] == a[0];
      assert (a + b)[1..] == a[1..] + b;
      WithoutIdAppend(a[1..], b, id);
      calc {
        WithoutId(a + b, id);
        head + WithoutId(a[1..] + b, id);
        head + (WithoutId(a[1..], id) + WithoutId(b, id));
        (head + WithoutId(a[1..], id)) + WithoutId(b, id);
      }
    }
  }

  /** Deleting an id no record carries leaves the list as it was. */
  lemma {:induction false} WithoutAbsentId(s: seq<Record>, id: int)
    requires forall j :: 0 <= j < |s| ==> !HasId(s[j], id)
    ensures WithoutId(s, id) == s
  {
    if s != [] {
      WithoutAbsentId(s[1..], id);
    }
  }

  /** Ids as they stand after adds only: position i holds id i + 1. */
  predicate DenseIds(s: seq<Record>) {
    forall i :: 0 <= i < |s| ==> HasId(s[i], i + 1)
  }

  /** A run of `add_*` calls. */
  function AddAll(s: seq<Record>, recs: seq<Record>): seq<Record>
    decreases |recs|
  {
    if recs == [] then s else AddAll(Added(s, recs[0]), recs[1..])
  }

  /** Starting from dense ids, any run of adds keeps ids dense, so no two
      records share an id. */
  lemma {:induction false} AddsKeepIdsDense(s: seq<Record>, recs: seq<Record>)
    requires DenseIds(s)
    ensures |AddAll(s, recs)| == |s| + |recs|
    ensures DenseIds(AddAll(s, recs))
    ensures forall i, j :: 0 <= i < j < |AddAll(s, recs)| ==>
      AddAll(s, recs)[i]["id"] != AddAll(s, recs)[j]["id"]
    decreases |recs|
  {
    if recs != [] {
      var s' := Added(s, recs[0]);
      assert DenseIds(s') by {
        forall i | 0 <= i < |s'| ensures HasId(s'[i], i + 1) {
          if i < |s| { assert s'[i] == s'[..|s|][i] == s[i]; }
        }
      }
      AddsKeepIdsDense(s', recs[1..]);
    }
  }

  /** Ids are not unique once a record has been deleted: add, add, delete
      id 1, add leaves two records that both carry id 2. */
  lemma IdReusedAfterDelete(a: Record, b: Record, c: Record)
    ensures var s := Added(WithoutId(Added(Added([], a), b), 1), c);
      |s| == 2 && HasId(s[0], 2) && HasId(s[1], 2)
  {
    var s2 := Added(Added([], a), b);
    assert HasId(s2[0], 1) && HasId(s2[1], 2);
    assert s2 == [s2[0]] + [s2[1]];
    WithoutIdAppend([s2[0]], [s2[1]], 1);
    assert WithoutId([s2[1]], 1) == [s2[1]];
    assert WithoutId([s2[0]], 1) == [];
    assert WithoutId(s2, 1) == [s2[1]];
  }

  class DataStore {
    const useInMemory: bool
    var vehicles: seq<Record>
    var fleets: seq<Record>
    var trips: seq<Record>
    var users: seq<Record>
    var maintenanceTasks: seq<Record>
    var reports: seq<Record>

    /** Every list holds id-stamped records only. */
    predicate Valid()
      reads this
    {
      && Stamped(vehicles) && Stamped(fleets) && Stamped(trips)
      && Stamped(users) && Stamped(maintenanceTasks) && Stamped(reports)
    }

    /** With `use_in_memory=False` the Python object has no lists at all;
        here they exist but stay empty, and no method touches them. */
    constructor (useInMemory: bool)
      ensures this.useInMemory == useInMemory
      ensures Valid()
      ensures vehicles == fleets == trips == users == maintenanceTasks == reports == []
    {
      this.useInMemory := useInMemory;
      vehicles, fleets, trips, users := [], [], [], [];
      maintenanceTasks, reports := [], [];
    }

    // ---- user authentication ----

    method RegisterUser(user: Record) returns (r: Value)
      modifies this`users
      requires Valid()
      ensures Valid()
      ensures useInMemory ==> users == Added(old(users), user) && r == Obj(users[|users| - 1])
      ensures !useInMemory ==> users == old(users) && r == MockCall("POST", "/api/v1/auth/register")
    {
      if useInMemory {
        users := Added(users, user);
        r := Obj(users[|users| - 1]);
      } else {
        r := MockCall("POST", "/api/v1/auth/register");
      }
    }

    method LoginUser(credentials: Record) returns (r: Value)
      ensures r == if useInMemory then Message("Login successful")
                   else MockCall("POST", "/api/v1/auth/login")
    {
      r := if useInMemory then Message("Login successful") else MockCall("POST", "/api/v1/auth/login");
    }

    method LogoutUser() returns (r: Value)
      ensures r == if useInMemory then Message("Logout successful")
                   else MockCall("POST", "/api/v1/auth/logout")
    {
      r := if useInMemory then Message("Logout successful") else MockCall("POST", "/api/v1/auth/logout");
    }

    method GetCurrentUser() returns (r: Value)
      ensures r == if useInMemory then Obj(map["id" := Int(1), "username" := Str("demo_user")])
                   else MockCall("GET", "/api/v1/auth/me")
    {
      r := if useInMemory then Obj(map["id" := Int(1), "username" := Str("demo_user")])
           else MockCall("GET", "/api/v1/auth/me");
    }

    // ---- vehicles ----

    method GetVehicles() returns (r: Value)
      ensures r == if useInMemory then Listing(vehicles) else MockCall("GET", "/api/v1/vehicles")
    {
      r := if useInMemory then Listing(vehicles) else MockCall("GET", "/api/v1/vehicles");
    }

    method AddVehicle(vehicle: Record) returns (r: Value)
      modifies this`vehicles
      requires Valid()
      ensures Valid()
      ensures useInMemory ==> vehicles == Added(old(vehicles), vehicle) && r == Obj(vehicles[|vehicles| - 1])
      ensures !useInMemory ==> vehicles == old(vehicles) && r == MockCall("POST", "/api/v1/vehicles")
    {
      if useInMemory {
        vehicles := Added(vehicles, vehicle);
        r := Obj(vehicles[|vehicles| - 1]);
      } else {
        r := MockCall("POST", "/api/v1/vehicles");
      }
    }

    method GetVehicle(id: int) returns (r: Value)
      ensures useInMemory ==> var i := FirstIndex(vehicles, id);
        r == if i < 0 then Null else Obj(vehicles[i])
      ensures !useInMemory ==> r == MockCall("GET", "/api/v1/vehicles/" + Decimal(id))
    {
      if useInMemory {
        var i := FindFirst(vehicles, id);
        r := if i < 0 then Null else Obj(vehicles[i]);
      } else {
        r := MockCall("GET", "/api/v1/vehicles/" + Decimal(id));
      }
    }

    method UpdateVehicle(id: int, data: Record) returns (r: Value)
      modifies this`vehicles
      requires Valid()
      ensures Valid()
      ensures useInMemory ==> var i := FirstIndex(old(vehicles), id);
        if i < 0 then vehicles == old(vehicles) && r == Null
        else vehicles == old(vehicles)[i := Merged(old(vehicles)[i], data)] && r == Obj(vehicles[i])
      ensures !useInMemory ==>
        vehicles == old(vehicles) && r == MockCall("PUT", "/api/v1/vehicles/" + Decimal(id))
    {
      if useInMemory {
        var i := FindFirst(vehicles, id);
        if i < 0 {
          r := Null;
        } else {
          vehicles := vehicles[i := Merged(vehicles[i], data)];
          r := Obj(vehicles[i]);
        }
      } else {
        r := MockCall("PUT", "/api/v1/vehicles/" + Decimal(id));
      }
    }

    method DeleteVehicle(id: int) returns (r: Value)
      modifies this`vehicles
      requires Valid()
      ensures Valid()
      ensures useInMemory ==> vehicles == WithoutId(old(vehicles), id) && r == Message("Vehicle deleted")
      ensures !useInMemory ==>
        vehicles == old(vehicles) && r == MockCall("DELETE", "/api/v1/vehicles/" + Decimal(id))
    {
      if useInMemory {
        WithoutIdMembers(vehicles, id);
        vehicles := RemoveId(vehicles, id);
        r := Message("Vehicle deleted");
      } else {
        r := MockCall("DELETE", "/api/v1/vehicles/" + Decimal(id));
      }
    }

    // ---- fleets ----

    method GetFleets() returns (r: Value)
      ensures r == if useInMemory then Listing(fleets) else MockCall("GET", "/api/v1/fleets")
    {
      r := if useInMemory then Listing(fleets) else MockCall("GET", "/api/v1/fleets");
    }

    method AddFleet(fleet: Record) returns (r: Value)
      modifies this`fleets
      requires Valid()
      ensures Valid()
      ensures useInMemory ==> fleets == Added(old(fleets), fleet) && r == Obj(fleets[|fleets| - 1])
      ensures !useInMemory ==> fleets == old(fleets) && r == MockCall("POST", "/api/v1/fleets")
    {
      if useInMemory {
        fleets := Added(fleets, fleet);
        r := Obj(fleets[|fleets| - 1]);
      } else {
        r := MockCall("POST", "/api/v1/fleets");
      }
    }

    method GetFleet(id: int) returns (r: Value)
      ensures useInMemory ==> var i := FirstIndex(fleets, id);
        r == if i < 0 then Null else Obj(fleets[i])
      ensures !useInMemory ==> r == MockCall("GET", "/api/v1/fleets/" + Decimal(id))
    {
      if useInMemory {
        var i := FindFirst(fleets, id);
        r := if i < 0 then Null else Obj(fleets[i]);
      } else {
        r := MockCall("GET", "/api/v1/fleets/" + Decimal(id));
      }
    }

    method UpdateFleet(id: int, data: Record) returns (r: Value)
      modifies this`fleets
      requires Valid()
      ensures Valid()
      ensures useInMemory ==> var i := FirstIndex(old(fleets), id);
        if i < 0 then fleets == old(fleets) && r == Null
        else fleets == old(fleets)[i := Merged(old(fleets)[i], data)] && r == Obj(fleets[i])
      ensures !useInMemory ==>
        fleets == old(fleets) && r == MockCall("PUT", "/api/v1/fleets/" + Decimal(id))
    {
      if useInMemory {
        var i := FindFirst(fleets, id);
        if i < 0 {
          r := Null;
        } else {
          fleets := fleets[i := Merged(fleets[i], data)];
          r := Obj(fleets[i]);
        }
      } else {
        r := MockCall("PUT", "/api/v1/fleets/" + Decimal(id));
      }
    }

    method DeleteFleet(id: int) returns (r: Value)
      modifies this`fleets
      requires Valid()
      ensures Valid()
      ensures useInMemory ==> fleets == WithoutId(old(fleets), id) && r == Message("Fleet deleted")
      ensures !useInMemory ==>
        fleets == old(fleets) && r == MockCall("DELETE", "/api/v1/fleets/" + Decimal(id))
    {
      if useInMemory {
        WithoutIdMembers(fleets, id);
        fleets := RemoveId(fleets, id);
        r := Message("Fleet deleted");
      } else {
        r := MockCall("DELETE", "/api/v1/fleets/" + Decimal(id));
      }
    }

    // ---- trips (the store has no delete for trips) ----

    method GetTrips() returns (r: Value)
      ensures r == if useInMemory then Listing(trips) else MockCall("GET", "/api/v1/trips")
    {
      r := if useInMemory then Listing(trips) else MockCall("GET", "/api/v1/trips");
    }

    method AddTrip(trip: Record) returns (r: Value)
      modifies this`trips
      requires Valid()
      ensures Valid()
      ensures useInMemory ==> trips == Added(old(trips), trip) && r == Obj(trips[|trips| - 1])
      ensures !useInMemory ==> trips == old(trips) && r == MockCall("POST", "/api/v1/trips")
    {
      if useInMemory {
        trips := Added(trips, trip);
        r := Obj(trips[|trips| - 1]);
      } else {
        r := MockCall("POST", "/api/v1/trips");
      }
    }

    method GetTrip(id: int) returns (r: Value)
      ensures useInMemory ==> var i := FirstIndex(trips, id);
        r == if i < 0 then Null else Obj(trips[i])
      ensures !useInMemory ==> r == MockCall("GET", "/api/v1/trips/" + Decimal(id))
    {
      if useInMemory {
        var i := FindFirst(trips, id);
        r := if i < 0 then Null else Obj(trips[i]);
      } else {
        r := MockCall("GET", "/api/v1/trips/" + Decimal(id));
      }
    }

    method UpdateTrip(id: int, data: Record) returns (r: Value)
      modifies this`trips
      requires Valid()
      ensures Valid()
      ensures useInMemory ==> var i := FirstIndex(old(trips), id);
        if i < 0 then trips == old(trips) && r == Null
        else trips == old(trips)[i := Merged(old(trips)[i], data)] && r == Obj(trips[i])
      ensures !useInMemory ==>
        trips == old(trips) && r == MockCall("PUT", "/api/v1/trips/" + Decimal(id))
    {
      if useInMemory {
        var i := FindFirst(trips, id);
        if i < 0 {
          r := Null;
        } else {
          trips := trips[i := Merged(trips[i], data)];
          r := Obj(trips[i]);
        }
      } else {
        r := MockCall("PUT", "/api/v1/trips/" + Decimal(id));
      }
    }

    // ---- maintenance and reports ----

    method GetMaintenance() returns (r: Value)
      ensures r == if useInMemory then Listing(maintenanceTasks) else MockCall("GET", "/api/v1/maintenance")
    {
      r := if useInMemory then Listing(maintenanceTasks) else MockCall("GET", "/api/v1/maintenance");
    }

    method AddMaintenance(task: Record) returns (r: Value)
      modifies this`maintenanceTasks
      requires Valid()
      ensures Valid()
      ensures useInMemory ==>
        maintenanceTasks == Added(old(maintenanceTasks), task) && r == Obj(maintenanceTasks[|maintenanceTasks| - 1])
      ensures !useInMemory ==>
        maintenanceTasks == old(maintenanceTasks) && r == MockCall("POST", "/api/v1/maintenance")
    {
      if useInMemory {
        maintenanceTasks := Added(maintenanceTasks, task);
        r := Obj(maintenanceTasks[|maintenanceTasks| - 1]);
      } else {
        r := MockCall("POST", "/api/v1/maintenance");
      }
    }

    method GetReports() returns (r: Value)
      ensures r == if useInMemory then Listing(reports) else MockCall("GET", "/api/v1/reports")
    {
      r := if useInMemory then Listing(reports) else MockCall("GET", "/api/v1/reports");
    }

    method AddReport(report: Record) returns (r: Value)
      modifies this`reports
      requires Valid()
      ensures Valid()
      ensures useInMemory ==> reports == Added(old(reports), report) && r == Obj(reports[|reports| - 1])
      ensures !useInMemory ==> reports == old(reports) && r == MockCall("POST", "/api/v1/reports")
    {
      if useInMemory {
        reports := Added(reports, report);
        r := Obj(reports[|reports| - 1]);
      } else {
        r := MockCall("POST", "/api/v1/reports");
      }
    }
  }

  /** add, add, delete(1), add on a fresh in-memory store: the third vehicle
      gets id 2, the id the surviving second vehicle already carries. */
  method DuplicateIdScenario(a: Record, b: Record, c: Record) returns (ids: seq<Value>)
    ensures ids == [Int(2), Int(2)]
  {
    var store := new DataStore(true);
    var _ := store.AddVehicle(a);
    var _ := store.AddVehicle(b);
    var _ := store.DeleteVehicle(1);
    var _ := store.AddVehicle(c);
    IdReusedAfterDelete(a, b, c);
    ids := [store.vehicles[0]["id"], store.vehicles[1]["id"]];
  }
}

/** Vehicles: create, read, partial update, delete, list. */
module VehicleApi {
  import opened Json
  import opened Http
  import opened Tables
  import opened Database

  /** The three fields `VehicleSchema` declares. */
  datatype VehicleField = Name | Status | Location

  /** A full body for `VehicleSchema()`. */
  datatype VehicleInput = VehicleInput(name: string, status: string, location: string)

  /** What a partial `VehicleSchema(partial=True)` load yields: some of the fields. */
  type VehiclePatch = map<VehicleField, string>

  function FieldOf(v: Vehicle, f: VehicleField): string {
    match f
    case Name => v.name
    case Status => v.status
    case Location => v.location
  }

  /** `setattr(vehicle, key, value)` */
  function WithField(v: Vehicle, f: VehicleField, value: string): (w: Vehicle)
    ensures FieldOf(w, f) == value
    ensures forall g :: g != f ==> FieldOf(w, g) == FieldOf(v, g)
    ensures w.createdAt == v.createdAt
  {
    match f
    case Name => v.(name := value)
    case Status => v.(status := value)
    case Location => v.(location := value)
  }

  /** The vehicle after every submitted field is written: the reference
      definition the update loop is proved against. */
  function Patched(v: Vehicle, patch: VehiclePatch): (w: Vehicle)
    ensures w.createdAt == v.createdAt
    ensures forall f :: f in patch ==> FieldOf(w, f) == patch[f]
    ensures forall f :: f !in patch ==> FieldOf(w, f) == FieldOf(v, f)
  {
    Vehicle(
      if Name in patch then patch[Name] else v.name,
      if Status in patch then patch[Status] else v.status,
      if Location in patch then patch[Location] else v.location,
      v.createdAt)
  }

  /** Submitted fields read back as submitted, the others as before; an empty
      patch changes nothing, and applying a patch twice is applying it once. */
  lemma PatchedFields(v: Vehicle, patch: VehiclePatch)
    ensures forall f :: FieldOf(Patched(v, patch), f) == if f in patch then patch[f] else FieldOf(v, f)
    ensures Patched(v, map[]) == v
    ensures Patched(Patched(v, patch), patch) == Patched(v, patch)
  {
  }

  function VehicleJson(id: int, v: Vehicle): Value {
    Obj(map[
      "id" := Int(id),
      "name" := Str(v.name),
      "status" := Str(v.status),
      "location" := Str(v.location),
      "created_at" := IsoFormat(v.createdAt)])
  }

  method CreateVehicle(db: Db, body: Parsed<VehicleInput>, now: int) returns (resp: Response)
    requires db.vehicles.Valid()
    modifies db`vehicles
    ensures db.vehicles.Valid()
    ensures body.Invalid? ==> resp == InvalidInput(body.details) && db.vehicles == old(db.vehicles)
    ensures resp.status == 201 <==> body.Loaded?
    ensures body.Loaded? ==>
      var id := old(db.vehicles.nextId);
      && id !in old(db.vehicles.rows)
      && db.vehicles == old(db.vehicles).Insert(Vehicle(body.data.name, body.data.status, body.data.location, now))
      && resp == Response(201, Obj(map["message" := Str("Vehicle created successfully"), "vehicle_id" := Int(id)]))
  {
    if body.Invalid? {
      return InvalidInput(body.details);
    }
    var data := body.data;
    var id := db.vehicles.nextId;
    db.vehicles := db.vehicles.Insert(Vehicle(data.name, data.status, data.location, now));
    resp := Response(201, Obj(map["message" := Str("Vehicle created successfully"), "vehicle_id" := Int(id)]));
  }

  function GetVehicle(db: Db, vehicleId: int): (r: Response)
    reads db
    ensures vehicleId !in db.vehicles.rows <==> r == Fail(404, "Vehicle not found")
    ensures vehicleId in db.vehicles.rows ==>
      r == Response(200, VehicleJson(vehicleId, db.vehicles.rows[vehicleId]))
  {
    if vehicleId !in db.vehicles.rows then Fail(404, "Vehicle not found")
    else Response(200, VehicleJson(vehicleId, db.vehicles.rows[vehicleId]))
  }

  /** The `for key, value in data.items(): setattr(...)` loop on one vehicle. */
  method ApplyPatch(v: Vehicle, patch: VehiclePatch) returns (w: Vehicle)
    ensures w == Patched(v, patch)
  {
    w := v;
    var rest := patch.Keys;
    while rest != {}
      invariant rest <= patch.Keys
      invariant w.createdAt == v.createdAt
      invariant forall f :: FieldOf(w, f) == if f in patch && f !in rest then patch[f] else FieldOf(v, f)
      decreases rest
    {
      var f :| f in rest;
      w := WithField(w, f, patch[f]);
      rest := rest - {f};
    }
    assert FieldOf(w, Name) == FieldOf(Patched(v, patch), Name);
    assert FieldOf(w, Status) == FieldOf(Patched(v, patch), Status);
    assert FieldOf(w, Location) == FieldOf(Patched(v, patch), Location);
  }

  method UpdateVehicle(db: Db, vehicleId: int, body: Parsed<VehiclePatch>) returns (resp: Response)
    requires db.vehicles.Valid()
    modifies db`vehicles
    ensures db.vehicles.Valid()
    ensures body.Invalid? ==> resp == InvalidInput(body.details)
    ensures body.Loaded? && vehicleId !in old(db.vehicles.rows) ==> resp == Fail(404, "Vehicle not found")
    ensures resp.status == 200 <==> body.Loaded? && vehicleId in old(db.vehicles.rows)
    ensures resp.status != 200 ==> db.vehicles == old(db.vehicles)
    ensures resp.status == 200 ==>
      && resp == Done(200, "Vehicle updated successfully")
      && db.vehicles == old(db.vehicles).Put(vehicleId, Patched(old(db.vehicles.rows[vehicleId]), body.data))
  {
    if body.Invalid? {
      return InvalidInput(body.details);
    }
    if vehicleId !in db.vehicles.rows {
      return Fail(404, "Vehicle not found");
    }
    var vehicle := ApplyPatch(db.vehicles.rows[vehicleId], body.data);
    db.vehicles := db.vehicles.Put(vehicleId, vehicle);
    resp := Done(200, "Vehicle updated successfully");
  }

  method DeleteVehicle(db: Db, vehicleId: int) returns (resp: Response)
    requires db.vehicles.Valid()
    modifies db`vehicles
    ensures db.vehicles.Valid()
    ensures vehicleId !in old(db.vehicles.rows) ==> resp == Fail(404, "Vehicle not found") && db.vehicles == old(db.vehicles)
    ensures vehicleId in old(db.vehicles.rows) ==>
      && resp == Done(200, "Vehicle deleted successfully")
      && db.vehicles == old(db.vehicles).Remove(vehicleId)
    ensures GetVehicle(db, vehicleId) == Fail(404, "Vehicle not found")
  {
    if vehicleId !in db.vehicles.rows {
      return Fail(404, "Vehicle not found");
    }
    db.vehicles := db.vehicles.Remove(vehicleId);
    resp := Done(200, "Vehicle deleted successfully");
  }

  function ListVehicles(db: Db): (r: Response)
    reads db
    requires db.vehicles.Valid()
    ensures r.status == 200 && r.body.Arr? && |r.body.items| == |db.vehicles.rows|
    ensures forall id :: id in db.vehicles.rows ==> VehicleJson(id, db.vehicles.rows[id]) in r.body.items
  {
    Response(200, Arr(Project(db.vehicles.All(), VehicleJson)))
  }
}

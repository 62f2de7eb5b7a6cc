/** Geofences: a name and a coordinates string that must decode as JSON.
    The JSON decoder is a parameter: `decode(text)` is `Some(value)` when
    `json.loads(text)` succeeds and `None` when it raises. */
module GeofenceApi {
  import opened Json
  import opened Http
  import opened Tables
  import opened Database

  /** `GeofenceSchema`: both fields required, on create and on update alike. */
  datatype GeofenceInput = GeofenceInput(name: string, coordinates: string)

  /** Every stored coordinates string decodes. */
  predicate Decodable(t: Table<Geofence>, decode: string -> Option<Value>) {
    forall id :: id in t.rows ==> decode(t.rows[id].coordinates).Some?
  }

  method CreateGeofence(db: Db, body: Parsed<GeofenceInput>, decode: string -> Option<Value>, now: int)
    returns (resp: Response)
    requires db.geofences.Valid()
    modifies db`geofences
    ensures db.geofences.Valid()
    ensures body.Invalid? ==> resp == InvalidInput(body.details)
    ensures body.Loaded? && decode(body.data.coordinates).None? ==> resp == Fail(400, "Invalid coordinates format")
    ensures resp.status == 201 <==> body.Loaded? && decode(body.data.coordinates).Some?
    ensures resp.status != 201 ==> db.geofences == old(db.geofences)
    ensures resp.status == 201 ==>
      var id := old(db.geofences.nextId);
      && id !in old(db.geofences.rows)
      && db.geofences == old(db.geofences).Insert(Geofence(body.data.name, body.data.coordinates, now))
      && resp == Response(201, Obj(map["message" := Str("Geofence created successfully"), "geofence_id" := Int(id)]))
    ensures Decodable(old(db.geofences), decode) ==> Decodable(db.geofences, decode)
  {
    if body.Invalid? {
      return InvalidInput(body.details);
    }
    var data := body.data;
    if decode(data.coordinates).None? {
      return Fail(400, "Invalid coordinates format");
    }
    var id := db.geofences.nextId;
    db.geofences := db.geofences.Insert(Geofence(data.name, data.coordinates, now));
    resp := Response(201, Obj(map["message" := Str("Geofence created successfully"), "geofence_id" := Int(id)]));
  }

  /** The two attributes `data.items()` carries. */
  datatype GeofenceField = FenceName | Coordinates

  function InputField(data: GeofenceInput, f: GeofenceField): string {
    match f
    case FenceName => data.name
    case Coordinates => data.coordinates
  }

  function StoredField(g: Geofence, f: GeofenceField): string {
    match f
    case FenceName => g.name
    case Coordinates => g.coordinates
  }

  /** The `for key, value in data.items(): setattr(geofence, key, value)` loop:
      every loaded field is written, the creation time is kept. */
  method ApplyInput(g: Geofence, data: GeofenceInput) returns (h: Geofence)
    ensures h == Geofence(data.name, data.coordinates, g.createdAt)
  {
    h := g;
    var rest := {FenceName, Coordinates};
    while rest != {}
      invariant h.createdAt == g.createdAt
      invariant forall f :: StoredField(h, f) == if f in rest then StoredField(g, f) else InputField(data, f)
      decreases rest
    {
      var f :| f in rest;
      h := match f
        case FenceName => h.(name := data.name)
        case Coordinates => h.(coordinates := data.coordinates);
      rest := rest - {f};
    }
    assert StoredField(h, FenceName) == data.name;
    assert StoredField(h, Coordinates) == data.coordinates;
  }

  /** Existence is checked before the coordinates. */
  method UpdateGeofence(db: Db, geofenceId: int, body: Parsed<GeofenceInput>, decode: string -> Option<Value>)
    returns (resp: Response)
    requires db.geofences.Valid()
    modifies db`geofences
    ensures db.geofences.Valid()
    ensures body.Invalid? ==> resp == InvalidInput(body.details)
    ensures body.Loaded? && geofenceId !in old(db.geofences.rows) ==> resp == Fail(404, "Geofence not found")
    ensures body.Loaded? && geofenceId in old(db.geofences.rows) && decode(body.data.coordinates).None? ==>
      resp == Fail(400, "Invalid coordinates format")
    ensures resp.status == 200 <==>
      body.Loaded? && geofenceId in old(db.geofences.rows) && decode(body.data.coordinates).Some?
    ensures resp.status != 200 ==> db.geofences == old(db.geofences)
    ensures resp.status == 200 ==>
      && resp == Done(200, "Geofence updated successfully")
      && db.geofences == old(db.geofences).Put(geofenceId,
           Geofence(body.data.name, body.data.coordinates, old(db.geofences.rows[geofenceId]).createdAt))
    ensures Decodable(old(db.geofences), decode) ==> Decodable(db.geofences, decode)
  {
    if body.Invalid? {
      return InvalidInput(body.details);
    }
    if geofenceId !in db.geofences.rows {
      return Fail(404, "Geofence not found");
    }
    if decode(body.data.coordinates).None? {
      return Fail(400, "Invalid coordinates format");
    }
    var g := ApplyInput(db.geofences.rows[geofenceId], body.data);
    db.geofences := db.geofences.Put(geofenceId, g);
    resp := Done(200, "Geofence updated successfully");
  }

  method DeleteGeofence(db: Db, geofenceId: int) returns (resp: Response)
    requires db.geofences.Valid()
    modifies db`geofences
    ensures db.geofences.Valid()
    ensures geofenceId !in old(db.geofences.rows) ==>
      resp == Fail(404, "Geofence not found") && db.geofences == old(db.geofences)
    ensures geofenceId in old(db.geofences.rows) ==>
      resp == Done(200, "Geofence deleted successfully") && db.geofences == old(db.geofences).Remove(geofenceId)
    ensures geofenceId !in db.geofences.rows
  {
    if geofenceId !in db.geofences.rows {
      return Fail(404, "Geofence not found");
    }
    db.geofences := db.geofences.Remove(geofenceId);
    resp := Done(200, "Geofence deleted successfully");
  }

  function FenceJson(id: int, g: Geofence, coordinates: Value): Value {
    Obj(map[
      "id" := Int(id),
      "name" := Str(g.name),
      "coordinates" := coordinates,
      "created_at" := IsoFormat(g.createdAt)])
  }

  /** A stored string that fails to decode raises an error no handler
      catches, which the application turns into its 500 reply. */
  function GetGeofence(db: Db, geofenceId: int, decode: string -> Option<Value>): (r: Response)
    reads db
    ensures geofenceId !in db.geofences.rows ==> r == Fail(404, "Geofence not found")
    ensures geofenceId in db.geofences.rows ==>
      var g := db.geofences.rows[geofenceId];
      && (decode(g.coordinates).None? ==> r == InternalServerError)
      && (decode(g.coordinates).Some? ==> r == Response(200, FenceJson(geofenceId, g, decode(g.coordinates).value)))
    ensures Decodable(db.geofences, decode) ==> r.status != 500
  {
    if geofenceId !in db.geofences.rows then Fail(404, "Geofence not found")
    else
      var g := db.geofences.rows[geofenceId];
      match decode(g.coordinates)
      case None => InternalServerError
      case Some(c) => Response(200, FenceJson(geofenceId, g, c))
  }

  /** The list comprehension over `Query.all()`; the first undecodable row
      aborts the whole list. */
  function FencesJson(s: seq<(int, Geofence)>, decode: string -> Option<Value>): (o: Option<seq<Value>>)
    ensures o.Some? <==> forall i :: 0 <= i < |s| ==> decode(s[i].1.coordinates).Some?
    ensures o.Some? ==> |o.value| == |s|
    ensures o.Some? ==>
      forall i :: 0 <= i < |s| ==> o.value[i] == FenceJson(s[i].0, s[i].1, decode(s[i].1.coordinates).value)
  {
    if s == [] then Some([])
    else
      match decode(s[0].1.coordinates)
      case None => None
      case Some(c) =>
        var rest := FencesJson(s[1..], decode);
        if rest.None? then None
        else Some([FenceJson(s[0].0, s[0].1, c)] + rest.value)
  }

  function ListGeofences(db: Db, decode: string -> Option<Value>): (r: Response)
    reads db
    requires db.geofences.Valid()
    ensures r.status == 200 || r == InternalServerError
    ensures r.status == 200 ==> r.body.Arr? && |r.body.items| == |db.geofences.rows|
    ensures Decodable(db.geofences, decode) <==> r.status == 200
    ensures r.status == 200 ==>
      forall i :: 0 <= i < |r.body.items| ==>
        var (id, g) := db.geofences.All()[i];
        decode(g.coordinates).Some? && r.body.items[i] == FenceJson(id, g, decode(g.coordinates).value)
    ensures r.status == 200 ==>
      forall id :: id in db.geofences.rows ==>
        var g := db.geofences.rows[id];
        decode(g.coordinates).Some? && FenceJson(id, g, decode(g.coordinates).value) in r.body.items
  {
    var all := db.geofences.All();
    match FencesJson(all, decode)
    case None => InternalServerError
    case Some(items) => Response(200, Arr(items))
  }
}

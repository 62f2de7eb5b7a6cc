/** Trips: starting one on an existing vehicle, ending it once, reading them
    back. A trip moves from active (no end time) to ended and never back. */
module TripApi {
  import opened Json
  import opened Http
  import opened Tables
  import opened Database

  /** The fields `TripSchema` loads; `endLocation` is accepted and then ignored. */
  datatype TripInput = TripInput(vehicleId: int, startLocation: string, endLocation: Option<string>)

  /** The one field `EndTripSchema` loads. */
  datatype EndTripInput = EndTripInput(endLocation: string)

  predicate Active(t: Trip) {
    t.endTime.None?
  }

  method StartTrip(db: Db, body: Parsed<TripInput>, now: int) returns (resp: Response)
    requires db.trips.Valid()
    modifies db`trips
    ensures db.trips.Valid()
    ensures body.Invalid? ==> resp == InvalidInput(body.details)
    ensures body.Loaded? && body.data.vehicleId !in db.vehicles.rows ==>
      resp == Fail(404, "Vehicle not found")
    ensures resp.status != 201 ==> db.trips == old(db.trips)
    ensures resp.status == 201 <==> body.Loaded? && body.data.vehicleId in db.vehicles.rows
    ensures resp.status == 201 ==>
      var id := old(db.trips.nextId);
      && id !in old(db.trips.rows)
      && db.trips == old(db.trips).Insert(Trip(body.data.vehicleId, body.data.startLocation, None, now, None))
      && Active(db.trips.rows[id]) && db.trips.rows[id].endLocation.None?
      && resp == Response(201, Obj(map["message" := Str("Trip started successfully"), "trip_id" := Int(id)]))
  {
    if body.Invalid? {
      return InvalidInput(body.details);
    }
    var data := body.data;
    if data.vehicleId !in db.vehicles.rows {
      return Fail(404, "Vehicle not found");
    }
    var id := db.trips.nextId;
    db.trips := db.trips.Insert(Trip(data.vehicleId, data.startLocation, None, now, None));
    resp := Response(201, Obj(map["message" := Str("Trip started successfully"), "trip_id" := Int(id)]));
  }

  method EndTrip(db: Db, tripId: int, body: Parsed<EndTripInput>, now: int) returns (resp: Response)
    requires db.trips.Valid()
    modifies db`trips
    ensures db.trips.Valid()
    ensures body.Invalid? ==> resp == InvalidInput(body.details)
    ensures body.Loaded? && tripId !in old(db.trips.rows) ==> resp == Fail(404, "Trip not found")
    ensures body.Loaded? && tripId in old(db.trips.rows) && !Active(old(db.trips.rows[tripId])) ==>
      resp == Fail(400, "Trip has already ended")
    ensures resp.status == 200 <==>
      body.Loaded? && tripId in old(db.trips.rows) && Active(old(db.trips.rows[tripId]))
    ensures resp.status != 200 ==> db.trips == old(db.trips)
    ensures resp.status == 200 ==>
      && resp == Done(200, "Trip ended successfully")
      && db.trips == old(db.trips).Put(tripId,
           old(db.trips.rows[tripId]).(endLocation := Some(body.data.endLocation), endTime := Some(now)))
      && !Active(db.trips.rows[tripId])
  {
    if body.Invalid? {
      return InvalidInput(body.details);
    }
    if tripId !in db.trips.rows {
      return Fail(404, "Trip not found");
    }
    var trip := db.trips.rows[tripId];
    if !Active(trip) {
      return Fail(400, "Trip has already ended");
    }
    db.trips := db.trips.Put(tripId, trip.(endLocation := Some(body.data.endLocation), endTime := Some(now)));
    resp := Done(200, "Trip ended successfully");
  }

  function TripJson(id: int, t: Trip): Value {
    Obj(map[
      "id" := Int(id),
      "vehicle_id" := Int(t.vehicleId),
      "start_location" := Str(t.startLocation),
      "end_location" := OptionalStr(t.endLocation),
      "start_time" := IsoFormat(t.startTime),
      "end_time" := OptionalIso(t.endTime)])
  }

  function GetTrip(db: Db, tripId: int): (r: Response)
    reads db
    ensures tripId !in db.trips.rows ==> r == Fail(404, "Trip not found")
    ensures tripId in db.trips.rows ==> r == Response(200, TripJson(tripId, db.trips.rows[tripId]))
    ensures r.status == 200 ==>
      && r.body.Obj? && "end_time" in r.body.fields
      && (r.body.fields["end_time"] == Null <==> Active(db.trips.rows[tripId]))
  {
    if tripId !in db.trips.rows then Fail(404, "Trip not found")
    else Response(200, TripJson(tripId, db.trips.rows[tripId]))
  }

  function ListTrips(db: Db): (r: Response)
    reads db
    requires db.trips.Valid()
    ensures r.status == 200 && r.body.Arr? && |r.body.items| == |db.trips.rows|
    ensures forall id :: id in db.trips.rows ==> TripJson(id, db.trips.rows[id]) in r.body.items
  {
    Response(200, Arr(Project(db.trips.All(), TripJson)))
  }

  /** Two successive ends of one trip: the second is refused and the trip
      keeps the end location and end time of the first. */
  method EndTripTwice(db: Db, tripId: int, first: string, second: string, t1: int, t2: int)
    returns (r1: Response, r2: Response)
    requires db.trips.Valid()
    requires tripId in db.trips.rows && Active(db.trips.rows[tripId])
    modifies db`trips
    ensures r1 == Done(200, "Trip ended successfully")
    ensures r2 == Fail(400, "Trip has already ended")
    ensures tripId in db.trips.rows
    ensures db.trips.rows[tripId].endLocation == Some(first) && db.trips.rows[tripId].endTime == Some(t1)
  {
    r1 := EndTrip(db, tripId, Loaded(EndTripInput(first)), t1);
    r2 := EndTrip(db, tripId, Loaded(EndTripInput(second)), t2);
  }
}

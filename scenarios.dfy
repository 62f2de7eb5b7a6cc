/** End-to-end request sequences on a fresh database. */
module Scenarios {
  import opened Json
  import opened Http
  import opened Database
  import VehicleApi
  import TripApi
  import PaymentApi

  /** Create a vehicle, start a trip on it, end the trip, end it again. */
  method TripLifecycle(now: int) returns (vehicle: Response, start: Response, end1: Response, end2: Response)
    ensures vehicle == Response(201, Obj(map["message" := Str("Vehicle created successfully"), "vehicle_id" := Int(1)]))
    ensures start == Response(201, Obj(map["message" := Str("Trip started successfully"), "trip_id" := Int(1)]))
    ensures end1 == Done(200, "Trip ended successfully")
    ensures end2 == Fail(400, "Trip has already ended")
  {
    var db := new Db();
    vehicle := VehicleApi.CreateVehicle(db, Loaded(VehicleApi.VehicleInput("V1", "active", "Depot")), now);
    assert 1 in db.vehicles.rows && db.trips.nextId == 1 && db.trips.rows == map[];
    start := TripApi.StartTrip(db, Loaded(TripApi.TripInput(1, "Depot", None)), now);
    assert 1 in db.trips.rows && TripApi.Active(db.trips.rows[1]);
    end1 := TripApi.EndTrip(db, 1, Loaded(TripApi.EndTripInput("Mall")), now + 1);
    assert 1 in db.trips.rows && !TripApi.Active(db.trips.rows[1]);
    end2 := TripApi.EndTrip(db, 1, Loaded(TripApi.EndTripInput("X")), now + 2);
  }

  /** Invoice a user 10.0, pay 9.0, pay 10.0, pay 10.0 again. */
  method InvoiceLifecycle(now: int) returns (invoice: Response, short: Response, paid: Response, again: Response)
    ensures invoice == Response(201, Obj(map["message" := Str("Invoice created successfully"), "invoice_id" := Int(1)]))
    ensures short == Fail(400, "Payment amount does not match invoice amount")
    ensures paid == Done(200, "Payment processed successfully")
    ensures again == Fail(400, "Invoice has already been paid")
  {
    var db := new Db();
    db.users := db.users.Insert(User("alice", "a@example.com", Str("user"), now));
    assert 1 in db.users.rows && db.invoices.nextId == 1 && db.invoices.rows == map[];
    invoice := PaymentApi.CreateInvoice(db, Loaded(PaymentApi.InvoiceInput(1, 10.0, "fee")), now);
    assert 1 in db.invoices.rows && db.invoices.rows[1].amount == 10.0 && db.invoices.rows[1].status == PaymentApi.Pending;
    short := PaymentApi.ProcessPayment(db, Loaded(PaymentApi.PaymentInput(1, 9.0, "card")));
    assert 1 in db.invoices.rows && db.invoices.rows[1].amount == 10.0 && db.invoices.rows[1].status == PaymentApi.Pending;
    paid := PaymentApi.ProcessPayment(db, Loaded(PaymentApi.PaymentInput(1, 10.0, "card")));
    assert 1 in db.invoices.rows && db.invoices.rows[1].status == PaymentApi.Paid;
    again := PaymentApi.ProcessPayment(db, Loaded(PaymentApi.PaymentInput(1, 10.0, "card")));
  }
}

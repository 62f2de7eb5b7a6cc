/** The relational store behind the API handlers: one table per model class
    the handlers import, with the attributes the handlers read and write.
    Every handler works on the one shared database object, as the Flask
    handlers work on the one SQLAlchemy session. */
module Database {
  import opened Json
  import opened Tables

  datatype Vehicle = Vehicle(name: string, status: string, location: string, createdAt: int)

  /** A trip is active while `endTime` is unset. */
  datatype Trip = Trip(
    vehicleId: int,
    startLocation: string,
    endLocation: Option<string>,
    startTime: int,
    endTime: Option<int>)

  datatype Maintenance = Maintenance(
    vehicleId: int,
    description: string,
    scheduledDate: int,
    status: string,
    createdAt: int)

  /** An alert is open while `resolvedAt` is unset. */
  datatype Alert = Alert(vehicleId: int, message: string, createdAt: int, resolvedAt: Option<int>)

  datatype Invoice = Invoice(userId: int, amount: real, description: string, status: string, createdAt: int)

  /** The role column receives whatever JSON value a grant submits. */
  datatype User = User(username: string, email: string, role: Value, createdAt: int)

  /** `coordinates` holds the JSON text exactly as submitted. */
  datatype Geofence = Geofence(name: string, coordinates: string, createdAt: int)

  /** `conditions` holds the submitted dict (stored as its JSON text, read back
      with `json.loads`), or nothing for rules created without conditions. */
  datatype PricingRule = PricingRule(
    name: string,
    ruleType: string,
    priceModifier: real,
    conditions: Option<Value>,
    createdAt: int)

  class Db {
    var vehicles: Table<Vehicle>
    var trips: Table<Trip>
    var maintenance: Table<Maintenance>
    var alerts: Table<Alert>
    var invoices: Table<Invoice>
    var users: Table<User>
    var geofences: Table<Geofence>
    var pricingRules: Table<PricingRule>

    predicate Valid()
      reads this
    {
      && vehicles.Valid() && trips.Valid() && maintenance.Valid() && alerts.Valid()
      && invoices.Valid() && users.Valid() && geofences.Valid() && pricingRules.Valid()
    }

    /** A fresh, empty database. */
    constructor ()
      ensures Valid()
      ensures vehicles == Empty() && trips == Empty() && maintenance == Empty() && alerts == Empty()
      ensures invoices == Empty() && users == Empty() && geofences == Empty() && pricingRules == Empty()
    {
      vehicles, trips, maintenance, alerts := Empty(), Empty(), Empty(), Empty();
      invoices, users, geofences, pricingRules := Empty(), Empty(), Empty(), Empty();
    }
  }
}

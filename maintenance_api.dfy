/** Maintenance tasks and alerts for existing vehicles. A task's status is
    a free string that any update may overwrite; an alert stays open, since
    no handler ever sets its resolution time. */
module MaintenanceApi {
  import opened Json
  import opened Http
  import opened Tables
  import opened Database

  /** `scheduled_date` is a parsed `DateTime`, a clock value here. */
  datatype MaintenanceInput = MaintenanceInput(vehicleId: int, description: string, scheduledDate: int)

  datatype AlertInput = AlertInput(vehicleId: int, message: string)

  const Scheduled := "Scheduled"

  method ScheduleMaintenance(db: Db, body: Parsed<MaintenanceInput>, now: int) returns (resp: Response)
    requires db.maintenance.Valid()
    modifies db`maintenance
    ensures db.maintenance.Valid()
    ensures body.Invalid? ==> resp == InvalidInput(body.details)
    ensures body.Loaded? && body.data.vehicleId !in db.vehicles.rows ==> resp == Fail(404, "Vehicle not found")
    ensures resp.status == 201 <==> body.Loaded? && body.data.vehicleId in db.vehicles.rows
    ensures resp.status != 201 ==> db.maintenance == old(db.maintenance)
    ensures resp.status == 201 ==>
      var id := old(db.maintenance.nextId);
      && id !in old(db.maintenance.rows)
      && db.maintenance == old(db.maintenance).Insert(
           Maintenance(body.data.vehicleId, body.data.description, body.data.scheduledDate, Scheduled, now))
      && resp == Response(201, Obj(map[
           "message" := Str("Maintenance task scheduled successfully"), "maintenance_id" := Int(id)]))
  {
    if body.Invalid? {
      return InvalidInput(body.details);
    }
    var data := body.data;
    if data.vehicleId !in db.vehicles.rows {
      return Fail(404, "Vehicle not found");
    }
    var id := db.maintenance.nextId;
    db.maintenance := db.maintenance.Insert(
      Maintenance(data.vehicleId, data.description, data.scheduledDate, Scheduled, now));
    resp := Response(201, Obj(map[
      "message" := Str("Maintenance task scheduled successfully"), "maintenance_id" := Int(id)]));
  }

  /** Any status string is accepted: there is no transition order. */
  method UpdateMaintenance(db: Db, maintenanceId: int, body: Parsed<string>) returns (resp: Response)
    requires db.maintenance.Valid()
    modifies db`maintenance
    ensures db.maintenance.Valid()
    ensures body.Invalid? ==> resp == InvalidInput(body.details)
    ensures body.Loaded? && maintenanceId !in old(db.maintenance.rows) ==>
      resp == Fail(404, "Maintenance task not found")
    ensures resp.status == 200 <==> body.Loaded? && maintenanceId in old(db.maintenance.rows)
    ensures resp.status != 200 ==> db.maintenance == old(db.maintenance)
    ensures resp.status == 200 ==>
      && resp == Done(200, "Maintenance task updated successfully")
      && db.maintenance == old(db.maintenance).Put(maintenanceId,
           old(db.maintenance.rows[maintenanceId]).(status := body.data))
  {
    if body.Invalid? {
      return InvalidInput(body.details);
    }
    if maintenanceId !in db.maintenance.rows {
      return Fail(404, "Maintenance task not found");
    }
    var task := db.maintenance.rows[maintenanceId];
    db.maintenance := db.maintenance.Put(maintenanceId, task.(status := body.data));
    resp := Done(200, "Maintenance task updated successfully");
  }

  predicate ForVehicle(vehicleId: int, id: int, m: Maintenance) {
    m.vehicleId == vehicleId
  }

  /** `Maintenance.query.filter_by(vehicle_id=vehicleId).all()` */
  function TasksOf(db: Db, vehicleId: int): (r: seq<(int, Maintenance)>)
    reads db
    requires db.maintenance.Valid()
    ensures forall x :: x in r <==>
      x.0 in db.maintenance.rows && db.maintenance.rows[x.0] == x.1 && x.1.vehicleId == vehicleId
    ensures Ascending(r)
  {
    var all := db.maintenance.All();
    WhereAscending(all, (id, m) => ForVehicle(vehicleId, id, m));
    Where(all, (id, m) => ForVehicle(vehicleId, id, m))
  }

  function VehicleTaskJson(id: int, m: Maintenance): Value {
    Obj(map[
      "id" := Int(id),
      "description" := Str(m.description),
      "scheduled_date" := IsoFormat(m.scheduledDate),
      "status" := Str(m.status),
      "created_at" := IsoFormat(m.createdAt)])
  }

  function GetVehicleMaintenance(db: Db, vehicleId: int): (r: Response)
    reads db
    requires db.maintenance.Valid()
    ensures vehicleId !in db.vehicles.rows <==> r == Fail(404, "Vehicle not found")
    ensures vehicleId in db.vehicles.rows ==>
      r == Response(200, Arr(Project(TasksOf(db, vehicleId), VehicleTaskJson)))
  {
    if vehicleId !in db.vehicles.rows then Fail(404, "Vehicle not found")
    else Response(200, Arr(Project(TasksOf(db, vehicleId), VehicleTaskJson)))
  }

  function TaskJson(id: int, m: Maintenance): Value {
    Obj(map[
      "id" := Int(id),
      "vehicle_id" := Int(m.vehicleId),
      "description" := Str(m.description),
      "scheduled_date" := IsoFormat(m.scheduledDate),
      "status" := Str(m.status),
      "created_at" := IsoFormat(m.createdAt)])
  }

  function ListMaintenance(db: Db): (r: Response)
    reads db
    requires db.maintenance.Valid()
    ensures r.status == 200 && r.body.Arr? && |r.body.items| == |db.maintenance.rows|
    ensures forall id :: id in db.maintenance.rows ==> TaskJson(id, db.maintenance.rows[id]) in r.body.items
  {
    Response(200, Arr(Project(db.maintenance.All(), TaskJson)))
  }

  /** No alert has been resolved. */
  predicate AllOpen(t: Table<Alert>) {
    forall id :: id in t.rows ==> t.rows[id].resolvedAt.None?
  }

  method CreateAlert(db: Db, body: Parsed<AlertInput>, now: int) returns (resp: Response)
    requires db.alerts.Valid()
    modifies db`alerts
    ensures db.alerts.Valid()
    ensures body.Invalid? ==> resp == InvalidInput(body.details)
    ensures body.Loaded? && body.data.vehicleId !in db.vehicles.rows ==> resp == Fail(404, "Vehicle not found")
    ensures resp.status == 201 <==> body.Loaded? && body.data.vehicleId in db.vehicles.rows
    ensures resp.status != 201 ==> db.alerts == old(db.alerts)
    ensures resp.status == 201 ==>
      var id := old(db.alerts.nextId);
      && id !in old(db.alerts.rows)
      && db.alerts == old(db.alerts).Insert(Alert(body.data.vehicleId, body.data.message, now, None))
      && resp == Response(201, Obj(map["message" := Str("Alert created successfully"), "alert_id" := Int(id)]))
    ensures AllOpen(old(db.alerts)) ==> AllOpen(db.alerts)
  {
    if body.Invalid? {
      return InvalidInput(body.details);
    }
    var data := body.data;
    if data.vehicleId !in db.vehicles.rows {
      return Fail(404, "Vehicle not found");
    }
    var id := db.alerts.nextId;
    db.alerts := db.alerts.Insert(Alert(data.vehicleId, data.message, now, None));
    resp := Response(201, Obj(map["message" := Str("Alert created successfully"), "alert_id" := Int(id)]));
  }

  predicate Unresolved(id: int, a: Alert) {
    a.resolvedAt.None?
  }

  function AlertJson(id: int, a: Alert): Value {
    Obj(map[
      "id" := Int(id),
      "vehicle_id" := Int(a.vehicleId),
      "message" := Str(a.message),
      "created_at" := IsoFormat(a.createdAt)])
  }

  /** `Alert.query.filter_by(resolved_at=None).all()` */
  function OpenAlerts(db: Db): (r: seq<(int, Alert)>)
    reads db
    requires db.alerts.Valid()
    ensures forall x :: x in r <==> x.0 in db.alerts.rows && db.alerts.rows[x.0] == x.1 && x.1.resolvedAt.None?
    ensures Ascending(r)
  {
    var all := db.alerts.All();
    WhereAscending(all, Unresolved);
    Where(all, Unresolved)
  }

  function ListAlerts(db: Db): (r: Response)
    reads db
    requires db.alerts.Valid()
    ensures r == Response(200, Arr(Project(OpenAlerts(db), AlertJson)))
    ensures forall id :: id in db.alerts.rows && db.alerts.rows[id].resolvedAt.None? ==>
      AlertJson(id, db.alerts.rows[id]) in r.body.items
  {
    Response(200, Arr(Project(OpenAlerts(db), AlertJson)))
  }

  /** While every alert is open, as every handler here keeps them, the
      alert list shows all of them. */
  lemma EveryAlertListed(db: Db)
    requires db.alerts.Valid() && AllOpen(db.alerts)
    ensures |ListAlerts(db).body.items| == |db.alerts.rows|
  {
    WhereAll(db.alerts.All(), Unresolved);
  }
}

/** Users: granting and revoking a role by username, and reading users back.
    `manage_access` reads the raw request body, so it is modelled over the
    JSON value itself rather than a schema-loaded record. */
module UserApi {
  import opened Json
  import opened Http
  import opened Tables
  import opened Database

  const AccessFields: seq<string> := ["username", "role", "action"]

  predicate NamedAs(name: Value, u: User) {
    Str(u.username) == name
  }

  /** The role a user holds after an accepted request: the submitted role on
      a grant, 'user' on a revoke whatever role was submitted. */
  function RoleAfter(action: Value, role: Value): (r: Value)
    requires action == Str("grant") || action == Str("revoke")
    ensures action == Str("revoke") ==> r == Str("user")
    ensures action == Str("grant") ==> r == role
  {
    if action == Str("grant") then role else Str("user")
  }

  /** The users table after an accepted request: the first user with that
      username gets the new role; with no such user nothing changes. */
  function AccessUpdated(t: Table<User>, name: Value, action: Value, role: Value): (u: Table<User>)
    requires t.Valid()
    requires action == Str("grant") || action == Str("revoke")
    ensures u.Valid() && u.rows.Keys == t.rows.Keys
    ensures forall k :: k in t.rows ==> u.rows[k] == t.rows[k].(role := u.rows[k].role)
  {
    match t.FirstWhere(u => NamedAs(name, u))
    case None => t
    case Some(id) => t.Put(id, t.rows[id].(role := RoleAfter(action, role)))
  }

  /** `f"Access {data['action']}ed for {user.username}"`, so a revoke reads "revokeed". */
  function AccessMessage(action: string, username: string): (m: string)
    ensures |m| == |action| + |username| + 14
    ensures m[..7 + |action|] == "Access " + action
    ensures m[|m| - |username|..] == username
  {
    "Access " + action + "ed for " + username
  }

  /** Python semantics of the handler's checks: a body that cannot be searched
      with `in`, or one that is not a dict at `data['action']`, raises an error
      no handler catches and ends in the application's 500 reply. */
  method ManageAccess(db: Db, data: Value) returns (resp: Response)
    requires db.users.Valid()
    modifies db`users
    ensures db.users.Valid()
    ensures ContainsAll(data, AccessFields).None? ==> resp == InternalServerError
    ensures ContainsAll(data, AccessFields) == Some(false) ==> resp == Fail(400, "Missing required fields")
    ensures ContainsAll(data, AccessFields) == Some(true) && !data.Obj? ==> resp == InternalServerError
    ensures data.Obj? && HasAll(data.fields, AccessFields) ==>
      var action := data.fields["action"];
      var name := data.fields["username"];
      && (action != Str("grant") && action != Str("revoke") ==> resp == Fail(400, "Invalid action"))
      && ((action == Str("grant") || action == Str("revoke"))
            && old(db.users).FirstWhere(u => NamedAs(name, u)).None?
          ==> resp == Fail(404, "User not found"))
    ensures resp.status != 200 ==> db.users == old(db.users)
    ensures resp.status == 200 <==>
      && data.Obj? && HasAll(data.fields, AccessFields)
      && (data.fields["action"] == Str("grant") || data.fields["action"] == Str("revoke"))
      && old(db.users).FirstWhere(u => NamedAs(data.fields["username"], u)).Some?
    ensures resp.status == 200 ==>
      && db.users == AccessUpdated(old(db.users), data.fields["username"], data.fields["action"], data.fields["role"])
      && resp == Done(200, AccessMessage(data.fields["action"].s, data.fields["username"].s))
  {
    var present := ContainsAll(data, AccessFields);
    if present.None? {
      return InternalServerError;
    }
    if !present.value {
      return Fail(400, "Missing required fields");
    }
    if !data.Obj? {
      return InternalServerError;
    }
    var action := data.fields["action"];
    if action != Str("grant") && action != Str("revoke") {
      return Fail(400, "Invalid action");
    }
    var name := data.fields["username"];
    var found := db.users.FirstWhere(u => NamedAs(name, u));
    if found.None? {
      return Fail(404, "User not found");
    }
    var user := db.users.rows[found.value];
    if action == Str("grant") {
      user := user.(role := data.fields["role"]);
    } else if action == Str("revoke") {
      user := user.(role := Str("user"));
    }
    db.users := db.users.Put(found.value, user);
    resp := Done(200, AccessMessage(action.s, user.username));
  }

  /** An accepted request changes the role of one user, the first with that
      username, and nothing else. */
  lemma AccessChangesOneRole(t: Table<User>, name: Value, action: Value, role: Value)
    requires t.Valid()
    requires action == Str("grant") || action == Str("revoke")
    requires t.FirstWhere(u => NamedAs(name, u)).Some?
    ensures var id := t.FirstWhere(u => NamedAs(name, u)).value;
      var u := AccessUpdated(t, name, action, role);
      && u.rows.Keys == t.rows.Keys
      && u.rows[id] == t.rows[id].(role := RoleAfter(action, role))
      && forall k :: k in t.rows && k != id ==> u.rows[k] == t.rows[k]
  {
  }

  /** Granting or revoking twice leaves the users as doing it once. */
  lemma AccessIdempotent(t: Table<User>, name: Value, action: Value, role: Value)
    requires t.Valid()
    requires action == Str("grant") || action == Str("revoke")
    ensures AccessUpdated(AccessUpdated(t, name, action, role), name, action, role) == AccessUpdated(t, name, action, role)
  {
    var p := u => NamedAs(name, u);
    match t.FirstWhere(p)
    case None =>
    case Some(id) =>
      var r := t.rows[id].(role := RoleAfter(action, role));
      FirstWhereAfterPut(t, p, id, r);
      PutSame(t.Put(id, r), id);
  }

  /** A revoke after a grant leaves the plain 'user' role, whatever was granted. */
  lemma RevokeAfterGrant(t: Table<User>, name: Value, role: Value)
    requires t.Valid()
    requires t.FirstWhere(u => NamedAs(name, u)).Some?
    ensures var id := t.FirstWhere(u => NamedAs(name, u)).value;
      AccessUpdated(AccessUpdated(t, name, Str("grant"), role), name, Str("revoke"), role).rows[id].role == Str("user")
  {
    var p := u => NamedAs(name, u);
    var id := t.FirstWhere(p).value;
    FirstWhereAfterPut(t, p, id, t.rows[id].(role := role));
  }

  function UserJson(id: int, u: User): Value {
    Obj(map[
      "id" := Int(id),
      "username" := Str(u.username),
      "email" := Str(u.email),
      "created_at" := IsoFormat(u.createdAt)])
  }

  function GetUsers(db: Db): (r: Response)
    reads db
    requires db.users.Valid()
    ensures r.status == 200 && r.body.Arr? && |r.body.items| == |db.users.rows|
    ensures forall id :: id in db.users.rows ==> UserJson(id, db.users.rows[id]) in r.body.items
  {
    Response(200, Arr(Project(db.users.All(), UserJson)))
  }

  function GetUser(db: Db, userId: int): (r: Response)
    reads db
    ensures userId !in db.users.rows <==> r == Fail(404, "User not found")
    ensures userId in db.users.rows ==> r == Response(200, UserJson(userId, db.users.rows[userId]))
  {
    if userId !in db.users.rows then Fail(404, "User not found")
    else Response(200, UserJson(userId, db.users.rows[userId]))
  }
}

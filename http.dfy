/** What a handler returns to Flask, and what marshmallow's `schema.load`
    hands a handler. */
module Http {
  import opened Json

  /** The outcome of `schema.load(request.json)`: the ValidationError's
      messages, or the typed fields of a valid body. */
  datatype Parsed<T> = Invalid(details: Value) | Loaded(data: T)

  /** A `jsonify(...)` body with its status code. */
  datatype Response = Response(status: int, body: Value)

  /** The body `{"message": text}`. */
  function Message(text: string): Value {
    Obj(map["message" := Str(text)])
  }

  /** `jsonify({"message": text}), status` */
  function Done(status: int, text: string): Response {
    Response(status, Message(text))
  }

  /** `jsonify({"error": text}), status` */
  function Fail(status: int, text: string): Response {
    Response(status, Obj(map["error" := Str(text)]))
  }

  /** The 400 every schema-validated handler returns when `schema.load` raises. */
  function InvalidInput(details: Value): Response {
    Response(400, Obj(map["error" := Str("Invalid input"), "details" := details]))
  }

  /** The application-wide 500 handler, reached by any exception a handler does not catch. */
  const InternalServerError: Response := Fail(500, "Internal server error")

  /** `datetime.isoformat()` of a clock value. Clock values are plain
      integers here; the text is a stand-in that keeps them apart. */
  function IsoFormat(t: int): Value {
    Str(Decimal(t))
  }

  function OptionalIso(t: Option<int>): Value {
    if t.Some? then IsoFormat(t.value) else Null
  }

  function OptionalStr(s: Option<string>): Value {
    if s.Some? then Str(s.value) else Null
  }

  /** A list comprehension `[f(row) for row in rows]` over rows with their ids. */
  function Project<R>(s: seq<(int, R)>, f: (int, R) -> Value): (vs: seq<Value>)
    ensures |vs| == |s|
    ensures forall i :: 0 <= i < |s| ==> vs[i] == f(s[i].0, s[i].1)
    ensures forall x :: x in s ==> f(x.0, x.1) in vs
  {
    if s == [] then [] else [f(s[0].0, s[0].1)] + Project(s[1..], f)
  }
}

/** JSON values as the Flask handlers receive them from `request.get_json()`
    and hand them to `jsonify`, together with the few pieces of Python's
    value semantics the handlers rely on: truthiness, `isinstance`, `in`
    and `str()`. */
module Json {

  datatype Option<T> = None | Some(value: T)

  datatype Value =
    | Null
    | Bool(b: bool)
    | Int(i: int)
    | Float(f: real)
    | Str(s: string)
    | Arr(items: seq<Value>)
    | Obj(fields: map<string, Value>)

  /** Python's `bool(v)`: None, False, zero, and empty strings, lists and dicts are false. */
  predicate Truthy(v: Value) {
    match v
    case Null => false
    case Bool(b) => b
    case Int(i) => i != 0
    case Float(f) => f != 0.0
    case Str(s) => s != ""
    case Arr(a) => a != []
    case Obj(m) => m != map[]
  }

  /** `data and isinstance(data, dict)`: the guard every validator opens with. */
  predicate IsNonEmptyObject(v: Value) {
    v.Obj? && v.fields != map[]
  }

  lemma TruthyObject(v: Value)
    ensures (Truthy(v) && v.Obj?) <==> IsNonEmptyObject(v)
  {
  }

  /** `isinstance(v, (int, float))`; a JSON boolean is a Python `bool`, which is an `int`. */
  predicate IsNumber(v: Value) {
    v.Int? || v.Float? || v.Bool?
  }

  /** `all(k in m for k in keys)` for a dict `m`. */
  predicate HasAll(m: map<string, Value>, keys: seq<string>) {
    forall k :: k in keys ==> k in m
  }

  /** Python's `key in container` for a JSON-shaped container: a key of a
      dict, an element of a list, a substring of a string. `None` stands for
      the TypeError Python raises on None, booleans and numbers. */
  function Contains(container: Value, key: string): (r: Option<bool>)
    ensures r.None? <==> !(container.Obj? || container.Arr? || container.Str?)
    ensures container.Obj? ==> r == Some(key in container.fields)
    ensures container.Arr? ==> r == Some(Str(key) in container.items)
    ensures container.Str? ==> r == Some(IsSubstring(key, container.s))
  {
    match container
    case Obj(m) => Some(key in m)
    case Arr(a) => Some(Str(key) in a)
    case Str(s) => Some(IsSubstring(key, s))
    case _ => None
  }

  /** `all(k in container for k in keys)`: stops at the first absent key,
      and raises (None) at the first test when the container cannot be
      searched. */
  function ContainsAll(container: Value, keys: seq<string>): (r: Option<bool>)
    ensures r.None? <==> keys != [] && !(container.Obj? || container.Arr? || container.Str?)
    ensures container.Obj? ==> r == Some(HasAll(container.fields, keys))
    ensures container.Str? ==> r == Some(forall k :: k in keys ==> IsSubstring(k, container.s))
    ensures r == Some(true) <==> forall i :: 0 <= i < |keys| ==> Contains(container, keys[i]) == Some(true)
  {
    if keys == [] then Some(true)
    else
      match Contains(container, keys[0])
      case None => None
      case Some(found) => if found then ContainsAll(container, keys[1..]) else Some(false)
  }

  predicate IsSubstring(needle: string, hay: string) {
    exists i, j :: 0 <= i <= j <= |hay| && hay[i..j] == needle
  }

  function DigitChar(d: int): char
    requires 0 <= d < 10
  {
    "0123456789"[d]
  }

  /** The decimal digits of a natural number, most significant first. */
  function Digits(n: nat): (s: string)
    ensures |s| >= 1
    ensures forall c :: c in s ==> '0' <= c <= '9'
    decreases n
  {
    if n < 10 then [DigitChar(n)] else Digits(n / 10) + [DigitChar(n % 10)]
  }

  /** Python's `str(n)` for an `int`. */
  function Decimal(n: int): string {
    if n < 0 then "-" + Digits(-n) else Digits(n)
  }

  /** Python's `str(v)` where the handlers format a JSON value into a string.
      Exact for strings, integers, booleans and None; floats, lists and dicts
      get a fixed stand-in text, their Python repr is not modelled. */
  function PyStr(v: Value): string {
    match v
    case Null => "None"
    case Bool(b) => if b then "True" else "False"
    case Int(i) => Decimal(i)
    case Str(s) => s
    case Float(_) => "<float>"
    case Arr(_) => "<list>"
    case Obj(_) => "<dict>"
  }
}

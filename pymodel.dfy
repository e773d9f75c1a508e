/** Python-level values and helpers shared by the interceptors: the values that
    reach the bridge from Home Assistant, Python truthiness, the outcome of a
    Python call (it returns or it raises), the Home Assistant `Context`, and the
    JSON codec, which is opaque. */
module PyModel {

  datatype Option<T> = None | Some(value: T)

  /** A Python call either returns a value or raises an exception (its text). */
  datatype Outcome<T> = Returned(value: T) | Raised(error: string)

  /** A Python value as the bridge sees it. `VObject` stands for any other
      object (a datetime, a `State`), which `json.dumps` cannot encode.
      Floats have no case of their own. */
  datatype Value =
    | VNone
    | VBool(b: bool)
    | VInt(i: int)
    | VStr(s: string)
    | VList(items: seq<Value>)
    | VDict(entries: map<string, Value>)
    | VObject(typeName: string)

  const EmptyDict: Value := VDict(map[])

  /** Python's `bool(v)`. */
  predicate Truthy(v: Value) {
    match v
    case VNone => false
    case VBool(b) => b
    case VInt(i) => i != 0
    case VStr(s) => s != ""
    case VList(xs) => |xs| > 0
    case VDict(m) => |m| > 0
    case VObject(_) => true
  }

  /** Python's `v or {}`: a falsy value (None, an empty dict, ...) becomes `{}`. */
  function OrEmptyDict(v: Value): (r: Value)
    ensures Truthy(v) ==> r == v
    ensures !Truthy(v) ==> r == EmptyDict
  {
    if Truthy(v) then v else EmptyDict
  }

  /** `json.dumps(v)` returns instead of raising `TypeError`. */
  predicate Serializable(v: Value) {
    match v
    case VList(xs) => forall i :: 0 <= i < |xs| ==> Serializable(xs[i])
    case VDict(m) => forall k :: k in m ==> Serializable(m[k])
    case VObject(_) => false
    case _ => true
  }

  /** The JSON module and `str()`, left opaque: `dumps` is meaningful on
      serialisable values only, `loads` is partial (None = the text does not
      parse), `str` is Python's `str()`. */
  datatype Codec = Codec(dumps: Value -> string, loads: string -> Option<Value>, str: Value -> string)

  /** Home Assistant's `Context`; only its id is read by the bridge. */
  datatype Context = Context(id: string)

  /** `str(context.id if context else "")`. */
  function ContextId(c: Option<Context>): string {
    if c.Some? then c.value.id else ""
  }

  /** `OrEmptyDict` never changes a value twice: `(v or {}) or {}` is `v or {}`. */
  lemma OrEmptyDictIdempotent(v: Value)
    ensures OrEmptyDict(OrEmptyDict(v)) == OrEmptyDict(v)
  {
  }
}

/**
 * The Python values that cross the dispatch layer: task arguments, handoff
 * dictionaries, entity attributes and environment variables, together with
 * Python's truthiness and the exceptions the core raises or catches.
 */
module PyValues {

  /** An ndb datastore key, treated as an opaque value: its kind names the model class. */
  datatype Key = Key(kind: string, id: string)

  /** A Python value as far as the core can observe it. A tuple is a `VList`. */
  datatype Value =
    | VNone
    | VBool(b: bool)
    | VInt(i: int)
    | VStr(s: string)
    | VList(items: seq<Value>)
    | VDict(entries: map<string, Value>)
    | VDateTime(stamp: int)
    | VKey(key: Key)

  /** The exceptions the core raises or distinguishes. */
  datatype Exc =
    | InvalidTestcaseError
    | KeyError
    | AttributeError
    | AssertionError
    | TypeError
    | ValueError
    | RuntimeError(message: string)
    /** Any other exception raised by code outside the model, by name. */
    | OtherError(name: string)

  /** Python's `bool(v)`. */
  predicate Truthy(v: Value) {
    match v
    case VNone => false
    case VBool(b) => b
    case VInt(i) => i != 0
    case VStr(s) => s != ""
    case VList(items) => items != []
    case VDict(entries) => entries != map[]
    case VDateTime(_) => true
    case VKey(_) => true
  }

  /** `json.dumps` accepts the value: no datetime and no datastore key anywhere inside it. */
  predicate JsonSafe(v: Value) {
    match v
    case VNone => true
    case VBool(_) => true
    case VInt(_) => true
    case VStr(_) => true
    case VList(items) => forall i :: 0 <= i < |items| ==> JsonSafe(items[i])
    case VDict(entries) => forall k :: k in entries ==> JsonSafe(entries[k])
    case VDateTime(_) => false
    case VKey(_) => false
  }

  /** Every value of a mapping is accepted by `json.dumps`. */
  predicate AllJsonSafe(m: map<string, Value>) {
    forall k :: k in m ==> JsonSafe(m[k])
  }
}

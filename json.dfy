/**
 * JSON values as `response.json()` hands them to Python, and the parts of
 * Python's semantics the fetchers apply to them: the subscript `x[k]` (which
 * raises KeyError or some other exception) and `float(x)`.
 * Python's `None` and JSON `null` are the same value here.
 */
module Json {
  import opened Wrappers

  datatype Json =
    | Null
    | Bool(b: bool)
    | Int(i: int)
    | Real(literal: string)
    | Str(s: string)
    | Arr(items: seq<Json>)
    | Obj(fields: map<string, Json>)

  /** A decoded top-level JSON object. */
  type Document = map<string, Json>

  /**
   * What one HTTP request yields: either a failure of the transport, of the
   * status check or of JSON decoding (all `requests.exceptions.RequestException`,
   * with its text), or a decoded object.
   */
  datatype Response = TransportFailure(diagnostic: string) | Body(document: Document)

  /** Outcome of a subscript: a value, a KeyError, or any other exception. */
  datatype Lookup = Found(value: Json) | KeyMissing | Fault

  /** Python's sequence index rule: `-len <= i < len`, negative indices count from the end. */
  function SequenceIndex(i: int, len: nat): (r: Option<nat>)
    ensures r.Some? <==> -(len as int) <= i < len
    ensures r.Some? ==> r.value == i % len
  {
    if 0 <= i < len then Some(i)
    else if -(len as int) <= i < 0 then Some(i + len)
    else None
  }

  /** A key usable as a list or string index: an int, or a bool standing for 0 or 1. */
  function AsIndex(k: Json): Option<int> {
    match k
    case Int(i) => Some(i)
    case Bool(b) => Some(if b then 1 else 0)
    case _ => None
  }

  /** `c[k]` for JSON values `c` and `k`. */
  function Subscript(c: Json, k: Json): (r: Lookup)
    ensures r.KeyMissing? ==> c.Obj?
    ensures c.Obj? && k.Str? ==> r == (if k.s in c.fields then Found(c.fields[k.s]) else KeyMissing)
    ensures c.Null? || c.Bool? || c.Int? || c.Real? ==> r.Fault?
  {
    match c
    case Obj(m) =>
      (match k
       case Str(s) => if s in m then Found(m[s]) else KeyMissing
       case Arr(_) => Fault   // unhashable key: TypeError
       case Obj(_) => Fault   // unhashable key: TypeError
       case _ => KeyMissing)  // hashable, but JSON object keys are strings
    case Arr(xs) =>
      (match AsIndex(k)
       case None => Fault     // list indices must be integers: TypeError
       case Some(i) =>
         match SequenceIndex(i, |xs|)
         case None => Fault   // IndexError, not a KeyError
         case Some(j) => Found(xs[j]))
    case Str(s) =>
      (match AsIndex(k)
       case None => Fault
       case Some(i) =>
         match SequenceIndex(i, |s|)
         case None => Fault
         case Some(j) => Found(Str([s[j]])))
    case _ => Fault           // not subscriptable: TypeError
  }

  /**
   * Whether `float(v)` returns rather than raises. Whether a string is a float
   * literal is Python's own grammar, passed in as `parsesAsFloat`.
   */
  predicate FloatConvertible(v: Json, parsesAsFloat: string -> bool) {
    match v
    case Str(s) => parsesAsFloat(s)
    case Bool(_) => true
    case Int(_) => true
    case Real(_) => true
    case _ => false
  }
}

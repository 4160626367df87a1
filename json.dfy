// JavaScript values as the handlers see them: request bodies, Firestore
// documents and response bodies are all built from `Value`.

module Wrappers {
  datatype Option<+T> = None | Some(value: T)
}

module Json {

  /** A JavaScript value. Numbers are integers (fractions are not modelled)
      plus NaN. `Timestamp` is a Firestore Timestamp and `Date` a JavaScript
      Date; each carries the text its `toISOString()` yields, which is left
      uninterpreted. `ServerTime` is the `FieldValue.serverTimestamp()`
      placeholder, kept opaque. */
  datatype Value =
    | Undefined
    | Null
    | Bool(b: bool)
    | Num(n: int)
    | NaN
    | Str(s: string)
    | Arr(items: seq<Value>)
    | Obj(fields: map<string, Value>)
    | Timestamp(iso: string)
    | Date(iso: string)
    | ServerTime

  /** A document, a request body or any other plain object, by field name. */
  type Doc = map<string, Value>

  /** `d[key]`: absent fields read as undefined. */
  function Get(d: Doc, key: string): Value {
    if key in d then d[key] else Undefined
  }

  /** `v.key` on any value: only plain objects have fields here. */
  function Field(v: Value, key: string): Value {
    if v.Obj? then Get(v.fields, key) else Undefined
  }

  /** JavaScript truthiness. */
  predicate Truthy(v: Value) {
    match v
    case Undefined => false
    case Null => false
    case Bool(b) => b
    case Num(n) => n != 0
    case NaN => false
    case Str(s) => s != ""
    case _ => true
  }

  predicate Nullish(v: Value) {
    v.Undefined? || v.Null?
  }

  /** `a || b` */
  function Or(a: Value, b: Value): Value {
    if Truthy(a) then a else b
  }

  /** `a ?? b` */
  function Coalesce(a: Value, b: Value): Value {
    if Nullish(a) then b else a
  }

  predicate IsPrimitive(v: Value) {
    !(v.Arr? || v.Obj? || v.Timestamp? || v.Date? || v.ServerTime?)
  }

  /** `a === b`: objects are compared by reference, and values taken from two
      different documents are never the same object; NaN equals nothing. */
  predicate StrictEquals(a: Value, b: Value) {
    IsPrimitive(a) && !a.NaN? && a == b
  }

  /** The comparison `Array.prototype.includes` uses: like `===`, except that
      NaN equals NaN. */
  predicate SameValueZero(a: Value, b: Value) {
    StrictEquals(a, b) || (a.NaN? && b.NaN?)
  }

  /** `typeof v === "number"` */
  predicate IsNumber(v: Value) {
    v.Num? || v.NaN?
  }

  predicate Includes(s: seq<Value>, v: Value) {
    exists i | 0 <= i < |s| :: SameValueZero(s[i], v)
  }

  /** The fields of `body` among `keys` that are not undefined, as a partial
      update collects them with `if (x !== undefined) updates.x = x`. */
  function Defined(body: Doc, keys: set<string>): (r: Doc)
    ensures r.Keys == set k | k in keys && Get(body, k) != Undefined
    ensures forall k | k in r :: r[k] == body[k]
  {
    map k | k in keys && k in body && body[k] != Undefined :: body[k]
  }

  /** `d` updated with the defined fields of `body` among `keys`: those
      fields take the body's values and every other field keeps its own. */
  function Updated(d: Doc, body: Doc, keys: set<string>): (r: Doc)
    ensures r.Keys == d.Keys + Defined(body, keys).Keys
    ensures forall k | k in keys && Get(body, k) != Undefined :: r[k] == body[k]
    ensures forall k | k in d && !(k in keys && Get(body, k) != Undefined) :: r[k] == d[k]
  {
    d + Defined(body, keys)
  }

  /** One more `if (x !== undefined) updates.x = x` step of a builder. */
  lemma DefinedStep(body: Doc, keys: set<string>, k: string)
    requires k !in keys
    ensures Defined(body, keys + {k})
            == if Get(body, k) != Undefined then Defined(body, keys)[k := body[k]] else Defined(body, keys)
  {
  }

  /** The same step for a builder that starts from `{[stamp]: v}`. */
  lemma StampedStep(body: Doc, keys: set<string>, k: string, stamp: string, v: Value)
    requires k !in keys && k != stamp
    ensures (if Get(body, k) != Undefined then Defined(body, keys)[stamp := v][k := body[k]]
             else Defined(body, keys)[stamp := v])
            == Defined(body, keys + {k})[stamp := v]
  {
    DefinedStep(body, keys, k);
    if Get(body, k) != Undefined {
      assert Defined(body, keys)[stamp := v][k := body[k]] == Defined(body, keys)[k := body[k]][stamp := v];
    }
  }

  /** Applying a stamped update is the update followed by the stamp. */
  lemma StampedUpdate(d: Doc, body: Doc, keys: set<string>, stamp: string, v: Value)
    requires stamp !in keys
    ensures d + Defined(body, keys)[stamp := v] == Updated(d, body, keys)[stamp := v]
  {
  }

  function Digit(d: nat): char
    requires d < 10
  {
    "0123456789"[d]
  }

  function Natural(n: nat): (s: string)
    ensures |s| > 0
  {
    if n < 10 then [Digit(n)] else Natural(n / 10) + [Digit(n % 10)]
  }

  /** Decimal text of an integer, as template literals render numbers. */
  function Decimal(n: int): string {
    if n < 0 then "-" + Natural(-n) else Natural(n)
  }

  /** `String(v)`. Arrays are joined with "," (null and undefined elements
      rendering as ""); every other object renders as "[object Object]". The
      model renders Timestamps, Dates and server timestamps that way too,
      where JavaScript uses their own `toString`. */
  function Text(v: Value): string
    decreases v, if v.Arr? then |v.items| + 1 else 0
  {
    match v
    case Undefined => "undefined"
    case Null => "null"
    case Bool(b) => if b then "true" else "false"
    case Num(n) => Decimal(n)
    case NaN => "NaN"
    case Str(s) => s
    case Arr(items) => JoinFrom(v, 0)
    case _ => "[object Object]"
  }

  function JoinFrom(v: Value, i: nat): string
    requires v.Arr? && i <= |v.items|
    decreases v, |v.items| - i
  {
    if i == |v.items| then ""
    else
      var item := v.items[i];
      var piece := if Nullish(item) then "" else Text(item);
      (if i == 0 then "" else ",") + piece + JoinFrom(v, i + 1)
  }
}

/**
 * JSON values as the serverless runtime hands them to the handler, together with the
 * few pieces of JavaScript semantics the handler relies on: truthiness, `typeof`,
 * property reads and the first entry of `Object.keys`.
 */
module JsValue {
  import opened Wrappers

  /** A parsed JSON value. An object keeps its fields in the order they were written. */
  datatype Json =
    | JNull
    | JBool(b: bool)
    | JNumber(n: real)
    | JString(s: string)
    | JArray(items: seq<Json>)
    | JObject(fields: seq<Field>)

  datatype Field = Field(key: string, value: Json)

  /** JavaScript truthiness of a defined value: `null`, `false`, `0` and `""` are falsy. */
  predicate Truthy(v: Json) {
    match v
    case JNull => false
    case JBool(b) => b
    case JNumber(n) => n != 0.0
    case JString(s) => s != ""
    case _ => true
  }

  /** `typeof v === 'object'`: holds of `null`, of arrays and of objects. */
  predicate TypeofObject(v: Json) {
    v.JNull? || v.JArray? || v.JObject?
  }

  /** A value that passes `v && typeof v === 'object'`: an array or an object. */
  predicate ObjectLike(v: Json) {
    Truthy(v) && TypeofObject(v)
  }

  /** `Array.isArray(v)` where `None` stands for `undefined`. */
  predicate IsArray(v: Option<Json>) {
    v.Some? && v.value.JArray?
  }

  /**
   * The own property `k` of an object with these fields. When a key is written twice
   * the last value is the one `JSON.parse` keeps.
   */
  function Lookup(fields: seq<Field>, k: string): (r: Option<Json>)
    ensures r.None? <==> forall i :: 0 <= i < |fields| ==> fields[i].key != k
    ensures r.Some? ==> exists i :: 0 <= i < |fields| && fields[i] == Field(k, r.value) &&
                                    forall j :: i < j < |fields| ==> fields[j].key != k
  {
    if fields == [] then None
    else if fields[|fields| - 1].key == k then Some(fields[|fields| - 1].value)
    else Lookup(fields[..|fields| - 1], k)
  }

  /** A later field shadows an earlier one with the same key. */
  lemma {:induction false} LookupAppend(a: seq<Field>, b: seq<Field>, k: string)
    ensures Lookup(a + b, k) == if Lookup(b, k).Some? then Lookup(b, k) else Lookup(a, k)
    decreases |b|
  {
    if b != [] {
      var b' := b[..|b| - 1];
      assert (a + b)[..|a + b| - 1] == a + b';
      LookupAppend(a, b', k);
    } else {
      assert a + b == a;
    }
  }

  /**
   * The property read `v.k` on an array or an object. Arrays have no own or inherited
   * property named like the payload fields the handler reads, so the read is `undefined`.
   */
  function Member(v: Json, k: string): Option<Json>
    requires v.JArray? || v.JObject?
  {
    if v.JObject? then Lookup(v.fields, k) else None
  }

  predicate IsDigit(c: char) {
    '0' <= c <= '9'
  }

  predicate AllDigits(k: string) {
    forall i :: 0 <= i < |k| ==> IsDigit(k[i])
  }

  /** The number a string of decimal digits denotes. */
  function DecimalValue(k: string): nat
    requires AllDigits(k)
  {
    if k == [] then 0 else DecimalValue(k[..|k| - 1]) * 10 + (k[|k| - 1] as int - '0' as int)
  }

  /**
   * An array index in the sense of ECMAScript: the canonical decimal form of an integer
   * from 0 to 2^32 - 2. `Object.keys` lists these keys first, in ascending numeric order,
   * and every other string key after them in insertion order.
   */
  predicate IsArrayIndex(k: string) {
    && 0 < |k|
    && AllDigits(k)
    && (k[0] != '0' || |k| == 1)
    && DecimalValue(k) <= 0xFFFF_FFFE
  }

  /** The numerically smallest array-index key among the fields, if there is one. */
  function SmallestIndexKey(fields: seq<Field>): (r: Option<string>)
    ensures r.None? <==> forall i :: 0 <= i < |fields| ==> !IsArrayIndex(fields[i].key)
    ensures r.Some? ==> IsArrayIndex(r.value) && exists i :: 0 <= i < |fields| && fields[i].key == r.value
    ensures r.Some? ==> forall i :: 0 <= i < |fields| && IsArrayIndex(fields[i].key) ==>
                          DecimalValue(r.value) <= DecimalValue(fields[i].key)
  {
    if fields == [] then None
    else
      var rest := SmallestIndexKey(fields[..|fields| - 1]);
      var k := fields[|fields| - 1].key;
      if !IsArrayIndex(k) then rest
      else if rest.Some? && DecimalValue(rest.value) <= DecimalValue(k) then rest
      else Some(k)
  }

  /** `Object.keys(v)[0]` for an array or an object; `None` is `undefined`. */
  function FirstKey(v: Json): (r: Option<string>)
    requires v.JArray? || v.JObject?
  {
    match v
    case JArray(items) => if |items| > 0 then Some("0") else None
    case JObject(fields) =>
      match SmallestIndexKey(fields)
      case Some(k) => Some(k)
      case None => if |fields| > 0 then Some(fields[0].key) else None
  }
}

/**
 * The JavaScript values the client handles: parsed JSON frames, and the values
 * it stores in its player-info snapshot and compares with `!==`.
 */
module JsValue {

  /** An evaluation that may throw: `None` stands for a thrown TypeError (or a JSON syntax error). */
  datatype Option<+T> = None | Some(value: T) {
    predicate IsFailure() { None? }

    function PropagateFailure<U>(): Option<U>
      requires None?
    {
      None
    }

    function Extract(): T
      requires Some?
    {
      value
    }
  }

  /**
   * A parsed JSON value. Numbers are exact integers: the protocol's numeric
   * fields (levels, channel ids) are integers.
   */
  datatype Json =
    | JNull
    | JBool(b: bool)
    | JNumber(n: int)
    | JString(s: string)
    | JArray(items: seq<Json>)
    | JObject(fields: map<string, Json>)

  /**
   * Keys that name an own property of a string or an array ("length" and
   * decimal indices). None of the protocol's keys is one of them.
   */
  predicate IsIndexLikeKey(key: string) {
    key == "length" || (|key| > 0 && '0' <= key[0] <= '9')
  }

  /**
   * Calling `value.hasOwnProperty(...)` throws on `null`, and on a parsed
   * object whose own key "hasOwnProperty" shadows the method with data.
   */
  predicate ThrowsOnMethodCall(value: Json) {
    value.JNull? || (value.JObject? && "hasOwnProperty" in value.fields)
  }

  /**
   * Converting `value` to a string (`String(value)`, `parseInt(value)`, or
   * `"..." + value`) throws: a parsed object owning a "toString" key holds
   * data there instead of a method, and the remaining `valueOf` yields the
   * object itself, so no primitive comes out. An array converts through
   * `join`, so it throws when one of its elements does.
   */
  predicate ThrowsOnToString(value: Json)
    decreases value
  {
    match value
    case JObject(fields) => "toString" in fields
    case JArray(items) => exists i :: 0 <= i < |items| && ThrowsOnToString(items[i])
    case _ => false
  }

  /**
   * `value.hasOwnProperty(key)` when the call does not throw, for a key that
   * is not index-like: only an object can own one of the protocol's keys.
   */
  predicate HasOwn(value: Json, key: string)
    requires !ThrowsOnMethodCall(value) && !IsIndexLikeKey(key)
  {
    value.JObject? && key in value.fields
  }

  /**
   * A JavaScript value held in the snapshot. `NaN` is what `parseInt` yields
   * when there is no digit; `Composite` is an array or object copied out of a
   * frame, which JavaScript compares by reference.
   */
  datatype Val =
    | Null
    | Bool(b: bool)
    | Number(n: int)
    | NaN
    | Str(s: string)
    | Composite(json: Json)

  /** The value a JSON leaf becomes once assigned into the snapshot. */
  function FromJson(j: Json): (v: Val)
    ensures v != NaN
    ensures j.JNull? <==> v == Null
    ensures j.JString? ==> v == Str(j.s)
    ensures j.JBool? ==> v == Bool(j.b)
  {
    match j
    case JNull => Null
    case JBool(b) => Bool(b)
    case JNumber(n) => Number(n)
    case JString(s) => Str(s)
    case JArray(_) => Composite(j)
    case JObject(_) => Composite(j)
  }

  /**
   * Whether `v === v`: false for NaN, and false for a composite, because every
   * snapshot the client compares is a fresh deep copy, so no object stored in
   * one is the same reference as an object stored in another.
   */
  predicate SelfIdentical(v: Val) {
    !v.NaN? && !v.Composite?
  }

  /** `a === b` between a leaf of one snapshot and the same leaf of another. */
  predicate StrictEquals(a: Val, b: Val) {
    a == b && SelfIdentical(a)
  }

  /** A leaf after `JSON.parse(JSON.stringify(...))`: NaN serialises as null, everything else survives. */
  function CloneLeaf(v: Val): (c: Val)
    ensures c != NaN
  {
    if v.NaN? then Null else v
  }
}

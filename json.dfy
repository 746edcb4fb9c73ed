/**
 * JSON values as the clients receive them from `res.json()`, with property
 * lookup (`undefined` for a missing key), the `??` chain, and JavaScript's
 * `String(value)`.
 */
module JsonValue {
  import opened Wrappers
  import opened Strings

  /** Numbers are integers in this model. */
  datatype Json =
    | JNull
    | JBool(b: bool)
    | JNumber(n: int)
    | JString(s: string)
    | JArray(elems: seq<Json>)
    | JObject(fields: map<string, Json>)

  /** `typeof v === "object" && v` : arrays and objects, not null. */
  predicate IsObjectLike(v: Json) {
    v.JArray? || v.JObject?
  }

  /** `v[key]` on a parsed JSON value: `None` is `undefined`. Arrays have no named keys. */
  function Get(v: Json, key: string): (r: Option<Json>)
    ensures r.Some? ==> v.JObject? && key in v.fields && r.value == v.fields[key]
    ensures v.JObject? && key in v.fields ==> r.Some?
  {
    if v.JObject? && key in v.fields then Some(v.fields[key]) else None
  }

  /** Neither `null` nor `undefined`: where `a ?? b` keeps `a`. */
  predicate IsPresent(v: Option<Json>) {
    v.Some? && v.value != JNull
  }

  /** `a ?? b`. */
  function Coalesce(a: Option<Json>, b: Option<Json>): (r: Option<Json>)
    ensures IsPresent(a) ==> r == a
    ensures !IsPresent(a) ==> r == b
  {
    if IsPresent(a) then a else b
  }

  /**
   * `String(v)`: strings are kept, numbers are written in decimal, objects as
   * `[object Object]`; an array prints its elements joined by commas, where a
   * `null` element prints as empty rather than as `null`.
   */
  function ToJsString(v: Json): (r: string)
    ensures v.JString? ==> r == v.s
    ensures v.JNumber? ==> r == IntToString(v.n)
    ensures v.JNull? ==> r == "null"
    ensures v.JBool? ==> r == (if v.b then "true" else "false")
    ensures v.JObject? ==> r == "[object Object]"
    ensures v.JArray? && v.elems == [] ==> r == ""
    ensures v.JArray? && v.elems == [JNull] ==> r == ""
    ensures v.JArray? && |v.elems| == 1 && v.elems[0] != JNull ==> r == ToJsString(v.elems[0])
    decreases v, 1
  {
    match v
    case JNull => "null"
    case JBool(b) => if b then "true" else "false"
    case JNumber(n) => IntToString(n)
    case JString(s) => s
    case JArray(elems) => JoinElements(elems, v)
    case JObject(_) => "[object Object]"
  }

  /** `Array.prototype.join(",")` as `String` applies it to an array. */
  function JoinElements(elems: seq<Json>, whole: Json): string
    requires whole.JArray? && forall e :: e in elems ==> e in whole.elems
    decreases whole, 0, |elems|
  {
    if elems == [] then ""
    else
      assert elems[0] in whole.elems;
      assert forall e :: e in elems[1..] ==> e in elems;
      var first := if elems[0] == JNull then "" else ToJsString(elems[0]);
      if |elems| == 1 then first
      else first + "," + JoinElements(elems[1..], whole)
  }

  /** The join reads only the elements, not the array they were taken from. */
  lemma {:induction false} JoinElementsOfAnyWhole(elems: seq<Json>, w1: Json, w2: Json)
    requires w1.JArray? && forall e :: e in elems ==> e in w1.elems
    requires w2.JArray? && forall e :: e in elems ==> e in w2.elems
    ensures JoinElements(elems, w1) == JoinElements(elems, w2)
    decreases |elems|
  {
    if |elems| > 1 {
      assert forall e :: e in elems[1..] ==> e in elems;
      JoinElementsOfAnyWhole(elems[1..], w1, w2);
    }
  }

  /**
   * An array of two or more elements prints as its first element (empty for
   * `null`), a comma, and the rest of the array printed the same way.
   */
  lemma ToJsStringCons(e: Json, rest: seq<Json>)
    requires |rest| > 0
    ensures ToJsString(JArray([e] + rest)) ==
      (if e == JNull then "" else ToJsString(e)) + "," + ToJsString(JArray(rest))
  {
    var es := [e] + rest;
    assert es[0] == e && es[1..] == rest;
    assert forall x :: x in rest ==> x in es;
    JoinElementsOfAnyWhole(rest, JArray(es), JArray(rest));
  }

  /** `String([a, b])` is `a + "," + b` for two elements that are not null. */
  lemma ToJsStringPair(a: Json, b: Json)
    requires a != JNull && b != JNull
    ensures ToJsString(JArray([a, b])) == ToJsString(a) + "," + ToJsString(b)
  {
    assert [a, b] == [a] + [b];
    ToJsStringCons(a, [b]);
  }
}

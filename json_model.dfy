/**
 * The JSON instance being validated (a Newtonsoft `JToken` tree), reduced to
 * the token kinds the validator distinguishes. Integers and floats stay
 * apart, as `JTokenType.Integer` and `JTokenType.Float` do; numbers are kept
 * as exact rationals (the validator compares them as `decimal`).
 */
module JsonModel {

  datatype Option<T> = None | Some(value: T)

  datatype Json =
    | JNull
    | JBool(b: bool)
    | JInteger(i: int)
    | JFloat(f: real)
    | JString(s: string)
    | JArray(items: seq<Json>)
    | JObject(members: seq<Member>)

  /** A `JProperty`: a name and its value, in document order inside a `JObject`. */
  datatype Member = Member(name: string, value: Json)

  /** One step of a token's location in its document, from which `JToken.Path` is formatted. */
  datatype Step = Key(name: string) | Index(i: nat)

  predicate IsNumber(t: Json) {
    t.JInteger? || t.JFloat?
  }

  /** The value of a numeric token, as `token.Value<decimal>()` reads it. */
  function NumberValue(t: Json): real
    requires IsNumber(t)
  {
    if t.JInteger? then t.i as real else t.f
  }

  /** `JObject.Property(name)`: the first member with exactly this name, if any. */
  function Lookup(members: seq<Member>, name: string): (r: Option<Json>)
    ensures r.Some? <==> exists k :: 0 <= k < |members| && members[k].name == name
    ensures r.Some? ==> exists k :: 0 <= k < |members| && members[k] == Member(name, r.value)
  {
    if members == [] then None
    else if members[0].name == name then Some(members[0].value)
    else
      var r := Lookup(members[1..], name);
      assert r.Some? ==> members[1..][0] == members[1];
      r
  }
}

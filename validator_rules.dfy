/**
 * The single-token rules of `JsonSchemaValidator` (enumeration, numeric
 * bounds, property and item counts, unique items), stated as "reported
 * exactly when" properties of the ValidatorSpec functions.
 */
module ValidatorRules {
  import opened JsonModel
  import opened SchemaModel
  import opened Validation
  import opened StringUtil
  import opened ValidatorSpec
  import opened ValidatorProperties

  lemma ReportsCheck(cond: bool, kind: ErrorKind, name: Option<string>, path: Option<string>, k: ErrorKind)
    ensures Reports(Check(cond, kind, name, path), k) <==> cond && kind == k
  {
    if cond {
      assert Check(cond, kind, name, path)[0].kind == kind;
    }
  }

  lemma ReportsAppend(a: seq<ValidationError>, b: seq<ValidationError>, k: ErrorKind)
    ensures Reports(a + b, k) <==> Reports(a, k) || Reports(b, k)
  {
    if Reports(a, k) {
      var i :| 0 <= i < |a| && a[i].kind == k;
      assert (a + b)[i] == a[i];
    }
    if Reports(b, k) {
      var i :| 0 <= i < |b| && b[i].kind == k;
      assert (a + b)[|a| + i] == b[i];
    }
    if Reports(a + b, k) {
      var i :| 0 <= i < |a + b| && (a + b)[i].kind == k;
      if i < |a| {
        assert (a + b)[i] == a[i];
      } else {
        assert (a + b)[i] == b[i - |a|];
      }
    }
  }

  lemma ReportsTwo(c1: bool, k1: ErrorKind, c2: bool, k2: ErrorKind, name: Option<string>, path: Option<string>,
                   k: ErrorKind)
    ensures Reports(Check(c1, k1, name, path) + Check(c2, k2, name, path), k) <==> (c1 && k1 == k) || (c2 && k2 == k)
  {
    ReportsCheck(c1, k1, name, path, k);
    ReportsCheck(c2, k2, name, path, k);
    ReportsAppend(Check(c1, k1, name, path), Check(c2, k2, name, path), k);
  }

  lemma ReportsThree(c1: bool, k1: ErrorKind, c2: bool, k2: ErrorKind, c3: bool, k3: ErrorKind,
                     name: Option<string>, path: Option<string>, k: ErrorKind)
    ensures Reports(Check(c1, k1, name, path) + Check(c2, k2, name, path) + Check(c3, k3, name, path), k) <==>
      (c1 && k1 == k) || (c2 && k2 == k) || (c3 && k3 == k)
  {
    ReportsTwo(c1, k1, c2, k2, name, path, k);
    ReportsCheck(c3, k3, name, path, k);
    ReportsAppend(Check(c1, k1, name, path) + Check(c2, k2, name, path), Check(c3, k3, name, path), k);
  }

  // ----- enumeration ----------------------------------------------------------------------------

  /** `ValidateEnum`: the token is accepted exactly when the enumeration is empty or one of its
      values renders as the token does; otherwise the one error is NotInEnumeration. */
  lemma EnumAccepts(env: Env, s: Schema, t: Json, name: Option<string>, path: Option<string>)
    ensures EnumErrors(env, s, t, name, path) == [] <==>
      |s.enumeration| == 0 || exists i :: 0 <= i < |s.enumeration| && env.render(s.enumeration[i]) == env.render(t)
    ensures EnumErrors(env, s, t, name, path) != [] ==> EnumErrors(env, s, t, name, path) == [NewError(NotInEnumeration, name, path)]
  {
  }

  // ----- numbers ------------------------------------------------------------------------------

  /** The bounds of `ValidateNumber` are not looked at for a token that is not a number. */
  lemma BoundsOnlyForNumbers(s: Schema, t: Json, ty: set<TypeFlag>, name: Option<string>, path: Option<string>)
    requires !IsNumber(t)
    ensures NumberErrors(s, t, ty, name, path) == Check(Number in ty, NumberExpected, name, path)
  {
  }

  /** For a numeric token of value v: NumberTooSmall exactly when v is below the minimum, or equal
      to it with an exclusive minimum; NumberTooBig likewise for the maximum; NumberNotMultipleOf
      exactly when a non-zero multipleOf m does not divide v (v is no integer multiple of m). */
  lemma NumberBounds(s: Schema, t: Json, ty: set<TypeFlag>, name: Option<string>, path: Option<string>)
    requires IsNumber(t)
    ensures Reports(NumberErrors(s, t, ty, name, path), NumberTooSmall) <==>
      s.minimum.Some? && (NumberValue(t) < s.minimum.value || (s.isExclusiveMinimum && NumberValue(t) == s.minimum.value))
    ensures Reports(NumberErrors(s, t, ty, name, path), NumberTooBig) <==>
      s.maximum.Some? && (NumberValue(t) > s.maximum.value || (s.isExclusiveMaximum && NumberValue(t) == s.maximum.value))
    ensures Reports(NumberErrors(s, t, ty, name, path), NumberNotMultipleOf) <==>
      s.multipleOf.Some? && s.multipleOf.value != 0.0 && !IsIntegerMultiple(NumberValue(t), s.multipleOf.value)
    ensures !Reports(NumberErrors(s, t, ty, name, path), NumberExpected)
  {
    assert NumberErrors(s, t, ty, name, path) == BoundErrors(s, NumberValue(t), name, path);
    BoundReports(s, NumberValue(t), name, path);
  }

  lemma BoundReports(s: Schema, v: real, name: Option<string>, path: Option<string>)
    ensures Reports(BoundErrors(s, v, name, path), NumberTooSmall) <==>
      s.minimum.Some? && (v < s.minimum.value || (s.isExclusiveMinimum && v == s.minimum.value))
    ensures Reports(BoundErrors(s, v, name, path), NumberTooBig) <==>
      s.maximum.Some? && (v > s.maximum.value || (s.isExclusiveMaximum && v == s.maximum.value))
    ensures Reports(BoundErrors(s, v, name, path), NumberNotMultipleOf) <==>
      s.multipleOf.Some? && s.multipleOf.value != 0.0 && !IsIntegerMultiple(v, s.multipleOf.value)
    ensures !Reports(BoundErrors(s, v, name, path), NumberExpected)
  {
    var small := s.minimum.Some? && (if s.isExclusiveMinimum then v <= s.minimum.value else v < s.minimum.value);
    var big := s.maximum.Some? && (if s.isExclusiveMaximum then v >= s.maximum.value else v > s.maximum.value);
    var multiple := s.multipleOf.Some? && !IsMultipleOf(v, s.multipleOf.value);
    if s.multipleOf.Some? && s.multipleOf.value != 0.0 {
      MultipleOfIff(v, s.multipleOf.value);
    }
    ReportsThree(small, NumberTooSmall, big, NumberTooBig, multiple, NumberNotMultipleOf, name, path, NumberTooSmall);
    ReportsThree(small, NumberTooSmall, big, NumberTooBig, multiple, NumberNotMultipleOf, name, path, NumberTooBig);
    ReportsThree(small, NumberTooSmall, big, NumberTooBig, multiple, NumberNotMultipleOf, name, path, NumberNotMultipleOf);
    ReportsThree(small, NumberTooSmall, big, NumberTooBig, multiple, NumberNotMultipleOf, name, path, NumberExpected);
  }

  /** v is an integer multiple of m. */
  ghost predicate IsIntegerMultiple(v: real, m: real) {
    exists k: int :: v == Times(k, m)
  }

  function Times(k: int, m: real): real {
    (k as real) * m
  }

  /** `value % multipleOf == 0` for a non-zero divisor: the value is an integer multiple of it. */
  lemma MultipleOfIff(v: real, m: real)
    requires m != 0.0
    ensures IsMultipleOf(v, m) <==> IsIntegerMultiple(v, m)
  {
    var q := Quotient(v, m);
    assert v == q * m;
    if IsMultipleOf(v, m) {
      assert v == Times(q.Floor, m);
    }
    if IsIntegerMultiple(v, m) {
      var k: int :| v == Times(k, m);
      assert q == k as real;
    }
  }

  // ----- objects --------------------------------------------------------------------------------

  /** `MaxProperties` and `MinProperties` are checked only when positive. */
  lemma PropertyCounts(s: Schema, members: seq<Member>, name: Option<string>, path: Option<string>)
    ensures Reports(PropertyCountErrors(s, members, name, path), TooManyProperties) <==>
      s.maxProperties > 0 && |members| > s.maxProperties
    ensures Reports(PropertyCountErrors(s, members, name, path), TooFewProperties) <==>
      s.minProperties > 0 && |members| < s.minProperties
  {
    var many := s.maxProperties > 0 && |members| > s.maxProperties;
    var few := s.minProperties > 0 && |members| < s.minProperties;
    ReportsTwo(many, TooManyProperties, few, TooFewProperties, name, path, TooManyProperties);
    ReportsTwo(many, TooManyProperties, few, TooFewProperties, name, path, TooFewProperties);
  }

  // ----- arrays ---------------------------------------------------------------------------------

  /** No two elements render to the same text. */
  predicate DistinctRenderings(env: Env, items: seq<Json>) {
    forall i, j :: 0 <= i < j < |items| ==> env.render(items[i]) != env.render(items[j])
  }

  /** `MinItems` and `MaxItems` are checked only when positive; `UniqueItems` fails exactly when
      two elements render to the same text. */
  lemma ItemCounts(env: Env, s: Schema, items: seq<Json>, name: Option<string>, path: Option<string>)
    ensures Reports(CountErrors(env, s, items, name, path), TooFewItems) <==> (s.minItems > 0 && |items| < s.minItems)
    ensures Reports(CountErrors(env, s, items, name, path), TooManyItems) <==> (s.maxItems > 0 && |items| > s.maxItems)
    ensures Reports(CountErrors(env, s, items, name, path), ItemsNotUnique) <==> (s.uniqueItems && !DistinctRenderings(env, items))
  {
    var few := s.minItems > 0 && |items| < s.minItems;
    var many := s.maxItems > 0 && |items| > s.maxItems;
    var duplicates := s.uniqueItems && |items| != |RenderSet(env, items)|;
    UniqueIff(env, items);
    ReportsThree(few, TooFewItems, many, TooManyItems, duplicates, ItemsNotUnique, name, path, TooFewItems);
    ReportsThree(few, TooFewItems, many, TooManyItems, duplicates, ItemsNotUnique, name, path, TooManyItems);
    ReportsThree(few, TooFewItems, many, TooManyItems, duplicates, ItemsNotUnique, name, path, ItemsNotUnique);
  }

  lemma {:induction false} RenderSetSize(env: Env, items: seq<Json>)
    ensures |RenderSet(env, items)| <= |items|
  {
    if items != [] {
      RenderSetSize(env, items[..|items| - 1]);
    }
  }

  /** The distinct renderings are as many as the elements exactly when no two elements render alike. */
  lemma UniqueIff(env: Env, items: seq<Json>)
    ensures |RenderSet(env, items)| == |items| <==> DistinctRenderings(env, items)
  {
    if DistinctRenderings(env, items) {
      DistinctCount(env, items);
    } else {
      DuplicateCount(env, items);
    }
  }

  lemma {:induction false} DistinctCount(env: Env, items: seq<Json>)
    requires DistinctRenderings(env, items)
    ensures |RenderSet(env, items)| == |items|
  {
    if items != [] {
      var prefix := items[..|items| - 1];
      var last := items[|items| - 1];
      assert forall i :: 0 <= i < |prefix| ==> prefix[i] == items[i];
      assert DistinctRenderings(env, prefix);
      DistinctCount(env, prefix);
      assert forall i :: 0 <= i < |prefix| ==> env.render(prefix[i]) != env.render(last);
      RenderSetSnoc(env, items);
    }
  }

  lemma {:induction false} DuplicateCount(env: Env, items: seq<Json>)
    requires !DistinctRenderings(env, items)
    ensures |RenderSet(env, items)| < |items|
  {
    var prefix := items[..|items| - 1];
    var last := env.render(items[|items| - 1]);
    var i, j :| 0 <= i < j < |items| && env.render(items[i]) == env.render(items[j]);
    RenderSetSnoc(env, items);
    if j < |items| - 1 {
      assert prefix[i] == items[i] && prefix[j] == items[j];
      DuplicateCount(env, prefix);
      CardAddOne(RenderSet(env, prefix), last);
    } else {
      assert prefix[i] == items[i];
      assert last in RenderSet(env, prefix);
      RenderSetSize(env, prefix);
      CardAddOne(RenderSet(env, prefix), last);
    }
  }

  lemma RenderSetSnoc(env: Env, items: seq<Json>)
    requires items != []
    ensures RenderSet(env, items) == RenderSet(env, items[..|items| - 1]) + {env.render(items[|items| - 1])}
  {
    // The definition's equation as terms, so that the solver need not compare the sets member by member.
    assert Some(RenderSet(env, items)) == Some(RenderSet(env, items[..|items| - 1]) + {env.render(items[|items| - 1])});
  }

  lemma CardAddOne(a: set<string>, x: string)
    ensures |a + {x}| <= |a| + 1
    ensures x in a ==> |a + {x}| == |a|
  {
    if x in a {
      assert a + {x} == a;
    }
  }
}

/**
 * The rules of `JsonSchemaValidator`, stated and proved about the functions of
 * ValidatorSpec (which the methods of Validator are proved to compute).
 */
module ValidatorProperties {
  import opened JsonModel
  import opened SchemaModel
  import opened Validation
  import opened StringUtil
  import opened ValidatorSpec

  /** Some error of `errors` (at the top level) has kind `k`. */
  predicate Reports(errors: seq<ValidationError>, k: ErrorKind) {
    exists i :: 0 <= i < |errors| && errors[i].kind == k
  }

  // ----- composition ----------------------------------------------------------------------------

  /** Entry i of the branch map is sub-schema i together with its own errors on the token. */
  lemma BranchResultsAt(env: Env, s: Schema, c: Composition, t: Json, loc: seq<Step>, n: nat)
    requires n <= |Subschemas(s, c)|
    ensures forall i :: 0 <= i < n ==>
      BranchResults(env, s, c, t, loc, n)[i]
      == Branch(Subschemas(s, c)[i], Validate(env, Subschemas(s, c)[i], t, None, None, loc))
  {
    forall i | 0 <= i < n
      ensures BranchResults(env, s, c, t, loc, n)[i]
        == Branch(Subschemas(s, c)[i], Validate(env, Subschemas(s, c)[i], t, None, None, loc))
    {
      BranchResultAt(env, s, c, t, loc, n, i);
    }
  }

  /** One entry of the branch map, by induction on the number of entries built. */
  lemma {:induction false} BranchResultAt(env: Env, s: Schema, c: Composition, t: Json, loc: seq<Step>, n: nat, i: nat)
    requires i < n <= |Subschemas(s, c)|
    // Stated as an equation between terms, so that the solver need not compare the error lists element by element.
    ensures Some(BranchResults(env, s, c, t, loc, n)[i])
      == Some(Branch(Subschemas(s, c)[i], Validate(env, Subschemas(s, c)[i], t, None, None, loc)))
    decreases n, 1
  {
    if i < n - 1 {
      BranchResultAtEarlier(env, s, c, t, loc, n, i);
    } else {
      BranchResultLast(env, s, c, t, loc, n, i);
    }
  }

  lemma {:induction false} BranchResultAtEarlier(env: Env, s: Schema, c: Composition, t: Json, loc: seq<Step>, n: nat, i: nat)
    requires i < n - 1 && n <= |Subschemas(s, c)|
    ensures Some(BranchResults(env, s, c, t, loc, n)[i])
      == Some(Branch(Subschemas(s, c)[i], Validate(env, Subschemas(s, c)[i], t, None, None, loc)))
    decreases n, 0
  {
    BranchResultAt(env, s, c, t, loc, n - 1, i);
    BranchResultKeeps(env, s, c, t, loc, n, i);
  }

  /** Adding sub-schema n-1's entry keeps the earlier entries. */
  lemma BranchResultKeeps(env: Env, s: Schema, c: Composition, t: Json, loc: seq<Step>, n: nat, i: nat)
    requires i < n - 1 && n <= |Subschemas(s, c)|
    ensures Some(BranchResults(env, s, c, t, loc, n)[i]) == Some(BranchResults(env, s, c, t, loc, n - 1)[i])
  {
  }

  /** The last entry of the first n is sub-schema n-1 with its errors. */
  lemma BranchResultLast(env: Env, s: Schema, c: Composition, t: Json, loc: seq<Step>, n: nat, i: nat)
    requires i == n - 1 && n <= |Subschemas(s, c)|
    ensures Some(BranchResults(env, s, c, t, loc, n)[i])
      == Some(Branch(Subschemas(s, c)[i], Validate(env, Subschemas(s, c)[i], t, None, None, loc)))
  {
  }

  /** The branch map of a composition: one entry per sub-schema, in order. */
  function Branches(env: Env, s: Schema, c: Composition, t: Json, loc: seq<Step>): (bs: seq<Branch>)
    ensures |bs| == |Subschemas(s, c)|
    ensures forall i :: 0 <= i < |bs| ==>
      bs[i] == Branch(Subschemas(s, c)[i], Validate(env, Subschemas(s, c)[i], t, None, None, loc))
  {
    BranchResultsAt(env, s, c, t, loc, |Subschemas(s, c)|);
    BranchResults(env, s, c, t, loc, |Subschemas(s, c)|)
  }

  /** A composition rule reports at most one error: a child error of the rule's kind whose map
      holds every sub-schema with its errors, exactly when the rule's condition fails on that
      map; an empty list of sub-schemas reports nothing. */
  lemma CompositionShape(env: Env, s: Schema, c: Composition, t: Json, name: Option<string>, path: Option<string>,
                         loc: seq<Step>)
    ensures CompositionErrors(env, s, c, t, name, path, loc) != []
        <==> |Subschemas(s, c)| > 0 && CompositionFails(c, Branches(env, s, c, t, loc))
    ensures CompositionErrors(env, s, c, t, name, path, loc) == []
         || CompositionErrors(env, s, c, t, name, path, loc)
            == [NewChildError(CompositionKind(c), name, path, Branches(env, s, c, t, loc))]
  {
  }

  /** anyOf: NotAnyOf exactly when every sub-schema rejects the token. */
  lemma AnyOfReports(env: Env, s: Schema, t: Json, name: Option<string>, path: Option<string>, loc: seq<Step>)
    ensures CompositionErrors(env, s, AnyOfRule, t, name, path, loc) != []
        <==> |s.anyOf| > 0 && forall i :: 0 <= i < |s.anyOf| ==> Validate(env, s.anyOf[i], t, None, None, loc) != []
  {
    CompositionShape(env, s, AnyOfRule, t, name, path, loc);
    var bs := Branches(env, s, AnyOfRule, t, loc);
  }

  /** allOf: NotAllOf exactly when some sub-schema rejects the token. */
  lemma AllOfReports(env: Env, s: Schema, t: Json, name: Option<string>, path: Option<string>, loc: seq<Step>)
    ensures CompositionErrors(env, s, AllOfRule, t, name, path, loc) != []
        <==> exists i :: 0 <= i < |s.allOf| && Validate(env, s.allOf[i], t, None, None, loc) != []
  {
    CompositionShape(env, s, AllOfRule, t, name, path, loc);
    var bs := Branches(env, s, AllOfRule, t, loc);
    if exists i :: 0 <= i < |s.allOf| && Validate(env, s.allOf[i], t, None, None, loc) != [] {
      var i :| 0 <= i < |s.allOf| && Validate(env, s.allOf[i], t, None, None, loc) != [];
      assert bs[i].errors != [];
    }
  }

  /** Entry i is the only entry without errors. */
  predicate OnlyPassing(bs: seq<Branch>, i: int) {
    0 <= i < |bs| && bs[i].errors == [] && forall j :: 0 <= j < |bs| && j != i ==> bs[j].errors != []
  }

  /** `CountPassing` is 1 exactly when one entry, and no other, has no errors. */
  lemma CountPassingOne(bs: seq<Branch>)
    ensures CountPassing(bs) == 1 <==> exists i :: OnlyPassing(bs, i)
  {
    if CountPassing(bs) == 1 {
      var i := CountPassingOneWitness(bs);
    }
    if exists i :: OnlyPassing(bs, i) {
      var i :| OnlyPassing(bs, i);
      OnlyPassingCount(bs, i);
    }
  }

  lemma {:induction false} CountPassingOneWitness(bs: seq<Branch>) returns (i: int)
    requires CountPassing(bs) == 1
    ensures OnlyPassing(bs, i)
  {
    var prefix := bs[..|bs| - 1];
    var last := |bs| - 1;
    assert forall j :: 0 <= j < |prefix| ==> prefix[j] == bs[j];
    if bs[last].errors == [] {
      CountPassingZero(prefix);
      i := last;
    } else {
      i := CountPassingOneWitness(prefix);
    }
  }

  lemma {:induction false} OnlyPassingCount(bs: seq<Branch>, i: int)
    requires OnlyPassing(bs, i)
    ensures CountPassing(bs) == 1
  {
    var prefix := bs[..|bs| - 1];
    var last := |bs| - 1;
    assert forall j :: 0 <= j < |prefix| ==> prefix[j] == bs[j];
    if i == last {
      CountPassingZero(prefix);
    } else {
      assert OnlyPassing(prefix, i);
      OnlyPassingCount(prefix, i);
    }
  }

  /** `CountPassing` is 0 exactly when every entry has errors. */
  lemma {:induction false} CountPassingZero(bs: seq<Branch>)
    ensures CountPassing(bs) == 0 <==> forall j :: 0 <= j < |bs| ==> bs[j].errors != []
  {
    if bs != [] {
      var prefix := bs[..|bs| - 1];
      CountPassingZero(prefix);
      assert forall j :: 0 <= j < |prefix| ==> prefix[j] == bs[j];
    }
  }

  /** oneOf: NotOneOf unless exactly one sub-schema accepts the token. */
  lemma OneOfReports(env: Env, s: Schema, t: Json, name: Option<string>, path: Option<string>, loc: seq<Step>)
    ensures CompositionErrors(env, s, OneOfRule, t, name, path, loc) == []
        <==> |s.oneOf| == 0 || exists i :: OnlyPassing(Branches(env, s, OneOfRule, t, loc), i)
  {
    CompositionShape(env, s, OneOfRule, t, name, path, loc);
    CountPassingOne(Branches(env, s, OneOfRule, t, loc));
  }

  /** not: ExcludedSchemaValidates exactly when the excluded schema accepts the token. */
  lemma NotReports(env: Env, s: Schema, t: Json, name: Option<string>, path: Option<string>, loc: seq<Step>)
    ensures NotErrors(env, s, t, name, path, loc) != []
        <==> s.notSchema.Some? && Validate(env, s.notSchema.value, t, None, None, loc) == []
    ensures NotErrors(env, s, t, name, path, loc) != [] ==>
      NotErrors(env, s, t, name, path, loc) == [NewError(ExcludedSchemaValidates, name, path)]
  {
  }

  // ----- type flags -----------------------------------------------------------------------------

  /** The flag an "X expected" error kind is about. */
  function ExpectedFlag(k: ErrorKind): (r: Option<TypeFlag>)
    ensures r.Some? <==> k in {ArrayExpected, StringExpected, NumberExpected, IntegerExpected, BooleanExpected,
                               NullExpected, ObjectExpected}
  {
    match k
    case ArrayExpected => Some(Array)
    case StringExpected => Some(String)
    case NumberExpected => Some(Number)
    case IntegerExpected => Some(Integer)
    case BooleanExpected => Some(Boolean)
    case NullExpected => Some(Null)
    case ObjectExpected => Some(Object)
    case _ => None
  }

  /** Every "X expected" error in `errors` is for a flag X of `ty`. */
  predicate ExpectedOnlyFor(errors: seq<ValidationError>, ty: set<TypeFlag>) {
    forall i :: 0 <= i < |errors| && ExpectedFlag(errors[i].kind).Some? ==> ExpectedFlag(errors[i].kind).value in ty
  }

  lemma ExpectedOnlyForAppend(a: seq<ValidationError>, b: seq<ValidationError>, ty: set<TypeFlag>)
    requires ExpectedOnlyFor(a, ty) && ExpectedOnlyFor(b, ty)
    ensures ExpectedOnlyFor(a + b, ty)
  {
    assert forall i :: 0 <= i < |b| ==> (a + b)[|a| + i] == b[i];
  }

  lemma CheckOnlyFor(cond: bool, kind: ErrorKind, name: Option<string>, path: Option<string>, ty: set<TypeFlag>)
    requires cond && ExpectedFlag(kind).Some? ==> ExpectedFlag(kind).value in ty
    ensures ExpectedOnlyFor(Check(cond, kind, name, path), ty)
  {
  }

  /** A child error made by `TryCreateChildSchemaError` has the kind it was asked for. */
  lemma AddedChildOnlyFor(env: Env, child: Schema, t: Json, kind: ErrorKind, property: Option<string>, path: string,
                          loc: seq<Step>, ty: set<TypeFlag>)
    requires ExpectedFlag(kind).None?
    ensures ExpectedOnlyFor(Added(TryChild(env, child, t, kind, property, path, loc)), ty)
  {
  }

  lemma ItemErrorsOnlyFor(env: Env, s: Schema, item: Json, index: nat, path: Option<string>, loc: seq<Step>, ty: set<TypeFlag>)
    ensures ExpectedOnlyFor(ItemErrors(env, s, item, index, path, loc), ty)
  {
    ItemCheckOnlyFor(env, s, item, index, path, loc, ty);
    AdditionalItemOnlyFor(env, s, item, index, path, loc, ty);
    ExpectedOnlyForAppend(ItemCheck(env, s, item, index, path, loc), AdditionalItemErrors(env, s, item, index, path, loc), ty);
  }

  lemma ItemCheckOnlyFor(env: Env, s: Schema, item: Json, index: nat, path: Option<string>, loc: seq<Step>, ty: set<TypeFlag>)
    ensures ExpectedOnlyFor(ItemCheck(env, s, item, index, path, loc), ty)
  {
    if s.item.Some? {
      var propertyIndex := IndexText(index);
      AddedChildOnlyFor(env, s.item.value, item, ArrayItemNotValid, Some(propertyIndex), ItemPath(path, propertyIndex), loc, ty);
    }
  }

  lemma AdditionalItemOnlyFor(env: Env, s: Schema, item: Json, index: nat, path: Option<string>, loc: seq<Step>, ty: set<TypeFlag>)
    ensures ExpectedOnlyFor(AdditionalItemErrors(env, s, item, index, path, loc), ty)
  {
    var propertyIndex := IndexText(index);
    if |s.items| > index {
      AddedChildOnlyFor(env, s.items[index], item, ArrayItemNotValid, Some(propertyIndex), TuplePath(path, propertyIndex), loc, ty);
    } else if s.additionalItemsSchema.Some? {
      AddedChildOnlyFor(env, s.additionalItemsSchema.value, item, AdditionalItemNotValid, Some(propertyIndex),
                        TuplePath(path, propertyIndex), loc, ty);
    } else {
      CheckOnlyFor(!s.allowAdditionalItems, TooManyItemsInTuple, Some(propertyIndex), Some(TuplePath(path, propertyIndex)), ty);
    }
  }

  /** The element checks of an array report no "X expected" error. */
  lemma {:induction false} ItemsErrorsOnlyFor(env: Env, s: Schema, items: seq<Json>, path: Option<string>, loc: seq<Step>,
                                              n: nat, ty: set<TypeFlag>)
    requires n <= |items|
    ensures ExpectedOnlyFor(ItemsErrors(env, s, items, path, loc, n), ty)
  {
    if n > 0 {
      ItemsErrorsOnlyFor(env, s, items, path, loc, n - 1, ty);
      ItemErrorsOnlyFor(env, s, items[n - 1], n - 1, path, loc + [Index(n - 1)], ty);
      ExpectedOnlyForAppend(ItemsErrors(env, s, items, path, loc, n - 1),
                            ItemErrors(env, s, items[n - 1], n - 1, path, loc + [Index(n - 1)]), ty);
    }
  }

  lemma ArrayOnlyFor(env: Env, s: Schema, t: Json, ty: set<TypeFlag>, name: Option<string>, path: Option<string>, loc: seq<Step>)
    ensures ExpectedOnlyFor(ArrayErrors(env, s, t, ty, name, path, loc), ty)
  {
    if t.JArray? {
      ItemsErrorsOnlyFor(env, s, t.items, path, loc, |t.items|, ty);
      CountsOnlyFor(env, s, t.items, name, path, ty);
      ExpectedOnlyForAppend(CountErrors(env, s, t.items, name, path), ItemsErrors(env, s, t.items, path, loc, |t.items|), ty);
    } else {
      CheckOnlyFor(Array in ty, ArrayExpected, name, path, ty);
    }
  }

  lemma CountsOnlyFor(env: Env, s: Schema, items: seq<Json>, name: Option<string>, path: Option<string>, ty: set<TypeFlag>)
    ensures ExpectedOnlyFor(CountErrors(env, s, items, name, path), ty)
  {
    var few := s.minItems > 0 && |items| < s.minItems;
    var many := s.maxItems > 0 && |items| > s.maxItems;
    var duplicates := s.uniqueItems && |items| != |RenderSet(env, items)|;
    CheckOnlyFor(few, TooFewItems, name, path, ty);
    CheckOnlyFor(many, TooManyItems, name, path, ty);
    CheckOnlyFor(duplicates, ItemsNotUnique, name, path, ty);
    AppendThreeOnlyFor(Check(few, TooFewItems, name, path), Check(many, TooManyItems, name, path),
                       Check(duplicates, ItemsNotUnique, name, path), ty);
  }

  /** No format check is an "X expected" error of a type flag. */
  lemma FormatOnlyFor(env: Env, s: Schema, v: string, name: Option<string>, path: Option<string>, ty: set<TypeFlag>)
    ensures ExpectedOnlyFor(FormatErrors(env, s, v, name, path), ty)
  {
    if s.format.Some? && s.format.value != "" {
      var f := s.format.value;
      LeadingOnlyFor(env, f, v, name, path, ty);
      TrailingOnlyFor(env, f, v, name, path, ty);
      ExpectedOnlyForAppend(LeadingFormatErrors(env, f, v, name, path), TrailingFormatErrors(env, f, v, name, path), ty);
    }
  }

  lemma LeadingOnlyFor(env: Env, f: string, v: string, name: Option<string>, path: Option<string>, ty: set<TypeFlag>)
    ensures ExpectedOnlyFor(LeadingFormatErrors(env, f, v, name, path), ty)
  {
    CheckOnlyFor(f == DateTimeFormat && !env.isDateTime(v), DateTimeExpected, name, path, ty);
    CheckOnlyFor(f == UriFormat && !env.isAbsoluteUri(v), UriExpected, name, path, ty);
    CheckOnlyFor(f == EmailFormat && !env.isEmail(v), EmailExpected, name, path, ty);
    CheckOnlyFor(f == IpV4Format && !env.isIpV4(v), IpV4Expected, name, path, ty);
    AppendFourOnlyFor(Check(f == DateTimeFormat && !env.isDateTime(v), DateTimeExpected, name, path),
                      Check(f == UriFormat && !env.isAbsoluteUri(v), UriExpected, name, path),
                      Check(f == EmailFormat && !env.isEmail(v), EmailExpected, name, path),
                      Check(f == IpV4Format && !env.isIpV4(v), IpV4Expected, name, path), ty);
  }

  lemma TrailingOnlyFor(env: Env, f: string, v: string, name: Option<string>, path: Option<string>, ty: set<TypeFlag>)
    ensures ExpectedOnlyFor(TrailingFormatErrors(env, f, v, name, path), ty)
  {
    var base64 := (f == ByteFormat || f == Base64Format) && !(|v| % 4 == 0 && env.isBase64Text(v));
    CheckOnlyFor(f == IpV6Format && !env.isIpV6(v), IpV6Expected, name, path, ty);
    CheckOnlyFor(f == GuidFormat && !env.isGuid(v), GuidExpected, name, path, ty);
    CheckOnlyFor(f == HostnameFormat && !env.isHostname(v), HostnameExpected, name, path, ty);
    CheckOnlyFor(base64, Base64Expected, name, path, ty);
    AppendFourOnlyFor(Check(f == IpV6Format && !env.isIpV6(v), IpV6Expected, name, path),
                      Check(f == GuidFormat && !env.isGuid(v), GuidExpected, name, path),
                      Check(f == HostnameFormat && !env.isHostname(v), HostnameExpected, name, path),
                      Check(base64, Base64Expected, name, path), ty);
  }

  lemma AppendThreeOnlyFor(a: seq<ValidationError>, b: seq<ValidationError>, c: seq<ValidationError>, ty: set<TypeFlag>)
    requires ExpectedOnlyFor(a, ty) && ExpectedOnlyFor(b, ty) && ExpectedOnlyFor(c, ty)
    ensures ExpectedOnlyFor(a + b + c, ty)
  {
    ExpectedOnlyForAppend(a, b, ty);
    ExpectedOnlyForAppend(a + b, c, ty);
  }

  lemma AppendFourOnlyFor(a: seq<ValidationError>, b: seq<ValidationError>, c: seq<ValidationError>, d: seq<ValidationError>,
                          ty: set<TypeFlag>)
    requires ExpectedOnlyFor(a, ty) && ExpectedOnlyFor(b, ty) && ExpectedOnlyFor(c, ty) && ExpectedOnlyFor(d, ty)
    ensures ExpectedOnlyFor(a + b + c + d, ty)
  {
    ExpectedOnlyForAppend(a, b, ty);
    ExpectedOnlyForAppend(a + b, c, ty);
    ExpectedOnlyForAppend(a + b + c, d, ty);
  }

  lemma StringOnlyFor(env: Env, s: Schema, t: Json, ty: set<TypeFlag>, name: Option<string>, path: Option<string>)
    ensures ExpectedOnlyFor(StringErrors(env, s, t, ty, name, path), ty)
  {
    if t.JString? {
      var v := t.s;
      FormatOnlyFor(env, s, v, name, path, ty);
      CheckOnlyFor(s.pattern.Some? && s.pattern.value != "" && !env.isMatch(v, s.pattern.value), PatternMismatch, name, path, ty);
      CheckOnlyFor(s.minLength.Some? && |v| < s.minLength.value, StringTooShort, name, path, ty);
      CheckOnlyFor(s.maxLength.Some? && |v| > s.maxLength.value, StringTooLong, name, path, ty);
      AppendFourOnlyFor(Check(s.pattern.Some? && s.pattern.value != "" && !env.isMatch(v, s.pattern.value), PatternMismatch, name, path),
                        Check(s.minLength.Some? && |v| < s.minLength.value, StringTooShort, name, path),
                        Check(s.maxLength.Some? && |v| > s.maxLength.value, StringTooLong, name, path),
                        FormatErrors(env, s, v, name, path), ty);
    } else {
      CheckOnlyFor(String in ty, StringExpected, name, path, ty);
    }
  }

  lemma NumberOnlyFor(s: Schema, t: Json, ty: set<TypeFlag>, name: Option<string>, path: Option<string>)
    ensures ExpectedOnlyFor(NumberErrors(s, t, ty, name, path), ty)
  {
    var bounds := if IsNumber(t) then BoundErrors(s, NumberValue(t), name, path) else [];
    if IsNumber(t) {
      BoundsOnlyFor(s, NumberValue(t), name, path, ty);
    }
    CheckOnlyFor(Number in ty && !IsNumber(t), NumberExpected, name, path, ty);
    ExpectedOnlyForAppend(Check(Number in ty && !IsNumber(t), NumberExpected, name, path), bounds, ty);
  }

  lemma BoundsOnlyFor(s: Schema, v: real, name: Option<string>, path: Option<string>, ty: set<TypeFlag>)
    ensures ExpectedOnlyFor(BoundErrors(s, v, name, path), ty)
  {
    var small := s.minimum.Some? && (if s.isExclusiveMinimum then v <= s.minimum.value else v < s.minimum.value);
    var big := s.maximum.Some? && (if s.isExclusiveMaximum then v >= s.maximum.value else v > s.maximum.value);
    var multiple := s.multipleOf.Some? && !IsMultipleOf(v, s.multipleOf.value);
    CheckOnlyFor(small, NumberTooSmall, name, path, ty);
    CheckOnlyFor(big, NumberTooBig, name, path, ty);
    CheckOnlyFor(multiple, NumberNotMultipleOf, name, path, ty);
    AppendThreeOnlyFor(Check(small, NumberTooSmall, name, path), Check(big, NumberTooBig, name, path),
                       Check(multiple, NumberNotMultipleOf, name, path), ty);
  }

  lemma KindOnlyFor(t: Json, ty: set<TypeFlag>, name: Option<string>, path: Option<string>)
    ensures ExpectedOnlyFor(KindErrors(t, ty, name, path), ty)
  {
    CheckOnlyFor(Integer in ty && !t.JInteger?, IntegerExpected, name, path, ty);
    CheckOnlyFor(Boolean in ty && !t.JBool?, BooleanExpected, name, path, ty);
    CheckOnlyFor(Null in ty && !t.JNull?, NullExpected, name, path, ty);
    CheckOnlyFor(Object in ty && !t.JObject?, ObjectExpected, name, path, ty);
    AppendFourOnlyFor(Check(Integer in ty && !t.JInteger?, IntegerExpected, name, path),
                      Check(Boolean in ty && !t.JBool?, BooleanExpected, name, path),
                      Check(Null in ty && !t.JNull?, NullExpected, name, path),
                      Check(Object in ty && !t.JObject?, ObjectExpected, name, path), ty);
  }

  /** A check run with the flags `ty` reports "X expected" only for a flag X of `ty`. */
  lemma FlagChecksExpected(env: Env, s: Schema, t: Json, ty: set<TypeFlag>, name: Option<string>, path: Option<string>,
                           loc: seq<Step>)
    ensures ExpectedOnlyFor(FlagChecks(env, s, t, ty, name, path, loc), ty)
  {
    ArrayOnlyFor(env, s, t, ty, name, path, loc);
    StringOnlyFor(env, s, t, ty, name, path);
    NumberOnlyFor(s, t, ty, name, path);
    KindOnlyFor(t, ty, name, path);
    ExpectedOnlyForAppend(StringErrors(env, s, t, ty, name, path), NumberErrors(s, t, ty, name, path), ty);
    ExpectedOnlyForAppend(StringErrors(env, s, t, ty, name, path) + NumberErrors(s, t, ty, name, path), KindErrors(t, ty, name, path), ty);
    ExpectedOnlyForAppend(ArrayErrors(env, s, t, ty, name, path, loc), ScalarErrors(env, s, t, ty, name, path), ty);
  }

  /** Every flag occurs in `FlagOrder`, so `GetTypes()` lists exactly the declared flags. */
  lemma FlagsInAll(flags: set<TypeFlag>)
    ensures forall f :: f in FlagsIn(flags, FlagOrder) <==> f in flags
  {
    forall f | f in flags ensures f in FlagOrder {
      match f
      case Array => assert FlagOrder[0] == f;
      case Boolean => assert FlagOrder[1] == f;
      case Integer => assert FlagOrder[2] == f;
      case Null => assert FlagOrder[3] == f;
      case Number => assert FlagOrder[4] == f;
      case Object => assert FlagOrder[5] == f;
      case String => assert FlagOrder[6] == f;
      case File => assert FlagOrder[7] == f;
    }
  }

  lemma {:induction false} FlagsInNone(order: seq<TypeFlag>)
    ensures FlagsIn({}, order) == []
  {
    if order != [] {
      FlagsInNone(order[..|order| - 1]);
    }
  }

  /** Without type flags, the type rule never reports that a token has the wrong type. */
  lemma NoFlagsNoExpected(env: Env, s: Schema, t: Json, name: Option<string>, path: Option<string>, loc: seq<Step>)
    requires s.typeFlags == {}
    ensures forall i :: 0 <= i < |TypeErrors(env, s, t, name, path, loc)| ==>
      ExpectedFlag(TypeErrors(env, s, t, name, path, loc)[i].kind).None?
  {
    FlagsInNone(FlagOrder);
    FlagChecksExpected(env, s, t, {}, name, path, loc);
  }

  /** Entry i of the per-flag lists is the checks run with flag i alone. */
  lemma {:induction false} PerFlagAt(env: Env, s: Schema, t: Json, flags: seq<TypeFlag>, name: Option<string>, path: Option<string>,
                                     loc: seq<Step>, n: nat, i: nat)
    requires i < n <= |flags|
    // Stated as an equation between terms, so that the solver need not compare the lists element by element.
    ensures Some(PerFlag(env, s, t, flags, name, path, loc, n)[i]) == Some(FlagChecks(env, s, t, {flags[i]}, name, path, loc))
    decreases n, 1
  {
    if i < n - 1 {
      PerFlagAtEarlier(env, s, t, flags, name, path, loc, n, i);
    } else {
      PerFlagLast(env, s, t, flags, name, path, loc, n, i);
    }
  }

  /** `PerFlagAt` for an entry before the last one. */
  lemma {:induction false} PerFlagAtEarlier(env: Env, s: Schema, t: Json, flags: seq<TypeFlag>, name: Option<string>,
                                            path: Option<string>, loc: seq<Step>, n: nat, i: nat)
    requires i < n - 1 && n <= |flags|
    ensures Some(PerFlag(env, s, t, flags, name, path, loc, n)[i]) == Some(FlagChecks(env, s, t, {flags[i]}, name, path, loc))
    decreases n, 0
  {
    PerFlagAt(env, s, t, flags, name, path, loc, n - 1, i);
    PerFlagKeeps(env, s, t, flags, name, path, loc, n, i);
  }

  /** Appending flag n-1's list keeps the earlier entries. */
  lemma PerFlagKeeps(env: Env, s: Schema, t: Json, flags: seq<TypeFlag>, name: Option<string>, path: Option<string>,
                     loc: seq<Step>, n: nat, i: nat)
    requires i < n - 1 && n <= |flags|
    ensures Some(PerFlag(env, s, t, flags, name, path, loc, n)[i]) == Some(PerFlag(env, s, t, flags, name, path, loc, n - 1)[i])
  {
  }

  /** The last entry of the first n lists is flag n-1's list. */
  lemma PerFlagLast(env: Env, s: Schema, t: Json, flags: seq<TypeFlag>, name: Option<string>, path: Option<string>,
                    loc: seq<Step>, n: nat, i: nat)
    requires i == n - 1 && n <= |flags|
    ensures Some(PerFlag(env, s, t, flags, name, path, loc, n)[i]) == Some(FlagChecks(env, s, t, {flags[i]}, name, path, loc))
  {
  }

  /** A non-empty list of non-empty lists flattens to a non-empty list. */
  lemma FlattenNonEmpty<T>(xs: seq<seq<T>>)
    requires |xs| > 0 && forall i :: 0 <= i < |xs| ==> xs[i] != []
    ensures Flatten(xs) != []
  {
    assert xs[|xs| - 1] != [];
  }

  /** Some flag's checks, run alone, pass. */
  predicate SomeFlagPasses(env: Env, s: Schema, t: Json, name: Option<string>, path: Option<string>, loc: seq<Step>) {
    exists f :: f in s.typeFlags && FlagChecks(env, s, t, {f}, name, path, loc) == []
  }

  /** Some flag passes exactly when some entry of the per-flag lists is empty. */
  lemma SomeFlagPassesAt(env: Env, s: Schema, t: Json, flags: seq<TypeFlag>, name: Option<string>, path: Option<string>,
                         loc: seq<Step>)
    requires forall f :: f in flags <==> f in s.typeFlags
    ensures var lists := PerFlag(env, s, t, flags, name, path, loc, |flags|);
      SomeFlagPasses(env, s, t, name, path, loc) <==> exists i :: 0 <= i < |lists| && lists[i] == []
  {
    var lists := PerFlag(env, s, t, flags, name, path, loc, |flags|);
    if SomeFlagPasses(env, s, t, name, path, loc) {
      var j := PassingFlagIndex(env, s, t, flags, name, path, loc);
      assert lists[j] == [];
    }
    if i :| 0 <= i < |lists| && lists[i] == [] {
      EmptyListPasses(env, s, t, flags, name, path, loc, i);
    }
  }

  lemma PassingFlagIndex(env: Env, s: Schema, t: Json, flags: seq<TypeFlag>, name: Option<string>, path: Option<string>,
                         loc: seq<Step>) returns (j: nat)
    requires forall f :: f in flags <==> f in s.typeFlags
    requires SomeFlagPasses(env, s, t, name, path, loc)
    ensures j < |flags| && PerFlag(env, s, t, flags, name, path, loc, |flags|)[j] == []
  {
    var f :| f in s.typeFlags && FlagChecks(env, s, t, {f}, name, path, loc) == [];
    j :| 0 <= j < |flags| && flags[j] == f;
    PerFlagAt(env, s, t, flags, name, path, loc, |flags|, j);
  }

  lemma EmptyListPasses(env: Env, s: Schema, t: Json, flags: seq<TypeFlag>, name: Option<string>, path: Option<string>,
                        loc: seq<Step>, i: nat)
    requires forall f :: f in flags <==> f in s.typeFlags
    requires i < |flags| && PerFlag(env, s, t, flags, name, path, loc, |flags|)[i] == []
    ensures SomeFlagPasses(env, s, t, name, path, loc)
  {
    PerFlagAt(env, s, t, flags, name, path, loc, |flags|, i);
    assert flags[i] in s.typeFlags;
  }

  /** `ValidateType` with flags: every flag's list, flattened when all are non-empty, else nothing. */
  lemma TypeErrorsLists(env: Env, s: Schema, t: Json, name: Option<string>, path: Option<string>, loc: seq<Step>)
    ensures var flags := FlagsIn(s.typeFlags, FlagOrder);
      var lists := PerFlag(env, s, t, flags, name, path, loc, |flags|);
      |flags| > 0 ==>
        TypeErrors(env, s, t, name, path, loc) == if forall i :: 0 <= i < |lists| ==> lists[i] != [] then Flatten(lists) else []
  {
  }

  lemma FlagsInNonEmpty(flags: set<TypeFlag>)
    requires flags != {}
    ensures |FlagsIn(flags, FlagOrder)| > 0
  {
    FlagsInAll(flags);
    var f :| f in flags;
    assert f in FlagsIn(flags, FlagOrder);
  }

  /** With type flags, the type rule reports nothing exactly when some declared flag's checks
      pass on their own; otherwise it reports every flag's errors, in flag order. */
  lemma TypeUnion(env: Env, s: Schema, t: Json, name: Option<string>, path: Option<string>, loc: seq<Step>)
    requires s.typeFlags != {}
    ensures TypeErrors(env, s, t, name, path, loc) == [] <==> SomeFlagPasses(env, s, t, name, path, loc)
    ensures !SomeFlagPasses(env, s, t, name, path, loc) ==>
      var flags := FlagsIn(s.typeFlags, FlagOrder);
      TypeErrors(env, s, t, name, path, loc) == Flatten(PerFlag(env, s, t, flags, name, path, loc, |flags|))
  {
    var flags := FlagsIn(s.typeFlags, FlagOrder);
    FlagsInAll(s.typeFlags);
    FlagsInNonEmpty(s.typeFlags);
    TypeErrorsLists(env, s, t, name, path, loc);
    SomeFlagPassesAt(env, s, t, flags, name, path, loc);
    var lists := PerFlag(env, s, t, flags, name, path, loc, |flags|);
    if forall i :: 0 <= i < |lists| ==> lists[i] != [] {
      FlattenNonEmpty(lists);
    }
  }

  /** A null token passes the type rule of any schema whose flags include Null (e.g. Null|Object). */
  lemma NullAllowed(env: Env, s: Schema, name: Option<string>, path: Option<string>, loc: seq<Step>)
    requires Null in s.typeFlags
    ensures TypeErrors(env, s, JNull, name, path, loc) == []
  {
    TypeUnion(env, s, JNull, name, path, loc);
    assert FlagChecks(env, s, JNull, {Null}, name, path, loc) == [];
  }
}

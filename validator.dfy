/**
 * `JsonSchemaValidator` as the source runs it: every check appends to the
 * caller's error list, `ValidatePatternProperties` removes the members it
 * handled from the `additionalProperties` list, and loops run over the
 * composition branches, the type flags, the declared properties, the
 * undeclared members and the array indices. The error list is threaded
 * through each method: it comes in as `errors` and goes out as `result`,
 * extended by exactly what the rule in ValidatorSpec adds.
 */
module Validator {
  import opened JsonModel
  import opened SchemaModel
  import opened Validation
  import S = ValidatorSpec

  /** `Validate(token, propertyName, propertyPath)`. */
  method Validate(env: S.Env, s: Schema, t: Json, name: Option<string>, path: Option<string>, loc: seq<Step>)
    returns (errors: seq<ValidationError>)
    ensures errors == S.Validate(env, s, t, name, path, loc)
    decreases s, 9
  {
    ghost var anyOf := S.CompositionErrors(env, s, S.AnyOfRule, t, name, path, loc);
    ghost var allOf := S.CompositionErrors(env, s, S.AllOfRule, t, name, path, loc);
    ghost var oneOf := S.CompositionErrors(env, s, S.OneOfRule, t, name, path, loc);
    ghost var not := S.NotErrors(env, s, t, name, path, loc);
    ghost var types := S.TypeErrors(env, s, t, name, path, loc);
    ghost var enum := S.EnumErrors(env, s, t, name, path);
    ghost var properties := S.PropertiesErrors(env, s, t, name, path, loc);
    errors := [];
    errors := ValidateAnyOf(env, s, t, name, path, loc, errors);
    assert errors == anyOf;
    errors := ValidateAllOf(env, s, t, name, path, loc, errors);
    errors := ValidateOneOf(env, s, t, name, path, loc, errors);
    errors := ValidateNot(env, s, t, name, path, loc, errors);
    errors := ValidateType(env, s, t, name, path, loc, errors);
    errors := ValidateEnum(env, s, t, name, path, errors);
    errors := ValidateProperties(env, s, t, name, path, loc, errors);
    assert errors == anyOf + allOf + oneOf + not + types + enum + properties;
  }

  /** `ToDictionary(s => s, s => s.Validate(token))` over the sub-schemas of one composition. */
  method ValidateBranches(env: S.Env, s: Schema, c: S.Composition, t: Json, loc: seq<Step>) returns (branches: seq<Branch>)
    ensures branches == S.BranchResults(env, s, c, t, loc, |S.Subschemas(s, c)|)
    decreases s, 7
  {
    var subs := S.Subschemas(s, c);
    branches := [];
    for i := 0 to |subs|
      invariant branches == S.BranchResults(env, s, c, t, loc, i)
    {
      var errs := Validate(env, subs[i], t, None, None, loc);
      branches := branches + [Branch(subs[i], errs)];
    }
  }

  method ValidateAnyOf(env: S.Env, s: Schema, t: Json, name: Option<string>, path: Option<string>, loc: seq<Step>,
                       errors: seq<ValidationError>) returns (result: seq<ValidationError>)
    ensures result == errors + S.CompositionErrors(env, s, S.AnyOfRule, t, name, path, loc)
    decreases s, 8
  {
    result := errors;
    if |s.anyOf| > 0 {
      var propertyErrors := ValidateBranches(env, s, S.AnyOfRule, t, loc);
      if forall i :: 0 <= i < |propertyErrors| ==> propertyErrors[i].errors != [] {
        result := result + [NewChildError(NotAnyOf, name, path, propertyErrors)];
      }
    }
  }

  method ValidateAllOf(env: S.Env, s: Schema, t: Json, name: Option<string>, path: Option<string>, loc: seq<Step>,
                       errors: seq<ValidationError>) returns (result: seq<ValidationError>)
    ensures result == errors + S.CompositionErrors(env, s, S.AllOfRule, t, name, path, loc)
    decreases s, 8
  {
    result := errors;
    if |s.allOf| > 0 {
      var propertyErrors := ValidateBranches(env, s, S.AllOfRule, t, loc);
      if exists i :: 0 <= i < |propertyErrors| && propertyErrors[i].errors != [] {
        result := result + [NewChildError(NotAllOf, name, path, propertyErrors)];
      }
    }
  }

  method ValidateOneOf(env: S.Env, s: Schema, t: Json, name: Option<string>, path: Option<string>, loc: seq<Step>,
                       errors: seq<ValidationError>) returns (result: seq<ValidationError>)
    ensures result == errors + S.CompositionErrors(env, s, S.OneOfRule, t, name, path, loc)
    decreases s, 8
  {
    result := errors;
    if |s.oneOf| > 0 {
      var propertyErrors := ValidateBranches(env, s, S.OneOfRule, t, loc);
      if S.CountPassing(propertyErrors) != 1 {
        result := result + [NewChildError(NotOneOf, name, path, propertyErrors)];
      }
    }
  }

  method ValidateNot(env: S.Env, s: Schema, t: Json, name: Option<string>, path: Option<string>, loc: seq<Step>,
                     errors: seq<ValidationError>) returns (result: seq<ValidationError>)
    ensures result == errors + S.NotErrors(env, s, t, name, path, loc)
    decreases s, 8
  {
    result := errors;
    if s.notSchema.Some? {
      var notErrors := Validate(env, s.notSchema.value, t, None, None, loc);
      if notErrors == [] {
        result := result + [NewError(ExcludedSchemaValidates, name, path)];
      }
    }
  }

  /** `ValidateType`: one error list per declared flag, reported only when none of them is empty. */
  method ValidateType(env: S.Env, s: Schema, t: Json, name: Option<string>, path: Option<string>, loc: seq<Step>,
                      errors: seq<ValidationError>) returns (result: seq<ValidationError>)
    ensures result == errors + S.TypeErrors(env, s, t, name, path, loc)
    decreases s, 8
  {
    var types := S.FlagsIn(s.typeFlags, FlagOrder);
    result := errors;
    if |types| > 0 {
      var lists := ValidatePerFlag(env, s, t, types, name, path, loc);
      if forall i :: 0 <= i < |lists| ==> lists[i] != [] {
        result := result + S.Flatten(lists);
      }
    } else {
      result := CheckAllKinds(env, s, t, s.typeFlags, name, path, loc, result);
    }
  }

  /** The loop of `ValidateType`: the checks run once per flag, each into a fresh list. */
  method ValidatePerFlag(env: S.Env, s: Schema, t: Json, types: seq<TypeFlag>, name: Option<string>, path: Option<string>,
                         loc: seq<Step>) returns (lists: seq<seq<ValidationError>>)
    ensures lists == S.PerFlag(env, s, t, types, name, path, loc, |types|)
    decreases s, 7
  {
    lists := [];
    for i := 0 to |types|
      invariant lists == S.PerFlag(env, s, t, types, name, path, loc, i)
    {
      var typeErrors := CheckAllKinds(env, s, t, {types[i]}, name, path, loc, []);
      assert typeErrors == S.FlagChecks(env, s, t, {types[i]}, name, path, loc);
      lists := lists + [typeErrors];
    }
  }

  /** The seven calls `ValidateType` makes for one type value. */
  method CheckAllKinds(env: S.Env, s: Schema, t: Json, ty: set<TypeFlag>, name: Option<string>, path: Option<string>,
                       loc: seq<Step>, errors: seq<ValidationError>) returns (result: seq<ValidationError>)
    ensures result == errors + S.FlagChecks(env, s, t, ty, name, path, loc)
    decreases s, 6
  {
    ghost var arrayErrors := S.ArrayErrors(env, s, t, ty, name, path, loc);
    result := ValidateArray(env, s, t, ty, name, path, loc, errors);
    result := ValidateScalars(env, s, t, ty, name, path, result);
    Assoc(errors, arrayErrors, S.ScalarErrors(env, s, t, ty, name, path));
  }

  method ValidateScalars(env: S.Env, s: Schema, t: Json, ty: set<TypeFlag>, name: Option<string>, path: Option<string>,
                         errors: seq<ValidationError>) returns (result: seq<ValidationError>)
    ensures result == errors + S.ScalarErrors(env, s, t, ty, name, path)
  {
    ghost var stringErrors := S.StringErrors(env, s, t, ty, name, path);
    ghost var numberErrors := S.NumberErrors(s, t, ty, name, path);
    result := ValidateString(env, s, t, ty, name, path, errors);
    result := ValidateNumber(s, t, ty, name, path, result);
    Assoc(errors, stringErrors, numberErrors);
    result := ValidateKinds(t, ty, name, path, result);
    Assoc(errors, stringErrors + numberErrors, S.KindErrors(t, ty, name, path));
  }

  /** `ValidateInteger`, `ValidateBoolean`, `ValidateNull` and `ValidateObject`. */
  method ValidateKinds(t: Json, ty: set<TypeFlag>, name: Option<string>, path: Option<string>, errors: seq<ValidationError>)
    returns (result: seq<ValidationError>)
    ensures result == errors + S.KindErrors(t, ty, name, path)
  {
    ghost var integer := S.Check(Integer in ty && !t.JInteger?, IntegerExpected, name, path);
    ghost var boolean := S.Check(Boolean in ty && !t.JBool?, BooleanExpected, name, path);
    ghost var nullCheck := S.Check(Null in ty && !t.JNull?, NullExpected, name, path);
    result := ValidateInteger(t, ty, name, path, errors);
    result := ValidateBoolean(t, ty, name, path, result);
    Assoc(errors, integer, boolean);
    result := ValidateNull(t, ty, name, path, result);
    Assoc(errors, integer + boolean, nullCheck);
    result := ValidateObject(t, ty, name, path, result);
    Assoc(errors, integer + boolean + nullCheck, S.Check(Object in ty && !t.JObject?, ObjectExpected, name, path));
  }

  method ValidateNull(t: Json, ty: set<TypeFlag>, name: Option<string>, path: Option<string>, errors: seq<ValidationError>)
    returns (result: seq<ValidationError>)
    ensures result == errors + S.Check(Null in ty && !t.JNull?, NullExpected, name, path)
  {
    result := errors;
    if Null in ty {
      if !t.JNull? {
        result := result + [NewError(NullExpected, name, path)];
      }
    }
  }

  method ValidateEnum(env: S.Env, s: Schema, t: Json, name: Option<string>, path: Option<string>, errors: seq<ValidationError>)
    returns (result: seq<ValidationError>)
    ensures result == errors + S.EnumErrors(env, s, t, name, path)
  {
    result := errors;
    if |s.enumeration| > 0 && forall i :: 0 <= i < |s.enumeration| ==> env.render(s.enumeration[i]) != env.render(t) {
      result := result + [NewError(NotInEnumeration, name, path)];
    }
  }

  method ValidateString(env: S.Env, s: Schema, t: Json, ty: set<TypeFlag>, name: Option<string>, path: Option<string>,
                        errors: seq<ValidationError>) returns (result: seq<ValidationError>)
    ensures result == errors + S.StringErrors(env, s, t, ty, name, path)
  {
    if t.JString? {
      var value := t.s;
      ghost var mismatch := S.Check(s.pattern.Some? && s.pattern.value != "" && !env.isMatch(value, s.pattern.value),
                                    PatternMismatch, name, path);
      ghost var tooShort := S.Check(s.minLength.Some? && |value| < s.minLength.value, StringTooShort, name, path);
      ghost var tooLong := S.Check(s.maxLength.Some? && |value| > s.maxLength.value, StringTooLong, name, path);
      ghost var formatErrors := S.FormatErrors(env, s, value, name, path);
      result := Report(s.pattern.Some? && s.pattern.value != "" && !env.isMatch(value, s.pattern.value),
                       PatternMismatch, name, path, errors);
      result := Report(s.minLength.Some? && |value| < s.minLength.value, StringTooShort, name, path, result);
      Assoc(errors, mismatch, tooShort);
      result := Report(s.maxLength.Some? && |value| > s.maxLength.value, StringTooLong, name, path, result);
      Assoc(errors, mismatch + tooShort, tooLong);
      result := ValidateFormat(env, s, value, name, path, result);
      Assoc(errors, mismatch + tooShort + tooLong, formatErrors);
    } else {
      result := Report(String in ty, StringExpected, name, path, errors);
    }
  }

  /** The `Format` part of `ValidateString`. */
  method ValidateFormat(env: S.Env, s: Schema, value: string, name: Option<string>, path: Option<string>,
                        errors: seq<ValidationError>) returns (result: seq<ValidationError>)
    ensures result == errors + S.FormatErrors(env, s, value, name, path)
  {
    result := errors;
    if s.format.Some? && s.format.value != "" {
      var f := s.format.value;
      result := ValidateLeadingFormats(env, f, value, name, path, result);
      result := ValidateTrailingFormats(env, f, value, name, path, result);
      Assoc(errors, S.LeadingFormatErrors(env, f, value, name, path), S.TrailingFormatErrors(env, f, value, name, path));
    }
  }

  /** The "date-time", "uri", "email" and "ipv4" checks. */
  method ValidateLeadingFormats(env: S.Env, f: string, value: string, name: Option<string>, path: Option<string>,
                                errors: seq<ValidationError>) returns (result: seq<ValidationError>)
    ensures result == errors + S.LeadingFormatErrors(env, f, value, name, path)
  {
    ghost var dateTime := S.Check(f == S.DateTimeFormat && !env.isDateTime(value), DateTimeExpected, name, path);
    ghost var uri := S.Check(f == S.UriFormat && !env.isAbsoluteUri(value), UriExpected, name, path);
    ghost var email := S.Check(f == S.EmailFormat && !env.isEmail(value), EmailExpected, name, path);
    result := Report(f == S.DateTimeFormat && !env.isDateTime(value), DateTimeExpected, name, path, errors);
    result := Report(f == S.UriFormat && !env.isAbsoluteUri(value), UriExpected, name, path, result);
    Assoc(errors, dateTime, uri);
    result := Report(f == S.EmailFormat && !env.isEmail(value), EmailExpected, name, path, result);
    Assoc(errors, dateTime + uri, email);
    result := Report(f == S.IpV4Format && !env.isIpV4(value), IpV4Expected, name, path, result);
    Assoc(errors, dateTime + uri + email, S.Check(f == S.IpV4Format && !env.isIpV4(value), IpV4Expected, name, path));
  }

  /** The "ipv6", "guid", "hostname" and "byte"/"base64" checks. */
  method ValidateTrailingFormats(env: S.Env, f: string, value: string, name: Option<string>, path: Option<string>,
                                 errors: seq<ValidationError>) returns (result: seq<ValidationError>)
    ensures result == errors + S.TrailingFormatErrors(env, f, value, name, path)
  {
    var isBase64 := |value| % 4 == 0 && env.isBase64Text(value);
    ghost var ipV6 := S.Check(f == S.IpV6Format && !env.isIpV6(value), IpV6Expected, name, path);
    ghost var guid := S.Check(f == S.GuidFormat && !env.isGuid(value), GuidExpected, name, path);
    ghost var hostname := S.Check(f == S.HostnameFormat && !env.isHostname(value), HostnameExpected, name, path);
    result := Report(f == S.IpV6Format && !env.isIpV6(value), IpV6Expected, name, path, errors);
    result := Report(f == S.GuidFormat && !env.isGuid(value), GuidExpected, name, path, result);
    Assoc(errors, ipV6, guid);
    result := Report(f == S.HostnameFormat && !env.isHostname(value), HostnameExpected, name, path, result);
    Assoc(errors, ipV6 + guid, hostname);
    result := Report((f == S.ByteFormat || f == S.Base64Format) && !isBase64, Base64Expected, name, path, result);
    Assoc(errors, ipV6 + guid + hostname, S.Check((f == S.ByteFormat || f == S.Base64Format) && !isBase64, Base64Expected, name, path));
  }

  method ValidateNumber(s: Schema, t: Json, ty: set<TypeFlag>, name: Option<string>, path: Option<string>,
                        errors: seq<ValidationError>) returns (result: seq<ValidationError>)
    ensures result == errors + S.NumberErrors(s, t, ty, name, path)
  {
    ghost var expected := S.Check(Number in ty && !IsNumber(t), NumberExpected, name, path);
    result := Report(Number in ty && !IsNumber(t), NumberExpected, name, path, errors);
    if IsNumber(t) {
      result := ValidateBounds(s, NumberValue(t), name, path, result);
      Assoc(errors, expected, S.BoundErrors(s, NumberValue(t), name, path));
    }
  }

  /** The `Minimum`, `Maximum` and `MultipleOf` checks of `ValidateNumber`. */
  method ValidateBounds(s: Schema, value: real, name: Option<string>, path: Option<string>, errors: seq<ValidationError>)
    returns (result: seq<ValidationError>)
    ensures result == errors + S.BoundErrors(s, value, name, path)
  {
    var tooSmall := s.minimum.Some? && (if s.isExclusiveMinimum then value <= s.minimum.value else value < s.minimum.value);
    var tooBig := s.maximum.Some? && (if s.isExclusiveMaximum then value >= s.maximum.value else value > s.maximum.value);
    var notMultiple := s.multipleOf.Some? && !S.IsMultipleOf(value, s.multipleOf.value);
    result := Report(tooSmall, NumberTooSmall, name, path, errors);
    result := Report(tooBig, NumberTooBig, name, path, result);
    Assoc(errors, S.Check(tooSmall, NumberTooSmall, name, path), S.Check(tooBig, NumberTooBig, name, path));
    result := Report(notMultiple, NumberNotMultipleOf, name, path, result);
    Assoc(errors, S.Check(tooSmall, NumberTooSmall, name, path) + S.Check(tooBig, NumberTooBig, name, path),
          S.Check(notMultiple, NumberNotMultipleOf, name, path));
  }

  method ValidateInteger(t: Json, ty: set<TypeFlag>, name: Option<string>, path: Option<string>, errors: seq<ValidationError>)
    returns (result: seq<ValidationError>)
    ensures result == errors + S.Check(Integer in ty && !t.JInteger?, IntegerExpected, name, path)
  {
    result := errors;
    if Integer in ty {
      if !t.JInteger? {
        result := result + [NewError(IntegerExpected, name, path)];
      }
    }
  }

  method ValidateBoolean(t: Json, ty: set<TypeFlag>, name: Option<string>, path: Option<string>, errors: seq<ValidationError>)
    returns (result: seq<ValidationError>)
    ensures result == errors + S.Check(Boolean in ty && !t.JBool?, BooleanExpected, name, path)
  {
    result := errors;
    if Boolean in ty {
      if !t.JBool? {
        result := result + [NewError(BooleanExpected, name, path)];
      }
    }
  }

  method ValidateObject(t: Json, ty: set<TypeFlag>, name: Option<string>, path: Option<string>, errors: seq<ValidationError>)
    returns (result: seq<ValidationError>)
    ensures result == errors + S.Check(Object in ty && !t.JObject?, ObjectExpected, name, path)
  {
    result := errors;
    if Object in ty {
      if !t.JObject? {
        result := result + [NewError(ObjectExpected, name, path)];
      }
    }
  }

  method ValidateProperties(env: S.Env, s: Schema, t: Json, name: Option<string>, path: Option<string>, loc: seq<Step>,
                            errors: seq<ValidationError>) returns (result: seq<ValidationError>)
    ensures result == errors + S.PropertiesErrors(env, s, t, name, path, loc)
    decreases s, 8
  {
    ghost var declared := S.DeclaredErrors(env, s, t, path, loc, |s.properties|);
    result := ValidateDeclared(env, s, t, path, loc, errors);
    if t.JObject? {
      result := ValidateMembers(env, s, t.members, name, path, loc, result);
      Assoc(errors, declared, S.MemberErrors(env, s, t.members, name, path, loc));
    } else {
      assert declared + [] == declared;
    }
  }

  /** The loop of `ValidateProperties` over the declared properties. */
  method ValidateDeclared(env: S.Env, s: Schema, t: Json, path: Option<string>, loc: seq<Step>,
                          errors: seq<ValidationError>) returns (result: seq<ValidationError>)
    ensures result == errors + S.DeclaredErrors(env, s, t, path, loc, |s.properties|)
    decreases s, 7
  {
    result := errors;
    for k := 0 to |s.properties|
      invariant result == errors + S.DeclaredErrors(env, s, t, path, loc, k)
    {
      ghost var done := S.DeclaredErrors(env, s, t, path, loc, k);
      result := ValidateDeclaredProperty(env, s, t, path, loc, k, result);
      Assoc(errors, done, S.DeclaredError(env, s, t, path, loc, k));
    }
  }

  /** One declared property: validated against its schema when the object has it, else reported if required. */
  method ValidateDeclaredProperty(env: S.Env, s: Schema, t: Json, path: Option<string>, loc: seq<Step>, k: nat,
                                  errors: seq<ValidationError>) returns (result: seq<ValidationError>)
    requires k < |s.properties|
    ensures result == errors + S.DeclaredError(env, s, t, path, loc, k)
    decreases s, 6
  {
    var key := s.properties[k].key;
    var newPropertyPath := S.ChildPath(path, key);
    var property := if t.JObject? then Lookup(t.members, key) else None;
    if property.Some? {
      var propertyErrors := Validate(env, s.properties[k].schema, property.value, Some(key), Some(newPropertyPath), loc + [Key(key)]);
      result := errors + propertyErrors;
    } else {
      result := Report(IsRequired(s, key), PropertyRequired, Some(key), Some(newPropertyPath), errors);
    }
  }

  /** The part of `ValidateProperties` that runs when the token is an object. */
  method ValidateMembers(env: S.Env, s: Schema, properties: seq<Member>, name: Option<string>, path: Option<string>,
                         loc: seq<Step>, errors: seq<ValidationError>) returns (result: seq<ValidationError>)
    ensures result == errors + S.MemberErrors(env, s, properties, name, path, loc)
    decreases s, 7
  {
    ghost var tooMany := S.Check(s.maxProperties > 0 && |properties| > s.maxProperties, TooManyProperties, name, path);
    ghost var tooFew := S.Check(s.minProperties > 0 && |properties| < s.minProperties, TooFewProperties, name, path);
    result := Report(s.maxProperties > 0 && |properties| > s.maxProperties, TooManyProperties, name, path, errors);
    result := Report(s.minProperties > 0 && |properties| < s.minProperties, TooFewProperties, name, path, result);
    Assoc(errors, tooMany, tooFew);
    ghost var counts := S.PropertyCountErrors(s, properties, name, path);
    var additionalProperties := S.Undeclared(s, properties);
    ghost var patternErrors := S.PatternErrors(env, s, additionalProperties, loc, |additionalProperties|);
    ghost var additionalErrors := S.AdditionalErrors(env, s, S.Unmatched(env, s, additionalProperties), path, loc);
    additionalProperties, result := ValidatePatternProperties(env, s, additionalProperties, loc, result);
    Assoc(errors, counts, patternErrors);
    result := ValidateAdditionalProperties(env, s, additionalProperties, path, loc, result);
    Assoc(errors, counts + patternErrors, additionalErrors);
  }

  lemma Assoc<T>(a: seq<T>, b: seq<T>, c: seq<T>)
    ensures (a + b) + c == a + (b + c)
  {
  }

  /** `if (cond) errors.Add(new ValidationError(kind, name, path))`. */
  method Report(cond: bool, kind: ErrorKind, name: Option<string>, path: Option<string>, errors: seq<ValidationError>)
    returns (result: seq<ValidationError>)
    ensures result == errors + S.Check(cond, kind, name, path)
  {
    result := errors;
    if cond {
      result := result + [NewError(kind, name, path)];
    }
  }

  /** `if (error != null) errors.Add(error)`. */
  method AddError(error: Option<ValidationError>, errors: seq<ValidationError>) returns (result: seq<ValidationError>)
    ensures result == errors + S.Added(error)
  {
    result := errors;
    if error.Some? {
      result := result + [error.value];
    }
  }

  /** `List.Remove(x)`: drops the first element equal to x. */
  function RemoveFirst(xs: seq<Member>, x: Member): (r: seq<Member>)
    ensures x !in xs ==> r == xs
    ensures x in xs ==> |r| == |xs| - 1
  {
    if xs == [] then [] else if xs[0] == x then xs[1..] else [xs[0]] + RemoveFirst(xs[1..], x)
  }

  lemma {:induction false} RemoveFirstAfter(u: seq<Member>, x: Member, rest: seq<Member>)
    requires x !in u
    ensures RemoveFirst(u + [x] + rest, x) == u + rest
  {
    if u != [] {
      assert (u + [x] + rest)[1..] == u[1..] + [x] + rest;
      RemoveFirstAfter(u[1..], x, rest);
    } else {
      assert u + [x] + rest == [x] + rest;
    }
  }

  /** `ValidatePatternProperties`: iterates over a copy of the list and removes each member a
      pattern matches from the list itself. */
  method ValidatePatternProperties(env: S.Env, s: Schema, additionalProperties: seq<Member>, loc: seq<Step>,
                                   errors: seq<ValidationError>)
    returns (remaining: seq<Member>, result: seq<ValidationError>)
    ensures remaining == S.Unmatched(env, s, additionalProperties)
    ensures result == errors + S.PatternErrors(env, s, additionalProperties, loc, |additionalProperties|)
    decreases s, 6
  {
    var snapshot := additionalProperties;
    remaining := additionalProperties;
    result := errors;
    for i := 0 to |snapshot|
      invariant remaining == S.Unmatched(env, s, snapshot[..i]) + snapshot[i..]
      invariant result == errors + S.PatternErrors(env, s, snapshot, loc, i)
    {
      var property := snapshot[i];
      ghost var done := S.PatternErrors(env, s, snapshot, loc, i);
      RemainingStep(env, s, snapshot, i);
      var matched: bool;
      matched, result := ValidatePatternProperty(env, s, property, loc, result);
      if matched {
        remaining := RemoveFirst(remaining, property);
      }
      Assoc(errors, done, S.PatternError(env, s, property, loc));
    }
    assert snapshot[..|snapshot|] == snapshot;
  }

  /** Removing the i-th member when a pattern matches it keeps `remaining` equal to the
      unmatched members seen so far followed by those not yet seen. */
  lemma RemainingStep(env: S.Env, s: Schema, snapshot: seq<Member>, i: nat)
    requires i < |snapshot|
    ensures S.FirstPattern(env, s, snapshot[i].name).Some? ==>
      RemoveFirst(S.Unmatched(env, s, snapshot[..i]) + snapshot[i..], snapshot[i])
      == S.Unmatched(env, s, snapshot[..i + 1]) + snapshot[i + 1..]
    ensures S.FirstPattern(env, s, snapshot[i].name).None? ==>
      S.Unmatched(env, s, snapshot[..i]) + snapshot[i..] == S.Unmatched(env, s, snapshot[..i + 1]) + snapshot[i + 1..]
  {
    var property := snapshot[i];
    var unmatched := S.Unmatched(env, s, snapshot[..i]);
    assert snapshot[..i + 1][..i] == snapshot[..i];
    assert snapshot[i..] == [property] + snapshot[i + 1..];
    Assoc(unmatched, [property], snapshot[i + 1..]);
    if S.FirstPattern(env, s, property.name).Some? {
      assert S.Unmatched(env, s, snapshot[..i + 1]) == unmatched;
      RemoveFirstAfter(unmatched, property, snapshot[i + 1..]);
    } else {
      assert S.Unmatched(env, s, snapshot[..i + 1]) == unmatched + [property];
    }
  }

  /** One iteration of `ValidatePatternProperties`: whether a pattern matched the member, and its error if any. */
  method ValidatePatternProperty(env: S.Env, s: Schema, property: Member, loc: seq<Step>, errors: seq<ValidationError>)
    returns (matched: bool, result: seq<ValidationError>)
    ensures matched <==> S.FirstPattern(env, s, property.name).Some?
    ensures result == errors + S.PatternError(env, s, property, loc)
    decreases s, 5
  {
    var k := S.FirstPattern(env, s, property.name);
    matched := k.Some?;
    result := errors;
    if k.Some? {
      var at := loc + [Key(property.name)];
      var error := TryCreateChildSchemaError(env, s.patternProperties[k.value].schema, property.value,
                                             AdditionalPropertiesNotValid, Some(property.name), env.tokenPath(at), at);
      result := AddError(error, result);
    }
  }

  method ValidateAdditionalProperties(env: S.Env, s: Schema, additionalProperties: seq<Member>, path: Option<string>,
                                      loc: seq<Step>, errors: seq<ValidationError>) returns (result: seq<ValidationError>)
    ensures result == errors + S.AdditionalErrors(env, s, additionalProperties, path, loc)
    decreases s, 6
  {
    result := errors;
    if s.additionalPropertiesSchema.Some? {
      result := ValidateAdditionalSchema(env, s, additionalProperties, loc, result);
    } else if !s.allowAdditionalProperties && |additionalProperties| > 0 {
      result := ReportAdditional(additionalProperties, path, result);
    }
  }

  /** Every remaining member validated against `AdditionalPropertiesSchema`. */
  method ValidateAdditionalSchema(env: S.Env, s: Schema, additionalProperties: seq<Member>, loc: seq<Step>,
                                  errors: seq<ValidationError>) returns (result: seq<ValidationError>)
    requires s.additionalPropertiesSchema.Some?
    ensures result == errors + S.AdditionalSchemaErrors(env, s, additionalProperties, loc, |additionalProperties|)
    decreases s, 5
  {
    result := errors;
    for i := 0 to |additionalProperties|
      invariant result == errors + S.AdditionalSchemaErrors(env, s, additionalProperties, loc, i)
    {
      ghost var done := S.AdditionalSchemaErrors(env, s, additionalProperties, loc, i);
      var property := additionalProperties[i];
      var at := loc + [Key(property.name)];
      var error := TryCreateChildSchemaError(env, s.additionalPropertiesSchema.value, property.value,
                                             AdditionalPropertiesNotValid, Some(property.name), env.tokenPath(at), at);
      result := AddError(error, result);
      Assoc(errors, done, S.AdditionalSchemaError(env, s, property, loc));
    }
  }

  /** One `NoAdditionalPropertiesAllowed` error per remaining member. */
  method ReportAdditional(additionalProperties: seq<Member>, path: Option<string>, errors: seq<ValidationError>)
    returns (result: seq<ValidationError>)
    ensures result == errors + S.NoAdditionalErrors(additionalProperties, path, |additionalProperties|)
  {
    result := errors;
    for i := 0 to |additionalProperties|
      invariant result == errors + S.NoAdditionalErrors(additionalProperties, path, i)
    {
      ghost var done := S.NoAdditionalErrors(additionalProperties, path, i);
      var property := additionalProperties[i];
      var newPropertyPath := S.ChildPath(path, property.name);
      var error := NewError(NoAdditionalPropertiesAllowed, Some(property.name), Some(newPropertyPath));
      result := result + [error];
      Assoc(errors, done, [error]);
    }
  }

  method ValidateArray(env: S.Env, s: Schema, t: Json, ty: set<TypeFlag>, name: Option<string>, path: Option<string>,
                       loc: seq<Step>, errors: seq<ValidationError>) returns (result: seq<ValidationError>)
    ensures result == errors + S.ArrayErrors(env, s, t, ty, name, path, loc)
    decreases s, 5
  {
    result := errors;
    if t.JArray? {
      ghost var counts := S.CountErrors(env, s, t.items, name, path);
      result := ValidateCounts(env, s, t.items, name, path, result);
      result := ValidateItems(env, s, t.items, path, loc, result);
      Assoc(errors, counts, S.ItemsErrors(env, s, t.items, path, loc, |t.items|));
    } else if Array in ty {
      result := result + [NewError(ArrayExpected, name, path)];
    }
  }

  /** The three checks `ValidateArray` makes on the array as a whole. */
  method ValidateCounts(env: S.Env, s: Schema, arr: seq<Json>, name: Option<string>, path: Option<string>,
                        errors: seq<ValidationError>) returns (result: seq<ValidationError>)
    ensures result == errors + S.CountErrors(env, s, arr, name, path)
  {
    ghost var tooFew := S.Check(s.minItems > 0 && |arr| < s.minItems, TooFewItems, name, path);
    ghost var tooMany := S.Check(s.maxItems > 0 && |arr| > s.maxItems, TooManyItems, name, path);
    ghost var notUnique := S.Check(s.uniqueItems && |arr| != |S.RenderSet(env, arr)|, ItemsNotUnique, name, path);
    result := Report(s.minItems > 0 && |arr| < s.minItems, TooFewItems, name, path, errors);
    result := Report(s.maxItems > 0 && |arr| > s.maxItems, TooManyItems, name, path, result);
    Assoc(errors, tooFew, tooMany);
    result := Report(s.uniqueItems && |arr| != |S.RenderSet(env, arr)|, ItemsNotUnique, name, path, result);
    Assoc(errors, tooFew + tooMany, notUnique);
  }

  /** The loop of `ValidateArray` over the elements. */
  method ValidateItems(env: S.Env, s: Schema, arr: seq<Json>, path: Option<string>, loc: seq<Step>,
                       errors: seq<ValidationError>) returns (result: seq<ValidationError>)
    ensures result == errors + S.ItemsErrors(env, s, arr, path, loc, |arr|)
    decreases s, 4, 1
  {
    result := errors;
    for index := 0 to |arr|
      invariant result == errors + S.ItemsErrors(env, s, arr, path, loc, index)
    {
      ghost var done := S.ItemsErrors(env, s, arr, path, loc, index);
      result := ValidateItem(env, s, arr[index], index, path, loc + [Index(index)], result);
      Assoc(errors, done, S.ItemErrors(env, s, arr[index], index, path, loc + [Index(index)]));
    }
  }

  /** One iteration of the loop in `ValidateArray`: the `Item` check, then `ValidateAdditionalItems`. */
  method ValidateItem(env: S.Env, s: Schema, item: Json, index: nat, path: Option<string>, loc: seq<Step>,
                      errors: seq<ValidationError>) returns (result: seq<ValidationError>)
    ensures result == errors + S.ItemErrors(env, s, item, index, path, loc)
    decreases s, 4, 0
  {
    var propertyIndex := S.IndexText(index);
    var itemPath := S.ItemPath(path, propertyIndex);
    ghost var itemPart := S.ItemCheck(env, s, item, index, path, loc);
    ghost var additionalPart := S.AdditionalItemErrors(env, s, item, index, path, loc);
    result := errors;
    if s.item.Some? {
      var error := TryCreateChildSchemaError(env, s.item.value, item, ArrayItemNotValid, Some(propertyIndex), itemPath, loc);
      if error.Some? {
        result := result + [error.value];
      }
    }
    assert result == errors + itemPart;
    result := ValidateAdditionalItems(env, s, item, index, path, loc, result);
    Assoc(errors, itemPart, additionalPart);
  }

  method ValidateAdditionalItems(env: S.Env, s: Schema, item: Json, index: nat, path: Option<string>, loc: seq<Step>,
                                 errors: seq<ValidationError>) returns (result: seq<ValidationError>)
    ensures result == errors + S.AdditionalItemErrors(env, s, item, index, path, loc)
    decreases s, 2
  {
    result := errors;
    if |s.items| > 0 {
      var propertyIndex := S.IndexText(index);
      if |s.items| > index {
        var error := TryCreateChildSchemaError(env, s.items[index], item, ArrayItemNotValid, Some(propertyIndex),
                                               S.TuplePath(path, propertyIndex), loc);
        if error.Some? {
          result := result + [error.value];
        }
      } else if s.additionalItemsSchema.Some? {
        var error := TryCreateChildSchemaError(env, s.additionalItemsSchema.value, item, AdditionalItemNotValid,
                                               Some(propertyIndex), S.TuplePath(path, propertyIndex), loc);
        if error.Some? {
          result := result + [error.value];
        }
      } else if !s.allowAdditionalItems {
        result := result + [NewError(TooManyItemsInTuple, Some(propertyIndex), Some(S.TuplePath(path, propertyIndex)))];
      }
    }
  }

  /** `TryCreateChildSchemaError`: `null` (None) when the child schema accepts the token. */
  method TryCreateChildSchemaError(env: S.Env, child: Schema, t: Json, kind: ErrorKind, property: Option<string>,
                                   path: string, loc: seq<Step>) returns (error: Option<ValidationError>)
    ensures error == S.TryChild(env, child, t, kind, property, path, loc)
    decreases child, 10
  {
    var errors := Validate(env, child, t, None, Some(path), loc);
    if errors == [] {
      return None;
    }
    error := Some(NewChildError(kind, property, Some(path), [Branch(child, errors)]));
  }
}

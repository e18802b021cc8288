/**
 * What `JsonSchemaValidator.Validate` computes, as functions: the list of
 * errors a token produces against a schema, rule by rule, in the order the
 * validator appends them. The imperative validator (module Validator) is
 * proved to return exactly these lists; the properties of the rules are
 * proved about these functions (module ValidatorProperties).
 *
 * Library calls the validator makes and that are not part of this model
 * (regular expressions, date/URI/GUID parsing, `JToken.ToString()`,
 * `JToken.Path`) are the fields of an `Env`: any total functions.
 */
module ValidatorSpec {
  import opened JsonModel
  import opened SchemaModel
  import opened Validation
  import opened StringUtil

  datatype Env = Env(
    render: Json -> string,              // JToken.ToString() (and the enum values' ToString())
    isMatch: (string, string) -> bool,   // Regex.IsMatch(input, pattern)
    isDateTime: string -> bool,          // DateTime.TryParse succeeds
    isAbsoluteUri: string -> bool,       // Uri.TryCreate(value, UriKind.Absolute, ...) succeeds
    isEmail: string -> bool,             // the e-mail regular expression matches
    isIpV4: string -> bool,              // the IPv4 regular expression matches
    isIpV6: string -> bool,              // Uri.CheckHostName(value) == UriHostNameType.IPv6
    isGuid: string -> bool,              // Guid.TryParse succeeds
    isHostname: string -> bool,          // the host-name regular expression matches
    isBase64Text: string -> bool,        // ^[a-zA-Z0-9\+/]*={0,3}$ matches
    tokenPath: seq<Step> -> string)      // JToken.Path of the token at this location

  /** The values of `JsonFormatStrings` the string check looks at. */
  const DateTimeFormat := "date-time"
  const UriFormat := "uri"
  const EmailFormat := "email"
  const IpV4Format := "ipv4"
  const IpV6Format := "ipv6"
  const GuidFormat := "guid"
  const HostnameFormat := "hostname"
  const ByteFormat := "byte"
  const Base64Format := "base64"

  datatype Composition = AnyOfRule | AllOfRule | OneOfRule

  function Subschemas(s: Schema, c: Composition): seq<Schema> {
    match c
    case AnyOfRule => s.anyOf
    case AllOfRule => s.allOf
    case OneOfRule => s.oneOf
  }

  function CompositionKind(c: Composition): ErrorKind {
    match c
    case AnyOfRule => NotAnyOf
    case AllOfRule => NotAllOf
    case OneOfRule => NotOneOf
  }

  /** Zero or one error, as `if (cond) errors.Add(new ValidationError(kind, ...))` adds. */
  function Check(cond: bool, kind: ErrorKind, name: Option<string>, path: Option<string>): (r: seq<ValidationError>)
    ensures |r| <= 1 && (r != [] <==> cond)
    ensures r != [] ==> r[0] == NewError(kind, name, path)
  {
    if cond then [NewError(kind, name, path)] else []
  }

  /** `if (error != null) errors.Add(error)`. */
  function Added(e: Option<ValidationError>): (r: seq<ValidationError>)
    ensures |r| <= 1 && (r != [] <==> e.Some?)
  {
    if e.Some? then [e.value] else []
  }

  function Flatten<T>(xs: seq<seq<T>>): (r: seq<T>)
    ensures xs == [] ==> r == []
  {
    if xs == [] then [] else Flatten(xs[..|xs| - 1]) + xs[|xs| - 1]
  }

  /** The flags of `flags` in the order of `order` (`GetTypes()` with `order` = FlagOrder). */
  function FlagsIn(flags: set<TypeFlag>, order: seq<TypeFlag>): (r: seq<TypeFlag>)
    ensures forall f :: f in r <==> f in flags && f in order
    ensures |r| <= |order|
  {
    if order == [] then []
    else FlagsIn(flags, order[..|order| - 1]) + (if order[|order| - 1] in flags then [order[|order| - 1]] else [])
  }

  /** `!string.IsNullOrEmpty(propertyPath) ? propertyPath + "." + key : key`. */
  function ChildPath(path: Option<string>, key: string): string {
    if path.Some? && path.value != "" then path.value + "." + key else key
  }

  /** `string.Format("[{0}]", index)`. */
  function IndexText(i: nat): string {
    "[" + NatToString(i) + "]"
  }

  /** `!string.IsNullOrEmpty(propertyPath) ? propertyPath + propertyIndex : propertyIndex`. */
  function ItemPath(path: Option<string>, index: string): string {
    if path.Some? && path.value != "" then path.value + index else index
  }

  /** `propertyPath + propertyIndex`, where a null string concatenates as "". */
  function TuplePath(path: Option<string>, index: string): string {
    (if path.Some? then path.value else "") + index
  }

  /** `value % multipleOf == 0` on exact decimals; a zero divisor is taken as no error. */
  predicate IsMultipleOf(v: real, m: real) {
    m == 0.0 || IsIntegral(Quotient(v, m))
  }

  function Quotient(v: real, m: real): real
    requires m != 0.0
  {
    v / m
  }

  predicate IsIntegral(x: real) {
    x.Floor as real == x
  }

  /** The distinct renderings of the elements: `array.Select(a => a.ToString()).Distinct()`. */
  function RenderSet(env: Env, items: seq<Json>): (r: set<string>)
    ensures forall x :: x in r <==> exists i :: 0 <= i < |items| && env.render(items[i]) == x
  {
    if items == [] then {}
    else
      var r := RenderSet(env, items[..|items| - 1]) + {env.render(items[|items| - 1])};
      assert forall i :: 0 <= i < |items| - 1 ==> items[..|items| - 1][i] == items[i];
      r
  }

  /** `Regex.IsMatch(name, p.Key)` for the first pattern property that matches, as `FirstOrDefault` finds it. */
  function FirstPattern(env: Env, s: Schema, name: string): (r: Option<nat>)
    ensures r.Some? ==> r.value < |s.patternProperties| && env.isMatch(name, s.patternProperties[r.value].key)
    ensures r.Some? ==> forall k :: 0 <= k < r.value ==> !env.isMatch(name, s.patternProperties[k].key)
    ensures r.None? ==> forall k :: 0 <= k < |s.patternProperties| ==> !env.isMatch(name, s.patternProperties[k].key)
  {
    FirstPatternFrom(env, s, name, 0)
  }

  function FirstPatternFrom(env: Env, s: Schema, name: string, k: nat): (r: Option<nat>)
    requires k <= |s.patternProperties|
    ensures r.Some? ==> k <= r.value < |s.patternProperties| && env.isMatch(name, s.patternProperties[r.value].key)
    ensures r.Some? ==> forall j :: k <= j < r.value ==> !env.isMatch(name, s.patternProperties[j].key)
    ensures r.None? ==> forall j :: k <= j < |s.patternProperties| ==> !env.isMatch(name, s.patternProperties[j].key)
    decreases |s.patternProperties| - k
  {
    if k == |s.patternProperties| then None
    else if env.isMatch(name, s.patternProperties[k].key) then Some(k)
    else FirstPatternFrom(env, s, name, k + 1)
  }

  /** The instance members whose names are not declared properties, in document order. */
  function Undeclared(s: Schema, members: seq<Member>): (r: seq<Member>)
    ensures forall m :: m in r <==> m in members && !Declares(s, m.name)
    ensures |r| <= |members|
  {
    if members == [] then []
    else
      var last := members[|members| - 1];
      Undeclared(s, members[..|members| - 1]) + (if Declares(s, last.name) then [] else [last])
  }

  /** What `ValidatePatternProperties` leaves in `additionalProperties`: the members no pattern matches. */
  function Unmatched(env: Env, s: Schema, members: seq<Member>): (r: seq<Member>)
    ensures forall m :: m in r <==> m in members && FirstPattern(env, s, m.name).None?
    ensures |r| <= |members|
  {
    if members == [] then []
    else
      var last := members[|members| - 1];
      Unmatched(env, s, members[..|members| - 1]) + (if FirstPattern(env, s, last.name).None? then [last] else [])
  }

  /** Errors for the first n undeclared members no pattern matched, when additional properties are not allowed. */
  function NoAdditionalErrors(members: seq<Member>, path: Option<string>, n: nat): (r: seq<ValidationError>)
    requires n <= |members|
    ensures |r| == n
    ensures forall k :: 0 <= k < n ==>
      r[k] == NewError(NoAdditionalPropertiesAllowed, Some(members[k].name), Some(ChildPath(path, members[k].name)))
  {
    if n == 0 then []
    else NoAdditionalErrors(members, path, n - 1)
         + [NewError(NoAdditionalPropertiesAllowed, Some(members[n - 1].name), Some(ChildPath(path, members[n - 1].name)))]
  }

  // ----- the string, number and single-type checks -------------------------------------------

  /** The `Format` part of `ValidateString`: eight checks in the source's order, split in two halves. */
  function FormatErrors(env: Env, s: Schema, v: string, name: Option<string>, path: Option<string>): seq<ValidationError> {
    if s.format.Some? && s.format.value != "" then
      LeadingFormatErrors(env, s.format.value, v, name, path) + TrailingFormatErrors(env, s.format.value, v, name, path)
    else []
  }

  function LeadingFormatErrors(env: Env, f: string, v: string, name: Option<string>, path: Option<string>): seq<ValidationError> {
    Check(f == DateTimeFormat && !env.isDateTime(v), DateTimeExpected, name, path)
    + Check(f == UriFormat && !env.isAbsoluteUri(v), UriExpected, name, path)
    + Check(f == EmailFormat && !env.isEmail(v), EmailExpected, name, path)
    + Check(f == IpV4Format && !env.isIpV4(v), IpV4Expected, name, path)
  }

  function TrailingFormatErrors(env: Env, f: string, v: string, name: Option<string>, path: Option<string>): seq<ValidationError> {
    Check(f == IpV6Format && !env.isIpV6(v), IpV6Expected, name, path)
    + Check(f == GuidFormat && !env.isGuid(v), GuidExpected, name, path)
    + Check(f == HostnameFormat && !env.isHostname(v), HostnameExpected, name, path)
    + Check((f == ByteFormat || f == Base64Format) && !(|v| % 4 == 0 && env.isBase64Text(v)), Base64Expected, name, path)
  }

  /** `ValidateString` for one type value `ty`. */
  function StringErrors(env: Env, s: Schema, t: Json, ty: set<TypeFlag>, name: Option<string>, path: Option<string>): seq<ValidationError> {
    if t.JString? then
      var v := t.s;
      Check(s.pattern.Some? && s.pattern.value != "" && !env.isMatch(v, s.pattern.value), PatternMismatch, name, path)
      + Check(s.minLength.Some? && |v| < s.minLength.value, StringTooShort, name, path)
      + Check(s.maxLength.Some? && |v| > s.maxLength.value, StringTooLong, name, path)
      + FormatErrors(env, s, v, name, path)
    else Check(String in ty, StringExpected, name, path)
  }

  /** The bounds part of `ValidateNumber`, for a numeric value `v`. */
  function BoundErrors(s: Schema, v: real, name: Option<string>, path: Option<string>): seq<ValidationError> {
    Check(s.minimum.Some? && (if s.isExclusiveMinimum then v <= s.minimum.value else v < s.minimum.value),
          NumberTooSmall, name, path)
    + Check(s.maximum.Some? && (if s.isExclusiveMaximum then v >= s.maximum.value else v > s.maximum.value),
            NumberTooBig, name, path)
    + Check(s.multipleOf.Some? && !IsMultipleOf(v, s.multipleOf.value), NumberNotMultipleOf, name, path)
  }

  function NumberErrors(s: Schema, t: Json, ty: set<TypeFlag>, name: Option<string>, path: Option<string>): seq<ValidationError> {
    Check(Number in ty && !IsNumber(t), NumberExpected, name, path)
    + (if IsNumber(t) then BoundErrors(s, NumberValue(t), name, path) else [])
  }

  /** `ValidateInteger`, `ValidateBoolean`, `ValidateNull` and `ValidateObject`, in that order. */
  function KindErrors(t: Json, ty: set<TypeFlag>, name: Option<string>, path: Option<string>): seq<ValidationError> {
    Check(Integer in ty && !t.JInteger?, IntegerExpected, name, path)
    + Check(Boolean in ty && !t.JBool?, BooleanExpected, name, path)
    + Check(Null in ty && !t.JNull?, NullExpected, name, path)
    + Check(Object in ty && !t.JObject?, ObjectExpected, name, path)
  }

  function EnumErrors(env: Env, s: Schema, t: Json, name: Option<string>, path: Option<string>): seq<ValidationError> {
    Check(|s.enumeration| > 0 && (forall i :: 0 <= i < |s.enumeration| ==> env.render(s.enumeration[i]) != env.render(t)),
          NotInEnumeration, name, path)
  }

  // ----- the recursive rules ------------------------------------------------------------------
  // Every rule decreases (schema, rank, counter): a rule calls rules of lower rank on the
  // same schema, and `Validate` / `TryChild` only on a component of the schema.

  /** `Validate(token, propertyName, propertyPath)`: the seven rule groups in the source's order. */
  function Validate(env: Env, s: Schema, t: Json, name: Option<string>, path: Option<string>, loc: seq<Step>): seq<ValidationError>
    decreases s, 9, 0
  {
    CompositionErrors(env, s, AnyOfRule, t, name, path, loc)
    + CompositionErrors(env, s, AllOfRule, t, name, path, loc)
    + CompositionErrors(env, s, OneOfRule, t, name, path, loc)
    + NotErrors(env, s, t, name, path, loc)
    + TypeErrors(env, s, t, name, path, loc)
    + EnumErrors(env, s, t, name, path)
    + PropertiesErrors(env, s, t, name, path, loc)
  }

  /** `TryCreateChildSchemaError`: the child's errors (no property name, path `path`) wrapped
      in one child error that maps the child schema to them, or nothing when there are none. */
  function TryChild(env: Env, child: Schema, t: Json, kind: ErrorKind, property: Option<string>, path: string,
                    loc: seq<Step>): Option<ValidationError>
    decreases child, 10, 0
  {
    var errors := Validate(env, child, t, None, Some(path), loc);
    if errors == [] then None else Some(NewChildError(kind, property, Some(path), [Branch(child, errors)]))
  }

  /** The dictionary `ToDictionary(s => s, s => s.Validate(token))` over the first n sub-schemas. */
  function BranchResults(env: Env, s: Schema, c: Composition, t: Json, loc: seq<Step>, n: nat): (r: seq<Branch>)
    requires n <= |Subschemas(s, c)|
    ensures |r| == n
    decreases s, 7, n
  {
    if n == 0 then []
    else
      var sub := Subschemas(s, c)[n - 1];
      BranchResults(env, s, c, t, loc, n - 1) + [Branch(sub, Validate(env, sub, t, None, None, loc))]
  }

  function CountPassing(bs: seq<Branch>): (r: nat)
    ensures r <= |bs|
  {
    if bs == [] then 0 else CountPassing(bs[..|bs| - 1]) + (if bs[|bs| - 1].errors == [] then 1 else 0)
  }

  /** Whether the rule reports its error, given every branch's result. */
  predicate CompositionFails(c: Composition, bs: seq<Branch>) {
    match c
    case AnyOfRule => forall i :: 0 <= i < |bs| ==> bs[i].errors != []
    case AllOfRule => exists i :: 0 <= i < |bs| && bs[i].errors != []
    case OneOfRule => CountPassing(bs) != 1
  }

  /** `ValidateAnyOf`, `ValidateAllOf` and `ValidateOneOf`. */
  function CompositionErrors(env: Env, s: Schema, c: Composition, t: Json, name: Option<string>, path: Option<string>,
                             loc: seq<Step>): seq<ValidationError>
    decreases s, 8, 0
  {
    var subs := Subschemas(s, c);
    if |subs| == 0 then []
    else
      var bs := BranchResults(env, s, c, t, loc, |subs|);
      if CompositionFails(c, bs) then [NewChildError(CompositionKind(c), name, path, bs)] else []
  }

  /** `ValidateNot`. */
  function NotErrors(env: Env, s: Schema, t: Json, name: Option<string>, path: Option<string>, loc: seq<Step>): seq<ValidationError>
    decreases s, 8, 0
  {
    if s.notSchema.Some? && Validate(env, s.notSchema.value, t, None, None, loc) == []
    then [NewError(ExcludedSchemaValidates, name, path)]
    else []
  }

  /** `ValidateType`: per declared flag, the checks run with that flag alone; their errors are
      reported, all of them, only when every flag's checks failed. Without flags the checks run
      once with no flag. */
  function TypeErrors(env: Env, s: Schema, t: Json, name: Option<string>, path: Option<string>, loc: seq<Step>): seq<ValidationError>
    decreases s, 8, 0
  {
    var flags := FlagsIn(s.typeFlags, FlagOrder);
    if |flags| > 0 then
      var lists := PerFlag(env, s, t, flags, name, path, loc, |flags|);
      if forall i :: 0 <= i < |lists| ==> lists[i] != [] then Flatten(lists) else []
    else FlagChecks(env, s, t, s.typeFlags, name, path, loc)
  }

  /** The error lists of the first n flags, each checked with that flag alone. */
  function PerFlag(env: Env, s: Schema, t: Json, flags: seq<TypeFlag>, name: Option<string>, path: Option<string>,
                   loc: seq<Step>, n: nat): (r: seq<seq<ValidationError>>)
    requires n <= |flags|
    ensures |r| == n
    decreases s, 7, n
  {
    if n == 0 then []
    else PerFlag(env, s, t, flags, name, path, loc, n - 1) + [FlagChecks(env, s, t, {flags[n - 1]}, name, path, loc)]
  }

  /** The seven type-specific checks for the type value `ty`. */
  function FlagChecks(env: Env, s: Schema, t: Json, ty: set<TypeFlag>, name: Option<string>, path: Option<string>,
                      loc: seq<Step>): seq<ValidationError>
    decreases s, 6, 0
  {
    ArrayErrors(env, s, t, ty, name, path, loc) + ScalarErrors(env, s, t, ty, name, path)
  }

  /** The checks after `ValidateArray`: `ValidateString`, `ValidateNumber` and the single-type checks. */
  function ScalarErrors(env: Env, s: Schema, t: Json, ty: set<TypeFlag>, name: Option<string>, path: Option<string>): seq<ValidationError> {
    StringErrors(env, s, t, ty, name, path) + NumberErrors(s, t, ty, name, path) + KindErrors(t, ty, name, path)
  }

  /** `ValidateArray`. */
  function ArrayErrors(env: Env, s: Schema, t: Json, ty: set<TypeFlag>, name: Option<string>, path: Option<string>,
                       loc: seq<Step>): seq<ValidationError>
    decreases s, 5, 0
  {
    if t.JArray? then
      CountErrors(env, s, t.items, name, path) + ItemsErrors(env, s, t.items, path, loc, |t.items|)
    else Check(Array in ty, ArrayExpected, name, path)
  }

  /** The `MinItems`, `MaxItems` and `UniqueItems` checks of an array token. */
  function CountErrors(env: Env, s: Schema, items: seq<Json>, name: Option<string>, path: Option<string>): seq<ValidationError> {
    Check(s.minItems > 0 && |items| < s.minItems, TooFewItems, name, path)
    + Check(s.maxItems > 0 && |items| > s.maxItems, TooManyItems, name, path)
    + Check(s.uniqueItems && |items| != |RenderSet(env, items)|, ItemsNotUnique, name, path)
  }

  /** The loop of `ValidateArray` over the first n elements. */
  function ItemsErrors(env: Env, s: Schema, items: seq<Json>, path: Option<string>, loc: seq<Step>, n: nat): seq<ValidationError>
    requires n <= |items|
    decreases s, 4, n
  {
    if n == 0 then []
    else ItemsErrors(env, s, items, path, loc, n - 1) + ItemErrors(env, s, items[n - 1], n - 1, path, loc + [Index(n - 1)])
  }

  /** One iteration: the `Item` check, then `ValidateAdditionalItems`. */
  function ItemErrors(env: Env, s: Schema, item: Json, index: nat, path: Option<string>, loc: seq<Step>): seq<ValidationError>
    decreases s, 3, 0
  {
    ItemCheck(env, s, item, index, path, loc) + AdditionalItemErrors(env, s, item, index, path, loc)
  }

  /** The `Item` check of one array element. */
  function ItemCheck(env: Env, s: Schema, item: Json, index: nat, path: Option<string>, loc: seq<Step>): seq<ValidationError>
    decreases s, 2, 0
  {
    var propertyIndex := IndexText(index);
    if s.item.Some?
    then Added(TryChild(env, s.item.value, item, ArrayItemNotValid, Some(propertyIndex), ItemPath(path, propertyIndex), loc))
    else []
  }

  /** `ValidateAdditionalItems`. */
  function AdditionalItemErrors(env: Env, s: Schema, item: Json, index: nat, path: Option<string>, loc: seq<Step>): seq<ValidationError>
    decreases s, 2, 0
  {
    if |s.items| > 0 then
      var propertyIndex := IndexText(index);
      if |s.items| > index then
        Added(TryChild(env, s.items[index], item, ArrayItemNotValid, Some(propertyIndex), TuplePath(path, propertyIndex), loc))
      else if s.additionalItemsSchema.Some? then
        Added(TryChild(env, s.additionalItemsSchema.value, item, AdditionalItemNotValid, Some(propertyIndex),
                       TuplePath(path, propertyIndex), loc))
      else Check(!s.allowAdditionalItems, TooManyItemsInTuple, Some(propertyIndex), Some(TuplePath(path, propertyIndex)))
    else []
  }

  /** `ValidateProperties`. */
  function PropertiesErrors(env: Env, s: Schema, t: Json, name: Option<string>, path: Option<string>, loc: seq<Step>): seq<ValidationError>
    decreases s, 8, 0
  {
    DeclaredErrors(env, s, t, path, loc, |s.properties|)
    + (if t.JObject? then MemberErrors(env, s, t.members, name, path, loc) else [])
  }

  /** The loop over the first n declared properties. */
  function DeclaredErrors(env: Env, s: Schema, t: Json, path: Option<string>, loc: seq<Step>, n: nat): seq<ValidationError>
    requires n <= |s.properties|
    decreases s, 7, n
  {
    if n == 0 then [] else DeclaredErrors(env, s, t, path, loc, n - 1) + DeclaredError(env, s, t, path, loc, n - 1)
  }

  /** One declared property: validated when present, PropertyRequired when absent and required. */
  function DeclaredError(env: Env, s: Schema, t: Json, path: Option<string>, loc: seq<Step>, k: nat): seq<ValidationError>
    requires k < |s.properties|
    decreases s, 6, 0
  {
    var key := s.properties[k].key;
    var newPath := ChildPath(path, key);
    var property := if t.JObject? then Lookup(t.members, key) else None;
    if property.Some? then Validate(env, s.properties[k].schema, property.value, Some(key), Some(newPath), loc + [Key(key)])
    else Check(IsRequired(s, key), PropertyRequired, Some(key), Some(newPath))
  }

  /** The object part of `ValidateProperties`: property counts, then pattern and additional properties. */
  function MemberErrors(env: Env, s: Schema, members: seq<Member>, name: Option<string>, path: Option<string>,
                        loc: seq<Step>): seq<ValidationError>
    decreases s, 7, 0
  {
    var additional := Undeclared(s, members);
    PropertyCountErrors(s, members, name, path)
    + PatternErrors(env, s, additional, loc, |additional|)
    + AdditionalErrors(env, s, Unmatched(env, s, additional), path, loc)
  }

  /** The `MaxProperties` and `MinProperties` checks of an object token. */
  function PropertyCountErrors(s: Schema, members: seq<Member>, name: Option<string>, path: Option<string>): seq<ValidationError> {
    Check(s.maxProperties > 0 && |members| > s.maxProperties, TooManyProperties, name, path)
    + Check(s.minProperties > 0 && |members| < s.minProperties, TooFewProperties, name, path)
  }

  /** `ValidatePatternProperties` over the first n undeclared members. */
  function PatternErrors(env: Env, s: Schema, members: seq<Member>, loc: seq<Step>, n: nat): seq<ValidationError>
    requires n <= |members|
    decreases s, 6, n
  {
    if n == 0 then [] else PatternErrors(env, s, members, loc, n - 1) + PatternError(env, s, members[n - 1], loc)
  }

  function PatternError(env: Env, s: Schema, m: Member, loc: seq<Step>): seq<ValidationError>
    decreases s, 5, 0
  {
    var k := FirstPattern(env, s, m.name);
    if k.Some? then
      var at := loc + [Key(m.name)];
      Added(TryChild(env, s.patternProperties[k.value].schema, m.value, AdditionalPropertiesNotValid, Some(m.name),
                     env.tokenPath(at), at))
    else []
  }

  /** `ValidateAdditionalProperties` over the members left after the pattern properties. */
  function AdditionalErrors(env: Env, s: Schema, members: seq<Member>, path: Option<string>, loc: seq<Step>): seq<ValidationError>
    decreases s, 6, 0
  {
    if s.additionalPropertiesSchema.Some? then AdditionalSchemaErrors(env, s, members, loc, |members|)
    else if !s.allowAdditionalProperties && |members| > 0 then NoAdditionalErrors(members, path, |members|)
    else []
  }

  function AdditionalSchemaErrors(env: Env, s: Schema, members: seq<Member>, loc: seq<Step>, n: nat): seq<ValidationError>
    requires s.additionalPropertiesSchema.Some? && n <= |members|
    decreases s, 5, n
  {
    if n == 0 then [] else AdditionalSchemaErrors(env, s, members, loc, n - 1) + AdditionalSchemaError(env, s, members[n - 1], loc)
  }

  function AdditionalSchemaError(env: Env, s: Schema, m: Member, loc: seq<Step>): seq<ValidationError>
    requires s.additionalPropertiesSchema.Some?
    decreases s, 4, 0
  {
    var at := loc + [Key(m.name)];
    Added(TryChild(env, s.additionalPropertiesSchema.value, m.value, AdditionalPropertiesNotValid, Some(m.name),
                   env.tokenPath(at), at))
  }
}

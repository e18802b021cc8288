/**
 * The validator's error values: `ValidationError` and its subclass
 * `ChildSchemaValidationError`, with their constructors and `ToString`.
 * Both classes only have private setters, so an error is an immutable value.
 */
module Validation {
  import opened JsonModel
  import opened SchemaModel
  import opened StringUtil

  /** The members of `ValidationErrorKind` the validator reports. */
  datatype ErrorKind =
    | NotAnyOf | NotAllOf | NotOneOf | ExcludedSchemaValidates
    | NullExpected | NotInEnumeration
    | PatternMismatch | StringTooShort | StringTooLong
    | DateTimeExpected | UriExpected | EmailExpected | IpV4Expected | IpV6Expected
    | GuidExpected | HostnameExpected | Base64Expected | StringExpected
    | NumberExpected | NumberTooSmall | NumberTooBig | NumberNotMultipleOf
    | IntegerExpected | BooleanExpected | ObjectExpected
    | PropertyRequired | TooManyProperties | TooFewProperties
    | AdditionalPropertiesNotValid | NoAdditionalPropertiesAllowed
    | TooFewItems | TooManyItems | ItemsNotUnique
    | ArrayItemNotValid | AdditionalItemNotValid | TooManyItemsInTuple | ArrayExpected

  /**
   * `Error` is a plain `ValidationError`; `ChildError` is a
   * `ChildSchemaValidationError`, whose dictionary from sub-schema to that
   * sub-schema's errors is kept as a list of entries in insertion order.
   * `path` is the already formatted `Path` property ("#" or "#/...").
   */
  datatype ValidationError =
    | Error(kind: ErrorKind, property: Option<string>, path: string)
    | ChildError(kind: ErrorKind, property: Option<string>, path: string, errors: seq<Branch>)

  datatype Branch = Branch(schema: Schema, errors: seq<ValidationError>)

  /** Reads a formatted `Path` back to the property path it was built from. */
  function PropertyPathOf(path: string): Option<string> {
    if StartsWith(path, "#/") then Some(path[2..]) else None
  }

  /** The constructor of `ValidationError`: a null property path gives "#", a path p gives "#/" + p. */
  function NewError(kind: ErrorKind, propertyName: Option<string>, propertyPath: Option<string>): (e: ValidationError)
    ensures e.Error? && e.kind == kind && e.property == propertyName
    ensures StartsWith(e.path, "#") && (propertyPath.None? <==> e.path == "#")
    ensures PropertyPathOf(e.path) == propertyPath
  {
    Error(kind, propertyName, FormatPath(propertyPath))
  }

  /** The constructor of `ChildSchemaValidationError`: the base-class rules, and `Errors` is the given map. */
  function NewChildError(kind: ErrorKind, propertyName: Option<string>, propertyPath: Option<string>,
                         errors: seq<Branch>): (e: ValidationError)
    ensures e.ChildError? && e.kind == kind && e.property == propertyName && e.errors == errors
    ensures StartsWith(e.path, "#") && (propertyPath.None? <==> e.path == "#")
    ensures PropertyPathOf(e.path) == propertyPath
  {
    ChildError(kind, propertyName, FormatPath(propertyPath), errors)
  }

  function FormatPath(propertyPath: Option<string>): string {
    if propertyPath.Some? then "#/" + propertyPath.value else "#"
  }

  /** An enum member's identifier: letters and digits, so never a colon. */
  type Identifier = s: string | ':' !in s witness ""

  const NotAnyOfName: Identifier := "NotAnyOf"
  const NotAllOfName: Identifier := "NotAllOf"
  const NotOneOfName: Identifier := "NotOneOf"
  const ExcludedSchemaValidatesName: Identifier := "ExcludedSchemaValidates"
  const NullExpectedName: Identifier := "NullExpected"
  const NotInEnumerationName: Identifier := "NotInEnumeration"
  const PatternMismatchName: Identifier := "PatternMismatch"
  const StringTooShortName: Identifier := "StringTooShort"
  const StringTooLongName: Identifier := "StringTooLong"
  const DateTimeExpectedName: Identifier := "DateTimeExpected"
  const UriExpectedName: Identifier := "UriExpected"
  const EmailExpectedName: Identifier := "EmailExpected"
  const IpV4ExpectedName: Identifier := "IpV4Expected"
  const IpV6ExpectedName: Identifier := "IpV6Expected"
  const GuidExpectedName: Identifier := "GuidExpected"
  const HostnameExpectedName: Identifier := "HostnameExpected"
  const Base64ExpectedName: Identifier := "Base64Expected"
  const StringExpectedName: Identifier := "StringExpected"
  const NumberExpectedName: Identifier := "NumberExpected"
  const NumberTooSmallName: Identifier := "NumberTooSmall"
  const NumberTooBigName: Identifier := "NumberTooBig"
  const NumberNotMultipleOfName: Identifier := "NumberNotMultipleOf"
  const IntegerExpectedName: Identifier := "IntegerExpected"
  const BooleanExpectedName: Identifier := "BooleanExpected"
  const ObjectExpectedName: Identifier := "ObjectExpected"
  const PropertyRequiredName: Identifier := "PropertyRequired"
  const TooManyPropertiesName: Identifier := "TooManyProperties"
  const TooFewPropertiesName: Identifier := "TooFewProperties"
  const AdditionalPropertiesNotValidName: Identifier := "AdditionalPropertiesNotValid"
  const NoAdditionalPropertiesAllowedName: Identifier := "NoAdditionalPropertiesAllowed"
  const TooFewItemsName: Identifier := "TooFewItems"
  const TooManyItemsName: Identifier := "TooManyItems"
  const ItemsNotUniqueName: Identifier := "ItemsNotUnique"
  const ArrayItemNotValidName: Identifier := "ArrayItemNotValid"
  const AdditionalItemNotValidName: Identifier := "AdditionalItemNotValid"
  const TooManyItemsInTupleName: Identifier := "TooManyItemsInTuple"
  const ArrayExpectedName: Identifier := "ArrayExpected"

  /** `Kind.ToString()`: the enum member's identifier. */
  function KindName(k: ErrorKind): Identifier {
    match k
    case NotAnyOf => NotAnyOfName
    case NotAllOf => NotAllOfName
    case NotOneOf => NotOneOfName
    case ExcludedSchemaValidates => ExcludedSchemaValidatesName
    case NullExpected => NullExpectedName
    case NotInEnumeration => NotInEnumerationName
    case PatternMismatch => PatternMismatchName
    case StringTooShort => StringTooShortName
    case StringTooLong => StringTooLongName
    case DateTimeExpected => DateTimeExpectedName
    case UriExpected => UriExpectedName
    case EmailExpected => EmailExpectedName
    case IpV4Expected => IpV4ExpectedName
    case IpV6Expected => IpV6ExpectedName
    case GuidExpected => GuidExpectedName
    case HostnameExpected => HostnameExpectedName
    case Base64Expected => Base64ExpectedName
    case StringExpected => StringExpectedName
    case NumberExpected => NumberExpectedName
    case NumberTooSmall => NumberTooSmallName
    case NumberTooBig => NumberTooBigName
    case NumberNotMultipleOf => NumberNotMultipleOfName
    case IntegerExpected => IntegerExpectedName
    case BooleanExpected => BooleanExpectedName
    case ObjectExpected => ObjectExpectedName
    case PropertyRequired => PropertyRequiredName
    case TooManyProperties => TooManyPropertiesName
    case TooFewProperties => TooFewPropertiesName
    case AdditionalPropertiesNotValid => AdditionalPropertiesNotValidName
    case NoAdditionalPropertiesAllowed => NoAdditionalPropertiesAllowedName
    case TooFewItems => TooFewItemsName
    case TooManyItems => TooManyItemsName
    case ItemsNotUnique => ItemsNotUniqueName
    case ArrayItemNotValid => ArrayItemNotValidName
    case AdditionalItemNotValid => AdditionalItemNotValidName
    case TooManyItemsInTuple => TooManyItemsInTupleName
    case ArrayExpected => ArrayExpectedName
  }

  /** `string.Format("{0}: {1}", Kind, Path)`. */
  function Header(kind: ErrorKind, path: string): string {
    KindName(kind) + ": " + path
  }

  /** `s.Replace("\n", "\n  ")`. */
  function Indent(s: string): string {
    ReplaceChar(s, '\n', "\n  ")
  }

  /** `ToString()`: the header alone for a plain error; for a child error the header line
      and then one brace-delimited block per sub-schema entry, each nested error on its own
      line indented by two spaces. */
  function Text(e: ValidationError): string
    decreases e, 2, 0
  {
    match e
    case Error(k, _, p) => Header(k, p)
    case ChildError(k, _, p, bs) => Header(k, p) + "\n" + Blocks(e, |bs|)
  }

  function Blocks(e: ValidationError, n: nat): string
    requires e.ChildError? && n <= |e.errors|
    decreases e, 1, n
  {
    if n == 0 then ""
    else Blocks(e, n - 1) + "{\n" + Lines(e, n - 1, |e.errors[n - 1].errors|) + "}\n"
  }

  function Lines(e: ValidationError, i: nat, m: nat): string
    requires e.ChildError? && i < |e.errors| && m <= |e.errors[i].errors|
    decreases e, 0, m
  {
    if m == 0 then "" else Lines(e, i, m - 1) + Line(e.errors[i].errors[m - 1])
  }

  function Line(x: ValidationError): string
    decreases x, 3, 0
  {
    "  " + Indent(Text(x)) + "\n"
  }

  /** `ToString()` as the source computes it: `output +=` inside nested loops over the
      dictionary entries and each entry's errors (the inner loop is `EntryText`). */
  method ToText(e: ValidationError) returns (output: string)
    ensures output == Text(e)
    decreases e, 1
  {
    output := Header(e.kind, e.path);
    if e.ChildError? {
      output := output + "\n";
      ghost var head := output;
      for i := 0 to |e.errors|
        invariant output == head + Blocks(e, i)
      {
        var lines := EntryText(e, i);
        output := output + "{\n" + lines + "}\n";
      }
    }
  }

  /** The inner loop of `ToString()`: one indented line per error of the i-th entry. */
  method EntryText(e: ValidationError, i: nat) returns (lines: string)
    requires e.ChildError? && i < |e.errors|
    ensures lines == Lines(e, i, |e.errors[i].errors|)
    decreases e, 0
  {
    lines := "";
    for j := 0 to |e.errors[i].errors|
      invariant lines == Lines(e, i, j)
    {
      var inner := ToText(e.errors[i].errors[j]);
      var line := "  " + ReplaceChar(inner, '\n', "\n  ") + "\n";
      assert line == Line(e.errors[i].errors[j]);
      lines := lines + line;
    }
  }

  /** Index of the first ':' in `s`, or |s| when there is none. */
  function ColonIndex(s: string): (k: nat)
    ensures k <= |s| && ':' !in s[..k]
    ensures k < |s| ==> s[k] == ':'
  {
    if s == [] then 0 else if s[0] == ':' then 0 else 1 + ColonIndex(s[1..])
  }

  /** Splits the text of a plain error at its first ": " into the kind's name and the path. */
  function ParseHeader(s: string): Option<(string, string)> {
    var k := ColonIndex(s);
    if k + 2 <= |s| && s[k..k + 2] == ": " then Some((s[..k], s[k + 2..])) else None
  }

  lemma {:induction false} ColonIndexAfter(a: string, b: string)
    requires ':' !in a
    ensures ColonIndex(a + b) == |a| + ColonIndex(b)
  {
    if a != [] {
      assert (a + b)[0] == a[0] && a[0] in a;
      assert (a + b)[1..] == a[1..] + b;
      assert forall c :: c in a[1..] ==> c in a;
      ColonIndexAfter(a[1..], b);
    } else {
      assert a + b == b;
    }
  }

  /** The text of a plain error determines its kind's name and its path. */
  lemma HeaderRoundTrip(k: ErrorKind, path: string)
    ensures ParseHeader(Header(k, path)) == Some((KindName(k), path))
  {
    var s := Header(k, path);
    ColonIndexAfter(KindName(k), ": " + path);
    assert s == KindName(k) + (": " + path);
    assert s[..|KindName(k)|] == KindName(k);
    assert s[|KindName(k)| + 2..] == path;
  }

  /** Undoes `Indent`: every "\n  " becomes "\n" again. */
  function Unindent(s: string): string
    decreases |s|
  {
    if s == [] then []
    else if |s| >= 3 && s[..3] == "\n  " then "\n" + Unindent(s[3..])
    else [s[0]] + Unindent(s[1..])
  }

  /** Re-indenting a nested error's text loses nothing: the nested text can be read back. */
  lemma {:induction false} UnindentIndent(s: string)
    ensures Unindent(Indent(s)) == s
    decreases |s|
  {
    if s != [] {
      var rest := Indent(s[1..]);
      UnindentIndent(s[1..]);
      if s[0] == '\n' {
        assert Indent(s) == "\n  " + rest;
        assert (("\n  " + rest)[3..]) == rest;
      } else {
        assert Indent(s) == [s[0]] + rest;
        assert ([s[0]] + rest)[1..] == rest;
      }
    }
  }

  /** The text of every error starts with its own header. */
  lemma TextStartsWithHeader(e: ValidationError)
    ensures StartsWith(Text(e), Header(e.kind, e.path))
    ensures e.ChildError? ==> StartsWith(Text(e), Header(e.kind, e.path) + "\n")
  {
  }
}

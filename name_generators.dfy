/**
 * The name conversions the code generators rely on but whose code is not part
 * of this model (`ConversionUtilities.ConvertToUpperCamelCase` and the Unicode
 * category test of the enum-name pattern), passed in as plain functions.
 */
module ConversionUtilities {
  datatype Conversions = Conversions(
    /** `ConvertToUpperCamelCase(s, firstCharacterMustBeAlpha: true)`. */
    upperCamel: string -> string,
    /** Membership in the letter, mark, digit, connector and format categories of the enum-name pattern. */
    isNameChar: char -> bool)

  /** `Regex.Replace` with a one-character class: each character outside the class becomes '_'. */
  function Sanitize(s: string, isNameChar: char -> bool): (r: string)
    ensures |r| == |s|
    ensures forall i :: 0 <= i < |s| ==> r[i] == (if isNameChar(s[i]) then s[i] else '_')
    ensures forall c :: c in r ==> isNameChar(c) || c == '_'
  {
    if s == [] then []
    else [if isNameChar(s[0]) then s[0] else '_'] + Sanitize(s[1..], isNameChar)
  }

  /** Since '_' is itself a connector character, sanitising twice changes nothing more. */
  lemma SanitizeIdempotent(s: string, isNameChar: char -> bool)
    requires isNameChar('_')
    ensures Sanitize(Sanitize(s, isNameChar), isNameChar) == Sanitize(s, isNameChar)
  {
    var r := Sanitize(s, isNameChar);
    var rr := Sanitize(r, isNameChar);
    assert forall i :: 0 <= i < |r| ==> rr[i] == r[i];
  }
}

/** `DefaultEnumNameGenerator.Generate`: an enum member name from its JSON name. */
module EnumNameGenerator {
  import opened StringUtil
  import opened JsonModel
  import opened ConversionUtilities

  /** The comparison operators with a spelled-out name. */
  function OperatorName(name: string): (r: Option<string>)
    ensures r.Some? <==> name in {"=", "!=", ">", "<", ">=", "<=", "~="}
  {
    match name
    case "=" => Some("Eq")
    case "!=" => Some("Ne")
    case ">" => Some("Gt")
    case "<" => Some("Lt")
    case ">=" => Some("Ge")
    case "<=" => Some("Le")
    case "~=" => Some("Approx")
    case _ => None
  }

  /** The rebinding chain of `name` before the camel-case conversion. */
  function Rebind(name: string): string
  {
    var n0 := match OperatorName(name) case Some(op) => op case None => name;
    var n1 := if StartsWith(n0, "-") then "Minus" + n0[1..] else n0;
    var n2 := if StartsWith(n1, "+") then "Plus" + n1[1..] else n1;
    if StartsWith(n2, "_-") then "__" + n2[2..] else n2
  }

  /** The two `Replace` calls on the rebound name: ':' becomes '-' and '"' is dropped. */
  function DashColonsDropQuotes(n: string): (r: string)
    ensures ':' !in r && '"' !in r
  {
    RemoveChar(ReplaceChar(n, ':', "-"), '"')
  }

  /** The text handed to the camel-case conversion. */
  function CamelInput(name: string): (r: string)
    ensures ':' !in r && '"' !in r
  {
    DashColonsDropQuotes(Rebind(name))
  }

  /** Without a '"', the text is rewritten in place, each ':' turned into '-'. */
  lemma DashColonsPointwise(n: string)
    requires '"' !in n
    ensures |DashColonsDropQuotes(n)| == |n|
    ensures forall i :: 0 <= i < |n| ==> DashColonsDropQuotes(n)[i] == (if n[i] == ':' then '-' else n[i])
  {
    ReplaceCharPointwise(n, ':', '-');
    RemoveCharAbsent(ReplaceChar(n, ':', "-"), '"');
  }

  /** Every ':' is counted as a '-', every '"' is dropped, and the rest is kept. */
  lemma DashColonsCounts(n: string)
    ensures multiset(DashColonsDropQuotes(n)) == multiset(n)[':' := 0]['"' := 0]['-' := multiset(n)['-'] + multiset(n)[':']]
  {
    ReplaceCharCounts(n, ':', '-');
    RemoveCharCounts(ReplaceChar(n, ':', "-"), '"');
  }

  /**
   * `Generate(index, name, value, schema)`; only `name` is read. The result
   * is the camel-cased rewritten name, with every character outside the name
   * categories replaced by '_'.
   */
  function Generate(name: Option<string>, conv: Conversions): (r: string)
    ensures name.None? || name.value == [] ==> r == "Empty"
    ensures name.Some? && name.value != [] ==>
      var camel := conv.upperCamel(CamelInput(name.value));
      |r| == |camel| &&
      (forall i :: 0 <= i < |r| ==> r[i] == (if conv.isNameChar(camel[i]) then camel[i] else '_'))
  {
    if name.None? || name.value == [] then "Empty"
    else Sanitize(conv.upperCamel(CamelInput(name.value)), conv.isNameChar)
  }

  /** The operators are spelled out before any other rewriting. */
  lemma OperatorsSpelled(name: string)
    requires OperatorName(name).Some?
    ensures Rebind(name) == OperatorName(name).value
  {
    var op := OperatorName(name).value;
    assert op in {"Eq", "Ne", "Gt", "Lt", "Ge", "Le", "Approx"};
    assert op[0] != '-' && op[0] != '+' && op[0] != '_';
  }

  /** A leading '-' is spelled "Minus", a leading '+' "Plus"; the rest of the name is kept. */
  lemma SignsSpelled(name: string)
    requires |name| > 0 && (name[0] == '-' || name[0] == '+')
    ensures name[0] == '-' ==> Rebind(name) == "Minus" + name[1..]
    ensures name[0] == '+' ==> Rebind(name) == "Plus" + name[1..]
  {
    assert OperatorName(name).None?;
    assert StartsWith(name, "-") <==> name[0] == '-';
    assert StartsWith(name, "+") <==> name[0] == '+';
    var n1 := if name[0] == '-' then "Minus" + name[1..] else "Plus" + name[1..];
    assert n1[0] == 'M' || n1[0] == 'P';
    assert !StartsWith(n1, "+") && !StartsWith(n1, "_-");
  }

  /** A leading "_-" becomes "__". */
  lemma UnderscoreDashSpelled(name: string)
    requires |name| >= 2 && name[0] == '_' && name[1] == '-'
    ensures Rebind(name) == "__" + name[2..]
  {
    assert OperatorName(name).None?;
    assert StartsWith(name, "_-") by {
      assert name[..2] == "_-";
    }
  }

  /** Any other name goes to the conversion as it is. */
  lemma OtherNamesKept(name: string)
    requires OperatorName(name).None?
    requires |name| == 0 || (name[0] != '-' && name[0] != '+')
    requires |name| < 2 || name[..2] != "_-"
    ensures Rebind(name) == name
  {
  }
}

/** `CSharpPropertyNameGenerator.Generate`: a C# property name from a JSON property name. */
module CSharpPropertyNames {
  import opened StringUtil
  import opened ConversionUtilities

  /** The text handed to the camel-case conversion: '@' dropped, '.' turned into '-'. */
  function CamelInput(name: string): (r: string)
    ensures '@' !in r && '.' !in r
    ensures forall c :: c in r ==> c in name || c == '-'
  {
    ReplaceChar(RemoveChar(name, '@'), '.', "-")
  }

  /** Without an '@', the name reaches the conversion in place, each '.' turned into '-'. */
  lemma CamelInputPointwise(name: string)
    requires '@' !in name
    ensures |CamelInput(name)| == |name|
    ensures forall i :: 0 <= i < |name| ==> CamelInput(name)[i] == (if name[i] == '.' then '-' else name[i])
  {
    RemoveCharAbsent(name, '@');
    ReplaceCharPointwise(RemoveChar(name, '@'), '.', '-');
  }

  /** Every '.' is counted as a '-', every '@' is dropped, and the rest is kept. */
  lemma CamelInputCounts(name: string)
    ensures multiset(CamelInput(name)) ==
      multiset(name)['@' := 0]['.' := 0]['-' := multiset(name)['-'] + multiset(name)['.']]
  {
    RemoveCharCounts(name, '@');
    ReplaceCharCounts(RemoveChar(name, '@'), '.', '-');
  }

  function Generate(name: string, conv: Conversions): (r: string)
    ensures '-' !in r
  {
    ReplaceChar(conv.upperCamel(CamelInput(name)), '-', "_")
  }

  /**
   * The result is the camel-cased text, position by position, with each '-'
   * turned into '_' and every other character kept.
   */
  lemma GeneratePointwise(name: string, conv: Conversions)
    ensures var camel := conv.upperCamel(CamelInput(name));
      |Generate(name, conv)| == |camel| &&
      forall i :: 0 <= i < |camel| ==>
        Generate(name, conv)[i] == (if camel[i] == '-' then '_' else camel[i])
  {
    ReplaceCharPointwise(conv.upperCamel(CamelInput(name)), '-', '_');
  }
}

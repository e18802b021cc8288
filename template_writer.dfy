/**
 * The text-emission base of the generated C# class template
 * (`ClassTemplateBase`): an output buffer, a stack of indent strings kept as
 * the concatenated current indent plus the list of pushed lengths, and a flag
 * saying whether the last write ended with a newline.
 */
module TemplateWriter {
  import opened StringUtil
  import opened JsonModel

  /** Concatenation of the pushed indent strings, oldest first. */
  function Concat(parts: seq<string>): (r: string)
  {
    if parts == [] then [] else Concat(parts[..|parts| - 1]) + parts[|parts| - 1]
  }

  function Sum(xs: seq<int>): int
  {
    if xs == [] then 0 else Sum(xs[..|xs| - 1]) + xs[|xs| - 1]
  }

  /** The recorded lengths are the lengths of the pushed strings. */
  predicate Aligned(parts: seq<string>, lengths: seq<int>)
  {
    |parts| == |lengths| && forall i :: 0 <= i < |parts| ==> lengths[i] == |parts[i]|
  }

  /** The length of the current indent is the sum of the recorded lengths. */
  lemma {:induction false} IndentLengthIsSum(parts: seq<string>, lengths: seq<int>)
    requires Aligned(parts, lengths)
    ensures |Concat(parts)| == Sum(lengths)
    decreases |parts|
  {
    if parts != [] {
      IndentLengthIsSum(parts[..|parts| - 1], lengths[..|lengths| - 1]);
    }
  }

  /** A newline string that no proper suffix of overlaps with a prefix of. */
  predicate Unbordered(nl: string)
  {
    forall k :: 0 < k < |nl| ==> nl[k..] != nl[..|nl| - k]
  }

  /** `Environment.NewLine` is "\n" or "\r\n". */
  predicate IsNewLine(nl: string)
  {
    nl == "\n" || nl == "\r\n"
  }

  lemma NewLineUnbordered(nl: string)
    requires IsNewLine(nl)
    ensures |nl| > 0 && Unbordered(nl)
  {
    if nl == "\r\n" {
      assert nl[1..][0] == '\n' && nl[..1][0] == '\r';
    }
  }

  /** Replacing a pattern by itself changes nothing. */
  lemma {:induction false} ReplaceIdentity(s: string, pat: string)
    requires |pat| > 0
    ensures ReplaceAll(s, pat, pat) == s
    decreases |s|
  {
    if |s| >= |pat| {
      if s[..|pat|] == pat {
        ReplaceIdentity(s[|pat|..], pat);
        assert s == pat + s[|pat|..];
      } else {
        ReplaceIdentity(s[1..], pat);
        assert s == [s[0]] + s[1..];
      }
    }
  }

  /** No occurrence of an unbordered pattern straddles the end of a shorter text. */
  lemma NoStraddle(p: string, nl: string)
    requires 0 < |p| < |nl| && Unbordered(nl)
    ensures (p + nl)[..|nl|] != nl
  {
    var k := |p|;
    var q := (p + nl)[..|nl|];
    assert q[k..] == nl[..|nl| - k];
    assert nl[k..] != nl[..|nl| - k];
  }

  /** A trailing unbordered pattern is always the last replaced occurrence. */
  lemma {:induction false} ReplaceTrailing(p: string, nl: string, rep: string)
    requires |nl| > 0 && Unbordered(nl)
    ensures ReplaceAll(p + nl, nl, rep) == ReplaceAll(p, nl, rep) + rep
    decreases |p|
  {
    var s := p + nl;
    if |p| == 0 {
      assert s == nl;
      assert s[|nl|..] == [];
    } else if |p| >= |nl| && p[..|nl|] == nl {
      ReplaceTrailing(p[|nl|..], nl, rep);
      ReplaceMatch(p, nl, rep);
    } else {
      ReplaceTrailing(p[1..], nl, rep);
      ReplaceSkip(p, nl, rep);
    }
  }

  /** `ReplaceTrailing`'s step where `p` itself starts with the pattern. */
  lemma ReplaceMatch(p: string, nl: string, rep: string)
    requires 0 < |nl| <= |p| && p[..|nl|] == nl
    requires ReplaceAll(p[|nl|..] + nl, nl, rep) == ReplaceAll(p[|nl|..], nl, rep) + rep
    ensures ReplaceAll(p + nl, nl, rep) == ReplaceAll(p, nl, rep) + rep
  {
    var s := p + nl;
    assert s[..|nl|] == nl;
    assert s[|nl|..] == p[|nl|..] + nl;
  }

  /** `ReplaceTrailing`'s step where no occurrence starts at the first character. */
  lemma ReplaceSkip(p: string, nl: string, rep: string)
    requires 0 < |p| && 0 < |nl| && Unbordered(nl)
    requires |p| < |nl| || p[..|nl|] != nl
    requires ReplaceAll(p[1..] + nl, nl, rep) == ReplaceAll(p[1..], nl, rep) + rep
    ensures ReplaceAll(p + nl, nl, rep) == ReplaceAll(p, nl, rep) + rep
  {
    var s := p + nl;
    if |p| < |nl| {
      NoStraddle(p, nl);
    } else {
      assert s[..|nl|] == p[..|nl|];
    }
    assert s[1..] == p[1..] + nl;
    assert ReplaceAll(s, nl, rep) == [p[0]] + ReplaceAll(p[1..] + nl, nl, rep);
    SkipHead(p, nl, rep);
  }

  /** Without an occurrence at the front, the first character is copied. */
  lemma SkipHead(p: string, nl: string, rep: string)
    requires 0 < |p| && 0 < |nl|
    requires |p| < |nl| || p[..|nl|] != nl
    ensures ReplaceAll(p, nl, rep) == [p[0]] + ReplaceAll(p[1..], nl, rep)
  {
    if |p| < |nl| {
      assert ReplaceAll(p[1..], nl, rep) == p[1..];
      assert p == [p[0]] + p[1..];
    }
  }

  /**
   * The text `Write` appends after the leading indent: with an empty indent
   * the text itself; otherwise every newline is followed by the indent, and
   * the indent after a trailing newline is cut off again.
   */
  function WriteBody(text: string, nl: string, indent: string): string
    requires IsNewLine(nl)
  {
    if |indent| == 0 then text
    else
      var t := ReplaceAll(text, nl, nl + indent);
      if EndsWith(text, nl) then
        TrailingIndent(text, nl, indent);
        t[..|t| - |indent|]
      else
        t
  }

  /** After a trailing newline the replaced text ends with a whole indent. */
  lemma TrailingIndent(text: string, nl: string, indent: string)
    requires IsNewLine(nl) && EndsWith(text, nl)
    ensures |ReplaceAll(text, nl, nl + indent)| >= |indent|
  {
    NewLineUnbordered(nl);
    assert text == text[..|text| - |nl|] + nl;
    ReplaceTrailing(text[..|text| - |nl|], nl, nl + indent);
  }

  /**
   * What `Write` emits, whatever the indent: every interior newline is
   * followed by the current indent, and a trailing newline is not.
   */
  lemma WriteBodyIndents(text: string, nl: string, indent: string)
    requires IsNewLine(nl)
    ensures EndsWith(text, nl) ==>
      WriteBody(text, nl, indent) == ReplaceAll(text[..|text| - |nl|], nl, nl + indent) + nl
    ensures !EndsWith(text, nl) ==>
      WriteBody(text, nl, indent) == ReplaceAll(text, nl, nl + indent)
  {
    NewLineUnbordered(nl);
    if |indent| == 0 {
      assert nl + indent == nl;
      ReplaceIdentity(text, nl);
      if EndsWith(text, nl) {
        ReplaceIdentity(text[..|text| - |nl|], nl);
        assert text == text[..|text| - |nl|] + nl;
      }
    } else if EndsWith(text, nl) {
      var p := text[..|text| - |nl|];
      assert text == p + nl;
      ReplaceTrailing(p, nl, nl + indent);
    }
  }

  class TemplateBase {
    /** `GenerationEnvironment`. */
    var output: string
    /** `indentLengths`. */
    var indentLengths: seq<int>
    /** `currentIndentField`. */
    var currentIndent: string
    var endsWithNewline: bool
    /** `Environment.NewLine`. */
    const newLine: string
    /** The indent strings pushed and not yet popped, oldest first. */
    ghost var pushed: seq<string>

    ghost predicate Valid()
      reads this
    {
      IsNewLine(newLine) &&
      Aligned(pushed, indentLengths) &&
      currentIndent == Concat(pushed)
    }

    constructor (nl: string)
      requires IsNewLine(nl)
      ensures Valid()
      ensures newLine == nl && output == [] && pushed == [] && indentLengths == []
      ensures currentIndent == [] && !endsWithNewline
    {
      newLine := nl;
      output := [];
      indentLengths := [];
      currentIndent := [];
      endsWithNewline := false;
      pushed := [];
    }

    /** `Write(textToAppend)`; `None` stands for a null string. */
    method Write(text: Option<string>)
      requires Valid()
      modifies this
      ensures Valid()
      ensures pushed == old(pushed) && indentLengths == old(indentLengths)
      ensures currentIndent == old(currentIndent)
      ensures text.None? || text.value == [] ==>
        output == old(output) && endsWithNewline == old(endsWithNewline)
      ensures text.Some? && text.value != [] ==>
        endsWithNewline == EndsWith(text.value, newLine) &&
        output == old(output) +
          (if old(output) == [] || old(endsWithNewline) then currentIndent else []) +
          WriteBody(text.value, newLine, currentIndent)
    {
      if text.None? || text.value == [] {
        return;
      }
      var s := text.value;
      if |output| == 0 || endsWithNewline {
        output := output + currentIndent;
        endsWithNewline := false;
      }
      if EndsWith(s, newLine) {
        endsWithNewline := true;
      }
      if |currentIndent| == 0 {
        output := output + s;
        return;
      }
      s := ReplaceAll(s, newLine, newLine + currentIndent);
      if endsWithNewline {
        TrailingIndent(text.value, newLine, currentIndent);
        output := output + s[..|s| - |currentIndent|];
      } else {
        output := output + s;
      }
    }

    /** `WriteLine(textToAppend)`: the text, then a bare newline. */
    method WriteLine(text: Option<string>)
      requires Valid()
      modifies this
      ensures Valid()
      ensures pushed == old(pushed) && indentLengths == old(indentLengths)
      ensures currentIndent == old(currentIndent)
      ensures endsWithNewline
      ensures text.None? || text.value == [] ==> output == old(output) + newLine
      ensures text.Some? && text.value != [] ==>
        output == old(output) +
          (if old(output) == [] || old(endsWithNewline) then currentIndent else []) +
          WriteBody(text.value, newLine, currentIndent) + newLine
    {
      Write(text);
      output := output + newLine;
      endsWithNewline := true;
    }

    /** `PushIndent(indent)`; a null indent throws and changes nothing. */
    method PushIndent(indent: Option<string>) returns (thrown: bool)
      requires Valid()
      modifies this
      ensures Valid()
      ensures thrown <==> indent.None?
      ensures output == old(output) && endsWithNewline == old(endsWithNewline)
      ensures thrown ==>
        pushed == old(pushed) && indentLengths == old(indentLengths) &&
        currentIndent == old(currentIndent)
      ensures !thrown ==>
        pushed == old(pushed) + [indent.value] &&
        indentLengths == old(indentLengths) + [|indent.value|] &&
        currentIndent == old(currentIndent) + indent.value
    {
      if indent.None? {
        return true;
      }
      currentIndent := currentIndent + indent.value;
      indentLengths := indentLengths + [|indent.value|];
      pushed := pushed + [indent.value];
      return false;
    }

    /** `PopIndent()`: removes and returns the most recently pushed indent. */
    method PopIndent() returns (r: string)
      requires Valid()
      modifies this
      ensures Valid()
      ensures output == old(output) && endsWithNewline == old(endsWithNewline)
      ensures old(pushed) == [] ==>
        r == [] && pushed == [] && indentLengths == old(indentLengths) &&
        currentIndent == old(currentIndent)
      ensures old(pushed) != [] ==>
        r == old(pushed)[|old(pushed)| - 1] &&
        pushed == old(pushed)[..|old(pushed)| - 1] &&
        indentLengths == old(indentLengths)[..|old(indentLengths)| - 1] &&
        old(currentIndent) == currentIndent + r
    {
      r := [];
      if |indentLengths| > 0 {
        var len := indentLengths[|indentLengths| - 1];
        indentLengths := indentLengths[..|indentLengths| - 1];
        ghost var last := pushed[|pushed| - 1];
        ghost var rest := pushed[..|pushed| - 1];
        assert pushed == rest + [last];
        assert currentIndent == Concat(rest) + last;
        pushed := rest;
        if len > 0 {
          r := currentIndent[|currentIndent| - len..];
          currentIndent := currentIndent[..|currentIndent| - len];
        } else {
          assert last == [];
        }
      }
    }

    /** `ClearIndent()`. */
    method ClearIndent()
      requires Valid()
      modifies this
      ensures Valid()
      ensures output == old(output) && endsWithNewline == old(endsWithNewline)
      ensures pushed == [] && indentLengths == [] && currentIndent == []
    {
      indentLengths := [];
      currentIndent := [];
      pushed := [];
    }
  }
}

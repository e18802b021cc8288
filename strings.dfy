/**
 * Small string helpers shared by the model: the .NET string operations the
 * source relies on (Replace, StartsWith, EndsWith, integer formatting),
 * written out over `seq<char>`.
 */
module StringUtil {

  predicate StartsWith(s: string, prefix: string) {
    |prefix| <= |s| && s[..|prefix|] == prefix
  }

  predicate EndsWith(s: string, suffix: string) {
    |suffix| <= |s| && s[|s| - |suffix|..] == suffix
  }

  /** `s.Replace(c.ToString(), rep)`: every occurrence of the character `c` becomes `rep`. */
  function ReplaceChar(s: string, c: char, rep: string): (r: string)
    ensures c !in rep ==> c !in r
    ensures forall x :: x in r ==> x in s || x in rep
    ensures c !in s ==> r == s
  {
    if s == [] then []
    else (if s[0] == c then rep else [s[0]]) + ReplaceChar(s[1..], c, rep)
  }

  /**
   * Replacing a character by one character works in place: the length is
   * kept, each `c` becomes `d`, and every other character stays where it was.
   */
  lemma {:induction false} ReplaceCharPointwise(s: string, c: char, d: char)
    ensures |ReplaceChar(s, c, [d])| == |s|
    ensures forall i :: 0 <= i < |s| ==>
      ReplaceChar(s, c, [d])[i] == (if s[i] == c then d else s[i])
  {
    if s != [] {
      ReplaceCharPointwise(s[1..], c, d);
      var x := if s[0] == c then d else s[0];
      var tail := ReplaceChar(s[1..], c, [d]);
      assert ReplaceChar(s, c, [d]) == [x] + tail;
      forall i | 0 <= i < |s|
        ensures ReplaceChar(s, c, [d])[i] == (if s[i] == c then d else s[i])
      {
        if i > 0 {
          assert ReplaceChar(s, c, [d])[i] == tail[i - 1];
          assert s[i] == s[1..][i - 1];
        }
      }
    }
  }

  /** The same replacement counts every `c` as a `d` and leaves the other counts alone. */
  lemma {:induction false} ReplaceCharCounts(s: string, c: char, d: char)
    requires c != d
    ensures multiset(ReplaceChar(s, c, [d])) == multiset(s)[c := 0][d := multiset(s)[d] + multiset(s)[c]]
  {
    if s != [] {
      ReplaceCharCounts(s[1..], c, d);
      assert s == [s[0]] + s[1..];
      var x := if s[0] == c then d else s[0];
      assert ReplaceChar(s, c, [d]) == [x] + ReplaceChar(s[1..], c, [d]);
    }
  }

  /** `s.Replace(c.ToString(), "")`: every `c` is removed and every other character kept. */
  function RemoveChar(s: string, c: char): (r: string)
    ensures c !in r
    ensures |r| <= |s|
    ensures forall x :: x in r ==> x in s
  {
    if s == [] then []
    else (if s[0] == c then [] else [s[0]]) + RemoveChar(s[1..], c)
  }

  /** A string without `c` is returned unchanged. */
  lemma {:induction false} RemoveCharAbsent(s: string, c: char)
    requires c !in s
    ensures RemoveChar(s, c) == s
  {
    if s != [] {
      assert c !in s[1..];
      RemoveCharAbsent(s[1..], c);
      assert s == [s[0]] + s[1..];
    }
  }

  /** Removal drops exactly the `c`s: every other character keeps its count. */
  lemma {:induction false} RemoveCharCounts(s: string, c: char)
    ensures multiset(RemoveChar(s, c)) == multiset(s)[c := 0]
  {
    if s != [] {
      RemoveCharCounts(s[1..], c);
      assert s == [s[0]] + s[1..];
    }
  }

  /** Removal keeps the order of what is left: it works piece by piece. */
  lemma {:induction false} RemoveCharAppend(a: string, b: string, c: char)
    ensures RemoveChar(a + b, c) == RemoveChar(a, c) + RemoveChar(b, c)
  {
    if a == [] {
      assert a + b == b;
    } else {
      var h := if a[0] == c then [] else [a[0]];
      RemoveCharAppend(a[1..], b, c);
      RemoveCharHead(a + b, c);
      assert (a + b)[0] == a[0] && (a + b)[1..] == a[1..] + b;
      RemoveCharHead(a, c);
      ConcatAssoc(h, RemoveChar(a[1..], c), RemoveChar(b, c));
    }
  }

  lemma ConcatAssoc(x: string, y: string, z: string)
    ensures x + (y + z) == (x + y) + z
  {
  }

  lemma RemoveCharHead(s: string, c: char)
    requires s != []
    ensures RemoveChar(s, c) == (if s[0] == c then [] else [s[0]]) + RemoveChar(s[1..], c)
  {
  }

  /** Ordinal `s.Replace(pat, rep)`: non-overlapping occurrences of `pat`, scanned from the left. */
  function ReplaceAll(s: string, pat: string, rep: string): string
    requires |pat| > 0
    decreases |s|
  {
    if |s| < |pat| then s
    else if s[..|pat|] == pat then rep + ReplaceAll(s[|pat|..], pat, rep)
    else [s[0]] + ReplaceAll(s[1..], pat, rep)
  }

  function DigitChar(d: nat): (c: char)
    requires d < 10
    ensures '0' <= c <= '9' && (c - '0') as nat == d
  {
    "0123456789"[d]
  }

  predicate IsDigits(s: string) {
    forall i :: 0 <= i < |s| ==> '0' <= s[i] <= '9'
  }

  /** Decimal rendering of a natural number, as `int.ToString()` produces it. */
  function NatToString(n: nat): (s: string)
    ensures |s| > 0 && IsDigits(s)
    decreases n
  {
    if n < 10 then [DigitChar(n)] else NatToString(n / 10) + [DigitChar(n % 10)]
  }

  /** Reads a decimal rendering back; the inverse of NatToString. */
  function ParseNat(s: string): nat
    requires IsDigits(s)
  {
    if s == [] then 0 else ParseNat(s[..|s| - 1]) * 10 + (s[|s| - 1] - '0') as nat
  }

  lemma {:induction false} ParseNatToString(n: nat)
    ensures ParseNat(NatToString(n)) == n
    decreases n
  {
    var s := NatToString(n);
    if n >= 10 {
      ParseNatToString(n / 10);
      assert s[..|s| - 1] == NatToString(n / 10);
    }
  }

  /** Distinct numbers have distinct renderings, so "[i]" paths never collide. */
  lemma NatToStringInjective(m: nat, n: nat)
    requires NatToString(m) == NatToString(n)
    ensures m == n
  {
    ParseNatToString(m);
    ParseNatToString(n);
  }
}

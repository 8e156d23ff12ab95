/**
 * The string operations the tools rely on: ordinal and ASCII case-insensitive
 * substring tests, .NET white space, Trim, Split on one character, Join,
 * AppendLine-style line building and decimal rendering of integers.
 */
module Text {
  import opened Base

  // ---------------------------------------------------------------- case folding

  /** ASCII-only lower-casing: the part of ToLowerInvariant / OrdinalIgnoreCase this model covers. */
  function LowerChar(c: char): char {
    if 'A' <= c <= 'Z' then (c as int + 32) as char else c
  }

  function Lower(s: string): (r: string)
    ensures |r| == |s|
    ensures forall i :: 0 <= i < |s| ==> r[i] == LowerChar(s[i])
  {
    if s == [] then [] else [LowerChar(s[0])] + Lower(s[1..])
  }

  lemma LowerSlice(s: string, i: int, j: int)
    requires 0 <= i <= j <= |s|
    ensures Lower(s[i..j]) == Lower(s)[i..j]
  {
  }

  /** string.Equals(a, b, StringComparison.OrdinalIgnoreCase), restricted to ASCII letters. */
  predicate EqualsIgnoreCase(a: string, b: string) {
    Lower(a) == Lower(b)
  }

  // ---------------------------------------------------------------- substrings

  predicate StartsWith(s: string, prefix: string) {
    |prefix| <= |s| && s[..|prefix|] == prefix
  }

  predicate EndsWith(s: string, suffix: string) {
    |suffix| <= |s| && s[|s| - |suffix|..] == suffix
  }

  /** Regrouping the last three pieces of a concatenation. */
  lemma AppendThree(x: string, p: string, q: string, r: string)
    ensures x + p + q + r == x + (p + q + r)
  {
  }

  /** Appending to a text keeps its prefixes. */
  lemma StartsWithAppend(s: string, more: string, prefix: string)
    requires StartsWith(s, prefix)
    ensures StartsWith(s + more, prefix)
  {
    assert (s + more)[..|prefix|] == s[..|prefix|];
  }

  /** Two texts differ if one starts with a prefix that differs from the other at some position. */
  lemma PrefixDiffers(pre: string, rest: string, other: string, i: nat)
    requires i < |pre| && i < |other| && pre[i] != other[i]
    ensures pre + rest != other
  {
    assert (pre + rest)[i] == pre[i];
  }

  /** string.Contains(sub), the ordinal (case-sensitive) test. */
  predicate Contains(s: string, sub: string)
    decreases |s|
  {
    StartsWith(s, sub) || (|s| > 0 && Contains(s[1..], sub))
  }

  ghost predicate OccursAt(s: string, sub: string, i: int) {
    0 <= i && i + |sub| <= |s| && s[i..i + |sub|] == sub
  }

  lemma {:induction false} ContainsHasOccurrence(s: string, sub: string)
    requires Contains(s, sub)
    ensures exists i :: OccursAt(s, sub, i)
    decreases |s|
  {
    if StartsWith(s, sub) {
      assert OccursAt(s, sub, 0);
    } else {
      ContainsHasOccurrence(s[1..], sub);
      var i :| OccursAt(s[1..], sub, i);
      assert s[1..][i..i + |sub|] == s[i + 1..i + 1 + |sub|];
      assert OccursAt(s, sub, i + 1);
    }
  }

  lemma {:induction false} OccurrenceIsContained(s: string, sub: string, i: int)
    requires OccursAt(s, sub, i)
    ensures Contains(s, sub)
    decreases i
  {
    if i > 0 {
      assert s[1..][i - 1..i - 1 + |sub|] == s[i..i + |sub|];
      OccurrenceIsContained(s[1..], sub, i - 1);
    }
  }

  /** The scanning definition of Contains finds exactly the occurrences of sub in s. */
  lemma ContainsIsOccurrence(s: string, sub: string)
    ensures Contains(s, sub) <==> exists i :: OccursAt(s, sub, i)
  {
    if Contains(s, sub) {
      ContainsHasOccurrence(s, sub);
    }
    if exists i :: OccursAt(s, sub, i) {
      var i :| OccursAt(s, sub, i);
      OccurrenceIsContained(s, sub, i);
    }
  }

  /** A string contains every piece it is built from. */
  lemma ContainsPiece(a: string, b: string, c: string)
    ensures Contains(a + b + c, b)
  {
    assert (a + b + c)[|a|..|a| + |b|] == b;
    OccurrenceIsContained(a + b + c, b, |a|);
  }

  /** Text put in front never hides an occurrence. */
  lemma {:induction false} ContainsAfter(a: string, t: string, sub: string)
    requires Contains(t, sub)
    ensures Contains(a + t, sub)
    decreases |a|
  {
    if a == [] {
      assert a + t == t;
    } else {
      assert (a + t)[1..] == a[1..] + t;
      ContainsAfter(a[1..], t, sub);
    }
  }

  /** string.Contains(sub, StringComparison.OrdinalIgnoreCase), ASCII case folding only. */
  predicate ContainsIgnoreCase(s: string, sub: string) {
    Contains(Lower(s), Lower(sub))
  }

  ghost predicate FoldedOccursAt(s: string, sub: string, i: int) {
    0 <= i && i + |sub| <= |s| && EqualsIgnoreCase(s[i..i + |sub|], sub)
  }

  /**
   * ContainsIgnoreCase holds exactly when some window of s, as long as sub,
   * equals sub up to ASCII case.
   */
  lemma ContainsIgnoreCaseIsFoldedOccurrence(s: string, sub: string)
    ensures ContainsIgnoreCase(s, sub) <==>
            exists i :: FoldedOccursAt(s, sub, i)
  {
    ContainsIsOccurrence(Lower(s), Lower(sub));
    if ContainsIgnoreCase(s, sub) {
      var i :| OccursAt(Lower(s), Lower(sub), i);
      FoldedOccurrence(s, sub, i);
    }
    if exists i :: FoldedOccursAt(s, sub, i) {
      var i :| FoldedOccursAt(s, sub, i);
      FoldedOccurrence(s, sub, i);
    }
  }

  /** A window matches up to case exactly when the lower-cased texts match there. */
  lemma FoldedOccurrence(s: string, sub: string, i: int)
    ensures FoldedOccursAt(s, sub, i) <==> OccursAt(Lower(s), Lower(sub), i)
  {
    if 0 <= i && i + |sub| <= |s| {
      LowerSlice(s, i, i + |sub|);
    }
  }

  /** Changing the case of ASCII letters on either side never changes the answer. */
  lemma ContainsIgnoreCaseIgnoresCase(s: string, s': string, sub: string, sub': string)
    requires EqualsIgnoreCase(s, s') && EqualsIgnoreCase(sub, sub')
    ensures ContainsIgnoreCase(s, sub) == ContainsIgnoreCase(s', sub')
  {
  }

  /** An exact occurrence is also a case-insensitive one. */
  lemma ContainsImpliesContainsIgnoreCase(s: string, sub: string)
    requires Contains(s, sub)
    ensures ContainsIgnoreCase(s, sub)
  {
    ContainsIsOccurrence(s, sub);
    var i :| OccursAt(s, sub, i);
    LowerSlice(s, i, i + |sub|);
    OccurrenceIsContained(Lower(s), Lower(sub), i);
  }

  // ---------------------------------------------------------------- white space

  /** char.IsWhiteSpace: the Unicode separators and the control characters 9-13, 0x85. */
  predicate IsWhiteSpace(c: char) {
    c == ' ' || ('\t' <= c <= '\r') || c == '\U{85}' || c == '\U{A0}' || c == '\U{1680}'
    || ('\U{2000}' <= c <= '\U{200A}') || c == '\U{2028}' || c == '\U{2029}'
    || c == '\U{202F}' || c == '\U{205F}' || c == '\U{3000}'
  }

  /** string.IsNullOrWhiteSpace on a non-null string. */
  predicate IsBlank(s: string) {
    forall i | 0 <= i < |s| :: IsWhiteSpace(s[i])
  }

  function TrimStart(s: string): (r: string)
    ensures |r| <= |s| && r == s[|s| - |r|..]
    ensures IsBlank(s[..|s| - |r|])
    ensures r == [] || !IsWhiteSpace(r[0])
  {
    if s != [] && IsWhiteSpace(s[0]) then
      var r := TrimStart(s[1..]);
      var cut := |s| - |r|;
      assert s[1..][cut - 1..] == s[cut..];
      assert forall i :: 1 <= i < cut ==> s[..cut][i] == s[1..][..cut - 1][i - 1];
      r
    else s
  }

  function TrimEnd(s: string): (r: string)
    ensures |r| <= |s| && r == s[..|r|]
    ensures IsBlank(s[|r|..])
    ensures r == [] || !IsWhiteSpace(r[|r| - 1])
  {
    if s != [] && IsWhiteSpace(s[|s| - 1]) then
      var r := TrimEnd(s[..|s| - 1]);
      assert s[..|s| - 1][..|r|] == s[..|r|];
      assert forall i :: 0 <= i < |s| - 1 - |r| ==> s[|r|..][i] == s[..|s| - 1][|r|..][i];
      r
    else s
  }

  /** string.Trim(): drops leading and trailing white space. */
  function Trim(s: string): string {
    TrimEnd(TrimStart(s))
  }

  /**
   * Trimming cannot create or destroy an occurrence of a word that neither
   * starts nor ends with white space.
   */
  lemma TrimKeepsWord(s: string, w: string)
    requires w != [] && !IsWhiteSpace(w[0]) && !IsWhiteSpace(w[|w| - 1])
    ensures Contains(Trim(s), w) <==> Contains(s, w)
  {
    var a, b := TrimWindow(s);
    WindowKeepsWord(s, w, a, b);
  }

  lemma WindowKeepsWord(s: string, w: string, a: int, b: int)
    requires w != [] && !IsWhiteSpace(w[0]) && !IsWhiteSpace(w[|w| - 1])
    requires 0 <= a <= b <= |s|
    requires forall k :: 0 <= k < a ==> IsWhiteSpace(s[k])
    requires forall k :: b <= k < |s| ==> IsWhiteSpace(s[k])
    ensures Contains(s[a..b], w) <==> Contains(s, w)
  {
    if Contains(s[a..b], w) {
      WindowWordInWhole(s, w, a, b);
    }
    if Contains(s, w) {
      WholeWordInWindow(s, w, a, b);
    }
  }

  lemma WindowWordInWhole(s: string, w: string, a: int, b: int)
    requires 0 <= a <= b <= |s| && Contains(s[a..b], w)
    ensures Contains(s, w)
  {
    ContainsHasOccurrence(s[a..b], w);
    var i :| OccursAt(s[a..b], w, i);
    SliceOfSlice(s, a, b, i, i + |w|);
    OccurrenceIsContained(s, w, a + i);
  }

  lemma WholeWordInWindow(s: string, w: string, a: int, b: int)
    requires w != [] && !IsWhiteSpace(w[0]) && !IsWhiteSpace(w[|w| - 1])
    requires 0 <= a <= b <= |s|
    requires forall k :: 0 <= k < a ==> IsWhiteSpace(s[k])
    requires forall k :: b <= k < |s| ==> IsWhiteSpace(s[k])
    requires Contains(s, w)
    ensures Contains(s[a..b], w)
  {
    ContainsHasOccurrence(s, w);
    var i :| OccursAt(s, w, i);
    WordInsideWindow(s, w, i, a, b);
    OccurrenceInWindow(s, w, i, a, b);
  }

  /** An occurrence inside the window s[a..b] is an occurrence in the window. */
  lemma OccurrenceInWindow(s: string, w: string, i: int, a: int, b: int)
    requires OccursAt(s, w, i) && 0 <= a <= i && i + |w| <= b <= |s|
    ensures Contains(s[a..b], w)
  {
    var window := s[a..b];
    SliceOfSlice(s, a, b, i - a, i - a + |w|);
    assert window[i - a..i - a + |w|] == s[i..i + |w|] == w;
    OccurrenceIsContained(window, w, i - a);
  }

  lemma SliceOfSlice(s: string, a: int, b: int, i: int, j: int)
    requires 0 <= a <= b <= |s| && 0 <= i <= j <= b - a
    ensures s[a..b][i..j] == s[a + i..a + j]
  {
    forall k | 0 <= k < j - i ensures s[a..b][i..j][k] == s[a + i..a + j][k] {
      assert s[a..b][i..j][k] == s[a..b][i + k];
    }
  }

  /** TrimStart(s) drops exactly the leading white space s[..a]. */
  lemma TrimStartWindow(s: string) returns (a: int)
    ensures 0 <= a <= |s| && TrimStart(s) == s[a..]
    ensures forall k :: 0 <= k < a ==> IsWhiteSpace(s[k])
  {
    a := |s| - |TrimStart(s)|;
    forall k | 0 <= k < a ensures IsWhiteSpace(s[k]) {
      assert s[k] == s[..a][k];
    }
  }

  /** TrimEnd(s[a..]) keeps exactly s[a..b], dropping trailing white space. */
  lemma TrimEndWindow(s: string, a: int) returns (b: int)
    requires 0 <= a <= |s|
    ensures a <= b <= |s| && TrimEnd(s[a..]) == s[a..b]
    ensures forall k :: b <= k < |s| ==> IsWhiteSpace(s[k])
  {
    var t := s[a..];
    var n := |TrimEnd(t)|;
    b := a + n;
    assert TrimEnd(t) == s[a..b];
    forall k | b <= k < |s| ensures IsWhiteSpace(s[k]) {
      assert s[k] == t[n..][k - b];
    }
  }

  /** Trim(s) is the window s[a..b], with only white space outside it. */
  lemma TrimWindow(s: string) returns (a: int, b: int)
    ensures 0 <= a <= b <= |s| && Trim(s) == s[a..b]
    ensures forall k :: 0 <= k < a ==> IsWhiteSpace(s[k])
    ensures forall k :: b <= k < |s| ==> IsWhiteSpace(s[k])
  {
    a := TrimStartWindow(s);
    b := TrimEndWindow(s, a);
  }

  lemma WordInsideWindow(s: string, w: string, i: int, a: int, b: int)
    requires w != [] && !IsWhiteSpace(w[0]) && !IsWhiteSpace(w[|w| - 1])
    requires OccursAt(s, w, i) && 0 <= a <= b <= |s|
    requires forall k :: 0 <= k < a ==> IsWhiteSpace(s[k])
    requires forall k :: b <= k < |s| ==> IsWhiteSpace(s[k])
    ensures a <= i && i + |w| <= b
  {
    assert s[i] == w[0];
    assert s[i + |w| - 1] == w[|w| - 1];
  }

  // ---------------------------------------------------------------- split and join

  /** string.Join(sep, parts). */
  function Join(parts: seq<string>, sep: string): string {
    if |parts| == 0 then ""
    else if |parts| == 1 then parts[0]
    else parts[0] + sep + Join(parts[1..], sep)
  }

  /** Joining one, two or three parts. */
  lemma JoinSmall(a: string, b: string, c: string, sep: string)
    ensures Join([a], sep) == a
    ensures Join([a, b], sep) == a + sep + b
    ensures Join([a, b, c], sep) == a + sep + b + sep + c
  {
    assert [a, b][1..] == [b];
    assert [a, b, c][1..] == [b, c];
    assert [b, c][1..] == [c];
    assert Join([b, c], sep) == b + sep + c;
    assert Join([a, b, c], sep) == a + sep + (b + sep + c);
  }

  /** string.Split(sep) with one separator character: the pieces between separators, never none. */
  function Split(s: string, sep: char): (r: seq<string>)
    ensures |r| >= 1
    ensures forall i :: 0 <= i < |r| ==> sep !in r[i]
  {
    if s == [] then [""]
    else
      var rest := Split(s[1..], sep);
      if s[0] == sep then [""] + rest else [[s[0]] + rest[0]] + rest[1..]
  }

  lemma {:induction false} SplitAfterPiece(a: string, t: string, sep: char)
    requires sep !in a
    ensures Split(a + t, sep) == [a + Split(t, sep)[0]] + Split(t, sep)[1..]
  {
    if a == [] {
      var r := Split(t, sep);
      assert a + t == t;
      assert a + r[0] == r[0];
      assert r == [r[0]] + r[1..];
    } else {
      assert (a + t)[1..] == a[1..] + t;
      SplitAfterPiece(a[1..], t, sep);
      assert [a[0]] + (a[1..] + Split(t, sep)[0]) == a + Split(t, sep)[0];
    }
  }

  /** Joining pieces that hold no separator and splitting again gives the pieces back. */
  lemma {:induction false} SplitJoin(parts: seq<string>, sep: char)
    requires |parts| >= 1
    requires forall i :: 0 <= i < |parts| ==> sep !in parts[i]
    ensures Split(Join(parts, [sep]), sep) == parts
  {
    if |parts| == 1 {
      SplitAfterPiece(parts[0], "", sep);
      assert parts[0] + "" == parts[0];
    } else {
      var rest := Join(parts[1..], [sep]);
      SplitJoin(parts[1..], sep);
      assert Join(parts, [sep]) == parts[0] + ([sep] + rest);
      SplitAfterPiece(parts[0], [sep] + rest, sep);
      assert ([sep] + rest)[1..] == rest;
      assert Split([sep] + rest, sep) == [""] + parts[1..];
      assert parts[0] + "" == parts[0];
    }
  }

  /** The text a StringBuilder holds after AppendLine of each line in turn ("\n" line ends). */
  function Unlines(lines: seq<string>): string {
    if lines == [] then "" else lines[0] + "\n" + Unlines(lines[1..])
  }

  lemma {:induction false} UnlinesSnoc(lines: seq<string>, line: string)
    ensures Unlines(lines + [line]) == Unlines(lines) + line + "\n"
  {
    if lines == [] {
      assert lines + [line] == [line];
    } else {
      assert (lines + [line])[1..] == lines[1..] + [line];
      UnlinesSnoc(lines[1..], line);
    }
  }

  lemma {:induction false} UnlinesIsJoin(lines: seq<string>)
    ensures Unlines(lines) == Join(lines + [""], "\n")
  {
    if lines == [] {
      assert lines + [""] == [""];
    } else {
      assert (lines + [""])[1..] == lines[1..] + [""];
      UnlinesIsJoin(lines[1..]);
    }
  }

  /** Text built line by line splits into exactly those lines and a final empty piece. */
  lemma SplitUnlines(lines: seq<string>)
    requires forall i :: 0 <= i < |lines| ==> '\n' !in lines[i]
    ensures Split(Unlines(lines), '\n') == lines + [""]
  {
    UnlinesIsJoin(lines);
    SplitJoin(lines + [""], '\n');
  }

  // ---------------------------------------------------------------- numbers

  function DigitChar(d: nat): (c: char)
    requires d < 10
    ensures '0' <= c <= '9' && c as int - '0' as int == d
  {
    (d + '0' as int) as char
  }

  predicate IsDigits(s: string) {
    forall i | 0 <= i < |s| :: '0' <= s[i] <= '9'
  }

  /** Decimal text of a natural number, as Int32/Int64.ToString() prints it. */
  function NatToString(n: nat): (r: string)
    ensures |r| >= 1 && IsDigits(r)
    ensures r[0] == '0' ==> n == 0
  {
    if n < 10 then [DigitChar(n)] else NatToString(n / 10) + [DigitChar(n % 10)]
  }

  /** The number a string of decimal digits denotes. */
  function DigitsValue(s: string): nat
    requires IsDigits(s)
  {
    if s == [] then 0 else DigitsValue(s[..|s| - 1]) * 10 + (s[|s| - 1] as int - '0' as int)
  }

  /** Reading the printed digits back gives the number: NatToString loses nothing. */
  lemma {:induction false} NatToStringRoundTrip(n: nat)
    ensures DigitsValue(NatToString(n)) == n
  {
    if n >= 10 {
      NatToStringRoundTrip(n / 10);
      var r := NatToString(n);
      assert r[..|r| - 1] == NatToString(n / 10);
    }
  }

  lemma NatToStringInjective(m: nat, n: nat)
    requires NatToString(m) == NatToString(n)
    ensures m == n
  {
    NatToStringRoundTrip(m);
    NatToStringRoundTrip(n);
  }

  /** Decimal text of an integer, with a leading '-' when negative. */
  function IntToString(i: int): string {
    if i < 0 then "-" + NatToString(-i) else NatToString(i)
  }

  lemma NoNewlineInDigits(n: nat)
    ensures '\n' !in NatToString(n)
  {
    var r := NatToString(n);
    assert forall i :: 0 <= i < |r| ==> r[i] != '\n';
  }
}

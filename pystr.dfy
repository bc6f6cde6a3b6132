/**
 * The Python `str` operations that the harness relies on, written out over
 * `seq<char>`: strip, splitlines, join, split with a separator, split on
 * whitespace, replace, isdigit, and decimal rendering of integers.
 */
module PyStr {
  import opened Wrappers

  /** The characters for which Python's `str.isspace` holds. */
  predicate IsSpace(c: char) {
    c == ' ' || c == '\t' || c == '\n' || c == '\r' || c == '\U{B}' || c == '\U{C}'
    || ('\U{1C}' <= c <= '\U{1F}') || c == '\U{85}' || c == '\U{A0}' || c == '\U{1680}'
    || ('\U{2000}' <= c <= '\U{200A}') || c == '\U{2028}' || c == '\U{2029}'
    || c == '\U{202F}' || c == '\U{205F}' || c == '\U{3000}'
  }

  /** The characters at which Python's `str.splitlines` ends a line. */
  predicate IsLineBreak(c: char) {
    c == '\n' || c == '\r' || c == '\U{B}' || c == '\U{C}' || c == '\U{1C}' || c == '\U{1D}'
    || c == '\U{1E}' || c == '\U{85}' || c == '\U{2028}' || c == '\U{2029}'
  }

  lemma {:induction false} LineBreakIsSpace(c: char)
    requires IsLineBreak(c)
    ensures IsSpace(c)
  {
  }

  predicate NoLineBreak(s: string) {
    forall i :: 0 <= i < |s| ==> !IsLineBreak(s[i])
  }

  predicate NoSpace(s: string) {
    forall i :: 0 <= i < |s| ==> !IsSpace(s[i])
  }

  // ---------------------------------------------------------------------------
  // strip

  function LStrip(s: string): (r: string)
    ensures |r| <= |s| && r == s[|s| - |r|..]
    ensures forall i :: 0 <= i < |s| - |r| ==> IsSpace(s[i])
    ensures r == [] || !IsSpace(r[0])
  {
    if |s| > 0 && IsSpace(s[0]) then LStrip(s[1..]) else s
  }

  function RStrip(s: string): (r: string)
    ensures |r| <= |s| && r == s[..|r|]
    ensures forall i :: |r| <= i < |s| ==> IsSpace(s[i])
    ensures r == [] || !IsSpace(r[|r| - 1])
  {
    if |s| > 0 && IsSpace(s[|s| - 1]) then RStrip(s[..|s| - 1]) else s
  }

  /** Python's `s.strip()`: the slice of `s` without leading and trailing whitespace. */
  function Strip(s: string): (r: string)
  {
    RStrip(LStrip(s))
  }

  /** Stripped text is empty or starts and ends with a non-space character, and it
      is a slice of the input whose cut-off ends are all whitespace. */
  lemma {:induction false} StripShape(s: string)
    ensures var r, i := Strip(s), |s| - |LStrip(s)|;
      && (r == [] || (!IsSpace(r[0]) && !IsSpace(r[|r| - 1])))
      && i + |r| <= |s| && r == s[i..i + |r|]
      && (forall k :: 0 <= k < i ==> IsSpace(s[k]))
      && (forall k :: i + |r| <= k < |s| ==> IsSpace(s[k]))
  {
    var l := LStrip(s);
    var r := RStrip(l);
    assert Strip(s) == r;
    StripEnds(s, l, r, |s| - |l|);
  }

  /** The pieces of `StripShape` for `l == LStrip(s)` and `r == RStrip(l)`. */
  lemma {:induction false} StripEnds(s: string, l: string, r: string, i: nat)
    requires |l| <= |s| && i == |s| - |l| && l == s[i..] && (l == [] || !IsSpace(l[0]))
    requires |r| <= |l| && r == l[..|r|] && (r == [] || !IsSpace(r[|r| - 1]))
    requires forall k :: |r| <= k < |l| ==> IsSpace(l[k])
    ensures r == [] || (!IsSpace(r[0]) && !IsSpace(r[|r| - 1]))
    ensures i + |r| <= |s| && r == s[i..i + |r|]
    ensures forall k :: i + |r| <= k < |s| ==> IsSpace(s[k])
  {
    forall k | i + |r| <= k < |s|
      ensures IsSpace(s[k])
    {
      assert s[k] == l[k - i];
    }
    assert r != [] ==> r[0] == l[0];
  }

  lemma {:induction false} StripNoSpaceEnds(s: string)
    requires s == [] || (!IsSpace(s[0]) && !IsSpace(s[|s| - 1]))
    ensures Strip(s) == s
  {
  }

  /** Stripping twice is stripping once. */
  lemma {:induction false} StripIdempotent(s: string)
    ensures Strip(Strip(s)) == Strip(s)
  {
    StripShape(s);
    StripNoSpaceEnds(Strip(s));
  }

  /** A string that is blank only in whitespace strips to the empty string. */
  lemma {:induction false} StripAllSpace(s: string)
    requires forall i :: 0 <= i < |s| ==> IsSpace(s[i])
    ensures Strip(s) == []
  {
    StripShape(s);
  }

  // ---------------------------------------------------------------------------
  // splitlines

  /** The index of the first line break in `s`, or `|s|`. */
  function BreakIndex(s: string): (k: nat)
    ensures k <= |s|
    ensures k < |s| ==> IsLineBreak(s[k])
    ensures NoLineBreak(s[..k])
  {
    if s == [] || IsLineBreak(s[0]) then 0 else 1 + BreakIndex(s[1..])
  }

  /** The width of the line break at `s[k]`: two for "\r\n", else one. */
  function BreakWidth(s: string, k: nat): (w: nat)
    requires k < |s|
    ensures 1 <= w <= |s| - k
  {
    if s[k] == '\r' && k + 1 < |s| && s[k + 1] == '\n' then 2 else 1
  }

  /** Python's `s.splitlines()`: lines without their terminators, and no empty
      last line for text that ends with a break. */
  function SplitLines(s: string): (lines: seq<string>)
    decreases |s|
  {
    if s == [] then []
    else
      var k := BreakIndex(s);
      if k == |s| then [s]
      else [s[..k]] + SplitLines(s[k + BreakWidth(s, k)..])
  }

  lemma {:induction false} SplitLinesNoBreaks(s: string)
    ensures forall j :: 0 <= j < |SplitLines(s)| ==> NoLineBreak(SplitLines(s)[j])
    decreases |s|
  {
    if s != [] {
      var k := BreakIndex(s);
      if k < |s| {
        SplitLinesNoBreaks(s[k + BreakWidth(s, k)..]);
      }
    }
  }

  /** Text whose first character is not a line break starts its first line. */
  lemma {:induction false} SplitLinesFirst(s: string)
    requires s != [] && !IsLineBreak(s[0])
    ensures SplitLines(s) != [] && SplitLines(s)[0] != [] && SplitLines(s)[0][0] == s[0]
  {
  }

  /** Text whose last character is not a line break ends its last line. */
  lemma {:induction false} SplitLinesLast(s: string)
    requires s != [] && !IsLineBreak(s[|s| - 1])
    ensures var ls := SplitLines(s);
      ls != [] && ls[|ls| - 1] != [] && ls[|ls| - 1][|ls[|ls| - 1]| - 1] == s[|s| - 1]
    decreases |s|
  {
    var k := BreakIndex(s);
    if k < |s| {
      var rest := s[k + BreakWidth(s, k)..];
      assert rest != [] && rest[|rest| - 1] == s[|s| - 1];
      SplitLinesLast(rest);
      var ls, rs := SplitLines(s), SplitLines(rest);
      assert ls == [s[..k]] + rs;
      assert ls[|ls| - 1] == rs[|rs| - 1];
    } else {
      assert SplitLines(s) == [s];
    }
  }

  // ---------------------------------------------------------------------------
  // join

  /** Python's `sep.join(parts)`. */
  function Join(sep: string, parts: seq<string>): (r: string)
  {
    if |parts| == 0 then []
    else if |parts| == 1 then parts[0]
    else parts[0] + sep + Join(sep, parts[1..])
  }

  /** Joining two non-empty lists of parts joins each and puts `sep` between them. */
  lemma {:induction false} JoinAppend(sep: string, a: seq<string>, b: seq<string>)
    requires a != [] && b != []
    ensures Join(sep, a + b) == Join(sep, a) + sep + Join(sep, b)
    decreases |a|
  {
    if |a| == 1 {
      assert (a + b)[1..] == b;
    } else {
      assert (a + b)[1..] == a[1..] + b;
      JoinAppend(sep, a[1..], b);
    }
  }

  /** Lines without breaks, none of them empty, joined with "\n", split back into
      the same lines. */
  lemma {:induction false} SplitLinesOfJoin(ls: seq<string>)
    requires forall j :: 0 <= j < |ls| ==> ls[j] != [] && NoLineBreak(ls[j])
    ensures SplitLines(Join("\n", ls)) == ls
  {
    if |ls| == 1 {
      assert BreakIndex(ls[0]) == |ls[0]|;
    } else if |ls| > 1 {
      SplitLinesOfJoin(ls[1..]);
      SplitLinesCons(ls[0], Join("\n", ls[1..]));
    }
  }

  /** A line followed by "\n" and more text splits off as the first line. */
  lemma {:induction false} SplitLinesCons(a: string, b: string)
    requires NoLineBreak(a)
    ensures SplitLines(a + "\n" + b) == [a] + SplitLines(b)
  {
    var s := a + ("\n" + b);
    assert s == a + "\n" + b;
    BreakIndexAt(a, "\n" + b);
    var k := BreakIndex(s);
    assert k == |a|;
    assert s[k] == '\n';
    assert BreakWidth(s, k) == 1;
    assert s[..k] == a;
    assert s[k + 1..] == b;
    assert SplitLines(s) == [s[..k]] + SplitLines(s[k + BreakWidth(s, k)..]);
  }

  lemma {:induction false} BreakIndexAt(a: string, b: string)
    requires NoLineBreak(a) && b != [] && IsLineBreak(b[0])
    ensures BreakIndex(a + b) == |a|
  {
    if a != [] {
      assert (a + b)[1..] == a[1..] + b;
      BreakIndexAt(a[1..], b);
    } else {
      assert a + b == b;
    }
  }

  // ---------------------------------------------------------------------------
  // find, split and replace with a separator

  /** `sep` occurs in `s` at index `j`. */
  predicate OccursAt(s: string, sep: string, j: nat) {
    j + |sep| <= |s| && s[j..j + |sep|] == sep
  }

  /** The index of the first occurrence of `sep` in `s` at or after `i`. */
  function IndexFrom(s: string, sep: string, i: nat): (k: Option<nat>)
    requires |sep| > 0 && i <= |s|
    ensures k.Some? ==> i <= k.value && OccursAt(s, sep, k.value)
    ensures k.Some? ==> forall j: nat :: i <= j < k.value ==> !OccursAt(s, sep, j)
    ensures k.None? ==> forall j: nat :: i <= j ==> !OccursAt(s, sep, j)
    decreases |s| - i
  {
    if i + |sep| > |s| then None
    else if s[i..i + |sep|] == sep then Some(i)
    else IndexFrom(s, sep, i + 1)
  }

  /** Python's `s.find(sep)`, as an option: the first occurrence of `sep` in `s`. */
  function IndexOf(s: string, sep: string): (k: Option<nat>)
    requires |sep| > 0
    ensures k.Some? ==> OccursAt(s, sep, k.value)
    ensures k.Some? ==> forall j: nat :: j < k.value ==> !OccursAt(s, sep, j)
    ensures k.None? ==> forall j: nat :: !OccursAt(s, sep, j)
  {
    IndexFrom(s, sep, 0)
  }

  /** Python's `sub in s`. */
  predicate Contains(s: string, sub: string) {
    |sub| == 0 || IndexOf(s, sub).Some?
  }

  /** A text contains whatever either of its two parts contains. */
  lemma {:induction false} ContainsConcat(a: string, b: string, sub: string)
    ensures Contains(a, sub) || Contains(b, sub) ==> Contains(a + b, sub)
  {
    if |sub| > 0 {
      if IndexOf(a, sub).Some? {
        var k := IndexOf(a, sub).value;
        assert (a + b)[k..k + |sub|] == a[k..k + |sub|];
        assert OccursAt(a + b, sub, k);
      }
      if IndexOf(b, sub).Some? {
        var k := IndexOf(b, sub).value;
        assert (a + b)[|a| + k..|a| + k + |sub|] == b[k..k + |sub|];
        assert OccursAt(a + b, sub, |a| + k);
      }
    }
  }

  /** Python's `s.split(sep)` for a non-empty separator. */
  function Split(s: string, sep: string): (parts: seq<string>)
    requires |sep| > 0
    ensures |parts| >= 1
    decreases |s|
  {
    match IndexOf(s, sep)
    case None => [s]
    case Some(k) => [s[..k]] + Split(s[k + |sep|..], sep)
  }

  /** Python's `s.replace(pattern, repl)`: every non-overlapping occurrence, left to right. */
  function Replace(s: string, pattern: string, repl: string): (r: string)
    requires |pattern| > 0
    decreases |s|
  {
    if |s| < |pattern| then s
    else if s[..|pattern|] == pattern then repl + Replace(s[|pattern|..], pattern, repl)
    else [s[0]] + Replace(s[1..], pattern, repl)
  }

  /** Replacing a single character by text that does not hold it leaves none behind. */
  lemma {:induction false} ReplaceRemovesChar(s: string, c: char, repl: string)
    requires c !in repl
    ensures c !in Replace(s, [c], repl)
    decreases |s|
  {
    if |s| >= 1 {
      ReplaceRemovesChar(s[1..], c, repl);
    }
  }

  /** Replacing a single character keeps every character that was not it. */
  lemma {:induction false} ReplaceKeepsOthers(s: string, c: char, repl: string, d: char)
    requires d != c && d in s
    ensures d in Replace(s, [c], repl)
    decreases |s|
  {
    if s[0] != d {
      ReplaceKeepsOthers(s[1..], c, repl, d);
    }
  }

  /** Text in which `pattern` never occurs is left as it is. */
  lemma {:induction false} ReplaceAbsent(s: string, pattern: string, repl: string)
    requires |pattern| > 0 && forall j: nat :: !OccursAt(s, pattern, j)
    ensures Replace(s, pattern, repl) == s
    decreases |s|
  {
    if |s| >= |pattern| {
      assert !OccursAt(s, pattern, 0);
      forall j: nat ensures !OccursAt(s[1..], pattern, j) {
        if j + |pattern| <= |s| - 1 {
          assert s[1..][j..j + |pattern|] == s[j + 1..j + 1 + |pattern|];
          assert !OccursAt(s, pattern, j + 1);
        }
      }
      ReplaceAbsent(s[1..], pattern, repl);
    }
  }

  /** A pattern whose first character the text lacks occurs nowhere in it. */
  lemma {:induction false} AbsentByFirstChar(s: string, pattern: string)
    requires |pattern| > 0 && pattern[0] !in s
    ensures forall j: nat :: !OccursAt(s, pattern, j)
  {
    forall j: nat ensures !OccursAt(s, pattern, j) {
      if j + |pattern| <= |s| {
        assert s[j..j + |pattern|][0] == s[j] && s[j] in s;
      }
    }
  }

  /** A character found neither in the text nor in the replacement is not
      found in the result. */
  lemma {:induction false} ReplaceKeepsAbsent(s: string, pattern: string, repl: string, c: char)
    requires |pattern| > 0 && c !in s && c !in repl
    ensures c !in Replace(s, pattern, repl)
    decreases |s|
  {
    if |s| >= |pattern| {
      if s[..|pattern|] == pattern {
        assert c !in s[|pattern|..];
        ReplaceKeepsAbsent(s[|pattern|..], pattern, repl, c);
      } else {
        assert c !in s[1..];
        ReplaceKeepsAbsent(s[1..], pattern, repl, c);
      }
    }
  }

  // ---------------------------------------------------------------------------
  // split on whitespace

  /** The index of the first whitespace character of `s`, or `|s|`. */
  function SpaceIndex(s: string): (k: nat)
    ensures k <= |s| && (k < |s| ==> IsSpace(s[k])) && NoSpace(s[..k])
  {
    if s == [] || IsSpace(s[0]) then 0 else 1 + SpaceIndex(s[1..])
  }

  /** Python's `s.split()` with no argument: the maximal runs of non-space characters. */
  function Tokens(s: string): (ts: seq<string>)
    decreases |s|
  {
    var t := LStrip(s);
    if t == [] then []
    else
      var k := SpaceIndex(t);
      [t[..k]] + Tokens(t[k..])
  }

  /** Every token is a non-empty run of non-space characters. */
  lemma {:induction false} TokensShape(s: string)
    ensures forall j :: 0 <= j < |Tokens(s)| ==> Tokens(s)[j] != [] && NoSpace(Tokens(s)[j])
    decreases |s|
  {
    var t := LStrip(s);
    if t != [] {
      var k := SpaceIndex(t);
      TokensShape(t[k..]);
      var ts, rest := Tokens(s), Tokens(t[k..]);
      assert ts == [t[..k]] + rest;
      forall j | 0 <= j < |ts| ensures ts[j] != [] && NoSpace(ts[j]) {
        if j > 0 {
          assert ts[j] == rest[j - 1];
        }
      }
    }
  }

  /** Leading whitespace is stripped the same with text appended, unless
      the whole string is whitespace. */
  lemma {:induction false} LStripAppend(s: string, x: string)
    requires LStrip(s) != []
    ensures LStrip(s + x) == LStrip(s) + x
    decreases |s|
  {
    if |s| > 0 && IsSpace(s[0]) {
      assert (s + x)[1..] == s[1..] + x;
      LStripAppend(s[1..], x);
    }
  }

  /** Whitespace followed by one more whitespace character strips to nothing. */
  lemma {:induction false} LStripSpaceAppend(s: string, c: char)
    requires LStrip(s) == [] && IsSpace(c)
    ensures LStrip(s + [c]) == []
    decreases |s|
  {
    if |s| > 0 {
      assert (s + [c])[1..] == s[1..] + [c];
      LStripSpaceAppend(s[1..], c);
    }
  }

  /** A whitespace character appended does not move the first whitespace. */
  lemma {:induction false} SpaceIndexAppend(t: string, c: char)
    requires IsSpace(c)
    ensures SpaceIndex(t + [c]) == SpaceIndex(t)
    decreases |t|
  {
    if t != [] && !IsSpace(t[0]) {
      assert (t + [c])[1..] == t[1..] + [c];
      SpaceIndexAppend(t[1..], c);
    }
  }

  /** A trailing whitespace character, such as the line feed `print` adds,
      does not change the tokens. */
  lemma {:induction false} TokensTrailingSpace(s: string, c: char)
    requires IsSpace(c)
    ensures Tokens(s + [c]) == Tokens(s)
    decreases |s|
  {
    var t := LStrip(s);
    if t == [] {
      LStripSpaceAppend(s, c);
    } else {
      LStripAppend(s, [c]);
      var k := SpaceIndex(t);
      SpaceIndexAppend(t, c);
      assert (t + [c])[..k] == t[..k];
      assert (t + [c])[k..] == t[k..] + [c];
      TokensTrailingSpace(t[k..], c);
    }
  }

  // ---------------------------------------------------------------------------
  // digits and integers

  predicate IsAsciiDigit(c: char) {
    '0' <= c <= '9'
  }

  /** Python's `s.isdigit()` for ASCII text: non-empty and all digits. */
  predicate IsDigit(s: string) {
    |s| > 0 && forall i :: 0 <= i < |s| ==> IsAsciiDigit(s[i])
  }

  function DigitChar(d: nat): (c: char)
    requires d < 10
    ensures IsAsciiDigit(c)
  {
    ['0', '1', '2', '3', '4', '5', '6', '7', '8', '9'][d]
  }

  function DigitValue(c: char): (d: nat)
    requires IsAsciiDigit(c)
    ensures d < 10 && DigitChar(d) == c
  {
    (c as int - '0' as int) as nat
  }

  /** The decimal digits of a natural number, as Python's `str` prints them. */
  function NatToString(n: nat): (s: string)
    ensures IsDigit(s)
    ensures ParseNat(s) == n
    decreases n
  {
    if n < 10 then [DigitChar(n)]
    else
      var p := NatToString(n / 10);
      assert (p + [DigitChar(n % 10)])[..|p|] == p;
      p + [DigitChar(n % 10)]
  }

  /** The value of a string of decimal digits (Python's `int(s)` on such a string). */
  function ParseNat(s: string): (n: nat)
    requires forall i :: 0 <= i < |s| ==> IsAsciiDigit(s[i])
    decreases |s|
  {
    if s == [] then 0 else 10 * ParseNat(s[..|s| - 1]) + DigitValue(s[|s| - 1])
  }

  /** Python's `str(n)` for an integer. */
  function IntToString(n: int): string {
    if n < 0 then "-" + NatToString(-n) else NatToString(n)
  }
}

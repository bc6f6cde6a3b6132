/**
 * The test-data plumbing of `src/testing/utils.py`: cutting the test text
 * into blocks, decoding each line as JSON, pairing blocks as stream input and
 * output, marshalling arguments into node structures and results back out,
 * and the report banner.
 */
module TestingUtils {
  import opened Wrappers
  import opened Values
  import opened PyStr
  import opened General
  import Nodes

  // ---------------------------------------------------------------------------
  // parse_test_data

  /** `[line.strip() for line in test_data.strip().splitlines()]`. */
  function StrippedLines(text: string): (ls: seq<string>)
    ensures |ls| == |SplitLines(Strip(text))|
    ensures forall j :: 0 <= j < |ls| ==> ls[j] == Strip(SplitLines(Strip(text))[j])
  {
    var raw := SplitLines(Strip(text));
    seq(|raw|, j requires 0 <= j < |raw| => Strip(raw[j]))
  }

  /** The second comprehension of `parse_test_data`: a line is kept, stripped
      again, when it is the first one, is not blank, or follows a line that is
      not blank; `afterBlank` says whether the line before was blank. */
  function Collapse(ls: seq<string>, afterBlank: bool): seq<string>
    decreases |ls|
  {
    if ls == [] then []
    else
      var l := Strip(ls[0]);
      (if !afterBlank || l != [] then [l] else []) + Collapse(ls[1..], l == [])
  }

  /** `parse_test_data(test_data)`: the kept lines joined with "\n" and cut
      at every "\n\n". */
  function ParseTestData(text: string): (blocks: seq<string>)
  {
    var lines := StrippedLines(text);
    if lines == [] then [] else Split(Join("\n", Collapse(lines, false)), "\n\n")
  }

  // ---------------------------------------------------------------------------
  // the blocks as maximal runs of non-blank lines

  /** The length of the leading run of non-blank lines. */
  function RunLength(ls: seq<string>): (n: nat)
    ensures n <= |ls| && (n < |ls| ==> ls[n] == [])
    ensures forall i :: 0 <= i < n ==> ls[i] != []
  {
    if ls == [] || ls[0] == [] then 0
    else
      var n := RunLength(ls[1..]);
      assert forall i :: 1 <= i < 1 + n ==> ls[i] == ls[1..][i - 1];
      1 + n
  }

  /** The length of the leading run of blank lines. */
  function BlankLength(ls: seq<string>): (n: nat)
    ensures n <= |ls| && (n < |ls| ==> ls[n] != [])
    ensures forall i :: 0 <= i < n ==> ls[i] == []
  {
    if ls == [] || ls[0] != [] then 0
    else
      var n := BlankLength(ls[1..]);
      assert forall i :: 1 <= i < 1 + n ==> ls[i] == ls[1..][i - 1];
      1 + n
  }

  /** The maximal runs of non-blank lines, in order: the test sets the text holds. */
  function Groups(ls: seq<string>): (gs: seq<seq<string>>)
    decreases |ls|
  {
    if ls == [] then []
    else if ls[0] == [] then Groups(ls[1..])
    else
      var n := RunLength(ls);
      [ls[..n]] + Groups(ls[n..])
  }

  /** Each run joined with "\n": the text of each block. */
  function JoinEach(gs: seq<seq<string>>): (bs: seq<string>)
    ensures |bs| == |gs| && forall i :: 0 <= i < |gs| ==> bs[i] == Join("\n", gs[i])
  {
    seq(|gs|, i requires 0 <= i < |gs| => Join("\n", gs[i]))
  }

  /** Lines that strip to themselves and hold no line break. */
  predicate CleanLines(ls: seq<string>) {
    forall j :: 0 <= j < |ls| ==> Strip(ls[j]) == ls[j] && NoLineBreak(ls[j])
  }

  /** A block of a test text: at least one line, none blank, none holding a break. */
  predicate IsBlock(g: seq<string>) {
    g != [] && forall j :: 0 <= j < |g| ==> g[j] != [] && NoLineBreak(g[j])
  }

  /** Text without two line feeds in a row. */
  predicate NoDoubleBreak(s: string) {
    forall k :: 0 <= k < |s| - 1 ==> !(s[k] == '\n' && s[k + 1] == '\n')
  }

  /** Lines without line breaks. */
  predicate Unbroken(ls: seq<string>) {
    forall j :: 0 <= j < |ls| ==> NoLineBreak(ls[j])
  }

  /** The comprehension of `Collapse` for lines that are already stripped:
      a line is kept when it is the first, is not blank, or follows a line
      that is not blank. */
  function Keep(ls: seq<string>, afterBlank: bool): seq<string>
    decreases |ls|
  {
    if ls == [] then []
    else (if !afterBlank || ls[0] != [] then [ls[0]] else []) + Keep(ls[1..], ls[0] == [])
  }

  /** Stripping again changes nothing on clean lines. */
  lemma {:induction false} CollapseKeeps(ls: seq<string>, afterBlank: bool)
    requires CleanLines(ls)
    ensures Collapse(ls, afterBlank) == Keep(ls, afterBlank) && Unbroken(ls)
    decreases |ls|
  {
    if ls != [] {
      assert Strip(ls[0]) == ls[0];
      CleanDrop(ls, 1);
      CollapseKeeps(ls[1..], ls[0] == []);
    }
  }

  /** A suffix of lines without breaks has none. */
  lemma {:induction false} UnbrokenDrop(ls: seq<string>, k: nat)
    requires Unbroken(ls) && k <= |ls|
    ensures Unbroken(ls[k..])
  {
    forall j | 0 <= j < |ls[k..]| ensures NoLineBreak(ls[k..][j]) {
      assert ls[k..][j] == ls[j + k];
    }
  }

  /** A suffix of clean lines is clean. */
  lemma {:induction false} CleanDrop(ls: seq<string>, k: nat)
    requires CleanLines(ls) && k <= |ls|
    ensures CleanLines(ls[k..])
  {
    forall j | 0 <= j < |ls[k..]| ensures Strip(ls[k..][j]) == ls[k..][j] && NoLineBreak(ls[k..][j]) {
      assert ls[k..][j] == ls[j + k];
    }
  }

  /** Every run is a block. */
  lemma {:induction false} GroupsAreBlocks(ls: seq<string>)
    requires forall j :: 0 <= j < |ls| ==> NoLineBreak(ls[j])
    ensures forall i :: 0 <= i < |Groups(ls)| ==> IsBlock(Groups(ls)[i])
    decreases |ls|
  {
    if ls != [] {
      if ls[0] == [] {
        assert forall j :: 0 <= j < |ls[1..]| ==> ls[1..][j] == ls[j + 1];
        GroupsAreBlocks(ls[1..]);
      } else {
        var n := RunLength(ls);
        assert forall j :: 0 <= j < |ls[n..]| ==> ls[n..][j] == ls[j + n];
        GroupsAreBlocks(ls[n..]);
        var gs, rest := Groups(ls), Groups(ls[n..]);
        assert gs == [ls[..n]] + rest;
        forall i | 0 <= i < |gs| ensures IsBlock(gs[i]) {
          if i > 0 {
            assert gs[i] == rest[i - 1];
          }
        }
      }
    }
  }

  /** Leading blank lines belong to no run. */
  lemma {:induction false} GroupsSkipBlanks(ls: seq<string>, k: nat)
    requires k <= |ls| && forall i :: 0 <= i < k ==> ls[i] == []
    ensures Groups(ls) == Groups(ls[k..])
    decreases k
  {
    if k > 0 {
      assert forall i :: 0 <= i < k - 1 ==> ls[1..][i] == ls[i + 1];
      GroupsSkipBlanks(ls[1..], k - 1);
      assert ls[1..][k - 1..] == ls[k..];
    }
  }

  /** Two lines with any positive number of blank lines between them are two
      test sets: one blank line and three blank lines separate alike. */
  lemma {:induction false} BlankRunsSeparate(a: string, b: string, k: nat)
    requires a != [] && b != [] && k >= 1
    ensures Groups([a] + Blanks(k) + [b]) == [[a], [b]]
  {
    var ls := [a] + Blanks(k) + [b];
    assert RunLength(ls[1..]) == 0 by {
      assert ls[1..][0] == [];
    }
    assert ls[..1] == [a];
    assert forall i :: 0 <= i < k ==> ls[1..][i] == Blanks(k)[i];
    GroupsSkipBlanks(ls[1..], k);
    assert ls[1..][k..] == [b];
    assert RunLength([b][1..]) == 0;
    assert [b][..1] == [b];
    assert Groups([b]) == [[b]] + Groups([]);
  }

  /** `k` blank lines. */
  function Blanks(k: nat): (r: seq<string>)
    ensures |r| == k && forall i :: 0 <= i < k ==> r[i] == []
  {
    if k == 0 then [] else [[]] + Blanks(k - 1)
  }

  /** The non-blank first lines of a run pass the comprehension unchanged. */
  lemma {:induction false} KeepRun(ls: seq<string>, afterBlank: bool, k: nat)
    requires k <= |ls| && (k >= 1 || !afterBlank)
    requires forall i :: 0 <= i < k ==> ls[i] != []
    ensures Keep(ls, afterBlank) == ls[..k] + Keep(ls[k..], false)
    decreases k
  {
    if k > 0 {
      var t := ls[1..];
      var rest := Keep(ls[k..], false);
      assert Keep(ls, afterBlank) == [ls[0]] + Keep(t, false);
      assert Keep(t, false) == t[..k - 1] + rest by {
        assert forall i :: 0 <= i < k - 1 ==> t[i] == ls[i + 1];
        KeepRun(t, false, k - 1);
        assert t[k - 1..] == ls[k..];
      }
      assert [ls[0]] + t[..k - 1] == ls[..k];
      assert [ls[0]] + (t[..k - 1] + rest) == ([ls[0]] + t[..k - 1]) + rest;
    } else {
      assert ls[..0] == [] && ls[0..] == ls;
    }
  }

  /** Blank lines after a blank line are dropped. */
  lemma {:induction false} KeepBlanks(ls: seq<string>, k: nat)
    requires k <= |ls| && forall i :: 0 <= i < k ==> ls[i] == []
    ensures Keep(ls, true) == Keep(ls[k..], true)
    decreases k
  {
    if k > 0 {
      assert forall i :: 0 <= i < k - 1 ==> ls[1..][i] == ls[i + 1];
      KeepBlanks(ls[1..], k - 1);
      assert ls[1..][k - 1..] == ls[k..];
    }
  }

  /** A non-blank line is kept whatever came before it. */
  lemma {:induction false} KeepResume(ls: seq<string>)
    requires ls != [] && ls[0] != []
    ensures Keep(ls, true) == Keep(ls, false) && Keep(ls, false) != []
  {
  }

  /** The lines of a block joined with "\n" neither start nor end with a line
      feed and hold no two line feeds in a row. */
  lemma {:induction false} JoinBlockShape(g: seq<string>)
    requires IsBlock(g)
    ensures var s := Join("\n", g); s != [] && s[0] != '\n' && s[|s| - 1] != '\n' && NoDoubleBreak(s)
    decreases |g|
  {
    var s := Join("\n", g);
    assert g[0][0] != '\n' && g[0][|g[0]| - 1] != '\n';
    if |g| == 1 {
      assert forall k :: 0 <= k < |s| ==> s[k] != '\n';
    } else {
      var t := Join("\n", g[1..]);
      assert IsBlock(g[1..]) by {
        assert forall j :: 0 <= j < |g[1..]| ==> g[1..][j] == g[j + 1];
      }
      JoinBlockShape(g[1..]);
      assert s == g[0] + "\n" + t;
      var h := |g[0]|;
      forall k | 0 <= k < |s| - 1 ensures !(s[k] == '\n' && s[k + 1] == '\n') {
        if k < h {
          assert s[k] == g[0][k];
        } else if k > h {
          assert s[k] == t[k - h - 1] && s[k + 1] == t[k - h];
        } else {
          assert s[k + 1] == t[0];
        }
      }
      assert s[|s| - 1] == t[|t| - 1];
    }
  }

  /** Splitting at "\n\n" when the first piece holds none and does not end
      with a line feed cuts off exactly that piece. */
  lemma {:induction false} SplitFirst(a: string, b: string)
    requires a != [] && a[|a| - 1] != '\n' && NoDoubleBreak(a)
    ensures Split(a + "\n\n" + b, "\n\n") == [a] + Split(b, "\n\n")
  {
    var s := a + "\n\n" + b;
    assert OccursAt(s, "\n\n", |a|) by {
      assert s[|a|..|a| + 2] == "\n\n";
    }
    forall j: nat | j < |a| ensures !OccursAt(s, "\n\n", j) {
      if j + 1 < |a| {
        assert s[j] == a[j] && s[j + 1] == a[j + 1];
      } else {
        assert s[j] == a[|a| - 1];
      }
      assert s[j..j + 2][0] == s[j] && s[j..j + 2][1] == s[j + 1];
    }
    var k := IndexOf(s, "\n\n");
    assert k == Some(|a|);
    assert s[..|a|] == a;
    assert s[|a| + 2..] == b;
  }

  /** Text without two line feeds in a row is one piece. */
  lemma {:induction false} SplitWhole(s: string)
    requires NoDoubleBreak(s)
    ensures Split(s, "\n\n") == [s]
  {
    forall j: nat ensures !OccursAt(s, "\n\n", j) {
      if j + 2 <= |s| {
        assert s[j..j + 2][0] == s[j] && s[j..j + 2][1] == s[j + 1];
      }
    }
  }

  /** After a run, the comprehension keeps the first blank line of the gap
      and drops the others. */
  lemma {:induction false} KeepGap(tail: seq<string>)
    requires tail != [] && tail[0] == [] && BlankLength(tail) < |tail|
    ensures Keep(tail, false) == [[]] + Keep(tail[BlankLength(tail)..], false)
    ensures Keep(tail[BlankLength(tail)..], false) != []
  {
    var b := BlankLength(tail);
    var rest := tail[b..];
    assert Keep(tail, false) == [[]] + Keep(tail[1..], true);
    assert forall i :: 0 <= i < b - 1 ==> tail[1..][i] == tail[i + 1];
    KeepBlanks(tail[1..], b - 1);
    assert tail[1..][b - 1..] == rest;
    KeepResume(rest);
  }

  /** The kept blank line between two runs becomes the separator "\n\n". */
  lemma {:induction false} JoinGap(x: seq<string>, c: seq<string>)
    requires x != [] && c != []
    ensures Join("\n", x + ([[]] + c)) == Join("\n", x) + "\n\n" + Join("\n", c)
  {
    JoinAppend("\n", x, [[]] + c);
    assert ([[]] + c)[1..] == c;
    assert Join("\n", [[]] + c) == "\n" + Join("\n", c);
  }

  /** The runs of lines that start with a run and a gap of blank lines. */
  lemma {:induction false} GroupsAfterGap(ls: seq<string>)
    requires ls != [] && ls[0] != [] && RunLength(ls) < |ls|
    ensures var n := RunLength(ls); var tail := ls[n..];
      Groups(ls) == [ls[..n]] + Groups(tail[BlankLength(tail)..])
  {
    var n := RunLength(ls);
    var tail := ls[n..];
    GroupsSkipBlanks(tail, BlankLength(tail));
  }

  /** Clean lines without a blank one are one piece, their only run. */
  lemma {:induction false} SplitOneRun(ls: seq<string>)
    requires Unbroken(ls) && ls != [] && RunLength(ls) == |ls|
    ensures Split(Join("\n", Keep(ls, false)), "\n\n") == JoinEach(Groups(ls))
  {
    var n := |ls|;
    KeepRun(ls, false, n);
    assert ls[..n] == ls && ls[n..] == [];
    assert Keep(ls, false) == ls;
    assert Groups(ls) == [ls];
    assert IsBlock(ls);
    JoinBlockShape(ls);
    SplitWhole(Join("\n", ls));
  }

  /** Joining each of a run and then the rest. */
  lemma {:induction false} JoinEachCons(g: seq<string>, gs: seq<seq<string>>)
    ensures JoinEach([g] + gs) == [Join("\n", g)] + JoinEach(gs)
  {
    assert forall i :: 1 <= i < 1 + |gs| ==> ([g] + gs)[i] == gs[i - 1];
  }

  /** Cleaned lines that start and end with a non-blank line: the pieces of
      the collapsed, joined and split text are the runs, each joined with "\n". */
  lemma {:induction false} SplitCollapsed(ls: seq<string>)
    requires Unbroken(ls) && ls != [] && ls[0] != [] && ls[|ls| - 1] != []
    ensures Split(Join("\n", Keep(ls, false)), "\n\n") == JoinEach(Groups(ls))
    decreases |ls|
  {
    var n := RunLength(ls);
    if n == |ls| {
      SplitOneRun(ls);
    } else {
      var x, tail := ls[..n], ls[n..];
      var rest := tail[BlankLength(tail)..];
      SplitGap(ls);
      SplitCollapsed(rest);
      GroupsAfterGap(ls);
      JoinEachCons(x, Groups(rest));
      assert Split(Join("\n", Keep(ls, false)), "\n\n") == [Join("\n", x)] + JoinEach(Groups(rest));
      assert JoinEach(Groups(ls)) == [Join("\n", x)] + JoinEach(Groups(rest));
    }
  }

  /** What follows the first run and the gap after it is again clean lines
      that start and end with a non-blank line, and the comprehension keeps
      one blank line in place of the gap. */
  lemma {:induction false} GapRest(ls: seq<string>)
    requires Unbroken(ls) && ls != [] && ls[0] != [] && ls[|ls| - 1] != [] && RunLength(ls) < |ls|
    ensures var n := RunLength(ls); var tail := ls[n..]; var rest := tail[BlankLength(tail)..];
      Unbroken(rest) && rest != [] && rest[0] != [] && rest[|rest| - 1] != [] && |rest| < |ls|
      && Keep(ls, false) == ls[..n] + ([[]] + Keep(rest, false))
      && Keep(rest, false) != []
  {
    var n := RunLength(ls);
    var tail := ls[n..];
    UnbrokenDrop(ls, n);
    var b := BlankLength(tail);
    assert b < |tail| by {
      assert tail[|tail| - 1] == ls[|ls| - 1];
    }
    var rest := tail[b..];
    UnbrokenDrop(tail, b);
    assert rest[|rest| - 1] == ls[|ls| - 1];
    KeepRun(ls, false, n);
    KeepGap(tail);
  }

  /** Cutting off the first run and the gap after it. */
  lemma {:induction false} SplitGap(ls: seq<string>)
    requires Unbroken(ls) && ls != [] && ls[0] != [] && ls[|ls| - 1] != [] && RunLength(ls) < |ls|
    ensures var n := RunLength(ls); var tail := ls[n..]; var rest := tail[BlankLength(tail)..];
      Unbroken(rest) && rest != [] && rest[0] != [] && rest[|rest| - 1] != [] && |rest| < |ls|
      && Split(Join("\n", Keep(ls, false)), "\n\n")
         == [Join("\n", ls[..n])] + Split(Join("\n", Keep(rest, false)), "\n\n")
  {
    var n := RunLength(ls);
    var x, tail := ls[..n], ls[n..];
    var rest := tail[BlankLength(tail)..];
    GapRest(ls);
    var c := Keep(rest, false);
    JoinGap(x, c);
    assert IsBlock(x);
    JoinBlockShape(x);
    var joined := Join("\n", x) + "\n\n" + Join("\n", c);
    assert Join("\n", Keep(ls, false)) == joined;
    SplitFirst(Join("\n", x), Join("\n", c));
    assert Split(joined, "\n\n") == [Join("\n", x)] + Split(Join("\n", c), "\n\n");
  }

  /** A non-blank character keeps its string from stripping to nothing. */
  lemma {:induction false} StripKeepsNonSpace(s: string, k: nat)
    requires k < |s| && !IsSpace(s[k])
    ensures |Strip(s)| > 0
  {
    StripShape(s);
  }

  /** Stripping keeps a slice, so it keeps a line free of breaks. */
  lemma {:induction false} StripNoLineBreak(s: string)
    requires NoLineBreak(s)
    ensures NoLineBreak(Strip(s))
  {
    StripShape(s);
    var i := |s| - |LStrip(s)|;
    var r := Strip(s);
    assert forall k :: 0 <= k < |r| ==> r[k] == s[i + k];
  }

  /** The stripped lines of a stripped text are clean, and the first and last
      of them are not blank. */
  lemma {:induction false} StrippedLinesShape(text: string)
    ensures var ls := StrippedLines(text);
      CleanLines(ls) && (ls == [] <==> Strip(text) == [])
      && (ls != [] ==> ls[0] != [] && ls[|ls| - 1] != [])
  {
    StrippedLinesClean(text);
    StrippedLinesEnds(text);
  }

  /** Every stripped line is clean. */
  lemma {:induction false} StrippedLinesClean(text: string)
    ensures CleanLines(StrippedLines(text))
  {
    var raw := SplitLines(Strip(text));
    var ls := StrippedLines(text);
    SplitLinesNoBreaks(Strip(text));
    forall j | 0 <= j < |ls| ensures Strip(ls[j]) == ls[j] && NoLineBreak(ls[j]) {
      StripIdempotent(raw[j]);
      StripNoLineBreak(raw[j]);
    }
  }

  /** Text that starts and ends with a non-space character has a first and a
      last line that do not strip to nothing. */
  lemma {:induction false} LinesEnds(s: string)
    requires |s| > 0 && !IsSpace(s[0]) && !IsSpace(s[|s| - 1])
    ensures var raw := SplitLines(s); |raw| > 0 && |Strip(raw[0])| > 0 && |Strip(raw[|raw| - 1])| > 0
  {
    var raw := SplitLines(s);
    assert !IsLineBreak(s[0]) && !IsLineBreak(s[|s| - 1]);
    SplitLinesFirst(s);
    SplitLinesLast(s);
    assert |Strip(raw[0])| > 0 by {
      StripKeepsNonSpace(raw[0], 0);
    }
    var last := raw[|raw| - 1];
    assert |Strip(last)| > 0 by {
      StripKeepsNonSpace(last, |last| - 1);
    }
  }

  /** Text that is not blank has stripped lines whose first and last are not blank. */
  lemma {:induction false} StrippedLinesEnds(text: string)
    ensures var ls := StrippedLines(text);
      (|ls| == 0 <==> |Strip(text)| == 0) && (|ls| > 0 ==> |ls[0]| > 0 && |ls[|ls| - 1]| > 0)
  {
    var s := Strip(text);
    var ls := StrippedLines(text);
    if |s| > 0 {
      StripEndsNotSpace(text);
      LinesEnds(s);
      var raw := SplitLines(s);
      var last := |raw| - 1;
      assert |ls| == |raw| > 0;
      StrippedLineAt(text, 0);
      StrippedLineAt(text, last);
    } else {
      assert s == [];
      assert SplitLines(s) == [];
    }
  }

  lemma StrippedLineAt(text: string, j: nat)
    requires j < |SplitLines(Strip(text))|
    ensures j < |StrippedLines(text)| && StrippedLines(text)[j] == Strip(SplitLines(Strip(text))[j])
  {
  }

  /** Stripped text neither starts nor ends with whitespace. */
  lemma {:induction false} StripEndsNotSpace(text: string)
    requires Strip(text) != []
    ensures !IsSpace(Strip(text)[0]) && !IsSpace(Strip(text)[|Strip(text)| - 1])
  {
    StripShape(text);
  }

  /** `parse_test_data` returns the blocks of the text: its maximal runs of
      non-blank (stripped) lines, each joined with "\n". */
  lemma {:induction false} ParseTestDataBlocks(text: string)
    ensures ParseTestData(text) == JoinEach(Groups(StrippedLines(text)))
    ensures forall i :: 0 <= i < |Groups(StrippedLines(text))| ==> IsBlock(Groups(StrippedLines(text))[i])
  {
    var ls := StrippedLines(text);
    StrippedLinesShape(text);
    GroupsAreBlocks(ls);
    if ls != [] {
      CollapseKeeps(ls, false);
      SplitCollapsed(ls);
    }
  }

  /** Empty or whitespace-only text holds no test sets. */
  lemma {:induction false} ParseBlankText(text: string)
    requires forall i :: 0 <= i < |text| ==> IsSpace(text[i])
    ensures ParseTestData(text) == []
  {
    StripAllSpace(text);
  }

  /** No block is empty, and none holds a blank line. */
  lemma {:induction false} BlocksNotEmpty(text: string)
    ensures |ParseTestData(text)| == |Groups(StrippedLines(text))|
    ensures forall i :: 0 <= i < |ParseTestData(text)| ==>
      ParseTestData(text)[i] != [] && SplitLines(ParseTestData(text)[i]) == Groups(StrippedLines(text))[i]
  {
    ParseTestDataBlocks(text);
    var gs := Groups(StrippedLines(text));
    forall i | 0 <= i < |gs|
      ensures Join("\n", gs[i]) != [] && SplitLines(Join("\n", gs[i])) == gs[i]
    {
      JoinBlockShape(gs[i]);
      SplitLinesOfJoin(gs[i]);
    }
  }

  // ---------------------------------------------------------------------------
  // parse_test_data_as_lines

  /** `[json.loads(line) for line in lines]`, where `decode` stands for
      `json.loads` (`None` for text that is not JSON). */
  function DecodeLines(ls: seq<string>, decode: string -> Option<Value>): (r: Result<seq<Value>>)
    ensures r.Ok? <==> forall j :: 0 <= j < |ls| ==> decode(ls[j]).Some?
    ensures r.Ok? ==> |r.value| == |ls| && forall j :: 0 <= j < |ls| ==> r.value[j] == decode(ls[j]).value
    ensures r.Err? ==> r.error == JsonDecodeError
  {
    if ls == [] then Ok([])
    else
      match decode(ls[0])
      case None => Err(JsonDecodeError)
      case Some(v) =>
        var rest := DecodeLines(ls[1..], decode);
        assert forall j :: 1 <= j < |ls| ==> ls[j] == ls[1..][j - 1];
        if rest.Err? then rest else Ok([v] + rest.value)
  }

  /** `block.splitlines()` of each block. */
  function LinesOfEach(bs: seq<string>): (ls: seq<seq<string>>)
    ensures |ls| == |bs| && forall i :: 0 <= i < |bs| ==> ls[i] == SplitLines(bs[i])
  {
    seq(|bs|, i requires 0 <= i < |bs| => SplitLines(bs[i]))
  }

  /** The decoded lines of each block. */
  function DecodeBlocks(ls: seq<seq<string>>, decode: string -> Option<Value>): (r: Result<seq<seq<Value>>>)
    ensures r.Ok? <==> forall i :: 0 <= i < |ls| ==> DecodeLines(ls[i], decode).Ok?
    ensures r.Ok? ==> |r.value| == |ls| && forall i :: 0 <= i < |ls| ==> r.value[i] == DecodeLines(ls[i], decode).value
    ensures r.Err? ==> r.error == JsonDecodeError
  {
    if ls == [] then Ok([])
    else
      var first :- DecodeLines(ls[0], decode);
      var rest := DecodeBlocks(ls[1..], decode);
      assert forall i :: 1 <= i < |ls| ==> ls[i] == ls[1..][i - 1];
      if rest.Err? then rest else Ok([first] + rest.value)
  }

  /** `parse_test_data_as_lines(test_data)`: one list per block, holding one
      decoded value per line. */
  function ParseAsLines(text: string, decode: string -> Option<Value>): (r: Result<seq<seq<Value>>>)
  {
    var blocks := ParseTestData(text);
    if blocks == [] then Ok([]) else DecodeBlocks(LinesOfEach(blocks), decode)
  }

  /** The lines of each joined run are the run's own lines. */
  lemma {:induction false} LinesOfJoined(gs: seq<seq<string>>)
    requires forall i :: 0 <= i < |gs| ==> IsBlock(gs[i])
    ensures LinesOfEach(JoinEach(gs)) == gs
  {
    var bs := JoinEach(gs);
    forall i | 0 <= i < |gs| ensures SplitLines(bs[i]) == gs[i] {
      SplitLinesOfJoin(gs[i]);
    }
  }

  /** Test set `i` holds the decoded lines of the `i`-th run of non-blank
      lines, in order; the text fails to parse exactly when one of those lines
      is not JSON. */
  lemma {:induction false} ParseAsLinesGroups(text: string, decode: string -> Option<Value>)
    ensures var gs, r := Groups(StrippedLines(text)), ParseAsLines(text, decode);
      (r.Ok? <==> forall i, j :: 0 <= i < |gs| && 0 <= j < |gs[i]| ==> decode(gs[i][j]).Some?)
      && (r.Err? ==> r.error == JsonDecodeError)
      && (r.Ok? ==> |r.value| == |gs| && forall i :: 0 <= i < |gs| ==> r.value[i] == DecodeLines(gs[i], decode).value)
  {
    ParseTestDataBlocks(text);
    LinesOfJoined(Groups(StrippedLines(text)));
  }

  // ---------------------------------------------------------------------------
  // parse_test_data_as_stream

  /** Blocks paired in order as (input, output); a last block without a
      partner is paired with "". */
  function PairBlocks(bs: seq<string>): (pairs: seq<(string, string)>)
    ensures |pairs| == (|bs| + 1) / 2
    ensures forall j :: 0 <= j < |pairs| ==>
      pairs[j].0 == bs[2 * j] && pairs[j].1 == (if 2 * j + 1 < |bs| then bs[2 * j + 1] else "")
    decreases |bs|
  {
    if bs == [] then []
    else if |bs| == 1 then [(bs[0], "")]
    else
      var rest := PairBlocks(bs[2..]);
      assert forall j :: 1 <= j < 1 + |rest| ==> bs[2 * j] == bs[2..][2 * (j - 1)];
      assert forall j :: 1 <= j < 1 + |rest| && 2 * j + 1 < |bs| ==> bs[2 * j + 1] == bs[2..][2 * (j - 1) + 1];
      [(bs[0], bs[1])] + rest
  }

  /** `parse_test_data_as_stream(test_data)`: the blocks, padded with "" to an
      even count, paired as (input, output). */
  function ParseAsStream(text: string): (pairs: seq<(string, string)>)
  {
    PairBlocks(ParseTestData(text))
  }

  // ---------------------------------------------------------------------------
  // proc_args_by_func

  /** `node_class.__name__ in annotation or node_class.ALT_NAME in annotation`. */
  predicate Mentions(text: string, k: NodeKind) {
    Contains(text, Nodes.ClassName(k)) || Contains(text, Nodes.AltName(k))
  }

  /** The position, from `i` on, of the first kind in `ks` that satisfies `p`. */
  function FirstFrom(ks: seq<NodeKind>, p: NodeKind -> bool, i: nat): (c: Option<nat>)
    requires i <= |ks|
    ensures c.None? <==> forall j :: i <= j < |ks| ==> !p(ks[j])
    ensures c.Some? ==> i <= c.value < |ks| && p(ks[c.value])
    ensures c.Some? ==> forall j :: i <= j < c.value ==> !p(ks[j])
    decreases |ks| - i
  {
    if i == |ks| then None
    else if p(ks[i]) then Some(i)
    else FirstFrom(ks, p, i + 1)
  }

  /** The node class the loop of `proc_args_by_func` stops at for an
      annotation: the first class of `registry` (`get_node_classes()`, in the
      order the classes were defined) that the annotation text mentions. */
  function ClaimIndex(registry: seq<NodeKind>, text: string): (c: Option<nat>)
    ensures c.None? <==> forall j :: 0 <= j < |registry| ==> !Mentions(text, registry[j])
    ensures c.Some? ==> c.value < |registry| && Mentions(text, registry[c.value])
    ensures c.Some? ==> forall j :: 0 <= j < c.value ==> !Mentions(text, registry[j])
  {
    FirstFrom(registry, k => Mentions(text, k), 0)
  }

  /** `x` is the first element that fails to marshal, with error `e`. */
  predicate FailsFirstAt(k: NodeKind, xs: seq<Value>, i: nat, e: Error) {
    i < |xs| && Nodes.Marshal(k, xs[i]) == Err(e)
    && forall j :: 0 <= j < i ==> Nodes.Marshal(k, xs[j]).Ok?
  }

  /** `[node_class.from_list(x) or [] for x in arg]`. */
  function MarshalEach(k: NodeKind, xs: seq<Value>): (r: Result<seq<Value>>)
    ensures r.Ok? <==> forall i :: 0 <= i < |xs| ==> Nodes.Marshal(k, xs[i]).Ok?
    ensures r.Ok? ==> |r.value| == |xs| && forall i :: 0 <= i < |xs| ==> r.value[i] == Nodes.Marshal(k, xs[i]).value
    ensures r.Err? ==> exists i :: FailsFirstAt(k, xs, i, r.error)
  {
    if xs == [] then Ok([])
    else
      var first := Nodes.Marshal(k, xs[0]);
      if first.Err? then
        assert FailsFirstAt(k, xs, 0, first.error);
        Err(first.error)
      else
        var rest := MarshalEach(k, xs[1..]);
        assert forall i :: 1 <= i < |xs| ==> xs[i] == xs[1..][i - 1];
        if rest.Err? then
          var i: nat :| FailsFirstAt(k, xs[1..], i, rest.error);
          assert FailsFirstAt(k, xs, i + 1, rest.error);
          rest
        else Ok([first.value] + rest.value)
  }

  /** The conversion of one argument claimed by class `k`: a non-empty
      argument whose first element is a sequence is a list of structures,
      anything else is one structure; `len` and `arg[0]` raise on values
      that do not support them. */
  function MarshalArgument(k: NodeKind, arg: Value): (r: Result<Value>)
    ensures Len(arg).Err? ==> r == Err(TypeError)
    ensures r.Ok? && r.value.VNode? ==> r.value.kind == k
  {
    var n :- Len(arg);
    if n != 0 then
      var first :- Subscript(arg, 0);
      if IsSequence(first) then
        var ys :- MarshalEach(k, Iterate(arg).value);
        Ok(VList(ys))
      else Nodes.Marshal(k, arg)
    else Nodes.Marshal(k, arg)
  }

  /** The conversion of one argument under its parameter's annotation. */
  function ProcArg(registry: seq<NodeKind>, p: Param, arg: Value): (r: Result<Value>)
    ensures (forall k :: k in registry ==> !Mentions(AnnotationText(p.annotation), k)) ==> r == Ok(arg)
    ensures r.Ok? && r.value.VNode? && r.value != arg ==> r.value.kind in registry
  {
    match ClaimIndex(registry, AnnotationText(p.annotation))
    case None => Ok(arg)
    case Some(c) => MarshalArgument(registry[c], arg)
  }

  /** Argument `i` is the first whose conversion fails, with error `e`. */
  predicate ArgFailsFirstAt(convert: (Param, Value) -> Result<Value>, params: seq<Param>, args: seq<Value>, i: nat, e: Error) {
    i < |args| && i < |params| && convert(params[i], args[i]) == Err(e)
    && forall j :: 0 <= j < i ==> convert(params[j], args[j]).Ok?
  }

  /** The loop of `proc_args_by_func` over `zip(args, signatures)`, for a
      conversion `convert` of one argument under its parameter. */
  method ConvertArgs(convert: (Param, Value) -> Result<Value>, params: seq<Param>, args: seq<Value>) returns (r: Result<seq<Value>>)
    ensures r.Ok? <==> forall i :: 0 <= i < |args| && i < |params| ==> convert(params[i], args[i]).Ok?
    ensures r.Ok? ==> |r.value| == |args|
    ensures r.Ok? ==> forall i :: 0 <= i < |args| && i < |params| ==> r.value[i] == convert(params[i], args[i]).value
    ensures r.Ok? ==> forall i :: |params| <= i < |args| ==> r.value[i] == args[i]
    ensures r.Err? ==> exists i :: ArgFailsFirstAt(convert, params, args, i, r.error)
  {
    var out := args;
    var i := 0;
    while i < |args| && i < |params|
      invariant 0 <= i <= |args| && i <= |params| && |out| == |args|
      invariant forall j :: 0 <= j < i ==> convert(params[j], args[j]).Ok?
      invariant forall j :: 0 <= j < i ==> out[j] == convert(params[j], args[j]).value
      invariant forall j :: i <= j < |args| ==> out[j] == args[j]
    {
      var converted := convert(params[i], args[i]);
      if converted.Err? {
        assert ArgFailsFirstAt(convert, params, args, i, converted.error);
        return Err(converted.error);
      }
      out := out[i := converted.value];
      i := i + 1;
    }
    return Ok(out);
  }

  /** `proc_args_by_func(args, func)`: the arguments, each one that lines up
      with a parameter whose annotation mentions a node class converted into
      that class; arguments past the last parameter stay as they are. */
  method ProcArgs(registry: seq<NodeKind>, params: seq<Param>, args: seq<Value>) returns (r: Result<seq<Value>>)
    ensures r.Ok? <==> forall i :: 0 <= i < |args| && i < |params| ==> ProcArg(registry, params[i], args[i]).Ok?
    ensures r.Ok? ==> |r.value| == |args|
    ensures r.Ok? ==> forall i :: 0 <= i < |args| && i < |params| ==> r.value[i] == ProcArg(registry, params[i], args[i]).value
    ensures r.Ok? ==> forall i :: |params| <= i < |args| ==> r.value[i] == args[i]
    ensures r.Err? ==> exists i :: ProcArgFailsFirstAt(registry, params, args, i, r.error)
    ensures r == MarshalArgs(registry, params, args)
  {
    var convert := Converter(registry);
    r := ConvertArgs(convert, params, args);
    ConverterIs(registry);
    ConvertAllOk(convert, params, args);
    var m := MarshalArgs(registry, params, args);
    if r.Err? {
      var i :| ArgFailsFirstAt(convert, params, args, i, r.error);
      assert ProcArgFailsFirstAt(registry, params, args, i, r.error);
      ConvertAllErr(convert, params, args);
      FirstFailureUnique(convert, params, args, i, r.error, FirstFailure(convert, params, args), m.error);
    } else {
      ConvertAllValues(convert, params, args);
      assert r.value == m.value;
    }
  }

  lemma ConverterIs(registry: seq<NodeKind>)
    ensures forall p, a :: Converter(registry)(p, a) == ProcArg(registry, p, a)
  {
  }

  /** The conversion of one argument under its parameter's annotation, as a
      function value. */
  function Converter(registry: seq<NodeKind>): (Param, Value) -> Result<Value> {
    (p: Param, a: Value) => ProcArg(registry, p, a)
  }

  /** `proc_args_by_func` as a value: the conversions of the arguments that
      line up with a parameter, the remaining arguments unchanged, or the
      first conversion error. */
  function MarshalArgs(registry: seq<NodeKind>, params: seq<Param>, args: seq<Value>): Result<seq<Value>> {
    ConvertAll(Converter(registry), params, args)
  }

  /** The arguments with those that line up with a parameter converted by
      `convert`, or the first conversion error. */
  function ConvertAll(convert: (Param, Value) -> Result<Value>, params: seq<Param>, args: seq<Value>): Result<seq<Value>>
    decreases |args|
  {
    if args == [] || params == [] then Ok(args)
    else
      var first :- convert(params[0], args[0]);
      var rest :- ConvertAll(convert, params[1..], args[1..]);
      Ok([first] + rest)
  }

  /** `MarshalArgs` succeeds exactly when every argument that lines up with a
      parameter converts. */
  lemma MarshalArgsOk(registry: seq<NodeKind>, params: seq<Param>, args: seq<Value>)
    ensures MarshalArgs(registry, params, args).Ok? <==> forall i :: 0 <= i < |args| && i < |params| ==> ProcArg(registry, params[i], args[i]).Ok?
  {
    ConvertAllOk(Converter(registry), params, args);
  }

  lemma {:induction false} ConvertAllOk(convert: (Param, Value) -> Result<Value>, params: seq<Param>, args: seq<Value>)
    ensures ConvertAll(convert, params, args).Ok? <==> forall i :: 0 <= i < |args| && i < |params| ==> convert(params[i], args[i]).Ok?
    decreases |args|
  {
    if args != [] && params != [] && convert(params[0], args[0]).Ok? {
      ConvertAllOk(convert, params[1..], args[1..]);
      assert forall i :: 1 <= i < |args| && i < |params| ==> args[i] == args[1..][i - 1] && params[i] == params[1..][i - 1];
    }
  }

  /** Argument `i` is one `proc_args_by_func` replaces with a node
      structure: it lines up with a parameter whose annotation names a
      registered node class. The copy of the argument list holds every
      other argument as the same object. */
  predicate Replaced(registry: seq<NodeKind>, params: seq<Param>, i: nat) {
    i < |params| && ClaimIndex(registry, AnnotationText(params[i].annotation)).Some?
  }

  /** A successful `MarshalArgs` passes every argument it does not replace
      on unchanged. */
  lemma {:induction false} MarshalKeepsOthers(registry: seq<NodeKind>, params: seq<Param>, args: seq<Value>)
    requires MarshalArgs(registry, params, args).Ok?
    ensures var out := MarshalArgs(registry, params, args).value;
      |out| == |args| && forall i :: 0 <= i < |args| && !Replaced(registry, params, i) ==> out[i] == args[i]
  {
    MarshalArgsValues(registry, params, args);
  }

  /** A successful `MarshalArgs` holds the conversions of the arguments that
      line up with a parameter and the other arguments unchanged. */
  lemma MarshalArgsValues(registry: seq<NodeKind>, params: seq<Param>, args: seq<Value>)
    requires MarshalArgs(registry, params, args).Ok?
    ensures var out := MarshalArgs(registry, params, args).value;
      |out| == |args|
      && (forall i :: 0 <= i < |args| && i < |params| ==> ProcArg(registry, params[i], args[i]) == Ok(out[i]))
      && (forall i :: |params| <= i < |args| ==> out[i] == args[i])
  {
    ConvertAllValues(Converter(registry), params, args);
  }

  lemma {:induction false} ConvertAllValues(convert: (Param, Value) -> Result<Value>, params: seq<Param>, args: seq<Value>)
    requires ConvertAll(convert, params, args).Ok?
    ensures var out := ConvertAll(convert, params, args).value;
      |out| == |args|
      && (forall i :: 0 <= i < |args| && i < |params| ==> convert(params[i], args[i]) == Ok(out[i]))
      && (forall i :: |params| <= i < |args| ==> out[i] == args[i])
    decreases |args|
  {
    if args != [] && params != [] {
      ConvertAllValues(convert, params[1..], args[1..]);
      assert forall i :: 1 <= i < |args| ==> args[i] == args[1..][i - 1];
      assert forall i :: 1 <= i < |params| ==> params[i] == params[1..][i - 1];
    }
  }

  /** A failing `MarshalArgs` fails with the first failing conversion. */
  lemma MarshalArgsErr(registry: seq<NodeKind>, params: seq<Param>, args: seq<Value>)
    requires MarshalArgs(registry, params, args).Err?
    ensures ProcArgFailsFirstAt(registry, params, args, FirstFailure(Converter(registry), params, args), MarshalArgs(registry, params, args).error)
  {
    ConvertAllErr(Converter(registry), params, args);
  }

  lemma {:induction false} ConvertAllErr(convert: (Param, Value) -> Result<Value>, params: seq<Param>, args: seq<Value>)
    requires ConvertAll(convert, params, args).Err?
    ensures ArgFailsFirstAt(convert, params, args, FirstFailure(convert, params, args), ConvertAll(convert, params, args).error)
    decreases |args|
  {
    if convert(params[0], args[0]).Ok? {
      ConvertAllErr(convert, params[1..], args[1..]);
      var i := FirstFailure(convert, params[1..], args[1..]);
      assert args[i + 1] == args[1..][i] && params[i + 1] == params[1..][i];
      forall j | 1 <= j < i + 1
        ensures convert(params[j], args[j]).Ok?
      {
        assert args[j] == args[1..][j - 1] && params[j] == params[1..][j - 1];
      }
    }
  }

  /** The index of the first argument whose conversion fails (or past the
      arguments when none does). */
  function FirstFailure(convert: (Param, Value) -> Result<Value>, params: seq<Param>, args: seq<Value>): nat
    decreases |args|
  {
    if args == [] || params == [] || convert(params[0], args[0]).Err? then 0
    else 1 + FirstFailure(convert, params[1..], args[1..])
  }

  /** At most one argument is the first to fail. */
  lemma {:induction false} FirstFailureUnique(convert: (Param, Value) -> Result<Value>, params: seq<Param>, args: seq<Value>, i: nat, e: Error, j: nat, e': Error)
    requires ArgFailsFirstAt(convert, params, args, i, e)
    requires ArgFailsFirstAt(convert, params, args, j, e')
    ensures i == j && e == e'
  {
  }

  /** Argument `i` is the first that fails to convert, with error `e`. */
  predicate ProcArgFailsFirstAt(registry: seq<NodeKind>, params: seq<Param>, args: seq<Value>, i: nat, e: Error) {
    ArgFailsFirstAt(Converter(registry), params, args, i, e)
  }

  /** JSON `null` for a node parameter raises `TypeError` (`len(None)`). */
  lemma {:induction false} ProcArgNull(registry: seq<NodeKind>, p: Param)
    requires exists k :: k in registry && Mentions(AnnotationText(p.annotation), k)
    ensures ProcArg(registry, p, VNull) == Err(TypeError)
  {
    var k :| k in registry && Mentions(AnnotationText(p.annotation), k);
    var j :| 0 <= j < |registry| && registry[j] == k;
    assert ClaimIndex(registry, AnnotationText(p.annotation)).Some?;
  }

  /** A list of lists for a node parameter becomes a list of structures, one
      per inner list. */
  lemma {:induction false} ProcArgNested(k: NodeKind, xs: seq<Value>)
    requires xs != [] && IsSequence(xs[0]) && forall i :: 0 <= i < |xs| ==> Nodes.Marshal(k, xs[i]).Ok?
    ensures var r := MarshalArgument(k, VList(xs));
      r.Ok? && r.value.VList? && |r.value.items| == |xs|
      && forall i :: 0 <= i < |xs| ==> r.value.items[i] == Nodes.Marshal(k, xs[i]).value
  {
    assert Subscript(VList(xs), 0) == Ok(xs[0]);
  }

  /** The binary tree class's `ALT_NAME` "TreeNode" is a substring of
      "NTreeNode": when the binary tree class comes before the n-ary tree class
      in the registry, an `NTreeNode` annotation is claimed by the binary tree. */
  lemma {:induction false} NTreeClaimedByBinary()
    ensures ClaimIndex([ListNodeKind, BinaryTreeKind, NTreeKind], "NTreeNode") == Some(1)
  {
    var text := "NTreeNode";
    assert OccursAt(text, "TreeNode", 1) by {
      assert text[1..9] == "TreeNode";
    }
    assert Contains(text, "TreeNode");
    AbsentByFirstChar(text, "ListNode");
    assert !Contains(text, "ListNode");
  }

  // ---------------------------------------------------------------------------
  // proc_test_result

  /** The annotation test of `proc_test_result` for a `None` result: the
      class's `__name__` occurs in the return annotation, or with `alsoAlt`
      its `ALT_NAME` does. */
  predicate MarksEmpty(text: string, k: NodeKind, alsoAlt: bool) {
    Contains(text, Nodes.ClassName(k)) || (alsoAlt && Contains(text, Nodes.AltName(k)))
  }

  /** The loop of `proc_test_result` over the node classes: a node of a
      registered class gives its `to_list`, a `None` result under an
      annotation that marks a registered class gives `[]`, anything else is
      returned as it is. */
  function ConvertResult(registry: seq<NodeKind>, value: Value, text: string, alsoAlt: bool): (r: Value)
    ensures value.VNode? ==> r == (if value.kind in registry then VList(value.items) else value)
    ensures value.VNull? ==> r == (if exists k :: k in registry && MarksEmpty(text, k, alsoAlt) then VList([]) else VNull)
    ensures !value.VNode? && !value.VNull? ==> r == value
  {
    if registry == [] then value
    else
      var k := registry[0];
      assert forall k' :: k' in registry <==> k' == k || k' in registry[1..];
      if value.VNode? && value.kind == k then VList(value.items)
      else if value.VNull? && MarksEmpty(text, k, alsoAlt) then VList([])
      else ConvertResult(registry[1..], value, text, alsoAlt)
  }

  /** `proc_test_result(value, func)` as the code reads: a `None` result
      becomes `[]` only when the return annotation holds a node class's
      `__name__`. */
  function ProcTestResultAsWritten(registry: seq<NodeKind>, f: PyFunction, value: Value): Value {
    ConvertResult(registry, value, AnnotationText(f.returnAnnotation), false)
  }

  /** `proc_test_result(value, func)` with the annotation test of
      `proc_args_by_func`, which also accepts the `ALT_NAME`. */
  function ProcTestResult(registry: seq<NodeKind>, f: PyFunction, value: Value): Value {
    ConvertResult(registry, value, AnnotationText(f.returnAnnotation), true)
  }

  /** A result that is not a node and not `None` is compared as it is; a
      node result is compared by its `to_list`. */
  lemma {:induction false} ProcTestResultShape(registry: seq<NodeKind>, f: PyFunction, value: Value)
    requires value.VNode? ==> value.kind in registry
    ensures value.VNode? ==> ProcTestResult(registry, f, value) == VList(value.items)
    ensures !value.VNode? && !value.VNull? ==> ProcTestResult(registry, f, value) == value
    ensures value.VNull? ==> ProcTestResult(registry, f, value) in {VNull, VList([])}
    ensures ProcTestResultAsWritten(registry, f, value) != ProcTestResult(registry, f, value) ==> value.VNull?
  {
  }

  /** Whenever the corrected conversion and the one as written differ, the
      corrected one gives `[]` and the one as written leaves `None`, which
      compares unequal to `[]`. */
  lemma {:induction false} ProcTestResultOnlyAdds(registry: seq<NodeKind>, f: PyFunction, value: Value)
    requires ProcTestResultAsWritten(registry, f, value) != ProcTestResult(registry, f, value)
    ensures value == VNull && ProcTestResultAsWritten(registry, f, value) == VNull
    ensures ProcTestResult(registry, f, value) == VList([])
    ensures !PyEq(ProcTestResultAsWritten(registry, f, value), ProcTestResult(registry, f, value))
  {
    MarksEmptyAlt(registry, AnnotationText(f.returnAnnotation));
  }

  /** A class whose `__name__` occurs in the text still marks it when
      `ALT_NAME` is also accepted. */
  lemma {:induction false} MarksEmptyAlt(registry: seq<NodeKind>, text: string)
    ensures (exists k :: k in registry && MarksEmpty(text, k, false)) ==> exists k :: k in registry && MarksEmpty(text, k, true)
  {
    if exists k :: k in registry && MarksEmpty(text, k, false) {
      var k :| k in registry && MarksEmpty(text, k, false);
      assert MarksEmpty(text, k, true);
    }
  }

  /** The return annotation LeetCode's scaffolding produces for a binary tree
      result, `Optional['TreeNode']`, as `str()` prints it. */
  const ScaffoldedTreeText: string := "typing.Optional[ForwardRef('TreeNode')]"

  /** `p` cannot occur in `a + b` when its first character is not in `a` and
      `b` is shorter than `p`. */
  lemma {:induction false} AbsentAcross(a: string, b: string, p: string)
    requires |p| > 0 && p[0] !in a && |b| < |p|
    ensures !Contains(a + b, p)
  {
    var s := a + b;
    forall j: nat ensures !OccursAt(s, p, j) {
      if j < |a| && j + |p| <= |s| {
        assert s[j..j + |p|][0] == a[j];
      }
    }
  }

  /** The scaffolded text holds the binary tree class's `ALT_NAME`. */
  lemma {:induction false} ScaffoldedHasAlt()
    ensures Contains(ScaffoldedTreeText, "TreeNode")
  {
    var t := ScaffoldedTreeText;
    assert t[28..36] == "TreeNode";
    assert OccursAt(t, "TreeNode", 28);
  }

  /** The scaffolded text holds no node class's `__name__`. */
  lemma {:induction false} ScaffoldedLacksNames()
    ensures forall k :: !Contains(ScaffoldedTreeText, Nodes.ClassName(k))
  {
    ScaffoldedLacksListNode();
    ScaffoldedLacksBinaryTreeNode();
    ScaffoldedLacksNTreeNode();
  }

  lemma {:induction false} ScaffoldedLacksListNode()
    ensures !Contains(ScaffoldedTreeText, "ListNode")
  {
    AbsentByFirstChar(ScaffoldedTreeText, "ListNode");
  }

  lemma {:induction false} ScaffoldedLacksBinaryTreeNode()
    ensures !Contains(ScaffoldedTreeText, "BinaryTreeNode")
  {
    AbsentByFirstChar(ScaffoldedTreeText, "BinaryTreeNode");
  }

  /** "NTreeNode" would have to start before the last seven characters, where
      the text has no 'N'. */
  lemma {:induction false} ScaffoldedLacksNTreeNode()
    ensures !Contains(ScaffoldedTreeText, "NTreeNode")
  {
    var t := ScaffoldedTreeText;
    var a, b := "typing.Optional[ForwardRef('Tree", "Node')]";
    assert t == a + b;
    AbsentAcross(a, b, "NTreeNode");
  }

  /** An empty tree returned by a scaffolded LeetCode solution is `None`; as
      written it stays `None` and fails against the expected `[]`, while the
      corrected conversion gives `[]`. */
  lemma {:induction false} EmptyTreeResult(registry: seq<NodeKind>, f: PyFunction)
    requires BinaryTreeKind in registry && f.returnAnnotation == UnionOf(ScaffoldedTreeText)
    ensures ProcTestResultAsWritten(registry, f, VNull) == VNull
    ensures ProcTestResult(registry, f, VNull) == VList([])
    ensures !PyEq(ProcTestResultAsWritten(registry, f, VNull), VList([]))
  {
    ScaffoldedHasAlt();
    ScaffoldedLacksNames();
    assert MarksEmpty(ScaffoldedTreeText, BinaryTreeKind, true);
  }

  // ---------------------------------------------------------------------------
  // get_header

  /** `s * k` for a string `s`. */
  function Repeat(s: string, k: nat): (r: string)
    ensures |r| == k * |s|
    ensures |s| == 1 ==> forall i :: 0 <= i < |r| ==> r[i] == s[0]
  {
    if k == 0 then [] else s + Repeat(s, k - 1)
  }

  /** The fill characters `get_header` puts on the left of the name: half the
      width left over, or none when there is none left over. */
  function LeftFill(name: string, width: int): (q: nat)
  {
    var slack := width - |Strip(name)| - 6;
    if slack / 2 > 0 then slack / 2 else 0
  }

  /** One extra fill character on the right when `divmod(slack, 2)` gives a
      non-zero quotient and remainder, for negative slack too. */
  function RightExtra(name: string, width: int): (e: nat)
  {
    var slack := width - |Strip(name)| - 6;
    if slack / 2 != 0 && slack % 2 != 0 then 1 else 0
  }

  /** `get_header(name, width, line_char)`: the stripped name between
      " [ " and " ] ", with fill characters around it. */
  function GetHeader(name: string, width: int, fill: string): string
  {
    var n := Strip(name);
    var linesWidth, d := (width - |n| - 6) / 2, (width - |n| - 6) % 2;
    var left := Repeat(fill, if linesWidth > 0 then linesWidth else 0);
    var right := left + (if linesWidth != 0 && d != 0 then fill else "");
    left + " [ " + n + " ] " + right
  }

  /** With a one-character fill the banner is exactly `width` wide, except
      that one column short of room for a fill character on each side it is
      one narrower, and a name too wide for the banner is printed whole, with
      one fill character after it when the overflow is odd (`divmod(-1, 2)`
      is `(-1, 1)`, a true quotient). */
  lemma {:induction false} HeaderWidth(name: string, width: int, fill: string)
    requires |fill| == 1
    ensures var slack, r := width - |Strip(name)| - 6, GetHeader(name, width, fill);
      (slack == 0 || slack >= 2 ==> |r| == width)
      && (slack == 1 ==> |r| == width - 1)
      && (slack < 0 ==> |r| == |Strip(name)| + 6 + (if slack % 2 != 0 then 1 else 0))
  {
    var slack := width - |Strip(name)| - 6;
    if slack >= 2 {
      assert slack == 2 * (slack / 2) + slack % 2;
    }
  }

  /** The banner as its three parts. */
  lemma {:induction false} HeaderParts(name: string, width: int, fill: string)
    ensures var q := LeftFill(name, width);
      GetHeader(name, width, fill)
      == Repeat(fill, q) + (" [ " + Strip(name) + " ] ") + (Repeat(fill, q) + (if RightExtra(name, width) == 1 then fill else ""))
  {
  }

  /** With a one-character fill the banner is fill characters, " [ ", the
      stripped name, " ] " and fill characters, the right run as long as the
      left one or one longer. */
  lemma {:induction false} HeaderLayout(name: string, width: int, fill: string)
    requires |fill| == 1
    ensures var n, q, e, r := Strip(name), LeftFill(name, width), RightExtra(name, width), GetHeader(name, width, fill);
      |r| == q + |n| + 6 + q + e
      && (forall i :: 0 <= i < q ==> r[i] == fill[0])
      && r[q..q + |n| + 6] == " [ " + n + " ] "
      && (forall i :: q + |n| + 6 <= i < |r| ==> r[i] == fill[0])
  {
    var n, q, e := Strip(name), LeftFill(name, width), RightExtra(name, width);
    var left, mid := Repeat(fill, q), " [ " + n + " ] ";
    var right := Repeat(fill, q) + (if e == 1 then fill else "");
    HeaderParts(name, width, fill);
    var r := left + mid + right;
    assert GetHeader(name, width, fill) == r;
    FillRun(fill, q, e == 1);
    assert |left| == q && |mid| == |n| + 6 && |right| == q + e;
    forall i | 0 <= i < q ensures r[i] == fill[0] {
      assert r[i] == left[i];
    }
    assert r[q..q + |n| + 6] == mid;
    forall i | q + |n| + 6 <= i < |r| ensures r[i] == fill[0] {
      assert r[i] == right[i - q - |n| - 6];
    }
  }

  /** A run of `k` one-character fills, with one more when `extra`. */
  lemma {:induction false} FillRun(fill: string, k: nat, extra: bool)
    requires |fill| == 1
    ensures var run := Repeat(fill, k) + (if extra then fill else "");
      |Repeat(fill, k)| == k && |run| == k + (if extra then 1 else 0)
      && forall i :: 0 <= i < |run| ==> run[i] == fill[0]
  {
    var rep := Repeat(fill, k);
    assert |rep| == k * 1 == k;
    var run := rep + (if extra then fill else "");
    forall i | 0 <= i < |run| ensures run[i] == fill[0] {
      if i < k {
        assert run[i] == rep[i];
      }
    }
  }

}

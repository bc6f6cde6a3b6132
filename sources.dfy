/**
 * The problem sources `src/sources/codeforces.py` and
 * `src/sources/leetcode.py`: the problem URL of a slug, the slug of a
 * problem URL, and how a slug picks the lookup that loads the problem.
 *
 * A slug is found with `re.findall` and a pattern made of a literal part
 * (whose unescaped `.` matches any character but a newline) and a greedy
 * run of a character class; the pattern is tried at each position from the
 * left and the first match is used. The lookups themselves go over the
 * network and are a parameter.
 */
module Sources {
  import opened Wrappers
  import opened Values
  import opened PyStr

  // ---------------------------------------------------------------------------
  // the two patterns

  /** The two sources. */
  datatype Site = Codeforces | Leetcode

  /** `CODEFORCES_URL + "/problemset/problem/"` and `LEETCODE_URL + "/problems/"`:
      the text in front of a slug in a problem URL, and the literal part of
      the URL pattern. */
  function Prefix(site: Site): string {
    match site
    case Codeforces => "https://codeforces.com/problemset/problem/"
    case Leetcode => "https://leetcode.com/problems/"
  }

  /** A character of the literal part of a pattern matches a character of
      the text: `.` any but a newline, anything else itself. */
  predicate CharMatches(p: char, c: char) {
    if p == '.' then c != '\n' else p == c
  }

  /** The literal part `lit` of the pattern matches `s` at `pos`. */
  predicate LiteralAt(lit: string, s: string, pos: nat) {
    pos + |lit| <= |s| && forall k :: 0 <= k < |lit| ==> CharMatches(lit[k], s[pos + k])
  }

  predicate IsCapital(c: char) {
    'A' <= c <= 'Z'
  }

  /** `[a-z\-]`. */
  predicate IsSlugChar(c: char) {
    ('a' <= c <= 'z') || c == '-'
  }

  /** `\d` (for `Codeforces`) or `[a-z\-]` (for `Leetcode`). */
  predicate InRun(site: Site, c: char) {
    match site
    case Codeforces => IsAsciiDigit(c)
    case Leetcode => IsSlugChar(c)
  }

  /** The length of the longest run of `site`'s class starting at `pos`. */
  function RunLength(site: Site, s: string, pos: nat): (n: nat)
    requires pos <= |s|
    ensures pos + n <= |s|
    ensures forall k :: pos <= k < pos + n ==> InRun(site, s[k])
    ensures pos + n == |s| || !InRun(site, s[pos + n])
    decreases |s| - pos
  {
    if pos < |s| && InRun(site, s[pos]) then 1 + RunLength(site, s, pos + 1) else 0
  }

  /** The text the pattern with literal part `lit` matches at `pos`, if
      any. For `Codeforces`, `\d+/[A-Z]` follows the literal: as `/` is not a
      digit, the greedy run of digits never gives a digit back, so the run is
      all the digits there. For `Leetcode`, `[a-z\-]+`, greedy. */
  function MatchAt(lit: string, site: Site, s: string, pos: nat): (m: Option<string>)
    requires pos <= |s|
    ensures m.Some? ==> LiteralAt(lit, s, pos) && pos + |m.value| <= |s| && m.value == s[pos..pos + |m.value|]
  {
    if !LiteralAt(lit, s, pos) then None
    else
      var run := RunLength(site, s, pos + |lit|);
      var e := pos + |lit| + run;
      if run == 0 then None
      else if site == Leetcode then Some(s[pos..e])
      else if e + 2 <= |s| && s[e] == '/' && IsCapital(s[e + 1]) then Some(s[pos..e + 2])
      else None
  }

  /** Where the first match of `re.findall` starts, searching from `pos`. */
  function FirstMatch(lit: string, site: Site, s: string, pos: nat): (p: Option<nat>)
    requires pos <= |s|
    ensures p.Some? ==> pos <= p.value <= |s| && MatchAt(lit, site, s, p.value).Some?
    ensures p.Some? ==> forall q :: pos <= q < p.value ==> MatchAt(lit, site, s, q).None?
    ensures p.None? ==> forall q :: pos <= q <= |s| ==> MatchAt(lit, site, s, q).None?
    decreases |s| - pos
  {
    if MatchAt(lit, site, s, pos).Some? then Some(pos)
    else if pos == |s| then None
    else FirstMatch(lit, site, s, pos + 1)
  }

  /** `re.findall(PROBLEM_URL_PATTERN, url)[0]`, or `None` for no match. */
  function FirstMatchText(site: Site, url: string): (m: Option<string>)
    ensures m.None? <==> forall q :: 0 <= q <= |url| ==> MatchAt(Prefix(site), site, url, q).None?
  {
    match FirstMatch(Prefix(site), site, url, 0)
    case None => None
    case Some(p) => MatchAt(Prefix(site), site, url, p)
  }

  // ---------------------------------------------------------------------------
  // Codeforces

  /** `CODEFORCES_PROBLEM_URL_FORMAT.format(slug[:-1], slug[-1])`: the contest
      number (everything but the last character) and the problem letter (the
      last character) as the last two segments. An empty slug has no last
      character: `IndexError`. */
  function CodeforcesProblemUrl(slug: string): (r: Result<string>)
    ensures r.Err? <==> slug == []
    ensures r.Err? ==> r.error == IndexError
    ensures r.Ok? ==> r.value == Prefix(Codeforces) + slug[..|slug| - 1] + "/" + [slug[|slug| - 1]]
  {
    if slug == [] then Err(IndexError)
    else Ok(Prefix(Codeforces) + slug[..|slug| - 1] + "/" + [slug[|slug| - 1]])
  }

  /** `parts[-2:]`. */
  function LastTwo(parts: seq<string>): (r: seq<string>)
    ensures |parts| >= 2 ==> r == parts[|parts| - 2..]
    ensures |parts| < 2 ==> r == parts
  {
    if |parts| >= 2 then parts[|parts| - 2..] else parts
  }

  /** `Codeforces.get_problem_slug_by_url(url)`: the last two `/`-separated
      segments of the first match, joined; `None` without a match. */
  function CodeforcesSlugByUrl(url: string): (r: Option<string>)
    ensures r.None? <==> FirstMatchText(Codeforces, url).None?
  {
    match FirstMatchText(Codeforces, url)
    case None => None
    case Some(m) => Some(Join("", LastTwo(Split(m, "/"))))
  }

  /** `Codeforces._get_problem(slug)`: the contest number `int(slug[:-1])`,
      which raises `ValueError` unless it is made of digits, and the letter
      `slug[-1]`. */
  function CodeforcesProblemArgs(slug: string): (r: Result<(nat, char)>)
    ensures r.Ok? <==> |slug| >= 2 && IsDigit(slug[..|slug| - 1])
    ensures r.Err? ==> r.error == ValueError
    ensures r.Ok? ==> r.value.1 == slug[|slug| - 1]
  {
    if |slug| < 2 || !IsDigit(slug[..|slug| - 1]) then Err(ValueError)
    else Ok((ParseNat(slug[..|slug| - 1]), slug[|slug| - 1]))
  }

  /** The slug of contest `n` and problem `letter` names that contest and
      that problem. */
  lemma CodeforcesArgsOfSlug(n: nat, letter: char)
    ensures CodeforcesProblemArgs(NatToString(n) + [letter]) == Ok((n, letter))
  {
    var slug := NatToString(n) + [letter];
    assert slug[..|slug| - 1] == NatToString(n);
  }

  /** The URL of a slug of contest digits and a capital letter matches the
      URL pattern as a whole, from its first character. */
  lemma {:induction false} CodeforcesUrlMatches(lit: string, digits: string, letter: char)
    requires IsDigit(digits) && IsCapital(letter)
    ensures var url := lit + digits + "/" + [letter];
      && FirstMatch(lit, Codeforces, url, 0) == Some(0)
      && MatchAt(lit, Codeforces, url, 0) == Some(url)
  {
    var url := lit + digits + "/" + [letter];
    LiteralPrefix(lit, url);
    RunIs(Codeforces, url, |lit|, |digits|);
    var e := |lit| + |digits|;
    assert e + 2 == |url| && url[e] == '/' && url[e + 1] == letter;
    assert url[0..e + 2] == url;
  }

  /** The last two segments of that URL are the digits and the letter. */
  lemma {:induction false} CodeforcesUrlSegments(lit: string, digits: string, letter: char)
    requires |lit| > 0 && lit[|lit| - 1] == '/'
    requires IsDigit(digits) && IsCapital(letter)
    ensures LastTwo(Split(lit + digits + "/" + [letter], "/")) == [digits, [letter]]
  {
    var url := lit + digits + "/" + [letter];
    var front := lit[..|lit| - 1];
    assert url == (front + "/" + digits) + "/" + [letter];
    SplitSnoc(front + "/" + digits, [letter]);
    SplitSnoc(front, digits);
    assert Split(url, "/") == Split(front, "/") + [digits] + [[letter]];
  }

  /** A slug of contest digits and a capital letter comes back from its URL. */
  lemma {:induction false} CodeforcesRoundTrip(slug: string)
    requires |slug| >= 2 && IsDigit(slug[..|slug| - 1]) && IsCapital(slug[|slug| - 1])
    ensures CodeforcesProblemUrl(slug).Ok?
    ensures CodeforcesSlugByUrl(CodeforcesProblemUrl(slug).value) == Some(slug)
  {
    var digits := slug[..|slug| - 1];
    var letter := slug[|slug| - 1];
    var url := Prefix(Codeforces) + digits + "/" + [letter];
    assert CodeforcesProblemUrl(slug) == Ok(url);
    CodeforcesUrlMatches(Prefix(Codeforces), digits, letter);
    CodeforcesUrlSegments(Prefix(Codeforces), digits, letter);
    assert FirstMatchText(Codeforces, url) == Some(url);
    JoinPair(digits, [letter]);
    assert slug == digits + [letter];
  }

  /** Two pieces joined with nothing between them. */
  lemma {:induction false} JoinPair(a: string, b: string)
    ensures Join("", [a, b]) == a + b
  {
    var parts: seq<string> := [a, b];
    assert parts[1..] == [b];
    assert Join("", parts[1..]) == b;
    assert a + "" == a;
  }

  // ---------------------------------------------------------------------------
  // Leetcode

  /** `Leetcode.DAILY_SLUG`. */
  const DailySlug := "!daily"

  /** Which lookup `Leetcode._get_problem` makes. */
  datatype Lookup = Daily | ById(id: nat) | BySlug(slug: string)

  /** `Leetcode._get_problem(slug)`: `"!daily"` asks for the daily problem,
      an all-digit slug is a problem number, anything else a slug. */
  function LeetcodeLookup(slug: string): (q: Lookup)
    ensures q.Daily? <==> slug == DailySlug
    ensures q.ById? <==> IsDigit(slug)
    ensures q.BySlug? <==> slug != DailySlug && !IsDigit(slug)
    ensures q.BySlug? ==> q.slug == slug
  {
    assert !IsAsciiDigit(DailySlug[0]);
    if slug == DailySlug then Daily
    else if IsDigit(slug) then ById(ParseNat(slug))
    else BySlug(slug)
  }

  /** The printed number `n` looks up problem `n`. */
  lemma LeetcodeLookupOfNumber(n: nat)
    ensures LeetcodeLookup(NatToString(n)) == ById(n)
  {
    assert NatToString(n)[0] != DailySlug[0];
  }

  /** `Leetcode.get_problem_url(slug)`: a slug that is neither a number nor
      `"!daily"` goes straight into the URL; otherwise the problem is looked
      up (`fetch` gives the slug of the problem found, or the error) and its
      own slug goes into the URL. */
  function LeetcodeProblemUrl(slug: string, fetch: Lookup -> Result<string>): (r: Result<string>)
    ensures !IsDigit(slug) && slug != DailySlug ==> r == Ok(Prefix(Leetcode) + slug)
    ensures (IsDigit(slug) || slug == DailySlug) ==>
      (r.Ok? <==> fetch(LeetcodeLookup(slug)).Ok?)
      && (r.Ok? ==> r.value == Prefix(Leetcode) + fetch(LeetcodeLookup(slug)).value)
  {
    if !IsDigit(slug) && slug != DailySlug then Ok(Prefix(Leetcode) + slug)
    else
      var found :- fetch(LeetcodeLookup(slug));
      Ok(Prefix(Leetcode) + found)
  }

  /** `Leetcode.get_problem_slug_by_url(url)`: the last `/`-separated segment
      of the first match, or `None`. */
  function LeetcodeSlugByUrl(url: string): (r: Option<string>)
    ensures r.None? <==> FirstMatchText(Leetcode, url).None?
  {
    match FirstMatchText(Leetcode, url)
    case None => None
    case Some(m) =>
      var parts := Split(m, "/");
      Some(parts[|parts| - 1])
  }

  /** The URL of a non-empty slug of lower-case letters and hyphens matches
      the URL pattern as a whole, and its last segment is the slug. */
  lemma {:induction false} LeetcodeUrlMatches(lit: string, slug: string)
    requires |lit| > 0 && lit[|lit| - 1] == '/'
    requires |slug| > 0 && forall k :: 0 <= k < |slug| ==> IsSlugChar(slug[k])
    ensures var url := lit + slug;
      && FirstMatch(lit, Leetcode, url, 0) == Some(0)
      && MatchAt(lit, Leetcode, url, 0) == Some(url)
      && Split(url, "/")[|Split(url, "/")| - 1] == slug
  {
    var url := lit + slug;
    assert MatchAt(lit, Leetcode, url, 0) == Some(url) by {
      LiteralPrefix(lit, url);
      RunIs(Leetcode, url, |lit|, |slug|);
      assert url[0..|url|] == url;
    }
    assert Split(url, "/")[|Split(url, "/")| - 1] == slug by {
      var front := lit[..|lit| - 1];
      assert url == front + "/" + slug;
      SplitSnoc(front, slug);
    }
  }

  /** A non-empty slug of lower-case letters and hyphens goes into its URL
      with no lookup, and comes back from it. */
  lemma {:induction false} LeetcodeRoundTrip(slug: string, fetch: Lookup -> Result<string>)
    requires |slug| > 0 && forall k :: 0 <= k < |slug| ==> IsSlugChar(slug[k])
    ensures LeetcodeProblemUrl(slug, fetch) == Ok(Prefix(Leetcode) + slug)
    ensures LeetcodeSlugByUrl(Prefix(Leetcode) + slug) == Some(slug)
  {
    assert LeetcodeProblemUrl(slug, fetch) == Ok(Prefix(Leetcode) + slug) by {
      assert !IsAsciiDigit(slug[0]) && slug[0] != DailySlug[0];
    }
    var url := Prefix(Leetcode) + slug;
    assert FirstMatchText(Leetcode, url) == Some(url) by {
      LeetcodeUrlMatches(Prefix(Leetcode), slug);
    }
    assert Split(url, "/")[|Split(url, "/")| - 1] == slug by {
      LeetcodeUrlMatches(Prefix(Leetcode), slug);
    }
  }

  // ---------------------------------------------------------------------------
  // helpers

  /** The literal part matches a text that starts with it. */
  lemma {:induction false} LiteralPrefix(lit: string, s: string)
    requires |lit| <= |s| && s[..|lit|] == lit
    ensures LiteralAt(lit, s, 0)
  {
    forall k | 0 <= k < |lit| ensures CharMatches(lit[k], s[k]) {
      assert s[k] == s[..|lit|][k];
    }
  }

  /** A run of `n` characters of the class ending at the end of `s`, or at a
      character outside the class, is the longest run there. */
  lemma {:induction false} RunIs(site: Site, s: string, pos: nat, n: nat)
    requires pos + n <= |s|
    requires forall k :: pos <= k < pos + n ==> InRun(site, s[k])
    requires pos + n == |s| || !InRun(site, s[pos + n])
    ensures RunLength(site, s, pos) == n
    decreases n
  {
    if n > 0 {
      RunIs(site, s, pos + 1, n - 1);
    }
  }

  /** A one-character separator occurs exactly where that character is. */
  lemma {:induction false} OccursSingle(s: string, c: char, j: nat)
    ensures OccursAt(s, [c], j) <==> j < |s| && s[j] == c
  {
    if j < |s| {
      assert s[j..j + 1] == [s[j]];
    }
  }

  /** The first occurrence is where `sep` occurs and does not occur before. */
  lemma IndexOfIs(x: string, sep: string, k: nat)
    requires |sep| > 0 && OccursAt(x, sep, k)
    requires forall j: nat :: j < k ==> !OccursAt(x, sep, j)
    ensures IndexOf(x, sep) == Some(k)
  {
  }

  /** Text without `/` does not split. */
  lemma {:induction false} SplitNone(t: string)
    requires forall k :: 0 <= k < |t| ==> t[k] != '/'
    ensures Split(t, "/") == [t]
  {
    forall j: nat ensures !OccursAt(t, "/", j) {
      OccursSingle(t, '/', j);
    }
  }

  /** The first `/` of `s + "/" + t` is the first of `s`, or the one added. */
  lemma {:induction false} IndexOfSnoc(s: string, t: string)
    ensures IndexOf(s + "/" + t, "/") == if IndexOf(s, "/").Some? then IndexOf(s, "/") else Some(|s|)
  {
    var x := s + "/" + t;
    var first := IndexOf(s, "/");
    var k := if first.Some? then first.value else |s|;
    forall j: nat | j < k ensures !OccursAt(x, "/", j) {
      OccursSingle(x, '/', j);
      OccursSingle(s, '/', j);
      assert x[j] == s[j];
    }
    OccursSingle(x, '/', k);
    if first.Some? {
      OccursSingle(s, '/', k);
    }
    IndexOfIs(x, "/", k);
  }

  /** `(s + "/" + t).split("/")` is `s.split("/")` and then `t`, for a `t`
      without `/`. */
  lemma {:induction false} SplitSnoc(s: string, t: string)
    requires forall k :: 0 <= k < |t| ==> t[k] != '/'
    ensures Split(s + "/" + t, "/") == Split(s, "/") + [t]
    decreases |s|
  {
    var x := s + "/" + t;
    IndexOfSnoc(s, t);
    match IndexOf(s, "/")
    case Some(k) =>
      assert x[..k] == s[..k];
      assert x[k + 1..] == s[k + 1..] + "/" + t;
      SplitSnoc(s[k + 1..], t);
    case None =>
      assert x[..|s|] == s && x[|s| + 1..] == t;
      SplitNone(t);
  }
}

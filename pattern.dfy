/**
 * The version grammar `VERSION_PATTERN`, as a scanner written for this one
 * pattern on ASCII text.
 *
 * The pattern is case-insensitive and unanchored, and everything after the
 * release segment is optional. Under leftmost-first matching the match
 * therefore begins at the first ASCII digit (one `v` or `V` right before it
 * is part of the match but captured by no group), every repetition and
 * every optional piece takes as much as it can, an alternation takes its
 * first alternative in textual order that matches, and anything after the
 * match is ignored. Because every piece after the release is optional, no
 * choice made this way is ever undone by backtracking.
 */
module Pattern {
  import opened Wrappers
  import opened Text

  /** The named groups of the pattern, as the text each one captured. */
  datatype Captures = Captures(
    epoch: Option<string>,
    release: string,
    preL: Option<string>, preN: Option<string>,
    postN1: Option<string>, postL: Option<string>, postN2: Option<string>,
    devL: Option<string>, devN: Option<string>,
    local: Option<string>)

  /** A match of the pattern: the span of the input it covers and its groups. */
  datatype Match = Match(start: nat, end: nat, groups: Captures)

  /** The alternations of the pattern, in textual order, lower-case. */
  const PRE_TAGS: seq<string> := ["a", "b", "c", "rc", "alpha", "beta", "pre", "preview"]
  const POST_TAGS: seq<string> := ["post", "rev", "r"]
  const DEV_TAGS: seq<string> := ["dev"]

  /**
   * The pre-release spellings reordered so that every spelling comes before
   * its own prefixes (`alpha` before `a`, `beta` before `b`, `preview`
   * before `pre`): the order under which the longer spellings can match.
   */
  const PRE_TAGS_LONGEST_FIRST: seq<string> := ["alpha", "a", "beta", "b", "c", "rc", "preview", "pre"]

  /** The separators of the local segment, `[\._-]`. */
  const LOCAL_SEPARATORS: set<char> := {'.', '_', '-'}

  /** The index of the first ASCII digit at or after i, or |s| if there is none. */
  function FirstDigit(s: string, i: nat): (d: nat)
    requires i <= |s|
    ensures i <= d <= |s|
    ensures d < |s| ==> IsDigit(s[d])
    ensures forall k :: i <= k < d ==> !IsDigit(s[k])
    decreases |s| - i
  {
    if i == |s| || IsDigit(s[i]) then i else FirstDigit(s, i + 1)
  }

  /** `[0-9]*` from i, greedy: the end of the run of digits starting at i. */
  function DigitsEnd(s: string, i: nat): (j: nat)
    requires i <= |s|
    ensures i <= j <= |s|
    ensures AllDigits(s[i..j])
    ensures j < |s| ==> !IsDigit(s[j])
    decreases |s| - i
  {
    if i < |s| && IsDigit(s[i]) then DigitsEnd(s, i + 1) else i
  }

  /** `[a-z0-9]*` from i, greedy. */
  function AlnumEnd(s: string, i: nat): (j: nat)
    requires i <= |s|
    ensures i <= j <= |s|
    ensures forall k :: i <= k < j ==> IsAlnum(s[k])
    ensures j < |s| ==> !IsAlnum(s[j])
    decreases |s| - i
  {
    if i < |s| && IsAlnum(s[i]) then AlnumEnd(s, i + 1) else i
  }

  /** `[0-9]+(?:\.[0-9]+)*` from a digit at i, greedy. */
  function ReleaseEnd(s: string, i: nat): (j: nat)
    requires i < |s| && IsDigit(s[i])
    ensures i < j <= |s|
    decreases |s| - i
  {
    var e := DigitsEnd(s, i);
    if e + 1 < |s| && s[e] == '.' && IsDigit(s[e + 1]) then ReleaseEnd(s, e + 1) else e
  }

  /** `[a-z0-9]+(?:[-_\.][a-z0-9]+)*` from an alphanumeric character at i, greedy. */
  function LocalEnd(s: string, i: nat): (j: nat)
    requires i < |s| && IsAlnum(s[i])
    ensures i < j <= |s|
    decreases |s| - i
  {
    var e := AlnumEnd(s, i);
    if e + 1 < |s| && IsSep(s[e]) && IsAlnum(s[e + 1]) then LocalEnd(s, e + 1) else e
  }

  /** `[-_\.]?`, greedy. */
  function OptSep(s: string, p: nat): (q: nat)
    requires p <= |s|
    ensures q == p || (p < |s| && q == p + 1 && IsSep(s[p]))
    ensures q <= |s|
  {
    if p < |s| && IsSep(s[p]) then p + 1 else p
  }

  /** The lower-case literal lit occurs at p, ignoring ASCII case. */
  predicate LiteralAt(s: string, p: nat, lit: string) {
    p + |lit| <= |s| && forall k :: 0 <= k < |lit| ==> ToLower(s[p + k]) == lit[k]
  }

  /**
   * An alternation: the index of the first alternative, from k on and in
   * textual order, that occurs at p.
   */
  function FirstAlternative(s: string, p: nat, alts: seq<string>, k: nat): (r: Option<nat>)
    requires k <= |alts|
    ensures r.Some? ==> k <= r.value < |alts| && LiteralAt(s, p, alts[r.value])
    ensures r.Some? ==> forall j :: k <= j < r.value ==> !LiteralAt(s, p, alts[j])
    ensures r.None? ==> forall j :: k <= j < |alts| ==> !LiteralAt(s, p, alts[j])
    decreases |alts| - k
  {
    if k == |alts| then None
    else if LiteralAt(s, p, alts[k]) then Some(k)
    else FirstAlternative(s, p, alts, k + 1)
  }

  /** What one lettered group captured and where the group ends. */
  datatype Lettered = Lettered(letter: Option<string>, number: Option<string>, end: nat)

  /**
   * The optional group `[-_\.]? (?P<l>alts) [-_\.]? (?P<n>[0-9]+)?` at p.
   * Every alternative begins with a letter, so once the leading separator
   * is taken and no alternative follows it, trying again without the
   * separator (at a separator character) cannot succeed either.
   *
   * The group is taken exactly when an alternative occurs after the
   * optional separator; the letter is the text of the first such
   * alternative, and the number is the whole run of digits after the
   * optional separator that follows the letter.
   */
  function ScanLettered(s: string, p: nat, alts: seq<string>): (g: Lettered)
    requires p <= |s|
    ensures p <= g.end <= |s|
    ensures g.letter.None? ==> g.number.None? && g.end == p
    ensures OptNumber(g.number)
    ensures g.letter.Some? <==> FirstAlternative(s, OptSep(s, p), alts, 0).Some?
    ensures g.letter.Some? ==>
      var q := OptSep(s, p);
      var e := q + |alts[FirstAlternative(s, q, alts, 0).value]|;
      var r := OptSep(s, e);
      && e <= |s| && g.letter.value == s[q..e]
      && r <= g.end && g.end == DigitsEnd(s, r)
      && (g.number.Some? <==> r < g.end)
      && (g.number.Some? ==> g.number.value == s[r..g.end])
  {
    var q := OptSep(s, p);
    match FirstAlternative(s, q, alts, 0)
    case None => Lettered(None, None, p)
    case Some(k) =>
      var e := q + |alts[k]|;
      var r := OptSep(s, e);
      var n := DigitsEnd(s, r);
      Lettered(Some(s[q..e]), if r < n then Some(s[r..n]) else None, n)
  }

  /**
   * `VERSION_PATTERN.captures(input)`: the leftmost-first match of the
   * pattern in s. There is a match exactly when s holds an ASCII digit, and
   * it is the match at the first digit.
   */
  function Scan(s: string): (m: Option<Match>)
    requires IsAscii(s)
    ensures m.None? <==> forall i :: 0 <= i < |s| ==> !IsDigit(s[i])
    ensures m.Some? ==> m.value.start <= m.value.end <= |s|
    ensures m.Some? ==>
      var d := FirstDigit(s, 0);
      && d < |s|
      && (forall i :: 0 <= i < d ==> !IsDigit(s[i]))
      && (m.value.start == d || (m.value.start == d - 1 && (s[d - 1] == 'v' || s[d - 1] == 'V')))
      && m.value.groups == MatchAt(s, d).groups
  {
    var d := FirstDigit(s, 0);
    if d == |s| then None else Some(MatchAt(s, d))
  }

  /**
   * The match whose first digit is the digit at d: it starts there, or one
   * character earlier at a `v` or `V`; the epoch is scanned at d and the
   * release follows it.
   */
  function MatchAt(s: string, d: nat): (m: Match)
    requires d < |s| && IsDigit(s[d])
    ensures m.start <= d < m.end <= |s|
    ensures m.start == d - 1 <==> 0 < d && (s[d - 1] == 'v' || s[d - 1] == 'V')
    ensures m.start == d || m.start == d - 1
    ensures var e := ScanEpoch(s, d);
      && m.groups.epoch == e.text
      && m.groups.release == s[e.end..ReleaseEnd(s, e.end)]
  {
    // v?
    var start := if 0 < d && (s[d - 1] == 'v' || s[d - 1] == 'V') then d - 1 else d;
    var epoch := ScanEpoch(s, d);
    var re := ReleaseEnd(s, epoch.end);
    var pre := ScanLettered(s, re, PRE_TAGS);
    var post := ScanPost(s, pre.end);
    var dev := ScanLettered(s, post.end, DEV_TAGS);
    var local := ScanLocal(s, dev.end);
    Match(start, local.end, Captures(
      epoch.text, s[epoch.end..re],
      pre.letter, pre.number,
      post.shorthand, post.spelled.letter, post.spelled.number,
      dev.letter, dev.number,
      local.text))
  }

  /** A group that captured at most one piece of text, and where it ends. */
  datatype Plain = Plain(text: Option<string>, end: nat)

  /**
   * `(?:(?P<epoch>[0-9]+)!)?` at the digit d: taken when the digits are
   * followed by `!` and a digit, for the release must follow. Its end is
   * where the release begins.
   */
  function ScanEpoch(s: string, d: nat): (g: Plain)
    requires d < |s| && IsDigit(s[d])
    ensures d <= g.end < |s| && IsDigit(s[g.end])
    ensures OptNumber(g.text)
    ensures var e := DigitsEnd(s, d);
      && (g.text.Some? <==> e + 1 < |s| && s[e] == '!' && IsDigit(s[e + 1]))
      && (g.text.Some? ==> g.text.value == s[d..e] && g.end == e + 1)
      && (g.text.None? ==> g.end == d)
  {
    var e := DigitsEnd(s, d);
    if e + 1 < |s| && s[e] == '!' && IsDigit(s[e + 1]) then Plain(Some(s[d..e]), e + 1) else Plain(None, d)
  }

  /** What the post-release group captured. */
  datatype PostGroup = PostGroup(shorthand: Option<string>, spelled: Lettered, end: nat)

  /**
   * `(?:-(?P<post_n1>[0-9]+))|(?:[-_\.]?(?P<post_l>post|rev|r)[-_\.]?(?P<post_n2>[0-9]+)?)`
   * at p, optional: the `-N` shorthand is the first alternative.
   */
  function ScanPost(s: string, p: nat): (g: PostGroup)
    requires p <= |s|
    ensures p <= g.end <= |s|
    ensures OptNumber(g.shorthand) && OptNumber(g.spelled.number)
    ensures g.shorthand.Some? <==> p + 1 < |s| && s[p] == '-' && IsDigit(s[p + 1])
    ensures g.shorthand.Some? ==>
      && g.end == DigitsEnd(s, p + 1)
      && g.shorthand.value == s[p + 1..g.end]
      && g.spelled == Lettered(None, None, p)
    ensures g.shorthand.None? ==> g.spelled == ScanLettered(s, p, POST_TAGS) && g.end == g.spelled.end
  {
    if p + 1 < |s| && s[p] == '-' && IsDigit(s[p + 1]) then
      var n := DigitsEnd(s, p + 1);
      PostGroup(Some(s[p + 1..n]), Lettered(None, None, p), n)
    else
      var spelled := ScanLettered(s, p, POST_TAGS);
      PostGroup(None, spelled, spelled.end)
  }

  /**
   * `(?:\+(?P<local>[a-z0-9]+(?:[-_\.][a-z0-9]+)*))?` at l: taken exactly
   * when a `+` is followed by a letter or digit, and then the greedy local
   * run after the `+`.
   */
  function ScanLocal(s: string, l: nat): (g: Plain)
    requires l <= |s|
    ensures l <= g.end <= |s|
    ensures g.text.None? ==> g.end == l
    ensures g.text.Some? <==> l + 1 < |s| && s[l] == '+' && IsAlnum(s[l + 1])
    ensures g.text.Some? ==> g.end == LocalEnd(s, l + 1) && g.text.value == s[l + 1..g.end]
  {
    if l + 1 < |s| && s[l] == '+' && IsAlnum(s[l + 1]) then
      var end := LocalEnd(s, l + 1);
      Plain(Some(s[l + 1..end]), end)
    else
      Plain(None, l)
  }

  // ---------------------------------------------------------------------
  // What the groups can hold
  // ---------------------------------------------------------------------

  /** One or more digits. */
  predicate IsNumber(t: string) {
    |t| > 0 && AllDigits(t)
  }

  predicate OptNumber(t: Option<string>) {
    t.None? || IsNumber(t.value)
  }

  /** `[0-9]+(?:\.[0-9]+)*`: dot-separated, non-empty runs of digits. */
  predicate DottedDigits(t: string) {
    AllNumbers(Split(t, {'.'}))
  }

  predicate AllNumbers(parts: seq<string>) {
    forall k :: 0 <= k < |parts| ==> IsNumber(parts[k])
  }

  predicate IsAlnumRun(t: string) {
    |t| > 0 && forall i :: 0 <= i < |t| ==> IsAlnum(t[i])
  }

  predicate AllAlnumRuns(parts: seq<string>) {
    forall k :: 0 <= k < |parts| ==> IsAlnumRun(parts[k])
  }

  /** `[a-z0-9]+(?:[-_\.][a-z0-9]+)*`: separated, non-empty alphanumeric runs. */
  predicate LocalShape(t: string) {
    AllAlnumRuns(Split(t, LOCAL_SEPARATORS))
  }

  /**
   * The shape of what a match captures. Of the pre-release spellings only
   * a, b, c, rc and pre are ever captured: alpha, beta and preview begin
   * with an earlier alternative (a, b, pre), which wins.
   */
  predicate WellFormedCaptures(c: Captures) {
    && OptNumber(c.epoch)
    && DottedDigits(c.release)
    && (c.preL.Some? ==> ToAsciiLowercase(c.preL.value) in {"a", "b", "c", "rc", "pre"})
    && (c.preL.None? ==> c.preN.None?)
    && OptNumber(c.preN)
    && OptNumber(c.postN1)
    && (c.postN1.Some? ==> c.postL.None? && c.postN2.None?)
    && (c.postL.Some? ==> ToAsciiLowercase(c.postL.value) in {"post", "rev", "r"})
    && (c.postL.None? ==> c.postN2.None?)
    && OptNumber(c.postN2)
    && (c.devL.Some? ==> ToAsciiLowercase(c.devL.value) == "dev")
    && (c.devL.None? ==> c.devN.None?)
    && OptNumber(c.devN)
    && (c.local.Some? ==> LocalShape(c.local.value))
  }

  lemma {:induction false} SplitAfterPiece(x: string, c: char, y: string, seps: set<char>)
    requires Avoids(x, seps) && c in seps
    ensures Split(x + [c] + y, seps) == [x] + Split(y, seps)
    decreases |x|
  {
    if |x| == 0 {
      assert x + [c] + y == [c] + y;
      assert ([c] + y)[1..] == y;
    } else {
      SplitAfterPiece(x[1..], c, y, seps);
      var t := x + [c] + y;
      assert t[1..] == x[1..] + [c] + y;
      assert [x[0]] + x[1..] == x;
    }
  }

  lemma NumbersCons(x: string, rest: seq<string>)
    requires IsNumber(x) && AllNumbers(rest)
    ensures AllNumbers([x] + rest)
  {
    assert forall k :: 1 <= k < |rest| + 1 ==> ([x] + rest)[k] == rest[k - 1];
  }

  lemma AlnumRunsCons(x: string, rest: seq<string>)
    requires IsAlnumRun(x) && AllAlnumRuns(rest)
    ensures AllAlnumRuns([x] + rest)
  {
    assert forall k :: 1 <= k < |rest| + 1 ==> ([x] + rest)[k] == rest[k - 1];
  }

  /** A number, a dot and dotted digits are dotted digits. */
  lemma DottedDigitsCons(run: string, tail: string)
    requires IsNumber(run) && DottedDigits(tail)
    ensures DottedDigits(run + ['.'] + tail)
  {
    SplitAfterPiece(run, '.', tail, {'.'});
    NumbersCons(run, Split(tail, {'.'}));
  }

  /** An alphanumeric run, a separator and a local segment are a local segment. */
  lemma LocalShapeCons(run: string, c: char, tail: string)
    requires IsAlnumRun(run) && IsSep(c) && LocalShape(tail)
    ensures LocalShape(run + [c] + tail)
  {
    assert Avoids(run, LOCAL_SEPARATORS);
    SplitAfterPiece(run, c, tail, LOCAL_SEPARATORS);
    AlnumRunsCons(run, Split(tail, LOCAL_SEPARATORS));
  }

  /** A slice cut around one character. */
  lemma SliceAround(s: string, i: nat, e: nat, j: nat)
    requires i <= e < j <= |s|
    ensures s[i..j] == s[i..e] + [s[e]] + s[e + 1..j]
  {
  }

  /** A single number is dotted digits. */
  lemma NumberIsDotted(run: string)
    requires IsNumber(run)
    ensures DottedDigits(run)
  {
    assert Avoids(run, {'.'});
    SplitNoSeparator(run, {'.'});
  }

  /** A single alphanumeric run is a local segment. */
  lemma AlnumRunIsLocal(run: string)
    requires IsAlnumRun(run)
    ensures LocalShape(run)
  {
    assert Avoids(run, LOCAL_SEPARATORS);
    SplitNoSeparator(run, LOCAL_SEPARATORS);
  }

  /** The digits from a digit at i form a number. */
  lemma DigitsAt(s: string, i: nat)
    requires i < |s| && IsDigit(s[i])
    ensures DigitsEnd(s, i) > i && IsNumber(s[i..DigitsEnd(s, i)])
    ensures IsDigit(s[DigitsEnd(s, i) - 1])
  {
    var e := DigitsEnd(s, i);
    assert s[i..e][e - i - 1] == s[e - 1];
  }

  /** The letters and digits from an alphanumeric character at i form a run. */
  lemma AlnumAt(s: string, i: nat)
    requires i < |s| && IsAlnum(s[i])
    ensures AlnumEnd(s, i) > i && IsAlnumRun(s[i..AlnumEnd(s, i)])
  {
    var e := AlnumEnd(s, i);
    assert forall k :: 0 <= k < e - i ==> s[i..e][k] == s[i + k];
  }

  /** The run of letters and digits from an alphanumeric character ends in one. */
  lemma AlnumLast(s: string, i: nat)
    requires i < |s| && IsAlnum(s[i])
    ensures AlnumEnd(s, i) > i && IsAlnum(s[AlnumEnd(s, i) - 1])
  {
  }

  /** The release run ends in a digit. */
  lemma {:induction false} ReleaseEndLast(s: string, i: nat)
    requires i < |s| && IsDigit(s[i])
    ensures IsDigit(s[ReleaseEnd(s, i) - 1])
    decreases |s| - i
  {
    var e := DigitsEnd(s, i);
    DigitsAt(s, i);
    if e + 1 < |s| && s[e] == '.' && IsDigit(s[e + 1]) {
      ReleaseEndLast(s, e + 1);
      assert ReleaseEnd(s, i) == ReleaseEnd(s, e + 1);
    } else {
      assert ReleaseEnd(s, i) == e;
    }
  }

  /** Neither a digit nor a dot followed by a digit comes after the release run. */
  lemma {:induction false} ReleaseEndMaximal(s: string, i: nat)
    requires i < |s| && IsDigit(s[i])
    ensures var j := ReleaseEnd(s, i);
      (j == |s| || !IsDigit(s[j])) && !(j + 1 < |s| && s[j] == '.' && IsDigit(s[j + 1]))
    decreases |s| - i
  {
    var e := DigitsEnd(s, i);
    if e + 1 < |s| && s[e] == '.' && IsDigit(s[e + 1]) {
      ReleaseEndMaximal(s, e + 1);
      assert ReleaseEnd(s, i) == ReleaseEnd(s, e + 1);
    } else {
      assert ReleaseEnd(s, i) == e;
    }
  }

  /**
   * `[0-9]+(?:\.[0-9]+)*` is greedy: the release run ends in a digit, and
   * neither another digit nor a dot followed by a digit comes after it.
   */
  lemma ReleaseEndGreedy(s: string, i: nat)
    requires i < |s| && IsDigit(s[i])
    ensures var j := ReleaseEnd(s, i);
      && IsDigit(s[j - 1])
      && (j == |s| || !IsDigit(s[j]))
      && !(j + 1 < |s| && s[j] == '.' && IsDigit(s[j + 1]))
  {
    ReleaseEndLast(s, i);
    ReleaseEndMaximal(s, i);
  }

  /** The local run ends in a letter or digit. */
  lemma {:induction false} LocalEndLast(s: string, i: nat)
    requires i < |s| && IsAlnum(s[i])
    ensures IsAlnum(s[LocalEnd(s, i) - 1])
    decreases |s| - i
  {
    var e := AlnumEnd(s, i);
    AlnumLast(s, i);
    if e + 1 < |s| && IsSep(s[e]) && IsAlnum(s[e + 1]) {
      LocalEndLast(s, e + 1);
      assert LocalEnd(s, i) == LocalEnd(s, e + 1);
    } else {
      assert LocalEnd(s, i) == e;
    }
  }

  /** Neither a letter or digit nor a separator followed by one comes after the local run. */
  lemma {:induction false} LocalEndMaximal(s: string, i: nat)
    requires i < |s| && IsAlnum(s[i])
    ensures var j := LocalEnd(s, i);
      (j == |s| || !IsAlnum(s[j])) && !(j + 1 < |s| && IsSep(s[j]) && IsAlnum(s[j + 1]))
    decreases |s| - i
  {
    var e := AlnumEnd(s, i);
    if e + 1 < |s| && IsSep(s[e]) && IsAlnum(s[e + 1]) {
      LocalEndMaximal(s, e + 1);
      assert LocalEnd(s, i) == LocalEnd(s, e + 1);
    } else {
      assert LocalEnd(s, i) == e;
    }
  }

  /**
   * `[a-z0-9]+(?:[-_\.][a-z0-9]+)*` is greedy: the local run ends in a
   * letter or digit, and neither another one nor a separator followed by
   * one comes after it.
   */
  lemma LocalEndGreedy(s: string, i: nat)
    requires i < |s| && IsAlnum(s[i])
    ensures var j := LocalEnd(s, i);
      && IsAlnum(s[j - 1])
      && (j == |s| || !IsAlnum(s[j]))
      && !(j + 1 < |s| && IsSep(s[j]) && IsAlnum(s[j + 1]))
  {
    LocalEndLast(s, i);
    LocalEndMaximal(s, i);
  }

  lemma {:induction false} ReleaseShape(s: string, i: nat)
    requires i < |s| && IsDigit(s[i])
    ensures DottedDigits(s[i..ReleaseEnd(s, i)])
    decreases |s| - i
  {
    var e := DigitsEnd(s, i);
    DigitsAt(s, i);
    if e + 1 < |s| && s[e] == '.' && IsDigit(s[e + 1]) {
      var j := ReleaseEnd(s, e + 1);
      assert ReleaseEnd(s, i) == j;
      ReleaseShape(s, e + 1);
      SliceAround(s, i, e, j);
      DottedDigitsCons(s[i..e], s[e + 1..j]);
    } else {
      assert ReleaseEnd(s, i) == e;
      NumberIsDotted(s[i..e]);
    }
  }

  lemma {:induction false} LocalEndShape(s: string, i: nat)
    requires i < |s| && IsAlnum(s[i])
    ensures LocalShape(s[i..LocalEnd(s, i)])
    decreases |s| - i
  {
    var e := AlnumEnd(s, i);
    AlnumAt(s, i);
    if e + 1 < |s| && IsSep(s[e]) && IsAlnum(s[e + 1]) {
      var j := LocalEnd(s, e + 1);
      assert LocalEnd(s, i) == j;
      LocalEndShape(s, e + 1);
      SliceAround(s, i, e, j);
      LocalShapeCons(s[i..e], s[e], s[e + 1..j]);
    } else {
      assert LocalEnd(s, i) == e;
      AlnumRunIsLocal(s[i..e]);
    }
  }

  /** What an alternation captured is, lower-cased, the alternative itself. */
  lemma CapturedAlternative(s: string, q: nat, lit: string)
    requires LiteralAt(s, q, lit)
    requires forall k :: 0 <= k < |lit| ==> !IsUpper(lit[k])
    ensures ToAsciiLowercase(s[q..q + |lit|]) == lit
  {
  }

  /** A literal that occurs at q takes every prefix of itself along. */
  lemma LiteralPrefix(s: string, q: nat, long: string, short: string)
    requires LiteralAt(s, q, long)
    requires |short| <= |long| && short == long[..|short|]
    ensures LiteralAt(s, q, short)
  {
    forall k | 0 <= k < |short| ensures ToLower(s[q + k]) == short[k] {
      assert short[k] == long[k];
    }
  }

  /** The letter a lettered group captured is, lower-cased, the alternative that won. */
  lemma LetteredLetter(s: string, p: nat, alts: seq<string>)
    requires p <= |s|
    requires forall k, j :: 0 <= k < |alts| && 0 <= j < |alts[k]| ==> !IsUpper(alts[k][j])
    ensures var q := OptSep(s, p);
      ScanLettered(s, p, alts).letter.Some? ==>
        && FirstAlternative(s, q, alts, 0).Some?
        && ToAsciiLowercase(ScanLettered(s, p, alts).letter.value) == alts[FirstAlternative(s, q, alts, 0).value]
  {
    var q := OptSep(s, p);
    match FirstAlternative(s, q, alts, 0)
    case None =>
    case Some(k) =>
      CapturedAlternative(s, q, alts[k]);
  }

  /**
   * The pre-release letter is captured as a, b, c, rc or pre, in any case:
   * alpha, beta and preview lose to the shorter alternative before them.
   */
  lemma PreLetterShape(s: string, p: nat)
    requires p <= |s|
    ensures var g := ScanLettered(s, p, PRE_TAGS);
      g.letter.Some? ==> ToAsciiLowercase(g.letter.value) in {"a", "b", "c", "rc", "pre"}
  {
    LetteredLetter(s, p, PRE_TAGS);
    var q := OptSep(s, p);
    if LiteralAt(s, q, "alpha") { LiteralPrefix(s, q, "alpha", "a"); }
    if LiteralAt(s, q, "beta") { LiteralPrefix(s, q, "beta", "b"); }
    if LiteralAt(s, q, "preview") { LiteralPrefix(s, q, "preview", "pre"); }
  }

  lemma PostLetterShape(s: string, p: nat)
    requires p <= |s|
    ensures var g := ScanLettered(s, p, POST_TAGS);
      g.letter.Some? ==> ToAsciiLowercase(g.letter.value) in {"post", "rev", "r"}
  {
    LetteredLetter(s, p, POST_TAGS);
  }

  lemma DevLetterShape(s: string, p: nat)
    requires p <= |s|
    ensures var g := ScanLettered(s, p, DEV_TAGS);
      g.letter.Some? ==> ToAsciiLowercase(g.letter.value) == "dev"
  {
    LetteredLetter(s, p, DEV_TAGS);
  }

  lemma ScanLocalShape(s: string, l: nat)
    requires l <= |s|
    ensures ScanLocal(s, l).text.Some? ==> LocalShape(ScanLocal(s, l).text.value)
  {
    if l + 1 < |s| && s[l] == '+' && IsAlnum(s[l + 1]) {
      LocalEndShape(s, l + 1);
    }
  }

  /** Every match captures text of the shapes the pattern describes. */
  lemma ScanWellFormed(s: string)
    requires IsAscii(s) && Scan(s).Some?
    ensures WellFormedCaptures(Scan(s).value.groups)
  {
    var d := FirstDigit(s, 0);
    var epoch := ScanEpoch(s, d);
    var re := ReleaseEnd(s, epoch.end);
    ReleaseShape(s, epoch.end);
    var pre := ScanLettered(s, re, PRE_TAGS);
    PreLetterShape(s, re);
    var post := ScanPost(s, pre.end);
    PostLetterShape(s, pre.end);
    DevLetterShape(s, post.end);
    var dev := ScanLettered(s, post.end, DEV_TAGS);
    ScanLocalShape(s, dev.end);
  }

  // ---------------------------------------------------------------------
  // The order of the pre-release alternatives
  // ---------------------------------------------------------------------

  /**
   * As written, the alternation takes `a` at the start of `alpha1` though
   * `alpha` occurs there as well: the longer spellings are never taken.
   */
  lemma ShortPreTagTaken()
    ensures LiteralAt("alpha1", 0, "alpha")
    ensures FirstAlternative("alpha1", 0, PRE_TAGS, 0) == Some(0) && PRE_TAGS[0] == "a"
  {
    assert LiteralAt("alpha1", 0, PRE_TAGS[0]);
  }

  /**
   * With every spelling ahead of its prefixes, the alternative taken is the
   * longest spelling that occurs at q.
   */
  lemma LongestPreTagTaken(s: string, q: nat, i: nat)
    requires i < |PRE_TAGS_LONGEST_FIRST| && LiteralAt(s, q, PRE_TAGS_LONGEST_FIRST[i])
    ensures var r := FirstAlternative(s, q, PRE_TAGS_LONGEST_FIRST, 0);
      r.Some? && |PRE_TAGS_LONGEST_FIRST[r.value]| >= |PRE_TAGS_LONGEST_FIRST[i]|
  {
    var tags := PRE_TAGS_LONGEST_FIRST;
    var r := FirstAlternative(s, q, tags, 0);
    assert r.Some?;
    var j := r.value;
    assert j <= i;
    if j < i {
      // Both spellings occur at q, so they begin with the same letter.
      assert tags[j][0] == ToLower(s[q]) == tags[i][0];
      EarlierSpellingNotShorter(j, i);
    }
  }

  /** An earlier spelling that begins with the same letter as a later one is at least as long. */
  lemma EarlierSpellingNotShorter(a: nat, b: nat)
    requires a < b < |PRE_TAGS_LONGEST_FIRST|
    ensures PRE_TAGS_LONGEST_FIRST[a][0] == PRE_TAGS_LONGEST_FIRST[b][0] ==>
      |PRE_TAGS_LONGEST_FIRST[a]| >= |PRE_TAGS_LONGEST_FIRST[b]|
  {
  }
}

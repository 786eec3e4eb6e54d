/**
 * Character classes, decimal numbers and splitting, as the version parser
 * uses them: ASCII digits and letters, `str::to_ascii_lowercase`,
 * `<u64 as FromStr>::from_str`, and splitting a string on a set of
 * separator characters (`str::split` and `Regex::split` on one-character
 * separators).
 */
module Text {
  import opened Wrappers

  /** 2^64, the first value that does not fit in a Rust `u64`. */
  const U64_LIMIT: nat := 0x1_0000_0000_0000_0000

  predicate IsAscii(s: string) {
    forall i :: 0 <= i < |s| ==> s[i] < 128 as char
  }

  predicate IsDigit(c: char) {
    '0' <= c <= '9'
  }

  predicate IsUpper(c: char) {
    'A' <= c <= 'Z'
  }

  predicate IsLower(c: char) {
    'a' <= c <= 'z'
  }

  /** `[a-z0-9]` under the case-insensitive flag, on ASCII input. */
  predicate IsAlnum(c: char) {
    IsDigit(c) || IsLower(c) || IsUpper(c)
  }

  /** `[-_\.]`, the separator class of the version grammar. */
  predicate IsSep(c: char) {
    c == '.' || c == '_' || c == '-'
  }

  predicate AllDigits(s: string) {
    forall i :: 0 <= i < |s| ==> IsDigit(s[i])
  }

  function ToLower(c: char): (d: char)
    ensures IsUpper(c) ==> IsLower(d) && d as int == c as int + 32
    ensures !IsUpper(c) ==> d == c
  {
    if IsUpper(c) then (c as int + 32) as char else c
  }

  /** `str::to_ascii_lowercase`. */
  function ToAsciiLowercase(s: string): (t: string)
    ensures |t| == |s|
    ensures forall i :: 0 <= i < |s| ==> t[i] == ToLower(s[i])
    ensures forall i :: 0 <= i < |s| ==> !IsUpper(t[i])
  {
    seq(|s|, i requires 0 <= i < |s| => ToLower(s[i]))
  }

  /** Lowercasing text without capitals leaves it as it is. */
  lemma AlreadyLowercase(s: string)
    requires forall i :: 0 <= i < |s| ==> !IsUpper(s[i])
    ensures ToAsciiLowercase(s) == s
  {
  }

  /** Lowercasing twice changes nothing more than lowercasing once. */
  lemma LowercaseIdempotent(s: string)
    ensures ToAsciiLowercase(ToAsciiLowercase(s)) == ToAsciiLowercase(s)
  {
  }

  /** The value of a decimal digit string, most significant digit first. */
  function DigitsValue(s: string): nat
    requires AllDigits(s)
    decreases |s|
  {
    if |s| == 0 then 0
    else DigitsValue(s[..|s| - 1]) * 10 + (s[|s| - 1] as int - '0' as int)
  }

  /** Leading zeros do not change the value of a digit string. */
  lemma {:induction false} LeadingZeroIgnored(s: string)
    requires AllDigits(s)
    ensures AllDigits("0" + s) && DigitsValue("0" + s) == DigitsValue(s)
    decreases |s|
  {
    if |s| > 0 {
      var t := "0" + s;
      assert t[..|t| - 1] == "0" + s[..|s| - 1];
      LeadingZeroIgnored(s[..|s| - 1]);
    }
  }

  /**
   * `s.parse::<u64>()`: an optional `+`, then one or more ASCII digits whose
   * value fits in 64 bits; anything else (empty text, another character, an
   * overflow) is an error, here `None`.
   */
  function ParseU64(s: string): (r: Option<nat>)
    ensures r.Some? ==> r.value < U64_LIMIT
    ensures |s| > 0 && AllDigits(s) ==>
              (r.Some? <==> DigitsValue(s) < U64_LIMIT) && (r.Some? ==> r.value == DigitsValue(s))
    ensures (exists i :: 0 <= i < |s| && IsLower(s[i])) ==> r.None?
    ensures |s| == 0 ==> r.None?
  {
    var digits := if |s| > 1 && s[0] == '+' then s[1..] else s;
    if |digits| > 0 && AllDigits(digits) && DigitsValue(digits) < U64_LIMIT then
      Some(DigitsValue(digits))
    else
      None
  }

  // ---------------------------------------------------------------------
  // Splitting on separator characters
  // ---------------------------------------------------------------------

  /** The separator characters of s, in order. */
  function SeparatorsOf(s: string, seps: set<char>): (d: string)
    ensures forall i :: 0 <= i < |d| ==> d[i] in seps
    decreases |s|
  {
    if |s| == 0 then ""
    else if s[0] in seps then [s[0]] + SeparatorsOf(s[1..], seps)
    else SeparatorsOf(s[1..], seps)
  }

  predicate Avoids(s: string, seps: set<char>) {
    forall i :: 0 <= i < |s| ==> s[i] !in seps
  }

  /** The pieces `parts` glued back together with the separators `seps` between them. */
  function Interleave(parts: seq<string>, seps: string): string
    requires |parts| == |seps| + 1
    decreases |seps|
  {
    if |seps| == 0 then parts[0]
    else parts[0] + [seps[0]] + Interleave(parts[1..], seps[1..])
  }

  /**
   * Splits s at every character of seps, keeping empty pieces (as
   * `str::split` and `Regex::split` do): one more piece than there are
   * separators, no piece holding a separator.
   */
  function Split(s: string, seps: set<char>): (parts: seq<string>)
    ensures |parts| == |SeparatorsOf(s, seps)| + 1
    ensures forall k :: 0 <= k < |parts| ==> Avoids(parts[k], seps)
    decreases |s|
  {
    if |s| == 0 then [""]
    else
      var rest := Split(s[1..], seps);
      if s[0] in seps then [""] + rest
      else [[s[0]] + rest[0]] + rest[1..]
  }

  /** Splitting loses nothing: the pieces and the separators give back s. */
  lemma {:induction false} SplitRoundTrip(s: string, seps: set<char>)
    ensures Interleave(Split(s, seps), SeparatorsOf(s, seps)) == s
    decreases |s|
  {
    if |s| > 0 {
      var rest := Split(s[1..], seps);
      var ds := SeparatorsOf(s[1..], seps);
      SplitRoundTrip(s[1..], seps);
      if s[0] in seps {
        assert Split(s, seps) == [""] + rest;
        assert ([""] + rest)[1..] == rest;
      } else {
        InterleavePrepend(s[0], rest, ds);
        assert Split(s, seps) == [[s[0]] + rest[0]] + rest[1..];
      }
    }
  }

  lemma InterleavePrepend(c: char, parts: seq<string>, seps: string)
    requires |parts| == |seps| + 1
    ensures Interleave([[c] + parts[0]] + parts[1..], seps) == [c] + Interleave(parts, seps)
  {
    var q := [[c] + parts[0]] + parts[1..];
    if |seps| > 0 {
      assert q[1..] == parts[1..];
    }
  }

  /** A string without separators is a single piece. */
  lemma {:induction false} SplitNoSeparator(s: string, seps: set<char>)
    requires Avoids(s, seps)
    ensures Split(s, seps) == [s]
    decreases |s|
  {
    if |s| > 0 {
      SplitNoSeparator(s[1..], seps);
      assert [s[0]] + s[1..] == s;
    }
  }

  /** Splitting at the first separator: the piece before it, then the split of what follows. */
  lemma {:induction false} SplitAtSeparator(s: string, seps: set<char>, i: nat)
    requires i < |s| && s[i] in seps && Avoids(s[..i], seps)
    ensures Split(s, seps) == [s[..i]] + Split(s[i + 1..], seps)
    decreases i
  {
    if i > 0 {
      assert s[0] == s[..i][0];
      assert s[1..][..i - 1] == s[1..i];
      SplitAtSeparator(s[1..], seps, i - 1);
      assert s[1..][i..] == s[i + 1..];
      assert [s[0]] + s[1..i] == s[..i];
    }
  }
}

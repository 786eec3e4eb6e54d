/**
 * The segment normalizer and `Version::parse`: the captured text of a
 * match becomes a `Version`, with integers parsed, letters lower-cased and
 * mapped through the alias table, defaults filled in, and the local segment
 * split into numeric and alphanumeric parts.
 */
module Normalize {
  import opened Wrappers
  import opened Text
  import opened Pattern

  /** A `(String, u64)` pre-, post- or dev-release segment. */
  datatype Tagged = Tagged(tag: string, number: nat)

  /** `LocalTypePart`: a local segment part that parsed as a `u64`, or the text itself. */
  datatype LocalTypePart = AlphanumVersion(text: string) | NumericVersion(value: nat)

  /** `Version`: the parsed, normalized version; nothing changes it after construction. */
  datatype Version = Version(
    epoch: nat,
    release: seq<nat>,
    pre: Option<Tagged>,
    post: Option<Tagged>,
    dev: Option<Tagged>,
    local: Option<seq<LocalTypePart>>)

  /** The alias table of `parse_letter_version`, on a lower-cased letter. */
  function CanonicalLetter(letter: string): string {
    if letter == "alpha" then "a"
    else if letter == "beta" then "b"
    else if letter == "c" || letter == "pre" || letter == "preview" then "rc"
    else if letter == "rev" || letter == "r" then "post"
    else letter
  }

  /** A captured number that `.parse().unwrap()` turns into a `u64` without panicking. */
  predicate Fits(number: Option<string>) {
    number.None? || ParseU64(number.value).Some?
  }

  /**
   * `parse_letter_version`: a letter gives its canonical lower-case tag and
   * the number, 0 when no number was captured; a number alone is a post
   * release; neither gives `None`.
   */
  function ParseLetterVersion(letter: Option<string>, number: Option<string>): (r: Option<Tagged>)
    requires Fits(number)
    ensures r.None? <==> letter.None? && number.None?
    ensures r.Some? ==> r.value.number < U64_LIMIT
    ensures r.Some? && number.None? ==> r.value.number == 0
    ensures r.Some? && number.Some? && IsNumber(number.value) ==> r.value.number == DigitsValue(number.value)
    ensures letter.None? && number.Some? ==> r.value.tag == "post"
    ensures letter.Some? ==> r.value.tag == CanonicalLetter(ToAsciiLowercase(letter.value))
  {
    if letter.Some? then
      var n := if number.Some? then ParseU64(number.value).value else 0;
      Some(Tagged(CanonicalLetter(ToAsciiLowercase(letter.value)), n))
    else if number.Some? then
      Some(Tagged("post", ParseU64(number.value).value))
    else
      None
  }

  /** One part of the local segment: a `u64` if the text parses as one, else the text unchanged. */
  function ParseLocalPart(piece: string): (part: LocalTypePart)
    ensures part.NumericVersion? <==> ParseU64(piece).Some?
    ensures part.NumericVersion? ==> part.value == ParseU64(piece).value
    ensures part.AlphanumVersion? ==> part.text == piece
  {
    match ParseU64(piece)
    case Some(n) => NumericVersion(n)
    case None => AlphanumVersion(piece)
  }

  /**
   * A local part as evidently intended: the text is lowercased before it is
   * kept, so that the local segment does not depend on case.
   */
  function ParseLocalPartIntended(piece: string): (part: LocalTypePart)
    ensures part.NumericVersion? <==> ParseU64(piece).Some?
    ensures part.NumericVersion? ==> part.value == ParseU64(piece).value
    ensures part.AlphanumVersion? ==> part.text == ToAsciiLowercase(piece)
    ensures part.AlphanumVersion? ==>
      |part.text| == |piece| && forall i :: 0 <= i < |part.text| ==> !IsUpper(part.text[i])
  {
    LowercaseKeepsNumbers(piece);
    ParseLocalPart(ToAsciiLowercase(piece))
  }

  /** Lowercasing does not change whether a piece parses as a `u64`, nor its value. */
  lemma LowercaseKeepsNumbers(piece: string)
    ensures ParseU64(ToAsciiLowercase(piece)) == ParseU64(piece)
  {
    var lower := ToAsciiLowercase(piece);
    var start := if |piece| > 1 && piece[0] == '+' then 1 else 0;
    assert |lower| > 1 && lower[0] == '+' <==> |piece| > 1 && piece[0] == '+';
    if AllDigits(piece[start..]) {
      assert lower[start..] == piece[start..];
    } else {
      var i :| 0 <= i < |piece[start..]| && !IsDigit(piece[start..][i]);
      assert lower[start..][i] == ToLower(piece[start + i]);
    }
  }

  /**
   * As written, case is kept: the local parts of `1.0+AbC` and `1.0+abc`
   * differ, where the intended parts agree.
   */
  lemma LocalCaseKept()
    ensures ParseLocalPart("AbC") == AlphanumVersion("AbC") != ParseLocalPart("abc")
    ensures ParseLocalPartIntended("AbC") == ParseLocalPartIntended("abc") == AlphanumVersion("abc")
  {
    assert IsLower("AbC"[1]) && IsLower("abc"[0]);
    assert ToAsciiLowercase("AbC") == "abc";
    AlreadyLowercase("abc");
  }

  /** With the intended parser, pieces that differ only in case give the same part. */
  lemma LocalPartIntendedCaseInsensitive(x: string, y: string)
    requires ToAsciiLowercase(x) == ToAsciiLowercase(y)
    ensures ParseLocalPartIntended(x) == ParseLocalPartIntended(y)
  {
  }

  /** The intended part differs from the written one only on text with capitals. */
  lemma LocalPartIntendedAgrees(piece: string)
    requires forall i :: 0 <= i < |piece| ==> !IsUpper(piece[i])
    ensures ParseLocalPartIntended(piece) == ParseLocalPart(piece)
  {
    AlreadyLowercase(piece);
  }

  /**
   * `parse_local_version`: `None` exactly when no local segment was
   * captured; otherwise one part per piece between the separators.
   */
  function ParseLocalVersion(local: Option<string>): (r: Option<seq<LocalTypePart>>)
    ensures r.None? <==> local.None?
    ensures r.Some? ==>
      var pieces := Split(local.value, LOCAL_SEPARATORS);
      && |r.value| == |pieces|
      && forall k :: 0 <= k < |pieces| ==> r.value[k] == ParseLocalPart(pieces[k])
  {
    match local
    case None => None
    case Some(text) =>
      var pieces := Split(text, LOCAL_SEPARATORS);
      Some(seq(|pieces|, k requires 0 <= k < |pieces| => ParseLocalPart(pieces[k])))
  }

  /** Every piece of a dotted release converts to a `u64` without panicking. */
  predicate ReleaseFits(text: string) {
    forall piece | piece in Split(text, {'.'}) :: ParseU64(piece).Some?
  }

  /** The release: `split(".")`, each piece parsed as a `u64`. */
  function ParseRelease(text: string): (r: seq<nat>)
    requires ReleaseFits(text)
    ensures var pieces := Split(text, {'.'});
      && |r| == |pieces| >= 1
      && (forall k :: 0 <= k < |pieces| ==> r[k] == ParseU64(pieces[k]).value)
      && (DottedDigits(text) ==> forall k :: 0 <= k < |pieces| ==> r[k] == DigitsValue(pieces[k]))
  {
    var pieces := Split(text, {'.'});
    seq(|pieces|, k requires 0 <= k < |pieces| => ParseU64(pieces[k]).value)
  }

  /** `captures.name("post_n1").or(captures.name("post_n2"))`. */
  function PostNumber(c: Captures): Option<string> {
    if c.postN1.Some? then c.postN1 else c.postN2
  }

  /** Every number `Version::parse` converts from these captures fits in a `u64`. */
  predicate NumbersFit(c: Captures) {
    Fits(c.epoch) && ReleaseFits(c.release) && Fits(c.preN) && Fits(PostNumber(c)) && Fits(c.devN)
  }

  /** `Version::parse` runs on s without panicking on an overflowing `unwrap`. */
  predicate ParsesWithoutPanic(s: string) {
    IsAscii(s) && (Scan(s).Some? ==> NumbersFit(Scan(s).value.groups))
  }

  /** The invariants of every parsed version. */
  predicate WellFormed(v: Version) {
    && v.epoch < U64_LIMIT
    && |v.release| >= 1
    && (forall k :: 0 <= k < |v.release| ==> v.release[k] < U64_LIMIT)
    && (v.pre.Some? ==> v.pre.value.tag in {"a", "b", "rc"} && v.pre.value.number < U64_LIMIT)
    && (v.post.Some? ==> v.post.value.tag == "post" && v.post.value.number < U64_LIMIT)
    && (v.dev.Some? ==> v.dev.value.tag == "dev" && v.dev.value.number < U64_LIMIT)
    && (v.local.Some? ==> |v.local.value| >= 1 && forall k :: 0 <= k < |v.local.value| ==> WellFormedPart(v.local.value[k]))
  }

  /**
   * A numeric part fits in a `u64`; an alphanumeric part is a non-empty run
   * of letters and digits that does not parse as a `u64`.
   */
  predicate WellFormedPart(part: LocalTypePart) {
    match part
    case NumericVersion(n) => n < U64_LIMIT
    case AlphanumVersion(t) => IsAlnumRun(t) && ParseU64(t).None?
  }

  /** The normalizing half of `Version::parse`: from the groups of a match to a `Version`. */
  function FromCaptures(c: Captures): (v: Version)
    requires NumbersFit(c)
    ensures v.epoch == if c.epoch.Some? then ParseU64(c.epoch.value).value else 0
    ensures |v.release| >= 1
    ensures v.release == ParseRelease(c.release)
    ensures v.pre == ParseLetterVersion(c.preL, c.preN)
    ensures v.post == ParseLetterVersion(c.postL, PostNumber(c))
    ensures v.dev == ParseLetterVersion(c.devL, c.devN)
    ensures v.local == ParseLocalVersion(c.local)
  {
    Version(
      if c.epoch.Some? then ParseU64(c.epoch.value).value else 0,
      ParseRelease(c.release),
      ParseLetterVersion(c.preL, c.preN),
      ParseLetterVersion(c.postL, PostNumber(c)),
      ParseLetterVersion(c.devL, c.devN),
      ParseLocalVersion(c.local))
  }

  /**
   * `Version::parse`: `None` exactly when the text holds no ASCII digit;
   * otherwise the normalized version of the leftmost match, whatever
   * precedes or follows it.
   */
  function Parse(s: string): (r: Option<Version>)
    requires ParsesWithoutPanic(s)
    ensures r.None? <==> forall i :: 0 <= i < |s| ==> !IsDigit(s[i])
  {
    match Scan(s)
    case None => None
    case Some(m) => Some(FromCaptures(m.groups))
  }

  /** Case does not matter to a letter: `1.0RC1` and `1.0rc1` get the same segment. */
  lemma LetterCaseInsensitive(x: string, y: string, number: Option<string>)
    requires Fits(number)
    requires ToAsciiLowercase(x) == ToAsciiLowercase(y)
    ensures ParseLetterVersion(Some(x), number) == ParseLetterVersion(Some(y), number)
  {
  }

  /** Normalizing a canonical tag again changes nothing. */
  lemma CanonicalLetterIdempotent(letter: string)
    ensures CanonicalLetter(CanonicalLetter(letter)) == CanonicalLetter(letter)
  {
  }

  /** Every spelling of a pre-release letter the pattern lists becomes a, b or rc. */
  lemma CanonicalPreLetters(letter: string)
    requires letter in {"a", "b", "c", "rc", "alpha", "beta", "pre", "preview"}
    ensures CanonicalLetter(letter) in {"a", "b", "rc"}
    ensures CanonicalLetter(letter) == "a" <==> letter in {"a", "alpha"}
    ensures CanonicalLetter(letter) == "b" <==> letter in {"b", "beta"}
    ensures CanonicalLetter(letter) == "rc" <==> letter in {"c", "rc", "pre", "preview"}
  {
  }

  /**
   * A captured pre-release letter, in any case, gets the tag of its row of
   * the alias table: a for a and alpha, b for b and beta, rc for the rest.
   */
  lemma PreLetterTags(x: string, number: Option<string>)
    requires Fits(number)
    requires ToAsciiLowercase(x) in {"a", "b", "c", "rc", "alpha", "beta", "pre", "preview"}
    ensures var tag := ParseLetterVersion(Some(x), number).value.tag;
      var l := ToAsciiLowercase(x);
      && (tag == "a" <==> l in {"a", "alpha"})
      && (tag == "b" <==> l in {"b", "beta"})
      && (tag == "rc" <==> l in {"c", "rc", "pre", "preview"})
  {
    CanonicalPreLetters(ToAsciiLowercase(x));
  }

  /** A captured post letter, in any case, gets the tag post. */
  lemma PostLetterTag(x: string, number: Option<string>)
    requires Fits(number)
    requires ToAsciiLowercase(x) in {"post", "rev", "r"}
    ensures ParseLetterVersion(Some(x), number).value.tag == "post"
  {
    CanonicalPostLetters(ToAsciiLowercase(x));
  }

  /** Every spelling of a post-release letter becomes post. */
  lemma CanonicalPostLetters(letter: string)
    requires letter in {"post", "rev", "r"}
    ensures CanonicalLetter(letter) == "post"
  {
  }

  lemma LocalPartsWellFormed(text: string)
    requires LocalShape(text)
    ensures var parts := ParseLocalVersion(Some(text)).value;
      |parts| >= 1 && forall k :: 0 <= k < |parts| ==> WellFormedPart(parts[k])
  {
    var pieces := Split(text, LOCAL_SEPARATORS);
    var parts := ParseLocalVersion(Some(text)).value;
    forall k | 0 <= k < |parts| ensures WellFormedPart(parts[k]) {
      assert IsAlnumRun(pieces[k]);
    }
  }

  /**
   * Every version `Version::parse` returns keeps the invariants: a
   * non-empty release, canonical tags (a, b, rc; post; dev), numbers that
   * fit in a `u64`, and a non-empty local segment of well-formed parts.
   */
  lemma ParseWellFormed(s: string)
    requires ParsesWithoutPanic(s) && Parse(s).Some?
    ensures WellFormed(Parse(s).value)
  {
    ScanWellFormed(s);
    FromCapturesWellFormed(Scan(s).value.groups);
  }

  /** The normalizing half keeps the invariants for every capture the pattern can produce. */
  lemma FromCapturesWellFormed(c: Captures)
    requires WellFormedCaptures(c) && NumbersFit(c)
    ensures WellFormed(FromCaptures(c))
  {
    var v := FromCaptures(c);
    if c.preL.Some? {
      CanonicalPreLetters(ToAsciiLowercase(c.preL.value));
      assert v.pre.value.tag in {"a", "b", "rc"};
    }
    if c.postL.Some? {
      CanonicalPostLetters(ToAsciiLowercase(c.postL.value));
      assert v.post.value.tag == "post";
    }
    if c.local.Some? {
      LocalPartsWellFormed(c.local.value);
    }
    assert forall k :: 0 <= k < |v.release| ==> v.release[k] < U64_LIMIT;
  }
}

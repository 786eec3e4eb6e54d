/**
 * Concrete inputs from the repository's tests, stated and proved of the
 * model: what `Version::parse` returns for them and how the results
 * compare. Each parse is proved one scanner group at a time.
 */
module TestVectors {
  import opened Wrappers
  import opened Text
  import opened Orderings
  import opened Pattern
  import opened Normalize
  import opened VersionOrder

  /** The literal lit visibly fails at p: on its first or its second character. */
  predicate Mismatch(s: string, p: nat, lit: string) {
    |lit| > 0 &&
    (p >= |s| || ToLower(s[p]) != lit[0] || (|lit| > 1 && (p + 1 >= |s| || ToLower(s[p + 1]) != lit[1])))
  }

  /** No alternative from k on occurs at p when each visibly fails there. */
  lemma NoAlternativeAt(s: string, p: nat, alts: seq<string>, k: nat)
    requires k <= |alts|
    requires forall j :: k <= j < |alts| ==> Mismatch(s, p, alts[j])
    ensures FirstAlternative(s, p, alts, k) == None
    decreases |alts| - k
  {
    if k < |alts| {
      NoAlternativeAt(s, p, alts, k + 1);
    }
  }

  /** Alternative i is taken when it occurs at p and every earlier one visibly fails there. */
  lemma AlternativeAt(s: string, p: nat, alts: seq<string>, k: nat, i: nat)
    requires k <= i < |alts| && LiteralAt(s, p, alts[i])
    requires forall j :: k <= j < i ==> Mismatch(s, p, alts[j])
    ensures FirstAlternative(s, p, alts, k) == Some(i)
    decreases i - k
  {
    if k < i {
      AlternativeAt(s, p, alts, k + 1, i);
    }
  }

  /** A local label without separators is one part. */
  lemma OnePart(text: string, part: LocalTypePart)
    requires Avoids(text, LOCAL_SEPARATORS) && ParseLocalPart(text) == part
    ensures ParseLocalVersion(Some(text)) == Some([part])
  {
    SplitNoSeparator(text, LOCAL_SEPARATORS);
    LocalOf(text, [part]);
  }

  /** The lettered group at p is empty when no alternative occurs after the optional separator. */
  lemma NoLettered(s: string, p: nat, q: nat, alts: seq<string>)
    requires p <= |s| && q == OptSep(s, p) && FirstAlternative(s, q, alts, 0) == None
    ensures ScanLettered(s, p, alts) == Lettered(None, None, p)
  {
  }

  /** The lettered group at p when alternative k occurs at q and digits run from r to n. */
  lemma TakeLettered(s: string, p: nat, q: nat, alts: seq<string>, k: nat, r: nat, n: nat)
    requires p <= |s| && q == OptSep(s, p) && FirstAlternative(s, q, alts, 0) == Some(k)
    requires r == OptSep(s, q + |alts[k]|) && n == DigitsEnd(s, r)
    ensures ScanLettered(s, p, alts) == Lettered(Some(s[q..q + |alts[k]|]), if r < n then Some(s[r..n]) else None, n)
  {
  }

  /** Without a `-N` shorthand at p, the post-release group is the spelled one. */
  lemma SpelledPost(s: string, p: nat)
    requires p <= |s| && !(p + 1 < |s| && s[p] == '-' && IsDigit(s[p + 1]))
    ensures ScanPost(s, p) == PostGroup(None, ScanLettered(s, p, POST_TAGS), ScanLettered(s, p, POST_TAGS).end)
  {
  }

  /** A run of digits parses to its value. */
  lemma NumberIs(t: string, v: nat)
    requires IsNumber(t) && DigitsValue(t) == v < U64_LIMIT
    ensures ParseU64(t) == Some(v)
  {
  }

  /** The local segment text, part by part. */
  lemma LocalOf(text: string, parts: seq<LocalTypePart>)
    requires var pieces := Split(text, LOCAL_SEPARATORS);
      |pieces| == |parts| && forall k :: 0 <= k < |parts| ==> ParseLocalPart(pieces[k]) == parts[k]
    ensures ParseLocalVersion(Some(text)) == Some(parts)
  {
    var pieces := Split(text, LOCAL_SEPARATORS);
    var r := ParseLocalVersion(Some(text)).value;
    forall k | 0 <= k < |r|
      ensures r[k] == parts[k]
    {
      assert r[k] == ParseLocalPart(pieces[k]);
    }
    assert |r| == |pieces| == |parts|;
    assert r == parts;
  }

  /** `Version::parse` on a match whose numbers fit: the normalized groups. */
  lemma ParseOf(s: string, m: Match, v: Version)
    requires IsAscii(s) && Scan(s) == Some(m) && NumbersFit(m.groups) && FromCaptures(m.groups) == v
    ensures ParsesWithoutPanic(s) && Parse(s) == Some(v)
  {
  }

  /** `1.0rc1` (tests/test_version.rs:274-276). */
  const Rc1 := "1.0rc1"
  const Rc1Groups := Captures(None, "1.0", Some("rc"), Some("1"), None, None, None, None, None, None)
  lemma Rc1Epoch()
    ensures FirstDigit(Rc1, 0) == 0 && ScanEpoch(Rc1, 0) == Plain(None, 0)
  {
    assert Rc1[0] == '1' && Rc1[1] == '.' && Rc1[2] == '0';
  }
  lemma Rc1Release()
    ensures ReleaseEnd(Rc1, 0) == 3 && Rc1[0..3] == "1.0"
  {
    assert Rc1[0] == '1' && Rc1[1] == '.' && Rc1[2] == '0' && Rc1[3] == 'r' && Rc1[4] == 'c';
    assert DigitsEnd(Rc1, 0) == 1;
    assert DigitsEnd(Rc1, 2) == 3;
  }
  lemma Rc1PreTag()
    ensures FirstAlternative(Rc1, 3, PRE_TAGS, 0) == Some(3)
  {
    AlternativeAt(Rc1, 3, PRE_TAGS, 0, 3);
  }
  lemma Rc1PreDigits()
    ensures DigitsEnd(Rc1, 5) == 6
  {
    assert Rc1[5] == '1';
  }
  lemma Rc1PreText()
    ensures Rc1[3..5] == "rc" && Rc1[5..6] == "1"
  {
  }
  lemma Rc1Pre()
    ensures ScanLettered(Rc1, 3, PRE_TAGS) == Lettered(Some("rc"), Some("1"), 6)
  {
    Rc1PreTag(); Rc1PreDigits(); Rc1PreText();
    TakeLettered(Rc1, 3, 3, PRE_TAGS, 3, 5, 6);
  }
  lemma Rc1Post()
    ensures ScanPost(Rc1, 6) == PostGroup(None, Lettered(None, None, 6), 6)
  {
    NoAlternativeAt(Rc1, 6, POST_TAGS, 0);
    NoLettered(Rc1, 6, 6, POST_TAGS);
    SpelledPost(Rc1, 6);
  }
  lemma Rc1Dev()
    ensures ScanLettered(Rc1, 6, DEV_TAGS) == Lettered(None, None, 6)
  {
    NoAlternativeAt(Rc1, 6, DEV_TAGS, 0);
    NoLettered(Rc1, 6, 6, DEV_TAGS);
  }
  lemma Rc1Local()
    ensures ScanLocal(Rc1, 6) == Plain(None, 6)
  {
  }
  lemma Rc1Scan()
    ensures Scan(Rc1) == Some(Match(0, 6, Rc1Groups))
  {
    Rc1Epoch(); Rc1Release(); Rc1Pre(); Rc1Post(); Rc1Dev(); Rc1Local();
  }
  lemma Rc1PreSegment()
    ensures Fits(Some("1")) && ParseLetterVersion(Some("rc"), Some("1")) == Some(Tagged("rc", 1))
  {
    Digits1();
    AlreadyLowercase("rc");
  }
  lemma Rc1Normalize()
    ensures NumbersFit(Rc1Groups) && FromCaptures(Rc1Groups) == Version(0, [1, 0], Some(Tagged("rc", 1)), None, None, None)
  {
    Release1_0();
    Digits1();
    Rc1PreSegment();
  }
  lemma Rc1Ascii() ensures IsAscii(Rc1) {}
  lemma Rc1Parse()
    ensures ParsesWithoutPanic(Rc1) && Parse(Rc1) == Some(Version(0, [1, 0], Some(Tagged("rc", 1)), None, None, None))
  {
    Rc1Scan(); Rc1Ascii(); Rc1Normalize();
    ParseOf(Rc1, Match(0, 6, Rc1Groups), Version(0, [1, 0], Some(Tagged("rc", 1)), None, None, None));
  }

  /** `1.0c1`: `c` is another spelling of `rc`. */
  const C1 := "1.0c1"
  const C1Groups := Captures(None, "1.0", Some("c"), Some("1"), None, None, None, None, None, None)
  lemma C1Epoch()
    ensures FirstDigit(C1, 0) == 0 && ScanEpoch(C1, 0) == Plain(None, 0)
  {
    assert C1[0] == '1' && C1[1] == '.' && C1[2] == '0';
  }
  lemma C1Release()
    ensures ReleaseEnd(C1, 0) == 3 && C1[0..3] == "1.0"
  {
    assert C1[0] == '1' && C1[1] == '.' && C1[2] == '0' && C1[3] == 'c' && C1[4] == '1';
    assert DigitsEnd(C1, 0) == 1;
    assert DigitsEnd(C1, 2) == 3;
  }
  lemma C1PreTag()
    ensures FirstAlternative(C1, 3, PRE_TAGS, 0) == Some(2)
  {
    AlternativeAt(C1, 3, PRE_TAGS, 0, 2);
  }
  lemma C1PreDigits()
    ensures DigitsEnd(C1, 4) == 5
  {
    assert C1[4] == '1';
  }
  lemma C1PreText()
    ensures C1[3..4] == "c" && C1[4..5] == "1"
  {
  }
  lemma C1Pre()
    ensures ScanLettered(C1, 3, PRE_TAGS) == Lettered(Some("c"), Some("1"), 5)
  {
    C1PreTag(); C1PreDigits(); C1PreText();
    TakeLettered(C1, 3, 3, PRE_TAGS, 2, 4, 5);
  }
  lemma C1Post()
    ensures ScanPost(C1, 5) == PostGroup(None, Lettered(None, None, 5), 5)
  {
    NoAlternativeAt(C1, 5, POST_TAGS, 0);
    NoLettered(C1, 5, 5, POST_TAGS);
    SpelledPost(C1, 5);
  }
  lemma C1Dev()
    ensures ScanLettered(C1, 5, DEV_TAGS) == Lettered(None, None, 5)
  {
    NoAlternativeAt(C1, 5, DEV_TAGS, 0);
    NoLettered(C1, 5, 5, DEV_TAGS);
  }
  lemma C1Local()
    ensures ScanLocal(C1, 5) == Plain(None, 5)
  {
  }
  lemma C1Scan()
    ensures Scan(C1) == Some(Match(0, 5, C1Groups))
  {
    C1Epoch(); C1Release(); C1Pre(); C1Post(); C1Dev(); C1Local();
  }
  lemma C1PreSegment()
    ensures Fits(Some("1")) && ParseLetterVersion(Some("c"), Some("1")) == Some(Tagged("rc", 1))
  {
    Digits1();
    AlreadyLowercase("c");
  }
  lemma C1Normalize()
    ensures NumbersFit(C1Groups) && FromCaptures(C1Groups) == Version(0, [1, 0], Some(Tagged("rc", 1)), None, None, None)
  {
    Release1_0();
    Digits1();
    C1PreSegment();
  }
  lemma C1Ascii() ensures IsAscii(C1) {}
  lemma C1Parse()
    ensures ParsesWithoutPanic(C1) && Parse(C1) == Some(Version(0, [1, 0], Some(Tagged("rc", 1)), None, None, None))
  {
    C1Scan(); C1Ascii(); C1Normalize();
    ParseOf(C1, Match(0, 5, C1Groups), Version(0, [1, 0], Some(Tagged("rc", 1)), None, None, None));
  }

  /** `1.0.alpha1`: the alternative `a` is tried before `alpha`, so the tag is `a` and the number is never reached. */
  const Alpha1 := "1.0.alpha1"
  const Alpha1Groups := Captures(None, "1.0", Some("a"), None, None, None, None, None, None, None)
  lemma Alpha1Epoch()
    ensures FirstDigit(Alpha1, 0) == 0 && ScanEpoch(Alpha1, 0) == Plain(None, 0)
  {
    assert Alpha1[0] == '1' && Alpha1[1] == '.' && Alpha1[2] == '0';
  }
  lemma Alpha1Release()
    ensures ReleaseEnd(Alpha1, 0) == 3 && Alpha1[0..3] == "1.0"
  {
    assert Alpha1[0] == '1' && Alpha1[1] == '.' && Alpha1[2] == '0' && Alpha1[3] == '.' && Alpha1[4] == 'a';
    assert DigitsEnd(Alpha1, 0) == 1;
    assert DigitsEnd(Alpha1, 2) == 3;
  }
  lemma Alpha1PreTag()
    ensures FirstAlternative(Alpha1, 4, PRE_TAGS, 0) == Some(0)
  {
    AlternativeAt(Alpha1, 4, PRE_TAGS, 0, 0);
  }
  lemma Alpha1PreDigits()
    ensures DigitsEnd(Alpha1, 5) == 5
  {
    assert Alpha1[5] == 'l';
  }
  lemma Alpha1PreText()
    ensures Alpha1[4..5] == "a"
  {
  }
  lemma Alpha1Pre()
    ensures ScanLettered(Alpha1, 3, PRE_TAGS) == Lettered(Some("a"), None, 5)
  {
    Alpha1PreTag(); Alpha1PreDigits(); Alpha1PreText();
    TakeLettered(Alpha1, 3, 4, PRE_TAGS, 0, 5, 5);
  }
  lemma Alpha1Post()
    ensures ScanPost(Alpha1, 5) == PostGroup(None, Lettered(None, None, 5), 5)
  {
    NoAlternativeAt(Alpha1, 5, POST_TAGS, 0);
    NoLettered(Alpha1, 5, 5, POST_TAGS);
    SpelledPost(Alpha1, 5);
  }
  lemma Alpha1Dev()
    ensures ScanLettered(Alpha1, 5, DEV_TAGS) == Lettered(None, None, 5)
  {
    NoAlternativeAt(Alpha1, 5, DEV_TAGS, 0);
    NoLettered(Alpha1, 5, 5, DEV_TAGS);
  }
  lemma Alpha1Local()
    ensures ScanLocal(Alpha1, 5) == Plain(None, 5)
  {
  }
  lemma Alpha1Scan()
    ensures Scan(Alpha1) == Some(Match(0, 5, Alpha1Groups))
  {
    Alpha1Epoch(); Alpha1Release(); Alpha1Pre(); Alpha1Post(); Alpha1Dev(); Alpha1Local();
  }
  lemma Alpha1PreSegment()
    ensures ParseLetterVersion(Some("a"), None) == Some(Tagged("a", 0))
  {
    AlreadyLowercase("a");
  }
  lemma Alpha1Normalize()
    ensures NumbersFit(Alpha1Groups) && FromCaptures(Alpha1Groups) == Version(0, [1, 0], Some(Tagged("a", 0)), None, None, None)
  {
    Release1_0();
    Alpha1PreSegment();
  }
  lemma Alpha1Ascii() ensures IsAscii(Alpha1) {}
  lemma Alpha1Parse()
    ensures ParsesWithoutPanic(Alpha1) && Parse(Alpha1) == Some(Version(0, [1, 0], Some(Tagged("a", 0)), None, None, None))
  {
    Alpha1Scan(); Alpha1Ascii(); Alpha1Normalize();
    ParseOf(Alpha1, Match(0, 5, Alpha1Groups), Version(0, [1, 0], Some(Tagged("a", 0)), None, None, None));
  }

  /** `1.0+AbC`: the local segment keeps its case. */
  const UpperLocal := "1.0+AbC"
  const UpperLocalGroups := Captures(None, "1.0", None, None, None, None, None, None, None, Some("AbC"))
  lemma UpperLocalEpoch()
    ensures FirstDigit(UpperLocal, 0) == 0 && ScanEpoch(UpperLocal, 0) == Plain(None, 0)
  {
    assert UpperLocal[0] == '1' && UpperLocal[1] == '.' && UpperLocal[2] == '0';
  }
  lemma UpperLocalRelease()
    ensures ReleaseEnd(UpperLocal, 0) == 3 && UpperLocal[0..3] == "1.0"
  {
    assert UpperLocal[0] == '1' && UpperLocal[1] == '.' && UpperLocal[2] == '0' && UpperLocal[3] == '+' && UpperLocal[4] == 'A';
    assert DigitsEnd(UpperLocal, 0) == 1;
    assert DigitsEnd(UpperLocal, 2) == 3;
  }
  lemma UpperLocalPre()
    ensures ScanLettered(UpperLocal, 3, PRE_TAGS) == Lettered(None, None, 3)
  {
    NoAlternativeAt(UpperLocal, 3, PRE_TAGS, 0);
    NoLettered(UpperLocal, 3, 3, PRE_TAGS);
  }
  lemma UpperLocalPost()
    ensures ScanPost(UpperLocal, 3) == PostGroup(None, Lettered(None, None, 3), 3)
  {
    NoAlternativeAt(UpperLocal, 3, POST_TAGS, 0);
    NoLettered(UpperLocal, 3, 3, POST_TAGS);
    SpelledPost(UpperLocal, 3);
  }
  lemma UpperLocalDev()
    ensures ScanLettered(UpperLocal, 3, DEV_TAGS) == Lettered(None, None, 3)
  {
    NoAlternativeAt(UpperLocal, 3, DEV_TAGS, 0);
    NoLettered(UpperLocal, 3, 3, DEV_TAGS);
  }
  lemma UpperLocalLocal()
    ensures ScanLocal(UpperLocal, 3) == Plain(Some("AbC"), 7)
  {
    assert AlnumEnd(UpperLocal, 4) == 7;
    assert UpperLocal[4..7] == "AbC";
  }
  lemma UpperLocalScan()
    ensures Scan(UpperLocal) == Some(Match(0, 7, UpperLocalGroups))
  {
    UpperLocalEpoch(); UpperLocalRelease(); UpperLocalPre(); UpperLocalPost(); UpperLocalDev(); UpperLocalLocal();
  }
  lemma UpperLocalLocalParts()
    ensures ParseLocalVersion(Some("AbC")) == Some([AlphanumVersion("AbC")])
  {
    assert IsLower("AbC"[1]);
    OnePart("AbC", AlphanumVersion("AbC"));
  }
  lemma UpperLocalNormalize()
    ensures NumbersFit(UpperLocalGroups) && FromCaptures(UpperLocalGroups) == Version(0, [1, 0], None, None, None, Some([AlphanumVersion("AbC")]))
  {
    Release1_0();
    UpperLocalLocalParts();
  }
  lemma UpperLocalAscii() ensures IsAscii(UpperLocal) {}
  lemma UpperLocalParse()
    ensures ParsesWithoutPanic(UpperLocal) && Parse(UpperLocal) == Some(Version(0, [1, 0], None, None, None, Some([AlphanumVersion("AbC")])))
  {
    UpperLocalScan(); UpperLocalAscii(); UpperLocalNormalize();
    ParseOf(UpperLocal, Match(0, 7, UpperLocalGroups), Version(0, [1, 0], None, None, None, Some([AlphanumVersion("AbC")])));
  }

  /** `00!1.2`: the epoch is the value of its digits. */
  const ZeroEpoch := "00!1.2"
  const ZeroEpochGroups := Captures(Some("00"), "1.2", None, None, None, None, None, None, None, None)
  lemma ZeroEpochEpoch()
    ensures FirstDigit(ZeroEpoch, 0) == 0 && ScanEpoch(ZeroEpoch, 0) == Plain(Some("00"), 3)
  {
    assert ZeroEpoch[0] == '0' && ZeroEpoch[1] == '0' && ZeroEpoch[2] == '!' && ZeroEpoch[3] == '1';
    assert DigitsEnd(ZeroEpoch, 0) == 2 && ZeroEpoch[0..2] == "00";
  }
  lemma ZeroEpochRelease()
    ensures ReleaseEnd(ZeroEpoch, 3) == 6 && ZeroEpoch[3..6] == "1.2"
  {
    assert ZeroEpoch[3] == '1' && ZeroEpoch[4] == '.' && ZeroEpoch[5] == '2';
    assert DigitsEnd(ZeroEpoch, 3) == 4;
    assert DigitsEnd(ZeroEpoch, 5) == 6;
  }
  lemma ZeroEpochPre()
    ensures ScanLettered(ZeroEpoch, 6, PRE_TAGS) == Lettered(None, None, 6)
  {
    NoAlternativeAt(ZeroEpoch, 6, PRE_TAGS, 0);
    NoLettered(ZeroEpoch, 6, 6, PRE_TAGS);
  }
  lemma ZeroEpochPost()
    ensures ScanPost(ZeroEpoch, 6) == PostGroup(None, Lettered(None, None, 6), 6)
  {
    NoAlternativeAt(ZeroEpoch, 6, POST_TAGS, 0);
    NoLettered(ZeroEpoch, 6, 6, POST_TAGS);
    SpelledPost(ZeroEpoch, 6);
  }
  lemma ZeroEpochDev()
    ensures ScanLettered(ZeroEpoch, 6, DEV_TAGS) == Lettered(None, None, 6)
  {
    NoAlternativeAt(ZeroEpoch, 6, DEV_TAGS, 0);
    NoLettered(ZeroEpoch, 6, 6, DEV_TAGS);
  }
  lemma ZeroEpochLocal()
    ensures ScanLocal(ZeroEpoch, 6) == Plain(None, 6)
  {
  }
  lemma ZeroEpochScan()
    ensures Scan(ZeroEpoch) == Some(Match(0, 6, ZeroEpochGroups))
  {
    ZeroEpochEpoch(); ZeroEpochRelease(); ZeroEpochPre(); ZeroEpochPost(); ZeroEpochDev(); ZeroEpochLocal();
  }
  lemma ZeroEpochNormalize()
    ensures NumbersFit(ZeroEpochGroups) && FromCaptures(ZeroEpochGroups) == Version(0, [1, 2], None, None, None, None)
  {
    Release1_2();
    Digits00();
  }
  lemma ZeroEpochAscii() ensures IsAscii(ZeroEpoch) {}
  lemma ZeroEpochParse()
    ensures ParsesWithoutPanic(ZeroEpoch) && Parse(ZeroEpoch) == Some(Version(0, [1, 2], None, None, None, None))
  {
    ZeroEpochScan(); ZeroEpochAscii(); ZeroEpochNormalize();
    ParseOf(ZeroEpoch, Match(0, 6, ZeroEpochGroups), Version(0, [1, 2], None, None, None, None));
  }

  /** `1.01`: a release component is the value of its digits. */
  const LeadingZero := "1.01"
  const LeadingZeroGroups := Captures(None, "1.01", None, None, None, None, None, None, None, None)
  lemma LeadingZeroEpoch()
    ensures FirstDigit(LeadingZero, 0) == 0 && ScanEpoch(LeadingZero, 0) == Plain(None, 0)
  {
    assert LeadingZero[0] == '1' && LeadingZero[1] == '.' && LeadingZero[2] == '0';
  }
  lemma LeadingZeroRelease()
    ensures ReleaseEnd(LeadingZero, 0) == 4 && LeadingZero[0..4] == "1.01"
  {
    assert LeadingZero[0] == '1' && LeadingZero[1] == '.' && LeadingZero[2] == '0' && LeadingZero[3] == '1';
    assert DigitsEnd(LeadingZero, 0) == 1;
    assert DigitsEnd(LeadingZero, 2) == 4;
  }
  lemma LeadingZeroPre()
    ensures ScanLettered(LeadingZero, 4, PRE_TAGS) == Lettered(None, None, 4)
  {
    NoAlternativeAt(LeadingZero, 4, PRE_TAGS, 0);
    NoLettered(LeadingZero, 4, 4, PRE_TAGS);
  }
  lemma LeadingZeroPost()
    ensures ScanPost(LeadingZero, 4) == PostGroup(None, Lettered(None, None, 4), 4)
  {
    NoAlternativeAt(LeadingZero, 4, POST_TAGS, 0);
    NoLettered(LeadingZero, 4, 4, POST_TAGS);
    SpelledPost(LeadingZero, 4);
  }
  lemma LeadingZeroDev()
    ensures ScanLettered(LeadingZero, 4, DEV_TAGS) == Lettered(None, None, 4)
  {
    NoAlternativeAt(LeadingZero, 4, DEV_TAGS, 0);
    NoLettered(LeadingZero, 4, 4, DEV_TAGS);
  }
  lemma LeadingZeroLocal()
    ensures ScanLocal(LeadingZero, 4) == Plain(None, 4)
  {
  }
  lemma LeadingZeroScan()
    ensures Scan(LeadingZero) == Some(Match(0, 4, LeadingZeroGroups))
  {
    LeadingZeroEpoch(); LeadingZeroRelease(); LeadingZeroPre(); LeadingZeroPost(); LeadingZeroDev(); LeadingZeroLocal();
  }
  lemma LeadingZeroNormalize()
    ensures NumbersFit(LeadingZeroGroups) && FromCaptures(LeadingZeroGroups) == Version(0, [1, 1], None, None, None, None)
  {
    Release1_01();
  }
  lemma LeadingZeroAscii() ensures IsAscii(LeadingZero) {}
  lemma LeadingZeroParse()
    ensures ParsesWithoutPanic(LeadingZero) && Parse(LeadingZero) == Some(Version(0, [1, 1], None, None, None, None))
  {
    LeadingZeroScan(); LeadingZeroAscii(); LeadingZeroNormalize();
    ParseOf(LeadingZero, Match(0, 4, LeadingZeroGroups), Version(0, [1, 1], None, None, None, None));
  }

  /** `   v1.0\\t\\n`: leading text, a `v` and trailing whitespace around the match. */
  const Padded := "   v1.0\t\n"
  const PaddedGroups := Captures(None, "1.0", None, None, None, None, None, None, None, None)
  lemma PaddedEpoch()
    ensures FirstDigit(Padded, 0) == 4 && ScanEpoch(Padded, 4) == Plain(None, 4)
  {
    assert Padded[0] == ' ' && Padded[1] == ' ' && Padded[2] == ' ' && Padded[3] == 'v' && Padded[4] == '1' && Padded[5] == '.' && Padded[6] == '0';
  }
  lemma PaddedRelease()
    ensures ReleaseEnd(Padded, 4) == 7 && Padded[4..7] == "1.0"
  {
    assert Padded[4] == '1' && Padded[5] == '.' && Padded[6] == '0' && Padded[7] == '\t' && Padded[8] == '\n';
    assert DigitsEnd(Padded, 4) == 5;
    assert DigitsEnd(Padded, 6) == 7;
  }
  lemma PaddedPre()
    ensures ScanLettered(Padded, 7, PRE_TAGS) == Lettered(None, None, 7)
  {
    NoAlternativeAt(Padded, 7, PRE_TAGS, 0);
    NoLettered(Padded, 7, 7, PRE_TAGS);
  }
  lemma PaddedPost()
    ensures ScanPost(Padded, 7) == PostGroup(None, Lettered(None, None, 7), 7)
  {
    NoAlternativeAt(Padded, 7, POST_TAGS, 0);
    NoLettered(Padded, 7, 7, POST_TAGS);
    SpelledPost(Padded, 7);
  }
  lemma PaddedDev()
    ensures ScanLettered(Padded, 7, DEV_TAGS) == Lettered(None, None, 7)
  {
    NoAlternativeAt(Padded, 7, DEV_TAGS, 0);
    NoLettered(Padded, 7, 7, DEV_TAGS);
  }
  lemma PaddedLocal()
    ensures ScanLocal(Padded, 7) == Plain(None, 7)
  {
  }
  lemma PaddedScan()
    ensures Scan(Padded) == Some(Match(3, 7, PaddedGroups))
  {
    PaddedEpoch(); PaddedRelease(); PaddedPre(); PaddedPost(); PaddedDev(); PaddedLocal();
  }
  lemma PaddedNormalize()
    ensures NumbersFit(PaddedGroups) && FromCaptures(PaddedGroups) == Version(0, [1, 0], None, None, None, None)
  {
    Release1_0();
  }
  lemma PaddedAscii() ensures IsAscii(Padded) {}
  lemma PaddedParse()
    ensures ParsesWithoutPanic(Padded) && Parse(Padded) == Some(Version(0, [1, 0], None, None, None, None))
  {
    PaddedScan(); PaddedAscii(); PaddedNormalize();
    ParseOf(Padded, Match(3, 7, PaddedGroups), Version(0, [1, 0], None, None, None, None));
  }

  /** `1.0+a+`: the second `+` is left after the match. */
  const LocalTrailingPlus := "1.0+a+"
  const LocalTrailingPlusGroups := Captures(None, "1.0", None, None, None, None, None, None, None, Some("a"))
  lemma LocalTrailingPlusEpoch()
    ensures FirstDigit(LocalTrailingPlus, 0) == 0 && ScanEpoch(LocalTrailingPlus, 0) == Plain(None, 0)
  {
    assert LocalTrailingPlus[0] == '1' && LocalTrailingPlus[1] == '.' && LocalTrailingPlus[2] == '0';
  }
  lemma LocalTrailingPlusRelease()
    ensures ReleaseEnd(LocalTrailingPlus, 0) == 3 && LocalTrailingPlus[0..3] == "1.0"
  {
    assert LocalTrailingPlus[0] == '1' && LocalTrailingPlus[1] == '.' && LocalTrailingPlus[2] == '0' && LocalTrailingPlus[3] == '+' && LocalTrailingPlus[4] == 'a';
    assert DigitsEnd(LocalTrailingPlus, 0) == 1;
    assert DigitsEnd(LocalTrailingPlus, 2) == 3;
  }
  lemma LocalTrailingPlusPre()
    ensures ScanLettered(LocalTrailingPlus, 3, PRE_TAGS) == Lettered(None, None, 3)
  {
    NoAlternativeAt(LocalTrailingPlus, 3, PRE_TAGS, 0);
    NoLettered(LocalTrailingPlus, 3, 3, PRE_TAGS);
  }
  lemma LocalTrailingPlusPost()
    ensures ScanPost(LocalTrailingPlus, 3) == PostGroup(None, Lettered(None, None, 3), 3)
  {
    NoAlternativeAt(LocalTrailingPlus, 3, POST_TAGS, 0);
    NoLettered(LocalTrailingPlus, 3, 3, POST_TAGS);
    SpelledPost(LocalTrailingPlus, 3);
  }
  lemma LocalTrailingPlusDev()
    ensures ScanLettered(LocalTrailingPlus, 3, DEV_TAGS) == Lettered(None, None, 3)
  {
    NoAlternativeAt(LocalTrailingPlus, 3, DEV_TAGS, 0);
    NoLettered(LocalTrailingPlus, 3, 3, DEV_TAGS);
  }
  lemma LocalTrailingPlusLocal()
    ensures ScanLocal(LocalTrailingPlus, 3) == Plain(Some("a"), 5)
  {
    assert AlnumEnd(LocalTrailingPlus, 4) == 5;
    assert LocalTrailingPlus[4..5] == "a";
  }
  lemma LocalTrailingPlusScan()
    ensures Scan(LocalTrailingPlus) == Some(Match(0, 5, LocalTrailingPlusGroups))
  {
    LocalTrailingPlusEpoch(); LocalTrailingPlusRelease(); LocalTrailingPlusPre(); LocalTrailingPlusPost(); LocalTrailingPlusDev(); LocalTrailingPlusLocal();
  }
  lemma LocalTrailingPlusLocalParts()
    ensures ParseLocalVersion(Some("a")) == Some([AlphanumVersion("a")])
  {
    assert IsLower("a"[0]);
    OnePart("a", AlphanumVersion("a"));
  }
  lemma LocalTrailingPlusNormalize()
    ensures NumbersFit(LocalTrailingPlusGroups) && FromCaptures(LocalTrailingPlusGroups) == Version(0, [1, 0], None, None, None, Some([AlphanumVersion("a")]))
  {
    Release1_0();
    LocalTrailingPlusLocalParts();
  }
  lemma LocalTrailingPlusAscii() ensures IsAscii(LocalTrailingPlus) {}
  lemma LocalTrailingPlusParse()
    ensures ParsesWithoutPanic(LocalTrailingPlus) && Parse(LocalTrailingPlus) == Some(Version(0, [1, 0], None, None, None, Some([AlphanumVersion("a")])))
  {
    LocalTrailingPlusScan(); LocalTrailingPlusAscii(); LocalTrailingPlusNormalize();
    ParseOf(LocalTrailingPlus, Match(0, 5, LocalTrailingPlusGroups), Version(0, [1, 0], None, None, None, Some([AlphanumVersion("a")])));
  }

  /** `1.0++`: no local segment, the rest is left after the match. */
  const PlusPlus := "1.0++"
  const PlusPlusGroups := Captures(None, "1.0", None, None, None, None, None, None, None, None)
  lemma PlusPlusEpoch()
    ensures FirstDigit(PlusPlus, 0) == 0 && ScanEpoch(PlusPlus, 0) == Plain(None, 0)
  {
    assert PlusPlus[0] == '1' && PlusPlus[1] == '.' && PlusPlus[2] == '0';
  }
  lemma PlusPlusRelease()
    ensures ReleaseEnd(PlusPlus, 0) == 3 && PlusPlus[0..3] == "1.0"
  {
    assert PlusPlus[0] == '1' && PlusPlus[1] == '.' && PlusPlus[2] == '0' && PlusPlus[3] == '+' && PlusPlus[4] == '+';
    assert DigitsEnd(PlusPlus, 0) == 1;
    assert DigitsEnd(PlusPlus, 2) == 3;
  }
  lemma PlusPlusPre()
    ensures ScanLettered(PlusPlus, 3, PRE_TAGS) == Lettered(None, None, 3)
  {
    NoAlternativeAt(PlusPlus, 3, PRE_TAGS, 0);
    NoLettered(PlusPlus, 3, 3, PRE_TAGS);
  }
  lemma PlusPlusPost()
    ensures ScanPost(PlusPlus, 3) == PostGroup(None, Lettered(None, None, 3), 3)
  {
    NoAlternativeAt(PlusPlus, 3, POST_TAGS, 0);
    NoLettered(PlusPlus, 3, 3, POST_TAGS);
    SpelledPost(PlusPlus, 3);
  }
  lemma PlusPlusDev()
    ensures ScanLettered(PlusPlus, 3, DEV_TAGS) == Lettered(None, None, 3)
  {
    NoAlternativeAt(PlusPlus, 3, DEV_TAGS, 0);
    NoLettered(PlusPlus, 3, 3, DEV_TAGS);
  }
  lemma PlusPlusLocal()
    ensures ScanLocal(PlusPlus, 3) == Plain(None, 3)
  {
  }
  lemma PlusPlusScan()
    ensures Scan(PlusPlus) == Some(Match(0, 3, PlusPlusGroups))
  {
    PlusPlusEpoch(); PlusPlusRelease(); PlusPlusPre(); PlusPlusPost(); PlusPlusDev(); PlusPlusLocal();
  }
  lemma PlusPlusNormalize()
    ensures NumbersFit(PlusPlusGroups) && FromCaptures(PlusPlusGroups) == Version(0, [1, 0], None, None, None, None)
  {
    Release1_0();
  }
  lemma PlusPlusAscii() ensures IsAscii(PlusPlus) {}
  lemma PlusPlusParse()
    ensures ParsesWithoutPanic(PlusPlus) && Parse(PlusPlus) == Some(Version(0, [1, 0], None, None, None, None))
  {
    PlusPlusScan(); PlusPlusAscii(); PlusPlusNormalize();
    ParseOf(PlusPlus, Match(0, 3, PlusPlusGroups), Version(0, [1, 0], None, None, None, None));
  }

  /** `1.0+_foobar`: a local segment cannot start with a separator, so there is none. */
  const LocalUnderscore := "1.0+_foobar"
  const LocalUnderscoreGroups := Captures(None, "1.0", None, None, None, None, None, None, None, None)
  lemma LocalUnderscoreEpoch()
    ensures FirstDigit(LocalUnderscore, 0) == 0 && ScanEpoch(LocalUnderscore, 0) == Plain(None, 0)
  {
    assert LocalUnderscore[0] == '1' && LocalUnderscore[1] == '.' && LocalUnderscore[2] == '0';
  }
  lemma LocalUnderscoreRelease()
    ensures ReleaseEnd(LocalUnderscore, 0) == 3 && LocalUnderscore[0..3] == "1.0"
  {
    assert LocalUnderscore[0] == '1' && LocalUnderscore[1] == '.' && LocalUnderscore[2] == '0' && LocalUnderscore[3] == '+' && LocalUnderscore[4] == '_';
    assert DigitsEnd(LocalUnderscore, 0) == 1;
    assert DigitsEnd(LocalUnderscore, 2) == 3;
  }
  lemma LocalUnderscorePre()
    ensures ScanLettered(LocalUnderscore, 3, PRE_TAGS) == Lettered(None, None, 3)
  {
    NoAlternativeAt(LocalUnderscore, 3, PRE_TAGS, 0);
    NoLettered(LocalUnderscore, 3, 3, PRE_TAGS);
  }
  lemma LocalUnderscorePost()
    ensures ScanPost(LocalUnderscore, 3) == PostGroup(None, Lettered(None, None, 3), 3)
  {
    NoAlternativeAt(LocalUnderscore, 3, POST_TAGS, 0);
    NoLettered(LocalUnderscore, 3, 3, POST_TAGS);
    SpelledPost(LocalUnderscore, 3);
  }
  lemma LocalUnderscoreDev()
    ensures ScanLettered(LocalUnderscore, 3, DEV_TAGS) == Lettered(None, None, 3)
  {
    NoAlternativeAt(LocalUnderscore, 3, DEV_TAGS, 0);
    NoLettered(LocalUnderscore, 3, 3, DEV_TAGS);
  }
  lemma LocalUnderscoreLocal()
    ensures ScanLocal(LocalUnderscore, 3) == Plain(None, 3)
  {
  }
  lemma LocalUnderscoreScan()
    ensures Scan(LocalUnderscore) == Some(Match(0, 3, LocalUnderscoreGroups))
  {
    LocalUnderscoreEpoch(); LocalUnderscoreRelease(); LocalUnderscorePre(); LocalUnderscorePost(); LocalUnderscoreDev(); LocalUnderscoreLocal();
  }
  lemma LocalUnderscoreNormalize()
    ensures NumbersFit(LocalUnderscoreGroups) && FromCaptures(LocalUnderscoreGroups) == Version(0, [1, 0], None, None, None, None)
  {
    Release1_0();
  }
  lemma LocalUnderscoreAscii() ensures IsAscii(LocalUnderscore) {}
  lemma LocalUnderscoreParse()
    ensures ParsesWithoutPanic(LocalUnderscore) && Parse(LocalUnderscore) == Some(Version(0, [1, 0], None, None, None, None))
  {
    LocalUnderscoreScan(); LocalUnderscoreAscii(); LocalUnderscoreNormalize();
    ParseOf(LocalUnderscore, Match(0, 3, LocalUnderscoreGroups), Version(0, [1, 0], None, None, None, None));
  }

  /** `1.0+foo&asd`: the local segment stops at `&`. */
  const LocalAmpersand := "1.0+foo&asd"
  const LocalAmpersandGroups := Captures(None, "1.0", None, None, None, None, None, None, None, Some("foo"))
  lemma LocalAmpersandEpoch()
    ensures FirstDigit(LocalAmpersand, 0) == 0 && ScanEpoch(LocalAmpersand, 0) == Plain(None, 0)
  {
    assert LocalAmpersand[0] == '1' && LocalAmpersand[1] == '.' && LocalAmpersand[2] == '0';
  }
  lemma LocalAmpersandRelease()
    ensures ReleaseEnd(LocalAmpersand, 0) == 3 && LocalAmpersand[0..3] == "1.0"
  {
    assert LocalAmpersand[0] == '1' && LocalAmpersand[1] == '.' && LocalAmpersand[2] == '0' && LocalAmpersand[3] == '+' && LocalAmpersand[4] == 'f';
    assert DigitsEnd(LocalAmpersand, 0) == 1;
    assert DigitsEnd(LocalAmpersand, 2) == 3;
  }
  lemma LocalAmpersandPre()
    ensures ScanLettered(LocalAmpersand, 3, PRE_TAGS) == Lettered(None, None, 3)
  {
    NoAlternativeAt(LocalAmpersand, 3, PRE_TAGS, 0);
    NoLettered(LocalAmpersand, 3, 3, PRE_TAGS);
  }
  lemma LocalAmpersandPost()
    ensures ScanPost(LocalAmpersand, 3) == PostGroup(None, Lettered(None, None, 3), 3)
  {
    NoAlternativeAt(LocalAmpersand, 3, POST_TAGS, 0);
    NoLettered(LocalAmpersand, 3, 3, POST_TAGS);
    SpelledPost(LocalAmpersand, 3);
  }
  lemma LocalAmpersandDev()
    ensures ScanLettered(LocalAmpersand, 3, DEV_TAGS) == Lettered(None, None, 3)
  {
    NoAlternativeAt(LocalAmpersand, 3, DEV_TAGS, 0);
    NoLettered(LocalAmpersand, 3, 3, DEV_TAGS);
  }
  lemma LocalAmpersandLocal()
    ensures ScanLocal(LocalAmpersand, 3) == Plain(Some("foo"), 7)
  {
    assert AlnumEnd(LocalAmpersand, 4) == 7;
    assert LocalAmpersand[4..7] == "foo";
  }
  lemma LocalAmpersandScan()
    ensures Scan(LocalAmpersand) == Some(Match(0, 7, LocalAmpersandGroups))
  {
    LocalAmpersandEpoch(); LocalAmpersandRelease(); LocalAmpersandPre(); LocalAmpersandPost(); LocalAmpersandDev(); LocalAmpersandLocal();
  }
  lemma LocalAmpersandLocalParts()
    ensures ParseLocalVersion(Some("foo")) == Some([AlphanumVersion("foo")])
  {
    assert IsLower("foo"[0]);
    OnePart("foo", AlphanumVersion("foo"));
  }
  lemma LocalAmpersandNormalize()
    ensures NumbersFit(LocalAmpersandGroups) && FromCaptures(LocalAmpersandGroups) == Version(0, [1, 0], None, None, None, Some([AlphanumVersion("foo")]))
  {
    Release1_0();
    LocalAmpersandLocalParts();
  }
  lemma LocalAmpersandAscii() ensures IsAscii(LocalAmpersand) {}
  lemma LocalAmpersandParse()
    ensures ParsesWithoutPanic(LocalAmpersand) && Parse(LocalAmpersand) == Some(Version(0, [1, 0], None, None, None, Some([AlphanumVersion("foo")])))
  {
    LocalAmpersandScan(); LocalAmpersandAscii(); LocalAmpersandNormalize();
    ParseOf(LocalAmpersand, Match(0, 7, LocalAmpersandGroups), Version(0, [1, 0], None, None, None, Some([AlphanumVersion("foo")])));
  }

  /** `1.0+1+1`: the local segment stops at the second `+`. */
  const LocalTwoPlus := "1.0+1+1"
  const LocalTwoPlusGroups := Captures(None, "1.0", None, None, None, None, None, None, None, Some("1"))
  lemma LocalTwoPlusEpoch()
    ensures FirstDigit(LocalTwoPlus, 0) == 0 && ScanEpoch(LocalTwoPlus, 0) == Plain(None, 0)
  {
    assert LocalTwoPlus[0] == '1' && LocalTwoPlus[1] == '.' && LocalTwoPlus[2] == '0';
  }
  lemma LocalTwoPlusRelease()
    ensures ReleaseEnd(LocalTwoPlus, 0) == 3 && LocalTwoPlus[0..3] == "1.0"
  {
    assert LocalTwoPlus[0] == '1' && LocalTwoPlus[1] == '.' && LocalTwoPlus[2] == '0' && LocalTwoPlus[3] == '+' && LocalTwoPlus[4] == '1';
    assert DigitsEnd(LocalTwoPlus, 0) == 1;
    assert DigitsEnd(LocalTwoPlus, 2) == 3;
  }
  lemma LocalTwoPlusPre()
    ensures ScanLettered(LocalTwoPlus, 3, PRE_TAGS) == Lettered(None, None, 3)
  {
    NoAlternativeAt(LocalTwoPlus, 3, PRE_TAGS, 0);
    NoLettered(LocalTwoPlus, 3, 3, PRE_TAGS);
  }
  lemma LocalTwoPlusPost()
    ensures ScanPost(LocalTwoPlus, 3) == PostGroup(None, Lettered(None, None, 3), 3)
  {
    NoAlternativeAt(LocalTwoPlus, 3, POST_TAGS, 0);
    NoLettered(LocalTwoPlus, 3, 3, POST_TAGS);
    SpelledPost(LocalTwoPlus, 3);
  }
  lemma LocalTwoPlusDev()
    ensures ScanLettered(LocalTwoPlus, 3, DEV_TAGS) == Lettered(None, None, 3)
  {
    NoAlternativeAt(LocalTwoPlus, 3, DEV_TAGS, 0);
    NoLettered(LocalTwoPlus, 3, 3, DEV_TAGS);
  }
  lemma LocalTwoPlusLocal()
    ensures ScanLocal(LocalTwoPlus, 3) == Plain(Some("1"), 5)
  {
    assert AlnumEnd(LocalTwoPlus, 4) == 5;
    assert LocalTwoPlus[4..5] == "1";
  }
  lemma LocalTwoPlusScan()
    ensures Scan(LocalTwoPlus) == Some(Match(0, 5, LocalTwoPlusGroups))
  {
    LocalTwoPlusEpoch(); LocalTwoPlusRelease(); LocalTwoPlusPre(); LocalTwoPlusPost(); LocalTwoPlusDev(); LocalTwoPlusLocal();
  }
  lemma LocalTwoPlusLocalParts()
    ensures ParseLocalVersion(Some("1")) == Some([NumericVersion(1)])
  {
    Digits1();
    OnePart("1", NumericVersion(1));
  }
  lemma LocalTwoPlusNormalize()
    ensures NumbersFit(LocalTwoPlusGroups) && FromCaptures(LocalTwoPlusGroups) == Version(0, [1, 0], None, None, None, Some([NumericVersion(1)]))
  {
    Release1_0();
    LocalTwoPlusLocalParts();
  }
  lemma LocalTwoPlusAscii() ensures IsAscii(LocalTwoPlus) {}
  lemma LocalTwoPlusParse()
    ensures ParsesWithoutPanic(LocalTwoPlus) && Parse(LocalTwoPlus) == Some(Version(0, [1, 0], None, None, None, Some([NumericVersion(1)])))
  {
    LocalTwoPlusScan(); LocalTwoPlusAscii(); LocalTwoPlusNormalize();
    ParseOf(LocalTwoPlus, Match(0, 5, LocalTwoPlusGroups), Version(0, [1, 0], None, None, None, Some([NumericVersion(1)])));
  }

  /** `1.0-5`: the implicit post release. */
  const Shorthand := "1.0-5"
  const ShorthandGroups := Captures(None, "1.0", None, None, Some("5"), None, None, None, None, None)
  lemma ShorthandEpoch()
    ensures FirstDigit(Shorthand, 0) == 0 && ScanEpoch(Shorthand, 0) == Plain(None, 0)
  {
    assert Shorthand[0] == '1' && Shorthand[1] == '.' && Shorthand[2] == '0';
  }
  lemma ShorthandRelease()
    ensures ReleaseEnd(Shorthand, 0) == 3 && Shorthand[0..3] == "1.0"
  {
    assert Shorthand[0] == '1' && Shorthand[1] == '.' && Shorthand[2] == '0' && Shorthand[3] == '-' && Shorthand[4] == '5';
    assert DigitsEnd(Shorthand, 0) == 1;
    assert DigitsEnd(Shorthand, 2) == 3;
  }
  lemma ShorthandPre()
    ensures ScanLettered(Shorthand, 3, PRE_TAGS) == Lettered(None, None, 3)
  {
    NoAlternativeAt(Shorthand, 4, PRE_TAGS, 0);
    NoLettered(Shorthand, 3, 4, PRE_TAGS);
  }
  lemma ShorthandPost()
    ensures ScanPost(Shorthand, 3) == PostGroup(Some("5"), Lettered(None, None, 3), 5)
  {
    assert DigitsEnd(Shorthand, 4) == 5 && Shorthand[4..5] == "5";
  }
  lemma ShorthandDev()
    ensures ScanLettered(Shorthand, 5, DEV_TAGS) == Lettered(None, None, 5)
  {
    NoAlternativeAt(Shorthand, 5, DEV_TAGS, 0);
    NoLettered(Shorthand, 5, 5, DEV_TAGS);
  }
  lemma ShorthandLocal()
    ensures ScanLocal(Shorthand, 5) == Plain(None, 5)
  {
  }
  lemma ShorthandScan()
    ensures Scan(Shorthand) == Some(Match(0, 5, ShorthandGroups))
  {
    ShorthandEpoch(); ShorthandRelease(); ShorthandPre(); ShorthandPost(); ShorthandDev(); ShorthandLocal();
  }
  lemma ShorthandPostSegment()
    ensures Fits(Some("5")) && ParseLetterVersion(None, Some("5")) == Some(Tagged("post", 5))
  {
    Digits5();
  }
  lemma ShorthandNormalize()
    ensures NumbersFit(ShorthandGroups) && FromCaptures(ShorthandGroups) == Version(0, [1, 0], None, Some(Tagged("post", 5)), None, None)
  {
    Release1_0();
    Digits5();
    ShorthandPostSegment();
  }
  lemma ShorthandAscii() ensures IsAscii(Shorthand) {}
  lemma ShorthandParse()
    ensures ParsesWithoutPanic(Shorthand) && Parse(Shorthand) == Some(Version(0, [1, 0], None, Some(Tagged("post", 5)), None, None))
  {
    ShorthandScan(); ShorthandAscii(); ShorthandNormalize();
    ParseOf(Shorthand, Match(0, 5, ShorthandGroups), Version(0, [1, 0], None, Some(Tagged("post", 5)), None, None));
  }

  /** `7!1.0b2.post345.dev456`: every public segment. */
  const Full := "7!1.0b2.post345.dev456"
  const FullGroups := Captures(Some("7"), "1.0", Some("b"), Some("2"), None, Some("post"), Some("345"), Some("dev"), Some("456"), None)
  lemma FullEpoch()
    ensures FirstDigit(Full, 0) == 0 && ScanEpoch(Full, 0) == Plain(Some("7"), 2)
  {
    assert Full[0] == '7' && Full[1] == '!' && Full[2] == '1';
    assert DigitsEnd(Full, 0) == 1 && Full[0..1] == "7";
  }
  lemma FullRelease()
    ensures ReleaseEnd(Full, 2) == 5 && Full[2..5] == "1.0"
  {
    assert Full[2] == '1' && Full[3] == '.' && Full[4] == '0' && Full[5] == 'b' && Full[6] == '2';
    assert DigitsEnd(Full, 2) == 3;
    assert DigitsEnd(Full, 4) == 5;
  }
  lemma FullPreTag()
    ensures FirstAlternative(Full, 5, PRE_TAGS, 0) == Some(1)
  {
    AlternativeAt(Full, 5, PRE_TAGS, 0, 1);
  }
  lemma FullPreDigits()
    ensures DigitsEnd(Full, 6) == 7
  {
    assert Full[6] == '2' && Full[7] == '.';
  }
  lemma FullPreText()
    ensures Full[5..6] == "b" && Full[6..7] == "2"
  {
  }
  lemma FullPre()
    ensures ScanLettered(Full, 5, PRE_TAGS) == Lettered(Some("b"), Some("2"), 7)
  {
    FullPreTag(); FullPreDigits(); FullPreText();
    TakeLettered(Full, 5, 5, PRE_TAGS, 1, 6, 7);
  }
  lemma FullPostTag()
    ensures FirstAlternative(Full, 8, POST_TAGS, 0) == Some(0)
  {
    AlternativeAt(Full, 8, POST_TAGS, 0, 0);
  }
  lemma FullPostDigits()
    ensures DigitsEnd(Full, 12) == 15
  {
    assert Full[12] == '3' && Full[13] == '4' && Full[14] == '5' && Full[15] == '.';
  }
  lemma FullPostText()
    ensures Full[8..12] == "post" && Full[12..15] == "345"
  {
  }
  lemma FullPost()
    ensures ScanPost(Full, 7) == PostGroup(None, Lettered(Some("post"), Some("345"), 15), 15)
  {
    FullPostTag(); FullPostDigits(); FullPostText();
    TakeLettered(Full, 7, 8, POST_TAGS, 0, 12, 15);
    SpelledPost(Full, 7);
  }
  lemma FullDevTag()
    ensures FirstAlternative(Full, 16, DEV_TAGS, 0) == Some(0)
  {
    AlternativeAt(Full, 16, DEV_TAGS, 0, 0);
  }
  lemma FullDevDigits()
    ensures DigitsEnd(Full, 19) == 22
  {
    assert Full[19] == '4' && Full[20] == '5' && Full[21] == '6';
  }
  lemma FullDevText()
    ensures Full[16..19] == "dev" && Full[19..22] == "456"
  {
  }
  lemma FullDev()
    ensures ScanLettered(Full, 15, DEV_TAGS) == Lettered(Some("dev"), Some("456"), 22)
  {
    FullDevTag(); FullDevDigits(); FullDevText();
    TakeLettered(Full, 15, 16, DEV_TAGS, 0, 19, 22);
  }
  lemma FullLocal()
    ensures ScanLocal(Full, 22) == Plain(None, 22)
  {
  }
  lemma FullScan()
    ensures Scan(Full) == Some(Match(0, 22, FullGroups))
  {
    FullEpoch(); FullRelease(); FullPre(); FullPost(); FullDev(); FullLocal();
  }
  lemma FullPreSegment()
    ensures Fits(Some("2")) && ParseLetterVersion(Some("b"), Some("2")) == Some(Tagged("b", 2))
  {
    Digits2();
    AlreadyLowercase("b");
  }
  lemma FullPostSegment()
    ensures Fits(Some("345")) && ParseLetterVersion(Some("post"), Some("345")) == Some(Tagged("post", 345))
  {
    Digits345();
    AlreadyLowercase("post");
  }
  lemma FullDevSegment()
    ensures Fits(Some("456")) && ParseLetterVersion(Some("dev"), Some("456")) == Some(Tagged("dev", 456))
  {
    Digits456();
    AlreadyLowercase("dev");
  }
  lemma FullNormalize()
    ensures NumbersFit(FullGroups) && FromCaptures(FullGroups) == Version(7, [1, 0], Some(Tagged("b", 2)), Some(Tagged("post", 345)), Some(Tagged("dev", 456)), None)
  {
    Release1_0();
    Digits7();
    Digits2();
    Digits345();
    Digits456();
    FullPreSegment();
    FullPostSegment();
    FullDevSegment();
  }
  lemma FullAscii() ensures IsAscii(Full) {}
  lemma FullParse()
    ensures ParsesWithoutPanic(Full) && Parse(Full) == Some(Version(7, [1, 0], Some(Tagged("b", 2)), Some(Tagged("post", 345)), Some(Tagged("dev", 456)), None))
  {
    FullScan(); FullAscii(); FullNormalize();
    ParseOf(Full, Match(0, 22, FullGroups), Version(7, [1, 0], Some(Tagged("b", 2)), Some(Tagged("post", 345)), Some(Tagged("dev", 456)), None));
  }

  /** `1.2.rev33+123456`: `rev` is a post release, and a numeric local part. */
  const RevLocal := "1.2.rev33+123456"
  const RevLocalGroups := Captures(None, "1.2", None, None, None, Some("rev"), Some("33"), None, None, Some("123456"))
  lemma RevLocalEpoch()
    ensures FirstDigit(RevLocal, 0) == 0 && ScanEpoch(RevLocal, 0) == Plain(None, 0)
  {
    assert RevLocal[0] == '1' && RevLocal[1] == '.' && RevLocal[2] == '2';
  }
  lemma RevLocalRelease()
    ensures ReleaseEnd(RevLocal, 0) == 3 && RevLocal[0..3] == "1.2"
  {
    assert RevLocal[0] == '1' && RevLocal[1] == '.' && RevLocal[2] == '2' && RevLocal[3] == '.' && RevLocal[4] == 'r';
    assert DigitsEnd(RevLocal, 0) == 1;
    assert DigitsEnd(RevLocal, 2) == 3;
  }
  lemma RevLocalPre()
    ensures ScanLettered(RevLocal, 3, PRE_TAGS) == Lettered(None, None, 3)
  {
    NoAlternativeAt(RevLocal, 4, PRE_TAGS, 0);
    NoLettered(RevLocal, 3, 4, PRE_TAGS);
  }
  lemma RevLocalPostTag()
    ensures FirstAlternative(RevLocal, 4, POST_TAGS, 0) == Some(1)
  {
    AlternativeAt(RevLocal, 4, POST_TAGS, 0, 1);
  }
  lemma RevLocalPostDigits()
    ensures DigitsEnd(RevLocal, 7) == 9
  {
    assert RevLocal[7] == '3' && RevLocal[8] == '3' && RevLocal[9] == '+';
  }
  lemma RevLocalPostText()
    ensures RevLocal[4..7] == "rev" && RevLocal[7..9] == "33"
  {
  }
  lemma RevLocalPost()
    ensures ScanPost(RevLocal, 3) == PostGroup(None, Lettered(Some("rev"), Some("33"), 9), 9)
  {
    RevLocalPostTag(); RevLocalPostDigits(); RevLocalPostText();
    TakeLettered(RevLocal, 3, 4, POST_TAGS, 1, 7, 9);
    SpelledPost(RevLocal, 3);
  }
  lemma RevLocalDev()
    ensures ScanLettered(RevLocal, 9, DEV_TAGS) == Lettered(None, None, 9)
  {
    NoAlternativeAt(RevLocal, 9, DEV_TAGS, 0);
    NoLettered(RevLocal, 9, 9, DEV_TAGS);
  }
  lemma RevLocalLocal()
    ensures ScanLocal(RevLocal, 9) == Plain(Some("123456"), 16)
  {
    assert AlnumEnd(RevLocal, 10) == 16;
    assert RevLocal[10..16] == "123456";
  }
  lemma RevLocalScan()
    ensures Scan(RevLocal) == Some(Match(0, 16, RevLocalGroups))
  {
    RevLocalEpoch(); RevLocalRelease(); RevLocalPre(); RevLocalPost(); RevLocalDev(); RevLocalLocal();
  }
  lemma RevLocalLocalParts()
    ensures ParseLocalVersion(Some("123456")) == Some([NumericVersion(123456)])
  {
    Digits123456();
    OnePart("123456", NumericVersion(123456));
  }
  lemma RevLocalPostSegment()
    ensures Fits(Some("33")) && ParseLetterVersion(Some("rev"), Some("33")) == Some(Tagged("post", 33))
  {
    Digits33();
    AlreadyLowercase("rev");
  }
  lemma RevLocalNormalize()
    ensures NumbersFit(RevLocalGroups) && FromCaptures(RevLocalGroups) == Version(0, [1, 2], None, Some(Tagged("post", 33)), None, Some([NumericVersion(123456)]))
  {
    Release1_2();
    Digits33();
    RevLocalPostSegment();
    RevLocalLocalParts();
  }
  lemma RevLocalAscii() ensures IsAscii(RevLocal) {}
  lemma RevLocalParse()
    ensures ParsesWithoutPanic(RevLocal) && Parse(RevLocal) == Some(Version(0, [1, 2], None, Some(Tagged("post", 33)), None, Some([NumericVersion(123456)])))
  {
    RevLocalScan(); RevLocalAscii(); RevLocalNormalize();
    ParseOf(RevLocal, Match(0, 16, RevLocalGroups), Version(0, [1, 2], None, Some(Tagged("post", 33)), None, Some([NumericVersion(123456)])));
  }

  /** `1.0a12.dev456`. */
  const Alpha12Dev456 := "1.0a12.dev456"
  const Alpha12Dev456Groups := Captures(None, "1.0", Some("a"), Some("12"), None, None, None, Some("dev"), Some("456"), None)
  lemma Alpha12Dev456Epoch()
    ensures FirstDigit(Alpha12Dev456, 0) == 0 && ScanEpoch(Alpha12Dev456, 0) == Plain(None, 0)
  {
    assert Alpha12Dev456[0] == '1' && Alpha12Dev456[1] == '.' && Alpha12Dev456[2] == '0';
  }
  lemma Alpha12Dev456Release()
    ensures ReleaseEnd(Alpha12Dev456, 0) == 3 && Alpha12Dev456[0..3] == "1.0"
  {
    assert Alpha12Dev456[0] == '1' && Alpha12Dev456[1] == '.' && Alpha12Dev456[2] == '0' && Alpha12Dev456[3] == 'a' && Alpha12Dev456[4] == '1';
    assert DigitsEnd(Alpha12Dev456, 0) == 1;
    assert DigitsEnd(Alpha12Dev456, 2) == 3;
  }
  lemma Alpha12Dev456PreTag()
    ensures FirstAlternative(Alpha12Dev456, 3, PRE_TAGS, 0) == Some(0)
  {
    AlternativeAt(Alpha12Dev456, 3, PRE_TAGS, 0, 0);
  }
  lemma Alpha12Dev456PreDigits()
    ensures DigitsEnd(Alpha12Dev456, 4) == 6
  {
    assert Alpha12Dev456[4] == '1' && Alpha12Dev456[5] == '2' && Alpha12Dev456[6] == '.';
  }
  lemma Alpha12Dev456PreText()
    ensures Alpha12Dev456[3..4] == "a" && Alpha12Dev456[4..6] == "12"
  {
  }
  lemma Alpha12Dev456Pre()
    ensures ScanLettered(Alpha12Dev456, 3, PRE_TAGS) == Lettered(Some("a"), Some("12"), 6)
  {
    Alpha12Dev456PreTag(); Alpha12Dev456PreDigits(); Alpha12Dev456PreText();
    TakeLettered(Alpha12Dev456, 3, 3, PRE_TAGS, 0, 4, 6);
  }
  lemma Alpha12Dev456Post()
    ensures ScanPost(Alpha12Dev456, 6) == PostGroup(None, Lettered(None, None, 6), 6)
  {
    NoAlternativeAt(Alpha12Dev456, 7, POST_TAGS, 0);
    NoLettered(Alpha12Dev456, 6, 7, POST_TAGS);
    SpelledPost(Alpha12Dev456, 6);
  }
  lemma Alpha12Dev456DevTag()
    ensures FirstAlternative(Alpha12Dev456, 7, DEV_TAGS, 0) == Some(0)
  {
    AlternativeAt(Alpha12Dev456, 7, DEV_TAGS, 0, 0);
  }
  lemma Alpha12Dev456DevDigits()
    ensures DigitsEnd(Alpha12Dev456, 10) == 13
  {
    assert Alpha12Dev456[10] == '4' && Alpha12Dev456[11] == '5' && Alpha12Dev456[12] == '6';
  }
  lemma Alpha12Dev456DevText()
    ensures Alpha12Dev456[7..10] == "dev" && Alpha12Dev456[10..13] == "456"
  {
  }
  lemma Alpha12Dev456Dev()
    ensures ScanLettered(Alpha12Dev456, 6, DEV_TAGS) == Lettered(Some("dev"), Some("456"), 13)
  {
    Alpha12Dev456DevTag(); Alpha12Dev456DevDigits(); Alpha12Dev456DevText();
    TakeLettered(Alpha12Dev456, 6, 7, DEV_TAGS, 0, 10, 13);
  }
  lemma Alpha12Dev456Local()
    ensures ScanLocal(Alpha12Dev456, 13) == Plain(None, 13)
  {
  }
  lemma Alpha12Dev456Scan()
    ensures Scan(Alpha12Dev456) == Some(Match(0, 13, Alpha12Dev456Groups))
  {
    Alpha12Dev456Epoch(); Alpha12Dev456Release(); Alpha12Dev456Pre(); Alpha12Dev456Post(); Alpha12Dev456Dev(); Alpha12Dev456Local();
  }
  lemma Alpha12Dev456PreSegment()
    ensures Fits(Some("12")) && ParseLetterVersion(Some("a"), Some("12")) == Some(Tagged("a", 12))
  {
    Digits12();
    AlreadyLowercase("a");
  }
  lemma Alpha12Dev456DevSegment()
    ensures Fits(Some("456")) && ParseLetterVersion(Some("dev"), Some("456")) == Some(Tagged("dev", 456))
  {
    Digits456();
    AlreadyLowercase("dev");
  }
  lemma Alpha12Dev456Normalize()
    ensures NumbersFit(Alpha12Dev456Groups) && FromCaptures(Alpha12Dev456Groups) == Version(0, [1, 0], Some(Tagged("a", 12)), None, Some(Tagged("dev", 456)), None)
  {
    Release1_0();
    Digits12();
    Digits456();
    Alpha12Dev456PreSegment();
    Alpha12Dev456DevSegment();
  }
  lemma Alpha12Dev456Ascii() ensures IsAscii(Alpha12Dev456) {}
  lemma Alpha12Dev456Parse()
    ensures ParsesWithoutPanic(Alpha12Dev456) && Parse(Alpha12Dev456) == Some(Version(0, [1, 0], Some(Tagged("a", 12)), None, Some(Tagged("dev", 456)), None))
  {
    Alpha12Dev456Scan(); Alpha12Dev456Ascii(); Alpha12Dev456Normalize();
    ParseOf(Alpha12Dev456, Match(0, 13, Alpha12Dev456Groups), Version(0, [1, 0], Some(Tagged("a", 12)), None, Some(Tagged("dev", 456)), None));
  }

  /** `1.0a12`. */
  const Alpha12 := "1.0a12"
  const Alpha12Groups := Captures(None, "1.0", Some("a"), Some("12"), None, None, None, None, None, None)
  lemma Alpha12Epoch()
    ensures FirstDigit(Alpha12, 0) == 0 && ScanEpoch(Alpha12, 0) == Plain(None, 0)
  {
    assert Alpha12[0] == '1' && Alpha12[1] == '.' && Alpha12[2] == '0';
  }
  lemma Alpha12Release()
    ensures ReleaseEnd(Alpha12, 0) == 3 && Alpha12[0..3] == "1.0"
  {
    assert Alpha12[0] == '1' && Alpha12[1] == '.' && Alpha12[2] == '0' && Alpha12[3] == 'a' && Alpha12[4] == '1';
    assert DigitsEnd(Alpha12, 0) == 1;
    assert DigitsEnd(Alpha12, 2) == 3;
  }
  lemma Alpha12PreTag()
    ensures FirstAlternative(Alpha12, 3, PRE_TAGS, 0) == Some(0)
  {
    AlternativeAt(Alpha12, 3, PRE_TAGS, 0, 0);
  }
  lemma Alpha12PreDigits()
    ensures DigitsEnd(Alpha12, 4) == 6
  {
    assert Alpha12[4] == '1' && Alpha12[5] == '2';
  }
  lemma Alpha12PreText()
    ensures Alpha12[3..4] == "a" && Alpha12[4..6] == "12"
  {
  }
  lemma Alpha12Pre()
    ensures ScanLettered(Alpha12, 3, PRE_TAGS) == Lettered(Some("a"), Some("12"), 6)
  {
    Alpha12PreTag(); Alpha12PreDigits(); Alpha12PreText();
    TakeLettered(Alpha12, 3, 3, PRE_TAGS, 0, 4, 6);
  }
  lemma Alpha12Post()
    ensures ScanPost(Alpha12, 6) == PostGroup(None, Lettered(None, None, 6), 6)
  {
    NoAlternativeAt(Alpha12, 6, POST_TAGS, 0);
    NoLettered(Alpha12, 6, 6, POST_TAGS);
    SpelledPost(Alpha12, 6);
  }
  lemma Alpha12Dev()
    ensures ScanLettered(Alpha12, 6, DEV_TAGS) == Lettered(None, None, 6)
  {
    NoAlternativeAt(Alpha12, 6, DEV_TAGS, 0);
    NoLettered(Alpha12, 6, 6, DEV_TAGS);
  }
  lemma Alpha12Local()
    ensures ScanLocal(Alpha12, 6) == Plain(None, 6)
  {
  }
  lemma Alpha12Scan()
    ensures Scan(Alpha12) == Some(Match(0, 6, Alpha12Groups))
  {
    Alpha12Epoch(); Alpha12Release(); Alpha12Pre(); Alpha12Post(); Alpha12Dev(); Alpha12Local();
  }
  lemma Alpha12PreSegment()
    ensures Fits(Some("12")) && ParseLetterVersion(Some("a"), Some("12")) == Some(Tagged("a", 12))
  {
    Digits12();
    AlreadyLowercase("a");
  }
  lemma Alpha12Normalize()
    ensures NumbersFit(Alpha12Groups) && FromCaptures(Alpha12Groups) == Version(0, [1, 0], Some(Tagged("a", 12)), None, None, None)
  {
    Release1_0();
    Digits12();
    Alpha12PreSegment();
  }
  lemma Alpha12Ascii() ensures IsAscii(Alpha12) {}
  lemma Alpha12Parse()
    ensures ParsesWithoutPanic(Alpha12) && Parse(Alpha12) == Some(Version(0, [1, 0], Some(Tagged("a", 12)), None, None, None))
  {
    Alpha12Scan(); Alpha12Ascii(); Alpha12Normalize();
    ParseOf(Alpha12, Match(0, 6, Alpha12Groups), Version(0, [1, 0], Some(Tagged("a", 12)), None, None, None));
  }

  lemma Release1_0()
    ensures ReleaseFits("1.0") && ParseRelease("1.0") == [1, 0]
  {
    assert "1.0"[..1] == "1" && "1.0"[2..] == "0";
    SplitAtSeparator("1.0", {'.'}, 1);
    SplitNoSeparator("0", {'.'});
    Digits1();
    Digits0();
  }

  lemma Release1_01()
    ensures ReleaseFits("1.01") && ParseRelease("1.01") == [1, 1]
  {
    assert "1.01"[..1] == "1" && "1.01"[2..] == "01";
    SplitAtSeparator("1.01", {'.'}, 1);
    SplitNoSeparator("01", {'.'});
    Digits1();
    Digits01();
  }

  lemma Release1_2()
    ensures ReleaseFits("1.2") && ParseRelease("1.2") == [1, 2]
  {
    assert "1.2"[..1] == "1" && "1.2"[2..] == "2";
    SplitAtSeparator("1.2", {'.'}, 1);
    SplitNoSeparator("2", {'.'});
    Digits1();
    Digits2();
  }

  lemma Digits0()
    ensures ParseU64("0") == Some(0)
  {
    NumberIs("0", 0);
  }

  lemma Digits1()
    ensures ParseU64("1") == Some(1)
  {
    NumberIs("1", 1);
  }

  lemma Digits2()
    ensures ParseU64("2") == Some(2)
  {
    NumberIs("2", 2);
  }

  lemma Digits5()
    ensures ParseU64("5") == Some(5)
  {
    NumberIs("5", 5);
  }

  lemma Digits7()
    ensures ParseU64("7") == Some(7)
  {
    NumberIs("7", 7);
  }

  lemma Digits00()
    ensures ParseU64("00") == Some(0)
  {
    assert "00"[..1] == "0";
    NumberIs("00", 0);
  }

  lemma Digits01()
    ensures ParseU64("01") == Some(1)
  {
    assert "01"[..1] == "0";
    NumberIs("01", 1);
  }

  lemma Digits12()
    ensures ParseU64("12") == Some(12)
  {
    assert "12"[..1] == "1";
    NumberIs("12", 12);
  }

  lemma Digits33()
    ensures ParseU64("33") == Some(33)
  {
    assert "33"[..1] == "3";
    NumberIs("33", 33);
  }

  lemma Digits345()
    ensures ParseU64("345") == Some(345)
  {
    assert "34"[..1] == "3";
    assert "345"[..2] == "34";
    NumberIs("345", 345);
  }

  lemma Digits456()
    ensures ParseU64("456") == Some(456)
  {
    assert "45"[..1] == "4";
    assert "456"[..2] == "45";
    NumberIs("456", 456);
  }

  lemma Digits123456()
    ensures ParseU64("123456") == Some(123456)
  {
    assert "12"[..1] == "1";
    assert "123"[..2] == "12";
    assert "1234"[..3] == "123";
    assert "12345"[..4] == "1234";
    assert "123456"[..5] == "12345";
    NumberIs("123456", 123456);
  }

  // ---------------------------------------------------------------------
  // What the parses above show
  // ---------------------------------------------------------------------

  /**
   * The unit test of `parse_local_version` (src/lib.rs:216-228): `abc.1.twelve`
   * gives an alphanumeric part, a numeric part and an alphanumeric part.
   */
  lemma LocalUnitTest()
    ensures ParseLocalVersion(Some("abc.1.twelve")) == Some([AlphanumVersion("abc"), NumericVersion(1), AlphanumVersion("twelve")])
  {
    UnitTestPieces();
    UnitTestParts();
    ThreeParts("abc.1.twelve", "abc", "1", "twelve", AlphanumVersion("abc"), NumericVersion(1), AlphanumVersion("twelve"));
  }

  /** A local label that splits into three pieces gives their three parts. */
  lemma ThreeParts(text: string, x: string, y: string, z: string, px: LocalTypePart, py: LocalTypePart, pz: LocalTypePart)
    requires Split(text, LOCAL_SEPARATORS) == [x, y, z]
    requires ParseLocalPart(x) == px && ParseLocalPart(y) == py && ParseLocalPart(z) == pz
    ensures ParseLocalVersion(Some(text)) == Some([px, py, pz])
  {
    LocalOf(text, [px, py, pz]);
  }

  lemma UnitTestPieces()
    ensures Split("abc.1.twelve", LOCAL_SEPARATORS) == ["abc", "1", "twelve"]
  {
    assert "abc.1.twelve" == "abc" + ['.'] + ("1" + ['.'] + "twelve");
    assert Avoids("abc", LOCAL_SEPARATORS) && Avoids("1", LOCAL_SEPARATORS) && Avoids("twelve", LOCAL_SEPARATORS);
    ThreePieces("abc", "1", "twelve", '.', LOCAL_SEPARATORS);
  }

  /** Three separator-free pieces joined by a separator split back into those pieces. */
  lemma ThreePieces(x: string, y: string, z: string, c: char, seps: set<char>)
    requires Avoids(x, seps) && Avoids(y, seps) && Avoids(z, seps) && c in seps
    ensures Split(x + [c] + (y + [c] + z), seps) == [x, y, z]
  {
    SplitNoSeparator(z, seps);
    SplitAfterPiece(y, c, z, seps);
    SplitAfterPiece(x, c, y + [c] + z, seps);
  }

  lemma UnitTestParts()
    ensures ParseLocalPart("abc") == AlphanumVersion("abc")
    ensures ParseLocalPart("1") == NumericVersion(1)
    ensures ParseLocalPart("twelve") == AlphanumVersion("twelve")
  {
    Digits1();
    assert IsLower("abc"[0]) && IsLower("twelve"[0]);
  }

  /** Among the canonical pre-release tags, `a < b < rc`. */
  lemma CanonicalPreTagsAscending()
    ensures CmpString("a", "b") == Less && CmpString("b", "rc") == Less && CmpString("a", "rc") == Less
  {
  }

  /** Only trailing zeros are stripped from the release in the key: `1.0.0` keys as `1`, `1.0.1` keeps its inner zero. */
  lemma InnerZeroKept()
    ensures StripTrailingZeros([1, 0, 0]) == [1]
    ensures StripTrailingZeros([1, 0, 1]) == [1, 0, 1]
  {
    assert [1, 0, 0][..2] == [1, 0];
    assert [1, 0][..1] == [1];
  }

  /** `1.0c1 == 1.0rc1` (tests/test_version.rs:274-276). */
  lemma RcSpellingsEqual()
    ensures ParsesWithoutPanic(C1) && ParsesWithoutPanic(Rc1)
    ensures Parse(C1) == Parse(Rc1) && Parse(C1).Some? && Cmp(Parse(C1).value, Parse(Rc1).value) == Equal
  {
    C1Parse();
    Rc1Parse();
    CmpReflexive(Parse(C1).value);
  }

  /** Text with no ASCII digit has no version in it. */
  lemma FrenchToastRejected()
    ensures ParsesWithoutPanic("french toast") && Parse("french toast") == None
  {
    var s := "french toast";
    assert forall i :: 0 <= i < |s| ==> !IsDigit(s[i]);
  }

  /**
   * The five inputs the tests expect to be rejected
   * (tests/test_version.rs:77-82) all parse, as `1.0` or with the local
   * segment cut short.
   */
  lemma RejectedInputsAccepted()
    ensures ParsesWithoutPanic(LocalTrailingPlus) && Parse(LocalTrailingPlus).Some?
    ensures ParsesWithoutPanic(PlusPlus) && Parse(PlusPlus).Some?
    ensures ParsesWithoutPanic(LocalUnderscore) && Parse(LocalUnderscore).Some?
    ensures ParsesWithoutPanic(LocalAmpersand) && Parse(LocalAmpersand).Some?
    ensures ParsesWithoutPanic(LocalTwoPlus) && Parse(LocalTwoPlus).Some?
  {
    LocalTrailingPlusParse();
    PlusPlusParse();
    LocalUnderscoreParse();
    LocalAmpersandParse();
    LocalTwoPlusParse();
  }

  /**
   * `1.0.alpha1` parses as `1.0a0`; scanning the same text with the
   * spellings in longest-first order takes `alpha` and its number, which
   * normalize to `1.0a1` as the tests expect (tests/test_version.rs:117).
   */
  lemma AlphaNumberDropped()
    ensures ParsesWithoutPanic(Alpha1) && Parse(Alpha1).Some? && Parse(Alpha1).value.pre == Some(Tagged("a", 0))
    ensures ScanLettered(Alpha1, 3, PRE_TAGS_LONGEST_FIRST) == Lettered(Some("alpha"), Some("1"), 10)
    ensures Fits(Some("1")) && ParseLetterVersion(Some("alpha"), Some("1")) == Some(Tagged("a", 1))
  {
    Alpha1Parse();
    Alpha1LongestFirst();
    AlphaOne();
  }

  lemma AlphaOne()
    ensures Fits(Some("1")) && ParseLetterVersion(Some("alpha"), Some("1")) == Some(Tagged("a", 1))
  {
    Digits1();
    AlreadyLowercase("alpha");
  }

  lemma Alpha1LongestFirstTag()
    ensures FirstAlternative(Alpha1, 4, PRE_TAGS_LONGEST_FIRST, 0) == Some(0)
  {
    AlternativeAt(Alpha1, 4, PRE_TAGS_LONGEST_FIRST, 0, 0);
  }
  lemma Alpha1LongestFirstDigits()
    ensures DigitsEnd(Alpha1, 9) == 10
  {
    assert Alpha1[9] == '1';
  }
  lemma Alpha1LongestFirstText()
    ensures Alpha1[4..9] == "alpha" && Alpha1[9..10] == "1"
  {
  }
  lemma Alpha1LongestFirst()
    ensures ScanLettered(Alpha1, 3, PRE_TAGS_LONGEST_FIRST) == Lettered(Some("alpha"), Some("1"), 10)
  {
    Alpha1LongestFirstTag(); Alpha1LongestFirstDigits(); Alpha1LongestFirstText();
    TakeLettered(Alpha1, 3, 4, PRE_TAGS_LONGEST_FIRST, 0, 9, 10);
  }

  /** `1.0+AbC` keeps its capitals, so it differs from `1.0+abc` (tests/test_version.rs:194). */
  lemma LocalCaseKeptOnParse()
    ensures ParsesWithoutPanic(UpperLocal) && Parse(UpperLocal).Some?
    ensures Parse(UpperLocal).value.local == Some([AlphanumVersion("AbC")])
    ensures !Eq(Parse(UpperLocal).value, Parse(UpperLocal).value.(local := Some([AlphanumVersion("abc")])))
  {
    UpperLocalParse();
  }

  /**
   * `1.0a12.dev456` and `1.0a12` compare `Equal` as written
   * (tests/test_version.rs:10-11 expects them ascending); with the intended
   * dev key the dev release is below.
   */
  lemma DevReleaseNotBelow()
    ensures ParsesWithoutPanic(Alpha12Dev456) && ParsesWithoutPanic(Alpha12)
    ensures Parse(Alpha12Dev456).Some? && Parse(Alpha12).Some?
    ensures Cmp(Parse(Alpha12Dev456).value, Parse(Alpha12).value) == Equal
    ensures CmpIntended(Parse(Alpha12Dev456).value, Parse(Alpha12).value) == Less
  {
    Alpha12Dev456Parse();
    Alpha12Parse();
    assert Parse(Alpha12Dev456).value == V3 && Parse(Alpha12).value == V4;
    Adjacent3();
  }

  // ---------------------------------------------------------------------
  // The ordered versions of tests/test_version.rs:7-33
  // ---------------------------------------------------------------------

  function Pre(tag: string, n: nat): Option<Tagged> { Some(Tagged(tag, n)) }
  function Post(n: nat): Option<Tagged> { Some(Tagged("post", n)) }
  function Dev(n: nat): Option<Tagged> { Some(Tagged("dev", n)) }

  // The versions with epoch 0 that the tests list in ascending order, as
  // `Version::parse` normalizes them.
  const V0: Version := Version(0, [1, 0], None, None, Dev(456), None)  // 1.0.dev456
  const V1: Version := Version(0, [1, 0], Pre("a", 1), None, None, None)  // 1.0a1
  const V2: Version := Version(0, [1, 0], Pre("a", 2), None, Dev(456), None)  // 1.0a2.dev456
  const V3: Version := Version(0, [1, 0], Pre("a", 12), None, Dev(456), None)  // 1.0a12.dev456
  const V4: Version := Version(0, [1, 0], Pre("a", 12), None, None, None)  // 1.0a12
  const V5: Version := Version(0, [1, 0], Pre("b", 1), None, Dev(456), None)  // 1.0b1.dev456
  const V6: Version := Version(0, [1, 0], Pre("b", 2), None, None, None)  // 1.0b2
  const V7: Version := Version(0, [1, 0], Pre("b", 2), Post(345), Dev(456), None)  // 1.0b2.post345.dev456
  const V8: Version := Version(0, [1, 0], Pre("b", 2), Post(345), None, None)  // 1.0b2.post345
  const V9: Version := Version(0, [1, 0], Pre("b", 2), Post(346), None, None)  // 1.0b2-346
  const V10: Version := Version(0, [1, 0], Pre("rc", 1), None, Dev(456), None)  // 1.0c1.dev456
  const V11: Version := Version(0, [1, 0], Pre("rc", 1), None, None, None)  // 1.0c1
  const V12: Version := Version(0, [1, 0], Pre("rc", 2), None, None, None)  // 1.0rc2
  const V13: Version := Version(0, [1, 0], Pre("rc", 3), None, None, None)  // 1.0c3
  const V14: Version := Version(0, [1, 0], None, None, None, None)  // 1.0
  const V15: Version := Version(0, [1, 0], None, Post(456), Dev(34), None)  // 1.0.post456.dev34
  const V16: Version := Version(0, [1, 0], None, Post(456), None, None)  // 1.0.post456
  const V17: Version := Version(0, [1, 1], None, None, Dev(1), None)  // 1.1.dev1
  const V18: Version := Version(0, [1, 2], None, None, None, Some([AlphanumVersion("123abc")]))  // 1.2+123abc
  const V19: Version := Version(0, [1, 2], None, None, None, Some([AlphanumVersion("123abc456")]))  // 1.2+123abc456
  const V20: Version := Version(0, [1, 2], None, None, None, Some([AlphanumVersion("abc")]))  // 1.2+abc
  const V21: Version := Version(0, [1, 2], None, None, None, Some([AlphanumVersion("abc123")]))  // 1.2+abc123
  const V22: Version := Version(0, [1, 2], None, None, None, Some([AlphanumVersion("abc123def")]))  // 1.2+abc123def
  const V23: Version := Version(0, [1, 2], None, None, None, Some([NumericVersion(1234), AlphanumVersion("abc")]))  // 1.2+1234.abc
  const V24: Version := Version(0, [1, 2], None, None, None, Some([NumericVersion(123456)]))  // 1.2+123456
  const V25: Version := Version(0, [1, 2], None, Post(32), None, Some([NumericVersion(123456)]))  // 1.2.r32+123456
  const V26: Version := Version(0, [1, 2], None, Post(33), None, Some([NumericVersion(123456)]))  // 1.2.rev33+123456

  /*
   * Each neighbouring pair, under the order as written and under the
   * intended one. As written, the four pairs that differ only in a dev
   * segment (`1.0a12.dev456` and `1.0a12`, `1.0b2.post345.dev456` and
   * `1.0b2.post345`, `1.0c1.dev456` and `1.0c1`, `1.0.post456.dev34` and
   * `1.0.post456`) compare `Equal`; every other pair, and every pair under
   * the intended order, compares `Less`.
   */
  /** `1.0.dev456` against `1.0a1`. */
  lemma Adjacent0()
    ensures Cmp(V0, V1) == Less && CmpIntended(V0, V1) == Less
  {
  }

  /** `1.0a1` against `1.0a2.dev456`. */
  lemma Adjacent1()
    ensures Cmp(V1, V2) == Less && CmpIntended(V1, V2) == Less
  {
  }

  /** `1.0a2.dev456` against `1.0a12.dev456`. */
  lemma Adjacent2()
    ensures Cmp(V2, V3) == Less && CmpIntended(V2, V3) == Less
  {
  }

  /** `1.0a12.dev456` against `1.0a12`. */
  lemma Adjacent3()
    ensures Cmp(V3, V4) == Equal && CmpIntended(V3, V4) == Less
  {
  }

  /** `1.0a12` against `1.0b1.dev456`. */
  lemma Adjacent4()
    ensures Cmp(V4, V5) == Less && CmpIntended(V4, V5) == Less
  {
  }

  /** `1.0b1.dev456` against `1.0b2`. */
  lemma Adjacent5()
    ensures Cmp(V5, V6) == Less && CmpIntended(V5, V6) == Less
  {
  }

  /** `1.0b2` against `1.0b2.post345.dev456`. */
  lemma Adjacent6()
    ensures Cmp(V6, V7) == Less && CmpIntended(V6, V7) == Less
  {
  }

  /** `1.0b2.post345.dev456` against `1.0b2.post345`. */
  lemma Adjacent7()
    ensures Cmp(V7, V8) == Equal && CmpIntended(V7, V8) == Less
  {
  }

  /** `1.0b2.post345` against `1.0b2-346`. */
  lemma Adjacent8()
    ensures Cmp(V8, V9) == Less && CmpIntended(V8, V9) == Less
  {
  }

  /** `1.0b2-346` against `1.0c1.dev456`. */
  lemma Adjacent9()
    ensures Cmp(V9, V10) == Less && CmpIntended(V9, V10) == Less
  {
  }

  /** `1.0c1.dev456` against `1.0c1`. */
  lemma Adjacent10()
    ensures Cmp(V10, V11) == Equal && CmpIntended(V10, V11) == Less
  {
  }

  /** `1.0c1` against `1.0rc2`. */
  lemma Adjacent11()
    ensures Cmp(V11, V12) == Less && CmpIntended(V11, V12) == Less
  {
  }

  /** `1.0rc2` against `1.0c3`. */
  lemma Adjacent12()
    ensures Cmp(V12, V13) == Less && CmpIntended(V12, V13) == Less
  {
  }

  /** `1.0c3` against `1.0`. */
  lemma Adjacent13()
    ensures Cmp(V13, V14) == Less && CmpIntended(V13, V14) == Less
  {
  }

  /** `1.0` against `1.0.post456.dev34`. */
  lemma Adjacent14()
    ensures Cmp(V14, V15) == Less && CmpIntended(V14, V15) == Less
  {
  }

  /** `1.0.post456.dev34` against `1.0.post456`. */
  lemma Adjacent15()
    ensures Cmp(V15, V16) == Equal && CmpIntended(V15, V16) == Less
  {
  }

  /** `1.0.post456` against `1.1.dev1`. */
  lemma Adjacent16()
    ensures Cmp(V16, V17) == Less && CmpIntended(V16, V17) == Less
  {
  }

  /** `1.1.dev1` against `1.2+123abc`. */
  lemma Adjacent17()
    ensures Cmp(V17, V18) == Less && CmpIntended(V17, V18) == Less
  {
  }

  /** `1.2+123abc` against `1.2+123abc456`. */
  lemma Adjacent18()
    ensures Cmp(V18, V19) == Less && CmpIntended(V18, V19) == Less
  {
  }

  /** `1.2+123abc456` against `1.2+abc`. */
  lemma Adjacent19()
    ensures Cmp(V19, V20) == Less && CmpIntended(V19, V20) == Less
  {
  }

  /** `1.2+abc` against `1.2+abc123`. */
  lemma Adjacent20()
    ensures Cmp(V20, V21) == Less && CmpIntended(V20, V21) == Less
  {
  }

  /** `1.2+abc123` against `1.2+abc123def`. */
  lemma Adjacent21()
    ensures Cmp(V21, V22) == Less && CmpIntended(V21, V22) == Less
  {
  }

  /** `1.2+abc123def` against `1.2+1234.abc`. */
  lemma Adjacent22()
    ensures Cmp(V22, V23) == Less && CmpIntended(V22, V23) == Less
  {
  }

  /** `1.2+1234.abc` against `1.2+123456`. */
  lemma Adjacent23()
    ensures Cmp(V23, V24) == Less && CmpIntended(V23, V24) == Less
  {
  }

  /** `1.2+123456` against `1.2.r32+123456`. */
  lemma Adjacent24()
    ensures Cmp(V24, V25) == Less && CmpIntended(V24, V25) == Less
  {
  }

  /** `1.2.r32+123456` against `1.2.rev33+123456`. */
  lemma Adjacent25()
    ensures Cmp(V25, V26) == Less && CmpIntended(V25, V26) == Less
  {
  }
}

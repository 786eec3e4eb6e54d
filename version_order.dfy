/**
 * The comparison key of a version and the order it induces: `PrePostDevType`,
 * `LocalType`, `VersionCmpKey`, `From<&Version> for VersionCmpKey`, and the
 * `PartialEq`, `PartialOrd` and `Ord` implementations for `Version`, which all
 * compare keys with the orders Rust derives for them.
 */
module VersionOrder {
  import opened Wrappers
  import opened Orderings
  import opened Normalize

  /** `PrePostDevType`: declared in this order, so `NegativeInf < Tuple(..) < PositiveInf`. */
  datatype PrePostDevType = NegativeInf | Tuple(tag: string, number: nat) | PositiveInf

  /** `LocalType`: an absent local segment sorts below every present one. */
  datatype LocalType = LocalNegativeInf | ConcreteVersion(parts: seq<LocalTypePart>)

  /** `VersionCmpKey`, compared field by field in this order. */
  datatype VersionCmpKey = VersionCmpKey(
    epoch: nat,
    release: seq<nat>,
    pre: PrePostDevType,
    post: PrePostDevType,
    dev: PrePostDevType,
    local: LocalType)

  // ---------------------------------------------------------------------
  // The derived orders
  // ---------------------------------------------------------------------

  function PrePostDevRank(x: PrePostDevType): nat {
    match x
    case NegativeInf => 0
    case Tuple(_, _) => 1
    case PositiveInf => 2
  }

  /** Derived `Ord for PrePostDevType`: variant first, then (tag, number). */
  function CmpPrePostDev(a: PrePostDevType, b: PrePostDevType): Ordering {
    if a.Tuple? && b.Tuple? then Then(CmpString(a.tag, b.tag), CmpNat(a.number, b.number))
    else CmpNat(PrePostDevRank(a), PrePostDevRank(b))
  }

  /** Derived `Ord for LocalTypePart`: every `AlphanumVersion` below every `NumericVersion`. */
  function CmpLocalPart(a: LocalTypePart, b: LocalTypePart): Ordering {
    match (a, b)
    case (AlphanumVersion(x), AlphanumVersion(y)) => CmpString(x, y)
    case (NumericVersion(m), NumericVersion(n)) => CmpNat(m, n)
    case (AlphanumVersion(_), NumericVersion(_)) => Less
    case (NumericVersion(_), AlphanumVersion(_)) => Greater
  }

  /** Derived `Ord for LocalType`: absent first, then the parts as a slice. */
  function CmpLocal(a: LocalType, b: LocalType): Ordering {
    match (a, b)
    case (LocalNegativeInf, LocalNegativeInf) => Equal
    case (LocalNegativeInf, ConcreteVersion(_)) => Less
    case (ConcreteVersion(_), LocalNegativeInf) => Greater
    case (ConcreteVersion(x), ConcreteVersion(y)) => LexCmp(x, y, CmpLocalPart)
  }

  /** Derived `Ord for VersionCmpKey`: lexicographic over the six fields. */
  function CmpKeys(a: VersionCmpKey, b: VersionCmpKey): Ordering {
    Then(CmpNat(a.epoch, b.epoch),
    Then(LexCmp(a.release, b.release, CmpNat),
    Then(CmpPrePostDev(a.pre, b.pre),
    Then(CmpPrePostDev(a.post, b.post),
    Then(CmpPrePostDev(a.dev, b.dev),
         CmpLocal(a.local, b.local))))))
  }

  // ---------------------------------------------------------------------
  // Building the key
  // ---------------------------------------------------------------------

  /**
   * The release without its trailing zeros: the longest prefix that ends in
   * a non-zero component, so that 1, 1.0 and 1.0.0 agree while 1.0.1 keeps
   * its inner zero.
   */
  function StripTrailingZeros(release: seq<nat>): (r: seq<nat>)
    ensures |r| <= |release| && r == release[..|r|]
    ensures forall k :: |r| <= k < |release| ==> release[k] == 0
    ensures |r| > 0 ==> r[|r| - 1] != 0
  {
    if |release| > 0 && release[|release| - 1] == 0 then StripTrailingZeros(release[..|release| - 1])
    else release
  }

  function Tupled(t: Tagged): PrePostDevType {
    Tuple(t.tag, t.number)
  }

  /**
   * The pre-release key: its own tuple when present; below every
   * pre-release for a bare dev release (no pre, no post, a dev); above
   * every pre-release otherwise.
   */
  function PreKey(v: Version): PrePostDevType {
    if v.pre.Some? then Tupled(v.pre.value)
    else if v.post.None? && v.dev.Some? then NegativeInf
    else PositiveInf
  }

  /** The post-release key: its tuple, or below every post release when absent. */
  function PostKey(v: Version): PrePostDevType {
    if v.post.Some? then Tupled(v.post.value) else NegativeInf
  }

  /** The dev key as written: built from the post field, not the dev field. */
  function DevKey(v: Version): PrePostDevType {
    if v.post.Some? then Tupled(v.post.value) else PositiveInf
  }

  function LocalKey(v: Version): LocalType {
    if v.local.Some? then ConcreteVersion(v.local.value) else LocalNegativeInf
  }

  /** `VersionCmpKey::from(&v)`. */
  function CmpKeyOf(v: Version): VersionCmpKey {
    VersionCmpKey(v.epoch, StripTrailingZeros(v.release), PreKey(v), PostKey(v), DevKey(v), LocalKey(v))
  }

  /**
   * `From<&Version> for VersionCmpKey`, with its loop: a cursor walks back
   * from the end of the release past the zero components, and the key
   * borrows the release up to the cursor.
   */
  method BuildCmpKey(v: Version) returns (key: VersionCmpKey)
    ensures key == CmpKeyOf(v)
  {
    var cursor := |v.release|;
    while cursor > 0 && v.release[cursor - 1] == 0
      invariant 0 <= cursor <= |v.release|
      invariant forall k :: cursor <= k < |v.release| ==> v.release[k] == 0
    {
      cursor := cursor - 1;
    }
    var release := v.release[..cursor];
    StripTrailingZerosUnique(v.release, release);
    key := VersionCmpKey(v.epoch, release, PreKey(v), PostKey(v), DevKey(v), LocalKey(v));
  }

  // ---------------------------------------------------------------------
  // Equality and comparison of versions
  // ---------------------------------------------------------------------

  /** `PartialEq for Version`: equal keys. */
  predicate Eq(a: Version, b: Version) {
    CmpKeyOf(a) == CmpKeyOf(b)
  }

  /** `Ord for Version`: the order of the keys. */
  function Cmp(a: Version, b: Version): Ordering {
    CmpKeys(CmpKeyOf(a), CmpKeyOf(b))
  }

  /** `PartialOrd for Version`: the order of the keys, always defined. */
  function PartialCmp(a: Version, b: Version): Option<Ordering> {
    Some(CmpKeys(CmpKeyOf(a), CmpKeyOf(b)))
  }

  /** `Version::eq`, building both keys. */
  method Equals(a: Version, b: Version) returns (eq: bool)
    ensures eq <==> Eq(a, b)
    ensures eq <==> Cmp(a, b) == Equal
  {
    var ka := BuildCmpKey(a);
    var kb := BuildCmpKey(b);
    eq := ka == kb;
    CmpKeysEqual(ka, kb);
  }

  /** `Version::cmp`, building both keys. */
  method Compare(a: Version, b: Version) returns (o: Ordering)
    ensures o == Cmp(a, b)
    ensures o == Flip(Cmp(b, a))
  {
    var ka := BuildCmpKey(a);
    var kb := BuildCmpKey(b);
    o := CmpKeys(ka, kb);
    CmpKeysFlip(ka, kb);
  }

  /** `Version::partial_cmp`, building both keys: never `None`, and agreeing with `cmp`. */
  method PartialCompare(a: Version, b: Version) returns (o: Option<Ordering>)
    ensures o == Some(Cmp(a, b))
  {
    var ka := BuildCmpKey(a);
    var kb := BuildCmpKey(b);
    o := Some(CmpKeys(ka, kb));
  }

  // ---------------------------------------------------------------------
  // The key order is a total order
  // ---------------------------------------------------------------------

  lemma CmpPrePostDevIsTotalOrder()
    ensures IsTotalOrder(CmpPrePostDev)
  {
    CmpStringIsTotalOrder();
  }

  lemma CmpLocalPartIsTotalOrder()
    ensures IsTotalOrder(CmpLocalPart)
  {
    CmpStringIsTotalOrder();
  }

  lemma CmpLocalIsTotalOrder()
    ensures IsTotalOrder(CmpLocal)
  {
    CmpLocalPartIsTotalOrder();
    forall a: LocalType, b: LocalType ensures CmpLocal(a, b) == Equal <==> a == b {
      if a.ConcreteVersion? && b.ConcreteVersion? {
        LexCmpEqual(a.parts, b.parts, CmpLocalPart);
      }
    }
    forall a: LocalType, b: LocalType ensures CmpLocal(a, b) == Flip(CmpLocal(b, a)) {
      if a.ConcreteVersion? && b.ConcreteVersion? {
        LexCmpFlip(a.parts, b.parts, CmpLocalPart);
      }
    }
    forall a: LocalType, b: LocalType, c: LocalType | CmpLocal(a, b) == Less && CmpLocal(b, c) == Less
      ensures CmpLocal(a, c) == Less
    {
      if a.ConcreteVersion? && b.ConcreteVersion? && c.ConcreteVersion? {
        LexCmpTransitive(a.parts, b.parts, c.parts, CmpLocalPart);
      }
    }
  }

  /** Two keys compare `Equal` exactly when they are the same key. */
  lemma CmpKeysEqual(a: VersionCmpKey, b: VersionCmpKey)
    ensures CmpKeys(a, b) == Equal <==> a == b
  {
    CmpNatIsTotalOrder();
    CmpPrePostDevIsTotalOrder();
    CmpLocalIsTotalOrder();
    LexCmpEqual(a.release, b.release, CmpNat);
  }

  /** Comparing the other way round gives the reversed ordering. */
  lemma CmpKeysFlip(a: VersionCmpKey, b: VersionCmpKey)
    ensures CmpKeys(a, b) == Flip(CmpKeys(b, a))
  {
    CmpNatIsTotalOrder();
    CmpPrePostDevIsTotalOrder();
    CmpLocalIsTotalOrder();
    LexCmpFlip(a.release, b.release, CmpNat);
  }

  lemma CmpKeysTransitive(a: VersionCmpKey, b: VersionCmpKey, c: VersionCmpKey)
    requires CmpKeys(a, b) == Less && CmpKeys(b, c) == Less
    ensures CmpKeys(a, c) == Less
  {
    CmpNatIsTotalOrder();
    CmpPrePostDevIsTotalOrder();
    CmpLocalIsTotalOrder();
    LexCmpEqual(a.release, b.release, CmpNat);
    LexCmpEqual(b.release, c.release, CmpNat);
    LexCmpEqual(a.release, c.release, CmpNat);
    if LexCmp(a.release, b.release, CmpNat) == Less && LexCmp(b.release, c.release, CmpNat) == Less {
      LexCmpTransitive(a.release, b.release, c.release, CmpNat);
    }
  }

  // ---------------------------------------------------------------------
  // The order on versions
  // ---------------------------------------------------------------------

  /** `eq` and `cmp` agree: two versions are equal exactly when `cmp` says `Equal`. */
  lemma CmpEqualIffEq(a: Version, b: Version)
    ensures Cmp(a, b) == Equal <==> Eq(a, b)
  {
    CmpKeysEqual(CmpKeyOf(a), CmpKeyOf(b));
  }

  lemma CmpReflexive(a: Version)
    ensures Cmp(a, a) == Equal
  {
    CmpKeysEqual(CmpKeyOf(a), CmpKeyOf(a));
  }

  lemma CmpAntisymmetric(a: Version, b: Version)
    ensures Cmp(a, b) == Flip(Cmp(b, a))
  {
    CmpKeysFlip(CmpKeyOf(a), CmpKeyOf(b));
  }

  lemma CmpTransitive(a: Version, b: Version, c: Version)
    requires Cmp(a, b) == Less && Cmp(b, c) == Less
    ensures Cmp(a, c) == Less
  {
    CmpKeysTransitive(CmpKeyOf(a), CmpKeyOf(b), CmpKeyOf(c));
  }

  /** `partial_cmp` is `Some(cmp)`: versions are totally ordered. */
  lemma PartialCmpIsTotal(a: Version, b: Version)
    ensures PartialCmp(a, b).Some? && PartialCmp(a, b).value == Cmp(a, b)
    ensures PartialCmp(a, b) == Some(Equal) <==> Eq(a, b)
  {
    CmpEqualIffEq(a, b);
  }

  /**
   * The stripped release is the only prefix that leaves only zeros behind
   * and does not itself end in zero.
   */
  lemma {:induction false} StripTrailingZerosUnique(release: seq<nat>, r: seq<nat>)
    requires |r| <= |release| && r == release[..|r|]
    requires forall k :: |r| <= k < |release| ==> release[k] == 0
    requires |r| > 0 ==> r[|r| - 1] != 0
    ensures StripTrailingZeros(release) == r
    decreases |release|
  {
    if |release| > |r| {
      var shorter := release[..|release| - 1];
      assert r == shorter[..|r|];
      StripTrailingZerosUnique(shorter, r);
    }
  }

  /** Appending zeros does not change the stripped release. */
  lemma StripAppendedZeros(release: seq<nat>, zeros: nat)
    ensures StripTrailingZeros(release + seq(zeros, _ => 0)) == StripTrailingZeros(release)
  {
    var r := StripTrailingZeros(release);
    var longer := release + seq(zeros, _ => 0);
    assert r == longer[..|r|];
    StripTrailingZerosUnique(longer, r);
  }

  /** 1.0 == 1.0.0: trailing zero components of the release never matter. */
  lemma ReleaseTrailingZerosIgnored(v: Version, zeros: nat)
    ensures Eq(v, v.(release := v.release + seq(zeros, _ => 0)))
  {
    StripAppendedZeros(v.release, zeros);
  }

  /** The epoch decides first: every `1!…` version is above every `0!…` one. */
  lemma EpochDecides(a: Version, b: Version)
    requires a.epoch < b.epoch
    ensures Cmp(a, b) == Less && CmpIntended(a, b) == Less
  {
  }

  /**
   * Within one epoch the epoch plays no part: moving both versions to any
   * other common epoch keeps their order, written and corrected.
   */
  lemma SameEpochIgnored(a: Version, b: Version, e: nat)
    requires a.epoch == b.epoch
    ensures Cmp(a.(epoch := e), b.(epoch := e)) == Cmp(a, b)
    ensures CmpIntended(a.(epoch := e), b.(epoch := e)) == CmpIntended(a, b)
  {
  }

  /**
   * Where a version stands among the releases of one release number:
   * dev-only, pre-release, final release, post-release.
   */
  function Phase(v: Version): nat {
    if v.pre.Some? then 1
    else if v.post.Some? then 3
    else if v.dev.Some? then 0
    else 2
  }

  /**
   * For one epoch and release number, `1.0.dev0 < 1.0a0 < 1.0 < 1.0.post0`:
   * the phase alone decides the order when the phases differ.
   */
  lemma PhaseOrder(a: Version, b: Version)
    requires a.epoch == b.epoch && StripTrailingZeros(a.release) == StripTrailingZeros(b.release)
    requires Phase(a) < Phase(b)
    ensures Cmp(a, b) == Less
  {
    CmpNatIsTotalOrder();
    LexCmpEqual(StripTrailingZeros(a.release), StripTrailingZeros(b.release), CmpNat);
  }

  /** Two pre-releases of one release number are ordered by their tag and number. */
  lemma PreReleaseOrder(a: Version, b: Version)
    requires a.epoch == b.epoch && StripTrailingZeros(a.release) == StripTrailingZeros(b.release)
    requires a.pre.Some? && b.pre.Some? && a.pre != b.pre
    ensures Cmp(a, b) == Then(CmpString(a.pre.value.tag, b.pre.value.tag), CmpNat(a.pre.value.number, b.pre.value.number))
    ensures Cmp(a, b) != Equal
  {
    CmpNatIsTotalOrder();
    CmpStringIsTotalOrder();
    LexCmpEqual(StripTrailingZeros(a.release), StripTrailingZeros(b.release), CmpNat);
  }

  /** Two post-releases of one release number without pre-release are ordered by their number. */
  lemma PostReleaseOrder(a: Version, b: Version)
    requires a.epoch == b.epoch && StripTrailingZeros(a.release) == StripTrailingZeros(b.release)
    requires a.pre.None? && b.pre.None?
    requires a.post.Some? && b.post.Some? && a.post.value.tag == b.post.value.tag
    requires a.post.value.number != b.post.value.number
    ensures Cmp(a, b) == CmpNat(a.post.value.number, b.post.value.number)
  {
    CmpNatIsTotalOrder();
    CmpStringIsTotalOrder();
    LexCmpEqual(StripTrailingZeros(a.release), StripTrailingZeros(b.release), CmpNat);
  }

  /** A local version label sorts after the same public version without one. */
  lemma LocalAfterPublic(v: Version, parts: seq<LocalTypePart>)
    requires v.local.None?
    ensures Cmp(v, v.(local := Some(parts))) == Less
  {
    CmpReflexive(v);
    CmpNatIsTotalOrder();
    CmpPrePostDevIsTotalOrder();
    LexCmpEqual(StripTrailingZeros(v.release), StripTrailingZeros(v.release), CmpNat);
  }

  /** Every alphanumeric local part sorts before every numeric one, and both kinds compare by value. */
  lemma LocalPartOrder(x: string, n: nat)
    ensures CmpLocalPart(AlphanumVersion(x), NumericVersion(n)) == Less
    ensures forall m: nat :: CmpLocalPart(NumericVersion(m), NumericVersion(n)) == Less <==> m < n
  {
  }

  /** A local version that extends another one sorts after it: 1.0+abc < 1.0+abc.5. */
  lemma LocalPrefixSmaller(v: Version, parts: seq<LocalTypePart>, more: seq<LocalTypePart>)
    requires |more| > 0
    ensures Cmp(v.(local := Some(parts)), v.(local := Some(parts + more))) == Less
  {
    CmpNatIsTotalOrder();
    CmpPrePostDevIsTotalOrder();
    CmpLocalPartIsTotalOrder();
    LexCmpEqual(StripTrailingZeros(v.release), StripTrailingZeros(v.release), CmpNat);
    LexCmpProperPrefix(parts, parts + more, CmpLocalPart);
  }

  /**
   * Because the dev key is built from the post field, two versions that
   * differ only in their dev segment are equal unless one of them is a bare
   * dev release and the other has no dev segment at all.
   */
  lemma DevOnlyMattersAsPresence(a: Version, b: Version)
    requires a.(dev := b.dev) == b
    ensures Eq(a, b) <==> (a.dev.Some? <==> b.dev.Some?) || a.pre.Some? || a.post.Some?
  {
  }

  // ---------------------------------------------------------------------
  // The dev key as evidently intended
  // ---------------------------------------------------------------------

  /** The dev key built from the dev field: a dev release sorts below the same version without one. */
  function IntendedDevKey(v: Version): PrePostDevType {
    if v.dev.Some? then Tupled(v.dev.value) else PositiveInf
  }

  function CmpKeyOfIntended(v: Version): VersionCmpKey {
    CmpKeyOf(v).(dev := IntendedDevKey(v))
  }

  /** The version order with the dev key taken from the dev field. */
  function CmpIntended(a: Version, b: Version): Ordering {
    CmpKeys(CmpKeyOfIntended(a), CmpKeyOfIntended(b))
  }

  /** As written, `1.0.post456.dev34` and `1.0.post456` compare `Equal`. */
  lemma DevSegmentIgnored()
    ensures var post := Version(0, [1, 0], None, Some(Tagged("post", 456)), None, None);
      Cmp(post.(dev := Some(Tagged("dev", 34))), post) == Equal
  {
    var post := Version(0, [1, 0], None, Some(Tagged("post", 456)), None, None);
    CmpEqualIffEq(post.(dev := Some(Tagged("dev", 34))), post);
  }

  /**
   * With the intended key, a dev release sorts below the same version
   * without dev segment, and two dev releases compare by dev number.
   */
  lemma IntendedDevOrder(a: Version, b: Version)
    requires a.(dev := b.dev) == b
    ensures a.dev.Some? && b.dev.None? ==> CmpIntended(a, b) == Less
    ensures a.dev.Some? && b.dev.Some? && a.dev.value.tag == b.dev.value.tag ==>
      CmpIntended(a, b) == CmpNat(a.dev.value.number, b.dev.value.number)
  {
    CmpNatIsTotalOrder();
    CmpStringIsTotalOrder();
    CmpPrePostDevIsTotalOrder();
    CmpLocalIsTotalOrder();
    LexCmpEqual(StripTrailingZeros(a.release), StripTrailingZeros(a.release), CmpNat);
  }

  /** The intended order is a total order as well. */
  lemma CmpIntendedIsTotalOrder(a: Version, b: Version, c: Version)
    ensures CmpIntended(a, b) == Flip(CmpIntended(b, a))
    ensures CmpIntended(a, b) == Less && CmpIntended(b, c) == Less ==> CmpIntended(a, c) == Less
  {
    CmpKeysFlip(CmpKeyOfIntended(a), CmpKeyOfIntended(b));
    if CmpIntended(a, b) == Less && CmpIntended(b, c) == Less {
      CmpKeysTransitive(CmpKeyOfIntended(a), CmpKeyOfIntended(b), CmpKeyOfIntended(c));
    }
  }

  /** On versions without dev segment the intended order is the order as written. */
  lemma IntendedAgreesWithoutDev(a: Version, b: Version)
    requires a.dev.None? && b.dev.None?
    ensures CmpIntended(a, b) == Cmp(a, b)
  {
    CmpPrePostDevIsTotalOrder();
  }
}

/**
 * Rust's `std::cmp::Ordering` and the derived orders the comparison key is
 * built from: integers, characters, and slices compared lexicographically
 * (`impl Ord for [T]`, which is also how `&str` compares).
 */
module Orderings {

  datatype Ordering = Less | Equal | Greater

  /** `Ordering::reverse`. */
  function Flip(o: Ordering): (r: Ordering)
    ensures r.Equal? <==> o.Equal?
    ensures r.Less? <==> o.Greater?
  {
    match o
    case Less => Greater
    case Equal => Equal
    case Greater => Less
  }

  /** `Ordering::then`: the first ordering unless it is `Equal`. */
  function Then(first: Ordering, second: Ordering): Ordering {
    if first == Equal then second else first
  }

  /** `impl Ord for u64`. */
  function CmpNat(a: nat, b: nat): (r: Ordering)
    ensures r == Less <==> a < b
    ensures r == Greater <==> a > b
  {
    if a < b then Less else if a == b then Equal else Greater
  }

  /** `impl Ord for char`; UTF-8 byte order agrees with code point order. */
  function CmpChar(a: char, b: char): (r: Ordering)
    ensures r == Less <==> a < b
    ensures r == Greater <==> a > b
  {
    CmpNat(a as nat, b as nat)
  }

  /** The three laws of a total order, phrased on a three-way comparison. */
  ghost predicate IsTotalOrder<T(!new)>(cmp: (T, T) -> Ordering) {
    && (forall x, y :: cmp(x, y) == Equal <==> x == y)
    && (forall x, y :: cmp(x, y) == Flip(cmp(y, x)))
    && (forall x, y, z :: cmp(x, y) == Less && cmp(y, z) == Less ==> cmp(x, z) == Less)
  }

  lemma CmpNatIsTotalOrder()
    ensures IsTotalOrder(CmpNat)
  {
  }

  lemma CmpCharIsTotalOrder()
    ensures IsTotalOrder(CmpChar)
  {
  }

  /**
   * Lexicographic comparison of two sequences: the first position where the
   * elements differ decides; if one runs out first, it is the smaller.
   */
  function LexCmp<T>(a: seq<T>, b: seq<T>, cmp: (T, T) -> Ordering): Ordering
    decreases |a|
  {
    if |a| == 0 then (if |b| == 0 then Equal else Less)
    else if |b| == 0 then Greater
    else Then(cmp(a[0], b[0]), LexCmp(a[1..], b[1..], cmp))
  }

  /** `&str` order. */
  function CmpString(a: string, b: string): Ordering {
    LexCmp(a, b, CmpChar)
  }

  lemma {:induction false} LexCmpEqual<T(!new)>(a: seq<T>, b: seq<T>, cmp: (T, T) -> Ordering)
    requires IsTotalOrder(cmp)
    ensures LexCmp(a, b, cmp) == Equal <==> a == b
    decreases |a|
  {
    if |a| > 0 && |b| > 0 {
      LexCmpEqual(a[1..], b[1..], cmp);
      if a[0] == b[0] && a[1..] == b[1..] {
        assert a == [a[0]] + a[1..] && b == [b[0]] + b[1..];
      }
    }
  }

  lemma {:induction false} LexCmpFlip<T(!new)>(a: seq<T>, b: seq<T>, cmp: (T, T) -> Ordering)
    requires IsTotalOrder(cmp)
    ensures LexCmp(a, b, cmp) == Flip(LexCmp(b, a, cmp))
    decreases |a|
  {
    if |a| > 0 && |b| > 0 {
      LexCmpFlip(a[1..], b[1..], cmp);
    }
  }

  lemma {:induction false} LexCmpTransitive<T(!new)>(a: seq<T>, b: seq<T>, c: seq<T>, cmp: (T, T) -> Ordering)
    requires IsTotalOrder(cmp)
    requires LexCmp(a, b, cmp) == Less && LexCmp(b, c, cmp) == Less
    ensures LexCmp(a, c, cmp) == Less
    decreases |a|
  {
    if |a| > 0 && |b| > 0 && |c| > 0 {
      if cmp(a[0], b[0]) == Equal && cmp(b[0], c[0]) == Equal {
        LexCmpTransitive(a[1..], b[1..], c[1..], cmp);
      }
    }
  }

  /** A proper prefix sorts before the longer sequence. */
  lemma {:induction false} LexCmpProperPrefix<T(!new)>(a: seq<T>, b: seq<T>, cmp: (T, T) -> Ordering)
    requires IsTotalOrder(cmp)
    requires |a| < |b| && a == b[..|a|]
    ensures LexCmp(a, b, cmp) == Less
    decreases |a|
  {
    if |a| > 0 {
      assert a[1..] == b[1..][..|a| - 1];
      LexCmpProperPrefix(a[1..], b[1..], cmp);
    }
  }

  lemma CmpStringIsTotalOrder()
    ensures IsTotalOrder(CmpString)
  {
    CmpCharIsTotalOrder();
    forall a: string, b: string ensures CmpString(a, b) == Equal <==> a == b {
      LexCmpEqual(a, b, CmpChar);
    }
    forall a: string, b: string ensures CmpString(a, b) == Flip(CmpString(b, a)) {
      LexCmpFlip(a, b, CmpChar);
    }
    forall a: string, b: string, c: string | CmpString(a, b) == Less && CmpString(b, c) == Less
      ensures CmpString(a, c) == Less
    {
      LexCmpTransitive(a, b, c, CmpChar);
    }
  }
}

/** Address blocks: privacy, overlap and the network check built on them. */
module Cidr {

  /** What parsing a textual prefix yields. */
  datatype Parsed = Malformed | Six | Four(prefix: Block)

  datatype Prefix = Prefix(addr: nat, bits: nat) {
    predicate Sized() { bits <= 32 && addr < 0x1_0000_0000 }
  }

  type Block = p: Prefix | p.Sized() witness Prefix(0, 0)

  const MAX_SUBNET_BITS: nat := 29

  function Pow2(n: nat): (p: nat)
    ensures p >= 1
  {
    if n == 0 then 1 else 2 * Pow2(n - 1)
  }

  /** How many addresses a prefix of `bits` bits holds. */
  function Size(bits: nat): (s: nat)
    requires bits <= 32
    ensures s >= 1
  {
    Pow2(32 - bits)
  }

  /** The base address has no bit below the prefix. */
  predicate Canonical(p: Prefix)
    requires p.Sized()
  {
    p.addr % Size(p.bits) == 0
  }

  /** The masked comparison an address family library makes. */
  predicate Contains(p: Prefix, a: nat)
    requires p.Sized()
  {
    a / Size(p.bits) == p.addr / Size(p.bits)
  }

  predicate InBlock(p: Prefix, a: nat)
    requires p.Sized()
  {
    p.addr <= a < p.addr + Size(p.bits)
  }

  predicate PrefixesOverlap(p: Prefix, q: Prefix)
    requires p.Sized() && q.Sized()
  {
    Contains(p, q.addr) || Contains(q, p.addr)
  }

  const TEN := Prefix(10 * 0x100_0000, 8)
  const ONE_SEVENTY_TWO := Prefix(172 * 0x100_0000 + 16 * 0x1_0000, 12)
  const ONE_NINETY_TWO := Prefix(192 * 0x100_0000 + 168 * 0x1_0000, 16)

  /** The private blocks of section 3 of RFC 1918. */
  const PRIVATE := [TEN, ONE_SEVENTY_TWO, ONE_NINETY_TWO]

  // ----- Arithmetic of aligned power-of-two blocks -----

  lemma MulGrows(d: int, s: nat)
    ensures d >= 1 ==> d * s >= s
  {
  }

  lemma DivMod(x: nat, s: nat)
    requires s >= 1
    ensures x == (x / s) * s + x % s && 0 <= x % s < s
  {
  }

  lemma FloorUnique(x: nat, s: nat, k: nat)
    requires s >= 1 && k * s <= x < k * s + s
    ensures x / s == k
  {
    var q := x / s;
    DivMod(x, s);
    MulGrows(k - q, s);
    MulGrows(q - k, s);
    assert (k - q) * s == k * s - q * s && (q - k) * s == q * s - k * s;
  }

  /** Aligned blocks of size `s`: the same quotient is the same block. */
  lemma SameQuotient(base: nat, s: nat, a: nat)
    requires s >= 1 && base % s == 0
    ensures a / s == base / s <==> base <= a < base + s
  {
    DivMod(base, s);
    DivMod(a, s);
    if base <= a < base + s {
      FloorUnique(a, s, base / s);
    }
  }

  /** The masked comparison of a canonical prefix is membership of its block. */
  lemma ContainsIsMembership(p: Prefix, a: nat)
    requires p.Sized() && Canonical(p)
    ensures Contains(p, a) <==> InBlock(p, a)
  {
    hide Size;
    SameQuotient(p.addr, Size(p.bits), a);
  }

  lemma {:induction false} Pow2Sum(a: nat, b: nat)
    ensures Pow2(a + b) == Pow2(a) * Pow2(b)
  {
    if a > 0 {
      Pow2Sum(a - 1, b);
    }
  }

  /** The wider block is a whole number of narrower ones. */
  lemma WiderIsMultiple(wide: nat, narrow: nat)
    requires wide <= narrow <= 32
    ensures Size(wide) == Size(narrow) * Pow2(narrow - wide)
  {
    Pow2Sum(32 - narrow, narrow - wide);
  }

  lemma BlockOf(s: nat, t: nat, k: nat, r: nat, d: nat)
    requires r < t && d < s
    ensures k * (s * t) <= (k * t + r) * s <= (k * t + r) * s + d < k * (s * t) + s * t
  {
    assert (k * t + r) * s == k * (s * t) + r * s;
    assert r * s + d < r * s + s == (r + 1) * s;
    assert (r + 1) * s <= t * s;
  }

  /** Everything in block number `n` of size `s` falls into block `n / t` of size `s * t`. */
  lemma WideIndex(s: nat, t: nat, n: nat, d: nat)
    requires d < s && t >= 1
    ensures s * t >= 1 && (n * s + d) / (s * t) == n / t
  {
    var k, r := n / t, n % t;
    assert n == k * t + r && r < t;
    BlockOf(s, t, k, r, d);
    assert s * t >= 1;
    FloorUnique(n * s + d, s * t, k);
  }

  /** Addresses of one narrow block lie in one wide block. */
  lemma NarrowInsideWide(wide: Prefix, narrow: Prefix, a: nat)
    requires wide.Sized() && narrow.Sized() && Canonical(wide) && Canonical(narrow)
    requires wide.bits <= narrow.bits && InBlock(narrow, a)
    ensures InBlock(wide, a) <==> InBlock(wide, narrow.addr)
  {
    hide Size, Pow2, Contains;
    var s, t := Size(narrow.bits), Pow2(narrow.bits - wide.bits);
    WiderIsMultiple(wide.bits, narrow.bits);
    DivMod(narrow.addr, s);
    SameWideBlock(s, t, narrow.addr / s, a - narrow.addr);
    SameQuotient(wide.addr, Size(wide.bits), a);
    SameQuotient(wide.addr, Size(wide.bits), narrow.addr);
  }

  /** All of narrow block number `n` has the wide quotient of its base. */
  lemma SameWideBlock(s: nat, t: nat, n: nat, d: nat)
    requires d < s && t >= 1
    ensures s * t >= 1 && (n * s + d) / (s * t) == (n * s) / (s * t)
  {
    WideIndex(s, t, n, d);
    WideIndex(s, t, n, 0);
  }

  /** Two canonical blocks share an address exactly when one holds the other's base. */
  lemma OverlapIsSharing(p: Prefix, q: Prefix)
    requires p.Sized() && q.Sized() && Canonical(p) && Canonical(q)
    ensures PrefixesOverlap(p, q) <==> exists a: nat :: InBlock(p, a) && InBlock(q, a)
  {
    ContainsIsMembership(p, q.addr);
    ContainsIsMembership(q, p.addr);
    if PrefixesOverlap(p, q) {
      var a := if Contains(p, q.addr) then q.addr else p.addr;
      assert InBlock(p, a) && InBlock(q, a);
    }
    if a: nat :| InBlock(p, a) && InBlock(q, a) {
      if p.bits <= q.bits {
        NarrowInsideWide(p, q, a);
      } else {
        NarrowInsideWide(q, p, a);
      }
    }
  }

  /** Every address of `inner` is an address of `outer`. */
  ghost predicate Inside(inner: Prefix, outer: Prefix)
    requires inner.Sized() && outer.Sized()
  {
    forall a: nat :: InBlock(inner, a) ==> InBlock(outer, a)
  }

  lemma {:induction false} WiderIsLarger(a: nat, b: nat)
    requires a < b <= 32
    ensures Size(a) > Size(b)
    decreases b - a
  {
    if a + 1 < b {
      WiderIsLarger(a + 1, b);
    }
  }

  /** The private-range test (longer prefix, base contained) is containment of the whole block. */
  lemma PrivateTestIsInside(p: Prefix, range: Prefix)
    requires p.Sized() && range.Sized() && Canonical(p) && Canonical(range)
    ensures p.bits >= range.bits && Contains(range, p.addr) <==> Inside(p, range)
  {
    ContainsIsMembership(range, p.addr);
    if p.bits >= range.bits && Contains(range, p.addr) {
      forall a: nat | InBlock(p, a) ensures InBlock(range, a) {
        NarrowInsideWide(range, p, a);
      }
    }
    if Inside(p, range) {
      assert InBlock(p, p.addr);
      assert InBlock(p, p.addr + Size(p.bits) - 1);
      if p.bits < range.bits {
        WiderIsLarger(p.bits, range.bits);
        assert false;
      }
    }
  }

  // ----- The network check -----

  predicate CanonicalFour(v: Parsed) {
    v.Four? && Canonical(v.prefix)
  }

  ghost predicate Disjoint(p: Prefix, q: Prefix)
    requires p.Sized() && q.Sized()
  {
    forall a: nat :: !(InBlock(p, a) && InBlock(q, a))
  }

  lemma OverlapDecidesDisjoint(p: Prefix, q: Prefix)
    requires p.Sized() && q.Sized() && Canonical(p) && Canonical(q)
    ensures Disjoint(p, q) <==> !PrefixesOverlap(p, q)
  {
    OverlapIsSharing(p, q);
  }

  lemma PrivateRangesCanonical()
    ensures forall i :: 0 <= i < |PRIVATE| ==> PRIVATE[i].Sized() && Canonical(PRIVATE[i])
  {
    assert Size(8) == 0x100_0000 by { assert Pow2(8) == 256; Pow2Sum(8, 16); Pow2Sum(8, 8); }
    assert Size(12) == 0x10_0000 by { assert Pow2(10) == 1024; Pow2Sum(10, 10); }
    assert Size(16) == 0x1_0000 by { assert Pow2(8) == 256; Pow2Sum(8, 8); }
  }

  method IsPrivate(p: Prefix) returns (private: bool)
    requires p.Sized() && Canonical(p)
    ensures private <==> exists i :: 0 <= i < |PRIVATE| && PRIVATE[i].Sized() && Inside(p, PRIVATE[i])
  {
    PrivateRangesCanonical();
    for i := 0 to |PRIVATE|
      invariant forall k :: 0 <= k < i ==> !Inside(p, PRIVATE[k])
    {
      PrivateTestIsInside(p, PRIVATE[i]);
      if p.bits >= PRIVATE[i].bits && Contains(PRIVATE[i], p.addr) {
        return true;
      }
    }
    return false;
  }

  /** Accepts exactly a canonical block of at most 29 bits whose addresses all
      lie in one private block and in none of the forbidden, canonical blocks. */
  method ValidateNetworkCIDR(test: Parsed, forbidden: seq<Parsed>) returns (ok: bool)
    ensures ok <==>
            && CanonicalFour(test) && test.prefix.bits <= MAX_SUBNET_BITS
            && (exists i :: 0 <= i < |PRIVATE| && PRIVATE[i].Sized() && Inside(test.prefix, PRIVATE[i]))
            && forall i :: 0 <= i < |forbidden| ==>
                 CanonicalFour(forbidden[i]) && Disjoint(test.prefix, forbidden[i].prefix)
  {
    hide Canonical, InBlock, Contains, Size, PrefixesOverlap, Inside, Disjoint;
    if !test.Four? || !Canonical(test.prefix) || test.prefix.bits > MAX_SUBNET_BITS {
      return false;
    }
    var private := IsPrivate(test.prefix);
    if !private {
      return false;
    }
    for i := 0 to |forbidden|
      invariant forall k :: 0 <= k < i ==>
                  CanonicalFour(forbidden[k]) && Disjoint(test.prefix, forbidden[k].prefix)
    {
      if !forbidden[i].Four? || !Canonical(forbidden[i].prefix) {
        return false;
      }
      OverlapDecidesDisjoint(test.prefix, forbidden[i].prefix);
      if PrefixesOverlap(test.prefix, forbidden[i].prefix) {
        return false;
      }
    }
    return true;
  }
}

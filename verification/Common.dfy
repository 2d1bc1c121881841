/** Values shared by every component: optional values, instants and text. */
module Common {

  datatype Option<+T> = None | Some(value: T)

  /** A 64-bit counter wraps; the source increments it without a check. */
  const TWO_TO_64: nat := 0x1_0000_0000_0000_0000
  const TWO_TO_32: nat := 0x1_0000_0000

  type uint64 = x: nat | x < TWO_TO_64
  type uint32 = x: nat | x < TWO_TO_32

  /** An instant with the zone offset it was written in. Instant 0 is the zero
      time; comparisons look at the instant only. */
  datatype Time = Time(instant: int, offset: int) {
    predicate IsZero() { instant == 0 }
    predicate Before(other: Time) { instant < other.instant }
    predicate After(other: Time) { other.instant < instant }
    predicate Equal(other: Time) { instant == other.instant }
    /** Non-zero and written in UTC. */
    predicate Canonical() { !IsZero() && offset == 0 }
  }

  const ZERO_TIME := Time(0, 0)

  /** How a call can go: well; a failure without effect; or a failure, or a crash, after the effect. */
  datatype Fault = Clean | LostBefore | LostAfter

  /** What befalls one call: `foreign` replaces the state it meets just before it. */
  datatype Disturbance<T> = Disturbance(foreign: Option<T>, fault: Fault)

  /** An immutable plan artifact. */
  datatype PlanIdentity = PlanIdentity(id: string, hash: string)

  /** The class of environment a test run may dispose of. */
  const DISPOSABLE := "disposable"
}

/** Byte-wise string order, fixed-width decimals and sorted listings. */
module Text {

  /** The order `sort.Strings` sorts by. */
  predicate LexLess(a: string, b: string) {
    if b == [] then false
    else if a == [] then true
    else a[0] < b[0] || (a[0] == b[0] && LexLess(a[1..], b[1..]))
  }

  lemma {:induction false} LexIrreflexive(a: string)
    ensures !LexLess(a, a)
  {
    if a != [] {
      LexIrreflexive(a[1..]);
    }
  }

  lemma {:induction false} LexTransitive(a: string, b: string, c: string)
    requires LexLess(a, b) && LexLess(b, c)
    ensures LexLess(a, c)
  {
    if a != [] && a[0] == b[0] && b[0] == c[0] {
      LexTransitive(a[1..], b[1..], c[1..]);
    }
  }

  lemma {:induction false} LexTotal(a: string, b: string)
    ensures a == b || LexLess(a, b) || LexLess(b, a)
  {
    if a != [] && b != [] && a[0] == b[0] {
      LexTotal(a[1..], b[1..]);
      assert a == [a[0]] + a[1..] && b == [b[0]] + b[1..];
    }
  }

  lemma LexAsymmetric(a: string, b: string)
    requires LexLess(a, b)
    ensures !LexLess(b, a)
  {
    if LexLess(b, a) {
      LexTransitive(a, b, a);
      LexIrreflexive(a);
    }
  }

  /** Equal-length heads decide the order whatever follows them. */
  lemma {:induction false} LexHeadDecides(a: string, b: string, x: string, y: string)
    requires |a| == |b| && LexLess(a, b)
    ensures LexLess(a + x, b + y)
  {
    assert (a + x)[0] == a[0] && (b + y)[0] == b[0];
    if a[0] == b[0] {
      LexHeadDecides(a[1..], b[1..], x, y);
      assert (a + x)[1..] == a[1..] + x && (b + y)[1..] == b[1..] + y;
    }
  }

  /** A common head leaves the decision to the tails. */
  lemma {:induction false} LexCommonHead(p: string, a: string, b: string)
    requires LexLess(a, b)
    ensures LexLess(p + a, p + b)
  {
    if p == [] {
      assert p + a == a && p + b == b;
    } else {
      LexCommonHead(p[1..], a, b);
      assert (p + a)[1..] == p[1..] + a && (p + b)[1..] == p[1..] + b;
    }
  }

  function Pow10(n: nat): nat {
    if n == 0 then 1 else 10 * Pow10(n - 1)
  }

  /** `n` printed in exactly `width` decimal digits, zero-padded. */
  function Padded(n: nat, width: nat): (s: string)
    ensures |s| == width
  {
    if width == 0 then "" else Padded(n / 10, width - 1) + [('0' as int + n % 10) as char]
  }

  /** Zero-padding makes the string order the numeric order. */
  lemma {:induction false} PaddedMonotone(a: nat, b: nat, width: nat)
    requires a < b < Pow10(width)
    ensures LexLess(Padded(a, width), Padded(b, width))
  {
    var p, q := Padded(a / 10, width - 1), Padded(b / 10, width - 1);
    var x, y := [('0' as int + a % 10) as char], [('0' as int + b % 10) as char];
    assert b / 10 < Pow10(width - 1);
    if a / 10 < b / 10 {
      PaddedMonotone(a / 10, b / 10, width - 1);
      LexHeadDecides(p, q, x, y);
    } else {
      assert a % 10 < b % 10;
      assert LexLess(x, y);
      LexCommonHead(p, x, y);
    }
  }

  lemma PaddedNamesOrdered(a: nat, b: nat, width: nat, x: string, y: string)
    requires a < b < Pow10(width)
    ensures LexLess(Padded(a, width) + x, Padded(b, width) + y)
  {
    PaddedMonotone(a, b, width);
    LexHeadDecides(Padded(a, width), Padded(b, width), x, y);
  }

  ghost predicate StrictlySorted(names: seq<string>) {
    forall i, j :: 0 <= i < j < |names| ==> LexLess(names[i], names[j])
  }

  ghost function Elements<T>(s: seq<T>): set<T> {
    set x | x in s
  }

  lemma HeadNotInTail(s: seq<string>)
    requires StrictlySorted(s) && s != []
    ensures s[0] !in s[1..]
  {
    LexIrreflexive(s[0]);
    assert forall k :: 0 <= k < |s[1..]| ==> LexLess(s[0], s[1..][k]);
  }

  lemma HeadIsLeast(s: seq<string>, x: string)
    requires StrictlySorted(s) && x in s
    ensures s[0] == x || LexLess(s[0], x)
  {
    var i :| 0 <= i < |s| && s[i] == x;
  }

  /** A strictly sorted listing is determined by the names it lists. */
  lemma {:induction false} SortedListingUnique(a: seq<string>, b: seq<string>)
    requires StrictlySorted(a) && StrictlySorted(b)
    requires forall x :: x in a <==> x in b
    ensures a == b
  {
    assert |b| > 0 ==> b[0] in b;
    if a != [] {
      assert a[0] in a;
      HeadIsLeast(b, a[0]);
      HeadIsLeast(a, b[0]);
      if LexLess(a[0], b[0]) {
        LexAsymmetric(a[0], b[0]);
      }
      HeadNotInTail(a);
      HeadNotInTail(b);
      assert a == [a[0]] + a[1..] && b == [b[0]] + b[1..];
      forall x ensures x in a[1..] <==> x in b[1..] {
        assert x in a <==> x == a[0] || x in a[1..];
        assert x in b <==> x == b[0] || x in b[1..];
      }
      SortedListingUnique(a[1..], b[1..]);
    }
  }

  predicate HexDigit(c: char) {
    '0' <= c <= '9' || 'a' <= c <= 'f'
  }

  predicate AllHex(s: string) {
    forall i :: 0 <= i < |s| ==> HexDigit(s[i])
  }

  predicate IsOperationID(s: string) {
    |s| == 19 && s[..3] == "op-" && AllHex(s[3..])
  }

  predicate IsPlanID(s: string) {
    |s| == 21 && s[..5] == "plan-" && AllHex(s[5..])
  }

  /** A lowercase SHA-256 digest. */
  predicate IsDigest(s: string) {
    |s| == 64 && AllHex(s)
  }

  /** The text of some digest. */
  type DigestText = s: string | |s| == 64 witness Padded(0, 64)

  predicate IsStepID(s: string) {
    && 1 <= |s| <= 64
    && 'a' <= s[0] <= 'z'
    && forall i :: 0 <= i < |s| ==> 'a' <= s[i] <= 'z' || '0' <= s[i] <= '9' || s[i] == '-'
  }
}

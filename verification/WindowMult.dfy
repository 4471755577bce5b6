/** Multiplication four bits at a time, with a cached table of small multiples (multJac, multJac2 and multiples of
    src/common/Elliptic.js). */
module WindowMult {
  import opened Wrappers
  import opened ModArith
  import opened Groups
  import opened Jacobian
  import opened CurveGroup

  // ----- Multi-limb numbers -----

  function Pow2(n: nat): (r: nat)
    ensures r > 0
  {
    if n == 0 then 1 else 2 * Pow2(n - 1)
  }

  ghost predicate Limbs(k: seq<nat>, radix: nat) {
    forall i :: 0 <= i < |k| ==> k[i] < Pow2(radix)
  }

  /** What the limbs from i on are worth; a number without that many limbs has nothing there. */
  function Top(k: seq<nat>, radix: nat, i: nat): nat
    decreases |k| - i
  {
    if i >= |k| then 0 else k[i] + Pow2(radix) * Top(k, radix, i + 1)
  }

  function Value(k: seq<nat>, radix: nat): nat {
    Top(k, radix, 0)
  }

  lemma {:induction false} TopShift(n: nat, k: seq<nat>, radix: nat, i: nat)
    ensures Top([n] + k, radix, i + 1) == Top(k, radix, i)
    decreases |k| - i
  {
    if i < |k| {
      TopShift(n, k, radix, i + 1);
    }
  }

  /** The first limb is the lowest. */
  lemma ValueLaws(n: nat, k: seq<nat>, radix: nat)
    ensures Value([], radix) == 0 && Value([n], radix) == n
    ensures Value([n] + k, radix) == n + Pow2(radix) * Value(k, radix)
  {
    TopShift(n, k, radix, 0);
    var none: seq<nat> := [];
    TopShift(n, none, radix, 0);
    assert [n] + none == [n];
  }

  lemma {:induction false} TopTrimmed(k: seq<nat>, radix: nat, i: nat)
    requires i <= |k|
    ensures Top(k + [0], radix, i) == Top(k, radix, i)
    decreases |k| - i
  {
    if i < |k| {
      TopTrimmed(k, radix, i + 1);
    }
  }

  /** A highest limb of 0 is worth nothing, so that normalizing does not change a number. */
  lemma ValueTrimmed(k: seq<nat>, radix: nat)
    ensures Value(k + [0], radix) == Value(k, radix)
  {
    TopTrimmed(k, radix, 0);
  }

  /** Limb i, which is 0 beyond the last one. */
  function Limb(k: seq<nat>, i: nat): nat {
    if i < |k| then k[i] else 0
  }

  function Nibble(l: nat, j: nat): (r: nat)
    ensures r < 16
  {
    l / Pow2(j) % 16
  }

  /** The number read so far when the limbs above i, and limb i down to bit j, have been read. */
  function ReadTo(k: seq<nat>, radix: nat, i: nat, j: nat): int
    requires j <= radix
  {
    Top(k, radix, i + 1) * Pow2(radix - j) + Limb(k, i) / Pow2(j)
  }

  lemma {:induction false} Pow2Add(m: nat, n: nat)
    ensures Pow2(m + n) == Pow2(m) * Pow2(n)
  {
    if m > 0 {
      Pow2Add(m - 1, n);
      assert m + n - 1 == m - 1 + n;
    }
  }

  lemma Pow2Four(j: nat)
    requires j >= 4
    ensures Pow2(j) == 16 * Pow2(j - 4)
  {
    Pow2Add(4, j - 4);
    assert Pow2(4) == 16 by {
      assert Pow2(1) == 2 && Pow2(2) == 4 && Pow2(3) == 8;
    }
  }

  lemma DivDiv(l: nat, a: nat)
    requires a > 0
    ensures l / (16 * a) == (l / a) / 16
  {
    var q, r := l / a, l % a;
    var q2, r2 := q / 16, q % 16;
    Regroup(l, a, q, r, q2, r2);
    QuotientUnique(l, q2, r2 * a + r, 16 * a);
  }

  lemma Regroup(l: nat, a: nat, q: nat, r: nat, q2: nat, r2: nat)
    requires l == q * a + r && r < a && q == 16 * q2 + r2 && r2 < 16
    ensures l == q2 * (16 * a) + (r2 * a + r) && 0 <= r2 * a + r < 16 * a
  {
    assert q * a == (16 * q2) * a + r2 * a;
    assert (16 * q2) * a == q2 * (16 * a);
    assert r2 * a <= 15 * a by {
      MulMonotone(r2, 15, a);
    }
  }

  lemma MulMonotone(x: nat, y: nat, a: nat)
    requires x <= y
    ensures x * a <= y * a
  {
    assert (y - x) * a >= 0;
    assert y * a == x * a + (y - x) * a;
  }

  lemma QuotientUnique(a: nat, q: nat, r: nat, m: nat)
    requires m > 0 && r < m && a == q * m + r
    ensures a / m == q
  {
    DivModUnique(a, q, r, m);
    assert a == (a / m) * m + a % m;
    assert (a / m) * m == q * m;
    SameFactor(a / m, q, m);
  }

  lemma SameFactor(a: int, b: int, m: int)
    requires m > 0 && a * m == b * m
    ensures a == b
  {
    assert (a - b) * m == 0;
    SmallMultiple(a - b, m);
  }

  /** Reading four more bits. */
  lemma ReadFour(k: seq<nat>, radix: nat, i: nat, j: nat)
    requires 4 <= j <= radix
    ensures ReadTo(k, radix, i, j - 4) == 16 * ReadTo(k, radix, i, j) + Nibble(Limb(k, i), j - 4)
  {
    Pow2Four(j);
    Pow2Four(radix - j + 4);
    var l, a, t := Limb(k, i), Pow2(j - 4), Top(k, radix, i + 1);
    DivDiv(l, a);
    assert l / a == 16 * (l / Pow2(j)) + l / a % 16;
    assert t * (16 * Pow2(radix - j)) == 16 * (t * Pow2(radix - j));
  }

  /** Before limb i: the limbs above it. After it: it, too. */
  lemma ReadLimb(k: seq<nat>, radix: nat, i: nat)
    requires Limbs(k, radix)
    ensures ReadTo(k, radix, i, radix) == Top(k, radix, i + 1) && ReadTo(k, radix, i, 0) == Top(k, radix, i)
  {
    assert Pow2(0) == 1;
    var l := Limb(k, i);
    assert l < Pow2(radix);
    QuotientUnique(l, 0, l, Pow2(radix));
    assert l / 1 == l;
  }

  // ----- The table -----

  /** Entry i stands for i times the element. */
  ghost predicate Table<P(!new)>(C: Curve<P>, a: P, m: seq<Jac>)
    requires C.p > 0
  {
    forall i :: 0 <= i < |m| ==> C.Is(m[i], C.G.Mul(i, a))
  }

  ghost predicate Full<P(!new)>(C: Curve<P>, a: P, m: seq<Jac>)
    requires C.p > 0
  {
    Table(C, a, m) && |m| == 16
  }

  /** In a group of prime order a multiple below the order is zero for zero only. */
  lemma NoSmallTorsion<P(!new)>(G: Group<P>, k: nat, a: P)
    requires G.PrimeOrder() && 0 < k < G.order && G.Mul(k, a) == G.zero
    ensures a == G.zero
  {
    hide Prime, Inverse, Cong;
    var i := Inverse(k, G.order);
    InverseWorks(k, G.order);
    CongDifference(i * k, 1, G.order);
    CongDifference(k * i, 1, G.order);
    assert i * k == k * i;
    MulMul(G, i, k, a);
    MulZero(G, i);
    MulCong(G, i * k, 1, a);
    MulOne(G, a);
  }

  /** No multiple from 2 to 14 is the element or its inverse, so that filling a table never throws. */
  lemma FillingAdds<P(!new)>(C: Curve<P>, v: Jac, i: nat, a: P)
    requires C.Large() && 2 <= i < 15
    ensures !Throws(C, v, C.G.Mul(i, a), a)
  {
    hide Prime;
    var G := C.G;
    var b := G.Mul(i, a);
    if b == a {
      MulAdd(G, i - 1, 1, a);
      MulOne(G, a);
      ZeroLeft(G, a);
      CancelRight(G, G.Mul(i - 1, a), G.zero, a);
      NoSmallTorsion(G, i - 1, a);
    } else if b == G.neg(a) {
      MulSucc(G, i, a);
      assert G.Cancels(a);
      NoSmallTorsion(G, i + 1, a);
    }
  }

  class PointJac<P(!new)> {
    const v: Jac
    var multiples: Option<seq<Jac>>

    constructor (v: Jac)
      ensures this.v == v && multiples.None?
    {
      this.v, multiples := v, None;
    }

    ghost predicate Valid(C: Curve<P>, a: P)
      reads this
    {
      C.Large() && C.Is(v, a) && (multiples.Some? ==> Full(C, a, multiples.value) && multiples.value[2] == C.doubl(v))
    }

    /** The table is built once, and always filled: the point's addition to its multiples never meets the exception. */
    method Multiples(C: Curve<P>, ghost a: P) returns (m: seq<Jac>)
      requires Valid(C, a)
      modifies this
      ensures Valid(C, a) && multiples == Some(m) && |m| == 16 && forall i :: 0 <= i < 16 ==> C.Is(m[i], C.G.Mul(i, a))
      ensures old(multiples).Some? ==> multiples == old(multiples)
    {
      hide Curve.Large, Throws;
      LargeIsValid(C);
      if multiples.None? {
        FirstThree(C, v, a);
        var j := C.doubl(v);
        multiples := Some([IDENTITY, v, j]);
        for i := 3 to 16
          invariant C.Is(v, a) && multiples.Some? && |multiples.value| == i && multiples.value[2] == C.doubl(v)
          invariant Table(C, a, multiples.value) && C.Is(j, C.G.Mul(i - 1, a))
        {
          FillingAdds(C, v, i - 1, a);
          var next := AddJac(C, j, v, C.G.Mul(i - 1, a), a);
          NextMultiple(C, i - 1, a);
          j := next.value;
          multiples := Some(multiples.value + [j]);
        }
      }
      m := multiples.value;
    }
  }

  lemma LargeIsValid<P(!new)>(C: Curve<P>)
    requires C.Large()
    ensures C.Valid() && C.p > 0
  {
  }

  lemma FirstThree<P(!new)>(C: Curve<P>, v: Jac, a: P)
    requires C.Valid() && C.Is(v, a)
    ensures C.Is(IDENTITY, C.G.Mul(0, a)) && C.Is(v, C.G.Mul(1, a)) && C.Is(C.doubl(v), C.G.Mul(2, a))
  {
    assert C.OnlyZero(C.G.zero) && C.Doubles(v, a);
    MulOne(C.G, a);
    MulSucc(C.G, 1, a);
  }

  lemma NextMultiple<P(!new)>(C: Curve<P>, i: nat, a: P)
    requires C.Valid()
    ensures C.G.add(C.G.Mul(i, a), a) == C.G.Mul(i + 1, a)
  {
    MulSucc(C.G, i, a);
    assert C.G.Commutes(C.G.Mul(i, a), a);
  }

  // ----- The loops -----

  lemma Sixteen<P(!new)>(C: Curve<P>, a: P)
    requires C.Valid()
    ensures var b := C.G.add(a, a); var c := C.G.add(b, b); var d := C.G.add(c, c); C.G.add(d, d) == C.G.Mul(16, a)
  {
    var G := C.G;
    MulOne(G, a);
    MulAdd(G, 1, 1, a);
    MulAdd(G, 2, 2, a);
    MulAdd(G, 4, 4, a);
    MulAdd(G, 8, 8, a);
  }

  method DoubleFour<P(!new)>(C: Curve<P>, j: Jac, ghost a: P) returns (r: Jac)
    requires C.Valid() && C.Is(j, a)
    ensures C.Is(r, C.G.Mul(16, a))
  {
    ghost var b := C.G.add(a, a);
    ghost var c := C.G.add(b, b);
    ghost var d := C.G.add(c, c);
    assert C.Doubles(j, a);
    r := C.doubl(j);
    assert C.Doubles(r, b);
    r := C.doubl(r);
    assert C.Doubles(r, c);
    r := C.doubl(r);
    assert C.Doubles(r, d);
    r := C.doubl(r);
    Sixteen(C, a);
  }

  /** A table entry added; None for the exception. */
  method AddEntry<P(!new)>(C: Curve<P>, j: Jac, ghost b: P, m: seq<Jac>, ghost a: P, n: nat) returns (r: Option<Jac>)
    requires C.Valid() && C.Is(j, b) && Full(C, a, m) && n < 16
    ensures r.Some? ==> C.Is(r.value, C.G.add(b, C.G.Mul(n, a)))
    ensures r.None? <==> Throws(C, m[n], b, C.G.Mul(n, a))
  {
    assert C.Is(m[n], C.G.Mul(n, a));
    r := AddJac(C, j, m[n], b, C.G.Mul(n, a));
  }

  /** 16 (r1 P + r2 Q) + n1 P + n2 Q, as a combination of P and Q. */
  lemma NextCombination<P(!new)>(G: Group<P>, r1: int, n1: nat, a: P, r2: int, n2: nat, b: P)
    requires G.Valid()
    ensures G.add(G.add(G.Mul(16, G.add(G.Mul(r1, a), G.Mul(r2, b))), G.Mul(n1, a)), G.Mul(n2, b))
         == G.add(G.Mul(16 * r1 + n1, a), G.Mul(16 * r2 + n2, b))
  {
    hide Group.Mul;
    MulDistributes(G, 16, G.Mul(r1, a), G.Mul(r2, b));
    MulMul(G, 16, r1, a);
    MulMul(G, 16, r2, b);
    MulAdd(G, 16 * r1, n1, a);
    MulAdd(G, 16 * r2, n2, b);
    AddPairs(G, G.Mul(16 * r1, a), G.Mul(16 * r2, b), G.Mul(n1, a), G.Mul(n2, b));
  }

  lemma AddPairs<P(!new)>(G: Group<P>, a: P, b: P, x: P, y: P)
    requires G.Valid()
    ensures G.add(G.add(G.add(a, b), x), y) == G.add(G.add(a, x), G.add(b, y))
  {
    assert G.Associates(G.add(a, b), x, y);
    Interchange(G, a, b, x, y);
  }

  /** r1 P + r2 Q has been multiplied by 16; now adding entry n1 of P's table, or then entry n2 of Q's, throws: the
      entry has a z other than 1, and the sum so far is that very multiple or its inverse. */
  ghost predicate StepThrows<P(!new)>(C: Curve<P>, r1: int, n1: nat, m1: seq<Jac>, a: P, r2: int, n2: nat, m2: seq<Jac>,
                                      b: P)
    requires C.p > 0 && |m1| == |m2| == 16 && n1 < 16 && n2 < 16
  {
    var j := C.G.Mul(16, C.G.add(C.G.Mul(r1, a), C.G.Mul(r2, b)));
    || Throws(C, m1[n1], j, C.G.Mul(n1, a))
    || Throws(C, m2[n2], C.G.add(j, C.G.Mul(n1, a)), C.G.Mul(n2, b))
  }

  /** That happens when the four bits below the given one of limb i are added. */
  ghost predicate ThrowsAt<P(!new)>(C: Curve<P>, k1: seq<nat>, m1: seq<Jac>, a: P, k2: seq<nat>, m2: seq<Jac>, b: P,
                                    radix: nat, i: nat, bit: nat)
    requires C.p > 0 && |m1| == |m2| == 16 && 4 <= bit <= radix
  {
    StepThrows(C, ReadTo(k1, radix, i, bit), Nibble(Limb(k1, i), bit - 4), m1, a,
               ReadTo(k2, radix, i, bit), Nibble(Limb(k2, i), bit - 4), m2, b)
  }

  /** It happens in limb i above the bit given. */
  ghost predicate LimbThrows<P(!new)>(C: Curve<P>, k1: seq<nat>, m1: seq<Jac>, a: P, k2: seq<nat>, m2: seq<Jac>, b: P,
                                      radix: nat, i: nat, above: nat)
    requires C.p > 0 && |m1| == |m2| == 16
  {
    exists bit | above + 4 <= bit <= radix && bit % 4 == 0 :: ThrowsAt(C, k1, m1, a, k2, m2, b, radix, i, bit)
  }

  /** It happens in one of the limbs from i on. */
  ghost predicate SomeThrow<P(!new)>(C: Curve<P>, k1: seq<nat>, m1: seq<Jac>, a: P, k2: seq<nat>, m2: seq<Jac>, b: P,
                                     radix: nat, i: nat)
    requires C.p > 0 && |m1| == |m2| == 16
  {
    exists l | i <= l < Longer(k1, k2) :: LimbThrows(C, k1, m1, a, k2, m2, b, radix, l, 0)
  }

  function Longer(k1: seq<nat>, k2: seq<nat>): nat {
    if |k1| > |k2| then |k1| else |k2|
  }

  /** Four bits of both numbers: four doublings and two additions. */
  method MultNibble<P(!new)>(C: Curve<P>, j: Jac, ghost r1: int, m1: seq<Jac>, ghost a: P, n1: nat, ghost r2: int,
                             m2: seq<Jac>, ghost b: P, n2: nat)
    returns (out: Option<Jac>)
    requires C.Valid() && Full(C, a, m1) && Full(C, b, m2) && n1 < 16 && n2 < 16
    requires C.Is(j, C.G.add(C.G.Mul(r1, a), C.G.Mul(r2, b)))
    ensures out.Some? ==> C.Is(out.value, C.G.add(C.G.Mul(16 * r1 + n1, a), C.G.Mul(16 * r2 + n2, b)))
    ensures out.None? <==> StepThrows(C, r1, n1, m1, a, r2, n2, m2, b)
  {
    hide Table, Throws;
    ghost var sum := C.G.add(C.G.Mul(r1, a), C.G.Mul(r2, b));
    var d := DoubleFour(C, j, sum);
    out := AddEntry(C, d, C.G.Mul(16, sum), m1, a, n1);
    if out.Some? {
      out := AddEntry(C, out.value, C.G.add(C.G.Mul(16, sum), C.G.Mul(n1, a)), m2, b, n2);
      NextCombination(C.G, r1, n1, a, r2, n2, b);
    }
  }

  lemma OneMoreStep<P(!new)>(C: Curve<P>, k1: seq<nat>, m1: seq<Jac>, a: P, k2: seq<nat>, m2: seq<Jac>, b: P,
                             radix: nat, i: nat, bit: nat)
    requires C.p > 0 && |m1| == |m2| == 16 && 4 <= bit <= radix && bit % 4 == 0
    ensures LimbThrows(C, k1, m1, a, k2, m2, b, radix, i, bit - 4) <==>
      LimbThrows(C, k1, m1, a, k2, m2, b, radix, i, bit) || ThrowsAt(C, k1, m1, a, k2, m2, b, radix, i, bit)
  {
    hide ThrowsAt;
  }

  lemma NothingAbove<P(!new)>(C: Curve<P>, k1: seq<nat>, m1: seq<Jac>, a: P, k2: seq<nat>, m2: seq<Jac>, b: P,
                              radix: nat, i: nat)
    requires C.p > 0 && |m1| == |m2| == 16
    ensures !LimbThrows(C, k1, m1, a, k2, m2, b, radix, i, radix)
  {
  }

  lemma MoreBits<P(!new)>(C: Curve<P>, k1: seq<nat>, m1: seq<Jac>, a: P, k2: seq<nat>, m2: seq<Jac>, b: P, radix: nat,
                          i: nat, above: nat)
    requires C.p > 0 && |m1| == |m2| == 16 && LimbThrows(C, k1, m1, a, k2, m2, b, radix, i, above)
    ensures LimbThrows(C, k1, m1, a, k2, m2, b, radix, i, 0)
  {
    hide ThrowsAt;
  }

  /** The four bits below the given one. */
  method MultBits<P(!new)>(C: Curve<P>, j: Jac, ghost k1: seq<nat>, m1: seq<Jac>, ghost a: P, ghost k2: seq<nat>,
                           m2: seq<Jac>, ghost b: P, ghost radix: nat, ghost i: nat, l1: nat, l2: nat, bit: nat)
    returns (out: Option<Jac>)
    requires C.Valid() && C.p > 0 && Full(C, a, m1) && Full(C, b, m2) && 4 <= bit <= radix
    requires l1 == Limb(k1, i) && l2 == Limb(k2, i)
    requires C.Is(j, C.G.add(C.G.Mul(ReadTo(k1, radix, i, bit), a), C.G.Mul(ReadTo(k2, radix, i, bit), b)))
    ensures out.Some? ==>
      C.Is(out.value, C.G.add(C.G.Mul(ReadTo(k1, radix, i, bit - 4), a), C.G.Mul(ReadTo(k2, radix, i, bit - 4), b)))
    ensures out.None? <==> ThrowsAt(C, k1, m1, a, k2, m2, b, radix, i, bit)
  {
    hide Table, StepThrows, Nibble, ReadTo, Limb, Curve.Valid;
    ReadFour(k1, radix, i, bit);
    ReadFour(k2, radix, i, bit);
    ghost var r1, r2 := ReadTo(k1, radix, i, bit), ReadTo(k2, radix, i, bit);
    out := MultNibble(C, j, r1, m1, a, Nibble(l1, bit - 4), r2, m2, b, Nibble(l2, bit - 4));
  }

  /** One limb of both numbers, from its highest four bits to its lowest. */
  method MultLimb<P(!new)>(C: Curve<P>, j: Jac, k1: seq<nat>, m1: seq<Jac>, ghost a: P, k2: seq<nat>, m2: seq<Jac>,
                           ghost b: P, radix: nat, i: nat)
    returns (out: Option<Jac>)
    requires C.Valid() && C.p > 0 && Full(C, a, m1) && Full(C, b, m2)
    requires radix % 4 == 0 && Limbs(k1, radix) && Limbs(k2, radix)
    requires C.Is(j, C.G.add(C.G.Mul(Top(k1, radix, i + 1), a), C.G.Mul(Top(k2, radix, i + 1), b)))
    ensures out.Some? ==> C.Is(out.value, C.G.add(C.G.Mul(Top(k1, radix, i), a), C.G.Mul(Top(k2, radix, i), b)))
    ensures out.None? <==> LimbThrows(C, k1, m1, a, k2, m2, b, radix, i, 0)
  {
    hide Table, ThrowsAt, Top, ReadTo, Limb, Limbs, LimbThrows, Curve.Valid;
    NothingAbove(C, k1, m1, a, k2, m2, b, radix, i);
    var l1, l2 := Limb(k1, i), Limb(k2, i);
    out := Some(j);
    ReadLimb(k1, radix, i);
    ReadLimb(k2, radix, i);
    var bit := radix;
    while bit > 0 && out.Some?
      invariant 0 <= bit <= radix && bit % 4 == 0
      invariant out.Some? ==>
        C.Is(out.value, C.G.add(C.G.Mul(ReadTo(k1, radix, i, bit), a), C.G.Mul(ReadTo(k2, radix, i, bit), b)))
      invariant out.None? <==> LimbThrows(C, k1, m1, a, k2, m2, b, radix, i, bit)
    {
      OneMoreStep(C, k1, m1, a, k2, m2, b, radix, i, bit);
      out := MultBits(C, out.value, k1, m1, a, k2, m2, b, radix, i, l1, l2, bit);
      bit := bit - 4;
    }
    if out.None? {
      MoreBits(C, k1, m1, a, k2, m2, b, radix, i, bit);
    }
  }

  lemma OneMoreLimb<P(!new)>(C: Curve<P>, k1: seq<nat>, m1: seq<Jac>, a: P, k2: seq<nat>, m2: seq<Jac>, b: P,
                             radix: nat, i: nat)
    requires C.p > 0 && |m1| == |m2| == 16 && i < Longer(k1, k2)
    ensures SomeThrow(C, k1, m1, a, k2, m2, b, radix, i) <==>
      SomeThrow(C, k1, m1, a, k2, m2, b, radix, i + 1) || LimbThrows(C, k1, m1, a, k2, m2, b, radix, i, 0)
  {
    hide LimbThrows;
  }

  lemma MoreLimbs<P(!new)>(C: Curve<P>, k1: seq<nat>, m1: seq<Jac>, a: P, k2: seq<nat>, m2: seq<Jac>, b: P, radix: nat,
                           i: nat)
    requires C.p > 0 && |m1| == |m2| == 16 && SomeThrow(C, k1, m1, a, k2, m2, b, radix, i)
    ensures SomeThrow(C, k1, m1, a, k2, m2, b, radix, 0)
  {
    hide LimbThrows;
  }

  lemma StartAtZero<P(!new)>(C: Curve<P>, k1: seq<nat>, m1: seq<Jac>, a: P, k2: seq<nat>, m2: seq<Jac>, b: P,
                             radix: nat)
    requires C.Valid() && C.p > 0 && |m1| == |m2| == 16
    ensures var n := Longer(k1, k2);
      && !SomeThrow(C, k1, m1, a, k2, m2, b, radix, n)
      && C.Is(IDENTITY, C.G.add(C.G.Mul(Top(k1, radix, n), a), C.G.Mul(Top(k2, radix, n), b)))
  {
    MulOne(C.G, a);
    MulOne(C.G, b);
    ZeroLeft(C.G, C.G.zero);
    assert C.OnlyZero(C.G.zero);
  }

  /** All limbs, with both tables at hand. */
  method MultLimbs<P(!new)>(C: Curve<P>, k1: seq<nat>, m1: seq<Jac>, ghost a: P, k2: seq<nat>, m2: seq<Jac>,
                            ghost b: P, radix: nat)
    returns (out: Option<Jac>)
    requires C.Valid() && C.p > 0 && Full(C, a, m1) && Full(C, b, m2)
    requires radix % 4 == 0 && Limbs(k1, radix) && Limbs(k2, radix)
    ensures out.Some? ==> C.Is(out.value, C.G.add(C.G.Mul(Value(k1, radix), a), C.G.Mul(Value(k2, radix), b)))
    ensures out.None? <==> SomeThrow(C, k1, m1, a, k2, m2, b, radix, 0)
  {
    hide LimbThrows, Limbs, Top, Table, SomeThrow, Curve.Valid;
    StartAtZero(C, k1, m1, a, k2, m2, b, radix);
    out := Some(IDENTITY);
    var i := Longer(k1, k2);
    while i > 0 && out.Some?
      invariant 0 <= i <= Longer(k1, k2)
      invariant out.None? <==> SomeThrow(C, k1, m1, a, k2, m2, b, radix, i)
      invariant out.Some? ==> C.Is(out.value, C.G.add(C.G.Mul(Top(k1, radix, i), a), C.G.Mul(Top(k2, radix, i), b)))
    {
      i := i - 1;
      OneMoreLimb(C, k1, m1, a, k2, m2, b, radix, i);
      out := MultLimb(C, out.value, k1, m1, a, k2, m2, b, radix, i);
    }
    if out.None? {
      MoreLimbs(C, k1, m1, a, k2, m2, b, radix, i);
    }
  }

  /** k1 P + k2 Q for numbers of any, also unequal, numbers of limbs; None exactly if one of the additions throws. */
  method MultJac2<P(!new)>(C: Curve<P>, k1: seq<nat>, jac1: PointJac<P>, ghost a: P, k2: seq<nat>, jac2: PointJac<P>,
                           ghost b: P, radix: nat)
    returns (out: Option<Jac>)
    requires jac1.Valid(C, a) && jac2.Valid(C, b) && (jac1 == jac2 ==> a == b)
    requires radix % 4 == 0 && Limbs(k1, radix) && Limbs(k2, radix)
    modifies jac1, jac2
    ensures jac1.Valid(C, a) && jac2.Valid(C, b) && jac1.multiples.Some? && jac2.multiples.Some?
    ensures out.Some? ==> C.Is(out.value, C.G.add(C.G.Mul(Value(k1, radix), a), C.G.Mul(Value(k2, radix), b)))
    ensures out.None? <==> SomeThrow(C, k1, jac1.multiples.value, a, k2, jac2.multiples.value, b, radix, 0)
  {
    hide Limbs, Top, Curve.Large, SomeThrow;
    LargeIsValid(C);
    var m1 := jac1.Multiples(C, a);
    var m2 := jac2.Multiples(C, b);
    out := MultLimbs(C, k1, m1, a, k2, m2, b, radix);
  }

  /** The limbs 0 and 1 are one unit of the second limb: a result is that multiple of the point. */
  method SecondLimb<P(!new)>(C: Curve<P>, jac1: PointJac<P>, ghost a: P, jac2: PointJac<P>, ghost b: P, radix: nat)
    returns (out: Option<Jac>)
    requires jac1.Valid(C, a) && jac2.Valid(C, b) && (jac1 == jac2 ==> a == b) && radix % 4 == 0 && radix > 0
    modifies jac1, jac2
    ensures out.Some? ==> C.Is(out.value, C.G.Mul(Pow2(radix), a))
  {
    hide Curve.Large, SomeThrow, Top;
    LargeIsValid(C);
    out := MultJac2(C, [0, 1], jac1, a, [], jac2, b, radix);
    ValueLaws(0, [1], radix);
    ValueLaws(1, [], radix);
    assert [0] + [1] == [0, 1];
    assert Value([0, 1], radix) == Pow2(radix);
    MulOne(C.G, b);
    ZeroLeft(C.G, C.G.Mul(Pow2(radix), a));
  }

  lemma {:induction false} PowAtLeast(bit: nat)
    requires bit >= 4
    ensures Pow2(bit) >= 16
  {
    if bit == 4 {
      Pow2Four(4);
    } else {
      PowAtLeast(bit - 1);
    }
  }

  /** The number 2 as one limb: nothing is read before the last four bits. */
  lemma LimbOfTwo(radix: nat, bit: nat)
    requires 4 <= bit <= radix && bit % 4 == 0
    ensures Limbs([2], radix) && Limb([2], 0) == 2 && ReadTo([2], radix, 0, bit) == 0
    ensures Nibble(2, bit - 4) == if bit == 4 then 2 else 0
  {
    PowAtLeast(radix);
    PowAtLeast(bit);
    QuotientUnique(2, 0, 2, Pow2(bit));
    if bit > 4 {
      PowAtLeast(bit - 4);
      QuotientUnique(2, 0, 2, Pow2(bit - 4));
    }
  }

  /** Twice the point added to nothing, and then to itself. */
  lemma AddingTwice<P(!new)>(C: Curve<P>, n: nat, m1: seq<Jac>, m2: seq<Jac>, a: P)
    requires C.Large() && a != C.G.zero && |m1| == |m2| == 16 && (n == 0 || n == 2)
    ensures StepThrows(C, 0, n, m1, a, 0, n, m2, a) <==> n == 2 && !Cong(m2[2].z, 1, C.p)
  {
    hide Prime, Cong;
    var G := C.G;
    MulOne(G, a);
    MulZero(G, 16);
    ZeroLeft(G, G.zero);
    ZeroLeft(G, G.Mul(n, a));
    if n == 2 && G.Mul(2, a) == G.zero {
      NoSmallTorsion(G, 2, a);
    } else if n == 2 {
      NegZero(G, G.Mul(2, a));
    }
  }

  lemma TwoAtLast<P(!new)>(C: Curve<P>, m1: seq<Jac>, m2: seq<Jac>, a: P, radix: nat)
    requires C.Large() && a != C.G.zero && |m1| == |m2| == 16 && radix % 4 == 0 && radix > 0
    ensures SomeThrow(C, [2], m1, a, [2], m2, a, radix, 0) <==> !Cong(m2[2].z, 1, C.p)
  {
    hide Cong, StepThrows, ReadTo, Nibble, LimbThrows;
    var k := [2];
    assert Longer(k, k) == 1;
    forall bit | 4 <= bit <= radix && bit % 4 == 0
      ensures ThrowsAt(C, k, m1, a, k, m2, a, radix, 0, bit) <==> bit == 4 && !Cong(m2[2].z, 1, C.p)
    {
      LimbOfTwo(radix, bit);
      AddingTwice(C, Nibble(2, bit - 4), m1, m2, a);
    }
    OnlyAtFour(C, k, m1, m2, a, radix, !Cong(m2[2].z, 1, C.p));
  }

  lemma OnlyAtFour<P(!new)>(C: Curve<P>, k: seq<nat>, m1: seq<Jac>, m2: seq<Jac>, a: P, radix: nat, t: bool)
    requires C.p > 0 && |m1| == |m2| == 16 && radix >= 4
    requires forall bit :: 4 <= bit <= radix && bit % 4 == 0 ==>
      (ThrowsAt(C, k, m1, a, k, m2, a, radix, 0, bit) <==> bit == 4 && t)
    ensures LimbThrows(C, k, m1, a, k, m2, a, radix, 0, 0) <==> t
  {
    hide ThrowsAt;
    if t {
      assert ThrowsAt(C, k, m1, a, k, m2, a, radix, 0, 4);
    }
  }

  /** 2 P + 2 P: the second addition is of the double to itself, and throws unless its z happens to be 1. */
  method TwiceTwice<P(!new)>(C: Curve<P>, jac1: PointJac<P>, jac2: PointJac<P>, ghost a: P, radix: nat)
    returns (out: Option<Jac>)
    requires jac1.Valid(C, a) && jac2.Valid(C, a) && a != C.G.zero && radix % 4 == 0 && radix > 0
    modifies jac1, jac2
    ensures out.None? <==> !Cong(C.doubl(jac2.v).z, 1, C.p)
  {
    LimbOfTwo(radix, radix);
    out := MultJac2(C, [2], jac1, a, [2], jac2, a, radix);
    TwoAtLast(C, jac1.multiples.value, jac2.multiples.value, a, radix);
  }
}

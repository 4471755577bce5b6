/** The zero-or-one proof of native/Elliptic.cc: proof_01 and the inner verify_proof_01 taking the challenge e. */
module Proof01 {
  import opened ModArith
  import opened Groups
  import opened Native

  datatype Proof<P> = Proof(d0: P, d1: P, e0: nat, e1: nat, f0: nat, f1: nat)

  /** SHA-256 of the three point encodings, read as a number. */
  type Hash<!P> = (P, P, P) -> nat

  /** z - g, the commitment opened to one less. */
  function MinusG<P(!new)>(G: Group<P>, z: P): P {
    G.add(G.neg(G.g), z)
  }

  /** What a verifier holding challenge e accepts. */
  predicate Accepts<P(!new,==)>(G: Group<P>, p: Proof<P>, z: P, e: int)
    requires G.order > 0
  {
    && (e - p.e0 - p.e1) % G.order == 0
    && G.add(G.Mul(p.f0, G.h), G.Mul(p.e0, z)) == p.d0
    && G.add(G.Mul(p.f1, G.h), G.Mul(p.e1, MinusG(G, z))) == p.d1
  }

  predicate Verifies<P(!new,==)>(G: Group<P>, hash: Hash<P>, p: Proof<P>, z: P)
    requires G.order > 0
  {
    Accepts(G, p, z, hash(z, p.d0, p.d1))
  }

  /** The verifier proper: e is overwritten, zero is returned on success. */
  method VerifyProof01<P(!new,==)>(G: Group<P>, p: Proof<P>, z: P, e: BN) returns (ret: int)
    requires G.order > 0
    modifies e
    ensures ret == 0 <==> Accepts(G, p, z, old(e.num))
  {
    e.num := e.num - p.e0;
    e.num := (e.num - p.e1) % G.order;
    if e.num != 0 {
      return 1;
    }
    var d := G.add(G.Mul(p.f0, G.h), G.Mul(p.e0, z));
    if d != p.d0 {
      return 1;
    }
    var z' := G.add(G.neg(G.g), z);
    d := G.add(G.Mul(p.f1, G.h), G.Mul(p.e1, z'));
    return if d == p.d1 then 0 else 1;
  }

  // ----- Completeness -----

  lemma MinusGOfCom<P(!new)>(G: Group<P>, x: int, y: int)
    requires G.Valid()
    ensures MinusG(G, G.Com(x, y)) == G.Com(x - 1, y)
  {
    MulOne(G, G.g);
    MulOne(G, G.h);
    assert G.Com(1, 0) == G.add(G.g, G.zero);
    ZeroLeft(G, G.g);
    ComNeg(G, 1, 0);
    ComAdd(G, -1, 0, x, y);
  }

  lemma HMultiple<P(!new)>(G: Group<P>, k: int)
    requires G.Valid()
    ensures G.Mul(k, G.h) == G.Com(0, k)
  {
    ZeroLeft(G, G.Mul(k, G.h));
  }

  /** The response f makes f*h + e*w land on the announced r*h, off by e times what w commits to. */
  lemma Response<P(!new)>(G: Group<P>, r: int, e: int, x: int, y: int, f: int)
    requires G.Valid() && f == (r - (e * y) % G.order) % G.order
    ensures G.add(G.Mul(f, G.h), G.Mul(e, G.Com(x, y))) == G.Com(e * x, r)
  {
    HMultiple(G, f);
    ComScale(G, e, x, y);
    ComAdd(G, 0, f, e * x, e * y);
    CongReduce(e * y, G.order);
    CongReduce(r - (e * y) % G.order, G.order);
    CongAdd(f, r - (e * y) % G.order, e * y, (e * y) % G.order, G.order);
    ComCong(G, e * x, f + e * y, e * x, r);
  }

  /** e*x more of g is noticed unless it vanishes. */
  lemma OffBy<P(!new)>(G: Group<P>, k: int, r: int)
    requires G.Valid()
    ensures G.Com(k, r) == G.Mul(r, G.h) <==> G.Mul(k, G.g) == G.zero
    ensures G.Mul(-k, G.g) == G.zero <==> G.Mul(k, G.g) == G.zero
  {
    ZeroLeft(G, G.Mul(r, G.h));
    if G.Com(k, r) == G.Mul(r, G.h) {
      CancelRight(G, G.Mul(k, G.g), G.zero, G.Mul(r, G.h));
    }
    MulMul(G, -1, k, G.g);
    MulMul(G, -1, -k, G.g);
    MulZero(G, -1);
  }

  lemma ChallengeSplit(e: int, bar: int, m: int)
    requires m > 0
    ensures (e - bar - (e - bar) % m) % m == 0 && (e - (e - bar) % m - bar) % m == 0
  {
    CongReduce(e - bar, m);
    CongDifference(e - bar, (e - bar) % m, m);
  }

  /** The half of the challenge the prover had to answer honestly. */
  function Answered<P>(p: Proof<P>, b: nat): nat {
    if b == 1 then p.e1 else p.e0
  }

  /** Why the real half of a proof is accepted: it is right for the bit it is made for, and wrong for the other. */
  lemma RealHalf<P(!new)>(G: Group<P>, r: int, e: int, y: int, f: int)
    requires G.Valid() && f == (r - (e * y) % G.order) % G.order
    ensures G.add(G.Mul(f, G.h), G.Mul(e, G.Com(0, y))) == G.Mul(r, G.h)
    ensures G.add(G.Mul(f, G.h), G.Mul(e, G.Com(1, y))) == G.Mul(r, G.h) <==> G.Mul(e, G.g) == G.zero
    ensures G.add(G.Mul(f, G.h), G.Mul(e, G.Com(-1, y))) == G.Mul(r, G.h) <==> G.Mul(e, G.g) == G.zero
  {
    Response(G, r, e, 0, y, f);
    HMultiple(G, r);
    Response(G, r, e, 1, y, f);
    OffBy(G, e, r);
    Response(G, r, e, -1, y, f);
    OffBy(G, -e, r);
    assert e * 0 == 0 && e * 1 == e && e * -1 == -e;
  }

  /** The prover, with its three random coins given. A commitment to the bit b with blinding y is always accepted.
      A commitment to the other bit is accepted only in the case that the answered half kills g. */
  method Prove<P(!new)>(G: Group<P>, hash: Hash<P>, z: P, y: int, b: nat, r: nat, eBar: nat, fBar: nat)
    returns (p: Proof<P>)
    requires G.Valid()
    ensures b <= 1 && z == G.Com(b, y) ==> Verifies(G, hash, p, z)
    ensures b <= 1 && z == G.Com(1 - b, y) ==> (Verifies(G, hash, p, z) <==> G.Mul(Answered(p, b), G.g) == G.zero)
    ensures if b == 1 then p.e0 == eBar && p.f0 == fBar && p.d1 == G.Mul(r, G.h)
            else p.e1 == eBar && p.f1 == fBar && p.d0 == G.Mul(r, G.h)
  {
    var d0, d1;
    if b == 1 {
      d0 := G.add(G.Mul(fBar, G.h), G.Mul(eBar, z));
      d1 := G.Mul(r, G.h);
    } else {
      d0 := G.Mul(r, G.h);
      var z' := G.add(G.neg(G.g), z);
      d1 := G.add(G.Mul(fBar, G.h), G.Mul(eBar, z'));
    }
    var e := hash(z, d0, d1);
    var eB: nat := (e - eBar) % G.order;
    var fB: nat := (eB * y) % G.order;
    fB := (r - fB) % G.order;
    p := if b == 1 then Proof(d0, d1, eBar, eB, fBar, fB) else Proof(d0, d1, eB, eBar, fB, fBar);
    ChallengeSplit(e, eBar, G.order);
    MinusGOfCom(G, b, y);
    MinusGOfCom(G, 1 - b, y);
    RealHalf(G, r, eB, y, fB);
  }

  // ----- Soundness by extraction -----

  /** Two accepting answers to one announcement with challenges that differ modulo the order. */
  ghost predicate Fork<P(!new)>(G: Group<P>, z: P, p: Proof<P>, e: int, q: Proof<P>, e': int)
    requires G.order > 0
  {
    && p.d0 == q.d0 && p.d1 == q.d1
    && Accepts(G, p, z, e) && Accepts(G, q, z, e')
    && !Cong(e, e', G.order)
  }

  /** The bit and the blinding computed from a fork by one field inversion. */
  function Extract<P>(order: nat, p: Proof<P>, q: Proof<P>): (opening: (int, int))
    requires order > 0
    ensures opening.0 == 0 || opening.0 == 1
  {
    if (p.e0 - q.e0) % order != 0 then
      (0, (q.f0 - p.f0) * Inverse(p.e0 - q.e0, order))
    else
      (1, (q.f1 - p.f1) * Inverse(p.e1 - q.e1, order))
  }

  /** f*h + e*w == f'*h + e'*w with e and e' different makes w a known multiple of h. */
  lemma SolveForBlinding<P(!new)>(G: Group<P>, w: P, e: int, f: int, e': int, f': int)
    requires G.PrimeOrder() && (e - e') % G.order != 0
    requires G.add(G.Mul(f, G.h), G.Mul(e, w)) == G.add(G.Mul(f', G.h), G.Mul(e', w))
    ensures w == G.Com(0, (f' - f) * Inverse(e - e', G.order))
  {
    hide Inverse, Prime, Group.Com, Group.Mul;
    var d, k := e - e', f' - f;
    var i := Inverse(d, G.order);
    DifferenceOfLines(G, w, e, f, e', f');
    InverseWorks(d, G.order);
    Divide(G, w, d, k, i);
    HMultiple(G, k * i);
  }

  lemma Divide<P(!new)>(G: Group<P>, w: P, d: int, k: int, i: int)
    requires G.Valid() && Cong(d * i, 1, G.order) && G.Mul(d, w) == G.Mul(k, G.h)
    ensures w == G.Mul(k * i, G.h)
  {
    assert i * d == d * i && i * k == k * i;
    MulMul(G, i, d, w);
    MulCong(G, i * d, 1, w);
    MulOne(G, w);
    MulMul(G, i, k, G.h);
  }

  lemma DifferenceOfLines<P(!new)>(G: Group<P>, w: P, e: int, f: int, e': int, f': int)
    requires G.Valid() && G.add(G.Mul(f, G.h), G.Mul(e, w)) == G.add(G.Mul(f', G.h), G.Mul(e', w))
    ensures G.Mul(e - e', w) == G.Mul(f' - f, G.h)
  {
    var left, right := G.Mul(e - e', w), G.Mul(f' - f, G.h);
    MulAdd(G, e - e', e', w);
    MulAdd(G, f' - f, f, G.h);
    var a, c := G.Mul(f, G.h), G.Mul(e', w);
    assert G.Commutes(a, G.add(left, c)) && G.Associates(left, c, a) && G.Commutes(c, a);
    assert G.Associates(right, a, c);
    CancelRight(G, left, right, G.add(a, c));
  }

  /** Whoever can answer two challenges knows an opening of z to a bit. */
  lemma ExtractionSound<P(!new)>(G: Group<P>, z: P, p: Proof<P>, e: int, q: Proof<P>, e': int)
    requires G.PrimeOrder() && Fork(G, z, p, e, q, e')
    ensures var (bit, y) := Extract(G.order, p, q); z == G.Com(bit, y)
  {
    if (p.e0 - q.e0) % G.order != 0 {
      SolveForBlinding(G, z, p.e0, p.f0, q.e0, q.f0);
    } else {
      SecondHalfDiffers(p.e0, p.e1, e, q.e0, q.e1, e', G.order);
      var w := MinusG(G, z);
      SolveForBlinding(G, w, p.e1, p.f1, q.e1, q.f1);
      var y := (q.f1 - p.f1) * Inverse(p.e1 - q.e1, G.order);
      PlusG(G, z, y);
    }
  }

  lemma PlusG<P(!new)>(G: Group<P>, z: P, y: int)
    requires G.Valid() && MinusG(G, z) == G.Com(0, y)
    ensures z == G.Com(1, y)
  {
    MinusGOfCom(G, 1, y);
    assert G.Commutes(G.neg(G.g), z) && G.Commutes(G.neg(G.g), G.Com(1, y));
    CancelRight(G, z, G.Com(1, y), G.neg(G.g));
  }

  lemma SecondHalfDiffers(e0: int, e1: int, e: int, e0': int, e1': int, e': int, m: int)
    requires m > 0 && (e - e0 - e1) % m == 0 && (e' - e0' - e1') % m == 0
    requires !Cong(e, e', m) && (e0 - e0') % m == 0
    ensures (e1 - e1') % m != 0
  {
    if (e1 - e1') % m == 0 {
      CongAdd(e0 - e0', 0, e1 - e1', 0, m);
      CongSub(e - e0 - e1, 0, e' - e0' - e1', 0, m);
      CongAdd(e - e0 - e1 - (e' - e0' - e1'), 0, e0 - e0' + (e1 - e1'), 0, m);
      CongDifference(e, e', m);
      assert false;
    }
  }
}

/** The group of a curve, and the point operations of src/common/Elliptic.js on it: Jacobian addition, comparison, the
    table of small multiples, and multiplication four bits at a time. */
module CurveGroup {
  import opened Wrappers
  import opened ModArith
  import opened Groups
  import opened Jacobian

  /** A group whose elements have affine coordinates modulo p, added by the chord where the x coordinates differ; with
      the library's doubling, and its addition of an affine point, known by what they do. */
  datatype Curve<!P(!new)> = Curve(G: Group<P>, p: nat, at: P -> Affine, doubl: Jac -> Jac,
                                   mixed: (Jac, int, int) -> Jac)
  {
    ghost predicate Reduced(a: P) { at(a).Pt? ==> 0 <= at(a).x < p && 0 <= at(a).y < p }
    ghost predicate OnlyZero(a: P) { at(a).Infinity? <==> a == G.zero }
    ghost predicate Chord(a: P, b: P)
      requires p > 0
    {
      at(a).Pt? && at(b).Pt? && !Cong(at(a).x, at(b).x, p) ==> at(G.add(a, b)) == ChordSum(p, at(a), at(b))
    }
    /** The x of a point is that of the point and its inverse only. */
    ghost predicate Mirror(a: P, b: P)
      requires p > 0
    {
      at(a).Pt? && at(b).Pt? ==> (Cong(at(a).x, at(b).x, p) <==> a == b || a == G.neg(b))
    }
    ghost predicate Doubles(j: Jac, a: P)
      requires p > 0
    {
      Rep(p, j, at(a)) ==> Rep(p, doubl(j), at(G.add(a, a)))
    }
    ghost predicate Mixes(j: Jac, a: P, x: int, y: int, b: P)
      requires p > 0
    {
      Rep(p, j, at(a)) && at(b).Pt? && Cong(x, at(b).x, p) && Cong(y, at(b).y, p) ==>
        Rep(p, mixed(j, x, y), at(G.add(a, b)))
    }

    ghost predicate Valid() {
      && G.Valid() && Prime(p)
      && (forall a :: Reduced(a)) && (forall a :: OnlyZero(a))
      && (forall a, b :: Chord(a, b)) && (forall a, b :: Mirror(a, b))
      && (forall j, a :: Doubles(j, a))
      && (forall j, a, x, y, b :: Mixes(j, a, x, y, b))
    }

    /** The curves of the library are all of prime order, far above the sixteen entries of a table. */
    ghost predicate Large() {
      Valid() && G.PrimeOrder() && G.order > 15
    }

    /** j stands for the element a. */
    ghost predicate Is(j: Jac, a: P)
      requires p > 0
    {
      Rep(p, j, at(a))
    }
  }

  /** A point b with z other than 1 is added to itself or to its inverse. The branch for this case names a variable that
      does not exist. */
  ghost predicate Throws<P(!new)>(C: Curve<P>, T: Jac, a: P, b: P)
    requires C.p > 0
  {
    b != C.G.zero && (a == b || a == C.G.neg(b)) && !Cong(T.z, 1, C.p)
  }

  lemma NegZero<P(!new)>(G: Group<P>, a: P)
    requires G.Valid() && a != G.zero
    ensures G.neg(a) != G.zero
  {
    assert G.Cancels(a) && G.Neutral(a);
  }

  /** this + T. None stands for the exception. */
  method AddJac<P(!new)>(C: Curve<P>, S: Jac, T: Jac, ghost a: P, ghost b: P) returns (r: Option<Jac>)
    requires C.Valid() && C.Is(S, a) && C.Is(T, b)
    ensures r.Some? ==> C.Is(r.value, C.G.add(a, b))
    ensures r.None? <==> Throws(C, T, a, b)
  {
    assert C.OnlyZero(a) && C.OnlyZero(b) && C.Mirror(a, b) && C.p > 0;
    if b != C.G.zero {
      NegZero(C.G, b);
    }
    hide Cong, Prime, Inverse, ChordSum;
    if T.isIdentity {
      ZeroLeft(C.G, a);
      return Some(S);
    } else if (T.z - 1) % C.p == 0 {
      CongDifference(T.z, 1, C.p);
      UnitHeight(C.p, T, C.at(b));
      assert C.Mixes(S, a, T.x, T.y, b);
      return Some(C.mixed(S, T.x, T.y));
    } else if S.isIdentity {
      CongDifference(T.z, 1, C.p);
      ZeroLeft(C.G, b);
      return Some(T);
    }
    CongDifference(T.z, 1, C.p);
    FormulaAdds(C.p, S, T, C.at(a), C.at(b));
    assert C.Chord(a, b);

    var x1, y1, z1 := S.x, S.y, S.z;
    var x2, y2, z2 := T.x, T.y, T.z;
    var sz1, sz2 := z1 * z1, z2 * z2;
    var u1, u2 := x1 * sz2, x2 * sz1;
    var s1, s2 := y1 * (sz2 * z2), y2 * (sz1 * z1);

    u2 := u2 - u1;
    var h := u2;
    if h % C.p == 0 {
      return None;
    }

    s2 := s2 - s1;
    var r' := s2;
    var sh := h * h;
    var ch := h * sh;

    var x3 := r' * r';
    x3 := x3 - ch;
    x3 := x3 - (u1 + u1) * sh;
    var y3 := u1 * sh;
    y3 := y3 - x3;
    y3 := y3 * r';
    y3 := y3 - s1 * ch;
    var z3 := h * z1 * z2;
    return Some(Jac(false, x3, y3, z3));
  }

  lemma UnitHeight(p: nat, j: Jac, a: Affine)
    requires p > 0 && a.Pt? && Rep(p, j, a) && Cong(j.z, 1, p)
    ensures Cong(j.x, a.x, p) && Cong(j.y, a.y, p)
  {
    hide Cong;
    CongMul(j.z, 1, j.z, 1, p);
    CongMul(j.z * j.z, 1, j.z, 1, p);
    CongScale(j.z * j.z, 1, a.x, p);
    CongScale(j.z * j.z * j.z, 1, a.y, p);
    CongTrans(j.x, a.x * (j.z * j.z), a.x, p);
    CongTrans(j.y, a.y * (j.z * j.z * j.z), a.y, p);
  }

  /** Comparison with an affine point; None stands for the exception on the affine point at infinity, which has no x. */
  method EqualsAffine<P(!new)>(C: Curve<P>, J: Jac, affine: Affine, ghost a: P) returns (r: Option<bool>)
    requires C.Valid() && C.Is(J, a) && (affine.Pt? ==> 0 <= affine.x < C.p && 0 <= affine.y < C.p)
    ensures r.None? <==> !J.isIdentity && affine.Infinity?
    ensures r.Some? ==> (r.value <==> C.at(a) == affine)
  {
    assert C.OnlyZero(a) && C.Reduced(a) && C.p > 0;
    if J.isIdentity {
      return Some(affine.Infinity?);
    }
    if affine.Infinity? {
      return None;
    }
    var sz := J.z * J.z;
    SameAffine(C.p, J, C.at(a), affine);
    return Some((affine.x * sz - J.x) % C.p == 0 && (affine.y * sz * J.z - J.y) % C.p == 0);
  }

  lemma SameAffine(p: nat, j: Jac, a: Affine, b: Affine)
    requires Prime(p) && a.Pt? && b.Pt? && Rep(p, j, a)
    requires 0 <= a.x < p && 0 <= a.y < p && 0 <= b.x < p && 0 <= b.y < p
    ensures a == b <==> (b.x * (j.z * j.z) - j.x) % p == 0 && (b.y * (j.z * j.z) * j.z - j.y) % p == 0
  {
    var z := j.z;
    NonZeroProduct(z, z, p);
    NonZeroProduct(z * z, z, p);
    SameCoordinate(p, j.x, a.x, b.x, z * z);
    SameCoordinate(p, j.y, a.y, b.y, z * z * z);
    Group3(b.y, z * z, z);
  }

  lemma SameCoordinate(p: nat, big: int, a: int, b: int, q: int)
    requires p > 0 && Prime(p) && Cong(big, a * q, p) && q % p != 0 && 0 <= a < p && 0 <= b < p
    ensures a == b <==> (b * q - big) % p == 0
  {
    hide Prime, Cong;
    CongDifference(b * q, big, p);
    CongSym(big, a * q, p);
    if Cong(b * q, big, p) {
      CongTrans(b * q, big, a * q, p);
      SameFactor(p, a, b, q);
    }
  }

  lemma SameFactor(p: nat, a: int, b: int, q: int)
    requires p > 0 && Prime(p) && Cong(b * q, a * q, p) && q % p != 0 && 0 <= a < p && 0 <= b < p
    ensures a == b
  {
    hide Prime, Cong;
    assert b * q == q * b && a * q == q * a;
    Cancel(q, b, a, p);
    CongSym(a, b, p);
    CongSmall(a, b, p);
  }
}

/** Points in Jacobian coordinates: addition and comparison (src/common/Elliptic.js). Numbers are read modulo p. */
module Jacobian {
  import opened ModArith

  datatype Affine = Infinity | Pt(x: int, y: int)

  /** (X, Y, Z) stands for X / Z^2 and Y / Z^3. */
  datatype Jac = Jac(isIdentity: bool, x: int, y: int, z: int)

  const IDENTITY := Jac(true, 0, 0, 0)

  ghost predicate Rep(p: nat, j: Jac, a: Affine)
    requires p > 0
  {
    match a
    case Infinity => j.isIdentity
    case Pt(x, y) =>
      && !j.isIdentity && j.z % p != 0
      && Cong(j.x, x * (j.z * j.z), p) && Cong(j.y, y * (j.z * j.z * j.z), p)
  }

  // ----- The reference: addition by the chord -----

  function Slope(p: nat, a: Affine, b: Affine): int
    requires p > 0 && a.Pt? && b.Pt?
  {
    (b.y - a.y) * Inverse(b.x - a.x, p)
  }

  /** The third point on the line through two points with different x, mirrored. */
  function ChordSum(p: nat, a: Affine, b: Affine): Affine
    requires p > 0 && a.Pt? && b.Pt?
  {
    var l := Slope(p, a, b);
    var x := (l * l - a.x - b.x) % p;
    Pt(x, (l * (a.x - x) - a.y) % p)
  }

  lemma SlopeFits(p: nat, a: Affine, b: Affine)
    requires Prime(p) && a.Pt? && b.Pt? && !Cong(a.x, b.x, p)
    ensures Cong(Slope(p, a, b) * (b.x - a.x), b.y - a.y, p)
  {
    var d, e := b.x - a.x, b.y - a.y;
    CongDifference(b.x, a.x, p);
    assert d % p != 0;
    InverseWorks(d, p);
    CongScale(d * Inverse(d, p), 1, e, p);
    assert Slope(p, a, b) * d == (d * Inverse(d, p)) * e;
  }

  // ----- The formulas -----

  /** The coordinates the code computes, and H. */
  datatype Sum = Sum(h: int, x: int, y: int, z: int)

  function Formula(x1: int, y1: int, z1: int, x2: int, y2: int, z2: int): Sum {
    var u1, u2 := x1 * (z2 * z2), x2 * (z1 * z1);
    var s1, s2 := y1 * (z2 * z2 * z2), y2 * (z1 * z1 * z1);
    var h, r := u2 - u1, s2 - s1;
    var sh := h * h;
    var ch := h * sh;
    var x3 := r * r - ch - (u1 + u1) * sh;
    Sum(h, x3, (u1 * sh - x3) * r - s1 * ch, h * z1 * z2)
  }

  lemma Cubes(w: int, d: int, x: int)
    ensures ((w * w) * (w * w)) * (w * w) == (w * w * w) * (w * w * w)
    ensures var z := d * (w * w * w); var h := d * (w * w);
      (x * (w * w)) * (h * h) == x * (z * z) && h * (h * h) == d * (z * z)
  {
    var a, b := w * w, w * w * w;
    assert (a * a) * a == b * b;
    var h, z := d * a, d * b;
    assert (h * h) * a == (d * d) * ((a * a) * a);
    assert z * z == (d * d) * (b * b);
    assert (x * a) * (h * h) == x * ((h * h) * a);
    assert h * (h * h) == d * ((h * h) * a) by {
      assert h * (h * h) == (d * a) * (h * h);
    }
  }

  lemma Powers(x: int, z1: int, z2: int)
    ensures (x * (z1 * z1)) * (z2 * z2) == x * ((z1 * z2) * (z1 * z2))
    ensures (x * (z1 * z1 * z1)) * (z2 * z2 * z2) == x * ((z1 * z2) * (z1 * z2) * (z1 * z2))
  {
    assert (z1 * z1) * (z2 * z2) == (z1 * z2) * (z1 * z2);
    assert (z1 * z1 * z1) * (z2 * z2 * z2) == (z1 * z2) * (z1 * z2) * (z1 * z2);
    Group3(x, z1 * z1, z2 * z2);
    Group3(x, z1 * z1 * z1, z2 * z2 * z2);
  }

  lemma Group3(a: int, b: int, c: int)
    ensures (a * b) * c == a * (b * c)
  {
  }

  /** On coordinates that are exact, with the second y on the line of slope l, the formulas give exactly the chord
      sum. */
  lemma FormulaExact(x1: int, y1: int, x2: int, l: int, z1: int, z2: int)
    ensures var d, w := x2 - x1, z1 * z2; var z, x := d * (w * w * w), l * l - x1 - x2;
      Formula(x1 * (z1 * z1), y1 * (z1 * z1 * z1), z1, x2 * (z2 * z2), (y1 + l * d) * (z2 * z2 * z2), z2)
        == Sum(d * (w * w), x * (z * z), (l * (x1 - x) - y1) * (z * z * z), z)
  {
    var d, w := x2 - x1, z1 * z2;
    var a, b := w * w, w * w * w;
    var z, x, y2 := d * b, l * l - x1 - x2, y1 + l * d;
    Powers(x1, z1, z2);
    Powers(y1, z1, z2);
    Powers(x2, z2, z1);
    Powers(y2, z2, z1);
    assert z2 * z1 == w;
    var u1, u2, s1, s2 := x1 * a, x2 * a, y1 * b, y2 * b;
    assert Formula(x1 * (z1 * z1), y1 * (z1 * z1 * z1), z1, x2 * (z2 * z2), y2 * (z2 * z2 * z2), z2)
        == Finish(u1, u2, s1, s2, z1, z2);
    FinishExact(x1, y1, x2, l, w);
    var h := d * a;
    assert h * z1 * z2 == h * w by {
      Group3(h, z1, z2);
    }
    assert h * w == z by {
      Group3(d, a, w);
    }
  }

  /** The second half of the formulas. */
  function Finish(u1: int, u2: int, s1: int, s2: int, z1: int, z2: int): Sum {
    var h, r := u2 - u1, s2 - s1;
    var sh := h * h;
    var ch := h * sh;
    var x3 := r * r - ch - (u1 + u1) * sh;
    Sum(h, x3, (u1 * sh - x3) * r - s1 * ch, h * z1 * z2)
  }

  lemma FinishExact(x1: int, y1: int, x2: int, l: int, w: int)
    ensures var d, a, b := x2 - x1, w * w, w * w * w; var z, x := d * b, l * l - x1 - x2;
      forall z1, z2 :: Finish(x1 * a, x2 * a, y1 * b, (y1 + l * d) * b, z1, z2)
        == Sum(d * a, x * (z * z), (l * (x1 - x) - y1) * (z * z * z), (d * a) * z1 * z2)
  {
    var d, a, b := x2 - x1, w * w, w * w * w;
    var z, x := d * b, l * l - x1 - x2;
    var h, r, q := d * a, l * z, z * z;
    FinishParts(x1, y1, x2, l, w);
    Gather(l * l, d, x1, x2, q);
    FinishY(x1, x, y1, l, q, z);
    forall z1, z2 ensures Finish(x1 * a, x2 * a, y1 * b, (y1 + l * d) * b, z1, z2)
      == Sum(d * a, x * (z * z), (l * (x1 - x) - y1) * (z * z * z), (d * a) * z1 * z2)
    {
      FinishFrom(x1 * a, x2 * a, y1 * b, (y1 + l * d) * b, z1, z2, h, r, x1 * q, d * q, (l * l) * q, x * q,
                 y1 * (q * z),
                 (l * (x1 - x) - y1) * (z * z * z));
    }
  }

  /** Putting the parts together, with products as names. */
  lemma FinishFrom(u1: int, u2: int, s1: int, s2: int, z1: int, z2: int, h: int, r: int, us: int, ch: int, rr: int,
                   x: int,
                   sc: int, y: int)
    requires u2 - u1 == h && s2 - s1 == r && u1 * (h * h) == us && h * (h * h) == ch && r * r == rr
    requires rr - ch - 2 * us == x && s1 * ch == sc && (us - x) * r - sc == y
    ensures Finish(u1, u2, s1, s2, z1, z2) == Sum(h, x, y, h * z1 * z2)
  {
    assert (u1 + u1) * (h * h) == 2 * us;
  }

  lemma FinishParts(x1: int, y1: int, x2: int, l: int, w: int)
    ensures var d, a, b := x2 - x1, w * w, w * w * w; var z := d * b; var h, r, q := d * a, l * z, z * z;
      && x2 * a - x1 * a == h && (y1 + l * d) * b - y1 * b == r
      && (x1 * a) * (h * h) == x1 * q && h * (h * h) == d * q && r * r == (l * l) * q
      && (y1 * b) * (d * q) == y1 * (q * z)
  {
    var d, a, b := x2 - x1, w * w, w * w * w;
    var z := d * b;
    Cubes(w, d, x1);
    Group4(l, z);
    Group3(l, d, b);
    Spread(y1, l * d, b);
    Pull(y1, b, d, z * z);
  }

  lemma Spread(a: int, b: int, c: int)
    ensures (a + b) * c == a * c + b * c
  {
  }

  lemma Pull(y: int, b: int, d: int, q: int)
    ensures (y * b) * (d * q) == y * (q * (d * b))
  {
    assert (y * b) * (d * q) == y * (b * (d * q));
    assert b * (d * q) == q * (d * b);
  }

  lemma FinishY(x1: int, x: int, y1: int, l: int, q: int, z: int)
    requires q == z * z
    ensures (x1 * q - x * q) * (l * z) - y1 * (q * z) == (l * (x1 - x) - y1) * (z * z * z)
  {
    assert x1 * q - x * q == (x1 - x) * q;
    assert ((x1 - x) * q) * (l * z) == (l * (x1 - x)) * (q * z) by {
      assert ((x1 - x) * q) * (l * z) == (x1 - x) * (q * (l * z));
      assert q * (l * z) == l * (q * z);
      assert (x1 - x) * (l * (q * z)) == (l * (x1 - x)) * (q * z);
    }
    assert z * z * z == q * z;
  }

  lemma Group4(l: int, z: int)
    ensures (l * z) * (l * z) == (l * l) * (z * z)
  {
    assert (l * z) * (l * z) == l * (z * (l * z));
    assert z * (l * z) == l * (z * z);
  }

  lemma Gather(l2: int, d: int, x1: int, x2: int, q: int)
    requires d == x2 - x1
    ensures l2 * q - d * q - 2 * (x1 * q) == (l2 - x1 - x2) * q
  {
  }

  /** The formulas respect the modulus. */
  lemma FormulaCong(p: nat, x1: int, y1: int, z1: int, x2: int, y2: int, z2: int, x1': int, y1': int, x2': int,
                    y2': int)
    requires p > 0 && Cong(x1, x1', p) && Cong(y1, y1', p) && Cong(x2, x2', p) && Cong(y2, y2', p)
    ensures var f, f' := Formula(x1, y1, z1, x2, y2, z2), Formula(x1', y1', z1, x2', y2', z2);
      Cong(f.h, f'.h, p) && Cong(f.x, f'.x, p) && Cong(f.y, f'.y, p) && Cong(f.z, f'.z, p)
  {
    hide Cong;
    CongScale(x1, x1', z2 * z2, p);
    CongScale(x2, x2', z1 * z1, p);
    CongScale(y1, y1', z2 * z2 * z2, p);
    CongScale(y2, y2', z1 * z1 * z1, p);
    FinishCong(p, x1 * (z2 * z2), x2 * (z1 * z1), y1 * (z2 * z2 * z2), y2 * (z1 * z1 * z1),
               x1' * (z2 * z2), x2' * (z1 * z1), y1' * (z2 * z2 * z2), y2' * (z1 * z1 * z1), z1, z2);
  }

  lemma FinishCong(p: nat, u1: int, u2: int, s1: int, s2: int, u1': int, u2': int, s1': int, s2': int, z1: int, z2: int)
    requires p > 0 && Cong(u1, u1', p) && Cong(u2, u2', p) && Cong(s1, s1', p) && Cong(s2, s2', p)
    ensures var f, f' := Finish(u1, u2, s1, s2, z1, z2), Finish(u1', u2', s1', s2', z1, z2);
      Cong(f.h, f'.h, p) && Cong(f.x, f'.x, p) && Cong(f.y, f'.y, p) && Cong(f.z, f'.z, p)
  {
    hide Cong;
    var h, h', r, r' := u2 - u1, u2' - u1', s2 - s1, s2' - s1';
    CongSub(u2, u2', u1, u1', p);
    CongSub(s2, s2', s1, s1', p);
    var sh, sh' := h * h, h' * h';
    CongMul(h, h', h, h', p);
    var ch, ch' := h * sh, h' * sh';
    CongMul(h, h', sh, sh', p);
    CongMul(r, r', r, r', p);
    CongAdd(u1, u1', u1, u1', p);
    CongMul(u1 + u1, u1' + u1', sh, sh', p);
    CongSub(r * r, r' * r', ch, ch', p);
    CongSub(r * r - ch, r' * r' - ch', (u1 + u1) * sh, (u1' + u1') * sh', p);
    var x3, x3' := r * r - ch - (u1 + u1) * sh, r' * r' - ch' - (u1' + u1') * sh';
    CongMul(u1, u1', sh, sh', p);
    CongSub(u1 * sh, u1' * sh', x3, x3', p);
    CongMul(u1 * sh - x3, u1' * sh' - x3', r, r', p);
    CongMul(s1, s1', ch, ch', p);
    CongSub((u1 * sh - x3) * r, (u1' * sh' - x3') * r', s1 * ch, s1' * ch', p);
    CongScale(h, h', z1, p);
    CongScale(h * z1, h' * z1, z2, p);
  }

  lemma NonZeroProduct(a: int, b: int, p: nat)
    requires Prime(p) && a % p != 0 && b % p != 0
    ensures (a * b) % p != 0
  {
    if (a * b) % p == 0 {
      Euclid(a, b, p);
      assert false;
    }
  }

  /** What the formulas give for two points in Jacobian coordinates: H vanishes just if the affine x agree, and
      otherwise the result stands for the chord sum. */
  lemma FormulaAdds(p: nat, s: Jac, t: Jac, a: Affine, b: Affine)
    requires Prime(p) && a.Pt? && b.Pt? && Rep(p, s, a) && Rep(p, t, b)
    ensures var f := Formula(s.x, s.y, s.z, t.x, t.y, t.z);
      && (f.h % p == 0 <==> Cong(a.x, b.x, p))
      && (!Cong(a.x, b.x, p) ==> Rep(p, Jac(false, f.x, f.y, f.z), ChordSum(p, a, b)))
  {
    assert p > 0;
    hide Prime, Formula, ChordSum;
    HeightVanishes(p, s, t, a, b);
    if !Cong(a.x, b.x, p) {
      SlopeFits(p, a, b);
      RepParts(p, s, a);
      RepParts(p, t, b);
      NonZeroProduct(s.z, t.z, p);
      hide Cong, Rep, Slope;
      FormulaOnLine(p, s, t, a, b, Slope(p, a, b));
      ResultReps(p, Formula(s.x, s.y, s.z, t.x, t.y, t.z), b.x - a.x, s.z * t.z, Slope(p, a, b), a, b);
    }
  }

  lemma RepParts(p: nat, j: Jac, a: Affine)
    requires p > 0 && a.Pt? && Rep(p, j, a)
    ensures j.z % p != 0 && Cong(j.x, a.x * (j.z * j.z), p) && Cong(j.y, a.y * (j.z * j.z * j.z), p)
  {
  }

  lemma FormulaOnLine(p: nat, s: Jac, t: Jac, a: Affine, b: Affine, l: int)
    requires p > 0 && a.Pt? && b.Pt? && Cong(l * (b.x - a.x), b.y - a.y, p)
    requires Cong(s.x, a.x * (s.z * s.z), p) && Cong(s.y, a.y * (s.z * s.z * s.z), p)
    requires Cong(t.x, b.x * (t.z * t.z), p) && Cong(t.y, b.y * (t.z * t.z * t.z), p)
    ensures var f := Formula(s.x, s.y, s.z, t.x, t.y, t.z);
      var d, w := b.x - a.x, s.z * t.z; var z, x := d * (w * w * w), l * l - a.x - b.x;
      Cong(f.x, x * (z * z), p) && Cong(f.y, (l * (a.x - x) - a.y) * (z * z * z), p) && Cong(f.z, z, p)
  {
    hide Cong, Formula;
    var y2 := a.y + l * (b.x - a.x);
    LineFits(p, a.y, b.y, l * (b.x - a.x));
    CongScale(b.y, y2, t.z * t.z * t.z, p);
    CongTrans(t.y, b.y * (t.z * t.z * t.z), y2 * (t.z * t.z * t.z), p);
    FormulaCong(p, s.x, s.y, s.z, t.x, t.y, t.z, a.x * (s.z * s.z), a.y * (s.z * s.z * s.z), b.x * (t.z * t.z),
                y2 * (t.z * t.z * t.z));
    FormulaExact(a.x, a.y, b.x, l, s.z, t.z);
  }

  lemma CongTrans(a: int, b: int, c: int, m: int)
    requires m > 0 && Cong(a, b, m) && Cong(b, c, m)
    ensures Cong(a, c, m)
  {
  }

  lemma LineFits(p: nat, y1: int, y2: int, e: int)
    requires p > 0 && Cong(e, y2 - y1, p)
    ensures Cong(y2, y1 + e, p)
  {
    CongAdd(y1, y1, e, y2 - y1, p);
  }

  /** H is the difference of the affine x times a square that does not vanish. */
  lemma HeightVanishes(p: nat, s: Jac, t: Jac, a: Affine, b: Affine)
    requires p > 0 && Prime(p) && a.Pt? && b.Pt? && Rep(p, s, a) && Rep(p, t, b)
    ensures Formula(s.x, s.y, s.z, t.x, t.y, t.z).h % p == 0 <==> Cong(a.x, b.x, p)
  {
    hide Prime;
    var w, d := s.z * t.z, b.x - a.x;
    var h := t.x * (s.z * s.z) - s.x * (t.z * t.z);
    Powers(a.x, s.z, t.z);
    Powers(b.x, t.z, s.z);
    assert t.z * s.z == w;
    CongScale(s.x, a.x * (s.z * s.z), t.z * t.z, p);
    CongScale(t.x, b.x * (t.z * t.z), s.z * s.z, p);
    CongSub(t.x * (s.z * s.z), b.x * (w * w), s.x * (t.z * t.z), a.x * (w * w), p);
    assert b.x * (w * w) - a.x * (w * w) == d * (w * w);
    assert Cong(h, d * (w * w), p);
    NonZeroProduct(s.z, t.z, p);
    NonZeroProduct(w, w, p);
    CongDifference(b.x, a.x, p);
    Vanishes(p, h, d, w * w);
  }

  lemma Vanishes(p: nat, h: int, d: int, q: int)
    requires p > 0 && Prime(p) && Cong(h, d * q, p) && q % p != 0
    ensures h % p == 0 <==> d % p == 0
  {
    hide Prime;
    if d % p == 0 {
      CongDifference(d, 0, p);
      CongScale(d, 0, q, p);
    } else {
      NonZeroProduct(d, q, p);
    }
  }

  /** Coordinates congruent to exact ones of the chord sum stand for it. */
  lemma ResultReps(p: nat, f: Sum, d: int, w: int, l: int, a: Affine, b: Affine)
    requires p > 0 && Prime(p) && a.Pt? && b.Pt? && d == b.x - a.x && !Cong(a.x, b.x, p) && l == Slope(p, a, b)
    requires w % p != 0
    requires var z, x := d * (w * w * w), l * l - a.x - b.x;
      Cong(f.x, x * (z * z), p) && Cong(f.y, (l * (a.x - x) - a.y) * (z * z * z), p) && Cong(f.z, z, p)
    ensures Rep(p, Jac(false, f.x, f.y, f.z), ChordSum(p, a, b))
  {
    hide Prime, Cong, Inverse;
    var z, x := d * (w * w * w), l * l - a.x - b.x;
    var y := l * (a.x - x) - a.y;
    assert d % p != 0 by {
      CongDifference(b.x, a.x, p);
      CongSym(a.x, b.x, p);
    }
    NonZeroProduct(w, w, p);
    NonZeroProduct(w * w, w, p);
    NonZeroProduct(d, w * w * w, p);
    assert f.z % p != 0 by {
      CongRemainder(f.z, z, p);
    }
    CongMul(f.z, z, f.z, z, p);
    CongMul(f.z * f.z, z * z, f.z, z, p);
    var x' := x % p;
    var y' := (l * (a.x - x') - a.y) % p;
    CongReduce(x, p);
    CongReduce(l * (a.x - x') - a.y, p);
    CongSub(a.x, a.x, x', x, p);
    CongScale(a.x - x', a.x - x, l, p);
    CongSub(l * (a.x - x'), l * (a.x - x), a.y, a.y, p);
    CongTrans(y', l * (a.x - x') - a.y, y, p);
    CongMul(x', x, f.z * f.z, z * z, p);
    CongMul(y', y, f.z * f.z * f.z, z * z * z, p);
    CongSym(x' * (f.z * f.z), x * (z * z), p);
    CongSym(y' * (f.z * f.z * f.z), y * (z * z * z), p);
    CongTrans(f.x, x * (z * z), x' * (f.z * f.z), p);
    CongTrans(f.y, y * (z * z * z), y' * (f.z * f.z * f.z), p);
  }

  lemma CongSym(a: int, b: int, m: int)
    requires m > 0
    ensures Cong(a, b, m) <==> Cong(b, a, m)
  {
  }

  lemma CongRemainder(a: int, b: int, m: int)
    requires m > 0 && Cong(a, b, m)
    ensures a % m == b % m
  {
  }
}

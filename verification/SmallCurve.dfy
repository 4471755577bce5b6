/** A curve small enough to write down: y^2 = x^3 + 3x + 2 modulo 5 has five points, counted with the one at infinity.
    It shows that the laws the other modules ask of a group, a curve and a world can all be met. */
module SmallCurve {
  import opened ModArith
  import opened Groups
  import opened Ballots
  import opened Jacobian
  import CG = CurveGroup

  /** The multiples 0 to 4 of the point (1, 1). */
  type Five = i: nat | i < 5

  function Plus(a: Five, b: Five): Five {
    if a + b < 5 then a + b else a + b - 5
  }

  function Minus(a: Five): Five {
    if a == 0 then 0 else 5 - a
  }

  function FiveGroup(): Group<Five> {
    Group<Five>.Group(0, Plus, Minus, 5, 1, 2)
  }

  function Place(i: Five): Affine {
    if i == 0 then Infinity
    else if i == 1 then Pt(1, 1)
    else if i == 2 then Pt(2, 1)
    else if i == 3 then Pt(2, 4)
    else Pt(1, 4)
  }

  function Encoded(i: Five): Jac {
    if i == 0 then IDENTITY else Jac(false, Place(i).x, Place(i).y, 1)
  }

  ghost function Decoded(j: Jac): Five {
    if Rep(5, j, Place(1)) then 1
    else if Rep(5, j, Place(2)) then 2
    else if Rep(5, j, Place(3)) then 3
    else if Rep(5, j, Place(4)) then 4
    else 0
  }

  ghost function DoubleIt(j: Jac): Jac {
    Encoded(Plus(Decoded(j), Decoded(j)))
  }

  ghost function MixIt(j: Jac, x: int, y: int): Jac {
    Encoded(Plus(Decoded(j), Decoded(Jac(false, x, y, 1))))
  }

  ghost function FiveCurve(): CG.Curve<Five> {
    CG.Curve<Five>.Curve(FiveGroup(), 5, Place, DoubleIt, MixIt)
  }

  lemma FiveIsPrime()
    ensures Prime(5)
  {
  }

  lemma FiveTorsion(a: Five)
    ensures FiveGroup().Torsion(a)
  {
    var G := FiveGroup();
    assert G.Mul(0, a) == 0;
    assert G.Mul(1, a) == Plus(a, 0);
    assert G.Mul(2, a) == Plus(a, Plus(a, 0));
    assert G.Mul(3, a) == Plus(a, Plus(a, Plus(a, 0)));
    assert G.Mul(4, a) == Plus(a, Plus(a, Plus(a, Plus(a, 0))));
    assert G.Mul(5, a) == Plus(a, Plus(a, Plus(a, Plus(a, Plus(a, 0)))));
  }

  lemma FiveAssociates(a: Five, b: Five, c: Five)
    ensures FiveGroup().Associates(a, b, c)
  {
  }

  lemma FiveSimple(a: Five, b: Five)
    ensures FiveGroup().Commutes(a, b) && FiveGroup().Neutral(a) && FiveGroup().Cancels(a)
  {
  }

  lemma FiveGroupValid()
    ensures FiveGroup().PrimeOrder()
  {
    FiveIsPrime();
    assert FiveGroup().order == 5;
    hide Prime, FiveGroup, Group.Commutes, Group.Associates, Group.Neutral, Group.Cancels, Group.Torsion;
    forall a: Five ensures FiveGroup().Torsion(a) {
      FiveTorsion(a);
    }
    forall a: Five, b: Five, c: Five ensures FiveGroup().Associates(a, b, c) {
      FiveAssociates(a, b, c);
    }
    forall a: Five, b: Five ensures FiveGroup().Commutes(a, b) && FiveGroup().Neutral(a) && FiveGroup().Cancels(a) {
      FiveSimple(a, b);
    }
  }

  lemma EncodedReps(i: Five)
    ensures Rep(5, Encoded(i), Place(i))
  {
  }

  /** A triple stands for one point only. */
  lemma DecodedIs(j: Jac, i: Five)
    requires Rep(5, j, Place(i))
    ensures Decoded(j) == i
  {
    FiveIsPrime();
    if i != 0 {
      forall k: Five | k != 0 && Rep(5, j, Place(k)) ensures k == i {
        OnePlace(j, i, k);
      }
    }
  }

  lemma OnePlace(j: Jac, i: Five, k: Five)
    requires i != 0 && k != 0 && Rep(5, j, Place(i)) && Rep(5, j, Place(k))
    ensures i == k
  {
    FiveIsPrime();
    CG.SameAffine(5, j, Place(i), Place(k));
    var b, z := Place(k), j.z;
    Group3(b.y, z * z, z);
    CongSym(j.x, b.x * (z * z), 5);
    CongSym(j.y, b.y * (z * z * z), 5);
    CongDifference(b.x * (z * z), j.x, 5);
    CongDifference(b.y * (z * z) * z, j.y, 5);
    assert Place(i) == Place(k);
  }

  lemma InversesOfOne()
    ensures Inverse(1, 5) == 1 && Inverse(-1, 5) == 4
  {
    FiveIsPrime();
    InverseWorks(1, 5);
    InverseWorks(-1, 5);
  }

  lemma ChordUp(y1: int, y2: int)
    ensures var l := y2 - y1; var x := (l * l - 3) % 5;
      ChordSum(5, Pt(1, y1), Pt(2, y2)) == Pt(x, (l * (1 - x) - y1) % 5)
  {
    hide Inverse;
    InversesOfOne();
    assert Slope(5, Pt(1, y1), Pt(2, y2)) == y2 - y1;
  }

  lemma ChordDown(y1: int, y2: int)
    ensures var l := (y2 - y1) * 4; var x := (l * l - 3) % 5;
      ChordSum(5, Pt(2, y1), Pt(1, y2)) == Pt(x, (l * (2 - x) - y1) % 5)
  {
    hide Inverse;
    InversesOfOne();
    assert Slope(5, Pt(2, y1), Pt(1, y2)) == (y2 - y1) * 4;
  }

  /** The chord through two points with different x meets the curve where the group says. */
  lemma FiveChord(a: Five, b: Five)
    ensures FiveCurve().Chord(a, b)
  {
    hide Inverse, Prime, ChordSum, DoubleIt, MixIt, Plus;
    if a != 0 && b != 0 && Place(a).x != Place(b).x {
      FiveSums(a, b);
    }
  }

  lemma FiveSums(a: Five, b: Five)
    requires a != 0 && b != 0 && Place(a).x != Place(b).x
    ensures ChordSum(5, Place(a), Place(b)) == Place(Plus(a, b))
  {
    hide Inverse, ChordSum;
    if Place(a).x == 1 {
      ChordUp(Place(a).y, Place(b).y);
    } else {
      ChordDown(Place(a).y, Place(b).y);
    }
  }

  lemma FiveMirror(a: Five, b: Five)
    ensures FiveCurve().Mirror(a, b)
  {
  }

  lemma FiveDoubles(j: Jac, a: Five)
    ensures FiveCurve().Doubles(j, a)
  {
    hide Rep, Place, Encoded, Decoded;
    if Rep(5, j, Place(a)) {
      DecodedIs(j, a);
      EncodedReps(Plus(a, a));
    }
  }

  lemma FiveMixes(j: Jac, a: Five, x: int, y: int, b: Five)
    ensures FiveCurve().Mixes(j, a, x, y, b)
  {
    if Rep(5, j, Place(a)) && Place(b).Pt? && Cong(x, Place(b).x, 5) && Cong(y, Place(b).y, 5) {
      assert Rep(5, Jac(false, x, y, 1), Place(b));
      hide Rep, Place, Encoded, Decoded;
      DecodedIs(j, a);
      DecodedIs(Jac(false, x, y, 1), b);
      EncodedReps(Plus(a, b));
    }
  }

  lemma FiveCurveValid()
    ensures FiveCurve().Valid()
  {
    var C := FiveCurve();
    FiveGroupValid();
    assert forall a: Five :: C.Reduced(a);
    assert forall a: Five :: C.OnlyZero(a);
    hide Rep, Place, Encoded, Decoded, Prime, FiveGroup;
    forall a: Five, b: Five ensures C.Chord(a, b) {
      FiveChord(a, b);
    }
    forall a: Five, b: Five ensures C.Mirror(a, b) {
      FiveMirror(a, b);
    }
    forall j, a: Five ensures C.Doubles(j, a) {
      FiveDoubles(j, a);
    }
    forall j, a: Five, x, y, b: Five ensures C.Mixes(j, a, x, y, b) {
      FiveMixes(j, a, x, y, b);
    }
  }

  // ----- A world around it -----

  function FiveWorld(): World<Five> {
    World(FiveGroup(), (i: Five) => seq(i, _ => 'p'), (s: string) => (|s| % 5) as Five, (a, b, c) => 3, i => "",
          (s, t) => s + t,
          (key, text) => key + text, (text, sign, pub) => sign == pub + text, key => key)
  }

  lemma FiveWorldValid()
    ensures FiveWorld().Valid()
  {
    FiveGroupValid();
    var W := FiveWorld();
    forall i: Five ensures W.RoundTrip(i) {
    }
    forall key, text ensures W.Signs(key, text) {
    }
  }
}

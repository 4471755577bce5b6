/** The abelian group of curve points with its two public generators g and h, scalar multiples, the commitment x*g +
    y*h, and sums of points. The laws hold of every abelian group in which every element is killed by the order. */
module Groups {
  import opened ModArith

  /** The laws are named predicates, so a proof uses a law exactly where it mentions it. */
  datatype Group<!P(!new)> = Group(zero: P, add: (P, P) -> P, neg: P -> P, order: nat, g: P, h: P)
  {
    ghost predicate Commutes(a: P, b: P) { add(a, b) == add(b, a) }
    ghost predicate Associates(a: P, b: P, c: P) { add(add(a, b), c) == add(a, add(b, c)) }
    ghost predicate Neutral(a: P) { add(a, zero) == a }
    ghost predicate Cancels(a: P) { add(a, neg(a)) == zero }
    ghost predicate Torsion(a: P) { Mul(order, a) == zero }

    ghost predicate Valid() {
      && order > 0
      && (forall a, b :: Commutes(a, b))
      && (forall a, b, c :: Associates(a, b, c))
      && (forall a :: Neutral(a))
      && (forall a :: Cancels(a))
      && (forall a :: Torsion(a))
    }

    ghost predicate PrimeOrder() { Valid() && Prime(order) }

    /** The k-fold multiple of a. */
    function Mul(k: int, a: P): P
      decreases if k < 0 then -k else k
    {
      if k == 0 then zero else if k > 0 then add(a, Mul(k - 1, a)) else add(neg(a), Mul(k + 1, a))
    }

    /** The commitment to x with blinding y. */
    function Com(x: int, y: int): P {
      add(Mul(x, g), Mul(y, h))
    }

    /** Sum of points, added from the left to the neutral element as an accumulator does. */
    function Sum(s: seq<P>): P {
      if s == [] then zero else add(Sum(s[..|s| - 1]), s[|s| - 1])
    }

    /** A non-trivial linear dependency between the two generators. */
    ghost predicate Relation(a: int, b: int)
      requires order > 0
    {
      Com(a, b) == zero && !(Cong(a, 0, order) && Cong(b, 0, order))
    }
  }

  function Total(s: seq<int>): int {
    if s == [] then 0 else Total(s[..|s| - 1]) + s[|s| - 1]
  }

  // ----- Elementary consequences -----

  lemma ZeroLeft<P(!new)>(G: Group<P>, a: P)
    requires G.Valid()
    ensures G.add(G.zero, a) == a && G.add(a, G.zero) == a
  {
    assert G.Commutes(G.zero, a) && G.Neutral(a);
  }

  /** (a + b) + (c + d) == (a + c) + (b + d) */
  lemma Interchange<P(!new)>(G: Group<P>, a: P, b: P, c: P, d: P)
    requires G.Valid()
    ensures G.add(G.add(a, b), G.add(c, d)) == G.add(G.add(a, c), G.add(b, d))
  {
    assert G.Associates(a, b, G.add(c, d)) && G.Associates(b, c, d);
    assert G.Commutes(b, c) && G.Associates(c, b, d) && G.Associates(a, c, G.add(b, d));
  }

  lemma CancelRight<P(!new)>(G: Group<P>, a: P, b: P, c: P)
    requires G.Valid() && G.add(a, c) == G.add(b, c)
    ensures a == b
  {
    assert G.Associates(a, c, G.neg(c)) && G.Associates(b, c, G.neg(c)) && G.Cancels(c);
    assert G.Neutral(a) && G.Neutral(b);
  }

  // ----- Scalar multiples -----

  lemma MulSucc<P(!new)>(G: Group<P>, k: int, a: P)
    requires G.Valid()
    ensures G.Mul(k + 1, a) == G.add(a, G.Mul(k, a))
  {
    if k < 0 {
      var m := G.Mul(k + 1, a);
      assert G.Associates(a, G.neg(a), m) && G.Cancels(a);
      ZeroLeft(G, m);
    }
  }

  lemma {:induction false} MulAdd<P(!new)>(G: Group<P>, j: int, k: int, a: P)
    requires G.Valid()
    ensures G.Mul(j + k, a) == G.add(G.Mul(j, a), G.Mul(k, a))
    decreases if j < 0 then -j else j
  {
    var m := G.Mul(k, a);
    if j == 0 {
      ZeroLeft(G, m);
    } else if j > 0 {
      MulAdd(G, j - 1, k, a);
      MulSucc(G, j - 1 + k, a);
      assert G.Associates(a, G.Mul(j - 1, a), m);
    } else {
      MulAdd(G, j + 1, k, a);
      MulSucc(G, j + k, a);
      var t := G.Mul(j + k, a);
      assert G.Associates(G.neg(a), a, t) && G.Cancels(a) && G.Commutes(a, G.neg(a));
      ZeroLeft(G, t);
      assert G.Associates(G.neg(a), G.Mul(j + 1, a), m);
    }
  }

  lemma {:induction false} MulDistributes<P(!new)>(G: Group<P>, k: int, a: P, b: P)
    requires G.Valid()
    ensures G.Mul(k, G.add(a, b)) == G.add(G.Mul(k, a), G.Mul(k, b))
    decreases if k < 0 then -k else k
  {
    if k == 0 {
      ZeroLeft(G, G.zero);
    } else if k > 0 {
      MulDistributes(G, k - 1, a, b);
      Interchange(G, a, b, G.Mul(k - 1, a), G.Mul(k - 1, b));
    } else {
      MulDistributes(G, k + 1, a, b);
      MulSucc(G, k, G.add(a, b));
      MulSucc(G, k, a);
      MulSucc(G, k, b);
      var u, v := G.Mul(k, a), G.Mul(k, b);
      Interchange(G, a, b, u, v);
      assert G.Commutes(G.add(a, b), G.add(u, v));
      assert G.Commutes(G.add(a, b), G.Mul(k, G.add(a, b)));
      CancelRight(G, G.Mul(k, G.add(a, b)), G.add(u, v), G.add(a, b));
    }
  }

  lemma {:induction false} MulMul<P(!new)>(G: Group<P>, j: int, k: int, a: P)
    requires G.Valid()
    ensures G.Mul(j * k, a) == G.Mul(j, G.Mul(k, a))
    decreases if j < 0 then -j else j
  {
    if j > 0 {
      MulMul(G, j - 1, k, a);
      assert j * k == k + (j - 1) * k;
      MulAdd(G, k, (j - 1) * k, a);
    } else if j < 0 {
      MulMul(G, j + 1, k, a);
      assert (j + 1) * k == k + j * k;
      MulAdd(G, k, j * k, a);
      MulSucc(G, j, G.Mul(k, a));
      assert G.Commutes(G.Mul(k, a), G.Mul(j * k, a)) && G.Commutes(G.Mul(k, a), G.Mul(j, G.Mul(k, a)));
      CancelRight(G, G.Mul(j * k, a), G.Mul(j, G.Mul(k, a)), G.Mul(k, a));
    }
  }

  lemma {:induction false} MulZero<P(!new)>(G: Group<P>, k: int)
    requires G.Valid()
    ensures G.Mul(k, G.zero) == G.zero
  {
    assert G.Mul(0, G.zero) == G.zero;
    MulMul(G, k, 0, G.zero);
  }

  lemma MulOne<P(!new)>(G: Group<P>, a: P)
    requires G.Valid()
    ensures G.Mul(1, a) == a && G.Mul(0, a) == G.zero
  {
    ZeroLeft(G, a);
  }

  lemma MulNeg<P(!new)>(G: Group<P>, k: int, a: P)
    requires G.Valid()
    ensures G.Mul(-k, a) == G.neg(G.Mul(k, a))
  {
    MulAdd(G, k, -k, a);
    var m := G.Mul(k, a);
    assert G.Cancels(m) && G.Commutes(m, G.neg(m)) && G.Commutes(m, G.Mul(-k, a));
    CancelRight(G, G.Mul(-k, a), G.neg(m), m);
  }

  /** Scalars count only modulo the group order. */
  lemma MulCong<P(!new)>(G: Group<P>, j: int, k: int, a: P)
    requires G.Valid() && Cong(j, k, G.order)
    ensures G.Mul(j, a) == G.Mul(k, a)
  {
    var q := CongElim(j, k, G.order);
    MulAdd(G, k, q * G.order, a);
    MulMul(G, q, G.order, a);
    assert G.Torsion(a);
    MulZero(G, q);
    ZeroLeft(G, G.Mul(k, a));
  }

  // ----- Commitments are additively homomorphic -----

  lemma ComAdd<P(!new)>(G: Group<P>, x: int, y: int, x': int, y': int)
    requires G.Valid()
    ensures G.add(G.Com(x, y), G.Com(x', y')) == G.Com(x + x', y + y')
  {
    Interchange(G, G.Mul(x, G.g), G.Mul(y, G.h), G.Mul(x', G.g), G.Mul(y', G.h));
    MulAdd(G, x, x', G.g);
    MulAdd(G, y, y', G.h);
  }

  lemma ComScale<P(!new)>(G: Group<P>, k: int, x: int, y: int)
    requires G.Valid()
    ensures G.Mul(k, G.Com(x, y)) == G.Com(k * x, k * y)
  {
    MulDistributes(G, k, G.Mul(x, G.g), G.Mul(y, G.h));
    MulMul(G, k, x, G.g);
    MulMul(G, k, y, G.h);
  }

  lemma ComNeg<P(!new)>(G: Group<P>, x: int, y: int)
    requires G.Valid()
    ensures G.neg(G.Com(x, y)) == G.Com(-x, -y)
  {
    ComScale(G, -1, x, y);
    MulNeg(G, 1, G.Com(x, y));
    MulOne(G, G.Com(x, y));
  }

  lemma ComCong<P(!new)>(G: Group<P>, x: int, y: int, x': int, y': int)
    requires G.Valid() && Cong(x, x', G.order) && Cong(y, y', G.order)
    ensures G.Com(x, y) == G.Com(x', y')
  {
    MulCong(G, x, x', G.g);
    MulCong(G, y, y', G.h);
  }

  lemma ComZero<P(!new)>(G: Group<P>)
    requires G.Valid()
    ensures G.Com(0, 0) == G.zero
  {
    ZeroLeft(G, G.zero);
  }

  /** Two openings of one commitment agree modulo the order, or yield a dependency between g and h. */
  lemma Binding<P(!new)>(G: Group<P>, x: int, y: int, x': int, y': int)
    requires G.Valid() && G.Com(x, y) == G.Com(x', y')
    ensures (Cong(x, x', G.order) && Cong(y, y', G.order)) || G.Relation(x - x', y - y')
  {
    ComNeg(G, x', y');
    ComAdd(G, x, y, -x', -y');
    assert G.Cancels(G.Com(x, y));
    CongDifference(x, x', G.order);
    CongDifference(y, y', G.order);
    CongDifference(x - x', 0, G.order);
    CongDifference(y - y', 0, G.order);
  }

  // ----- Sums -----

  lemma SumAppend<P(!new)>(G: Group<P>, s: seq<P>, a: P)
    ensures G.Sum(s + [a]) == G.add(G.Sum(s), a)
  {
    assert (s + [a])[..|s|] == s;
  }

  lemma TotalAppend(s: seq<int>, a: int)
    ensures Total(s + [a]) == Total(s) + a
  {
    assert (s + [a])[..|s|] == s;
  }

  /** The sum of commitments commits to the sums. */
  lemma {:induction false} SumOfCommitments<P(!new)>(G: Group<P>, zs: seq<P>, xs: seq<int>, ys: seq<int>)
    requires G.Valid() && |zs| == |xs| == |ys|
    requires forall i :: 0 <= i < |zs| ==> zs[i] == G.Com(xs[i], ys[i])
    ensures G.Sum(zs) == G.Com(Total(xs), Total(ys))
  {
    var n := |zs| - 1;
    if n < 0 {
      ComZero(G);
    } else {
      SumOfCommitments(G, zs[..n], xs[..n], ys[..n]);
      ComAdd(G, Total(xs[..n]), Total(ys[..n]), xs[n], ys[n]);
    }
  }

  lemma {:induction false} SumPointwise<P(!new)>(G: Group<P>, s: seq<P>, t: seq<P>, u: seq<P>)
    requires G.Valid() && |s| == |t| == |u|
    requires forall i :: 0 <= i < |u| ==> u[i] == G.add(s[i], t[i])
    ensures G.Sum(u) == G.add(G.Sum(s), G.Sum(t))
  {
    var n := |s| - 1;
    if n < 0 {
      ZeroLeft(G, G.zero);
    } else {
      SumPointwise(G, s[..n], t[..n], u[..n]);
      Interchange(G, G.Sum(s[..n]), G.Sum(t[..n]), s[n], t[n]);
    }
  }

  lemma {:induction false} TotalPointwise(s: seq<int>, t: seq<int>, u: seq<int>)
    requires |s| == |t| == |u|
    requires forall i :: 0 <= i < |u| ==> u[i] == s[i] + t[i]
    ensures Total(u) == Total(s) + Total(t)
  {
    var n := |s| - 1;
    if n >= 0 {
      TotalPointwise(s[..n], t[..n], u[..n]);
    }
  }

  lemma {:induction false} SumOfZeros<P(!new)>(G: Group<P>, s: seq<P>)
    requires G.Valid() && forall i :: 0 <= i < |s| ==> s[i] == G.zero
    ensures G.Sum(s) == G.zero
  {
    if s != [] {
      SumOfZeros(G, s[..|s| - 1]);
      ZeroLeft(G, G.zero);
    }
  }

  lemma {:induction false} TotalOfZeros(s: seq<int>)
    requires forall i :: 0 <= i < |s| ==> s[i] == 0
    ensures Total(s) == 0
  {
    if s != [] {
      TotalOfZeros(s[..|s| - 1]);
    }
  }

  lemma {:induction false} TotalOfBits(s: seq<int>)
    requires forall i :: 0 <= i < |s| ==> 0 <= s[i] <= 1
    ensures 0 <= Total(s) <= |s|
  {
    if s != [] {
      TotalOfBits(s[..|s| - 1]);
    }
  }

  lemma {:induction false} TotalUpdate(s: seq<int>, i: nat, v: int)
    requires i < |s|
    ensures Total(s[i := v]) == Total(s) - s[i] + v
  {
    var n := |s| - 1;
    if i == n {
      assert s[i := v][..n] == s[..n];
    } else {
      TotalUpdate(s[..n], i, v);
      assert s[i := v][..n] == s[..n][i := v];
    }
  }

  /** Replacing a neutral entry by a adds a to the sum, wherever the entry stands. */
  lemma {:induction false} SumUpdate<P(!new)>(G: Group<P>, s: seq<P>, i: nat, a: P)
    requires G.Valid() && i < |s| && s[i] == G.zero
    ensures G.Sum(s[i := a]) == G.add(G.Sum(s), a)
  {
    var n := |s| - 1;
    var t := s[i := a];
    if i == n {
      assert t[..n] == s[..n];
      ZeroLeft(G, G.Sum(s[..n]));
    } else {
      SumUpdate(G, s[..n], i, a);
      assert t[..n] == s[..n][i := a];
      var p := G.Sum(s[..n]);
      assert G.Associates(p, a, s[n]) && G.Commutes(a, s[n]) && G.Associates(p, s[n], a);
    }
  }

  /** Entry i of every row. */
  function Column<T>(rows: seq<seq<T>>, i: nat): (c: seq<T>)
    requires forall b :: 0 <= b < |rows| ==> i < |rows[b]|
    ensures |c| == |rows| && forall b :: 0 <= b < |rows| ==> c[b] == rows[b][i]
  {
    if rows == [] then [] else Column(rows[..|rows| - 1], i) + [rows[|rows| - 1][i]]
  }

  ghost predicate IsMatrix<T>(rows: seq<seq<T>>, width: nat) {
    forall b :: 0 <= b < |rows| ==> |rows[b]| == width
  }

  function RowSums<P(!new)>(G: Group<P>, rows: seq<seq<P>>): (s: seq<P>)
    ensures |s| == |rows| && forall b :: 0 <= b < |rows| ==> s[b] == G.Sum(rows[b])
  {
    if rows == [] then [] else RowSums(G, rows[..|rows| - 1]) + [G.Sum(rows[|rows| - 1])]
  }

  function ColumnSums<P(!new)>(G: Group<P>, rows: seq<seq<P>>, width: nat): (s: seq<P>)
    requires IsMatrix(rows, width)
    ensures |s| == width && forall i :: 0 <= i < width ==> s[i] == G.Sum(Column(rows, i))
  {
    seq(width, i requires 0 <= i < width => G.Sum(Column(rows, i)))
  }

  lemma ColumnSumsStep<P(!new)>(G: Group<P>, rows: seq<seq<P>>, width: nat, i: nat)
    requires rows != [] && IsMatrix(rows, width) && i < width
    ensures var n := |rows| - 1;
      ColumnSums(G, rows, width)[i] == G.add(ColumnSums(G, rows[..n], width)[i], rows[n][i])
  {
    var n := |rows| - 1;
    SumAppend(G, Column(rows[..n], i), rows[n][i]);
  }

  /** Summing by rows or by columns gives the same point. */
  lemma {:induction false} SumExchange<P(!new)>(G: Group<P>, rows: seq<seq<P>>, width: nat)
    requires G.Valid() && IsMatrix(rows, width)
    ensures G.Sum(RowSums(G, rows)) == G.Sum(ColumnSums(G, rows, width))
  {
    var n := |rows| - 1;
    if n < 0 {
      SumOfZeros(G, ColumnSums(G, rows, width));
    } else {
      SumExchange(G, rows[..n], width);
      SumAppend(G, RowSums(G, rows[..n]), G.Sum(rows[n]));
      forall i | 0 <= i < width
        ensures ColumnSums(G, rows, width)[i] == G.add(ColumnSums(G, rows[..n], width)[i], rows[n][i])
      {
        ColumnSumsStep(G, rows, width, i);
      }
      SumPointwise(G, ColumnSums(G, rows[..n], width), rows[n], ColumnSums(G, rows, width));
    }
  }

  function RowTotals(rows: seq<seq<int>>): (s: seq<int>)
    ensures |s| == |rows| && forall b :: 0 <= b < |rows| ==> s[b] == Total(rows[b])
  {
    if rows == [] then [] else RowTotals(rows[..|rows| - 1]) + [Total(rows[|rows| - 1])]
  }

  function ColumnTotals(rows: seq<seq<int>>, width: nat): (s: seq<int>)
    requires IsMatrix(rows, width)
    ensures |s| == width && forall i :: 0 <= i < width ==> s[i] == Total(Column(rows, i))
  {
    seq(width, i requires 0 <= i < width => Total(Column(rows, i)))
  }

  lemma {:induction false} TotalExchange(rows: seq<seq<int>>, width: nat)
    requires IsMatrix(rows, width)
    ensures Total(RowTotals(rows)) == Total(ColumnTotals(rows, width))
  {
    var n := |rows| - 1;
    if n < 0 {
      TotalOfZeros(ColumnTotals(rows, width));
    } else {
      TotalExchange(rows[..n], width);
      TotalAppend(RowTotals(rows[..n]), Total(rows[n]));
      forall i | 0 <= i < width
        ensures ColumnTotals(rows, width)[i] == ColumnTotals(rows[..n], width)[i] + rows[n][i]
      {
        TotalAppend(Column(rows[..n], i), rows[n][i]);
      }
      TotalPointwise(ColumnTotals(rows[..n], width), rows[n], ColumnTotals(rows, width));
    }
  }

  /** Reducing the terms first does not change a total modulo m. */
  lemma {:induction false} TotalCong(s: seq<int>, t: seq<int>, m: int)
    requires m > 0 && |s| == |t|
    requires forall i :: 0 <= i < |s| ==> Cong(s[i], t[i], m)
    ensures Cong(Total(s), Total(t), m)
  {
    var n := |s| - 1;
    if n >= 0 {
      TotalCong(s[..n], t[..n], m);
      CongAdd(Total(s[..n]), Total(t[..n]), s[n], t[n], m);
    }
  }
}

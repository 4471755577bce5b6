/** Compressed curve points, as sections 2.3.3 and 2.3.4 of SEC 1 describe them (src/common/Elliptic.js). */
module Compression {
  import opened Wrappers
  import opened ModArith

  /** y^2 = x^3 + a x + b over the integers modulo p. */
  datatype Curve = Curve(p: nat, a: int, b: int)

  function Alpha(c: Curve, x: int): int {
    x * (c.a + x * x) + c.b
  }

  /** y is a square root of alpha. */
  predicate Root(y: int, alpha: int, p: nat)
    requires p > 0
  {
    (y * y - alpha) % p == 0
  }

  predicate On(c: Curve, x: int, y: int)
    requires c.p > 0
  {
    Root(y, Alpha(c, x), c.p)
  }

  /** The type octet, 2 for an even and 3 for an odd y, and the x coordinate. */
  datatype Bits = Bits(kind: int, x: int)

  function Compress(x: int, y: int): Bits {
    Bits(if y % 2 == 1 then 3 else 2, x)
  }

  /** The library's power by squaring, by its contract. */
  function PowerMod(base: int, exponent: nat, m: nat): (r: nat)
    requires m > 0
    ensures r < m
  {
    Pow(base, exponent) % m
  }

  /** None stands for the exceptions: an even modulus, or no point of the curve. */
  function FromCompressed(c: Curve, x: int, sy: int): Option<(int, int)>
    requires c.p > 0
  {
    if c.p % 2 == 0 then None else
      var alpha := Alpha(c, x) % c.p;
      var beta := PowerMod(alpha, (c.p + 1) / 4, c.p);
      var y := if beta % 2 == sy then beta else c.p - beta;
      if On(c, x, y) then Some((x, y)) else None
  }

  function Decompress(c: Curve, bits: Bits): Option<(int, int)>
    requires c.p > 0
  {
    if bits.kind == 2 then FromCompressed(c, bits.x, 0)
    else if bits.kind == 3 then FromCompressed(c, bits.x, 1)
    else None
  }

  /** The equation in its usual form. */
  lemma OnCurve(c: Curve, x: int, y: int)
    requires c.p > 0
    ensures On(c, x, y) <==> (y * y - (x * x * x + c.a * x + c.b)) % c.p == 0
  {
    assert x * (c.a + x * x) == x * x * x + c.a * x;
  }

  // ----- Square roots -----

  lemma PrimeIsOdd(p: nat)
    requires Prime(p) && p % 4 == 3
    ensures p % 2 == 1 && p > 2
  {
  }

  /** A square times itself to the power (p - 1) / 2 is itself. */
  lemma HalfPower(y: int, p: nat)
    requires Prime(p) && p % 4 == 3
    ensures Cong(Pow(y * y, (p + 1) / 2), y * y, p)
  {
    PowSquare(y, (p + 1) / 2);
    assert 2 * ((p + 1) / 2) == p + 1;
    PowAdd(y, p - 1, 2);
    assert Pow(y, 2) == y * y by {
      assert Pow(y, 1) == y * Pow(y, 0);
    }
    if y % p == 0 {
      CongDifference(y, 0, p);
      CongMul(y, 0, y, 0, p);
      CongMul(Pow(y, p - 1), Pow(y, p - 1), y * y, 0, p);
    } else {
      Fermat(y, p);
      CongScale(Pow(y, p - 1), 1, y * y, p);
    }
  }

  /** If alpha is a square, its power (p + 1) / 4 is a root of it. */
  lemma RootByPower(alpha: int, y: int, p: nat)
    requires Prime(p) && p % 4 == 3 && Cong(y * y, alpha, p)
    ensures var beta := PowerMod(alpha, (p + 1) / 4, p); Cong(beta * beta, alpha, p)
  {
    var e := (p + 1) / 4;
    var beta := PowerMod(alpha, e, p);
    CongReduce(Pow(alpha, e), p);
    CongMul(beta, Pow(alpha, e), beta, Pow(alpha, e), p);
    PowAdd(alpha, e, e);
    assert e + e == (p + 1) / 2;
    PowCong(y * y, alpha, (p + 1) / 2, p);
    HalfPower(y, p);
  }

  /** A number has at most two square roots, and they add up to p. */
  lemma TwoRoots(y: int, beta: int, p: nat)
    requires Prime(p) && 0 <= y < p && 0 <= beta < p && Cong(y * y, beta * beta, p)
    ensures y == beta || y == p - beta
  {
    CongDifference(y * y, beta * beta, p);
    assert (y - beta) * (y + beta) == y * y - beta * beta;
    Euclid(y - beta, y + beta, p);
    if (y - beta) % p == 0 {
      CongDifference(y, beta, p);
      CongSmall(y, beta, p);
    } else {
      CongDifference(y, -beta, p);
      var k := CongElim(y, -beta, p);
      RootOffset(y, beta, k, p);
    }
  }

  lemma RootOffset(y: int, beta: int, k: int, p: nat)
    requires 0 <= y < p && 0 <= beta < p && y == -beta + k * p && p > 0
    ensures y == beta || y == p - beta
  {
    if y + beta > 0 {
      assert (k - 1) * p == y + beta - p;
      SmallMultiple(k - 1, p);
    }
  }

  /** What the power yields, if there is a root at all: a root, whose negative is the only other one. */
  lemma RootFound(alpha: int, y: int, p: nat)
    requires Prime(p) && p % 4 == 3 && Root(y, alpha, p)
    ensures var beta := PowerMod(alpha % p, (p + 1) / 4, p);
      && beta < p && Root(beta, alpha, p) && Root(p - beta, alpha, p)
      && (0 <= y < p ==> y == beta || y == p - beta)
  {
    var beta := PowerMod(alpha % p, (p + 1) / 4, p);
    CongDifference(y * y, alpha, p);
    CongReduce(alpha, p);
    RootByPower(alpha % p, y, p);
    assert Cong(beta * beta, alpha, p) && Cong(y * y, beta * beta, p);
    BothRoots(alpha, beta, p);
    if 0 <= y < p {
      TwoRoots(y, beta, p);
    }
  }

  lemma BothRoots(alpha: int, beta: int, p: nat)
    requires p > 0 && Cong(beta * beta, alpha, p)
    ensures Root(beta, alpha, p) && Root(p - beta, alpha, p)
  {
    CongDifference(beta * beta, alpha, p);
    var k := CongElim(beta * beta, alpha, p);
    assert (p - beta) * (p - beta) == alpha + (k + p - 2 * beta) * p;
    CongIntro((p - beta) * (p - beta), alpha, k + p - 2 * beta, p);
    CongDifference((p - beta) * (p - beta), alpha, p);
  }

  // ----- The round trips -----

  /** Of a root and its negative modulo an odd number, parity picks one. */
  lemma SameParity(p: nat, beta: nat, y: nat)
    requires p % 2 == 1 && y < p && beta < p && (y == beta || y == p - beta)
    ensures y == if beta % 2 == y % 2 then beta else p - beta
  {
  }

  /** Decompressing what compression made of a point of the curve gives that point back. */
  lemma DecompressCompressed(c: Curve, x: int, y: int)
    requires Prime(c.p) && c.p % 4 == 3 && 0 <= y < c.p && On(c, x, y)
    ensures Decompress(c, Compress(x, y)) == Some((x, y))
  {
    hide Root, Alpha, PowerMod, Prime;
    PrimeIsOdd(c.p);
    RootFound(Alpha(c, x), y, c.p);
    SameParity(c.p, PowerMod(Alpha(c, x) % c.p, (c.p + 1) / 4, c.p), y);
  }

  lemma SomeRoot(c: Curve, x: int, sy: int, y: int)
    requires Prime(c.p) && c.p % 4 == 3 && (sy == 0 || sy == 1) && On(c, x, y)
    ensures FromCompressed(c, x, sy).Some?
  {
    hide Root, Alpha, PowerMod;
    PrimeIsOdd(c.p);
    RootFound(Alpha(c, x), y, c.p);
    hide Prime;
  }

  lemma FoundFits(c: Curve, x: int, sy: int)
    requires Prime(c.p) && c.p % 4 == 3 && (sy == 0 || sy == 1) && FromCompressed(c, x, sy).Some?
    ensures var (x', y) := FromCompressed(c, x, sy).value; x' == x && On(c, x, y) && y % 2 == sy
  {
    hide Root, Alpha, PowerMod;
    PrimeIsOdd(c.p);
    hide Prime;
  }

  /** A type octet and an x coordinate are accepted just if some point of the curve has that coordinate; the point that
      comes out is one of them, and compresses to what went in. */
  lemma CompressDecompressed(c: Curve, x: int, sy: int)
    requires Prime(c.p) && c.p % 4 == 3 && (sy == 0 || sy == 1)
    ensures Decompress(c, Bits(2 + sy, x)).Some? <==> exists y :: On(c, x, y)
    ensures Decompress(c, Bits(2 + sy, x)).Some? ==> var (x', y) := Decompress(c, Bits(2 + sy, x)).value;
      x' == x && On(c, x, y) && Compress(x', y) == Bits(2 + sy, x)
  {
    assert c.p > 0;
    hide On, FromCompressed, Prime;
    assert Decompress(c, Bits(2 + sy, x)) == FromCompressed(c, x, sy);
    if y :| On(c, x, y) {
      SomeRoot(c, x, sy, y);
    }
    if FromCompressed(c, x, sy).Some? {
      FoundFits(c, x, sy);
    }
  }

  // ----- Each side alone -----

  lemma ModulusIsZero(c: Curve, x: int)
    requires c.p > 0 && On(c, x, c.p)
    ensures On(c, x, 0)
  {
    var p, alpha := c.p, Alpha(c, x);
    CongDifference(p * p, alpha, p);
    CongIntro(p * p, 0, p, p);
    CongDifference(0, alpha, p);
  }

  /** The power that is computed: a root, if there is one. */
  function Power(c: Curve, x: int): (beta: nat)
    requires c.p > 0
    ensures beta < c.p
  {
    PowerMod(Alpha(c, x) % c.p, (c.p + 1) / 4, c.p)
  }

  function Chosen(p: nat, beta: nat, sy: int): int {
    if beta % 2 == sy then beta else p - beta
  }

  lemma FoundIsChosen(c: Curve, x: int, sy: int)
    requires c.p > 0 && FromCompressed(c, x, sy).Some?
    ensures FromCompressed(c, x, sy).value == (x, Chosen(c.p, Power(c, x), sy))
    ensures On(c, x, Chosen(c.p, Power(c, x), sy))
  {
    hide Root, Alpha, PowerMod;
  }

  lemma ChosenInRange(p: nat, beta: nat, sy: int)
    requires p % 2 == 1 && beta < p && (sy == 0 || sy == 1)
    ensures var y := Chosen(p, beta, sy); 0 <= y <= p && y % 2 == sy && (y == p <==> beta == 0 && sy == 1)
  {
  }

  /** 0 is a root exactly if the power is 0. */
  lemma ZeroIsPower(c: Curve, x: int, sy: int)
    requires Prime(c.p) && c.p % 4 == 3 && On(c, x, Chosen(c.p, Power(c, x), sy))
    ensures On(c, x, 0) <==> Power(c, x) == 0
  {
    hide Alpha, PowerMod, Prime, Root;
    if On(c, x, 0) {
      RootFound(Alpha(c, x), 0, c.p);
    } else if Power(c, x) == 0 && Chosen(c.p, 0, sy) == c.p {
      ModulusIsZero(c, x);
      assert false;
    }
  }

  /** Only the octets 2 and 3 are accepted, and the root that comes out is even exactly for 2. It is in range unless the
      only root is 0, and an odd one is asked for: then the modulus itself comes out. */
  lemma DecompressKinds(c: Curve, bits: Bits)
    requires Prime(c.p) && c.p % 4 == 3 && Decompress(c, bits).Some?
    ensures bits.kind == 2 || bits.kind == 3
    ensures var (x, y) := Decompress(c, bits).value;
      && x == bits.x && On(c, x, y) && 0 <= y <= c.p && (y % 2 == 0 <==> bits.kind == 2)
      && (y == c.p <==> bits.kind == 3 && On(c, x, 0))
  {
    hide On, Power, Chosen, FromCompressed;
    PrimeIsOdd(c.p);
    var sy := if bits.kind == 2 then 0 else 1;
    FoundIsChosen(c, bits.x, sy);
    ChosenInRange(c.p, Power(c, bits.x), sy);
    ZeroIsPower(c, bits.x, sy);
  }

  /** Of a point and its mirror image exactly one compresses to the octet 2, and it is the one with even y. */
  lemma OneIsEven(p: nat, x: int, y: int)
    requires Prime(p) && p % 2 == 1 && 0 < y < p
    ensures Compress(x, y).x == x && Compress(x, y).kind == if y % 2 == 0 then 2 else 3
    ensures Compress(x, y).kind == 2 <==> Compress(x, p - y).kind == 3
    ensures Compress(x, p - y).kind == 2 <==> Compress(x, y).kind == 3
  {
  }

  /** For both octets: a root in range with the parity asked for is the one that comes out, so that there is no other.
      */
  lemma OnlyRoot(c: Curve, x: int, y: int)
    requires Prime(c.p) && c.p % 4 == 3 && 0 <= y < c.p && On(c, x, y)
    ensures Decompress(c, Bits(if y % 2 == 0 then 2 else 3, x)) == Some((x, y))
  {
    DecompressCompressed(c, x, y);
  }
}

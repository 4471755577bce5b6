/** Arithmetic modulo m, as OpenSSL's BN_mod_sub and BN_mod_mul compute it (the remainder is never negative),
    and the number theory the curve and the proofs of knowledge rest on. */
module ModArith {

  /** a and b leave the same remainder modulo m. */
  ghost predicate Cong(a: int, b: int, m: int)
    requires m > 0
  {
    a % m == b % m
  }

  lemma DivModUnique(a: int, q: int, r: int, m: int)
    requires m > 0 && 0 <= r < m && a == q * m + r
    ensures a % m == r
  {
    assert (a / m - q) * m == r - a % m;
    SmallMultiple(a / m - q, m);
  }

  lemma SmallMultiple(d: int, m: int)
    requires m > 0 && -m < d * m < m
    ensures d == 0
  {
  }

  lemma CongIntro(a: int, b: int, k: int, m: int)
    requires m > 0 && a == b + k * m
    ensures Cong(a, b, m)
  {
    DivModUnique(a, b / m + k, b % m, m);
  }

  lemma CongElim(a: int, b: int, m: int) returns (k: int)
    requires m > 0 && Cong(a, b, m)
    ensures a == b + k * m
  {
    k := a / m - b / m;
  }

  lemma CongReduce(a: int, m: int)
    requires m > 0
    ensures Cong(a % m, a, m)
  {
    CongIntro(a % m, a, -(a / m), m);
  }

  lemma CongAdd(a: int, b: int, c: int, d: int, m: int)
    requires m > 0 && Cong(a, b, m) && Cong(c, d, m)
    ensures Cong(a + c, b + d, m)
  {
    var j := CongElim(a, b, m);
    var k := CongElim(c, d, m);
    CongIntro(a + c, b + d, j + k, m);
  }

  lemma CongSub(a: int, b: int, c: int, d: int, m: int)
    requires m > 0 && Cong(a, b, m) && Cong(c, d, m)
    ensures Cong(a - c, b - d, m)
  {
    var j := CongElim(a, b, m);
    var k := CongElim(c, d, m);
    CongIntro(a - c, b - d, j - k, m);
  }

  lemma CongScale(a: int, b: int, c: int, m: int)
    requires m > 0 && Cong(a, b, m)
    ensures Cong(a * c, b * c, m) && Cong(c * a, c * b, m)
  {
    var j := CongElim(a, b, m);
    assert (b + j * m) * c == b * c + (j * c) * m;
    CongIntro(a * c, b * c, j * c, m);
    assert a * c == c * a && b * c == c * b;
  }

  lemma CongMul(a: int, b: int, c: int, d: int, m: int)
    requires m > 0 && Cong(a, b, m) && Cong(c, d, m)
    ensures Cong(a * c, b * d, m)
  {
    CongScale(a, b, c, m);
    CongScale(c, d, b, m);
  }

  lemma CongDifference(a: int, b: int, m: int)
    requires m > 0
    ensures Cong(a, b, m) <==> (a - b) % m == 0
  {
    if Cong(a, b, m) {
      var k := CongElim(a, b, m);
      CongIntro(a - b, 0, k, m);
    } else if (a - b) % m == 0 {
      CongIntro(a, b, (a - b) / m, m);
    }
  }

  /** Two remainders that are congruent are equal. */
  lemma CongSmall(a: int, b: int, m: int)
    requires m > 0 && Cong(a, b, m) && 0 <= a < m && 0 <= b < m
    ensures a == b
  {
    DivModUnique(a, 0, a, m);
    DivModUnique(b, 0, b, m);
  }

  // ----- Primes, inverses, Euclid's lemma -----

  ghost predicate Prime(p: int) {
    p >= 2 && forall d :: 2 <= d < p ==> p % d != 0
  }

  /** Coefficients (x, y) with a*x + b*y equal to the last non-zero remainder of Euclid's algorithm. */
  function Bezout(a: nat, b: nat): (r: (int, int, nat))
    requires a > 0 || b > 0
    ensures a * r.0 + b * r.1 == r.2 && r.2 > 0 && a % r.2 == 0 && b % r.2 == 0
    decreases b
  {
    if b == 0 then
      (1, 0, a)
    else
      var (x, y, d) := Bezout(b, a % b);
      BezoutStep(a, b, x, y, d);
      (y, x - (a / b) * y, d)
  }

  lemma BezoutStep(a: nat, b: nat, x: int, y: int, d: nat)
    requires b > 0 && d > 0 && b * x + (a % b) * y == d && b % d == 0 && (a % b) % d == 0
    ensures a * y + b * (x - (a / b) * y) == d && a % d == 0
  {
    var q := a / b;
    assert a == q * b + a % b;
    assert a * y == q * b * y + (a % b) * y;
    assert b * (x - q * y) == b * x - q * b * y;
    CongMul(q, q, b, 0, d);
    CongAdd(q * b, q * 0, a % b, 0, d);
  }

  /** The inverse of a modulo the prime p. */
  function Inverse(a: int, p: nat): (inv: nat)
    requires p > 0
    ensures inv < p
  {
    Bezout(a % p, p).0 % p
  }

  lemma PrimeDivisor(p: int, d: int)
    requires Prime(p) && 0 < d && p % d == 0
    ensures d == 1 || d == p
  {
    if d > p {
      DivModUnique(p, 0, p, d);
    }
  }

  lemma InverseWorks(a: int, p: nat)
    requires Prime(p) && a % p != 0
    ensures Cong(a * Inverse(a, p), 1, p)
  {
    var (x, y, d) := Bezout(a % p, p);
    PrimeDivisor(p, d);
    if d == p {
      DivModUnique(a % p, 0, a % p, p);
      assert false;
    }
    CongIntro((a % p) * x, 1, -y, p);
    CongReduce(a, p);
    CongReduce(x, p);
    CongMul(a % p, a, x, x, p);
    CongMul(a, a, x % p, x, p);
  }

  lemma Swap(a: int, i: int, b: int)
    ensures (a * i) * b == (a * b) * i
  {
    assert i * b == b * i;
  }

  /** A prime dividing a product divides one of the factors. */
  lemma Euclid(a: int, b: int, p: nat)
    requires Prime(p) && (a * b) % p == 0
    ensures a % p == 0 || b % p == 0
  {
    if a % p != 0 {
      hide Prime, Inverse;
      var i := Inverse(a, p);
      InverseWorks(a, p);
      CongScale(a * i, 1, b, p);
      CongScale(a * b, 0, i, p);
      Swap(a, i, b);
    }
  }

  lemma Cancel(a: int, b: int, c: int, p: nat)
    requires Prime(p) && a % p != 0 && Cong(a * b, a * c, p)
    ensures Cong(b, c, p)
  {
    CongDifference(a * b, a * c, p);
    assert a * b - a * c == a * (b - c);
    Euclid(a, b - c, p);
    CongDifference(b, c, p);
  }

  lemma CancelOne(a: int, b: int, p: nat)
    requires Prime(p) && a % p != 0 && Cong(a, b * a, p)
    ensures Cong(b, 1, p)
  {
    assert a * b == b * a && a * 1 == a;
    Cancel(a, b, 1, p);
  }

  // ----- Powers and Fermat's little theorem -----

  function Pow(a: int, n: nat): int {
    if n == 0 then 1 else a * Pow(a, n - 1)
  }

  lemma {:induction false} PowAdd(a: int, m: nat, n: nat)
    ensures Pow(a, m + n) == Pow(a, m) * Pow(a, n)
  {
    if m > 0 {
      PowAdd(a, m - 1, n);
    }
  }

  lemma {:induction false} PowSquare(a: int, n: nat)
    ensures Pow(a * a, n) == Pow(a, 2 * n)
  {
    if n > 0 {
      PowSquare(a, n - 1);
      assert Pow(a, 2 * n) == a * (a * Pow(a, 2 * n - 2));
    }
  }

  lemma {:induction false} PowCong(a: int, b: int, n: nat, m: int)
    requires m > 0 && Cong(a, b, m)
    ensures Cong(Pow(a, n), Pow(b, n), m)
  {
    if n > 0 {
      PowCong(a, b, n - 1, m);
      CongMul(a, b, Pow(a, n - 1), Pow(b, n - 1), m);
    }
  }

  ghost function Product(s: seq<int>): int {
    if s == [] then 1 else s[0] * Product(s[1..])
  }

  ghost function Factorial(n: nat): nat {
    if n == 0 then 1 else n * Factorial(n - 1)
  }

  /** s holds |s| different values between 1 and |s|. */
  ghost predicate Arrangement(s: seq<int>) {
    && (forall i :: 0 <= i < |s| ==> 1 <= s[i] <= |s|)
    && (forall i, j :: 0 <= i < j < |s| ==> s[i] != s[j])
  }

  lemma RemoveAt(s: seq<int>, i: nat)
    requires i < |s| && s[i] == |s| && Arrangement(s)
    ensures Arrangement(s[..i] + s[i + 1..])
  {
    var t := s[..i] + s[i + 1..];
    forall k | 0 <= k < |t| ensures t[k] == s[if k < i then k else k + 1] {
    }
  }

  /** An arrangement of 1..n contains n, and without it is an arrangement of 1..n-1. */
  lemma {:induction false} DropLargest(s: seq<int>) returns (i: nat)
    requires |s| > 0 && Arrangement(s)
    ensures i < |s| && s[i] == |s|
    ensures Arrangement(s[..i] + s[i + 1..])
    decreases |s|, 0
  {
    var n := |s|;
    if n !in s {
      forall k | 0 <= k < n ensures s[k] < n {
        assert s[k] in s;
      }
      PigeonHole(s[..n - 1], s[n - 1]);
      assert false;
    }
    i :| 0 <= i < n && s[i] == n;
    RemoveAt(s, i);
  }

  lemma {:induction false} PigeonHole(s: seq<int>, v: int)
    requires Arrangement(s) && 1 <= v <= |s|
    ensures v in s
    decreases |s|, 1
  {
    var i := DropLargest(s);
    if v != |s| {
      var t := s[..i] + s[i + 1..];
      PigeonHole(t, v);
      assert forall x :: x in t ==> x in s;
    }
  }

  lemma {:induction false} ProductAppend(s: seq<int>, t: seq<int>)
    ensures Product(s + t) == Product(s) * Product(t)
  {
    if s == [] {
      assert s + t == t;
    } else {
      ProductAppend(s[1..], t);
      assert (s + t)[1..] == s[1..] + t;
    }
  }

  lemma {:induction false} ArrangementProduct(s: seq<int>)
    requires Arrangement(s)
    ensures Product(s) == Factorial(|s|)
    decreases |s|
  {
    if |s| > 0 {
      var i := DropLargest(s);
      ArrangementProduct(s[..i] + s[i + 1..]);
      ProductAppend(s[..i], s[i + 1..]);
      ProductAppend(s[..i], s[i..]);
      assert s == s[..i] + s[i..];
      assert s[i..][1..] == s[i + 1..];
      Regroup(Product(s[..i]), |s|, Product(s[i + 1..]), Factorial(|s| - 1));
    }
  }

  lemma Regroup(a: int, n: int, b: int, f: int)
    requires a * b == f
    ensures a * (n * b) == n * f
  {
  }

  /** The remainders of a, 2a, ..., na modulo p. */
  ghost function Multiples(a: int, n: nat, p: nat): (s: seq<int>)
    requires p > 0
    ensures |s| == n && forall i :: 0 <= i < n ==> s[i] == (a * (i + 1)) % p
  {
    if n == 0 then [] else Multiples(a, n - 1, p) + [(a * n) % p]
  }

  lemma ProductSnoc(s: seq<int>, x: int)
    ensures Product(s + [x]) == Product(s) * x
  {
    ProductAppend(s, [x]);
    assert Product([x]) == x * Product([]);
  }

  /** One factor moves to the power and one to the factorial. */
  lemma PairFactors(pow: int, fact: int, a: int, n: int)
    ensures (pow * fact) * (a * n) == (a * pow) * (n * fact)
  {
    assert (pow * fact) * (a * n) == ((pow * fact) * a) * n;
    assert (pow * fact) * a == (a * pow) * fact;
  }

  lemma OneMoreMultiple(before: int, pow: int, fact: int, a: int, n: int, p: nat)
    requires p > 0 && Cong(before, pow * fact, p)
    ensures Cong(before * ((a * n) % p), (a * pow) * (n * fact), p)
  {
    hide Cong;
    CongReduce(a * n, p);
    CongMul(before, pow * fact, (a * n) % p, a * n, p);
    PairFactors(pow, fact, a, n);
  }

  lemma {:induction false} MultiplesProduct(a: int, n: nat, p: nat)
    requires p > 0
    ensures Cong(Product(Multiples(a, n, p)), Pow(a, n) * Factorial(n), p)
  {
    hide Cong, Product;
    if n == 0 {
      EmptyProduct(p);
    } else {
      MultiplesProduct(a, n - 1, p);
      ProductSnoc(Multiples(a, n - 1, p), (a * n) % p);
      OneMoreMultiple(Product(Multiples(a, n - 1, p)), Pow(a, n - 1), Factorial(n - 1), a, n, p);
    }
  }

  lemma EmptyProduct(p: nat)
    requires p > 0
    ensures Cong(Product([]), 1 * 1, p)
  {
  }

  lemma {:induction false} FactorialNotDivisible(n: nat, p: nat)
    requires Prime(p) && n < p
    ensures Factorial(n) % p != 0
  {
    if n > 0 {
      FactorialNotDivisible(n - 1, p);
      DivModUnique(n, 0, n, p);
      if Factorial(n) % p == 0 {
        Euclid(n, Factorial(n - 1), p);
      }
    }
  }

  lemma MultiplesArrangement(a: int, p: nat)
    requires Prime(p) && a % p != 0
    ensures Arrangement(Multiples(a, p - 1, p))
  {
    var s := Multiples(a, p - 1, p);
    forall i | 0 <= i < |s| ensures 1 <= s[i] <= |s| {
      if s[i] == 0 {
        Euclid(a, i + 1, p);
        DivModUnique(i + 1, 0, i + 1, p);
      }
    }
    forall i, j | 0 <= i < j < |s| ensures s[i] != s[j] {
      if s[i] == s[j] {
        Cancel(a, i + 1, j + 1, p);
        CongSmall(i + 1, j + 1, p);
      }
    }
  }

  /** Fermat's little theorem. */
  lemma Fermat(a: int, p: nat)
    requires Prime(p) && a % p != 0
    ensures Cong(Pow(a, p - 1), 1, p)
  {
    var f := Factorial(p - 1);
    MultiplesArrangement(a, p);
    ArrangementProduct(Multiples(a, p - 1, p));
    MultiplesProduct(a, p - 1, p);
    FactorialNotDivisible(p - 1, p);
    CancelOne(f, Pow(a, p - 1), p);
  }
}

/** The mutable wrappers of native/BN.cc and native/POINT.cc: every method changes the wrapped number or point in
    place. */
module Native {
  import opened Groups

  class BN {
    var num: int

    constructor ()
      ensures num == 0
    {
      num := 0;
    }

    /** A number decoded from its base64 text, or drawn below a bound: the value is given. */
    constructor Of(value: nat)
      ensures num == value
    {
      num := value;
    }

    method AddM(b: BN)
      modifies this
      ensures num == old(num) + old(b.num)
    {
      num := num + b.num;
    }

    method AddMInt(b: nat)
      modifies this
      ensures num == old(num) + b
    {
      num := num + b;
    }

    method ModSubM(b: BN, m: nat)
      requires m > 0
      modifies this
      ensures num == (old(num) - old(b.num)) % m
    {
      num := (num - b.num) % m;
    }

    /** The text holds the magnitude only, so it is the number exactly when the number is not negative. */
    method ToBase64() returns (text: nat)
      ensures num >= 0 ==> text == num
    {
      text := if num < 0 then -num else num;
    }
  }

  class Point<P(!new)> {
    const G: Group<P>
    var point: P

    constructor (G: Group<P>)
      ensures this.G == G && point == G.zero
    {
      this.G := G;
      point := G.zero;
    }

    constructor At(G: Group<P>, p: P)
      ensures this.G == G && point == p
    {
      this.G := G;
      point := p;
    }

    method AddMPoint(b: Point<P>)
      modifies this
      ensures point == G.add(old(point), old(b.point))
    {
      point := G.add(point, b.point);
    }
  }
}

/** The client of src/autoscript/autovote.js: a choice is split into one share per teller. The running sums start
    out as the first teller's own number and point objects, which the later tellers then change in place. */
module ShareGeneration {
  import opened ModArith
  import opened Groups
  import opened Native
  import opened Ballots

  /** A position as the client holds it: cid is the chosen candidate, or negative for none. */
  datatype Choice = Choice(pid: int, cid: int, cand: seq<int>)

  function Bit(c: Choice, k: nat): nat
    requires k < |c.cand|
  {
    if c.cand[k] == c.cid then 1 else 0
  }

  function PositionOf(c: Choice): Position {
    Position(c.pid, c.cand)
  }

  /** sumX[j][k], sumY[j][k] and sumZ[j][k]: null stands for an entry that is still undefined. */
  datatype Sums<P(!new)> = Sums(x: BN?, y: BN?, z: Point?<P>)
  {
    ghost function Objects(): set<object?> { {x, y, z} - {null} }

    ghost predicate Sound(G: Group<P>) { (x != null ==> x != y) && (z != null ==> z.G == G) }

    predicate Defined() { x != null && y != null && z != null }
  }

  /** The values a triple of sums stands for. */
  datatype Opening<P> = Opening(x: int, y: int, z: P)

  ghost function Value<P(!new)>(G: Group<P>, s: Sums<P>): Opening<P>
    reads s.x, s.y, s.z
  {
    Opening(if s.x == null then 0 else s.x.num,
            if s.y == null then 0 else s.y.num,
            if s.z == null then G.zero else s.z.point)
  }

  function Plus<P(!new)>(G: Group<P>, o: Opening<P>, c: Cell): Opening<P> {
    Opening(o.x + c.x, o.y + c.y, G.add(o.z, G.Com(c.x, c.y)))
  }

  /** Where a sum was defined it stays the same object. */
  ghost predicate Continues<P(!new)>(s: Sums<P>, t: Sums<P>) {
    && t.Defined()
    && (s.x != null ==> t.x == s.x) && (s.y != null ==> t.y == s.y) && (s.z != null ==> t.z == s.z)
  }

  /** The cell opens its own commitment, and holds the share and the blinding the client has to give out. */
  ghost predicate CellOk<P(!new)>(W: World<P>, cell: Cell, cid: int, bit: nat, last: bool, coinX: nat, coinY: nat,
                                  before: int)
    requires W.G.order > 0
  {
    && cell.cid == cid
    && W.dec(cell.z) == W.G.Com(cell.x, cell.y)
    && cell.x == (if last then (bit - before) % W.G.order else coinX)
    && cell.y == coinY
  }

  /** The share, the blinding and the commitment of one candidate for one teller. */
  method NewShare<P(!new)>(W: World<P>, cid: int, bit: nat, last: bool, coinX: nat, coinY: nat, sumX: BN?)
    returns (cell: Cell, x: BN, y: BN, z: Point<P>)
    requires W.Valid() && bit <= 1
    ensures CellOk(W, cell, cid, bit, last, coinX, coinY, if sumX == null then 0 else sumX.num)
    ensures fresh(x) && fresh(y) && fresh(z) && x != y
    ensures x.num == cell.x && y.num == cell.y && z.G == W.G && z.point == W.G.Com(cell.x, cell.y)
  {
    if last {
      x := new BN();
      if bit == 1 {
        x.AddMInt(1);
      }
      if sumX != null {
        x.ModSubM(sumX, W.G.order);
      } else {
        DivModUnique(bit, 0, bit, W.G.order);
      }
    } else {
      x := new BN.Of(coinX);
    }
    y := new BN.Of(coinY);
    z := new Point.At(W.G, W.G.Com(x.num, y.num));
    var textX := x.ToBase64();
    var textY := y.ToBase64();
    cell := Cell(cid, textX, textY, W.enc(z.point));
    assert W.RoundTrip(z.point);
  }

  method AddToSums<P(!new)>(G: Group<P>, s: Sums<P>, x: BN, y: BN, z: Point<P>) returns (t: Sums<P>)
    requires G.Valid() && s.Sound(G) && z.G == G && x != y && {x, y, z} !! s.Objects()
    modifies s.Objects()
    ensures t.Sound(G) && Continues(s, t) && t.Objects() <= s.Objects() + {x, y, z}
    ensures Value(G, t) == old(Opening(Value(G, s).x + x.num, Value(G, s).y + y.num, G.add(Value(G, s).z, z.point)))
  {
    ZeroLeft(G, z.point);
    var sx, sy, sz := s.x, s.y, s.z;
    if sx == null {
      sx := x;
    } else {
      sx.AddM(x);
    }
    if sy == null {
      sy := y;
    } else {
      sy.AddM(y);
    }
    if sz == null {
      sz := z;
    } else {
      sz.AddMPoint(z);
    }
    t := Sums(sx, sy, sz);
  }

  /** One candidate for one teller. The texts in the cell are taken before the sums are touched, so they keep
      the values even where x, y or z becomes the running sum itself. */
  method ShareCell<P(!new)>(W: World<P>, cid: int, bit: nat, last: bool, coinX: nat, coinY: nat, s: Sums<P>)
    returns (cell: Cell, t: Sums<P>)
    requires W.Valid() && bit <= 1 && s.Sound(W.G)
    modifies s.Objects()
    ensures CellOk(W, cell, cid, bit, last, coinX, coinY, old(Value(W.G, s)).x)
    ensures t.Sound(W.G) && Continues(s, t) && fresh(t.Objects() - s.Objects())
    ensures Value(W.G, t) == Plus(W.G, old(Value(W.G, s)), cell)
  {
    var x, y, z;
    cell, x, y, z := NewShare(W, cid, bit, last, coinX, coinY, s.x);
    t := AddToSums(W.G, s, x, y, z);
  }

  /** Every triple is sound, and no object stands in two of them. */
  ghost predicate Separate<P(!new)>(G: Group<P>, row: seq<Sums<P>>) {
    && (forall k :: 0 <= k < |row| ==> row[k].Sound(G))
    && (forall k, m :: 0 <= k < m < |row| ==> row[k].Objects() !! row[m].Objects())
  }

  lemma SeparateUpdate<P(!new)>(G: Group<P>, row: seq<Sums<P>>, k: nat, e: Sums<P>)
    requires Separate(G, row) && k < |row| && e.Sound(G)
    requires forall m :: 0 <= m < |row| && m != k ==> row[m].Objects() !! e.Objects()
    ensures Separate(G, row[k := e])
  {
  }

  ghost function RowObjects<P(!new)>(row: seq<Sums<P>>): set<object?> {
    set k, o | 0 <= k < |row| && o in row[k].Objects() :: o
  }

  /** The sums of a row hold the values given. */
  ghost predicate Holds<P(!new)>(G: Group<P>, row: seq<Sums<P>>, now: seq<Opening<P>>)
    reads RowObjects(row)
  {
    |row| == |now| && forall k :: 0 <= k < |row| ==>
      assert row[k].Objects() <= RowObjects(row); Value(G, row[k]) == now[k]
  }

  ghost predicate CellsShared<P(!new)>(W: World<P>, c: Choice, last: bool, coinX: nat -> nat, coinY: nat -> nat,
                                       values: seq<Cell>,
                                       before: seq<Opening<P>>, after: seq<Opening<P>>)
    requires W.G.order > 0 && |values| <= |c.cand|
  {
    && |values| <= |before| && |values| <= |after|
    && forall k :: 0 <= k < |values| ==>
      && CellOk(W, values[k], c.cand[k], Bit(c, k), last, coinX(k), coinY(k), before[k].x)
      && after[k] == Plus(W.G, before[k], values[k])
  }

  /** One candidate inside a row: the other candidates keep their values. */
  method ShareCellAt<P(!new)>(W: World<P>, c: Choice, last: bool, coinX: nat, coinY: nat,
                              row: seq<Sums<P>>, k: nat, ghost before: seq<Opening<P>>)
    returns (cell: Cell, t: Sums<P>)
    requires W.Valid() && k < |row| == |before| == |c.cand| && Separate(W.G, row) && Holds(W.G, row, before)
    modifies row[k].Objects()
    ensures CellOk(W, cell, c.cand[k], Bit(c, k), last, coinX, coinY, before[k].x)
    ensures Continues(row[k], t) && fresh(t.Objects() - row[k].Objects()) && Separate(W.G, row[k := t])
    ensures Holds(W.G, row[k := t], before[k := Plus(W.G, before[k], cell)])
  {
    cell, t := ShareCell(W, c.cand[k], Bit(c, k), last, coinX, coinY, row[k]);
    SeparateUpdate(W.G, row, k, t);
  }

  /** The cells of one position for one teller. */
  method ShareRow<P(!new)>(W: World<P>, c: Choice, last: bool, coinX: nat -> nat, coinY: nat -> nat,
                           s: seq<Sums<P>>, ghost before: seq<Opening<P>>)
    returns (values: seq<Cell>, t: seq<Sums<P>>, ghost after: seq<Opening<P>>)
    requires W.Valid() && |s| == |c.cand| && Separate(W.G, s) && Holds(W.G, s, before)
    modifies RowObjects(s)
    ensures |values| == |t| == |s| && Separate(W.G, t) && Holds(W.G, t, after)
    ensures fresh(RowObjects(t) - RowObjects(s)) && forall k :: 0 <= k < |t| ==> Continues(s[k], t[k])
    ensures CellsShared(W, c, last, coinX, coinY, values, before, after)
  {
    values := [];
    t, after := s, before;
    for k := 0 to |s|
      invariant |values| == k && |t| == |s| && Separate(W.G, t) && Holds(W.G, t, after)
      invariant forall m :: k <= m < |s| ==> t[m] == s[m] && after[m] == before[m]
      invariant forall m :: 0 <= m < |s| ==> fresh(t[m].Objects() - s[m].Objects()) && (m < k ==> Continues(s[m], t[m]))
      invariant CellsShared(W, c, last, coinX, coinY, values, before, after)
    {
      var cell, e := ShareCellAt(W, c, last, coinX(k), coinY(k), t, k, after);
      after := after[k := Plus(W.G, before[k], cell)];
      values := values + [cell];
      t := t[k := e];
    }
  }

  /** All rows are separate, and no object stands in two rows. */
  ghost predicate Apart<P(!new)>(G: Group<P>, grid: seq<seq<Sums<P>>>) {
    && (forall j :: 0 <= j < |grid| ==> Separate(G, grid[j]))
    && (forall j, m :: 0 <= j < m < |grid| ==> RowObjects(grid[j]) !! RowObjects(grid[m]))
  }

  lemma ApartUpdate<P(!new)>(G: Group<P>, grid: seq<seq<Sums<P>>>, j: nat, row: seq<Sums<P>>)
    requires Apart(G, grid) && j < |grid| && Separate(G, row)
    requires forall m :: 0 <= m < |grid| && m != j ==> RowObjects(grid[m]) !! RowObjects(row)
    ensures Apart(G, grid[j := row])
  {
  }

  predicate AllDefined<P(!new)>(row: seq<Sums<P>>) {
    forall k :: 0 <= k < |row| ==> row[k].Defined()
  }

  /** One row inside the grid: the other rows keep their values. */
  method ShareRowAt<P(!new)>(W: World<P>, c: Choice, last: bool, coinX: nat -> nat, coinY: nat -> nat,
                             grid: seq<seq<Sums<P>>>, j: nat, ghost before: seq<seq<Opening<P>>>)
    returns (values: seq<Cell>, t: seq<Sums<P>>, ghost after: seq<Opening<P>>)
    requires W.Valid() && j < |grid| == |before| && |grid[j]| == |c.cand| && Apart(W.G, grid)
    requires forall m :: 0 <= m < |grid| ==> Holds(W.G, grid[m], before[m])
    modifies RowObjects(grid[j])
    ensures |values| == |t| == |c.cand| && fresh(RowObjects(t) - RowObjects(grid[j])) && AllDefined(t)
    ensures Apart(W.G, grid[j := t])
    ensures forall m :: 0 <= m < |grid| && m != j ==> Holds(W.G, grid[m], before[m])
    ensures Holds(W.G, t, after) && CellsShared(W, c, last, coinX, coinY, values, before[j], after)
  {
    values, t, after := ShareRow(W, c, last, coinX, coinY, grid[j], before[j]);
    ApartUpdate(W.G, grid, j, t);
  }

  ghost function GridObjects<P(!new)>(grid: seq<seq<Sums<P>>>): set<object?> {
    set j, o | 0 <= j < |grid| && o in RowObjects(grid[j]) :: o
  }

  ghost predicate Shaped<T>(grid: seq<seq<T>>, pos: seq<Choice>) {
    |grid| == |pos| && forall j :: 0 <= j < |pos| ==> |grid[j]| == |pos[j].cand|
  }

  ghost predicate GridHolds<P(!new)>(G: Group<P>, grid: seq<seq<Sums<P>>>, now: seq<seq<Opening<P>>>)
    reads GridObjects(grid)
  {
    |grid| == |now| && forall j :: 0 <= j < |grid| ==>
      assert RowObjects(grid[j]) <= GridObjects(grid); Holds(G, grid[j], now[j])
  }

  /** One teller's commitments, given what the sums held before and hold after. */
  ghost predicate TellerShared<P(!new)>(W: World<P>, pos: seq<Choice>, last: bool, coinX: nat -> nat -> nat,
                                        coinY: nat -> nat -> nat,
                                        commit: seq<PosCells>, before: seq<seq<Opening<P>>>,
                                        after: seq<seq<Opening<P>>>)
    requires W.G.order > 0 && |commit| <= |pos|
  {
    && |commit| <= |before| && |commit| <= |after|
    && forall j :: 0 <= j < |commit| ==>
      && commit[j].pid == pos[j].pid && |commit[j].values| == |pos[j].cand|
      && CellsShared(W, pos[j], last, coinX(j), coinY(j), commit[j].values, before[j], after[j])
  }

  /** All positions of one teller's commitments. */
  method ShareTeller<P(!new)>(W: World<P>, pos: seq<Choice>, last: bool, coinX: nat -> nat -> nat,
                              coinY: nat -> nat -> nat,
                              grid: seq<seq<Sums<P>>>, ghost before: seq<seq<Opening<P>>>)
    returns (commit: seq<PosCells>, t: seq<seq<Sums<P>>>, ghost after: seq<seq<Opening<P>>>)
    requires W.Valid() && Shaped(grid, pos) && Apart(W.G, grid) && GridHolds(W.G, grid, before)
    modifies GridObjects(grid)
    ensures Shaped(t, pos) && Apart(W.G, t) && GridHolds(W.G, t, after) && fresh(GridObjects(t) - GridObjects(grid))
    ensures forall j :: 0 <= j < |t| ==> AllDefined(t[j])
    ensures |commit| == |pos| && TellerShared(W, pos, last, coinX, coinY, commit, before, after)
  {
    hide CellsShared, Separate, Group.Com, Group.Mul, Prime, Cong, Holds;
    commit := [];
    t, after := grid, before;
    for j := 0 to |grid|
      invariant |commit| == j && Shaped(t, pos) && Apart(W.G, t) && |after| == |grid|
      invariant forall m :: 0 <= m < |grid| ==> Holds(W.G, t[m], after[m])
      invariant forall m :: j <= m < |grid| ==> t[m] == grid[m] && after[m] == before[m]
      invariant forall m :: 0 <= m < |grid| ==> fresh(RowObjects(t[m]) - RowObjects(grid[m]))
      invariant forall m :: 0 <= m < j ==> AllDefined(t[m])
      invariant TellerShared(W, pos, last, coinX, coinY, commit, before, after)
    {
      assert RowObjects(t[j]) <= GridObjects(grid);
      var values, row;
      ghost var now;
      values, row, now := ShareRowAt(W, pos[j], last, coinX(j), coinY(j), t, j, after);
      after := after[j := now];
      commit := commit + [PosCells(pos[j].pid, values)];
      t := t[j := row];
    }
  }

  // ----- The whole vote -----

  /** Candidate k of position j as the tellers get it, one cell per teller. */
  ghost function CellColumn(commits: seq<seq<PosCells>>, j: nat, k: nat): (c: seq<Cell>)
    requires forall i :: 0 <= i < |commits| ==> j < |commits[i]| && k < |commits[i][j].values|
    ensures |c| == |commits| && forall i :: 0 <= i < |commits| ==> c[i] == commits[i][j].values[k]
  {
    if commits == [] then [] else
      CellColumn(commits[..|commits| - 1], j, k) + [commits[|commits| - 1][j].values[k]]
  }

  ghost predicate AllRowsFit(commits: seq<seq<PosCells>>, pos: seq<Choice>) {
    forall i :: 0 <= i < |commits| ==> Fits(commits[i], LayoutOf(pos))
  }

  function LayoutOf(pos: seq<Choice>): (r: seq<Position>)
    ensures |r| == |pos| && forall j :: 0 <= j < |pos| ==> r[j] == PositionOf(pos[j])
  {
    seq(|pos|, j requires 0 <= j < |pos| => PositionOf(pos[j]))
  }

  function Xs(c: seq<Cell>): (r: seq<int>)
    ensures |r| == |c| && forall i :: 0 <= i < |c| ==> r[i] == c[i].x
  {
    seq(|c|, i requires 0 <= i < |c| => c[i].x)
  }

  function Ys(c: seq<Cell>): (r: seq<int>)
    ensures |r| == |c| && forall i :: 0 <= i < |c| ==> r[i] == c[i].y
  {
    seq(|c|, i requires 0 <= i < |c| => c[i].y)
  }

  /** What the in-place sums amount to after the given cells. */
  ghost function SumsOf<P(!new)>(G: Group<P>, c: seq<Cell>): Opening<P> {
    if c == [] then Opening(0, 0, G.zero) else Plus(G, SumsOf(G, c[..|c| - 1]), c[|c| - 1])
  }

  lemma {:induction false} SumsOfTotals<P(!new)>(G: Group<P>, c: seq<Cell>)
    requires G.Valid()
    ensures SumsOf(G, c) == Opening(Total(Xs(c)), Total(Ys(c)), G.Com(Total(Xs(c)), Total(Ys(c))))
  {
    var n := |c| - 1;
    if n < 0 {
      ComZero(G);
    } else {
      SumsOfTotals(G, c[..n]);
      assert Xs(c)[..n] == Xs(c[..n]) && Ys(c)[..n] == Ys(c[..n]);
      ComAdd(G, Total(Xs(c[..n])), Total(Ys(c[..n])), c[n].x, c[n].y);
    }
  }

  ghost function ColumnAt(commits: seq<seq<PosCells>>, pos: seq<Choice>, j: nat, k: nat): (c: seq<Cell>)
    requires AllRowsFit(commits, pos) && j < |pos| && k < |pos[j].cand|
    ensures |c| == |commits| && forall i :: 0 <= i < |commits| ==>
      assert RowFits(commits[i][j], LayoutOf(pos)[j]); c[i] == commits[i][j].values[k]
  {
    assert forall i :: 0 <= i < |commits| ==> RowFits(commits[i][j], LayoutOf(pos)[j]);
    CellColumn(commits, j, k)
  }

  /** Each cell opens its own commitment, and the shares of a candidate add up to the voter's bit. */
  ghost predicate HonestColumn<P(!new)>(W: World<P>, c: seq<Cell>, bit: nat)
    requires W.G.order > 0
  {
    && (forall i :: 0 <= i < |c| ==> W.dec(c[i].z) == W.G.Com(c[i].x, c[i].y))
    && Cong(Total(Xs(c)), bit, W.G.order)
  }

  ghost predicate HonestShares<P(!new)>(W: World<P>, pos: seq<Choice>, commits: seq<seq<PosCells>>)
    requires W.G.order > 0
  {
    && AllRowsFit(commits, pos)
    && forall j, k :: 0 <= j < |pos| && 0 <= k < |pos[j].cand| ==>
      HonestColumn(W, ColumnAt(commits, pos, j, k), Bit(pos[j], k))
  }
}

/** The bulletin board after the election has closed: it takes one signed total per teller
    (src/esp/submitTellerResult.js), and then publishes their sum if every one of them agrees with the commitments in
    the ballot file (src/esp/finallyTallying.js). */
module BoardTally {
  import opened Wrappers
  import opened Groups
  import opened Ballots
  import opened VoteServers
  import opened Tally
  import opened TellerTally

  // ----- Submission -----

  method CheckCountRow<P(!new)>(W: World<P>, pos: Position, row: PosShares, start: string) returns (ok: bool,
                                str: string)
    ensures ok <==> CountRowFits(row, pos)
    ensures ok ==> str == CountRowStr(W, W.cat(start, W.show(row.pid)), row.values, |row.values|)
  {
    str := start;
    if row.pid != pos.pid || |row.values| != |pos.cand| {
      return false, str;
    }
    str := W.cat(str, W.show(pos.pid));
    for k := 0 to |row.values|
      invariant forall m :: 0 <= m < k ==> row.values[m].cid == pos.cand[m]
      invariant str == CountRowStr(W, W.cat(start, W.show(row.pid)), row.values, k)
    {
      var v := row.values[k];
      if v.cid != pos.cand[k] {
        return false, str;
      }
      str := W.cat(str, W.cat(W.cat(W.show(v.cid), W.show(v.x)), W.show(v.y)));
    }
    return true, str;
  }

  method CheckCount<P(!new)>(W: World<P>, layout: seq<Position>, count: seq<PosShares>, head: string)
    returns (ok: bool, str: string)
    ensures ok <==> CountFits(count, layout)
    ensures ok ==> str == CountStr(W, head, count, |count|)
  {
    hide CountRowStr;
    ok, str := |count| == |layout|, head;
    var i := 0;
    while i < |count| && ok
      invariant 0 <= i <= |count|
      invariant ok ==> |count| == |layout| && forall m :: 0 <= m < i ==> CountRowFits(count[m], layout[m])
      invariant ok ==> str == CountStr(W, head, count, i)
      invariant !ok ==> !CountFits(count, layout)
    {
      ok, str := CheckCountRow(W, layout[i], count[i], str);
      i := i + 1;
    }
  }

  // ----- The ballot file -----

  /** A line that is no ballot, or a ballot's commitments. */
  datatype FileLine = Unreadable | Read(zs: seq<TellerZ>)

  /** The product loop indexes by place alone: enough positions, and enough cells in each. */
  ghost predicate Reaches(val: seq<PosZ>, layout: seq<Position>) {
    |val| >= |layout| && forall j :: 0 <= j < |layout| ==> |val[j].values| >= |layout[j].cand|
  }

  ghost predicate LineReaches(line: FileLine, layout: seq<Position>, tellers: nat) {
    line.Read? && |line.zs| <= tellers && forall i :: 0 <= i < |line.zs| ==> Reaches(line.zs[i].val, layout)
  }

  ghost predicate FileReaches(file: seq<FileLine>, layout: seq<Position>, tellers: nat) {
    forall b :: 0 <= b < |file| ==> LineReaches(file[b], layout, tellers)
  }

  /** What a ballot contributes to teller i's product at one cell; zero if it has no i-th entry. */
  ghost function Factor<P(!new)>(W: World<P>, layout: seq<Position>, line: FileLine, i: nat, j: nat, k: nat): P
    requires line.Read? && forall i :: 0 <= i < |line.zs| ==> Reaches(line.zs[i].val, layout)
    requires j < |layout| && k < |layout[j].cand|
  {
    if i < |line.zs| then
      assert Reaches(line.zs[i].val, layout);
      W.dec(line.zs[i].val[j].values[k].z)
    else W.G.zero
  }

  /** All ballots' contributions to teller i at one cell. */
  ghost function Factors<P(!new)>(W: World<P>, layout: seq<Position>, tellers: nat, file: seq<FileLine>, i: nat,
                                  j: nat, k: nat): (r: seq<P>)
    requires FileReaches(file, layout, tellers) && j < |layout| && k < |layout[j].cand|
    ensures |r| == |file| && forall b :: 0 <= b < |file| ==>
      LineReaches(file[b], layout, tellers) && r[b] == Factor(W, layout, file[b], i, j, k)
  {
    assert forall b :: 0 <= b < |file| ==> LineReaches(file[b], layout, tellers);
    seq(|file|,
        b requires 0 <= b < |file| => assert LineReaches(file[b], layout, tellers); Factor(W, layout, file[b], i, j, k))
  }

  ghost predicate GridFits<T>(grid: seq<seq<T>>, layout: seq<Position>) {
    |grid| == |layout| && forall j :: 0 <= j < |layout| ==> |grid[j]| == |layout[j].cand|
  }

  /** Teller i's products after the file. */
  ghost predicate ProductsAre<P(!new)>(W: World<P>, layout: seq<Position>, tellers: nat, file: seq<FileLine>, i: nat,
                                       grid: seq<seq<P>>)
    requires FileReaches(file, layout, tellers)
  {
    && GridFits(grid, layout)
    && forall j, k :: 0 <= j < |layout| && 0 <= k < |layout[j].cand| ==>
      grid[j][k] == W.G.Sum(Factors(W, layout, tellers, file, i, j, k))
  }

  ghost predicate RowMultiplied<P(!new)>(W: World<P>, row: seq<P>, row': seq<P>, val: PosZ, n: nat)
    requires n <= |row| && n <= |val.values|
  {
    && |row'| == |row|
    && (forall k :: 0 <= k < n ==> row'[k] == W.G.add(row[k], W.dec(val.values[k].z)))
    && (forall k :: n <= k < |row| ==> row'[k] == row[k])
  }

  method MultRow<P(!new)>(W: World<P>, row: seq<P>, val: PosZ) returns (ok: bool, row': seq<P>)
    ensures ok <==> |val.values| >= |row|
    ensures ok ==> RowMultiplied(W, row, row', val, |row|)
  {
    row', ok := row, true;
    var k := 0;
    while k < |row| && ok
      invariant 0 <= k <= |row|
      invariant ok ==> k <= |val.values| && RowMultiplied(W, row, row', val, k)
      invariant !ok ==> |val.values| < |row|
    {
      if k < |val.values| {
        row' := row'[k := W.G.add(row'[k], W.dec(val.values[k].z))];
      } else {
        ok := false;
      }
      k := k + 1;
    }
  }

  /** Every cell of the grid multiplied by the cell of val in the same place. */
  ghost predicate Multiplied<P(!new)>(W: World<P>, layout: seq<Position>, grid: seq<seq<P>>, grid': seq<seq<P>>,
                                      val: seq<PosZ>)
    requires GridFits(grid, layout) && Reaches(val, layout)
  {
    GridFits(grid', layout) && forall j, k :: 0 <= j < |layout| && 0 <= k < |layout[j].cand| ==>
      grid'[j][k] == W.G.add(grid[j][k], W.dec(val[j].values[k].z))
  }

  /** multResultZ: false stands for the exception it throws on a missing cell. */
  method MultResult<P(!new)>(W: World<P>, ghost layout: seq<Position>, grid: seq<seq<P>>, val: seq<PosZ>)
    returns (ok: bool, grid': seq<seq<P>>)
    requires GridFits(grid, layout)
    ensures ok <==> Reaches(val, layout)
    ensures ok ==> Multiplied(W, layout, grid, grid', val)
  {
    grid', ok := grid, true;
    var j := 0;
    while j < |grid| && ok
      invariant 0 <= j <= |grid| && GridFits(grid', layout)
      invariant ok ==> j <= |val| && forall m :: 0 <= m < j ==>
        |val[m].values| >= |layout[m].cand| && RowMultiplied(W, grid[m], grid'[m], val[m], |layout[m].cand|)
      invariant ok ==> forall m :: j <= m < |grid| ==> grid'[m] == grid[m]
      invariant !ok ==> !Reaches(val, layout)
    {
      if j < |val| {
        var row;
        ok, row := MultRow(W, grid'[j], val[j]);
        if ok {
          grid' := grid'[j := row];
        }
      } else {
        ok := false;
      }
      j := j + 1;
    }
  }

  ghost predicate LineMultiplied<P(!new)>(W: World<P>, layout: seq<Position>, before: seq<seq<seq<P>>>,
                                          after: seq<seq<seq<P>>>,
                                          zs: seq<TellerZ>, n: nat)
    requires n <= |zs| && n <= |before| && |before| == |after|
    requires forall i :: 0 <= i < |zs| ==> Reaches(zs[i].val, layout)
    requires forall i :: 0 <= i < |before| ==> GridFits(before[i], layout)
  {
    && (forall i :: 0 <= i < n ==> Multiplied(W, layout, before[i], after[i], zs[i].val))
    && (forall i :: n <= i < |before| ==> after[i] == before[i])
  }

  lemma ProductsStep<P(!new)>(W: World<P>, layout: seq<Position>, tellers: nat, file: seq<FileLine>, line: FileLine,
                              i: nat,
                              before: seq<seq<P>>, after: seq<seq<P>>)
    requires W.Valid() && FileReaches(file, layout, tellers) && LineReaches(line, layout, tellers)
    requires ProductsAre(W, layout, tellers, file, i, before)
    requires if i < |line.zs| then Multiplied(W, layout, before, after, line.zs[i].val) else after == before
    ensures FileReaches(file + [line], layout, tellers) && ProductsAre(W, layout, tellers, file + [line], i, after)
  {
    var all := file + [line];
    forall b | 0 <= b < |all| ensures LineReaches(all[b], layout, tellers) {
    }
    forall j, k | 0 <= j < |layout| && 0 <= k < |layout[j].cand|
      ensures after[j][k] == W.G.Sum(Factors(W, layout, tellers, all, i, j, k))
    {
      var f := Factor(W, layout, line, i, j, k);
      assert Factors(W, layout, tellers, all, i, j, k) == Factors(W, layout, tellers, file, i, j, k) + [f];
      SumAppend(W.G, Factors(W, layout, tellers, file, i, j, k), f);
      ZeroLeft(W.G, before[j][k]);
    }
  }

  ghost predicate AllProducts<P(!new)>(W: World<P>, layout: seq<Position>, tellers: nat, file: seq<FileLine>,
                                       grids: seq<seq<seq<P>>>)
    requires FileReaches(file, layout, tellers)
  {
    |grids| == tellers && forall i :: 0 <= i < tellers ==> ProductsAre(W, layout, tellers, file, i, grids[i])
  }

  lemma AllProductsStep<P(!new)>(W: World<P>, layout: seq<Position>, tellers: nat, file: seq<FileLine>, line: FileLine,
                                 before: seq<seq<seq<P>>>, after: seq<seq<seq<P>>>)
    requires W.Valid() && FileReaches(file, layout, tellers) && LineReaches(line, layout, tellers)
    requires AllProducts(W, layout, tellers, file, before) && |after| == tellers
    requires LineMultiplied(W, layout, before, after, line.zs, |line.zs|)
    ensures FileReaches(file + [line], layout, tellers) && AllProducts(W, layout, tellers, file + [line], after)
  {
    forall b | 0 <= b < |file + [line]| ensures LineReaches((file + [line])[b], layout, tellers) {
    }
    forall i | 0 <= i < tellers ensures ProductsAre(W, layout, tellers, file + [line], i, after[i]) {
      ProductsStep(W, layout, tellers, file, line, i, before[i], after[i]);
    }
  }

  method MultLine<P(!new)>(W: World<P>, ghost layout: seq<Position>, grids: seq<seq<seq<P>>>, zs: seq<TellerZ>)
    returns (ok: bool, grids': seq<seq<seq<P>>>)
    requires forall i :: 0 <= i < |grids| ==> GridFits(grids[i], layout)
    ensures ok <==> LineReaches(Read(zs), layout, |grids|)
    ensures ok ==> |grids'| == |grids| && LineMultiplied(W, layout, grids, grids', zs, |zs|)
  {
    hide Multiplied, Reaches;
    grids', ok := grids, true;
    var i := 0;
    while i < |zs| && ok
      invariant 0 <= i <= |zs| && |grids'| == |grids|
      invariant ok ==> i <= |grids| && forall m :: 0 <= m < i ==>
        Reaches(zs[m].val, layout) && Multiplied(W, layout, grids[m], grids'[m], zs[m].val)
      invariant ok ==> forall m :: i <= m < |grids| ==> grids'[m] == grids[m]
      invariant !ok ==> !LineReaches(Read(zs), layout, |grids|)
    {
      if i < |grids'| {
        var grid;
        ok, grid := MultResult(W, layout, grids'[i], zs[i].val);
        if ok {
          grids' := grids'[i := grid];
        }
      } else {
        ok := false;
      }
      i := i + 1;
    }
  }

  /** The read loop over the ballot file. */
  method MultFile<P(!new)>(W: World<P>, layout: seq<Position>, tellers: nat, file: seq<FileLine>)
    returns (ok: bool, grids: seq<seq<seq<P>>>)
    requires W.Valid()
    ensures ok <==> FileReaches(file, layout, tellers)
    ensures ok ==> AllProducts(W, layout, tellers, file, grids)
  {
    hide LineMultiplied, LineReaches, ProductsAre;
    grids := seq(tellers, i => seq(|layout|, j requires 0 <= j < |layout| => seq(|layout[j].cand|, k => W.G.zero)));
    ok := true;
    NoProducts(W, layout, tellers, grids);
    var b := 0;
    while b < |file| && ok
      invariant 0 <= b <= |file|
      invariant ok ==> FileReaches(file[..b], layout, tellers) && AllProducts(W, layout, tellers, file[..b], grids)
      invariant !ok ==> !FileReaches(file, layout, tellers)
    {
      assert file[..b + 1] == file[..b] + [file[b]];
      match file[b] {
        case Unreadable =>
          ok := false;
          UnreadableLine(layout, tellers);
        case Read(zs) =>
          GridsFit(W, layout, tellers, file[..b], grids);
          var grids';
          ok, grids' := MultLine(W, layout, grids, zs);
          if ok {
            LineFits(layout, tellers, Read(zs));
            AllProductsStep(W, layout, tellers, file[..b], file[b], grids, grids');
            grids := grids';
          }
      }
      b := b + 1;
    }
    assert file[..|file|] == file;
  }

  ghost predicate AllZero<P(!new)>(W: World<P>, grid: seq<seq<P>>) {
    forall j, k :: 0 <= j < |grid| && 0 <= k < |grid[j]| ==> grid[j][k] == W.G.zero
  }

  lemma UnreadableLine(layout: seq<Position>, tellers: nat)
    ensures !LineReaches(Unreadable, layout, tellers)
  {
  }

  lemma LineFits(layout: seq<Position>, tellers: nat, line: FileLine)
    requires LineReaches(line, layout, tellers)
    ensures line.Read? && |line.zs| <= tellers && forall i :: 0 <= i < |line.zs| ==> Reaches(line.zs[i].val, layout)
  {
  }

  lemma NoProducts<P(!new)>(W: World<P>, layout: seq<Position>, tellers: nat, grids: seq<seq<seq<P>>>)
    requires |grids| == tellers
    requires forall i :: 0 <= i < tellers ==> GridFits(grids[i], layout) && AllZero(W, grids[i])
    ensures AllProducts(W, layout, tellers, [], grids)
  {
  }

  lemma GridsFit<P(!new)>(W: World<P>, layout: seq<Position>, tellers: nat, file: seq<FileLine>,
                          grids: seq<seq<seq<P>>>)
    requires FileReaches(file, layout, tellers) && AllProducts(W, layout, tellers, file, grids)
    ensures forall i :: 0 <= i < |grids| ==> GridFits(grids[i], layout)
  {
    forall i | 0 <= i < |grids| ensures GridFits(grids[i], layout) {
      assert ProductsAre(W, layout, tellers, file, i, grids[i]);
    }
  }

  // ----- Verdict on one teller -----

  /** Every cell of the total opens the product of the teller's commitments. */
  ghost predicate TotalPasses<P(!new)>(W: World<P>, layout: seq<Position>, tellers: nat, file: seq<FileLine>, i: nat,
                                       count: seq<PosShares>)
    requires FileReaches(file, layout, tellers) && CountFits(count, layout)
  {
    forall j, k :: 0 <= j < |layout| && 0 <= k < |layout[j].cand| ==>
      var c := CountCell(count, layout, j, k);
      Passes(W.G, c.x, c.y, Factors(W, layout, tellers, file, i, j, k))
  }

  method VerifyResult<P(!new,==)>(W: World<P>, layout: seq<Position>, ghost tellers: nat, ghost file: seq<FileLine>,
                                  ghost i: nat,
                                  count: seq<PosShares>, grid: seq<seq<P>>)
    returns (ok: bool)
    requires FileReaches(file, layout, tellers) && CountFits(count, layout)
    requires ProductsAre(W, layout, tellers, file, i, grid)
    ensures ok <==> TotalPasses(W, layout, tellers, file, i, count)
  {
    for j := 0 to |count|
      invariant forall m, k :: 0 <= m < j && 0 <= k < |layout[m].cand| ==>
        W.G.Com(CountCell(count, layout, m, k).x, CountCell(count, layout, m, k).y) == grid[m][k]
    {
      assert CountRowFits(count[j], layout[j]);
      for k := 0 to |count[j].values|
        invariant forall m :: 0 <= m < k ==> W.G.Com(count[j].values[m].x, count[j].values[m].y) == grid[j][m]
      {
        if W.G.Com(count[j].values[k].x, count[j].values[k].y) != grid[j][k] {
          assert !Passes(W.G, CountCell(count, layout, j, k).x, CountCell(count, layout, j, k).y,
                         Factors(W, layout, tellers, file, i, j, k));
          return false;
        }
      }
    }
    return true;
  }

  // ----- The published sum -----

  ghost predicate AllCountsFit(counts: seq<seq<PosShares>>, layout: seq<Position>) {
    forall i :: 0 <= i < |counts| ==> CountFits(counts[i], layout)
  }

  ghost function TotalXs(counts: seq<seq<PosShares>>, layout: seq<Position>, j: nat, k: nat): (r: seq<int>)
    requires AllCountsFit(counts, layout) && j < |layout| && k < |layout[j].cand|
    ensures |r| == |counts| && forall i :: 0 <= i < |r| ==> r[i] == CountCell(counts[i], layout, j, k).x
  {
    seq(|counts|, i requires 0 <= i < |counts| => CountCell(counts[i], layout, j, k).x)
  }

  ghost function TotalYs(counts: seq<seq<PosShares>>, layout: seq<Position>, j: nat, k: nat): (r: seq<int>)
    requires AllCountsFit(counts, layout) && j < |layout| && k < |layout[j].cand|
    ensures |r| == |counts| && forall i :: 0 <= i < |r| ==> r[i] == CountCell(counts[i], layout, j, k).y
  {
    seq(|counts|, i requires 0 <= i < |counts| => CountCell(counts[i], layout, j, k).y)
  }

  /** The plain sums of the totals. */
  ghost predicate AddsUp(out: seq<PosShares>, layout: seq<Position>, counts: seq<seq<PosShares>>)
    requires AllCountsFit(counts, layout)
  {
    && CountFits(out, layout)
    && forall j, k :: 0 <= j < |layout| && 0 <= k < |layout[j].cand| ==>
      && CountCell(out, layout, j, k).x == Total(TotalXs(counts, layout, j, k))
      && CountCell(out, layout, j, k).y == Total(TotalYs(counts, layout, j, k))
  }

  ghost predicate SummationIs(order: nat, out: seq<PosShares>, layout: seq<Position>, counts: seq<seq<PosShares>>)
    requires order > 0 && AllCountsFit(counts, layout)
  {
    && CountFits(out, layout)
    && forall j, k :: 0 <= j < |layout| && 0 <= k < |layout[j].cand| ==>
      && CountCell(out, layout, j, k).x == Total(TotalXs(counts, layout, j, k)) % order
      && CountCell(out, layout, j, k).y == Total(TotalYs(counts, layout, j, k)) % order
  }

  lemma AddsUpStep(out: seq<PosShares>, out': seq<PosShares>, layout: seq<Position>, counts: seq<seq<PosShares>>,
                   count: seq<PosShares>)
    requires AllCountsFit(counts, layout) && CountFits(count, layout) && AddsUp(out, layout, counts)
    requires IsSum(out', out, count, layout)
    ensures AllCountsFit(counts + [count], layout) && AddsUp(out', layout, counts + [count])
  {
    var all := counts + [count];
    assert AllCountsFit(all, layout);
    forall j, k | 0 <= j < |layout| && 0 <= k < |layout[j].cand|
      ensures CountCell(out', layout, j, k).x == Total(TotalXs(all, layout, j, k))
      ensures CountCell(out', layout, j, k).y == Total(TotalYs(all, layout, j, k))
    {
      var c := CountCell(count, layout, j, k);
      assert TotalXs(all, layout, j, k) == TotalXs(counts, layout, j, k) + [c.x];
      assert TotalYs(all, layout, j, k) == TotalYs(counts, layout, j, k) + [c.y];
      TotalAppend(TotalXs(counts, layout, j, k), c.x);
      TotalAppend(TotalYs(counts, layout, j, k), c.y);
    }
  }

  method SerializeResult(out: seq<PosShares>, order: nat, ghost layout: seq<Position>,
                         ghost counts: seq<seq<PosShares>>)
    returns (r: seq<PosShares>)
    requires order > 0 && AllCountsFit(counts, layout) && AddsUp(out, layout, counts)
    ensures SummationIs(order, r, layout, counts)
  {
    r := [];
    for j := 0 to |out|
      invariant |r| == j && forall m :: 0 <= m < j ==> CountRowFits(r[m], layout[m])
      invariant forall m, k :: 0 <= m < j && 0 <= k < |layout[m].cand| ==>
        && r[m].values[k].x == CountCell(out, layout, m, k).x % order
        && r[m].values[k].y == CountCell(out, layout, m, k).y % order
    {
      assert CountRowFits(out[j], layout[j]);
      var row := ReduceRow(out[j], order, layout[j]);
      r := r + [row];
    }
  }

  method InitSummation(layout: seq<Position>) returns (out: seq<PosShares>)
    ensures AddsUp(out, layout, [])
  {
    out := InitOutput(layout, []);
    forall j, k | 0 <= j < |layout| && 0 <= k < |layout[j].cand|
      ensures TotalXs([], layout, j, k) == [] && TotalYs([], layout, j, k) == []
    {
    }
  }

  /** How a run of the final tally ends. */
  datatype Outcome = WrongState | AlreadyPublished | Incomplete | BadFile | Rejected | Published | CommitFailed

  class Board<P(!new,==)> {
    const W: World<P>
    const eid: int
    const layout: seq<Position>
    const tellerKeys: seq<string>
    var state: int
    var counts: seq<Option<Stored>>
    var summation: Option<seq<PosShares>>

    ghost predicate CountStands(i: nat, stored: Stored)
      requires i < |tellerKeys|
    {
      && CountFits(stored.count, layout)
      && W.verify(CountSigned(W, eid, stored.count, stored.time), stored.sign, tellerKeys[i])
    }

    ghost predicate Valid()
      reads this
    {
      && W.Valid() && |counts| == |tellerKeys|
      && (forall i :: 0 <= i < |counts| && counts[i].Some? ==> CountStands(i, counts[i].value))
      && (summation.Some? ==> AllThere(counts) && SummationIs(W.G.order, summation.value, layout, Values(counts)))
    }

    ghost predicate AllThere(cs: seq<Option<Stored>>) {
      && (forall i :: 0 <= i < |cs| ==> cs[i].Some?)
      && AllCountsFit(Values(cs), layout)
    }

    /** The stored totals themselves; nothing in place of a missing one. */
    ghost function Values(cs: seq<Option<Stored>>): (r: seq<seq<PosShares>>)
      ensures |r| == |cs| && forall i :: 0 <= i < |r| ==> r[i] == if cs[i].Some? then cs[i].value.count else []
    {
      seq(|cs|, i requires 0 <= i < |cs| => if cs[i].Some? then cs[i].value.count else [])
    }

    constructor (W: World<P>, eid: int, layout: seq<Position>, tellerKeys: seq<string>)
      requires W.Valid()
      ensures Valid() && state == 3 && summation.None?
      ensures this.W == W && this.eid == eid && this.layout == layout && this.tellerKeys == tellerKeys
      ensures forall i :: 0 <= i < |counts| ==> counts[i].None?
    {
      this.W, this.eid, this.layout, this.tellerKeys := W, eid, layout, tellerKeys;
      state, summation := 3, None;
      counts := seq(|tellerKeys|, i => None);
    }

    ghost predicate Acceptable(cs: seq<Option<Stored>>, idx: int, stored: Stored) {
      0 <= idx < |tellerKeys| && idx < |cs| && (cs[idx].Some? || CountStands(idx, stored))
    }

    /** A total is stored if it has the layout of the election and the teller's signature, unless there is one already.
        An index without a teller fails before it is checked, with code -1. */
    method Submit(idx: int, count: seq<PosShares>, time: int, sign: string) returns (code: int)
      requires Valid()
      modifies this`counts
      ensures Valid()
      ensures code == 0 <==> state == 3 && (summation.Some? || Acceptable(old(counts), idx, Stored(count, time, sign)))
      ensures code == -4 <==> state != 3
      ensures code == -1 <==> state == 3 && summation.None? && !(0 <= idx < |tellerKeys|)
      ensures code == -2 <==> state == 3 && summation.None? && 0 <= idx < |tellerKeys| && old(counts)[idx].None?
                              && !CountStands(idx, Stored(count, time, sign))
      ensures counts == if code == 0 && summation.None? && old(counts)[idx].None?
        then old(counts)[idx := Some(Stored(count, time, sign))] else old(counts)
    {
      if state != 3 {
        return -4;
      }
      if summation.Some? {
        return 0;
      }
      if idx < 0 || idx >= |counts| {
        return -1;
      }
      if counts[idx].Some? {
        return 0;
      }
      var ok, str := CheckCount(W, layout, count, W.show(eid));
      if !ok || !W.verify(W.cat(str, W.show(time)), sign, tellerKeys[idx]) {
        return -2;
      }
      counts := counts[idx := Some(Stored(count, time, sign))];
      return 0;
    }

    ghost predicate Passing(file: seq<FileLine>, cs: seq<Option<Stored>>, i: nat)
      requires FileReaches(file, layout, |tellerKeys|) && AllThere(cs) && i < |cs|
    {
      assert CountFits(Values(cs)[i], layout);
      TotalPasses(W, layout, |tellerKeys|, file, i, cs[i].value.count)
    }

    /** Everything the final tally needs is there. */
    ghost predicate Ready(file: seq<FileLine>, cs: seq<Option<Stored>>) {
      FileReaches(file, layout, |tellerKeys|) && AllThere(cs)
    }

    method JudgeOne(file: seq<FileLine>, i: nat, grid: seq<seq<P>>) returns (ok: bool)
      requires Valid() && Ready(file, counts) && i < |counts| && ProductsAre(W, layout, |tellerKeys|, file, i, grid)
      ensures ok <==> Passing(file, counts, i)
    {
      hide TotalPasses, ProductsAre, SummationIs, CountStands;
      assert CountFits(Values(counts)[i], layout);
      ok := VerifyResult(W, layout, |tellerKeys|, file, i, counts[i].value.count, grid);
    }

    /** The loop over the tellers: add up what passes, throw away what does not. */
    method Judge(file: seq<FileLine>, grids: seq<seq<seq<P>>>)
      returns (success: bool, kept: seq<Option<Stored>>, out: seq<PosShares>)
      requires Valid() && Ready(file, counts) && AllProducts(W, layout, |tellerKeys|, file, grids)
      ensures success <==> forall i :: 0 <= i < |counts| ==> Passing(file, counts, i)
      ensures |kept| == |counts| && forall i :: 0 <= i < |counts| ==>
        kept[i] == if Passing(file, counts, i) then counts[i] else None
      ensures success ==> AddsUp(out, layout, Values(counts))
    {
      hide Passing, ProductsAre, CountFits, AddsUp, IsSum, CountSigned, CountStands, SummationIs, LineReaches;
      out := InitSummation(layout);
      success, kept := true, counts;
      ghost var vals := Values(counts);
      assert vals[..0] == [];
      AddsUpFits(out, layout, []);
      for i := 0 to |counts|
        invariant |kept| == |counts| && CountFits(out, layout)
        invariant success <==> forall m :: 0 <= m < i ==> Passing(file, counts, m)
        invariant forall m :: 0 <= m < |counts| ==>
          kept[m] == if m >= i || Passing(file, counts, m) then counts[m] else None
        invariant AllCountsFit(vals[..i], layout)
        invariant success ==> AddsUp(out, layout, vals[..i])
      {
        assert CountFits(vals[i], layout) && vals[i] == counts[i].value.count;
        assert vals[..i + 1] == vals[..i] + [vals[i]];
        var ok := JudgeOne(file, i, grids[i]);
        if ok {
          var sum := AddResult(out, counts[i].value.count, layout);
          if success {
            AddsUpStep(out, sum, layout, vals[..i], vals[i]);
          }
          SumFits(sum, out, vals[i], layout);
          out := sum;
        } else {
          success := false;
          kept := kept[i := None];
        }
      }
      assert vals[..|counts|] == vals;
    }

    lemma AddsUpFits(out: seq<PosShares>, layout: seq<Position>, cs: seq<seq<PosShares>>)
      requires AllCountsFit(cs, layout) && AddsUp(out, layout, cs)
      ensures CountFits(out, layout)
    {
    }

    lemma SumFits(out': seq<PosShares>, out: seq<PosShares>, count: seq<PosShares>, layout: seq<Position>)
      requires CountFits(out, layout) && CountFits(count, layout) && IsSum(out', out, count, layout)
      ensures CountFits(out', layout)
    {
    }

    method CountsThere() returns (there: bool)
      requires Valid()
      ensures there <==> AllThere(counts)
    {
      for i := 0 to |counts|
        invariant forall m :: 0 <= m < i ==> counts[m].Some?
      {
        if counts[i].None? {
          return false;
        }
      }
      forall i | 0 <= i < |counts| ensures CountFits(Values(counts)[i], layout) {
        assert CountStands(i, counts[i].value);
      }
      return true;
    }

    /** The sum is published exactly when every teller's total is there and opens the product of that teller's
        commitments in the file. If one does not, it is thrown away, so that the teller can submit again, and nothing is
        published. Whatever goes wrong before that leaves everything as it was. */
    method FinalTally(file: seq<FileLine>, commits: bool) returns (outcome: Outcome)
      requires Valid()
      modifies this`counts, this`summation
      ensures Valid()
      ensures outcome == WrongState <==> state != 3
      ensures outcome == AlreadyPublished <==> state == 3 && old(summation).Some?
      ensures outcome in {Published, Rejected} <==>
        state == 3 && old(summation).None? && commits && Ready(file, old(counts))
      ensures outcome == Published ==> forall i :: 0 <= i < |counts| ==> Passing(file, old(counts), i)
      ensures outcome == Rejected ==> exists i :: 0 <= i < |counts| && !Passing(file, old(counts), i)
      ensures outcome == Published ==> counts == old(counts) && summation.Some?
      ensures outcome == Rejected ==> summation.None? && |counts| == |old(counts)| && forall i :: 0 <= i < |counts| ==>
        counts[i] == if Passing(file, old(counts), i) then old(counts)[i] else None
      ensures outcome !in {Published, Rejected} ==> counts == old(counts) && summation == old(summation)
    {
      hide Passing, AddsUp, SummationIs, CountStands;
      if state != 3 {
        return WrongState;
      }
      if summation.Some? {
        return AlreadyPublished;
      }
      var there := CountsThere();
      if !there {
        return Incomplete;
      }
      var ok, grids := MultFile(W, layout, |tellerKeys|, file);
      if !ok {
        return BadFile;
      }
      var success, kept, out := Judge(file, grids);
      if !commits {
        return CommitFailed;
      }
      if !success {
        counts := kept;
        return Rejected;
      }
      var sum := SerializeResult(out, W.G.order, layout, Values(counts));
      summation := Some(sum);
      return Published;
    }
  }

  /** What a teller stored is what the board takes. */
  lemma StoredTotalSubmits<P(!new)>(W: World<P>, eid: int, layout: seq<Position>, key: string, rows: seq<Row>,
                                    stored: Stored)
    requires W.Valid() && RowsFit(rows, layout) && CountIs(W.G.order, stored.count, layout, rows)
    requires stored.sign == W.sign(key, CountSigned(W, eid, stored.count, stored.time))
    ensures CountFits(stored.count, layout)
    ensures W.verify(CountSigned(W, eid, stored.count, stored.time), stored.sign, W.pub(key))
  {
    assert W.Signs(key, CountSigned(W, eid, stored.count, stored.time));
  }
}

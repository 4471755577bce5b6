/** Totals of shares: what a teller submits, what the board publishes, and the theorems that tie them to the votes. */
module Tally {
  import opened ModArith
  import opened Groups
  import opened Ballots
  import opened VoteServers

  ghost predicate CountFits(count: seq<PosShares>, layout: seq<Position>) {
    |count| == |layout| && forall j :: 0 <= j < |layout| ==> CountRowFits(count[j], layout[j])
  }

  ghost predicate CountRowFits(row: PosShares, pos: Position) {
    && row.pid == pos.pid && |row.values| == |pos.cand|
    && forall k :: 0 <= k < |pos.cand| ==> row.values[k].cid == pos.cand[k]
  }

  ghost function CountCell(count: seq<PosShares>, layout: seq<Position>, j: nat, k: nat): Share
    requires CountFits(count, layout) && j < |layout| && k < |layout[j].cand|
  {
    assert CountRowFits(count[j], layout[j]);
    count[j].values[k]
  }

  // ----- The text a teller signs under its totals, and the board checks -----

  function CountRowStr<P(!new)>(W: World<P>, str: string, values: seq<Share>, k: nat): string
    requires k <= |values|
  {
    if k == 0 then str else
      W.cat(CountRowStr(W, str, values, k - 1),
            W.cat(W.cat(W.show(values[k - 1].cid), W.show(values[k - 1].x)), W.show(values[k - 1].y)))
  }

  function CountStr<P(!new)>(W: World<P>, str: string, count: seq<PosShares>, j: nat): string
    requires j <= |count|
  {
    if j == 0 then str else
      CountRowStr(W, W.cat(CountStr(W, str, count, j - 1), W.show(count[j - 1].pid)), count[j - 1].values,
                  |count[j - 1].values|)
  }

  function CountSigned<P(!new)>(W: World<P>, eid: int, count: seq<PosShares>, time: int): string {
    W.cat(CountStr(W, W.show(eid), count, |count|), W.show(time))
  }

  lemma {:induction false} CountStrSame<P(!new)>(W: World<P>, str: string, count: seq<PosShares>, row: PosShares,
                                                 j: nat)
    requires j <= |count|
    ensures CountStr(W, str, count + [row], j) == CountStr(W, str, count, j)
  {
    if j > 0 {
      CountStrSame(W, str, count, row, j - 1);
    }
  }

  lemma CountStrAppend<P(!new)>(W: World<P>, str: string, count: seq<PosShares>, row: PosShares)
    ensures CountStr(W, str, count + [row], |count| + 1)
         == CountRowStr(W, W.cat(CountStr(W, str, count, |count|), W.show(row.pid)), row.values, |row.values|)
  {
    CountStrSame(W, str, count, row, |count|);
  }

  // ----- One cell, seen through columns of numbers and points -----

  /** A submitted total (x, y) passes the board's check against the product of the commitments zs. */
  predicate Passes<P(!new,==)>(G: Group<P>, x: int, y: int, zs: seq<P>) {
    G.Com(x, y) == G.Sum(zs)
  }

  /** A total that passes is the sum of the shares behind the commitments, or gives a dependency between g and h. */
  lemma TallyBinding<P(!new)>(G: Group<P>, xs: seq<int>, ys: seq<int>, zs: seq<P>, x: int, y: int)
    requires G.Valid() && |xs| == |ys| == |zs|
    requires forall b :: 0 <= b < |zs| ==> zs[b] == G.Com(xs[b], ys[b])
    requires Passes(G, x, y, zs)
    ensures (Cong(x, Total(xs), G.order) && Cong(y, Total(ys), G.order)) || G.Relation(x - Total(xs), y - Total(ys))
  {
    SumOfCommitments(G, zs, xs, ys);
    Binding(G, x, y, Total(xs), Total(ys));
  }

  /** The sum of the shares, reduced, passes. */
  lemma TallyPasses<P(!new)>(G: Group<P>, xs: seq<int>, ys: seq<int>, zs: seq<P>)
    requires G.Valid() && |xs| == |ys| == |zs|
    requires forall b :: 0 <= b < |zs| ==> zs[b] == G.Com(xs[b], ys[b])
    ensures Passes(G, Total(xs) % G.order, Total(ys) % G.order, zs)
  {
    SumOfCommitments(G, zs, xs, ys);
    CongReduce(Total(xs), G.order);
    CongReduce(Total(ys), G.order);
    ComCong(G, Total(xs) % G.order, Total(ys) % G.order, Total(xs), Total(ys));
  }

  /** zs[b][i] is teller i's commitment on ballot b, xs[i] and ys[i] teller i's total. If every teller's total passes
      against its own column, the reduced sums of the totals pass against the sum over all ballots and tellers. */
  lemma PublishedPasses<P(!new)>(G: Group<P>, zs: seq<seq<P>>, xs: seq<int>, ys: seq<int>)
    requires G.Valid() && |xs| == |ys| && IsMatrix(zs, |xs|)
    requires forall i :: 0 <= i < |xs| ==> Passes(G, xs[i], ys[i], Column(zs, i))
    ensures Passes(G, Total(xs) % G.order, Total(ys) % G.order, RowSums(G, zs))
  {
    SumExchange(G, zs, |xs|);
    SumOfCommitments(G, ColumnSums(G, zs, |xs|), xs, ys);
    CongReduce(Total(xs), G.order);
    CongReduce(Total(ys), G.order);
    ComCong(G, Total(xs) % G.order, Total(ys) % G.order, Total(xs), Total(ys));
  }

  /** shares[b][i] is teller i's share of ballot b, whose shares add up to bits[b] modulo the order. The published
      number, made from the tellers' reduced totals, is exactly the number of ballots with bit one. */
  lemma Conservation(order: int, tellers: nat, shares: seq<seq<int>>, bits: seq<int>, totals: seq<int>)
    requires |shares| == |bits| < order && IsMatrix(shares, tellers) && |totals| == tellers
    requires forall b :: 0 <= b < |bits| ==> 0 <= bits[b] <= 1 && Cong(Total(shares[b]), bits[b], order)
    requires forall i :: 0 <= i < tellers ==> totals[i] == Total(Column(shares, i)) % order
    ensures Total(totals) % order == Total(bits)
  {
    var columns := ColumnTotals(shares, tellers);
    forall i | 0 <= i < tellers ensures Cong(totals[i], columns[i], order) {
      CongReduce(columns[i], order);
    }
    TotalCong(totals, columns, order);
    TotalExchange(shares, tellers);
    TotalCong(RowTotals(shares), bits, order);
    TotalOfBits(bits);
    DivModUnique(Total(bits), 0, Total(bits), order);
  }
}

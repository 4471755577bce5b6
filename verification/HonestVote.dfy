/** generate_vote of src/autoscript/autovote.js as a whole: shares for every teller, then a proof for every candidate
    and one for every position, taken from the sums the share loops left behind. */
module HonestVote {
  import opened ModArith
  import opened Groups
  import opened Proof01
  import opened Ballots
  import opened ShareGeneration

  lemma ColumnSnoc(commits: seq<seq<PosCells>>, commit: seq<PosCells>, pos: seq<Choice>, j: nat, k: nat)
    requires AllRowsFit(commits, pos) && Fits(commit, LayoutOf(pos)) && j < |pos| && k < |pos[j].cand|
    ensures AllRowsFit(commits + [commit], pos) && RowFits(commit[j], LayoutOf(pos)[j])
    ensures ColumnAt(commits + [commit], pos, j, k) == ColumnAt(commits, pos, j, k) + [commit[j].values[k]]
  {
    assert (commits + [commit])[..|commits|] == commits;
    assert RowFits(commit[j], LayoutOf(pos)[j]);
  }

  /** Adding one cell to an honest column: the sums grow by the cell, and the last cell makes the total the bit. */
  lemma CellStep<P(!new)>(W: World<P>, c: seq<Cell>, cell: Cell, cid: int, bit: nat, last: bool, coinX: nat, coinY: nat)
    requires W.Valid() && CellOk(W, cell, cid, bit, last, coinX, coinY, SumsOf(W.G, c).x)
    ensures SumsOf(W.G, c + [cell]) == Plus(W.G, SumsOf(W.G, c), cell)
    ensures last ==> Cong(Total(Xs(c + [cell])), bit, W.G.order)
  {
    hide Group.Com, Group.Mul, Prime, Cong;
    SumsOfTotals(W.G, c);
    assert (c + [cell])[..|c|] == c;
    assert Xs(c + [cell]) == Xs(c) + [cell.x];
    TotalAppend(Xs(c), cell.x);
    if last {
      LastShare(Total(Xs(c)), bit, W.G.order);
    }
  }

  /** The last share makes up for all others. */
  lemma LastShare(before: int, bit: int, order: int)
    requires order > 0
    ensures Cong(before + (bit - before) % order, bit, order)
  {
    hide Cong;
    CongReduce(bit - before, order);
    CongAdd((bit - before) % order, bit - before, before, before, order);
  }

  /** A column of cells, one for each teller served so far: every cell opens its own commitment, the shares are the
      coins drawn but for the last one, the blindings are coins throughout, and the running sums stand for exactly
      these cells. */
  ghost predicate ColumnIs<P(!new)>(W: World<P>, c: seq<Cell>, sums: Opening<P>, bit: nat, tellers: nat,
                                    coinX: nat -> nat -> nat -> nat, coinY: nat -> nat -> nat -> nat, j: nat, k: nat)
    requires W.G.order > 0
  {
    && sums == SumsOf(W.G, c)
    && (forall i :: 0 <= i < |c| ==> W.dec(c[i].z) == W.G.Com(c[i].x, c[i].y))
    && (forall i :: 0 <= i < |c| && i < tellers - 1 ==> c[i].x == coinX(i)(j)(k))
    && (forall i :: 0 <= i < |c| ==> c[i].y == coinY(i)(j)(k))
    && (|c| == tellers ==> Cong(Total(Xs(c)), bit, W.G.order))
  }

  lemma ColumnGrows<P(!new)>(W: World<P>, c: seq<Cell>, cell: Cell, sums: Opening<P>, cid: int, bit: nat, tellers: nat,
                             coinX: nat -> nat -> nat -> nat, coinY: nat -> nat -> nat -> nat, j: nat, k: nat)
    requires W.Valid() && ColumnIs(W, c, sums, bit, tellers, coinX, coinY, j, k) && |c| < tellers
    requires CellOk(W, cell, cid, bit, |c| == tellers - 1, coinX(|c|)(j)(k), coinY(|c|)(j)(k), sums.x)
    ensures ColumnIs(W, c + [cell], Plus(W.G, sums, cell), bit, tellers, coinX, coinY, j, k)
  {
    hide Group.Com, Group.Mul, Prime, Cong, SumsOf, Total;
    CellStep(W, c, cell, cid, bit, |c| == tellers - 1, coinX(|c|)(j)(k), coinY(|c|)(j)(k));
  }

  /** Candidate k of position j once some tellers have been served. */
  ghost predicate ColumnServed<P(!new)>(W: World<P>, pos: seq<Choice>, tellers: nat, coinX: nat -> nat -> nat -> nat,
                                        coinY: nat -> nat -> nat -> nat,
                                        commits: seq<seq<PosCells>>, now: seq<seq<Opening<P>>>, j: nat, k: nat)
    requires W.G.order > 0 && AllRowsFit(commits, pos) && Shaped(now, pos) && j < |pos| && k < |pos[j].cand|
  {
    ColumnIs(W, ColumnAt(commits, pos, j, k), now[j][k], Bit(pos[j], k), tellers, coinX, coinY, j, k)
  }

  ghost predicate Served<P(!new)>(W: World<P>, pos: seq<Choice>, tellers: nat, coinX: nat -> nat -> nat -> nat,
                                  coinY: nat -> nat -> nat -> nat,
                                  commits: seq<seq<PosCells>>, now: seq<seq<Opening<P>>>)
    requires W.G.order > 0
  {
    && AllRowsFit(commits, pos) && Shaped(now, pos)
    && forall j, k :: 0 <= j < |pos| && 0 <= k < |pos[j].cand| ==>
      ColumnServed(W, pos, tellers, coinX, coinY, commits, now, j, k)
  }

  lemma CommitFits<P(!new)>(W: World<P>, pos: seq<Choice>, last: bool, coinX: nat -> nat -> nat,
                            coinY: nat -> nat -> nat, commit: seq<PosCells>,
                            before: seq<seq<Opening<P>>>, after: seq<seq<Opening<P>>>)
    requires W.G.order > 0 && |commit| == |pos| && TellerShared(W, pos, last, coinX, coinY, commit, before, after)
    ensures Fits(commit, LayoutOf(pos))
  {
    forall j | 0 <= j < |pos| ensures RowFits(commit[j], LayoutOf(pos)[j]) {
      assert CellsShared(W, pos[j], last, coinX(j), coinY(j), commit[j].values, before[j], after[j]);
    }
  }

  lemma ColumnStep<P(!new)>(W: World<P>, pos: seq<Choice>, tellers: nat, coinX: nat -> nat -> nat -> nat,
                            coinY: nat -> nat -> nat -> nat,
                            commits: seq<seq<PosCells>>, commit: seq<PosCells>,
                            before: seq<seq<Opening<P>>>, after: seq<seq<Opening<P>>>, j: nat, k: nat)
    requires W.Valid() && Served(W, pos, tellers, coinX, coinY, commits, before) && |commits| < tellers
    requires Shaped(after, pos)
    requires |commit| == |pos|
    requires TellerShared(W, pos, |commits| == tellers - 1, coinX(|commits|), coinY(|commits|), commit, before, after)
    requires Fits(commit, LayoutOf(pos)) && AllRowsFit(commits + [commit], pos) && j < |pos| && k < |pos[j].cand|
    ensures ColumnServed(W, pos, tellers, coinX, coinY, commits + [commit], after, j, k)
  {
    hide Group.Com, Group.Mul, Prime, Cong, ColumnIs, CellOk;
    var i := |commits|;
    assert CellsShared(W, pos[j], i == tellers - 1, coinX(i)(j), coinY(i)(j), commit[j].values, before[j], after[j]);
    ColumnSnoc(commits, commit, pos, j, k);
    assert ColumnServed(W, pos, tellers, coinX, coinY, commits, before, j, k);
    ColumnGrows(W, ColumnAt(commits, pos, j, k), commit[j].values[k], before[j][k], pos[j].cand[k], Bit(pos[j], k),
                tellers,
                coinX, coinY, j, k);
  }

  lemma TellerStep<P(!new)>(W: World<P>, pos: seq<Choice>, tellers: nat, coinX: nat -> nat -> nat -> nat,
                            coinY: nat -> nat -> nat -> nat,
                            commits: seq<seq<PosCells>>, commit: seq<PosCells>,
                            before: seq<seq<Opening<P>>>, after: seq<seq<Opening<P>>>)
    requires W.Valid() && Served(W, pos, tellers, coinX, coinY, commits, before) && |commits| < tellers
    requires Shaped(after, pos)
    requires |commit| == |pos|
    requires TellerShared(W, pos, |commits| == tellers - 1, coinX(|commits|), coinY(|commits|), commit, before, after)
    ensures Served(W, pos, tellers, coinX, coinY, commits + [commit], after)
  {
    CommitFits(W, pos, |commits| == tellers - 1, coinX(|commits|), coinY(|commits|), commit, before, after);
    assert AllRowsFit(commits + [commit], pos);
    forall j, k | 0 <= j < |pos| && 0 <= k < |pos[j].cand|
      ensures ColumnServed(W, pos, tellers, coinX, coinY, commits + [commit], after, j, k)
    {
      ColumnStep(W, pos, tellers, coinX, coinY, commits, commit, before, after, j, k);
    }
  }

  method EmptySums<P(!new)>(W: World<P>, pos: seq<Choice>, ghost tellers: nat, ghost coinX: nat -> nat -> nat -> nat,
                            ghost coinY: nat -> nat -> nat -> nat)
    returns (sums: seq<seq<Sums<P>>>, ghost now: seq<seq<Opening<P>>>)
    requires W.Valid() && tellers >= 1
    ensures Shaped(sums, pos) && Apart(W.G, sums) && GridHolds(W.G, sums, now) && GridObjects(sums) == {}
    ensures Served(W, pos, tellers, coinX, coinY, [], now)
  {
    sums := seq(|pos|, j requires 0 <= j < |pos| => seq(|pos[j].cand|, k => Sums(null, null, null)));
    now := seq(|pos|, j requires 0 <= j < |pos| => seq(|pos[j].cand|, k => Opening(0, 0, W.G.zero)));
  }

  /** The share loops. All coins are arbitrary. */
  method GenerateShares<P(!new)>(W: World<P>, pos: seq<Choice>, tellers: nat,
                                 coinX: nat -> nat -> nat -> nat, coinY: nat -> nat -> nat -> nat)
    returns (commits: seq<seq<PosCells>>, sums: seq<seq<Sums<P>>>, ghost now: seq<seq<Opening<P>>>)
    requires W.Valid() && tellers >= 1
    ensures |commits| == tellers && Served(W, pos, tellers, coinX, coinY, commits, now)
    ensures Shaped(sums, pos) && GridHolds(W.G, sums, now) && forall j :: 0 <= j < |pos| ==> AllDefined(sums[j])
  {
    hide Served, TellerShared, Group.Com, Group.Mul, Prime;
    commits := [];
    sums, now := EmptySums(W, pos, tellers, coinX, coinY);
    for i := 0 to tellers
      invariant |commits| == i && Served(W, pos, tellers, coinX, coinY, commits, now)
      invariant Shaped(sums, pos) && Apart(W.G, sums) && GridHolds(W.G, sums, now) && fresh(GridObjects(sums))
      invariant i > 0 ==> forall j :: 0 <= j < |pos| ==> AllDefined(sums[j])
    {
      var commit;
      ghost var next;
      commit, sums, next := ShareTeller(W, pos, i == tellers - 1, coinX(i), coinY(i), sums, now);
      TellerStep(W, pos, tellers, coinX, coinY, commits, commit, now, next);
      commits := commits + [commit];
      now := next;
    }
  }

  // ----- The proofs -----

  /** The chosen id is a candidate and not negative, or it is negative and no candidate. The client relies on this:
      it looks for the id among the candidates, but reads off its sign whether anything was chosen at all. */
  predicate ChoiceOk(c: Choice) {
    c.cid in c.cand <==> c.cid >= 0
  }

  function PositionBit(c: Choice): nat {
    if c.cid >= 0 then 1 else 0
  }

  ghost function Bits(c: Choice): (r: seq<int>)
    ensures |r| == |c.cand| && forall k :: 0 <= k < |r| ==> r[k] == Bit(c, k)
  {
    seq(|c.cand|, k requires 0 <= k < |c.cand| => Bit(c, k))
  }

  lemma {:induction false} TotalOfChoice(c: Choice)
    requires Distinct(c.cand)
    ensures Total(Bits(c)) == if c.cid in c.cand then 1 else 0
  {
    var b := Bits(c);
    if c.cid in c.cand {
      var k :| 0 <= k < |c.cand| && c.cand[k] == c.cid;
      SingleOne(b, k);
    } else {
      TotalOfZeros(b);
    }
  }

  lemma {:induction false} SingleOne(b: seq<int>, k: nat)
    requires k < |b| && b[k] == 1 && forall m :: 0 <= m < |b| && m != k ==> b[m] == 0
    ensures Total(b) == 1
  {
    var n := |b| - 1;
    if k == n {
      TotalOfZeros(b[..n]);
    } else {
      SingleOne(b[..n], k);
    }
  }

  function Zs<P>(s: seq<Opening<P>>): (r: seq<P>)
    ensures |r| == |s| && forall k :: 0 <= k < |s| ==> r[k] == s[k].z
  {
    seq(|s|, k requires 0 <= k < |s| => s[k].z)
  }

  /** The sums of one position, each opening to its candidate's bit. */
  ghost predicate OpensToBits<P(!new)>(G: Group<P>, c: Choice, now: seq<Opening<P>>) {
    |now| == |c.cand| && forall k :: 0 <= k < |now| ==> now[k].z == G.Com(Bit(c, k), now[k].y)
  }

  /** Every candidate's proof is accepted. The position's proof is accepted if the choice makes sense,
      and otherwise only if the challenge half it answers kills g. */
  ghost predicate ProvesPosition<P(!new)>(G: Group<P>, hash: Hash<P>, c: Choice, sums: seq<P>, proofs: seq<Proof<P>>)
    requires G.order > 0
  {
    && |proofs| == |sums| + 1
    && (forall k :: 0 <= k < |sums| ==> Verifies(G, hash, proofs[k], sums[k]))
    && var last := proofs[|sums|];
       Distinct(c.cand) ==>
         (Verifies(G, hash, last, G.Sum(sums))
         <==> ChoiceOk(c) || G.Mul(Answered(last, PositionBit(c)), G.g) == G.zero)
  }

  function Blindings<P>(s: seq<Opening<P>>): (r: seq<int>)
    ensures |r| == |s| && forall k :: 0 <= k < |r| ==> r[k] == s[k].y
  {
    seq(|s|, k requires 0 <= k < |s| => s[k].y)
  }

  lemma PositionOpens<P(!new)>(G: Group<P>, c: Choice, sums: seq<Opening<P>>)
    requires G.Valid() && OpensToBits(G, c, sums) && Distinct(c.cand)
    ensures G.Sum(Zs(sums))
         == G.Com(if ChoiceOk(c) then PositionBit(c) else 1 - PositionBit(c), Total(Blindings(sums)))
  {
    SumOfCommitments(G, Zs(sums), Bits(c), Blindings(sums));
    TotalOfChoice(c);
  }

  /** The sums are only read from here on. */
  method ReadSums<P(!new)>(G: Group<P>, row: seq<Sums<P>>, ghost now: seq<Opening<P>>) returns (v: seq<Opening<P>>)
    requires AllDefined(row) && Holds(G, row, now)
    ensures v == now
  {
    v := [];
    for k := 0 to |row|
      invariant v == now[..k]
    {
      v := v + [Opening(row[k].x.num, row[k].y.num, row[k].z.point)];
      assert Value(G, row[k]) == now[k];
    }
  }

  /** One proof per candidate and one for their sum. */
  method ProvePosition<P(!new)>(G: Group<P>, hash: Hash<P>, c: Choice, sums: seq<Opening<P>>,
                                coins: nat -> (nat, nat, nat))
    returns (proofs: seq<Proof<P>>)
    requires G.Valid() && OpensToBits(G, c, sums)
    ensures ProvesPosition(G, hash, c, Zs(sums), proofs)
  {
    hide Verifies, Group.Com, Group.Mul, Cong;
    proofs := [];
    var curSumY, curSumZ := 0, G.zero;
    ghost var ys, zs := Blindings(sums), Zs(sums);
    for k := 0 to |sums|
      invariant |proofs| == k && forall m :: 0 <= m < k ==> Verifies(G, hash, proofs[m], zs[m])
      invariant curSumY == Total(ys[..k]) && curSumZ == G.Sum(zs[..k])
    {
      var y, z, coin := sums[k].y, sums[k].z, coins(k);
      var p := Prove(G, hash, z, y, Bit(c, k), coin.0, coin.1, coin.2);
      proofs := proofs + [p];
      assert ys[..k + 1][..k] == ys[..k] && zs[..k + 1][..k] == zs[..k];
      curSumY, curSumZ := curSumY + y, G.add(curSumZ, z);
    }
    assert ys[..|sums|] == ys && zs[..|sums|] == zs;
    if Distinct(c.cand) {
      PositionOpens(G, c, sums);
    }
    var coin := coins(|sums|);
    var p := Prove(G, hash, curSumZ, curSumY, PositionBit(c), coin.0, coin.1, coin.2);
    proofs := proofs + [p];
  }

  // ----- The vote as sent -----

  function Points<P(!new)>(W: World<P>, c: seq<Cell>): (r: seq<P>)
    ensures |r| == |c| && forall i :: 0 <= i < |c| ==> r[i] == W.dec(c[i].z)
  {
    seq(|c|, i requires 0 <= i < |c| => W.dec(c[i].z))
  }

  lemma {:induction false} SumsOfPoints<P(!new)>(W: World<P>, c: seq<Cell>)
    requires forall i :: 0 <= i < |c| ==> W.dec(c[i].z) == W.G.Com(c[i].x, c[i].y)
    ensures SumsOf(W.G, c).z == W.G.Sum(Points(W, c))
  {
    var n := |c| - 1;
    if n >= 0 {
      SumsOfPoints(W, c[..n]);
      assert Points(W, c)[..n] == Points(W, c[..n]);
    }
  }

  /** The products of the tellers' commitments, candidate by candidate. */
  ghost function Products<P(!new)>(W: World<P>, pos: seq<Choice>, commits: seq<seq<PosCells>>, j: nat): (r: seq<P>)
    requires AllRowsFit(commits, pos) && j < |pos|
    ensures |r| == |pos[j].cand|
    ensures forall k :: 0 <= k < |r| ==> r[k] == W.G.Sum(Points(W, ColumnAt(commits, pos, j, k)))
  {
    seq(|pos[j].cand|, k requires 0 <= k < |pos[j].cand| => W.G.Sum(Points(W, ColumnAt(commits, pos, j, k))))
  }

  lemma ServedColumn<P(!new)>(W: World<P>, pos: seq<Choice>, coinX: nat -> nat -> nat -> nat,
                              coinY: nat -> nat -> nat -> nat,
                              commits: seq<seq<PosCells>>, now: seq<seq<Opening<P>>>, j: nat, k: nat)
    requires W.Valid() && Served(W, pos, |commits|, coinX, coinY, commits, now) && j < |pos| && k < |pos[j].cand|
    ensures HonestColumn(W, ColumnAt(commits, pos, j, k), Bit(pos[j], k))
    ensures now[j][k].z == W.G.Sum(Points(W, ColumnAt(commits, pos, j, k)))
    ensures now[j][k].z == W.G.Com(Bit(pos[j], k), now[j][k].y)
  {
    assert ColumnServed(W, pos, |commits|, coinX, coinY, commits, now, j, k);
    var c := ColumnAt(commits, pos, j, k);
    SumsOfPoints(W, c);
    SumsOfTotals(W.G, c);
    ComCong(W.G, Total(Xs(c)), Total(Ys(c)), Bit(pos[j], k), Total(Ys(c)));
  }

  lemma ServedHonest<P(!new)>(W: World<P>, pos: seq<Choice>, coinX: nat -> nat -> nat -> nat,
                              coinY: nat -> nat -> nat -> nat,
                              commits: seq<seq<PosCells>>, now: seq<seq<Opening<P>>>)
    requires W.Valid() && Served(W, pos, |commits|, coinX, coinY, commits, now)
    ensures HonestShares(W, pos, commits)
    ensures forall j :: 0 <= j < |pos| ==>
      OpensToBits(W.G, pos[j], now[j]) && Zs(now[j]) == Products(W, pos, commits, j)
  {
    forall j, k | 0 <= j < |pos| && 0 <= k < |pos[j].cand|
      ensures HonestColumn(W, ColumnAt(commits, pos, j, k), Bit(pos[j], k))
      ensures now[j][k].z == W.G.Com(Bit(pos[j], k), now[j][k].y)
      ensures Zs(now[j])[k] == Products(W, pos, commits, j)[k]
    {
      ServedColumn(W, pos, coinX, coinY, commits, now, j, k);
    }
  }

  /** Shares that open, add up to the choice, and come with proofs of both. */
  ghost predicate HonestBallot<P(!new)>(W: World<P>, pos: seq<Choice>, commits: seq<seq<PosCells>>,
                                        proofs: seq<seq<Proof<P>>>)
    requires W.G.order > 0
  {
    && HonestShares(W, pos, commits)
    && |proofs| == |pos|
    && forall j :: 0 <= j < |pos| ==> ProvesPosition(W.G, W.hash, pos[j], Products(W, pos, commits, j), proofs[j])
  }

  /** All the proofs, from the sums the share loops left behind. */
  method GenerateProofs<P(!new)>(W: World<P>, pos: seq<Choice>, sums: seq<seq<Sums<P>>>,
                                 ghost now: seq<seq<Opening<P>>>,
                                 coins: nat -> nat -> (nat, nat, nat))
    returns (proofs: seq<seq<Proof<P>>>)
    requires W.Valid() && Shaped(sums, pos) && GridHolds(W.G, sums, now)
    requires forall j :: 0 <= j < |pos| ==> AllDefined(sums[j])
    requires forall j :: 0 <= j < |pos| ==> OpensToBits(W.G, pos[j], now[j])
    ensures |proofs| == |pos|
    ensures forall j :: 0 <= j < |pos| ==> ProvesPosition(W.G, W.hash, pos[j], Zs(now[j]), proofs[j])
  {
    hide ProvesPosition, OpensToBits;
    proofs := [];
    for j := 0 to |pos|
      invariant |proofs| == j && GridHolds(W.G, sums, now)
      invariant forall m :: 0 <= m < j ==> ProvesPosition(W.G, W.hash, pos[m], Zs(now[m]), proofs[m])
    {
      var read := ReadSums(W.G, sums[j], now[j]);
      var p := ProvePosition(W.G, W.hash, pos[j], read, coins(j));
      proofs := proofs + [p];
    }
  }

  /** The coins drawn are the shares, but for the last teller's, and the blindings. */
  ghost predicate CoinsUsed(pos: seq<Choice>, commits: seq<seq<PosCells>>, coinX: nat -> nat -> nat -> nat,
                            coinY: nat -> nat -> nat -> nat)
    requires AllRowsFit(commits, pos)
  {
    forall i, j, k :: 0 <= i < |commits| && 0 <= j < |pos| && 0 <= k < |pos[j].cand| ==>
      && (i < |commits| - 1 ==> ColumnAt(commits, pos, j, k)[i].x == coinX(i)(j)(k))
      && ColumnAt(commits, pos, j, k)[i].y == coinY(i)(j)(k)
  }

  lemma ServedCoins<P(!new)>(W: World<P>, pos: seq<Choice>, coinX: nat -> nat -> nat -> nat,
                             coinY: nat -> nat -> nat -> nat,
                             commits: seq<seq<PosCells>>, now: seq<seq<Opening<P>>>)
    requires W.G.order > 0 && Served(W, pos, |commits|, coinX, coinY, commits, now)
    ensures CoinsUsed(pos, commits, coinX, coinY)
  {
    hide SumsOf, Total, Cong, Group.Com, Group.Mul;
    forall i, j, k | 0 <= i < |commits| && 0 <= j < |pos| && 0 <= k < |pos[j].cand|
      ensures i < |commits| - 1 ==> ColumnAt(commits, pos, j, k)[i].x == coinX(i)(j)(k)
      ensures ColumnAt(commits, pos, j, k)[i].y == coinY(i)(j)(k)
    {
      assert ColumnServed(W, pos, |commits|, coinX, coinY, commits, now, j, k);
    }
  }

  /** All coins, and the hash, are arbitrary. */
  method GenerateVote<P(!new)>(W: World<P>, pos: seq<Choice>, tellers: nat,
                               coinX: nat -> nat -> nat -> nat, coinY: nat -> nat -> nat -> nat,
                               proofCoins: nat -> nat -> (nat, nat, nat))
    returns (commits: seq<seq<PosCells>>, proofs: seq<seq<Proof<P>>>)
    requires W.Valid() && tellers >= 1
    ensures |commits| == tellers && HonestBallot(W, pos, commits, proofs)
    ensures CoinsUsed(pos, commits, coinX, coinY)
  {
    hide Served, ProvesPosition, OpensToBits, HonestShares, CoinsUsed;
    var sums;
    ghost var now;
    commits, sums, now := GenerateShares(W, pos, tellers, coinX, coinY);
    ServedHonest(W, pos, coinX, coinY, commits, now);
    ServedCoins(W, pos, coinX, coinY, commits, now);
    proofs := GenerateProofs(W, pos, sums, now, proofCoins);
  }
}

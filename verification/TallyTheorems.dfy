/** What the tally means: from the votes cast to the published sum, and back. */
module TallyTheorems {
  import opened ModArith
  import opened Groups
  import opened Ballots
  import opened ShareGeneration
  import opened VoteServers
  import opened Tally
  import opened TellerTally
  import opened BoardTally
  import opened VoteTheorems

  // ----- One teller's shares, ballot by ballot -----

  ghost predicate AllFitLayout(datas: seq<seq<PosShares>>, layout: seq<Position>) {
    forall b :: 0 <= b < |datas| ==> CountFits(datas[b], layout)
  }

  ghost function DataXs(datas: seq<seq<PosShares>>, layout: seq<Position>, j: nat, k: nat): (r: seq<int>)
    requires AllFitLayout(datas, layout) && j < |layout| && k < |layout[j].cand|
    ensures |r| == |datas| && forall b :: 0 <= b < |r| ==> r[b] == CountCell(datas[b], layout, j, k).x
  {
    seq(|datas|, b requires 0 <= b < |datas| => CountCell(datas[b], layout, j, k).x)
  }

  ghost function DataYs(datas: seq<seq<PosShares>>, layout: seq<Position>, j: nat, k: nat): (r: seq<int>)
    requires AllFitLayout(datas, layout) && j < |layout| && k < |layout[j].cand|
    ensures |r| == |datas| && forall b :: 0 <= b < |r| ==> r[b] == CountCell(datas[b], layout, j, k).y
  {
    seq(|datas|, b requires 0 <= b < |datas| => CountCell(datas[b], layout, j, k).y)
  }

  /** The total of exactly these shares, reduced. */
  ghost predicate CountedFrom(order: nat, count: seq<PosShares>, layout: seq<Position>, datas: seq<seq<PosShares>>)
    requires order > 0 && AllFitLayout(datas, layout)
  {
    && CountFits(count, layout)
    && forall j, k :: 0 <= j < |layout| && 0 <= k < |layout[j].cand| ==>
      && CountCell(count, layout, j, k).x == Total(DataXs(datas, layout, j, k)) % order
      && CountCell(count, layout, j, k).y == Total(DataYs(datas, layout, j, k)) % order
  }

  /** at finds, for every vote the file names, the row that stores it. */
  ghost predicate Locates(rows: seq<Row>, picks: seq<Key>, at: seq<nat>) {
    |at| == |picks| && forall b :: 0 <= b < |at| ==> at[b] < |rows| && rows[at[b]].Id() == picks[b]
  }

  ghost function DataOf(rows: seq<Row>, at: seq<nat>): (datas: seq<seq<PosShares>>)
    requires forall b :: 0 <= b < |at| ==> at[b] < |rows|
    ensures |datas| == |at| && forall b :: 0 <= b < |at| ==> datas[b] == rows[at[b]].data
  {
    seq(|at|, b requires 0 <= b < |at| => rows[at[b]].data)
  }

  /** The sum over the marked rows of the table is the sum over the votes in the order of the file. */
  lemma {:induction false} MarkedTotals(rows: seq<Row>, layout: seq<Position>, picks: seq<Key>, at: seq<nat>, j: nat,
                                        k: nat)
    requires Keyed(rows) && RowsFit(rows, layout) && GoodPicks(rows, picks) && Locates(rows, picks, at)
    requires forall a :: 0 <= a < |rows| ==> !rows[a].isSum
    requires j < |layout| && k < |layout[j].cand|
    ensures AllFitLayout(DataOf(rows, at), layout) && RowsFit(Marked(rows, picks), layout)
    ensures Total(SummedXs(Marked(rows, picks), layout, j, k)) == Total(DataXs(DataOf(rows, at), layout, j, k))
    ensures Total(SummedYs(Marked(rows, picks), layout, j, k)) == Total(DataYs(DataOf(rows, at), layout, j, k))
  {
    var n := |picks| - 1;
    assert RowsFit(Marked(rows, picks), layout);
    if n < 0 {
      TotalOfZeros(SummedXs(Marked(rows, picks), layout, j, k));
      TotalOfZeros(SummedYs(Marked(rows, picks), layout, j, k));
    } else {
      hide GoodPicks, Keyed, CountFits;
      assert picks[..n] + [picks[n]] == picks;
      GoodPrefix(rows, picks[..n], [picks[n]]);
      MarkedTotals(rows, layout, picks[..n], at[..n], j, k);
      MarkedStep(rows, layout, picks, at[n], j, k);
      DataStep(rows, layout, at, j, k);
    }
  }

  lemma MarkedStep(rows: seq<Row>, layout: seq<Position>, picks: seq<Key>, a: nat, j: nat, k: nat)
    requires Keyed(rows) && RowsFit(rows, layout) && GoodPicks(rows, picks) && picks != []
    requires a < |rows| && rows[a].Id() == picks[|picks| - 1] && forall a :: 0 <= a < |rows| ==> !rows[a].isSum
    requires j < |layout| && k < |layout[j].cand|
    ensures RowsFit(Marked(rows, picks), layout) && RowsFit(Marked(rows, picks[..|picks| - 1]), layout)
    ensures var before, c := Marked(rows, picks[..|picks| - 1]), CountCell(rows[a].data, layout, j, k);
      && Total(SummedXs(Marked(rows, picks), layout, j, k)) == Total(SummedXs(before, layout, j, k)) + c.x
      && Total(SummedYs(Marked(rows, picks), layout, j, k)) == Total(SummedYs(before, layout, j, k)) + c.y
  {
    var marked, before := Marked(rows, picks), Marked(rows, picks[..|picks| - 1]);
    LastPick(rows, picks, a);
    hide GoodPicks, Keyed, CountFits;
    var c := CountCell(rows[a].data, layout, j, k);
    assert SummedXs(marked, layout, j, k) == SummedXs(before, layout, j, k)[a := c.x];
    assert SummedYs(marked, layout, j, k) == SummedYs(before, layout, j, k)[a := c.y];
    TotalUpdate(SummedXs(before, layout, j, k), a, c.x);
    TotalUpdate(SummedYs(before, layout, j, k), a, c.y);
  }

  lemma DataStep(rows: seq<Row>, layout: seq<Position>, at: seq<nat>, j: nat, k: nat)
    requires RowsFit(rows, layout) && at != [] && (forall b :: 0 <= b < |at| ==> at[b] < |rows|)
    requires j < |layout| && k < |layout[j].cand|
    ensures AllFitLayout(DataOf(rows, at), layout) && AllFitLayout(DataOf(rows, at[..|at| - 1]), layout)
    ensures var before, c := DataOf(rows, at[..|at| - 1]), CountCell(rows[at[|at| - 1]].data, layout, j, k);
      && Total(DataXs(DataOf(rows, at), layout, j, k)) == Total(DataXs(before, layout, j, k)) + c.x
      && Total(DataYs(DataOf(rows, at), layout, j, k)) == Total(DataYs(before, layout, j, k)) + c.y
  {
    var n, datas := |at| - 1, DataOf(rows, at);
    assert DataOf(rows, at[..n]) == datas[..n];
    assert DataXs(datas, layout, j, k)[..n] == DataXs(datas[..n], layout, j, k);
    assert DataYs(datas, layout, j, k)[..n] == DataYs(datas[..n], layout, j, k);
  }

  lemma LastPick(rows: seq<Row>, picks: seq<Key>, a: nat)
    requires Keyed(rows) && picks != [] && GoodPicks(rows, picks) && a < |rows| && rows[a].Id() == picks[|picks| - 1]
    requires forall a :: 0 <= a < |rows| ==> !rows[a].isSum
    ensures !Marked(rows, picks[..|picks| - 1])[a].isSum
    ensures Marked(rows, picks) == Marked(rows, picks[..|picks| - 1])[a := rows[a].(isSum := true)]
  {
    var some := picks[..|picks| - 1];
    assert picks[|picks| - 1] !in some;
    forall m | 0 <= m < |rows| && m != a ensures rows[m].Id() in picks <==> rows[m].Id() in some {
      assert rows[m].Id() != rows[a].Id();
      assert picks == some + [picks[|picks| - 1]];
    }
  }

  /** A committed total counts exactly the votes of the file. */
  lemma TallyCounts(order: nat, rows: seq<Row>, layout: seq<Position>, picks: seq<Key>, at: seq<nat>,
                    count: seq<PosShares>)
    requires order > 0 && Keyed(rows) && RowsFit(rows, layout) && GoodPicks(rows, picks) && Locates(rows, picks, at)
    requires forall a :: 0 <= a < |rows| ==> !rows[a].isSum
    requires RowsFit(Marked(rows, picks), layout) && CountIs(order, count, layout, Marked(rows, picks))
    ensures AllFitLayout(DataOf(rows, at), layout) && CountedFrom(order, count, layout, DataOf(rows, at))
  {
    forall b | 0 <= b < |at| ensures CountFits(DataOf(rows, at)[b], layout) {
    }
    forall j, k | 0 <= j < |layout| && 0 <= k < |layout[j].cand|
      ensures CountCell(count, layout, j, k).x == Total(DataXs(DataOf(rows, at), layout, j, k)) % order
      ensures CountCell(count, layout, j, k).y == Total(DataYs(DataOf(rows, at), layout, j, k)) % order
    {
      MarkedTotals(rows, layout, picks, at, j, k);
    }
  }

  // ----- Binding: what a total that passes must be -----

  /** The commitments at place i of every ballot are those that teller i accepted, with the shares it kept. */
  ghost predicate OpensFile<P(!new)>(W: World<P>, layout: seq<Position>, tellers: nat, file: seq<FileLine>, i: nat,
                                     datas: seq<seq<PosShares>>)
    requires FileReaches(file, layout, tellers)
  {
    && |datas| == |file| && AllFitLayout(datas, layout)
    && forall b, j, k :: 0 <= b < |file| && 0 <= j < |layout| && 0 <= k < |layout[j].cand| ==>
      Factors(W, layout, tellers, file, i, j, k)[b]
        == W.G.Com(CountCell(datas[b], layout, j, k).x, CountCell(datas[b], layout, j, k).y)
  }

  /** It is enough that the ballots carry, at place i, the very commitments that teller i checked before it signed
      them. */
  lemma AcceptedOpens<P(!new)>(W: World<P>, layout: seq<Position>, authPub: string, tellers: nat,
                               file: seq<FileLine>, i: nat,
                               votes: seq<TellerVote>, datas: seq<seq<PosShares>>)
    requires FileReaches(file, layout, tellers) && |votes| == |datas| == |file|
    requires forall b :: 0 <= b < |file| ==>
      && file[b].Read? && i < |file[b].zs| && file[b].zs[i].val == Strip(votes[b].commits)
      && TellerAccepts(W, layout, authPub, votes[b]) && AllSharesOf(datas[b], votes[b].commits)
    ensures OpensFile(W, layout, tellers, file, i, datas)
  {
    hide LinkOk;
    forall b | 0 <= b < |file| ensures CountFits(datas[b], layout) {
      forall j | 0 <= j < |layout| ensures CountRowFits(datas[b][j], layout[j]) {
        assert RowOk(W, layout[j], votes[b].commits[j]) && SharesOf(datas[b][j], votes[b].commits[j]);
      }
    }
    forall b, j, k | 0 <= b < |file| && 0 <= j < |layout| && 0 <= k < |layout[j].cand|
      ensures Factors(W, layout, tellers, file, i, j, k)[b]
           == W.G.Com(CountCell(datas[b], layout, j, k).x, CountCell(datas[b], layout, j, k).y)
    {
      assert RowOk(W, layout[j], votes[b].commits[j]) && SharesOf(datas[b][j], votes[b].commits[j]);
      assert CellOpens(W, votes[b].commits[j].values[k]);
    }
  }

  /** A total that passes the board's check is the sum of the shares that teller accepted, in every cell; or the two
      numbers give away a dependency between g and h. */
  lemma TotalBound<P(!new)>(W: World<P>, layout: seq<Position>, tellers: nat, file: seq<FileLine>, i: nat,
                            datas: seq<seq<PosShares>>, count: seq<PosShares>, j: nat, k: nat)
    requires W.Valid() && FileReaches(file, layout, tellers) && OpensFile(W, layout, tellers, file, i, datas)
    requires CountFits(count, layout) && TotalPasses(W, layout, tellers, file, i, count)
    requires j < |layout| && k < |layout[j].cand|
    ensures var c := CountCell(count, layout, j, k);
      var x, y := Total(DataXs(datas, layout, j, k)), Total(DataYs(datas, layout, j, k));
      (Cong(c.x, x, W.G.order) && Cong(c.y, y, W.G.order)) || W.G.Relation(c.x - x, c.y - y)
  {
    var c := CountCell(count, layout, j, k);
    TallyBinding(W.G, DataXs(datas, layout, j, k), DataYs(datas, layout, j, k),
                 Factors(W, layout, tellers, file, i, j, k), c.x, c.y);
  }

  /** The total of the accepted shares passes. */
  lemma HonestTotalPasses<P(!new)>(W: World<P>, layout: seq<Position>, tellers: nat, file: seq<FileLine>, i: nat,
                                   datas: seq<seq<PosShares>>, count: seq<PosShares>)
    requires W.Valid() && FileReaches(file, layout, tellers) && OpensFile(W, layout, tellers, file, i, datas)
    requires CountedFrom(W.G.order, count, layout, datas)
    ensures TotalPasses(W, layout, tellers, file, i, count)
  {
    forall j, k | 0 <= j < |layout| && 0 <= k < |layout[j].cand|
      ensures var c := CountCell(count, layout, j, k); Passes(W.G, c.x, c.y, Factors(W, layout, tellers, file, i, j, k))
    {
      TallyPasses(W.G, DataXs(datas, layout, j, k), DataYs(datas, layout, j, k),
                  Factors(W, layout, tellers, file, i, j, k));
    }
  }

  // ----- Publication implies public verifiability -----

  /** All tellers' contributions of one ballot at one cell. */
  ghost function BallotFactors<P(!new)>(W: World<P>, layout: seq<Position>, tellers: nat, line: FileLine, j: nat,
                                        k: nat): (r: seq<P>)
    requires LineReaches(line, layout, tellers) && j < |layout| && k < |layout[j].cand|
    ensures |r| == tellers && forall i :: 0 <= i < tellers ==> r[i] == Factor(W, layout, line, i, j, k)
  {
    seq(tellers, i requires 0 <= i < tellers => Factor(W, layout, line, i, j, k))
  }

  /** The ballots' own products, one per line. */
  ghost function LineSums<P(!new)>(W: World<P>, layout: seq<Position>, tellers: nat, file: seq<FileLine>, j: nat,
                                   k: nat): (r: seq<P>)
    requires FileReaches(file, layout, tellers) && j < |layout| && k < |layout[j].cand|
    ensures |r| == |file| && forall b :: 0 <= b < |r| ==>
      LineReaches(file[b], layout, tellers) && r[b] == W.G.Sum(BallotFactors(W, layout, tellers, file[b], j, k))
  {
    assert forall b :: 0 <= b < |file| ==> LineReaches(file[b], layout, tellers);
    seq(|file|, b requires 0 <= b < |file| =>
      assert LineReaches(file[b], layout, tellers); W.G.Sum(BallotFactors(W, layout, tellers, file[b], j, k)))
  }

  /** Every published pair opens the product of all commitments in the file, taken ballot by ballot. */
  ghost predicate SummationPasses<P(!new)>(W: World<P>, layout: seq<Position>, tellers: nat, file: seq<FileLine>,
                                           out: seq<PosShares>)
    requires FileReaches(file, layout, tellers) && CountFits(out, layout)
  {
    forall j, k :: 0 <= j < |layout| && 0 <= k < |layout[j].cand| ==>
      Passes(W.G, CountCell(out, layout, j, k).x, CountCell(out, layout, j, k).y,
             LineSums(W, layout, tellers, file, j, k))
  }

  /** If every teller's total passes against its own commitments, the published sums pass against all of them: the
      double product over ballots and tellers may be taken either way, and reduction modulo the order does not change
      it. */
  lemma PublicationVerifies<P(!new)>(W: World<P>, layout: seq<Position>, file: seq<FileLine>,
                                     counts: seq<seq<PosShares>>,
                                     out: seq<PosShares>)
    requires W.Valid() && FileReaches(file, layout, |counts|) && AllCountsFit(counts, layout)
    requires forall i :: 0 <= i < |counts| ==> TotalPasses(W, layout, |counts|, file, i, counts[i])
    requires SummationIs(W.G.order, out, layout, counts)
    ensures SummationPasses(W, layout, |counts|, file, out)
  {
    hide LineReaches;
    forall j, k | 0 <= j < |layout| && 0 <= k < |layout[j].cand|
      ensures var c := CountCell(out, layout, j, k); Passes(W.G, c.x, c.y, LineSums(W, layout, |counts|, file, j, k))
    {
      CellVerifies(W, layout, file, counts, j, k);
    }
  }

  lemma CellVerifies<P(!new)>(W: World<P>, layout: seq<Position>, file: seq<FileLine>, counts: seq<seq<PosShares>>,
                              j: nat, k: nat)
    requires W.Valid() && FileReaches(file, layout, |counts|) && AllCountsFit(counts, layout)
    requires forall i :: 0 <= i < |counts| ==> TotalPasses(W, layout, |counts|, file, i, counts[i])
    requires j < |layout| && k < |layout[j].cand|
    ensures var x, y := Total(TotalXs(counts, layout, j, k)), Total(TotalYs(counts, layout, j, k));
      Passes(W.G, x % W.G.order, y % W.G.order, LineSums(W, layout, |counts|, file, j, k))
  {
    var t := |counts|;
    assert forall b :: 0 <= b < |file| ==> LineReaches(file[b], layout, t);
    var zs := seq(|file|, b requires 0 <= b < |file| =>
      assert LineReaches(file[b], layout, t); BallotFactors(W, layout, t, file[b], j, k));
    forall i | 0 <= i < t
      ensures Passes(W.G, TotalXs(counts, layout, j, k)[i], TotalYs(counts, layout, j, k)[i], Column(zs, i))
    {
      assert TotalPasses(W, layout, t, file, i, counts[i]);
      assert Column(zs, i) == Factors(W, layout, t, file, i, j, k);
    }
    PublishedPasses(W.G, zs, TotalXs(counts, layout, j, k), TotalYs(counts, layout, j, k));
    assert RowSums(W.G, zs) == LineSums(W, layout, t, file, j, k);
  }

  // ----- Conservation, from the voters' choices to the published numbers -----

  /** How many voters chose candidate c at position j. */
  function VotesFor(choices: seq<seq<Choice>>, j: nat, c: int): nat
    requires forall b :: 0 <= b < |choices| ==> j < |choices[b]|
  {
    if choices == [] then 0 else
      var n := |choices| - 1;
      VotesFor(choices[..n], j, c) + if choices[n][j].cid == c then 1 else 0
  }

  /** All voters used the client on the same layout; commits[b][i] is what voter b sent to teller i. */
  ghost predicate HonestVotes<P(!new)>(W: World<P>, layout: seq<Position>, tellers: nat, choices: seq<seq<Choice>>,
                                       commits: seq<seq<seq<PosCells>>>)
    requires W.G.order > 0
  {
    && |choices| == |commits|
    && forall b :: 0 <= b < |choices| ==>
      LayoutOf(choices[b]) == layout && |commits[b]| == tellers && HonestShares(W, choices[b], commits[b])
  }

  /** Teller i kept, for every vote, the shares it was sent. */
  ghost predicate Kept(datas: seq<seq<PosShares>>, commits: seq<seq<seq<PosCells>>>, i: nat) {
    |datas| == |commits| && forall b :: 0 <= b < |commits| ==> i < |commits[b]| && AllSharesOf(datas[b], commits[b][i])
  }

  lemma KeptFits<P(!new)>(W: World<P>, layout: seq<Position>, tellers: nat, choices: seq<seq<Choice>>,
                          commits: seq<seq<seq<PosCells>>>, datas: seq<seq<PosShares>>, i: nat)
    requires W.G.order > 0 && HonestVotes(W, layout, tellers, choices, commits) && i < tellers
    requires Kept(datas, commits, i)
    ensures AllFitLayout(datas, layout)
    ensures forall b, j, k :: 0 <= b < |datas| && 0 <= j < |layout| && 0 <= k < |layout[j].cand| ==>
      CellKept(choices[b], commits[b], datas[b], layout, i, j, k)
  {
    hide HonestColumn;
    forall b | 0 <= b < |datas|
      ensures CountFits(datas[b], layout)
      ensures forall j, k :: 0 <= j < |layout| && 0 <= k < |layout[j].cand| ==>
        CellKept(choices[b], commits[b], datas[b], layout, i, j, k)
    {
      OneKeptFits(choices[b], commits[b], datas[b], layout, i);
    }
  }

  ghost predicate CellKept(pos: seq<Choice>, commits: seq<seq<PosCells>>, data: seq<PosShares>,
                           layout: seq<Position>, i: nat, j: nat, k: nat)
    requires CountFits(data, layout) && j < |layout| && k < |layout[j].cand|
  {
    && LayoutOf(pos) == layout && AllRowsFit(commits, pos) && i < |commits|
    && CountCell(data, layout, j, k).x == ColumnAt(commits, pos, j, k)[i].x
    && CountCell(data, layout, j, k).y == ColumnAt(commits, pos, j, k)[i].y
  }

  lemma OneKeptFits(pos: seq<Choice>, commits: seq<seq<PosCells>>, data: seq<PosShares>, layout: seq<Position>, i: nat)
    requires LayoutOf(pos) == layout && AllRowsFit(commits, pos) && i < |commits| && AllSharesOf(data, commits[i])
    ensures CountFits(data, layout)
    ensures forall j, k :: 0 <= j < |layout| && 0 <= k < |layout[j].cand| ==>
      CellKept(pos, commits, data, layout, i, j, k)
  {
    assert Fits(commits[i], layout);
    forall j | 0 <= j < |layout| ensures CountRowFits(data[j], layout[j]) {
      assert RowFits(commits[i][j], layout[j]) && SharesOf(data[j], commits[i][j]);
    }
    forall j, k | 0 <= j < |layout| && 0 <= k < |layout[j].cand| ensures CellKept(pos, commits, data, layout, i, j, k) {
      assert RowFits(commits[i][j], layout[j]) && SharesOf(data[j], commits[i][j]);
    }
  }

  /** Voter b's share for teller i at one cell. */
  ghost function ShareMatrix<P(!new)>(W: World<P>, layout: seq<Position>, tellers: nat, choices: seq<seq<Choice>>,
                                      commits: seq<seq<seq<PosCells>>>, j: nat, k: nat): (m: seq<seq<int>>)
    requires W.G.order > 0 && HonestVotes(W, layout, tellers, choices, commits) && j < |layout| && k < |layout[j].cand|
    ensures |m| == |choices| && IsMatrix(m, tellers)
    ensures forall b :: 0 <= b < |m| ==>
      AllRowsFit(commits[b], choices[b]) && m[b] == Xs(ColumnAt(commits[b], choices[b], j, k))
  {
    seq(|choices|, b requires 0 <= b < |choices| => Xs(ColumnAt(commits[b], choices[b], j, k)))
  }

  ghost function BitColumn(choices: seq<seq<Choice>>, layout: seq<Position>, j: nat, k: nat): (r: seq<int>)
    requires forall b :: 0 <= b < |choices| ==> LayoutOf(choices[b]) == layout
    requires j < |layout| && k < |layout[j].cand|
    ensures |r| == |choices| && forall b :: 0 <= b < |r| ==> r[b] == BitAt(choices[b], layout, j, k)
  {
    seq(|choices|, b requires 0 <= b < |choices| => BitAt(choices[b], layout, j, k))
  }

  ghost function BitAt(pos: seq<Choice>, layout: seq<Position>, j: nat, k: nat): nat
    requires LayoutOf(pos) == layout && j < |layout| && k < |layout[j].cand|
  {
    assert layout[j] == PositionOf(pos[j]);
    Bit(pos[j], k)
  }

  lemma {:induction false} BitsAreVotes(choices: seq<seq<Choice>>, layout: seq<Position>, j: nat, k: nat)
    requires forall b :: 0 <= b < |choices| ==> LayoutOf(choices[b]) == layout
    requires j < |layout| && k < |layout[j].cand|
    ensures Total(BitColumn(choices, layout, j, k)) == VotesFor(choices, j, layout[j].cand[k])
  {
    var n := |choices| - 1;
    if n >= 0 {
      BitsAreVotes(choices[..n], layout, j, k);
      assert BitColumn(choices, layout, j, k)[..n] == BitColumn(choices[..n], layout, j, k);
      assert LayoutOf(choices[n])[j].cand == choices[n][j].cand;
    }
  }

  /** The published number of every candidate is the number of voters who chose it: for every layout, any number of
      tellers, all coins, and any list of votes shorter than the group order. */
  lemma EndToEnd<P(!new)>(W: World<P>, layout: seq<Position>, tellers: nat, choices: seq<seq<Choice>>,
                          commits: seq<seq<seq<PosCells>>>, datas: seq<seq<seq<PosShares>>>,
                          counts: seq<seq<PosShares>>,
                          out: seq<PosShares>, j: nat, k: nat)
    requires W.Valid() && HonestVotes(W, layout, tellers, choices, commits) && |choices| < W.G.order
    requires |datas| == |counts| == tellers
    requires forall i :: 0 <= i < tellers ==>
      Kept(datas[i], commits, i) && AllFitLayout(datas[i], layout) && CountedFrom(W.G.order, counts[i], layout,
                                                                                  datas[i])
    requires AllCountsFit(counts, layout) && SummationIs(W.G.order, out, layout, counts)
    requires j < |layout| && k < |layout[j].cand|
    ensures CountCell(out, layout, j, k).x == VotesFor(choices, j, layout[j].cand[k])
    ensures CountCell(out, layout, j, k).cid == layout[j].cand[k]
  {
    hide HonestShares, Kept, HonestVotes;
    HonestLayouts(W, layout, tellers, choices, commits);
    var shares, bits := ShareMatrix(W, layout, tellers, choices, commits, j, k), BitColumn(choices, layout, j, k);
    forall b | 0 <= b < |bits| ensures 0 <= bits[b] <= 1 && Cong(Total(shares[b]), bits[b], W.G.order) {
      HonestCell(W, choices[b], commits[b], j, k);
    }
    var totals := TotalXs(counts, layout, j, k);
    forall i | 0 <= i < tellers ensures totals[i] == Total(Column(shares, i)) % W.G.order {
      SharesOfTeller(W, layout, tellers, choices, commits, datas[i], i, j, k);
    }
    Conservation(W.G.order, tellers, shares, bits, totals);
    BitsAreVotes(choices, layout, j, k);
    assert CountRowFits(out[j], layout[j]);
  }

  lemma HonestLayouts<P(!new)>(W: World<P>, layout: seq<Position>, tellers: nat, choices: seq<seq<Choice>>,
                               commits: seq<seq<seq<PosCells>>>)
    requires W.G.order > 0 && HonestVotes(W, layout, tellers, choices, commits)
    ensures |choices| == |commits|
    ensures forall b :: 0 <= b < |choices| ==> LayoutOf(choices[b]) == layout && HonestShares(W, choices[b], commits[b])
  {
  }

  lemma HonestCell<P(!new)>(W: World<P>, pos: seq<Choice>, commits: seq<seq<PosCells>>, j: nat, k: nat)
    requires W.G.order > 0 && HonestShares(W, pos, commits) && j < |pos| && k < |pos[j].cand|
    ensures AllRowsFit(commits, pos) && Cong(Total(Xs(ColumnAt(commits, pos, j, k))), Bit(pos[j], k), W.G.order)
  {
    assert HonestColumn(W, ColumnAt(commits, pos, j, k), Bit(pos[j], k));
  }

  lemma SharesOfTeller<P(!new)>(W: World<P>, layout: seq<Position>, tellers: nat, choices: seq<seq<Choice>>,
                                commits: seq<seq<seq<PosCells>>>, datas: seq<seq<PosShares>>, i: nat, j: nat, k: nat)
    requires W.G.order > 0 && HonestVotes(W, layout, tellers, choices, commits) && i < tellers
    requires Kept(datas, commits, i)
    requires AllFitLayout(datas, layout) && j < |layout| && k < |layout[j].cand|
    ensures DataXs(datas, layout, j, k) == Column(ShareMatrix(W, layout, tellers, choices, commits, j, k), i)
  {
    KeptFits(W, layout, tellers, choices, commits, datas, i);
    var m := ShareMatrix(W, layout, tellers, choices, commits, j, k);
    forall b | 0 <= b < |datas| ensures DataXs(datas, layout, j, k)[b] == Column(m, i)[b] {
      assert CellKept(choices[b], commits[b], datas[b], layout, i, j, k);
    }
  }

  // ----- An election of honest clients and tellers publishes -----

  /** The dump of these votes. */
  function Dump<P(!new)>(W: World<P>, links: seq<Link>, commits: seq<seq<seq<PosCells>>>, keys: seq<string>,
                         times: seq<seq<int>>): (file: seq<FileLine>)
    requires |links| == |commits| == |times| && forall b :: 0 <= b < |commits| ==> |commits[b]| == |keys| == |times[b]|
    ensures |file| == |commits|
    ensures forall b :: 0 <= b < |file| ==> file[b] == Read(Sent(W, links[b], commits[b], [], keys, times[b]).zs)
  {
    seq(|commits|, b requires 0 <= b < |commits| => Read(Sent(W, links[b], commits[b], [], keys, times[b]).zs))
  }

  lemma SentReaches<P(!new)>(W: World<P>, layout: seq<Position>, pos: seq<Choice>, l: Link,
                             commits: seq<seq<PosCells>>, keys: seq<string>, times: seq<int>)
    requires |commits| == |keys| == |times| && LayoutOf(pos) == layout && AllRowsFit(commits, pos)
    ensures LineReaches(Read(Sent(W, l, commits, [], keys, times).zs), layout, |keys|)
  {
    var zs := Sent(W, l, commits, [], keys, times).zs;
    forall i | 0 <= i < |zs| ensures Reaches(zs[i].val, layout) {
      StripFits(commits[i], layout);
      forall j | 0 <= j < |layout| ensures |zs[i].val[j].values| >= |layout[j].cand| {
        assert ZRowFits(zs[i].val[j], layout[j]);
      }
    }
  }

  /** Every honest teller's total passes, so that the final tally publishes, whatever the coins were. */
  lemma HonestElectionPublishes<P(!new)>(W: World<P>, layout: seq<Position>, choices: seq<seq<Choice>>,
                                         commits: seq<seq<seq<PosCells>>>,
                                         links: seq<Link>, keys: seq<string>, times: seq<seq<int>>,
                                         datas: seq<seq<PosShares>>, count: seq<PosShares>, i: nat)
    requires W.Valid() && HonestVotes(W, layout, |keys|, choices, commits) && i < |keys|
    requires |links| == |commits| == |times| && forall b :: 0 <= b < |commits| ==> |commits[b]| == |keys| == |times[b]|
    requires Kept(datas, commits, i) && AllFitLayout(datas, layout) && CountedFrom(W.G.order, count, layout, datas)
    ensures FileReaches(Dump(W, links, commits, keys, times), layout, |keys|)
    ensures TotalPasses(W, layout, |keys|, Dump(W, links, commits, keys, times), i, count)
  {
    hide Kept;
    var file := Dump(W, links, commits, keys, times);
    forall b | 0 <= b < |file| ensures LineReaches(file[b], layout, |keys|) {
      SentReaches(W, layout, choices[b], links[b], commits[b], keys, times[b]);
    }
    KeptFits(W, layout, |keys|, choices, commits, datas, i);
    KeptCount(datas, commits, i);
    forall b, j, k | 0 <= b < |file| && 0 <= j < |layout| && 0 <= k < |layout[j].cand|
      ensures Factors(W, layout, |keys|, file, i, j, k)[b]
           == W.G.Com(CountCell(datas[b], layout, j, k).x, CountCell(datas[b], layout, j, k).y)
    {
      assert CellKept(choices[b], commits[b], datas[b], layout, i, j, k);
      SentFactor(W, layout, choices[b], links[b], commits[b], keys, times[b], i, j, k);
    }
    HonestTotalPasses(W, layout, |keys|, file, i, datas, count);
  }

  lemma KeptCount(datas: seq<seq<PosShares>>, commits: seq<seq<seq<PosCells>>>, i: nat)
    requires Kept(datas, commits, i)
    ensures |datas| == |commits|
  {
  }

  lemma SentFactor<P(!new)>(W: World<P>, layout: seq<Position>, pos: seq<Choice>, l: Link, commits: seq<seq<PosCells>>,
                            keys: seq<string>, times: seq<int>, i: nat, j: nat, k: nat)
    requires W.Valid() && |commits| == |keys| == |times| && LayoutOf(pos) == layout && HonestShares(W, pos, commits)
    requires i < |keys| && j < |layout| && k < |layout[j].cand|
    ensures LineReaches(Read(Sent(W, l, commits, [], keys, times).zs), layout, |keys|)
    ensures var c := ColumnAt(commits, pos, j, k)[i];
      Factor(W, layout, Read(Sent(W, l, commits, [], keys, times).zs), i, j, k) == W.G.Com(c.x, c.y)
  {
    SentReaches(W, layout, pos, l, commits, keys, times);
    assert HonestColumn(W, ColumnAt(commits, pos, j, k), Bit(pos[j], k));
    assert RowFits(commits[i][j], layout[j]);
  }
}

/** Completeness and soundness of votes: what the client sends is accepted everywhere, and what is accepted
    carries at most one choice per position. */
module VoteTheorems {
  import opened ModArith
  import opened Groups
  import opened Proof01
  import opened Ballots
  import opened ShareGeneration
  import opened HonestVote
  import opened VoteServers

  // ----- Completeness -----

  /** The vote the client assembles from its commitments and the tellers' signed replies. */
  function Sent<P(!new)>(W: World<P>, l: Link, commits: seq<seq<PosCells>>, proofs: seq<seq<Proof<P>>>,
                         keys: seq<string>, times: seq<int>): (v: Vote<P>)
    requires |commits| == |keys| == |times|
    ensures v.link == l && v.proofs == proofs && |v.zs| == |commits|
    ensures forall i :: 0 <= i < |v.zs| ==>
      v.zs[i] == TellerZ(i, Strip(commits[i]), W.sign(keys[i], CommitStr(W, l, Strip(commits[i]), times[i])), times[i])
  {
    Vote(l, seq(|commits|, i requires 0 <= i < |commits| =>
      TellerZ(i, Strip(commits[i]), W.sign(keys[i], CommitStr(W, l, Strip(commits[i]), times[i])), times[i])), proofs)
  }

  function Pubs<P(!new)>(W: World<P>, keys: seq<string>): (r: seq<string>)
    ensures |r| == |keys| && forall i :: 0 <= i < |r| ==> r[i] == W.pub(keys[i])
  {
    seq(|keys|, i requires 0 <= i < |keys| => W.pub(keys[i]))
  }

  /** Every teller accepts the commitments it is sent. */
  lemma TellersAccept<P(!new)>(W: World<P>, pos: seq<Choice>, l: Link, authPub: string, commits: seq<seq<PosCells>>,
                               i: nat)
    requires W.Valid() && HonestShares(W, pos, commits) && i < |commits| && LinkOk(W, l, authPub)
    ensures TellerAccepts(W, LayoutOf(pos), authPub, TellerVote(l, commits[i]))
  {
    forall j | 0 <= j < |pos| ensures RowOk(W, LayoutOf(pos)[j], commits[i][j]) {
      assert RowFits(commits[i][j], LayoutOf(pos)[j]);
      forall k | 0 <= k < |pos[j].cand| ensures CellOpens(W, commits[i][j].values[k]) {
        assert HonestColumn(W, ColumnAt(commits, pos, j, k), Bit(pos[j], k));
        assert ColumnAt(commits, pos, j, k)[i] == commits[i][j].values[k];
      }
    }
  }

  lemma SentPartsOk<P(!new)>(W: World<P>, pos: seq<Choice>, l: Link, commits: seq<seq<PosCells>>,
                             proofs: seq<seq<Proof<P>>>,
                             keys: seq<string>, times: seq<int>, i: nat)
    requires W.Valid() && AllRowsFit(commits, pos) && |commits| == |keys| == |times| && i < |commits|
    ensures TellerPartOk(W, LayoutOf(pos), Pubs(W, keys), l, Sent(W, l, commits, proofs, keys, times).zs[i])
  {
    StripFits(commits[i], LayoutOf(pos));
    assert W.Signs(keys[i], CommitStr(W, l, Strip(commits[i]), times[i]));
  }

  lemma SentProducts<P(!new)>(W: World<P>, pos: seq<Choice>, l: Link, commits: seq<seq<PosCells>>,
                              proofs: seq<seq<Proof<P>>>,
                              keys: seq<string>, times: seq<int>, j: nat)
    requires AllRowsFit(commits, pos) && |commits| == |keys| == |times| && j < |pos|
    requires AllFit(Sent(W, l, commits, proofs, keys, times).zs, LayoutOf(pos))
    ensures PosZSums(W, LayoutOf(pos), Sent(W, l, commits, proofs, keys, times).zs, j) == Products(W, pos, commits, j)
  {
    var zs := Sent(W, l, commits, proofs, keys, times).zs;
    forall k | 0 <= k < |pos[j].cand| ensures ZSum(W, LayoutOf(pos), zs, j, k) == Products(W, pos, commits, j)[k] {
      assert ZColumn(W, zs, j, k) == Points(W, ColumnAt(commits, pos, j, k));
    }
  }

  /** The case in which a proof made for the wrong bit slips through: the challenge half it answers kills g. */
  ghost predicate Degenerate<P(!new)>(W: World<P>, c: Choice, proofs: seq<Proof<P>>)
    requires |proofs| == |c.cand| + 1
  {
    W.G.Mul(Answered(proofs[|c.cand|], PositionBit(c)), W.G.g) == W.G.zero
  }

  /** A vote of the client is accepted by all tellers; the board accepts it exactly when at every position the chosen
      id is a candidate just if it is not negative, short of a degenerate challenge. */
  lemma BallotCompleteness<P(!new)>(W: World<P>, pos: seq<Choice>, l: Link, authPub: string,
                                    commits: seq<seq<PosCells>>, proofs: seq<seq<Proof<P>>>, keys: seq<string>,
                                    times: seq<int>)
    requires W.Valid() && HonestBallot(W, pos, commits, proofs)
    requires forall j :: 0 <= j < |pos| ==> Distinct(pos[j].cand)
    requires LinkOk(W, l, authPub) && |commits| == |keys| == |times|
    ensures forall i :: 0 <= i < |commits| ==> TellerAccepts(W, LayoutOf(pos), authPub, TellerVote(l, commits[i]))
    ensures forall j :: 0 <= j < |pos| ==> |proofs[j]| == |pos[j].cand| + 1
    ensures BoardAccepts(W, LayoutOf(pos), Pubs(W, keys), authPub, Sent(W, l, commits, proofs, keys, times))
      <==> forall j :: 0 <= j < |pos| ==> ChoiceOk(pos[j]) || Degenerate(W, pos[j], proofs[j])
  {
    hide TellerPartOk, TellerAccepts, LinkOk, Verifies, Accepts;
    var v := Sent(W, l, commits, proofs, keys, times);
    forall i | 0 <= i < |commits|
      ensures TellerAccepts(W, LayoutOf(pos), authPub, TellerVote(l, commits[i]))
      ensures TellerPartOk(W, LayoutOf(pos), Pubs(W, keys), l, v.zs[i])
    {
      TellersAccept(W, pos, l, authPub, commits, i);
      SentPartsOk(W, pos, l, commits, proofs, keys, times, i);
    }
    PartsFit(W, LayoutOf(pos), Pubs(W, keys), l, v.zs);
    forall j | 0 <= j < |pos|
      ensures |proofs[j]| == |pos[j].cand| + 1
      ensures PositionProved(W, PosZSums(W, LayoutOf(pos), v.zs, j), proofs[j])
        <==> ChoiceOk(pos[j]) || Degenerate(W, pos[j], proofs[j])
    {
      SentProducts(W, pos, l, commits, proofs, keys, times, j);
      assert ProvesPosition(W.G, W.hash, pos[j], Products(W, pos, commits, j), proofs[j]);
    }
  }

  // ----- Soundness -----

  /** For every proof of a position a second answer to the same announcement, for another challenge. */
  ghost predicate Forked<P(!new)>(G: Group<P>, sums: seq<P>, ps: seq<Proof<P>>, es: seq<int>, qs: seq<Proof<P>>,
                                  es': seq<int>)
    requires G.order > 0
  {
    && |ps| == |qs| == |es| == |es'| == |sums| + 1
    && (forall k :: 0 <= k < |sums| ==> Fork(G, sums[k], ps[k], es[k], qs[k], es'[k]))
    && var n := |sums|; Fork(G, G.Sum(sums), ps[n], es[n], qs[n], es'[n])
  }

  function ExtractedBits<P>(order: nat, ps: seq<Proof<P>>, qs: seq<Proof<P>>, n: nat): (r: seq<int>)
    requires order > 0 && n <= |ps| && n <= |qs|
    ensures |r| == n && forall k :: 0 <= k < n ==> r[k] == Extract(order, ps[k], qs[k]).0 && 0 <= r[k] <= 1
  {
    seq(n, k requires 0 <= k < n => Extract(order, ps[k], qs[k]).0)
  }

  function ExtractedBlindings<P>(order: nat, ps: seq<Proof<P>>, qs: seq<Proof<P>>, n: nat): (r: seq<int>)
    requires order > 0 && n <= |ps| && n <= |qs|
    ensures |r| == n && forall k :: 0 <= k < n ==> r[k] == Extract(order, ps[k], qs[k]).1
  {
    seq(n, k requires 0 <= k < n => Extract(order, ps[k], qs[k]).1)
  }

  /** What extraction from two answers per proof says of a position with n candidates. */
  ghost predicate AtMostOneChoice<P(!new)>(G: Group<P>, ps: seq<Proof<P>>, qs: seq<Proof<P>>, n: nat)
    requires G.order > 0 && |ps| == |qs| == n + 1
  {
    var bits, blindings := ExtractedBits(G.order, ps, qs, n), ExtractedBlindings(G.order, ps, qs, n);
    var (bit, y) := Extract(G.order, ps[n], qs[n]);
    || G.Relation(Total(bits) - bit, Total(blindings) - y)
    || (Cong(Total(bits), bit, G.order) && (n < G.order ==> Total(bits) == bit <= 1))
  }

  /** The candidates' extracted bits add up to the position's extracted bit modulo the order, so that at most one
      candidate was chosen; or the extracted numbers give away a dependency between g and h. */
  lemma PositionSound<P(!new)>(G: Group<P>, sums: seq<P>, ps: seq<Proof<P>>, es: seq<int>, qs: seq<Proof<P>>,
                               es': seq<int>)
    requires G.PrimeOrder() && Forked(G, sums, ps, es, qs, es')
    ensures forall k :: 0 <= k < |sums| ==>
      sums[k] == G.Com(Extract(G.order, ps[k], qs[k]).0, Extract(G.order, ps[k], qs[k]).1)
    ensures AtMostOneChoice(G, ps, qs, |sums|)
  {
    hide Fork, Extract;
    var n := |sums|;
    var bits, blindings := ExtractedBits(G.order, ps, qs, n), ExtractedBlindings(G.order, ps, qs, n);
    forall k | 0 <= k < n ensures sums[k] == G.Com(bits[k], blindings[k]) {
      ExtractionSound(G, sums[k], ps[k], es[k], qs[k], es'[k]);
    }
    SumOfCommitments(G, sums, bits, blindings);
    ExtractionSound(G, G.Sum(sums), ps[n], es[n], qs[n], es'[n]);
    var (bit, y) := Extract(G.order, ps[n], qs[n]);
    Binding(G, Total(bits), Total(blindings), bit, y);
    TotalOfBits(bits);
    if Cong(Total(bits), bit, G.order) && n < G.order {
      SmallCong(Total(bits), bit, n, G.order);
    }
  }

  lemma SmallCong(a: int, b: int, n: int, m: int)
    requires 0 <= a <= n < m && (b == 0 || b == 1) && m > 1 && Cong(a, b, m)
    ensures a == b
  {
    CongSmall(a, b, m);
  }

  /** The challenges the board computed for the proofs of a position. */
  function Challenges<P(!new)>(W: World<P>, sums: seq<P>, proofs: seq<Proof<P>>): (es: seq<int>)
    requires |proofs| == |sums| + 1
    ensures |es| == |proofs|
    ensures forall k :: 0 <= k < |sums| ==> es[k] == W.hash(sums[k], proofs[k].d0, proofs[k].d1)
    ensures var n := |sums|; es[n] == W.hash(W.G.Sum(sums), proofs[n].d0, proofs[n].d1)
  {
    seq(|proofs|, k requires 0 <= k < |proofs| =>
      W.hash(if k < |sums| then sums[k] else W.G.Sum(sums), proofs[k].d0, proofs[k].d1))
  }

  /** A second answer to the announcement of every proof of a position, for challenges other than the board's. */
  ghost predicate AnswersAgain<P(!new)>(G: Group<P>, sums: seq<P>, ps: seq<Proof<P>>, es: seq<int>,
                                        qs: seq<Proof<P>>, es': seq<int>)
    requires G.order > 0 && |ps| == |es| == |sums| + 1
  {
    && |qs| == |es'| == |ps|
    && forall k :: 0 <= k < |ps| ==>
      && qs[k].d0 == ps[k].d0 && qs[k].d1 == ps[k].d1 && !Cong(es[k], es'[k], G.order)
      && Accepts(G, qs[k], if k < |sums| then sums[k] else G.Sum(sums), es'[k])
  }

  lemma AgainForks<P(!new)>(W: World<P>, sums: seq<P>, ps: seq<Proof<P>>, qs: seq<Proof<P>>, es': seq<int>)
    requires W.Valid() && PositionProved(W, sums, ps) && AnswersAgain(W.G, sums, ps, Challenges(W, sums, ps), qs, es')
    ensures Forked(W.G, sums, ps, Challenges(W, sums, ps), qs, es')
  {
    hide Accepts, Prime;
  }

  /** An accepted vote: whoever could answer each announcement of position j once more has at most one choice there. */
  lemma AcceptedVoteSound<P(!new)>(W: World<P>, layout: seq<Position>, tellerKeys: seq<string>, authPub: string,
                                   v: Vote<P>,
                                   j: nat, qs: seq<Proof<P>>, es': seq<int>)
    requires W.Valid() && BoardAccepts(W, layout, tellerKeys, authPub, v) && j < |layout|
    requires AllFit(v.zs, layout) && |v.proofs[j]| == |layout[j].cand| + 1
    requires var sums := PosZSums(W, layout, v.zs, j);
      AnswersAgain(W.G, sums, v.proofs[j], Challenges(W, sums, v.proofs[j]), qs, es')
    ensures AtMostOneChoice(W.G, v.proofs[j], qs, |layout[j].cand|)
  {
    hide Accepts, Prime, PositionProved, AnswersAgain, Forked, AtMostOneChoice;
    var sums := PosZSums(W, layout, v.zs, j);
    assert PositionProved(W, sums, v.proofs[j]);
    AgainForks(W, sums, v.proofs[j], qs, es');
    PositionSound(W.G, sums, v.proofs[j], Challenges(W, sums, v.proofs[j]), qs, es');
  }
}

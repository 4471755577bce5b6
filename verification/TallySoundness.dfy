/** What numbers that verify must be, with neither clients nor tellers trusted. Against anyone who can answer the
    announcements of the ballots' proofs a second time, they count bits, at most one for each position. The offline
    verifier says so of every pair at its place in the published record; whose number it is, only the record says. */
module TallySoundness {
  import opened ModArith
  import opened Groups
  import opened Proof01
  import opened Ballots
  import opened VoteServers
  import opened VoteTheorems
  import opened Tally
  import opened OfflineVerify

  /** Position j of an accepted vote, with a second answer to the announcement of each of its proofs. */
  ghost predicate AnsweredTwice<P(!new)>(W: World<P>, layout: seq<Position>, v: Vote<P>, j: nat, qs: seq<Proof<P>>,
                                         es: seq<int>)
    requires W.G.order > 0 && j < |layout|
  {
    && AllFit(v.zs, layout) && |v.proofs| == |layout| && |v.proofs[j]| == |layout[j].cand| + 1 == |qs|
    && var sums := PosZSums(W, layout, v.zs, j);
    && PositionProved(W, sums, v.proofs[j])
    && AnswersAgain(W.G, sums, v.proofs[j], Challenges(W, sums, v.proofs[j]), qs, es)
  }

  /** The bit behind a cell of a vote, and its blinding, computed from the two answers. */
  ghost function Behind<P(!new)>(order: nat, v: Vote<P>, j: nat, k: nat, qs: seq<Proof<P>>): (int, int)
    requires order > 0 && j < |v.proofs| && k < |v.proofs[j]| && k < |qs|
  {
    Extract(order, v.proofs[j][k], qs[k])
  }

  lemma CellBehind<P(!new)>(W: World<P>, layout: seq<Position>, v: Vote<P>, j: nat, k: nat, qs: seq<Proof<P>>,
                            es: seq<int>)
    requires W.Valid() && j < |layout| && k < |layout[j].cand| && AnsweredTwice(W, layout, v, j, qs, es)
    ensures var (bit, y) := Behind(W.G.order, v, j, k, qs);
      0 <= bit <= 1 && ZSum(W, layout, v.zs, j, k) == W.G.Com(bit, y)
    ensures AtMostOneChoice(W.G, v.proofs[j], qs, |layout[j].cand|)
  {
    hide PositionProved, AnswersAgain, Forked, AtMostOneChoice, Prime, Accepts, Group.Com;
    var sums := PosZSums(W, layout, v.zs, j);
    AgainForks(W, sums, v.proofs[j], qs, es);
    PositionSound(W.G, sums, v.proofs[j], Challenges(W, sums, v.proofs[j]), qs, es);
    assert ExtractedBits(W.G.order, v.proofs[j], qs, |sums|)[k] == Behind(W.G.order, v, j, k, qs).0;
  }

  /** A file of votes, with second answers at position j of each. */
  ghost predicate AllAnsweredTwice<P(!new)>(W: World<P>, layout: seq<Position>, votes: seq<Vote<P>>, j: nat,
                                            qs: seq<seq<Proof<P>>>, es: seq<seq<int>>)
    requires W.G.order > 0 && j < |layout|
  {
    |qs| == |es| == |votes| && forall b :: 0 <= b < |votes| ==> AnsweredTwice(W, layout, votes[b], j, qs[b], es[b])
  }

  ghost function BitsBehind<P(!new)>(W: World<P>, layout: seq<Position>, votes: seq<Vote<P>>, j: nat, k: nat,
                                     qs: seq<seq<Proof<P>>>, es: seq<seq<int>>): (r: seq<int>)
    requires W.G.order > 0 && j < |layout| && k < |layout[j].cand| && AllAnsweredTwice(W, layout, votes, j, qs, es)
    ensures |r| == |votes|
    ensures forall b :: 0 <= b < |r| ==> AnsweredTwice(W, layout, votes[b], j, qs[b], es[b])
                                         && r[b] == Behind(W.G.order, votes[b], j, k, qs[b]).0
  {
    seq(|votes|, b requires 0 <= b < |votes| =>
      assert AnsweredTwice(W, layout, votes[b], j, qs[b], es[b]); Behind(W.G.order, votes[b], j, k, qs[b]).0)
  }

  ghost function BlindingsBehind<P(!new)>(W: World<P>, layout: seq<Position>, votes: seq<Vote<P>>, j: nat, k: nat,
                                          qs: seq<seq<Proof<P>>>, es: seq<seq<int>>): (r: seq<int>)
    requires W.G.order > 0 && j < |layout| && k < |layout[j].cand| && AllAnsweredTwice(W, layout, votes, j, qs, es)
    ensures |r| == |votes|
    ensures forall b :: 0 <= b < |r| ==> AnsweredTwice(W, layout, votes[b], j, qs[b], es[b])
                                         && r[b] == Behind(W.G.order, votes[b], j, k, qs[b]).1
  {
    seq(|votes|, b requires 0 <= b < |votes| =>
      assert AnsweredTwice(W, layout, votes[b], j, qs[b], es[b]); Behind(W.G.order, votes[b], j, k, qs[b]).1)
  }

  /** The products of the votes at one cell. */
  ghost predicate PointsAre<P(!new)>(W: World<P>, layout: seq<Position>, votes: seq<Vote<P>>, j: nat, k: nat,
                                     points: seq<P>)
    requires j < |layout| && k < |layout[j].cand|
  {
    |points| == |votes| && forall b :: 0 <= b < |votes| ==>
      AllFit(votes[b].zs, layout) && points[b] == ZSum(W, layout, votes[b].zs, j, k)
  }

  /** x is the number of ones, modulo the order, and exactly if it is less than the order. */
  ghost predicate CountsBits(order: nat, x: int, bits: seq<int>)
    requires order > 0
  {
    && (forall b :: 0 <= b < |bits| ==> 0 <= bits[b] <= 1)
    && Cong(x, Total(bits), order) && (0 <= x < order ==> x == Total(bits))
  }

  /** (x, y) counts the bits behind one cell of the votes, or it and what was extracted give away a dependency between
      g and h. */
  ghost predicate Sound<P(!new)>(W: World<P>, layout: seq<Position>, votes: seq<Vote<P>>, j: nat, k: nat, x: int,
                                 y: int,
                                 qs: seq<seq<Proof<P>>>, es: seq<seq<int>>)
    requires W.G.order > 0 && j < |layout| && k < |layout[j].cand| && AllAnsweredTwice(W, layout, votes, j, qs, es)
  {
    var bits, ys := BitsBehind(W, layout, votes, j, k, qs, es), BlindingsBehind(W, layout, votes, j, k, qs, es);
    CountsBits(W.G.order, x, bits) || W.G.Relation(x - Total(bits), y - Total(ys))
  }

  /** What opens the sum of commitments to bits is their number if it is small, or gives a dependency. */
  lemma OpensToTotal<P(!new)>(G: Group<P>, bits: seq<int>, ys: seq<int>, points: seq<P>, x: int, y: int)
    requires G.Valid() && |bits| == |ys| == |points| < G.order && Passes(G, x, y, points)
    requires forall b :: 0 <= b < |points| ==> points[b] == G.Com(bits[b], ys[b]) && 0 <= bits[b] <= 1
    ensures G.Relation(x - Total(bits), y - Total(ys)) || Cong(x, Total(bits), G.order)
    ensures Cong(x, Total(bits), G.order) && 0 <= x < G.order ==> x == Total(bits)
    ensures 0 <= Total(bits) <= |bits|
  {
    TallyBinding(G, bits, ys, points, x, y);
    TotalOfBits(bits);
    if Cong(x, Total(bits), G.order) && 0 <= x < G.order {
      CongSmall(x, Total(bits), G.order);
    }
  }

  lemma Shapes<P(!new)>(W: World<P>, layout: seq<Position>, v: Vote<P>, j: nat, qs: seq<Proof<P>>, es: seq<int>)
    requires W.G.order > 0 && j < |layout| && AnsweredTwice(W, layout, v, j, qs, es)
    ensures |v.proofs| == |layout| && |v.proofs[j]| == |layout[j].cand| + 1 == |qs|
  {
  }

  /** A pair that opens the product of the ballots is sound, and no ballot has more than one choice at the position. */
  lemma PublishedSound<P(!new)>(W: World<P>, layout: seq<Position>, votes: seq<Vote<P>>, j: nat, k: nat, points: seq<P>,
                                x: int, y: int, qs: seq<seq<Proof<P>>>, es: seq<seq<int>>)
    requires W.Valid() && j < |layout| && k < |layout[j].cand| && |votes| < W.G.order
    requires AllAnsweredTwice(W, layout, votes, j, qs, es) && PointsAre(W, layout, votes, j, k, points)
    requires Passes(W.G, x, y, points)
    ensures Sound(W, layout, votes, j, k, x, y, qs, es)
    ensures forall b :: 0 <= b < |votes| ==>
      |votes[b].proofs| == |layout| && |votes[b].proofs[j]| == |layout[j].cand| + 1 == |qs[b]|
      && AtMostOneChoice(W.G, votes[b].proofs[j], qs[b], |layout[j].cand|)
  {
    hide AnsweredTwice, AtMostOneChoice, Group.Com, Group.Relation, Prime;
    var bits, ys := BitsBehind(W, layout, votes, j, k, qs, es), BlindingsBehind(W, layout, votes, j, k, qs, es);
    forall b | 0 <= b < |votes|
      ensures points[b] == W.G.Com(bits[b], ys[b]) && 0 <= bits[b] <= 1
      ensures |votes[b].proofs| == |layout| && |votes[b].proofs[j]| == |layout[j].cand| + 1 == |qs[b]|
      ensures AtMostOneChoice(W.G, votes[b].proofs[j], qs[b], |layout[j].cand|)
    {
      Shapes(W, layout, votes[b], j, qs[b], es[b]);
      CellBehind(W, layout, votes[b], j, k, qs[b], es[b]);
    }
    OpensToTotal(W.G, bits, ys, points, x, y);
  }

  // ----- What the offline verifier's success says -----

  ghost function HandedOut<P(!new)>(m: Master<P>): (votes: seq<Vote<P>>)
    requires forall l :: 0 <= l < |m.file| ==> m.file[l].Parsed?
    ensures |votes| == |m.file| && forall l :: 0 <= l < |m.file| ==> votes[l] == m.Handed(l)
  {
    seq(|m.file|, l requires 0 <= l < |m.file| => m.Handed(l))
  }

  /** What an accepted ballot contributes at a place of the election. */
  lemma AcceptedPoint<P(!new)>(W: World<P>, layout: seq<Position>, tellerKeys: seq<string>, authPub: string, v: Vote<P>,
                               line: BallotLine<P>, j: nat, k: nat)
    requires W.G.order > 0 && BoardAccepts(W, layout, tellerKeys, authPub, v) && j < |layout| && k < |layout[j].cand|
    requires line.Parsed? && line.vote.zs == v.zs
    ensures AllFit(v.zs, layout) && LinePoint(W, line, j, k) == ZSum(W, layout, v.zs, j, k)
  {
    hide PositionProved, LinkOk, CommitStr;
    PartsFit(W, layout, tellerKeys, v.link, v.zs);
    forall i | 0 <= i < |v.zs| ensures j < |v.zs[i].val| && k < |v.zs[i].val[j].values| {
      assert ZFits(v.zs[i].val, layout) && ZRowFits(v.zs[i].val[j], layout[j]);
    }
  }

  /** A place that both the record and the election have. */
  ghost predicate IsPlace<P(!new)>(m: Master<P>, j: nat, k: nat) {
    j < |m.published| && k < |m.published[j].values| && j < |m.layout| && k < |m.layout[j].cand|
  }

  lemma SuccessPoints<P(!new)>(m: Master<P>, j: nat, k: nat)
    requires m.Valid() && m.success && IsPlace(m, j, k)
    ensures m.W.Valid() && forall l :: 0 <= l < |m.file| ==> m.file[l].Parsed?
    ensures PointsAre(m.W, m.layout, HandedOut(m), j, k, m.FilePoints(j, k))
    ensures var c := m.published[j].values[k]; Passes(m.W.G, c.x, c.y, m.FilePoints(j, k))
  {
    hide World.Valid, BoardAccepts, Linked, Begun, Master.Alive, ZSum, Carries;
    m.SuccessMeans();
    m.Placed();
    forall l | 0 <= l < |m.file| ensures m.file[l].Parsed? {
      assert m.LineCarries(l);
    }
    var votes, points := HandedOut(m), m.FilePoints(j, k);
    forall l | 0 <= l < |votes|
      ensures AllFit(votes[l].zs, m.layout) && points[l] == ZSum(m.W, m.layout, votes[l].zs, j, k)
    {
      AcceptedPoint(m.W, m.layout, m.tellerKeys, m.authPub, votes[l], m.file[l], j, k);
    }
  }

  /** If the offline verifier reports success on a file shorter than the order, then every number of the record below
      the order is the number of ones behind its place, or the record's pair and the extracted ones give away a
      dependency. */
  lemma SuccessIsSound<P(!new)>(m: Master<P>, j: nat, k: nat, qs: seq<seq<Proof<P>>>, es: seq<seq<int>>)
    requires m.Valid() && m.success && 0 <= |m.file| < m.W.G.order && IsPlace(m, j, k)
    requires forall l :: 0 <= l < |m.file| ==> m.file[l].Parsed?
    requires AllAnsweredTwice(m.W, m.layout, HandedOut(m), j, qs, es)
    ensures var c := m.published[j].values[k]; Sound(m.W, m.layout, HandedOut(m), j, k, c.x, c.y, qs, es)
  {
    hide Master.Valid, World.Valid, AnsweredTwice, PointsAre, Sound, Passes;
    SuccessPoints(m, j, k);
    var c := m.published[j].values[k];
    PublishedSound(m.W, m.layout, HandedOut(m), j, k, m.FilePoints(j, k), c.x, c.y, qs, es);
  }
}

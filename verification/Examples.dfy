/** Inputs the code accepts and on which it goes wrong. */
module Examples {
  import opened Wrappers
  import opened Ballots
  import opened Proof01
  import opened ShareGeneration
  import opened HonestVote
  import opened VoteTheorems
  import opened CreateElection
  import opened Layout
  import opened Jacobian
  import opened CurveGroup
  import opened SmallCurve

  // ----- Elections -----

  /** One position with a candidate whose id is negative. */
  function OneNegative(): Data {
    Data(Some(1), [PosIn(1, "p")], [CandIn(-1, "a"), CandIn(2, "b")], [MapIn(1, -1), MapIn(1, 2)])
  }

  /** Two positions, one with a negative id. */
  function MixedPids(): Data {
    Data(Some(1), [PosIn(-1, "p"), PosIn(1, "q")], [CandIn(1, "a"), CandIn(2, "b")],
         [MapIn(-1, 1), MapIn(-1, 2), MapIn(1, 1), MapIn(1, 2)])
  }

  lemma NamesOf(d: Data, a: CandIn, b: CandIn)
    requires d.cand == [a, b] && a.id != b.id
    ensures HasCandidate(d, a.id) && HasCandidate(d, b.id) && NameOf(d, a.id) == a.name && NameOf(d, b.id) == b.name
    ensures CandidatesOk(d.cand) <==> a.name != "" && b.name != ""
  {
    assert d.cand[0].id == a.id && d.cand[1].id == b.id;
  }

  lemma NegativePairs()
    ensures forall i :: 0 <= i < 2 ==> PairOk(Env({}), OneNegative(), i)
    ensures CandidatesOk(OneNegative().cand)
    ensures forall pid :: HasPosition(OneNegative(), pid) <==> pid == 1
  {
    hide NameOf;
    var d := OneNegative();
    NamesOf(d, CandIn(-1, "a"), CandIn(2, "b"));
    assert d.pos[0].id == 1;
  }

  lemma NegativeGrid()
    ensures Count(OneNegative().mapping, 1, 2) == 2
    ensures Grid([1], OneNegative().mapping) == LayoutOf([Choice(1, -1, [-1, 2])])
  {
    var m := OneNegative().mapping;
    assert Count(m, 1, 0) == 0;
    assert Count(m, 1, 1) == 1;
    assert Cids(m, 1, 0) == [];
    assert Cids(m, 1, 1) == [-1];
    assert Cids(m, 1, 2) == [-1, 2];
  }

  lemma NegativeIsAccepted()
    ensures CreateElection.Accepts(Env({}), OneNegative()) && Stored(OneNegative(), [1], OneNegative().mapping)
    ensures Grid([1], OneNegative().mapping) == LayoutOf([Choice(1, -1, [-1, 2])])
  {
    hide PairOk, CandidatesOk, HasPosition, Count, Grid;
    NegativePairs();
    NegativeGrid();
  }

  /** Whoever votes for that candidate is refused by the board, for all coins and times, short of a degenerate
      challenge. */
  lemma NegativeChoice<P(!new)>(W: World<P>, l: Link, authPub: string, commits: seq<seq<PosCells>>,
                                proofs: seq<seq<Proof<P>>>, keys: seq<string>, times: seq<int>)
    requires W.Valid() && HonestBallot(W, [Choice(1, -1, [-1, 2])], commits, proofs)
    requires LinkOk(W, l, authPub) && |commits| == |keys| == |times|
    ensures !ChoiceOk(Choice(1, -1, [-1, 2])) && |proofs| == 1 && |proofs[0]| == 3
    ensures BoardAccepts(W, Grid([1], OneNegative().mapping), Pubs(W, keys), authPub,
                         Sent(W, l, commits, proofs, keys, times))
      <==> Degenerate(W, Choice(1, -1, [-1, 2]), proofs[0])
  {
    hide World.Valid, LinkOk, BoardAccepts, Degenerate, Cids;
    var pos := [Choice(1, -1, [-1, 2])];
    NegativeIsAccepted();
    BallotCompleteness(W, pos, l, authPub, commits, proofs, keys, times);
    assert |proofs[0]| == |pos[0].cand| + 1;
    assert pos[0].cid in pos[0].cand;
  }

  /** The servers take the positions of this election in another order than the client. */
  lemma MixedIsAccepted()
    ensures CreateElection.Accepts(Env({}), MixedPids()) && Stored(MixedPids(), [-1, 1], MixedPids().mapping)
    ensures ForIn([-1, 1]) == [1, -1]
    ensures Grid(ForIn([-1, 1]), MixedPids().mapping) != Grid([-1, 1], MixedPids().mapping)
  {
    hide PairOk, CandidatesOk, HasPosition, Count, Cids, ForIn;
    MixedPairs();
    CountsOfMixed();
    MixedOrder();
    var m := MixedPids().mapping;
    assert Grid([1, -1], m)[0].pid == 1 && Grid([-1, 1], m)[0].pid == -1;
  }

  lemma MixedPairs()
    ensures forall i :: 0 <= i < 4 ==> PairOk(Env({}), MixedPids(), i)
    ensures CandidatesOk(MixedPids().cand)
    ensures forall pid :: HasPosition(MixedPids(), pid) <==> pid == -1 || pid == 1
  {
    hide NameOf;
    var d := MixedPids();
    NamesOf(d, CandIn(1, "a"), CandIn(2, "b"));
    assert d.pos[0].id == -1 && d.pos[1].id == 1;
  }

  lemma CountsOfMixed()
    ensures Count(MixedPids().mapping, -1, 4) == 2 && Count(MixedPids().mapping, 1, 4) == 2
  {
    var m := MixedPids().mapping;
    assert Count(m, -1, 2) == 2 && Count(m, 1, 2) == 0;
    assert Count(m, -1, 3) == 2 && Count(m, 1, 3) == 1;
  }

  lemma MixedOrder()
    ensures ForIn([-1, 1]) == [1, -1]
  {
    var s := [-1, 1];
    assert s[..1] == [-1] && [-1][..0] == [];
    assert Filter([-1], true) == [] && Filter([-1], false) == [-1];
    assert Filter(s, true) == [1] && Filter(s, false) == [-1];
    SortOfAscending([1]);
  }

  // ----- Curve points -----

  /** The point (1, 1) of the small curve, with z = 2. */
  const ONE_SCALED := Jac(false, 4, 8, 2)

  /** Adding it to itself throws. */
  lemma AdditionThrows()
    ensures FiveCurve().Valid() && FiveCurve().Is(ONE_SCALED, 1) && Throws(FiveCurve(), ONE_SCALED, 1, 1)
  {
    FiveCurveValid();
  }
}

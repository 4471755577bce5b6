/** The offline verifier on the records it is given: after an election, on the record the board published, on one
    without entries, and on one with other labels. The record's pids and cids are never read
    (src/common/offlineVerify.js:36-37 leaves its format to be checked), so whose number is whose is for the reader of
    the record to check. */
module VerifiedElection {
  import opened Groups
  import opened Ballots
  import opened HonestVote
  import opened VoteServers
  import opened VoteTheorems
  import opened Tally
  import opened BoardTally
  import opened OfflineVerify
  import opened WholeElection

  // ----- Labels -----

  ghost predicate IsCell(layout: seq<Position>, j: nat, k: nat) {
    j < |layout| && k < |layout[j].cand|
  }

  /** Cell (p, q) of the record is labelled as candidate k of position j. */
  ghost predicate Labelled(published: seq<PosShares>, layout: seq<Position>, p: nat, q: nat, j: nat, k: nat) {
    && p < |published| && q < |published[p].values| && j < |layout| && k < |layout[j].cand|
    && published[p].pid == layout[j].pid && published[p].values[q].cid == layout[j].cand[k]
  }

  ghost predicate Named(published: seq<PosShares>, layout: seq<Position>, j: nat, k: nat) {
    exists p: nat, q: nat :: Labelled(published, layout, p, q, j, k)
  }

  /** Every candidate is named in the record. */
  ghost predicate AllNamed(published: seq<PosShares>, layout: seq<Position>) {
    forall j: nat, k: nat :: IsCell(layout, j, k) ==> Named(published, layout, j, k)
  }

  /** Every candidate has a number in the record, and whatever carries its label opens its own product. */
  ghost predicate Truthful<P(!new)>(m: Master<P>) {
    && AllNamed(m.published, m.layout)
    && forall p: nat, q: nat, j: nat, k: nat :: Labelled(m.published, m.layout, p, q, j, k) ==>
      Passes(m.W.G, m.published[p].values[q].x, m.published[p].values[q].y, m.FilePoints(j, k))
  }

  /** The ballots have the same product at two places. */
  ghost predicate SameProduct<P(!new)>(m: Master<P>, p: nat, q: nat, j: nat, k: nat) {
    m.W.G.Sum(m.FilePoints(p, q)) == m.W.G.Sum(m.FilePoints(j, k))
  }

  /** Every label stands at a place with the same product as its own. */
  ghost predicate OnlyOwn<P(!new)>(m: Master<P>) {
    forall p: nat, q: nat, j: nat, k: nat ::
      Labelled(m.published, m.layout, p, q, j, k) ==> SameProduct(m, p, q, j, k)
  }

  /** After a success the record is truthful exactly if every candidate is named in it, and every label stands at a
      place with the same product as its own. */
  lemma TruthfulIff<P(!new)>(m: Master<P>)
    requires m.Valid() && m.success
    ensures Truthful(m) <==> AllNamed(m.published, m.layout) && OnlyOwn(m)
  {
    hide Master.Valid, Group.Com, Group.Sum;
    m.SuccessMeans();
  }

  ghost predicate DistinctLabels(layout: seq<Position>) {
    && (forall i, j :: 0 <= i < j < |layout| ==> layout[i].pid != layout[j].pid)
    && forall j :: 0 <= j < |layout| ==> Distinct(layout[j].cand)
  }

  /** No two candidates have the same product. */
  ghost predicate AllDifferent<P(!new)>(m: Master<P>) {
    forall p: nat, q: nat, j: nat, k: nat ::
      IsCell(m.layout, p, q) && IsCell(m.layout, j, k) && SameProduct(m, p, q, j, k) ==> p == j && q == k
  }

  lemma OwnPlaceOnly(published: seq<PosShares>, layout: seq<Position>, p: nat, q: nat, j: nat, k: nat)
    requires CountFits(published, layout) && DistinctLabels(layout) && Labelled(published, layout, p, q, j, k)
    ensures p == j && q == k
  {
    assert CountRowFits(published[p], layout[p]);
  }

  /** A record with the election's pids and cids in order gives every candidate its own number. */
  lemma InOrderIsTruthful<P(!new)>(m: Master<P>)
    requires m.Valid() && m.success && DistinctLabels(m.layout) && CountFits(m.published, m.layout)
    ensures Truthful(m)
  {
    hide Master.Valid, Group.Sum, CountFits, DistinctLabels;
    TruthfulIff(m);
    forall j: nat, k: nat | IsCell(m.layout, j, k) ensures Named(m.published, m.layout, j, k) {
      InOrderLabel(m.published, m.layout, j, k);
    }
    forall p: nat, q: nat, j: nat, k: nat | Labelled(m.published, m.layout, p, q, j, k)
      ensures SameProduct(m, p, q, j, k)
    {
      OwnPlaceOnly(m.published, m.layout, p, q, j, k);
    }
  }

  lemma InOrderLabel(published: seq<PosShares>, layout: seq<Position>, j: nat, k: nat)
    requires CountFits(published, layout) && j < |layout| && k < |layout[j].cand|
    ensures Labelled(published, layout, j, k, j, k)
  {
    assert CountRowFits(published[j], layout[j]);
  }

  /** The record has no place that the election lacks. */
  ghost predicate Within(published: seq<PosShares>, layout: seq<Position>) {
    |published| <= |layout| && forall j :: 0 <= j < |published| ==> |published[j].values| <= |layout[j].cand|
  }

  /** One accepted ballot with one entry is enough to find out a place too many. */
  lemma SuccessIsWithin<P(!new)>(m: Master<P>)
    requires m.Valid() && m.success && m.file != [] && m.tellerKeys != []
    ensures Within(m.published, m.layout)
  {
    hide World.Valid, Linked, Begun, Master.Alive, BoardAccepts;
    m.SuccessMeans();
    m.Placed();
    assert m.LineCarries(0);
    var v := m.Handed(0);
    FirstEntryFits(m.W, m.layout, m.tellerKeys, m.authPub, v);
    var val := m.file[0].vote.zs[0].val;
    assert Reaches(val, m.Shape());
    forall j | 0 <= j < |m.published| ensures |m.published[j].values| <= |m.layout[j].cand| {
      assert ZRowFits(val[j], m.layout[j]);
      assert |val[j].values| >= |m.Shape()[j].cand|;
    }
  }

  lemma FirstEntryFits<P(!new)>(W: World<P>, layout: seq<Position>, tellerKeys: seq<string>, authPub: string,
                                v: Vote<P>)
    requires W.G.order > 0 && BoardAccepts(W, layout, tellerKeys, authPub, v) && tellerKeys != []
    ensures v.zs != [] && ZFits(v.zs[0].val, layout)
  {
    hide PositionProved, LinkOk, CommitStr;
    assert TellerPartOk(W, layout, tellerKeys, v.link, v.zs[0]);
  }

  /** Where no two candidates have the same product, a successful record is truthful exactly if it has the election's
      pids and cids in order. */
  lemma TruthfulInOrder<P(!new)>(m: Master<P>)
    requires m.Valid() && m.success && m.file != [] && m.tellerKeys != [] && DistinctLabels(m.layout)
    requires AllDifferent(m) && forall j :: 0 <= j < |m.layout| ==> m.layout[j].cand != []
    ensures Truthful(m) <==> CountFits(m.published, m.layout)
  {
    hide Master.Valid, Group.Sum, CountFits, DistinctLabels, Truthful, SameProduct;
    if CountFits(m.published, m.layout) {
      InOrderIsTruthful(m);
    }
    if Truthful(m) {
      TruthfulIff(m);
      SuccessIsWithin(m);
      forall j: nat, k: nat | IsCell(m.layout, j, k) ensures Labelled(m.published, m.layout, j, k, j, k) {
        assert Named(m.published, m.layout, j, k);
        var p: nat, q: nat :| Labelled(m.published, m.layout, p, q, j, k);
        assert SameProduct(m, p, q, j, k);
        assert IsCell(m.layout, p, q) && IsCell(m.layout, j, k);
      }
      AllLabelled(m.published, m.layout);
    }
  }

  lemma AllLabelled(published: seq<PosShares>, layout: seq<Position>)
    requires Within(published, layout) && forall j :: 0 <= j < |layout| ==> layout[j].cand != []
    requires forall j: nat, k: nat :: IsCell(layout, j, k) ==> Labelled(published, layout, j, k, j, k)
    ensures CountFits(published, layout)
  {
    if layout != [] {
      assert IsCell(layout, |layout| - 1, 0);
    }
    forall j | 0 <= j < |layout| ensures j < |published| && CountRowFits(published[j], layout[j]) {
      assert IsCell(layout, j, 0) && IsCell(layout, j, |layout[j].cand| - 1);
      forall k | 0 <= k < |layout[j].cand| ensures published[j].values[k].cid == layout[j].cand[k] {
        assert IsCell(layout, j, k);
      }
    }
  }

  // ----- The verifier after an election -----

  /** A dump gives no election's id with its lines, so that there may be anything in its place. */
  function LinesOf<P>(out: seq<Paging.Rec<Vote<P>>>, ids: nat -> int): (r: seq<BallotLine<P>>)
    ensures |r| == |out|
    ensures forall n :: 0 <= n < |r| ==> r[n].Parsed? && SameButId(r[n].vote, out[n].data)
    ensures forall n :: 0 <= n < |r| ==> r[n].vote.link.eid == ids(n)
  {
    seq(|out|, n requires 0 <= n < |out| =>
      Parsed(out[n].data.(link := out[n].data.link.(eid := ids(n)))))
  }

  /** The verifier is given this dump, with whatever ids, and this record. */
  ghost predicate Given<P(!new)>(E: Setting<P>, m: Master<P>, out: seq<Paging.Rec<Vote<P>>>, record: seq<PosShares>) {
    && m.W == E.W && m.layout == E.layout && m.eid == E.eid && m.tellerKeys == Pubs(E.W, E.keys)
    && m.authPub == E.authPub && m.published == record
    && |m.file| == |out| && forall l :: 0 <= l < |out| ==> m.file[l].Parsed? && SameButId(m.file[l].vote, out[l].data)
  }

  lemma DumpIsRight<P(!new)>(E: Setting<P>, m: Master<P>, out: seq<Paging.Rec<Vote<P>>>, record: seq<PosShares>,
                             casts: seq<Cast<P>>, at: seq<nat>)
    requires E.Valid() && GoodCasts(E, casts) && TableIs(E, out, casts, at) && Given(E, m, out, record)
    ensures forall l :: 0 <= l < |m.file| ==> m.Kinds()[l].Right? && m.file[l].Parsed?
    ensures |BoardLines(out)| == |m.file|
    ensures forall l :: 0 <= l < |m.file| ==> BoardLines(out)[l] == Read(m.file[l].vote.zs)
  {
    hide World.Valid, GoodCasts, HonestBallot, BoardAccepts, LinkOk;
    forall l | 0 <= l < |m.file| ensures m.Kinds()[l].Right? {
      var c := casts[at[l]];
      assert IsRecord(E, out[l], c);
      assert m.Handed(l) == VoteOf(E, c);
      assert m.KindOf(l).Right?;
    }
  }

  /** On the dump of an election and any record, whatever the schedule: success exactly if every pair of the record
      opens the product at its place and no ballot lacks a place. */
  method Verify<P(!new,==)>(E: Setting<P>, out: seq<Paging.Rec<Vote<P>>>, ids: nat -> int, record: seq<PosShares>,
                            numCPUs: nat, schedule: nat -> (nat, bool), ghost casts: seq<Cast<P>>, ghost at: seq<nat>)
    returns (m: Master<P>)
    requires E.Valid() && GoodCasts(E, casts) && TableIs(E, out, casts, at) && numCPUs > 0
    requires forall t: nat :: !schedule(t).1
    ensures fresh(m) && m.Valid() && Given(E, m, out, record)
    ensures m.success <==> m.PublishedRight() && forall l :: 0 <= l < |m.file| ==> m.LineCarries(l)
  {
    hide World.Valid, GoodCasts, TableIs, Master.Consistent, Begun, Master.PublishedRight, Master.LineCarries;
    m := new Master(E.W, E.layout, E.eid, Pubs(E.W, E.keys), E.authPub, record, LinesOf(out, ids), numCPUs);
    m.Run(schedule);
    DumpIsRight(E, m, out, record, casts, at);
    m.RunOutcome();
  }

  /** A record without entries passes, whatever was voted. */
  method VerifyNothing<P(!new,==)>(E: Setting<P>, out: seq<Paging.Rec<Vote<P>>>, ids: nat -> int, numCPUs: nat,
                                   schedule: nat -> (nat, bool), ghost casts: seq<Cast<P>>, ghost at: seq<nat>)
    returns (m: Master<P>)
    requires E.Valid() && GoodCasts(E, casts) && TableIs(E, out, casts, at) && numCPUs > 0
    requires forall t: nat :: !schedule(t).1
    ensures Given(E, m, out, []) && m.success
  {
    hide World.Valid, GoodCasts, TableIs, Master.Consistent, Begun;
    m := Verify(E, out, ids, [], numCPUs, schedule, casts, at);
    DumpIsRight(E, m, out, [], casts, at);
  }

  /** The same numbers at the same places, under whatever pids and cids. */
  ghost predicate SameNumbers(a: seq<PosShares>, b: seq<PosShares>) {
    |a| == |b| && forall j :: 0 <= j < |a| ==>
      |a[j].values| == |b[j].values| && forall k :: 0 <= k < |a[j].values| ==>
        a[j].values[k].x == b[j].values[k].x && a[j].values[k].y == b[j].values[k].y
  }

  /** Labels make no difference. */
  lemma LabelsUnread<P(!new)>(E: Setting<P>, m: Master<P>, n: Master<P>, out: seq<Paging.Rec<Vote<P>>>,
                              record: seq<PosShares>, other: seq<PosShares>)
    requires Given(E, m, out, record) && Given(E, n, out, other) && SameNumbers(record, other)
    ensures m.PublishedRight() <==> n.PublishedRight()
    ensures forall l :: 0 <= l < |m.file| ==> (m.LineCarries(l) <==> n.LineCarries(l))
  {
    hide Passes;
    assert forall j, k :: m.FilePoints(j, k) == n.FilePoints(j, k);
    SameReach(m.Shape(), n.Shape());
  }

  lemma SameReach(a: seq<Position>, b: seq<Position>)
    requires |a| == |b| && forall j :: 0 <= j < |a| ==> |a[j].cand| == |b[j].cand|
    ensures forall zs: seq<TellerZ> :: Carries(zs, a) <==> Carries(zs, b)
  {
    forall val: seq<PosZ> ensures Reaches(val, a) <==> Reaches(val, b) {
    }
  }

  // ----- Whole runs -----

  /** An election of any voters, and the verifier on what was dumped and published: it reports success. */
  method ElectionVerifies<P(!new,==)>(E: Setting<P>, C: Paging.Collation, voters: seq<Voter>, limit: nat, time: int,
                                      ids: nat -> int, numCPUs: nat, schedule: nat -> (nat, bool))
    returns (published: seq<PosShares>, m: Master<P>)
    requires E.Valid() && C.Valid() && limit >= 1 && Voters(E, voters) && |voters| < E.W.G.order
    requires numCPUs > 0 && forall t: nat :: !schedule(t).1
    ensures m.published == published && CountFits(published, E.layout) && m.success
  {
    hide World.Valid, GoodCasts, C.Valid, Sensible, CountFits, Master.Consistent, Begun, TableIs, LineReaches;
    var accepted, out;
    ghost var casts, at;
    accepted, out, published, casts, at := Election(E, C, voters, limit, time);
    m := Verify(E, out, ids, published, numCPUs, schedule, casts, at);
    DumpIsRight(E, m, out, published, casts, at);
    m.SumsConfirmed(BoardLines(out));
  }

  /** Two candidates of a position with their labels exchanged, and the numbers left where they were. */
  function Relabel(record: seq<PosShares>, j: nat, a: nat, b: nat): (r: seq<PosShares>)
    requires j < |record| && a < |record[j].values| && b < |record[j].values|
    ensures SameNumbers(record, r)
    ensures r[j].values[a].cid == record[j].values[b].cid && r[j].values[b].cid == record[j].values[a].cid
  {
    var v := record[j].values;
    record[j := record[j].(values := v[a := v[a].(cid := v[b].cid)][b := v[b].(cid := v[a].cid)])]
  }

  /** After any election, the verifier reports success as well on the record that gives two candidates each other's
      number. */
  method RelabelledVerifies<P(!new,==)>(E: Setting<P>, C: Paging.Collation, voters: seq<Voter>, limit: nat, time: int,
                                        ids: nat -> int, numCPUs: nat, schedule: nat -> (nat, bool), j: nat, a: nat,
                                        b: nat)
    returns (accepted: seq<bool>, m: Master<P>)
    requires E.Valid() && C.Valid() && limit >= 1 && Voters(E, voters) && |voters| < E.W.G.order
    requires numCPUs > 0 && forall t: nat :: !schedule(t).1
    requires j < |E.layout| && a < |E.layout[j].cand| && b < |E.layout[j].cand|
    ensures |accepted| == |voters| && forall n :: 0 <= n < |voters| && Sensible(voters[n]) ==> accepted[n]
    ensures m.success && j < |m.published| && a < |m.published[j].values| && b < |m.published[j].values|
    ensures var cand, values := E.layout[j].cand, m.published[j].values;
      values[b].cid == cand[a] && values[b].x == |Chose(voters, accepted, j, cand[b])|
      && values[a].cid == cand[b] && values[a].x == |Chose(voters, accepted, j, cand[a])|
  {
    hide World.Valid, GoodCasts, C.Valid, Sensible, Master.Consistent, Begun, TableIs, LineReaches;
    var out, published;
    ghost var casts, at;
    accepted, out, published, casts, at := Election(E, C, voters, limit, time);
    RecordCells(published, E.layout, j, a, b);
    var other := Relabel(published, j, a, b);
    var first := Verify(E, out, ids, published, numCPUs, schedule, casts, at);
    DumpIsRight(E, first, out, published, casts, at);
    first.SumsConfirmed(BoardLines(out));
    m := Verify(E, out, ids, other, numCPUs, schedule, casts, at);
    LabelsUnread(E, first, m, out, published, other);
  }

  lemma RecordCells(published: seq<PosShares>, layout: seq<Position>, j: nat, a: nat, b: nat)
    requires CountFits(published, layout) && j < |layout| && a < |layout[j].cand| && b < |layout[j].cand|
    ensures |published| == |layout| && |published[j].values| == |layout[j].cand|
    ensures published[j].values[a] == CountCell(published, layout, j, a)
    ensures published[j].values[b] == CountCell(published, layout, j, b)
    ensures published[j].values[a].cid == layout[j].cand[a] && published[j].values[b].cid == layout[j].cand[b]
  {
    assert CountRowFits(published[j], layout[j]);
  }
}

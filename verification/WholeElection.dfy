/** An election from the voters' choices to the published numbers, run through all the servers: clients, tellers, the
    board's table and its dump, the tellers' tallies, and the board's final one (the course of doc_simulate_election
    and of src/autoscript/autovote.js). */
module WholeElection {
  import opened Wrappers
  import opened Proof01
  import opened Ballots
  import opened ShareGeneration
  import opened HonestVote
  import opened VoteServers
  import opened VoteTheorems
  import opened Tally
  import opened TellerTally
  import opened BoardTally
  import opened TallyTheorems
  import Paging

  /** What all servers know of the election; keys are the tellers' signing keys. */
  datatype Setting<!P(!new)> = Setting(W: World<P>, eid: int, layout: seq<Position>, authPub: string, espPub: string,
                                       keys: seq<string>)
  {
    ghost predicate Valid() { W.G.order > 0 && W.Valid() && keys != [] }
  }

  /** A voter's link and choices, the times at which the tellers sign, and the coins the client will draw. */
  datatype Voter = Voter(link: Link, pos: seq<Choice>, times: seq<int>, coinX: nat -> nat -> nat -> nat,
                         coinY: nat -> nat -> nat -> nat, proofCoins: nat -> nat -> (nat, nat, nat))

  /** What the client made of them. */
  datatype Cast<P> = Cast(link: Link, pos: seq<Choice>, times: seq<int>, commits: seq<seq<PosCells>>,
                          proofs: seq<seq<Proof<P>>>)

  ghost predicate Registered<P(!new)>(E: Setting<P>, v: Voter) {
    && LayoutOf(v.pos) == E.layout && |v.times| == |E.keys|
    && LinkOk(E.W, v.link, E.authPub) && v.link.eid == E.eid
  }

  ghost predicate GoodCast<P(!new)>(E: Setting<P>, c: Cast<P>)
    requires E.W.G.order > 0
  {
    && LayoutOf(c.pos) == E.layout && |c.commits| == |E.keys| == |c.times|
    && LinkOk(E.W, c.link, E.authPub) && c.link.eid == E.eid
    && HonestBallot(E.W, c.pos, c.commits, c.proofs)
  }

  ghost predicate GoodCasts<P(!new)>(E: Setting<P>, casts: seq<Cast<P>>)
    requires E.W.G.order > 0
  {
    && (forall b :: 0 <= b < |casts| ==> GoodCast(E, casts[b]))
    && forall a, b :: 0 <= a < b < |casts| ==> casts[a].link.rid != casts[b].link.rid
  }

  function VoteOf<P(!new)>(E: Setting<P>, c: Cast<P>): Vote<P>
    requires |c.commits| == |E.keys| == |c.times|
  {
    Sent(E.W, c.link, c.commits, c.proofs, E.keys, c.times)
  }

  // ----- The tellers while the election is open -----

  function SignOf<P(!new)>(E: Setting<P>, i: nat, c: Cast<P>): string
    requires i < |E.keys| == |c.commits| == |c.times|
  {
    E.W.sign(E.keys[i], CommitStr(E.W, c.link, Strip(c.commits[i]), c.times[i]))
  }

  ghost predicate RowIs<P(!new)>(E: Setting<P>, i: nat, row: Row, c: Cast<P>)
    requires i < |E.keys| == |c.commits| == |c.times|
  {
    row == Row(c.link, SignOf(E, i, c), row.data, c.times[i], None, false) && AllSharesOf(row.data, c.commits[i])
  }

  /** Teller i stores every vote cast so far. */
  ghost predicate Stores<P(!new)>(E: Setting<P>, i: nat, rows: seq<Row>, casts: seq<Cast<P>>)
    requires E.W.G.order > 0 && GoodCasts(E, casts) && i < |E.keys|
  {
    |rows| == |casts| && forall b :: 0 <= b < |rows| ==> GoodCast(E, casts[b]) && RowIs(E, i, rows[b], casts[b])
  }

  ghost predicate IsTeller<P(!new)>(E: Setting<P>, i: nat, db: TellerDb<P>)
    requires i < |E.keys|
    reads db
  {
    && db.W == E.W && db.eid == E.eid && db.layout == E.layout && db.authPub == E.authPub && db.key == E.keys[i]
    && db.Valid() && db.count.None?
  }

  ghost predicate Tellers<P(!new)>(E: Setting<P>, dbs: seq<TellerDb<P>>, casts: seq<Cast<P>>, state: int)
    requires E.W.G.order > 0 && GoodCasts(E, casts)
    reads dbs
  {
    && |dbs| == |E.keys| && (forall a, b :: 0 <= a < b < |dbs| ==> dbs[a] != dbs[b])
    && forall i :: 0 <= i < |dbs| ==>
      IsTeller(E, i, dbs[i]) && dbs[i].state == state && Stores(E, i, dbs[i].rows, casts)
  }

  lemma NewKey<P(!new)>(E: Setting<P>, i: nat, rows: seq<Row>, casts: seq<Cast<P>>, c: Cast<P>)
    requires E.W.G.order > 0 && GoodCasts(E, casts + [c]) && GoodCasts(E, casts) && i < |E.keys|
    requires Stores(E, i, rows, casts)
    ensures forall sign :: !HasKey(rows, (c.link.rid, sign))
  {
    hide HonestBallot, LinkOk;
    var all := casts + [c];
    forall b | 0 <= b < |rows| ensures rows[b].Id().0 != c.link.rid {
      assert RowIs(E, i, rows[b], casts[b]);
      assert all[b] == casts[b] && all[|casts|] == c;
    }
  }

  /** One teller checks, keeps and signs its part of a vote. */
  method SaveOne<P(!new,==)>(E: Setting<P>, i: nat, db: TellerDb<P>, c: Cast<P>, ghost casts: seq<Cast<P>>)
    returns (z: TellerZ)
    requires E.Valid() && GoodCasts(E, casts + [c]) && GoodCasts(E, casts) && GoodCast(E, c) && i < |E.keys|
    requires IsTeller(E, i, db) && db.state == 2 && Stores(E, i, db.rows, casts)
    modifies db`rows
    ensures IsTeller(E, i, db) && Stores(E, i, db.rows, casts + [c])
    ensures z == VoteOf(E, c).zs[i]
  {
    hide HonestBallot, LinkOk, TellerAccepts, CommitStr, World.Valid;
    NewKey(E, i, db.rows, casts, c);
    HonestAccepted(E, c, i);
    var code, sign := db.SaveVote(TellerVote(c.link, c.commits[i]), c.times[i]);
    assert code == 0;
    z := TellerZ(i, Strip(c.commits[i]), sign, c.times[i]);
  }

  lemma HonestAccepted<P(!new)>(E: Setting<P>, c: Cast<P>, i: nat)
    requires E.Valid() && GoodCast(E, c) && i < |E.keys|
    ensures TellerAccepts(E.W, E.layout, E.authPub, TellerVote(c.link, c.commits[i]))
  {
    hide World.Valid, HonestShares, ProvesPosition, LinkOk, TellerAccepts;
    TellersAccept(E.W, c.pos, c.link, E.authPub, c.commits, i);
  }

  method SaveAtAll<P(!new,==)>(E: Setting<P>, dbs: seq<TellerDb<P>>, c: Cast<P>, ghost casts: seq<Cast<P>>)
    returns (zs: seq<TellerZ>)
    requires E.Valid() && GoodCasts(E, casts + [c]) && GoodCasts(E, casts) && GoodCast(E, c)
    requires Tellers(E, dbs, casts, 2)
    modifies dbs
    ensures Tellers(E, dbs, casts + [c], 2) && zs == VoteOf(E, c).zs
  {
    hide World.Valid, GoodCasts, HonestBallot, Stores, IsTeller, LinkOk;
    zs := [];
    for i := 0 to |dbs|
      invariant |zs| == i && forall m :: 0 <= m < i ==> zs[m] == VoteOf(E, c).zs[m]
      invariant forall m :: 0 <= m < |dbs| ==> IsTeller(E, m, dbs[m]) && dbs[m].state == 2
      invariant forall m :: 0 <= m < i ==> Stores(E, m, dbs[m].rows, casts + [c])
      invariant forall m :: i <= m < |dbs| ==> Stores(E, m, dbs[m].rows, casts)
    {
      label before:
      var z := SaveOne(E, i, dbs[i], c, casts);
      forall m | 0 <= m < |dbs| && m != i ensures IsTeller(E, m, dbs[m]) && dbs[m].rows == old@before(dbs[m].rows) {
        assert old@before(IsTeller(E, m, dbs[m]));
      }
      zs := zs + [z];
    }
  }

  // ----- The board's table while the election is open -----

  /** The table holds the votes at these places, all of them accepted, in the order in which they came. */
  ghost predicate TableIs<P(!new)>(E: Setting<P>, rows: seq<Paging.Rec<Vote<P>>>, casts: seq<Cast<P>>, at: seq<nat>)
    requires E.W.G.order > 0 && GoodCasts(E, casts)
  {
    |rows| == |at| && forall m :: 0 <= m < |at| ==> at[m] < |casts| && IsRecord(E, rows[m], casts[at[m]])
  }

  ghost predicate IsRecord<P(!new)>(E: Setting<P>, r: Paging.Rec<Vote<P>>, c: Cast<P>)
    requires E.W.G.order > 0
  {
    && GoodCast(E, c) && r == Paging.Rec(c.link.rid, VoteOf(E, c))
    && BoardAccepts(E.W, E.layout, Pubs(E.W, E.keys), E.authPub, VoteOf(E, c))
  }

  ghost predicate Rises(at: seq<nat>, n: nat) {
    (forall m :: 0 <= m < |at| ==> at[m] < n) && forall a, b :: 0 <= a < b < |at| ==> at[a] < at[b]
  }

  lemma TableGrows<P(!new)>(E: Setting<P>, rows: seq<Paging.Rec<Vote<P>>>, casts: seq<Cast<P>>, at: seq<nat>,
                            c: Cast<P>)
    requires E.W.G.order > 0 && GoodCasts(E, casts + [c]) && GoodCasts(E, casts) && GoodCast(E, c)
    requires TableIs(E, rows, casts, at)
    ensures TableIs(E, rows, casts + [c], at)
    ensures forall m :: 0 <= m < |rows| ==> rows[m].rid != c.link.rid
    ensures BoardAccepts(E.W, E.layout, Pubs(E.W, E.keys), E.authPub, VoteOf(E, c)) ==>
      TableIs(E, rows + [Paging.Rec(c.link.rid, VoteOf(E, c))], casts + [c], at + [|casts|])
  {
    hide HonestBallot, LinkOk, BoardAccepts;
    var all := casts + [c];
    assert all[|casts|] == c;
    forall m | 0 <= m < |rows| ensures rows[m].rid != c.link.rid && all[at[m]] == casts[at[m]] {
      assert IsRecord(E, rows[m], casts[at[m]]);
      assert all[at[m]].link.rid != all[|casts|].link.rid;
    }
  }

  /** A vote in which every position's choice makes sense. */
  ghost predicate Sensible(v: Voter) {
    forall j :: 0 <= j < |v.pos| ==> Distinct(v.pos[j].cand) && ChoiceOk(v.pos[j])
  }

  lemma SensibleAccepted<P(!new)>(E: Setting<P>, v: Voter, c: Cast<P>)
    requires E.Valid() && GoodCast(E, c) && c.pos == v.pos && Sensible(v)
    ensures BoardAccepts(E.W, E.layout, Pubs(E.W, E.keys), E.authPub, VoteOf(E, c))
  {
    hide World.Valid, HonestBallot, BoardAccepts, LinkOk, TellerAccepts, Degenerate;
    BallotCompleteness(E.W, c.pos, c.link, E.authPub, c.commits, c.proofs, E.keys, c.times);
  }

  method MakeVote<P(!new)>(E: Setting<P>, v: Voter) returns (c: Cast<P>)
    requires E.Valid() && Registered(E, v)
    ensures GoodCast(E, c) && c.link == v.link && c.pos == v.pos
  {
    hide World.Valid, HonestBallot, LinkOk;
    var commits, proofs := GenerateVote(E.W, v.pos, |E.keys|, v.coinX, v.coinY, v.proofCoins);
    c := Cast(v.link, v.pos, v.times, commits, proofs);
  }

  /** One voter: the client's vote at every teller, then at the board, which stores it if its check accepts it. */
  method CastVote<P(!new,==)>(E: Setting<P>, dbs: seq<TellerDb<P>>, table: Paging.BallotTable<Vote<P>>, v: Voter,
                              c: Cast<P>, ghost casts: seq<Cast<P>>, ghost at: seq<nat>)
    returns (accepted: bool)
    requires E.Valid() && GoodCasts(E, casts + [c]) && GoodCasts(E, casts) && GoodCast(E, c) && c.pos == v.pos
    requires Tellers(E, dbs, casts, 2) && table.Valid() && table.state == 2 && TableIs(E, table.rows, casts, at)
    modifies dbs, table`rows
    ensures Tellers(E, dbs, casts + [c], 2) && table.Valid() && (Sensible(v) ==> accepted)
    ensures TableIs(E, table.rows, casts + [c], if accepted then at + [|casts|] else at)
  {
    hide World.Valid, GoodCasts, HonestBallot, LinkOk, BoardAccepts, Tellers, TableIs, Sensible;
    if Sensible(v) {
      SensibleAccepted(E, v, c);
    }
    TableGrows(E, table.rows, casts, at, c);
    var zs := SaveAtAll(E, dbs, c, casts);
    var vote := Vote(c.link, zs, c.proofs);
    assert vote == VoteOf(E, c);
    accepted := VerifyBallot(E.W, E.layout, Pubs(E.W, E.keys), E.authPub, vote);
    if accepted {
      var code := table.SaveVote(c.link.rid, vote);
      assert code == 0;
    }
  }

  ghost predicate Voters<P(!new)>(E: Setting<P>, voters: seq<Voter>) {
    && (forall b :: 0 <= b < |voters| ==> Registered(E, voters[b]))
    && forall a, b :: 0 <= a < b < |voters| ==> voters[a].link.rid != voters[b].link.rid
  }

  /** The votes are those of the first voters, and the accepted ones are in the table. */
  ghost predicate VotedSoFar<P(!new)>(voters: seq<Voter>, casts: seq<Cast<P>>, accepted: seq<bool>, at: seq<nat>)
  {
    && |casts| == |accepted| <= |voters| && Rises(at, |casts|)
    && (forall b :: 0 <= b < |casts| ==> casts[b].link == voters[b].link && casts[b].pos == voters[b].pos)
    && (forall b :: 0 <= b < |casts| ==> (accepted[b] <==> b in at))
    && forall b :: 0 <= b < |casts| && Sensible(voters[b]) ==> accepted[b]
  }

  lemma OneMoreVoter<P(!new)>(voters: seq<Voter>, casts: seq<Cast<P>>, accepted: seq<bool>, at: seq<nat>, c: Cast<P>,
                              ok: bool)
    requires VotedSoFar(voters, casts, accepted, at) && |casts| < |voters|
    requires c.link == voters[|casts|].link && c.pos == voters[|casts|].pos && (Sensible(voters[|casts|]) ==> ok)
    ensures VotedSoFar(voters, casts + [c], accepted + [ok], if ok then at + [|casts|] else at)
  {
    hide Sensible, VotedSoFar;
    VotedParts(voters, casts, accepted, at);
    var at' := if ok then at + [|casts|] else at;
    assert Rises(at', |casts| + 1);
    assert forall b :: b in at' <==> b in at || (ok && b == |casts|);
    MoreVoted(voters, casts, accepted, at, c, ok, at');
  }

  lemma VotedParts<P(!new)>(voters: seq<Voter>, casts: seq<Cast<P>>, accepted: seq<bool>, at: seq<nat>)
    requires VotedSoFar(voters, casts, accepted, at)
    ensures Rises(at, |casts|) && |casts| !in at
  {
  }

  lemma MoreVoted<P(!new)>(voters: seq<Voter>, casts: seq<Cast<P>>, accepted: seq<bool>, at: seq<nat>, c: Cast<P>,
                           ok: bool, at': seq<nat>)
    requires VotedSoFar(voters, casts, accepted, at) && |casts| < |voters|
    requires c.link == voters[|casts|].link && c.pos == voters[|casts|].pos && (Sensible(voters[|casts|]) ==> ok)
    requires Rises(at', |casts| + 1) && forall b :: b in at' <==> b in at || (ok && b == |casts|)
    ensures VotedSoFar(voters, casts + [c], accepted + [ok], at')
  {
    hide Sensible;
  }

  lemma OneMoreGood<P(!new)>(E: Setting<P>, voters: seq<Voter>, casts: seq<Cast<P>>, c: Cast<P>)
    requires E.W.G.order > 0 && Voters(E, voters) && GoodCasts(E, casts) && GoodCast(E, c) && |casts| < |voters|
    requires forall b :: 0 <= b < |casts| ==> casts[b].link == voters[b].link
    requires c.link == voters[|casts|].link
    ensures GoodCasts(E, casts + [c])
  {
    hide GoodCast, Registered;
    var all := casts + [c];
    assert forall b :: 0 <= b < |all| ==> all[b].link == voters[b].link && GoodCast(E, all[b]);
  }

  /** The voters, one after the other. */
  method Voting<P(!new,==)>(E: Setting<P>, dbs: seq<TellerDb<P>>, table: Paging.BallotTable<Vote<P>>,
                            voters: seq<Voter>)
    returns (casts: seq<Cast<P>>, accepted: seq<bool>, ghost at: seq<nat>)
    requires E.Valid() && Voters(E, voters)
    requires Tellers(E, dbs, [], 2) && table.Valid() && table.state == 2 && table.rows == []
    modifies dbs, table`rows
    ensures GoodCasts(E, casts) && |casts| == |voters| && VotedSoFar(voters, casts, accepted, at)
    ensures Tellers(E, dbs, casts, 2) && table.Valid() && TableIs(E, table.rows, casts, at)
  {
    hide World.Valid, GoodCasts, GoodCast, VotedSoFar, Tellers, TableIs;
    casts, accepted, at := [], [], [];
    NobodyYet(E, voters);
    for b := 0 to |voters|
      invariant |casts| == b && GoodCasts(E, casts) && VotedSoFar(voters, casts, accepted, at)
      invariant Tellers(E, dbs, casts, 2) && table.Valid() && table.state == 2 && TableIs(E, table.rows, casts, at)
    {
      var c := MakeVote(E, voters[b]);
      SameLinks(voters, casts, accepted, at);
      OneMoreGood(E, voters, casts, c);
      var ok := CastVote(E, dbs, table, voters[b], c, casts, at);
      OneMoreVoter(voters, casts, accepted, at, c, ok);
      at := if ok then at + [|casts|] else at;
      casts, accepted := casts + [c], accepted + [ok];
    }
  }

  lemma NobodyYet<P(!new)>(E: Setting<P>, voters: seq<Voter>)
    requires E.W.G.order > 0
    ensures GoodCasts(E, []) && VotedSoFar<P>(voters, [], [], []) && TableIs(E, [], [], [])
  {
  }

  lemma SameLinks<P(!new)>(voters: seq<Voter>, casts: seq<Cast<P>>, accepted: seq<bool>, at: seq<nat>)
    requires VotedSoFar(voters, casts, accepted, at)
    ensures forall b :: 0 <= b < |casts| ==> casts[b].link == voters[b].link && casts[b].pos == voters[b].pos
  {
  }

  // ----- The dump -----

  /** The dump has the votes at these places. */
  ghost predicate DumpIs<P(!new)>(E: Setting<P>, out: seq<Paging.Rec<Vote<P>>>, casts: seq<Cast<P>>, at: seq<nat>)
    requires E.W.G.order > 0 && GoodCasts(E, casts)
  {
    && TableIs(E, out, casts, at)
    && forall m, n :: 0 <= m < n < |at| ==> at[m] != at[n]
  }

  ghost function PlaceOf<T(!new)>(rows: seq<T>, r: T): (m: nat)
    requires r in rows
    ensures m < |rows| && rows[m] == r
  {
    var m :| 0 <= m < |rows| && rows[m] == r;
    m
  }

  lemma DumpPlaces<P(!new)>(E: Setting<P>, C: Paging.Collation, rows: seq<Paging.Rec<Vote<P>>>,
                            out: seq<Paging.Rec<Vote<P>>>, casts: seq<Cast<P>>, at: seq<nat>)
    returns (dumpAt: seq<nat>)
    requires E.W.G.order > 0 && GoodCasts(E, casts) && C.Valid()
    requires TableIs(E, rows, casts, at) && Paging.IsDump(C, rows, out)
    ensures DumpIs(E, out, casts, dumpAt) && forall b :: b in dumpAt <==> b in at
  {
    hide GoodCast, C.Valid, BoardAccepts;
    dumpAt := seq(|out|, n requires 0 <= n < |out| => assert out[n] in rows; at[PlaceOf(rows, out[n])]);
    forall n | 0 <= n < |out| ensures dumpAt[n] in at && IsRecord(E, out[n], casts[dumpAt[n]]) {
      assert out[n] in rows;
      assert IsRecord(E, rows[PlaceOf(rows, out[n])], casts[at[PlaceOf(rows, out[n])]]);
    }
    forall m, n | 0 <= m < n < |out| ensures dumpAt[m] != dumpAt[n] {
      NotTwice(C, out, m, n);
      assert IsRecord(E, out[m], casts[dumpAt[m]]) && IsRecord(E, out[n], casts[dumpAt[n]]);
    }
    forall b | b in at ensures b in dumpAt {
      var m :| 0 <= m < |at| && at[m] == b;
      assert rows[m] in out;
      var n :| 0 <= n < |out| && out[n] == rows[m];
      assert IsRecord(E, rows[m], casts[b]) && IsRecord(E, out[n], casts[dumpAt[n]]);
      OneRid(E, casts, b, dumpAt[n]);
    }
  }

  lemma NotTwice<V(!new)>(C: Paging.Collation, out: seq<Paging.Rec<V>>, m: nat, n: nat)
    requires C.Valid() && Paging.Ordered(C, out) && m < n < |out|
    ensures out[m] != out[n]
  {
    assert C.Irreflexive(out[m].rid);
  }

  lemma OneRid<P(!new)>(E: Setting<P>, casts: seq<Cast<P>>, a: nat, b: nat)
    requires E.W.G.order > 0 && GoodCasts(E, casts) && a < |casts| && b < |casts|
    requires casts[a].link.rid == casts[b].link.rid
    ensures a == b
  {
    hide GoodCast;
  }

  function EntriesOf(zs: seq<TellerZ>): (r: seq<Entry>)
    ensures |r| == |zs| && forall i :: 0 <= i < |r| ==> r[i] == Entry(zs[i].idx, Some(zs[i].sign))
  {
    seq(|zs|, i requires 0 <= i < |zs| => Entry(zs[i].idx, Some(zs[i].sign)))
  }

  /** The dump as a teller's tally reads it, and as the board's does. */
  function TellerLines<P>(out: seq<Paging.Rec<Vote<P>>>): (r: seq<Line>)
    ensures |r| == |out| && forall n :: 0 <= n < |r| ==> r[n] == BallotLine(out[n].rid, EntriesOf(out[n].data.zs))
  {
    seq(|out|, n requires 0 <= n < |out| => BallotLine(out[n].rid, EntriesOf(out[n].data.zs)))
  }

  function BoardLines<P>(out: seq<Paging.Rec<Vote<P>>>): (r: seq<FileLine>)
    ensures |r| == |out| && forall n :: 0 <= n < |r| ==> r[n] == Read(out[n].data.zs)
  {
    seq(|out|, n requires 0 <= n < |out| => Read(out[n].data.zs))
  }

  // ----- What a teller's tally counts -----

  ghost function KeysAt<P(!new)>(E: Setting<P>, i: nat, casts: seq<Cast<P>>, at: seq<nat>): (r: seq<Key>)
    requires E.W.G.order > 0 && GoodCasts(E, casts) && i < |E.keys| && forall n :: 0 <= n < |at| ==> at[n] < |casts|
    ensures |r| == |at| && forall n :: 0 <= n < |r| ==> r[n] == KeyOf(E, i, casts[at[n]])
  {
    seq(|at|, n requires 0 <= n < |at| => KeyOf(E, i, casts[at[n]]))
  }

  ghost function KeyOf<P(!new)>(E: Setting<P>, i: nat, c: Cast<P>): Key
    requires E.W.G.order > 0 && GoodCast(E, c) && i < |E.keys|
  {
    (c.link.rid, SignOf(E, i, c))
  }

  /** A ballot whose entries are in the order of the tellers names exactly one vote of each. */
  lemma {:induction false} OnePick(rid: string, zs: seq<Entry>, i: nat, sign: string, n: nat)
    requires i < |zs| && n <= |zs| && zs[i].sign == Some(sign) && forall m :: 0 <= m < |zs| ==> zs[m].idx == m
    ensures EntryPicks(rid, zs, i, n) == Some(if n <= i then [] else [(rid, sign)])
  {
    var none: seq<Key> := [];
    assert none + [(rid, sign)] == [(rid, sign)];
    if n > 0 {
      OnePick(rid, zs, i, sign, n - 1);
    }
  }

  lemma {:induction false} OnePickEach(file: seq<Line>, i: nat, keys: seq<Key>, n: nat)
    requires |keys| == |file| && n <= |file| && forall m :: 0 <= m < |file| ==> LinePicks(file[m], i) == Some([keys[m]])
    ensures FilePicks(file, i, n) == Some(keys[..n])
  {
    hide LinePicks;
    if n > 0 {
      OnePickEach(file, i, keys, n - 1);
      assert keys[..n] == keys[..n - 1] + [keys[n - 1]];
    }
  }

  lemma PicksOfDump<P(!new)>(E: Setting<P>, i: nat, casts: seq<Cast<P>>, at: seq<nat>,
                             out: seq<Paging.Rec<Vote<P>>>)
    requires E.W.G.order > 0 && GoodCasts(E, casts) && i < |E.keys| && TableIs(E, out, casts, at)
    ensures FilePicks(TellerLines(out), i, |out|) == Some(KeysAt(E, i, casts, at))
  {
    hide GoodCast, GoodCasts, LinePicks, FilePicks;
    var keys, file := KeysAt(E, i, casts, at), TellerLines(out);
    forall m | 0 <= m < |file| ensures LinePicks(file[m], i) == Some([keys[m]]) {
      assert IsRecord(E, out[m], casts[at[m]]);
      OneLine(E, i, casts[at[m]], file[m]);
    }
    OnePickEach(file, i, keys, |file|);
    assert keys[..|file|] == keys;
  }

  lemma OneLine<P(!new)>(E: Setting<P>, i: nat, c: Cast<P>, line: Line)
    requires E.W.G.order > 0 && GoodCast(E, c) && i < |E.keys|
    requires line == BallotLine(c.link.rid, EntriesOf(VoteOf(E, c).zs))
    ensures LinePicks(line, i) == Some([KeyOf(E, i, c)])
  {
    hide HonestBallot, LinkOk, EntryPicks;
    OnePick(c.link.rid, line.zs, i, SignOf(E, i, c), |line.zs|);
  }

  lemma PicksAreGood<P(!new)>(E: Setting<P>, i: nat, rows: seq<Row>, casts: seq<Cast<P>>, at: seq<nat>)
    requires E.W.G.order > 0 && GoodCasts(E, casts) && i < |E.keys| && Stores(E, i, rows, casts)
    requires forall n :: 0 <= n < |at| ==> at[n] < |casts|
    requires forall m, n :: 0 <= m < n < |at| ==> at[m] != at[n]
    ensures GoodPicks(rows, KeysAt(E, i, casts, at)) && Locates(rows, KeysAt(E, i, casts, at), at)
    ensures Covered(Marked(rows, KeysAt(E, i, casts, at)))
  {
    hide HonestBallot, LinkOk;
    var keys := KeysAt(E, i, casts, at);
    forall n | 0 <= n < |at| ensures rows[at[n]].Id() == keys[n] && HasKey(rows, keys[n]) {
      assert RowIs(E, i, rows[at[n]], casts[at[n]]);
    }
    forall m, n | 0 <= m < n < |at| ensures keys[m] != keys[n] {
      assert casts[at[m]].link.rid != casts[at[n]].link.rid;
    }
    forall a | 0 <= a < |rows| ensures rows[a].receipt.None? {
      assert RowIs(E, i, rows[a], casts[a]);
    }
  }

  function CommitsAt<P>(casts: seq<Cast<P>>, at: seq<nat>): (r: seq<seq<seq<PosCells>>>)
    requires forall n :: 0 <= n < |at| ==> at[n] < |casts|
    ensures |r| == |at| && forall n :: 0 <= n < |r| ==> r[n] == casts[at[n]].commits
  {
    seq(|at|, n requires 0 <= n < |at| => casts[at[n]].commits)
  }

  function ChoicesAt<P>(casts: seq<Cast<P>>, at: seq<nat>): (r: seq<seq<Choice>>)
    requires forall n :: 0 <= n < |at| ==> at[n] < |casts|
    ensures |r| == |at| && forall n :: 0 <= n < |r| ==> r[n] == casts[at[n]].pos
  {
    seq(|at|, n requires 0 <= n < |at| => casts[at[n]].pos)
  }

  function LinksAt<P>(casts: seq<Cast<P>>, at: seq<nat>): (r: seq<Link>)
    requires forall n :: 0 <= n < |at| ==> at[n] < |casts|
    ensures |r| == |at| && forall n :: 0 <= n < |r| ==> r[n] == casts[at[n]].link
  {
    seq(|at|, n requires 0 <= n < |at| => casts[at[n]].link)
  }

  function TimesAt<P>(casts: seq<Cast<P>>, at: seq<nat>): (r: seq<seq<int>>)
    requires forall n :: 0 <= n < |at| ==> at[n] < |casts|
    ensures |r| == |at| && forall n :: 0 <= n < |r| ==> r[n] == casts[at[n]].times
  {
    seq(|at|, n requires 0 <= n < |at| => casts[at[n]].times)
  }

  /** A teller's total, signed, over exactly the shares of the votes in the dump. */
  ghost predicate TotalOf<P(!new)>(E: Setting<P>, i: nat, stored: Stored, casts: seq<Cast<P>>, at: seq<nat>,
                                   datas: seq<seq<PosShares>>)
    requires E.W.G.order > 0 && i < |E.keys| && forall n :: 0 <= n < |at| ==> at[n] < |casts|
  {
    && Kept(datas, CommitsAt(casts, at), i)
    && AllFitLayout(datas, E.layout) && CountedFrom(E.W.G.order, stored.count, E.layout, datas)
    && CountFits(stored.count, E.layout)
    && E.W.verify(CountSigned(E.W, E.eid, stored.count, stored.time), stored.sign, E.W.pub(E.keys[i]))
  }

  lemma RowsKept<P(!new)>(E: Setting<P>, i: nat, rows: seq<Row>, casts: seq<Cast<P>>, at: seq<nat>)
    requires E.W.G.order > 0 && GoodCasts(E, casts) && i < |E.keys| && Stores(E, i, rows, casts)
    requires forall n :: 0 <= n < |at| ==> at[n] < |casts|
    ensures Kept(DataOf(rows, at), CommitsAt(casts, at), i)
  {
    hide HonestBallot, LinkOk, AllSharesOf;
    forall n | 0 <= n < |at| ensures AllSharesOf(DataOf(rows, at)[n], casts[at[n]].commits[i]) {
      assert RowIs(E, i, rows[at[n]], casts[at[n]]);
    }
  }

  method TallyOne<P(!new,==)>(E: Setting<P>, i: nat, db: TellerDb<P>, out: seq<Paging.Rec<Vote<P>>>, time: int,
                              ghost casts: seq<Cast<P>>, ghost at: seq<nat>)
    returns (stored: Stored, ghost datas: seq<seq<PosShares>>)
    requires E.Valid() && GoodCasts(E, casts) && i < |E.keys| && DumpIs(E, out, casts, at)
    requires IsTeller(E, i, db) && db.state == 3 && Stores(E, i, db.rows, casts)
    modifies db
    ensures TotalOf(E, i, stored, casts, at, datas)
  {
    hide World.Valid, GoodCasts, GoodCast, IsRecord, Stores, FilePicks, CountIs, CountedFrom, Kept, Keyed, GoodPicks,
         RowsFit;
    ghost var rows, keys := db.rows, KeysAt(E, i, casts, at);
    PicksOfDump(E, i, casts, at, out);
    PicksAreGood(E, i, rows, casts, at);
    RowsKept(E, i, rows, casts, at);
    var r := db.Tally(TellerLines(out), i, time, true);
    stored, datas := r.value, DataOf(rows, at);
    TallyCounts(E.W.G.order, rows, E.layout, keys, at, stored.count);
    StoredTotalSubmits(E.W, E.eid, E.layout, E.keys[i], db.rows, stored);
  }

  // ----- The published numbers -----

  /** The voters whose vote was accepted and who chose c at position j. */
  function Chose(voters: seq<Voter>, accepted: seq<bool>, j: nat, c: int): (s: set<nat>)
    requires |accepted| <= |voters|
  {
    set b: nat | b < |accepted| && accepted[b] && j < |voters[b].pos| && voters[b].pos[j].cid == c
  }

  ghost function ChoseAt(voters: seq<Voter>, at: seq<nat>, j: nat, c: int): (s: set<nat>)
    requires (forall n :: 0 <= n < |at| ==> at[n] < |voters|) && forall b :: 0 <= b < |voters| ==> j < |voters[b].pos|
    ensures forall b :: b in s <==> b in at && voters[b].pos[j].cid == c
  {
    if at == [] then {} else
      var n := |at| - 1;
      ChoseAt(voters, at[..n], j, c) + if voters[at[n]].pos[j].cid == c then {at[n]} else {}
  }

  lemma {:induction false} VotesAreVoters<P>(voters: seq<Voter>, casts: seq<Cast<P>>, at: seq<nat>, j: nat, c: int)
    requires |casts| <= |voters| && forall b :: 0 <= b < |casts| ==> casts[b].pos == voters[b].pos
    requires (forall n :: 0 <= n < |at| ==> at[n] < |casts|) && forall b :: 0 <= b < |voters| ==> j < |voters[b].pos|
    requires forall m, n :: 0 <= m < n < |at| ==> at[m] != at[n]
    ensures VotesFor(ChoicesAt(casts, at), j, c) == |ChoseAt(voters, at, j, c)|
    decreases |at|
  {
    var n := |at| - 1;
    if n >= 0 {
      VotesAreVoters(voters, casts, at[..n], j, c);
      assert ChoicesAt(casts, at)[..n] == ChoicesAt(casts, at[..n]);
      assert at[n] !in at[..n];
    }
  }

  lemma VotersCounted<P(!new)>(voters: seq<Voter>, casts: seq<Cast<P>>, accepted: seq<bool>, at: seq<nat>,
                               dumpAt: seq<nat>, j: nat, c: int)
    requires VotedSoFar(voters, casts, accepted, at) && (forall b :: b in dumpAt <==> b in at)
    requires (forall n :: 0 <= n < |dumpAt| ==> dumpAt[n] < |casts|)
    requires forall m, n :: 0 <= m < n < |dumpAt| ==> dumpAt[m] != dumpAt[n]
    requires forall b :: 0 <= b < |voters| ==> j < |voters[b].pos|
    ensures VotesFor(ChoicesAt(casts, dumpAt), j, c) == |Chose(voters, accepted, j, c)|
  {
    hide Sensible;
    VotesAreVoters(voters, casts, dumpAt, j, c);
    forall b ensures b in ChoseAt(voters, dumpAt, j, c) <==> b in Chose(voters, accepted, j, c) {
      if b in dumpAt {
        var n :| 0 <= n < |dumpAt| && dumpAt[n] == b;
      }
    }
    assert ChoseAt(voters, dumpAt, j, c) == Chose(voters, accepted, j, c);
  }

  // ----- The final tally -----

  lemma AllHonest<P(!new)>(E: Setting<P>, casts: seq<Cast<P>>, at: seq<nat>)
    requires E.W.G.order > 0 && GoodCasts(E, casts) && forall n :: 0 <= n < |at| ==> at[n] < |casts|
    ensures HonestVotes(E.W, E.layout, |E.keys|, ChoicesAt(casts, at), CommitsAt(casts, at))
    ensures forall n :: 0 <= n < |at| ==> |CommitsAt(casts, at)[n]| == |E.keys| == |TimesAt(casts, at)[n]|
  {
    hide HonestShares, ProvesPosition, LinkOk;
    forall n | 0 <= n < |at| ensures GoodCast(E, casts[at[n]]) {
    }
  }

  lemma SameDump<P(!new)>(E: Setting<P>, casts: seq<Cast<P>>, at: seq<nat>, out: seq<Paging.Rec<Vote<P>>>)
    requires E.W.G.order > 0 && GoodCasts(E, casts) && TableIs(E, out, casts, at)
    requires forall n :: 0 <= n < |at| ==> |CommitsAt(casts, at)[n]| == |E.keys| == |TimesAt(casts, at)[n]|
    ensures BoardLines(out) == Dump(E.W, LinksAt(casts, at), CommitsAt(casts, at), E.keys, TimesAt(casts, at))
  {
    hide HonestBallot, LinkOk, Strip, CommitStr;
    var file := Dump(E.W, LinksAt(casts, at), CommitsAt(casts, at), E.keys, TimesAt(casts, at));
    forall n | 0 <= n < |out| ensures BoardLines(out)[n] == file[n] {
      var c := casts[at[n]];
      assert IsRecord(E, out[n], c);
      assert VoteOf(E, c).zs == Sent(E.W, c.link, c.commits, [], E.keys, c.times).zs;
    }
  }

  /** Every teller's total passes against the dump. */
  lemma AllPass<P(!new)>(E: Setting<P>, casts: seq<Cast<P>>, at: seq<nat>, out: seq<Paging.Rec<Vote<P>>>, i: nat,
                         stored: Stored, datas: seq<seq<PosShares>>)
    requires E.Valid() && GoodCasts(E, casts) && TableIs(E, out, casts, at) && i < |E.keys|
    requires TotalOf(E, i, stored, casts, at, datas)
    ensures FileReaches(BoardLines(out), E.layout, |E.keys|)
    ensures TotalPasses(E.W, E.layout, |E.keys|, BoardLines(out), i, stored.count)
  {
    hide World.Valid, GoodCasts, HonestVotes, Kept, CountedFrom, LineReaches, TotalPasses, TableIs;
    PlacesFit(E, casts, at, out);
    AllHonest(E, casts, at);
    SameDump(E, casts, at, out);
    HonestElectionPublishes(E.W, E.layout, ChoicesAt(casts, at), CommitsAt(casts, at), LinksAt(casts, at), E.keys,
                            TimesAt(casts, at), datas, stored.count, i);
  }

  lemma PlacesFit<P(!new)>(E: Setting<P>, casts: seq<Cast<P>>, at: seq<nat>, out: seq<Paging.Rec<Vote<P>>>)
    requires E.W.G.order > 0 && GoodCasts(E, casts) && TableIs(E, out, casts, at)
    ensures |out| == |at| && forall n :: 0 <= n < |at| ==> at[n] < |casts|
  {
  }

  ghost predicate TotalsOf<P(!new)>(E: Setting<P>, counts: seq<Option<Stored>>, casts: seq<Cast<P>>, at: seq<nat>,
                                    datas: seq<seq<seq<PosShares>>>)
    requires E.W.G.order > 0 && forall n :: 0 <= n < |at| ==> at[n] < |casts|
  {
    && |counts| == |E.keys| && |datas| <= |counts|
    && (forall i :: 0 <= i < |datas| ==> counts[i].Some? && TotalOf(E, i, counts[i].value, casts, at, datas[i]))
    && forall i :: |datas| <= i < |counts| ==> counts[i].None?
  }

  ghost predicate IsBoard<P(!new)>(E: Setting<P>, board: Board<P>)
    reads board
  {
    && board.W == E.W && board.eid == E.eid && board.layout == E.layout && board.tellerKeys == Pubs(E.W, E.keys)
    && board.Valid() && board.state == 3 && board.summation.None?
  }

  /** One teller's tally, submitted to the board. */
  method TallyAndSubmit<P(!new,==)>(E: Setting<P>, i: nat, db: TellerDb<P>, board: Board<P>,
                                    out: seq<Paging.Rec<Vote<P>>>, time: int, ghost casts: seq<Cast<P>>,
                                    ghost at: seq<nat>, ghost datas: seq<seq<seq<PosShares>>>)
    returns (ghost datas': seq<seq<seq<PosShares>>>)
    requires E.Valid() && GoodCasts(E, casts) && i < |E.keys| && DumpIs(E, out, casts, at)
    requires forall n :: 0 <= n < |at| ==> at[n] < |casts|
    requires IsTeller(E, i, db) && db.state == 3 && Stores(E, i, db.rows, casts)
    requires IsBoard(E, board) && |datas| == i && TotalsOf(E, board.counts, casts, at, datas)
    modifies db, board`counts
    ensures IsBoard(E, board) && |datas'| == i + 1 && TotalsOf(E, board.counts, casts, at, datas')
  {
    hide World.Valid, GoodCasts, DumpIs, Stores, TotalOf;
    var stored;
    ghost var data;
    stored, data := TallyOne(E, i, db, out, time, casts, at);
    TotalParts(E, i, stored, casts, at, data);
    var code := board.Submit(i, stored.count, stored.time, stored.sign);
    assert code == 0;
    datas' := datas + [data];
  }

  lemma TotalParts<P(!new)>(E: Setting<P>, i: nat, stored: Stored, casts: seq<Cast<P>>, at: seq<nat>,
                            datas: seq<seq<PosShares>>)
    requires E.W.G.order > 0 && i < |E.keys| && forall n :: 0 <= n < |at| ==> at[n] < |casts|
    requires TotalOf(E, i, stored, casts, at, datas)
    ensures CountFits(stored.count, E.layout)
    ensures E.W.verify(CountSigned(E.W, E.eid, stored.count, stored.time), stored.sign, E.W.pub(E.keys[i]))
    ensures Kept(datas, CommitsAt(casts, at), i)
    ensures AllFitLayout(datas, E.layout) && CountedFrom(E.W.G.order, stored.count, E.layout, datas)
  {
  }

  method OpenTellers<P(!new,==)>(E: Setting<P>) returns (dbs: seq<TellerDb<P>>)
    requires E.Valid()
    ensures fresh(dbs) && Tellers(E, dbs, [], 2)
  {
    hide World.Valid;
    dbs := [];
    for i := 0 to |E.keys|
      invariant |dbs| == i && fresh(dbs) && forall a, b :: 0 <= a < b < |dbs| ==> dbs[a] != dbs[b]
      invariant forall m :: 0 <= m < i ==> IsTeller(E, m, dbs[m]) && dbs[m].state == 2 && dbs[m].rows == []
    {
      var db := new TellerDb(E.W, E.eid, E.layout, E.authPub, E.espPub, E.keys[i]);
      dbs := dbs + [db];
    }
  }

  method CloseTellers<P(!new,==)>(E: Setting<P>, dbs: seq<TellerDb<P>>, ghost casts: seq<Cast<P>>)
    requires E.Valid() && GoodCasts(E, casts) && Tellers(E, dbs, casts, 2)
    modifies dbs
    ensures Tellers(E, dbs, casts, 3)
  {
    hide World.Valid, GoodCasts, Stores;
    for i := 0 to |dbs|
      invariant forall m :: 0 <= m < |dbs| ==> IsTeller(E, m, dbs[m]) && Stores(E, m, dbs[m].rows, casts)
      invariant forall m :: 0 <= m < |dbs| ==> dbs[m].state == if m < i then 3 else 2
    {
      label before:
      dbs[i].Close();
      forall m | 0 <= m < |dbs| && m != i ensures IsTeller(E, m, dbs[m]) {
        assert old@before(IsTeller(E, m, dbs[m]));
      }
    }
  }

  /** Every teller's total reaches the board. */
  method TallyAll<P(!new,==)>(E: Setting<P>, dbs: seq<TellerDb<P>>, board: Board<P>, out: seq<Paging.Rec<Vote<P>>>,
                              time: int, ghost casts: seq<Cast<P>>, ghost at: seq<nat>)
    returns (ghost datas: seq<seq<seq<PosShares>>>)
    requires E.Valid() && GoodCasts(E, casts) && Tellers(E, dbs, casts, 3) && DumpIs(E, out, casts, at)
    requires forall n :: 0 <= n < |at| ==> at[n] < |casts|
    requires IsBoard(E, board) && TotalsOf(E, board.counts, casts, at, [])
    modifies dbs, board`counts
    ensures IsBoard(E, board) && |datas| == |E.keys| && TotalsOf(E, board.counts, casts, at, datas)
  {
    hide World.Valid, GoodCasts, Stores, DumpIs, IsTeller, IsBoard, TotalsOf;
    datas := [];
    for i := 0 to |dbs|
      invariant IsBoard(E, board) && |datas| == i && TotalsOf(E, board.counts, casts, at, datas)
      invariant forall m :: i <= m < |dbs| ==>
        IsTeller(E, m, dbs[m]) && dbs[m].state == 3 && Stores(E, m, dbs[m].rows, casts)
    {
      label before:
      datas := TallyAndSubmit(E, i, dbs[i], board, out, time, casts, at, datas);
      forall m | i < m < |dbs| ensures IsTeller(E, m, dbs[m]) {
        assert old@before(IsTeller(E, m, dbs[m]));
      }
    }
  }

  lemma {:induction false} RisesWithin(at: seq<nat>, n: nat)
    requires Rises(at, n)
    ensures |at| <= n
  {
    if at != [] {
      RisesWithin(at[..|at| - 1], at[|at| - 1]);
    }
  }

  /** The stored totals make the board ready, and all of them pass. */
  lemma BoardReady<P(!new)>(E: Setting<P>, board: Board<P>, casts: seq<Cast<P>>, at: seq<nat>,
                            out: seq<Paging.Rec<Vote<P>>>, datas: seq<seq<seq<PosShares>>>)
    requires E.Valid() && GoodCasts(E, casts) && TableIs(E, out, casts, at) && IsBoard(E, board)
    requires forall n :: 0 <= n < |at| ==> at[n] < |casts|
    requires |datas| == |E.keys| && TotalsOf(E, board.counts, casts, at, datas)
    ensures board.Ready(BoardLines(out), board.counts)
    ensures forall i :: 0 <= i < |board.counts| ==> board.Passing(BoardLines(out), board.counts, i)
  {
    hide World.Valid, GoodCasts, TableIs, TotalOf, LineReaches, TotalPasses, Board.CountStands, SummationIs;
    var cs, file := board.counts, BoardLines(out);
    AllPass(E, casts, at, out, 0, cs[0].value, datas[0]);
    forall i | 0 <= i < |cs| ensures CountFits(board.Values(cs)[i], E.layout) {
      TotalParts(E, i, cs[i].value, casts, at, datas[i]);
    }
    forall i | 0 <= i < |cs| ensures board.Passing(file, cs, i) {
      AllPass(E, casts, at, out, i, cs[i].value, datas[i]);
    }
  }

  /** The published numbers count these choices. */
  ghost predicate Counts(layout: seq<Position>, published: seq<PosShares>, choices: seq<seq<Choice>>) {
    && CountFits(published, layout) && (forall n :: 0 <= n < |choices| ==> |choices[n]| == |layout|)
    && forall j, k :: 0 <= j < |layout| && 0 <= k < |layout[j].cand| ==>
      CountCell(published, layout, j, k).x == VotesFor(choices, j, layout[j].cand[k])
  }

  /** What was published counts the votes in the dump. */
  lemma NumbersAre<P(!new)>(E: Setting<P>, counts: seq<Option<Stored>>, vals: seq<seq<PosShares>>, casts: seq<Cast<P>>,
                            at: seq<nat>, datas: seq<seq<seq<PosShares>>>, published: seq<PosShares>)
    requires E.Valid() && GoodCasts(E, casts) && |at| < E.W.G.order
    requires forall n :: 0 <= n < |at| ==> at[n] < |casts|
    requires |datas| == |E.keys| && TotalsOf(E, counts, casts, at, datas)
    requires |vals| == |counts| && forall i :: 0 <= i < |vals| ==> counts[i].Some? && vals[i] == counts[i].value.count
    requires AllCountsFit(vals, E.layout) && SummationIs(E.W.G.order, published, E.layout, vals)
    ensures Counts(E.layout, published, ChoicesAt(casts, at))
  {
    hide World.Valid, GoodCasts, HonestShares, HonestVotes, Kept, CountedFrom, TotalOf, CountFits, SummationIs;
    AllHonest(E, casts, at);
    ChoicesFit(E, casts, at);
    SummationFits(E.W.G.order, published, E.layout, vals);
    forall i | 0 <= i < |datas|
      ensures Kept(datas[i], CommitsAt(casts, at), i) && AllFitLayout(datas[i], E.layout)
      ensures CountedFrom(E.W.G.order, vals[i], E.layout, datas[i])
    {
      TotalParts(E, i, counts[i].value, casts, at, datas[i]);
    }
    forall j, k | 0 <= j < |E.layout| && 0 <= k < |E.layout[j].cand|
      ensures CountCell(published, E.layout, j, k).x == VotesFor(ChoicesAt(casts, at), j, E.layout[j].cand[k])
    {
      EndToEnd(E.W, E.layout, |E.keys|, ChoicesAt(casts, at), CommitsAt(casts, at), datas, vals, published, j, k);
    }
  }

  lemma SummationFits(order: nat, out: seq<PosShares>, layout: seq<Position>, counts: seq<seq<PosShares>>)
    requires order > 0 && AllCountsFit(counts, layout) && SummationIs(order, out, layout, counts)
    ensures CountFits(out, layout)
  {
  }

  lemma ChoicesFit<P(!new)>(E: Setting<P>, casts: seq<Cast<P>>, at: seq<nat>)
    requires E.W.G.order > 0 && GoodCasts(E, casts) && forall n :: 0 <= n < |at| ==> at[n] < |casts|
    ensures forall n :: 0 <= n < |at| ==> |ChoicesAt(casts, at)[n]| == |E.layout|
  {
    hide HonestBallot, LinkOk;
    forall n | 0 <= n < |at| ensures |ChoicesAt(casts, at)[n]| == |E.layout| {
      assert GoodCast(E, casts[at[n]]);
    }
  }

  /** From the dump to the published numbers: every teller's tally, submitted, and the board's final one. */
  method Publish<P(!new,==)>(E: Setting<P>, dbs: seq<TellerDb<P>>, out: seq<Paging.Rec<Vote<P>>>, time: int,
                             ghost casts: seq<Cast<P>>, ghost at: seq<nat>)
    returns (published: seq<PosShares>)
    requires E.Valid() && GoodCasts(E, casts) && Tellers(E, dbs, casts, 3) && DumpIs(E, out, casts, at)
    requires (forall n :: 0 <= n < |at| ==> at[n] < |casts|) && |at| < E.W.G.order
    modifies dbs
    ensures Counts(E.layout, published, ChoicesAt(casts, at))
    ensures CountFits(published, E.layout) && FileReaches(BoardLines(out), E.layout, |E.keys|)
    ensures SummationPasses(E.W, E.layout, |E.keys|, BoardLines(out), published)
  {
    hide World.Valid, GoodCasts, Tellers, TableIs, Board.Passing, Board.Ready, LineReaches, CountSigned, TotalOf;
    hide Counts;
    var board := new Board(E.W, E.eid, E.layout, Pubs(E.W, E.keys));
    ghost var datas := TallyAll(E, dbs, board, out, time, casts, at);
    BoardReady(E, board, casts, at, out, datas);
    ghost var counts := board.counts;
    var outcome := board.FinalTally(BoardLines(out), true);
    assert outcome == Published;
    published := board.summation.value;
    NumbersAre(E, counts, board.Values(counts), casts, at, datas, published);
    PassingVerifies(E, board, BoardLines(out), counts, published);
  }

  lemma PassingVerifies<P(!new)>(E: Setting<P>, board: Board<P>, file: seq<FileLine>, counts: seq<Option<Stored>>,
                                 published: seq<PosShares>)
    requires E.Valid() && board.W == E.W && board.layout == E.layout && board.tellerKeys == Pubs(E.W, E.keys)
    requires |counts| == |E.keys| && board.Ready(file, counts)
    requires forall i :: 0 <= i < |counts| ==> board.Passing(file, counts, i)
    requires SummationIs(E.W.G.order, published, E.layout, board.Values(counts))
    ensures CountFits(published, E.layout) && FileReaches(file, E.layout, |E.keys|)
    ensures SummationPasses(E.W, E.layout, |E.keys|, file, published)
  {
    hide World.Valid, LineReaches, TotalPasses, SummationIs;
    SummationFits(E.W.G.order, published, E.layout, board.Values(counts));
    var vals := board.Values(counts);
    forall i | 0 <= i < |counts| ensures TotalPasses(E.W, E.layout, |counts|, file, i, vals[i]) {
      assert board.Passing(file, counts, i);
    }
    PublicationVerifies(E.W, E.layout, file, vals, published);
  }

  lemma VotersFit<P(!new)>(E: Setting<P>, voters: seq<Voter>)
    requires Voters(E, voters)
    ensures forall b :: 0 <= b < |voters| ==> |voters[b].pos| == |E.layout|
  {
    hide LinkOk;
    forall b | 0 <= b < |voters| ensures |voters[b].pos| == |E.layout| {
      assert Registered(E, voters[b]);
    }
  }

  /** From the voters to the dump. */
  method Collect<P(!new,==)>(E: Setting<P>, C: Paging.Collation, dbs: seq<TellerDb<P>>, voters: seq<Voter>, limit: nat)
    returns (casts: seq<Cast<P>>, accepted: seq<bool>, out: seq<Paging.Rec<Vote<P>>>, ghost at: seq<nat>,
             ghost dumpAt: seq<nat>)
    requires E.Valid() && C.Valid() && limit >= 1 && Voters(E, voters) && Tellers(E, dbs, [], 2)
    modifies dbs
    ensures GoodCasts(E, casts) && |casts| == |voters| && VotedSoFar(voters, casts, accepted, at)
    ensures Tellers(E, dbs, casts, 3) && DumpIs(E, out, casts, dumpAt) && |dumpAt| <= |voters|
    ensures forall b :: b in dumpAt <==> b in at
  {
    hide World.Valid, GoodCasts, Tellers, TableIs, C.Valid, Sensible, LinkOk;
    var table := new Paging.BallotTable<Vote<P>>(C);
    casts, accepted, at := Voting(E, dbs, table, voters);
    CloseTellers(E, dbs, casts);
    table.Close();
    var dump := table.DumpVotes(limit);
    out := dump.value;
    dumpAt := DumpPlaces(E, C, table.rows, out, casts, at);
    PlacesFit(E, casts, dumpAt, out);
    DumpShort(E, C, table.rows, out, casts, at, |voters|);
  }

  /** A whole election: every vote whose choices make sense is accepted, and the number published for a candidate is
      the number of voters who chose it and whose vote was accepted, whatever the coins, the hash and the order of the
      dump. */
  method Election<P(!new,==)>(E: Setting<P>, C: Paging.Collation, voters: seq<Voter>, limit: nat, time: int)
    returns (accepted: seq<bool>, out: seq<Paging.Rec<Vote<P>>>, published: seq<PosShares>, ghost casts: seq<Cast<P>>,
             ghost dumpAt: seq<nat>)
    requires E.Valid() && C.Valid() && limit >= 1 && Voters(E, voters) && |voters| < E.W.G.order
    ensures |accepted| == |voters| && forall b :: 0 <= b < |voters| && Sensible(voters[b]) ==> accepted[b]
    ensures CountFits(published, E.layout)
    ensures forall j, k :: 0 <= j < |E.layout| && 0 <= k < |E.layout[j].cand| ==>
      CountCell(published, E.layout, j, k).x == |Chose(voters, accepted, j, E.layout[j].cand[k])|
    ensures GoodCasts(E, casts) && TableIs(E, out, casts, dumpAt) && FileReaches(BoardLines(out), E.layout, |E.keys|)
    ensures SummationPasses(E.W, E.layout, |E.keys|, BoardLines(out), published)
  {
    hide World.Valid, GoodCasts, Tellers, C.Valid, Sensible, CountFits, LineReaches, TableIs;
    var dbs := OpenTellers(E);
    ghost var at;
    casts, accepted, out, at, dumpAt := Collect(E, C, dbs, voters, limit);
    PlacesFit(E, casts, dumpAt, out);
    published := Publish(E, dbs, out, time, casts, dumpAt);
    VotersFit(E, voters);
    forall j, k | 0 <= j < |E.layout| && 0 <= k < |E.layout[j].cand|
      ensures CountCell(published, E.layout, j, k).x == |Chose(voters, accepted, j, E.layout[j].cand[k])|
    {
      VotersCounted(voters, casts, accepted, at, dumpAt, j, E.layout[j].cand[k]);
    }
  }

  lemma DumpShort<P(!new)>(E: Setting<P>, C: Paging.Collation, rows: seq<Paging.Rec<Vote<P>>>,
                           out: seq<Paging.Rec<Vote<P>>>, casts: seq<Cast<P>>, at: seq<nat>, n: nat)
    requires E.W.G.order > 0 && GoodCasts(E, casts) && C.Valid() && Rises(at, n)
    requires TableIs(E, rows, casts, at) && Paging.IsDump(C, rows, out)
    ensures |out| <= n
  {
    hide C.Valid;
    forall i | 0 <= i < |out| ensures out[i] in rows {
    }
    Paging.OrderedWithin(C, rows, out);
    RisesWithin(at, n);
  }
}

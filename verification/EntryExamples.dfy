/** Two votes that the board accepts with entries out of order: one that blocks a teller's tally, and one that makes an
    honest total fail. */
module EntryExamples {
  import opened Wrappers
  import opened ModArith
  import opened Groups
  import opened Proof01
  import opened Ballots
  import opened VoteServers
  import opened VoteTheorems
  import opened Tally
  import opened TellerTally
  import opened BoardTally
  import opened TallyTheorems
  import opened WholeElection
  import opened EntryOrder

  // ----- Proofs with no secrets -----

  /** That zero opens to 0. */
  function ZeroProof<P(!new)>(W: World<P>): Proof<P> {
    var o := W.G.zero;
    Proof(o, o, W.hash(o, o, o), 0, 0, 0)
  }

  /** That g opens to 1. */
  function OneProof<P(!new)>(W: World<P>): Proof<P> {
    var o := W.G.zero;
    Proof(o, o, 0, W.hash(W.G.g, o, o), 0, 0)
  }

  lemma PlainProofs<P(!new)>(W: World<P>)
    requires W.Valid()
    ensures Verifies(W.G, W.hash, ZeroProof(W), W.G.zero) && Verifies(W.G, W.hash, OneProof(W), W.G.g)
  {
    hide Prime;
    var G := W.G;
    var e, e' := W.hash(G.zero, G.zero, G.zero), W.hash(G.g, G.zero, G.zero);
    MulZero(G, e);
    MulZero(G, e');
    ZeroLeft(G, G.zero);
    assert G.Cancels(G.g) && G.Commutes(G.g, G.neg(G.g));
    assert MinusG(G, G.g) == G.zero;
  }

  // ----- One entry twice -----

  /** Shares of zero, with blindings of zero. */
  function ZeroCells<P(!new)>(W: World<P>, layout: seq<Position>): seq<PosCells> {
    seq(|layout|, j requires 0 <= j < |layout| =>
      PosCells(layout[j].pid, seq(|layout[j].cand|, k requires 0 <= k < |layout[j].cand| =>
        Cell(layout[j].cand[k], 0, 0, W.enc(W.G.zero)))))
  }

  function ZeroEntry<P(!new)>(W: World<P>, layout: seq<Position>, l: Link, key: string, time: int): TellerZ {
    var val := Strip(ZeroCells(W, layout));
    TellerZ(0, val, W.sign(key, CommitStr(W, l, val, time)), time)
  }

  /** The first teller's entry in all places. */
  function RepeatedVote<P(!new)>(W: World<P>, layout: seq<Position>, l: Link, key: string, time: int, tellers: nat)
    : Vote<P>
  {
    Vote(l, seq(tellers, _ => ZeroEntry(W, layout, l, key, time)),
         seq(|layout|, j requires 0 <= j < |layout| => seq(|layout[j].cand| + 1, _ => ZeroProof(W))))
  }

  /** The first teller signs that entry, and the board accepts the vote. */
  lemma RepeatedAccepted<P(!new)>(W: World<P>, layout: seq<Position>, l: Link, authPub: string, keys: seq<string>,
                                  time: int)
    requires W.Valid() && LinkOk(W, l, authPub) && keys != []
    ensures TellerAccepts(W, layout, authPub, TellerVote(l, ZeroCells(W, layout)))
    ensures BoardAccepts(W, layout, Pubs(W, keys), authPub, RepeatedVote(W, layout, l, keys[0], time, |keys|))
  {
    hide LinkOk, CommitStr, PositionProved;
    var cells, v := ZeroCells(W, layout), RepeatedVote(W, layout, l, keys[0], time, |keys|);
    ZeroOpens(W, layout);
    StripFits(cells, layout);
    assert W.Signs(keys[0], CommitStr(W, l, Strip(cells), time));
    forall i | 0 <= i < |v.zs| ensures TellerPartOk(W, layout, Pubs(W, keys), l, v.zs[i]) {
    }
    PartsFit(W, layout, Pubs(W, keys), l, v.zs);
    forall j | 0 <= j < |layout| ensures PositionProved(W, PosZSums(W, layout, v.zs, j), v.proofs[j]) {
      ZeroSums(W, layout, l, keys[0], time, |keys|, j);
      ZeroPosition(W, PosZSums(W, layout, v.zs, j), v.proofs[j]);
    }
  }

  lemma ZeroOpens<P(!new)>(W: World<P>, layout: seq<Position>)
    requires W.Valid()
    ensures Fits(ZeroCells(W, layout), layout)
    ensures forall j :: 0 <= j < |layout| ==> RowOk(W, layout[j], ZeroCells(W, layout)[j])
  {
    hide Prime;
    ComZero(W.G);
    assert W.RoundTrip(W.G.zero);
  }

  lemma ZeroSums<P(!new)>(W: World<P>, layout: seq<Position>, l: Link, key: string, time: int, tellers: nat, j: nat)
    requires W.Valid() && j < |layout| && AllFit(RepeatedVote(W, layout, l, key, time, tellers).zs, layout)
    ensures var s := PosZSums(W, layout, RepeatedVote(W, layout, l, key, time, tellers).zs, j);
      forall k :: 0 <= k < |s| ==> s[k] == W.G.zero
  {
    hide Prime, CommitStr;
    var zs := RepeatedVote(W, layout, l, key, time, tellers).zs;
    assert W.RoundTrip(W.G.zero);
    forall k | 0 <= k < |layout[j].cand| ensures ZSum(W, layout, zs, j, k) == W.G.zero {
      SumOfZeros(W.G, ZColumn(W, zs, j, k));
    }
  }

  lemma ZeroPosition<P(!new)>(W: World<P>, sums: seq<P>, proofs: seq<Proof<P>>)
    requires W.Valid() && (forall k :: 0 <= k < |sums| ==> sums[k] == W.G.zero)
    requires |proofs| == |sums| + 1 && forall k :: 0 <= k < |proofs| ==> proofs[k] == ZeroProof(W)
    ensures PositionProved(W, sums, proofs)
  {
    hide Verifies, ZeroProof, Prime;
    PlainProofs(W);
    SumOfZeros(W.G, sums);
  }

  /** A file with a vote that names a row twice under index i. */
  ghost predicate HasRepeat<P>(out: seq<Rec<P>>, i: int) {
    exists m: nat, p: nat, q: nat :: m < |out| && p < q < |out[m].data.zs|
      && out[m].data.zs[p].idx == out[m].data.zs[q].idx == i && out[m].data.zs[p].sign == out[m].data.zs[q].sign
  }

  /** However often the tally is started on such files, it never goes through, and nothing changes. */
  method Blocked<P(!new,==)>(db: TellerDb<P>, i: nat, files: seq<seq<Rec<P>>>, times: seq<int>)
    returns (results: seq<Option<Stored>>)
    requires db.Valid() && db.count.None? && |times| == |files|
    requires forall n :: 0 <= n < |files| ==> HasRepeat(files[n], i)
    modifies db`rows, db`count
    ensures db.Valid() && db.count.None? && db.rows == old(db.rows)
    ensures |results| == |files| && forall n :: 0 <= n < |results| ==> results[n].None?
  {
    results := [];
    for n := 0 to |files|
      invariant db.Valid() && db.count.None? && db.rows == old(db.rows)
      invariant |results| == n && forall m :: 0 <= m < n ==> results[m].None?
    {
      RepeatNeverReads(db.rows, files[n], i);
      var r := db.Tally(TellerLines(files[n]), i, times[n], true);
      results := results + [r];
    }
  }

  lemma RepeatNeverReads<P>(rows: seq<Row>, out: seq<Rec<P>>, i: int)
    requires HasRepeat(out, i)
    ensures !FileReads(rows, TellerLines(out), i)
  {
    hide FilePicks, GoodPicks;
    var m: nat, p: nat, q: nat :| m < |out| && p < q < |out[m].data.zs|
      && out[m].data.zs[p].idx == out[m].data.zs[q].idx == i && out[m].data.zs[p].sign == out[m].data.zs[q].sign;
    RepeatBlocks(out, i, m, p, q);
  }

  /** One voter, with at least two tellers: the first teller keeps and signs its part, the board accepts the vote, and
      that teller's tally fails on every file that holds it. */
  method RepeatedBlocks<P(!new,==)>(E: Setting<P>, l: Link, time: int, files: seq<seq<Rec<P>>>, times: seq<int>)
    returns (db: TellerDb<P>, code: int, accepted: bool, results: seq<Option<Stored>>)
    requires E.Valid() && |E.keys| >= 2 && LinkOk(E.W, l, E.authPub) && l.eid == E.eid && |times| == |files|
    requires forall n :: 0 <= n < |files| ==>
      Paging.Rec(l.rid, RepeatedVote(E.W, E.layout, l, E.keys[0], time, |E.keys|)) in files[n]
    ensures code == 0 && accepted && db.state == 3
    ensures |results| == |files| && forall n :: 0 <= n < |results| ==> results[n].None?
  {
    hide World.Valid, LinkOk, BoardAccepts, TellerAccepts, CommitStr, ZeroEntry, HasKey, ZeroCells, HasRepeat;
    RepeatedAccepted(E.W, E.layout, l, E.authPub, E.keys, time);
    db := new TellerDb(E.W, E.eid, E.layout, E.authPub, E.espPub, E.keys[0]);
    var sign;
    NoRows();
    code, sign := db.SaveVote(TellerVote(l, ZeroCells(E.W, E.layout)), time);
    var vote := RepeatedVote(E.W, E.layout, l, E.keys[0], time, |E.keys|);
    accepted := VerifyBallot(E.W, E.layout, Pubs(E.W, E.keys), E.authPub, vote);
    db.Close();
    forall n | 0 <= n < |files| ensures HasRepeat(files[n], 0) {
      FileRepeats(E, l, time, files[n]);
    }
    results := Blocked(db, 0, files, times);
  }

  lemma NoRows()
    ensures forall key :: !HasKey([], key)
  {
  }

  lemma FileRepeats<P(!new)>(E: Setting<P>, l: Link, time: int, out: seq<Rec<P>>)
    requires |E.keys| >= 2
    requires Paging.Rec(l.rid, RepeatedVote(E.W, E.layout, l, E.keys[0], time, |E.keys|)) in out
    ensures HasRepeat(out, 0)
  {
    hide CommitStr, ZeroCells;
    var r := Paging.Rec(l.rid, RepeatedVote(E.W, E.layout, l, E.keys[0], time, |E.keys|));
    var m: nat :| m < |out| && out[m] == r;
    var zs := out[m].data.zs;
    assert zs[0].idx == zs[1].idx == 0 && zs[0].sign == zs[1].sign;
  }

  // ----- Two entries exchanged -----

  /** Two candidates; the first teller's share of the first is 1, and all the others are 0. */
  function OneCells<P(!new)>(W: World<P>, pid: int, a: int, b: int): seq<PosCells> {
    [PosCells(pid, [Cell(a, 1, 0, W.enc(W.G.g)), Cell(b, 0, 0, W.enc(W.G.zero))])]
  }

  function PartOf<P(!new)>(W: World<P>, l: Link, i: nat, cells: seq<PosCells>, key: string, time: int): TellerZ {
    TellerZ(i, Strip(cells), W.sign(key, CommitStr(W, l, Strip(cells), time)), time)
  }

  /** A vote for the first candidate, with its two entries in order. */
  function PlainVote<P(!new)>(W: World<P>, pid: int, a: int, b: int, l: Link, keys: seq<string>,
                              times: seq<int>): Vote<P>
    requires |keys| == |times| == 2
  {
    Vote(l, [PartOf(W, l, 0, OneCells(W, pid, a, b), keys[0], times[0]),
             PartOf(W, l, 1, ZeroCells(W, [Position(pid, [a, b])]), keys[1], times[1])],
         [[OneProof(W), ZeroProof(W), OneProof(W)]])
  }

  lemma OneOpens<P(!new)>(W: World<P>, pid: int, a: int, b: int)
    requires W.Valid()
    ensures Fits(OneCells(W, pid, a, b), [Position(pid, [a, b])])
    ensures RowOk(W, Position(pid, [a, b]), OneCells(W, pid, a, b)[0])
    ensures W.G.Com(1, 0) == W.G.g
  {
    hide Prime;
    ComZero(W.G);
    MulOne(W.G, W.G.g);
    ZeroLeft(W.G, W.G.g);
    assert W.RoundTrip(W.G.zero) && W.RoundTrip(W.G.g);
  }

  /** Both tellers sign their parts, and the board accepts the vote, and with its entries exchanged as well. */
  lemma ExchangedAccepted<P(!new)>(W: World<P>, pid: int, a: int, b: int, l: Link, authPub: string, keys: seq<string>,
                                   times: seq<int>)
    requires W.Valid() && LinkOk(W, l, authPub) && |keys| == |times| == 2
    ensures var layout, v := [Position(pid, [a, b])], PlainVote(W, pid, a, b, l, keys, times);
      && TellerAccepts(W, layout, authPub, TellerVote(l, OneCells(W, pid, a, b)))
      && TellerAccepts(W, layout, authPub, TellerVote(l, ZeroCells(W, layout)))
      && BoardAccepts(W, layout, Pubs(W, keys), authPub, v.(zs := EntryOrder.Swap(v.zs, 0, 1)))
  {
    hide LinkOk, CommitStr, PositionProved;
    var layout, v := [Position(pid, [a, b])], PlainVote(W, pid, a, b, l, keys, times);
    ZeroOpens(W, layout);
    OneOpens(W, pid, a, b);
    StripFits(OneCells(W, pid, a, b), layout);
    StripFits(ZeroCells(W, layout), layout);
    assert W.Signs(keys[0], CommitStr(W, l, v.zs[0].val, times[0]));
    assert W.Signs(keys[1], CommitStr(W, l, v.zs[1].val, times[1]));
    forall i | 0 <= i < 2 ensures TellerPartOk(W, layout, Pubs(W, keys), l, v.zs[i]) {
    }
    PartsFit(W, layout, Pubs(W, keys), l, v.zs);
    PlainSums(W, pid, a, b, l, keys, times);
    PlainPosition(W, PosZSums(W, layout, v.zs, 0));
    OrderUnseen(W, layout, Pubs(W, keys), authPub, v, 0, 1);
  }

  lemma PlainSums<P(!new)>(W: World<P>, pid: int, a: int, b: int, l: Link, keys: seq<string>, times: seq<int>)
    requires W.Valid() && |keys| == |times| == 2
    requires AllFit(PlainVote(W, pid, a, b, l, keys, times).zs, [Position(pid, [a, b])])
    ensures PosZSums(W, [Position(pid, [a, b])], PlainVote(W, pid, a, b, l, keys, times).zs, 0) == [W.G.g, W.G.zero]
  {
    hide Prime, CommitStr;
    var layout, zs := [Position(pid, [a, b])], PlainVote(W, pid, a, b, l, keys, times).zs;
    assert W.RoundTrip(W.G.zero) && W.RoundTrip(W.G.g);
    assert ZColumn(W, zs, 0, 0) == [W.G.g, W.G.zero] && ZColumn(W, zs, 0, 1) == [W.G.zero, W.G.zero];
    SumOfTwo(W.G, W.G.g, W.G.zero);
    SumOfTwo(W.G, W.G.zero, W.G.zero);
    ZeroLeft(W.G, W.G.g);
    ZeroLeft(W.G, W.G.zero);
  }

  lemma SumOfTwo<P(!new)>(G: Group<P>, a: P, b: P)
    requires G.Valid()
    ensures G.Sum([a, b]) == G.add(a, b)
  {
    var none: seq<P> := [];
    assert none + [a] == [a] && [a] + [b] == [a, b];
    SumAppend(G, none, a);
    SumAppend(G, [a], b);
    ZeroLeft(G, a);
  }

  lemma PlainPosition<P(!new)>(W: World<P>, sums: seq<P>)
    requires W.Valid() && sums == [W.G.g, W.G.zero]
    ensures PositionProved(W, sums, [OneProof(W), ZeroProof(W), OneProof(W)])
  {
    hide Verifies, ZeroProof, OneProof, Prime;
    PlainProofs(W);
    SumOfTwo(W.G, W.G.g, W.G.zero);
    ZeroLeft(W.G, W.G.g);
  }

  // ----- What the exchange does -----

  ghost predicate HoldsOne(rows: seq<Row>, key: Key, cells: seq<PosCells>) {
    |rows| == 1 && rows[0].Id() == key && !rows[0].isSum && rows[0].receipt.None? && AllSharesOf(rows[0].data, cells)
  }

  /** The file with only the exchanged vote. */
  function Exchanged<P(!new)>(W: World<P>, pid: int, a: int, b: int, l: Link, keys: seq<string>, times: seq<int>)
    : seq<Rec<P>>
    requires |keys| == |times| == 2
  {
    var v := PlainVote(W, pid, a, b, l, keys, times);
    [Paging.Rec(l.rid, v.(zs := EntryOrder.Swap(v.zs, 0, 1)))]
  }

  /** Entry 0 is the second teller's, entry 1 the first's. */
  lemma ExchangedSpots<P(!new)>(W: World<P>, pid: int, a: int, b: int, l: Link, keys: seq<string>, times: seq<int>)
    requires |keys| == |times| == 2
    ensures var out, zs := Exchanged(W, pid, a, b, l, keys, times), PlainVote(W, pid, a, b, l, keys, times).zs;
      && |out| == 1 && out[0].rid == l.rid && out[0].data.zs == [zs[1], zs[0]]
      && Spots(out, 0, 1) == [Spot(0, 1)] && (forall s :: IsSpot(out, s) <==> s == Spot(0, 0) || s == Spot(0, 1))
  {
    hide CommitStr, OneCells, ZeroCells;
    var out := Exchanged(W, pid, a, b, l, keys, times);
    assert out[0].data.zs[0].idx == 1 && out[0].data.zs[1].idx == 0;
    var none: seq<Spot> := [];
    assert forall s :: s !in Spots(out, 0, 0);
    assert SpotsIn(out, 0, 0, 1) == none && |Spots(out, 0, 0)| == 0;
    assert SpotsIn(out, 0, 0, 2) == [Spot(0, 1)];
  }

  lemma RowOfOne(rows: seq<Row>, key: Key, cells: seq<PosCells>)
    requires HoldsOne(rows, key, cells)
    ensures HasKey(rows, key) && RowOf(rows, key) == 0
  {
  }

  /** What the two tellers' tables must hold. */
  ghost predicate BothHold<P(!new)>(W: World<P>, pid: int, a: int, b: int, l: Link, keys: seq<string>,
                                    times: seq<int>, tables: seq<seq<Row>>)
    requires |keys| == |times| == 2
  {
    var zs := PlainVote(W, pid, a, b, l, keys, times).zs;
    && |tables| == 2 && HoldsOne(tables[0], (l.rid, zs[0].sign), OneCells(W, pid, a, b))
    && HoldsOne(tables[1], (l.rid, zs[1].sign), ZeroCells(W, [Position(pid, [a, b])]))
  }

  lemma ExchangedBacked<P(!new)>(W: World<P>, pid: int, a: int, b: int, l: Link, authPub: string, keys: seq<string>,
                                 times: seq<int>, tables: seq<seq<Row>>)
    requires W.Valid() && LinkOk(W, l, authPub) && |keys| == |times| == 2
    requires BothHold(W, pid, a, b, l, keys, times, tables)
    ensures var layout, out := [Position(pid, [a, b])], Exchanged(W, pid, a, b, l, keys, times);
      && Backed(W, layout, authPub, tables, out) && NamesStored(tables[0], out, 0)
      && Counted(tables[0], out, 0) == [tables[0][0].data]
      && Placed(W, layout, authPub, tables, out, 0) == [tables[1][0].data]
  {
    hide World.Valid, LinkOk, CommitStr, OneCells, ZeroCells, TellerAccepts, Exchanged, RowOf, HasKey, AllSharesOf,
         Spots,
         BoardAccepts;
    var layout, out := [Position(pid, [a, b])], Exchanged(W, pid, a, b, l, keys, times);
    var zs := PlainVote(W, pid, a, b, l, keys, times).zs;
    ExchangedSpots(W, pid, a, b, l, keys, times);
    ExchangedAccepted(W, pid, a, b, l, authPub, keys, times);
    RowOfOne(tables[0], (l.rid, zs[0].sign), OneCells(W, pid, a, b));
    RowOfOne(tables[1], (l.rid, zs[1].sign), ZeroCells(W, layout));
    assert SignedFor(W, layout, authPub, tables[0], (l.rid, zs[0].sign), zs[0], TellerVote(l, OneCells(W, pid, a, b)));
    assert SignedFor(W, layout, authPub, tables[1], (l.rid, zs[1].sign), zs[1], TellerVote(l, ZeroCells(W, layout)));
    assert At(out, Spot(0, 0)) == zs[1] && At(out, Spot(0, 1)) == zs[0];
    assert Backed(W, layout, authPub, tables, out);
    BackedStored(W, layout, authPub, tables, out, 0);
    assert IsSpot(out, Spot(0, 1)) && KeyAt(out, Spot(0, 1)) == (l.rid, zs[0].sign);
    assert IsSpot(out, Spot(0, 0)) && KeyAt(out, Spot(0, 0)) == (l.rid, zs[1].sign);
  }

  lemma CellsOf<P(!new)>(W: World<P>, pid: int, a: int, b: int)
    ensures |OneCells(W, pid, a, b)| == 1 && |ZeroCells(W, [Position(pid, [a, b])])| == 1
    ensures var one, zero := OneCells(W, pid, a, b)[0], ZeroCells(W, [Position(pid, [a, b])])[0];
      && one.pid == zero.pid == pid && |one.values| == |zero.values| == 2
      && one.values[0].cid == zero.values[0].cid == a && one.values[1].cid == zero.values[1].cid == b
      && one.values[0].x == 1 && one.values[1].x == zero.values[0].x == zero.values[1].x == 0
      && one.values[0].y == one.values[1].y == zero.values[0].y == zero.values[1].y == 0
  {
  }

  lemma TotalOne(x: int)
    ensures Total([x]) == x
  {
    assert [x][..0] == [];
  }

  /** 1 is not 0 modulo the order, so that only a g of zero makes a commitment to 1 one to 0. */
  lemma OnlyTrivially<P(!new)>(W: World<P>, pid: int, a: int, b: int)
    requires W.Valid()
    ensures Cong(0, 0, W.G.order) && !Cong(1, 0, W.G.order)
    ensures W.G.Relation(1, 0) <==> W.G.g == W.G.zero
  {
    OneOpens(W, pid, a, b);
    DivModUnique(1, 0, 1, W.G.order);
  }

  /** A share of 1 counted, and one of 0 in place. */
  lemma OneAgainstZero<P(!new)>(W: World<P>, pid: int, a: int, b: int, d: seq<PosShares>, e: seq<PosShares>)
    requires W.Valid() && AllSharesOf(d, OneCells(W, pid, a, b))
    requires AllSharesOf(e, ZeroCells(W, [Position(pid, [a, b])]))
    ensures var layout := [Position(pid, [a, b])];
      && AllFitLayout([d], layout) && AllFitLayout([e], layout)
      && (Agree(W.G, layout, [d], [e]) <==> W.G.g == W.G.zero)
  {
    hide Cong, ZeroCells, OneCells, Group.Relation, Total, Prime;
    var layout := [Position(pid, [a, b])];
    CellsOf(W, pid, a, b);
    TotalOne(0);
    TotalOne(1);
    OnlyTrivially(W, pid, a, b);
    assert SharesOf(d[0], OneCells(W, pid, a, b)[0]) && SharesOf(e[0], ZeroCells(W, layout)[0]);
    assert CountRowFits(d[0], layout[0]) && CountRowFits(e[0], layout[0]);
    assert DataXs([d], layout, 0, 0) == [1] && DataYs([d], layout, 0, 0) == [0];
    assert DataXs([d], layout, 0, 1) == [0] && DataYs([d], layout, 0, 1) == [0];
    assert DataXs([e], layout, 0, 0) == [0] && DataYs([e], layout, 0, 0) == [0];
    assert DataXs([e], layout, 0, 1) == [0] && DataYs([e], layout, 0, 1) == [0];
    assert SameSums(W.G.order, layout, [d], [e], 0, 1);
    var same, relate := SameSums(W.G.order, layout, [d], [e], 0, 0), SumsRelate(W.G, layout, [d], [e], 0, 0);
    assert same || relate <==> W.G.g == W.G.zero;
  }

  /** One teller gets its first vote. */
  method SaveFirst<P(!new,==)>(E: Setting<P>, i: nat, l: Link, cells: seq<PosCells>, time: int)
    returns (db: TellerDb<P>, code: int)
    requires E.Valid() && i < |E.keys| && l.eid == E.eid
    requires TellerAccepts(E.W, E.layout, E.authPub, TellerVote(l, cells))
    ensures fresh(db) && db.Valid() && db.state == 3 && db.count.None? && code == 0
    ensures db.W == E.W && db.layout == E.layout && db.authPub == E.authPub
    ensures HoldsOne(db.rows, (l.rid, E.W.sign(E.keys[i], CommitStr(E.W, l, Strip(cells), time))), cells)
  {
    hide World.Valid, TellerAccepts, CommitStr, HasKey, AllSharesOf;
    var sign;
    db := new TellerDb(E.W, E.eid, E.layout, E.authPub, E.espPub, E.keys[i]);
    NoRows();
    code, sign := db.SaveVote(TellerVote(l, cells), time);
    db.Close();
  }

  /** One voter and two tellers: both keep and sign their parts, the board accepts them exchanged, the first teller's
      tally goes through, and its honest total does not pass, unless g is zero. */
  method ExchangedFails<P(!new,==)>(E: Setting<P>, pid: int, a: int, b: int, l: Link, times: seq<int>, time: int)
    returns (codes: (int, int), accepted: bool, result: Option<Stored>)
    requires E.Valid() && E.layout == [Position(pid, [a, b])] && |E.keys| == |times| == 2
    requires LinkOk(E.W, l, E.authPub) && l.eid == E.eid
    ensures codes == (0, 0) && accepted && result.Some? && CountFits(result.value.count, E.layout)
    ensures var file := BoardLines(Exchanged(E.W, pid, a, b, l, E.keys, times));
      && FileReaches(file, E.layout, 2)
      && (TotalPasses(E.W, E.layout, 2, file, 0, result.value.count) <==> E.W.G.g == E.W.G.zero)
  {
    hide World.Valid, LinkOk, TellerAccepts, CommitStr, HoldsOne, OneCells, ZeroCells, BoardAccepts, Backed, Agree,
         TotalPasses, Counted, Placed, RowsFit, NamesStored, AllSharesOf;
    ExchangedAccepted(E.W, pid, a, b, l, E.authPub, E.keys, times);
    var first, code0 := SaveFirst(E, 0, l, OneCells(E.W, pid, a, b), times[0]);
    var second, code1 := SaveFirst(E, 1, l, ZeroCells(E.W, E.layout), times[1]);
    codes := (code0, code1);
    var out := Exchanged(E.W, pid, a, b, l, E.keys, times);
    accepted := VerifyBallot(E.W, E.layout, Pubs(E.W, E.keys), E.authPub, out[0].data);
    ghost var tables := [first.rows, second.rows];
    ExchangedBacked(E.W, pid, a, b, l, E.authPub, E.keys, times, tables);
    ExchangedReads(E.W, pid, a, b, l, E.keys, times, tables);
    OneAgainstZero(E.W, pid, a, b, tables[0][0].data, tables[1][0].data);
    result := TallyVotes(first, tables, out, 0, time);
  }

  lemma ExchangedReads<P(!new)>(W: World<P>, pid: int, a: int, b: int, l: Link, keys: seq<string>, times: seq<int>,
                                tables: seq<seq<Row>>)
    requires |keys| == |times| == 2 && BothHold(W, pid, a, b, l, keys, times, tables)
    ensures var out := Exchanged(W, pid, a, b, l, keys, times);
      DistinctRids(out) && NoRepeat(out[0].data.zs, 0) && ReceiptsNamed(tables[0], out, 0)
    ensures |tables[0]| == |tables[1]| == 1
    ensures AllSharesOf(tables[0][0].data, OneCells(W, pid, a, b))
    ensures AllSharesOf(tables[1][0].data, ZeroCells(W, [Position(pid, [a, b])]))
  {
    hide CommitStr, OneCells, ZeroCells, AllSharesOf;
  }
}

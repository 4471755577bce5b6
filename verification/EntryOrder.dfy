/** The entries of a vote name their tellers by index. The board's check looks at the range of the index only
    (src/esp/saveVote.js:58), a teller's tally goes by the index (src/teller/electionTallying.js:109), and the board's
    final tally goes by the place of the entry (src/esp/finallyTallying.js:89-91). */
module EntryOrder {
  import opened Wrappers
  import opened ModArith
  import opened Groups
  import opened Ballots
  import opened HonestVote
  import opened VoteServers
  import opened Tally
  import opened TellerTally
  import opened BoardTally
  import opened TallyTheorems
  import opened WholeElection

  // ----- The board accepts entries in any order -----

  /** Replacing one term changes a sum by the difference. */
  lemma {:induction false} SumReplace<P(!new)>(G: Group<P>, s: seq<P>, i: nat, a: P)
    requires G.Valid() && i < |s|
    ensures G.add(G.Sum(s[i := a]), s[i]) == G.add(G.Sum(s), a)
  {
    var n := |s| - 1;
    var t := s[i := a];
    if i == n {
      assert t[..n] == s[..n];
      var p := G.Sum(s[..n]);
      assert G.Associates(p, a, s[n]) && G.Associates(p, s[n], a) && G.Commutes(a, s[n]);
    } else {
      SumReplace(G, s[..n], i, a);
      assert t[..n] == s[..n][i := a];
      var p, q, x, y := G.Sum(t[..n]), G.Sum(s[..n]), s[n], s[i];
      assert G.Associates(p, x, y) && G.Commutes(x, y) && G.Associates(p, y, x);
      assert G.Associates(q, a, x) && G.Commutes(a, x) && G.Associates(q, x, a);
    }
  }

  function Swap<T>(s: seq<T>, a: nat, b: nat): (r: seq<T>)
    requires a < b < |s|
    ensures |r| == |s| && r[a] == s[b] && r[b] == s[a] && forall i :: 0 <= i < |s| && i != a && i != b ==> r[i] == s[i]
  {
    s[a := s[b]][b := s[a]]
  }

  lemma SumSwap<P(!new)>(G: Group<P>, s: seq<P>, a: nat, b: nat)
    requires G.Valid() && a < b < |s|
    ensures G.Sum(Swap(s, a, b)) == G.Sum(s)
  {
    var u := s[a := s[b]];
    SumReplace(G, s, a, s[b]);
    SumReplace(G, u, b, s[a]);
    CancelRight(G, G.Sum(Swap(s, a, b)), G.Sum(s), s[b]);
  }

  /** A vote with two of its entries exchanged is accepted like the vote itself. */
  lemma OrderUnseen<P(!new)>(W: World<P>, layout: seq<Position>, tellerKeys: seq<string>, authPub: string, v: Vote<P>,
                             a: nat, b: nat)
    requires W.Valid() && a < b < |v.zs| && BoardAccepts(W, layout, tellerKeys, authPub, v)
    ensures BoardAccepts(W, layout, tellerKeys, authPub, v.(zs := Swap(v.zs, a, b)))
  {
    hide LinkOk, TellerPartOk, PositionProved, Prime;
    var zs' := Swap(v.zs, a, b);
    assert PartsOk(W, layout, tellerKeys, v.link, zs');
    PartsFit(W, layout, tellerKeys, v.link, v.zs);
    PartsFit(W, layout, tellerKeys, v.link, zs');
    forall j | 0 <= j < |layout| ensures PosZSums(W, layout, zs', j) == PosZSums(W, layout, v.zs, j) {
      forall k | 0 <= k < |layout[j].cand| ensures ZSum(W, layout, zs', j, k) == ZSum(W, layout, v.zs, j, k) {
        SwappedSum(W, layout, v.zs, a, b, j, k);
      }
    }
  }

  lemma SwappedSum<P(!new)>(W: World<P>, layout: seq<Position>, zs: seq<TellerZ>, a: nat, b: nat, j: nat, k: nat)
    requires W.Valid() && a < b < |zs| && AllFit(zs, layout) && AllFit(Swap(zs, a, b), layout)
    requires j < |layout| && k < |layout[j].cand|
    ensures ZSum(W, layout, Swap(zs, a, b), j, k) == ZSum(W, layout, zs, j, k)
  {
    hide Group.Sum, ZFits, Prime;
    Reach(zs, layout, j, k);
    Reach(Swap(zs, a, b), layout, j, k);
    assert ZColumn(W, Swap(zs, a, b), j, k) == Swap(ZColumn(W, zs, j, k), a, b);
    SumSwap(W.G, ZColumn(W, zs, j, k), a, b);
  }

  lemma Reach(zs: seq<TellerZ>, layout: seq<Position>, j: nat, k: nat)
    requires AllFit(zs, layout) && j < |layout| && k < |layout[j].cand|
    ensures forall i :: 0 <= i < |zs| ==> j < |zs[i].val| && k < |zs[i].val[j].values|
  {
    forall i | 0 <= i < |zs| ensures j < |zs[i].val| && k < |zs[i].val[j].values| {
      assert ZFits(zs[i].val, layout) && ZRowFits(zs[i].val[j], layout[j]);
    }
  }

  // ----- The entries a teller's tally goes by -----

  type Rec<P> = Paging.Rec<Vote<P>>

  /** Entry p of vote m. */
  datatype Spot = Spot(m: nat, p: nat)

  ghost predicate IsSpot<P>(out: seq<Rec<P>>, s: Spot) {
    s.m < |out| && s.p < |out[s.m].data.zs|
  }

  ghost function At<P>(out: seq<Rec<P>>, s: Spot): TellerZ
    requires IsSpot(out, s)
  {
    out[s.m].data.zs[s.p]
  }

  /** What names the stored vote of an entry. */
  ghost function KeyAt<P>(out: seq<Rec<P>>, s: Spot): Key
    requires IsSpot(out, s)
  {
    (out[s.m].rid, At(out, s).sign)
  }

  /** The first n entries of vote m that carry index i. */
  ghost function SpotsIn<P>(out: seq<Rec<P>>, i: int, m: nat, n: nat): (r: seq<Spot>)
    requires m < |out| && n <= |out[m].data.zs|
    ensures forall s :: s in r <==> s.m == m && s.p < n && At(out, s).idx == i
  {
    if n == 0 then [] else
      SpotsIn(out, i, m, n - 1) + if out[m].data.zs[n - 1].idx == i then [Spot(m, n - 1)] else []
  }

  /** The entries that carry index i in the first n votes, in the order of the file. */
  ghost function Spots<P>(out: seq<Rec<P>>, i: int, n: nat): (r: seq<Spot>)
    requires n <= |out|
    ensures forall s :: s in r <==> s.m < n && IsSpot(out, s) && At(out, s).idx == i
  {
    if n == 0 then [] else Spots(out, i, n - 1) + SpotsIn(out, i, n - 1, |out[n - 1].data.zs|)
  }

  ghost predicate AllDiffer(ss: seq<Spot>) {
    forall a, b :: 0 <= a < b < |ss| ==> ss[a] != ss[b]
  }

  lemma Apart(ss: seq<Spot>, ts: seq<Spot>)
    requires AllDiffer(ss) && AllDiffer(ts) && forall s :: s in ss ==> s !in ts
    ensures AllDiffer(ss + ts)
  {
    forall a, b | 0 <= a < b < |ss + ts| ensures (ss + ts)[a] != (ss + ts)[b] {
      if a < |ss| <= b {
        assert ss[a] in ss && ts[b - |ss|] in ts;
      }
    }
  }

  lemma {:induction false} SpotsInDiffer<P>(out: seq<Rec<P>>, i: int, m: nat, n: nat)
    requires m < |out| && n <= |out[m].data.zs|
    ensures AllDiffer(SpotsIn(out, i, m, n))
  {
    hide AllDiffer;
    if n == 0 {
      NoneDiffer();
    } else {
      SpotsInDiffer(out, i, m, n - 1);
      OneMore(SpotsIn(out, i, m, n - 1), Spot(m, n - 1));
    }
  }

  lemma NoneDiffer()
    ensures AllDiffer([])
  {
  }

  lemma OneMore(ss: seq<Spot>, s: Spot)
    requires AllDiffer(ss) && s !in ss
    ensures AllDiffer(ss + [s]) && ss + [] == ss
  {
    Apart(ss, [s]);
  }

  lemma {:induction false} SpotsDiffer<P>(out: seq<Rec<P>>, i: int, n: nat)
    requires n <= |out|
    ensures AllDiffer(Spots(out, i, n))
  {
    hide AllDiffer;
    if n == 0 {
      NoneDiffer();
    } else {
      SpotsDiffer(out, i, n - 1);
      SpotsInDiffer(out, i, n - 1, |out[n - 1].data.zs|);
      Apart(Spots(out, i, n - 1), SpotsIn(out, i, n - 1, |out[n - 1].data.zs|));
    }
  }

  ghost function Keys<P>(out: seq<Rec<P>>, ss: seq<Spot>): (r: seq<Key>)
    requires forall s :: s in ss ==> IsSpot(out, s)
    ensures |r| == |ss| && forall q :: 0 <= q < |r| ==> r[q] == KeyAt(out, ss[q])
  {
    seq(|ss|, q requires 0 <= q < |ss| => KeyAt(out, ss[q]))
  }

  lemma KeysAppend<P>(out: seq<Rec<P>>, ss: seq<Spot>, ts: seq<Spot>)
    requires (forall s :: s in ss ==> IsSpot(out, s)) && forall s :: s in ts ==> IsSpot(out, s)
    ensures (forall s :: s in ss + ts ==> IsSpot(out, s)) && Keys(out, ss + ts) == Keys(out, ss) + Keys(out, ts)
  {
    hide IsSpot, KeyAt;
    assert forall q :: 0 <= q < |ts| ==> (ss + ts)[|ss| + q] == ts[q];
  }

  lemma {:induction false} LinePicksAre<P>(out: seq<Rec<P>>, i: int, m: nat, n: nat)
    requires m < |out| && n <= |out[m].data.zs|
    ensures EntryPicks(out[m].rid, EntriesOf(out[m].data.zs), i, n) == Some(Keys(out, SpotsIn(out, i, m, n)))
  {
    if n > 0 {
      LinePicksAre(out, i, m, n - 1);
      var before, s := SpotsIn(out, i, m, n - 1), Spot(m, n - 1);
      if At(out, s).idx == i {
        assert Keys(out, before + [s]) == Keys(out, before) + [KeyAt(out, s)];
      } else {
        assert before + [] == before;
      }
    }
  }

  /** The tally names the votes of exactly these entries. */
  lemma {:induction false} FilePicksAre<P>(out: seq<Rec<P>>, i: int, n: nat)
    requires n <= |out|
    ensures FilePicks(TellerLines(out), i, n) == Some(Keys(out, Spots(out, i, n)))
  {
    hide EntryPicks, SpotsIn, Keys;
    if n > 0 {
      FilePicksAre(out, i, n - 1);
      LinePicksAre(out, i, n - 1, |out[n - 1].data.zs|);
      KeysAppend(out, Spots(out, i, n - 1), SpotsIn(out, i, n - 1, |out[n - 1].data.zs|));
    }
  }

  ghost predicate DistinctRids<P>(out: seq<Rec<P>>) {
    forall m, n :: 0 <= m < n < |out| ==> out[m].rid != out[n].rid
  }

  /** No two entries with index i carry one signature. */
  ghost predicate NoRepeat(zs: seq<TellerZ>, i: int) {
    forall p, q :: 0 <= p < q < |zs| && zs[p].idx == i && zs[q].idx == i ==> zs[p].sign != zs[q].sign
  }

  /** Every vote that an entry with index i names is stored. */
  ghost predicate NamesStored<P>(rows: seq<Row>, out: seq<Rec<P>>, i: int) {
    forall s :: IsSpot(out, s) && At(out, s).idx == i ==> HasKey(rows, KeyAt(out, s))
  }

  /** Two entries, two places in the list. */
  lemma TwoSpots<P>(out: seq<Rec<P>>, i: int, s: Spot, t: Spot)
    requires IsSpot(out, s) && IsSpot(out, t) && s != t && At(out, s).idx == At(out, t).idx == i
    ensures KeyAt(out, s) == KeyAt(out, t) ==> forall rows :: !GoodPicks(rows, Keys(out, Spots(out, i, |out|)))
  {
    var ss := Spots(out, i, |out|);
    assert s in ss && t in ss;
    var a: nat :| a < |ss| && ss[a] == s;
    var b: nat :| b < |ss| && ss[b] == t;
    var keys := Keys(out, ss);
    if keys[a] == keys[b] {
      forall rows ensures !GoodPicks(rows, keys) {
        var x, y := if a < b then a else b, if a < b then b else a;
        assert keys[x] == keys[y];
      }
    }
  }

  lemma KeysDiffer<P>(out: seq<Rec<P>>, i: int, s: Spot, t: Spot)
    requires DistinctRids(out) && IsSpot(out, s) && IsSpot(out, t) && s != t && At(out, s).idx == At(out, t).idx == i
    requires NoRepeat(out[s.m].data.zs, i)
    ensures KeyAt(out, s) != KeyAt(out, t)
  {
    if s.m == t.m && t.p < s.p {
      assert At(out, t).sign != At(out, s).sign;
    }
  }

  /** A teller's tally reads the file exactly if all votes that it names under its index are stored, and no vote names
      one of them twice. */
  lemma ReadsIff<P>(rows: seq<Row>, out: seq<Rec<P>>, i: int)
    requires DistinctRids(out)
    ensures FileReads(rows, TellerLines(out), i) <==>
      NamesStored(rows, out, i) && forall m :: 0 <= m < |out| ==> NoRepeat(out[m].data.zs, i)
  {
    hide HasKey, FilePicks, GoodPicks, NamesStored, NoRepeat, DistinctRids, Keys, Spots;
    FilePicksAre(out, i, |out|);
    if FileReads(rows, TellerLines(out), i) {
      GoodIsStored(rows, out, i);
    } else if NamesStored(rows, out, i) && forall m :: 0 <= m < |out| ==> NoRepeat(out[m].data.zs, i) {
      StoredIsGood(rows, out, i);
      assert false;
    }
  }

  lemma GoodIsStored<P>(rows: seq<Row>, out: seq<Rec<P>>, i: int)
    requires GoodPicks(rows, Keys(out, Spots(out, i, |out|)))
    ensures NamesStored(rows, out, i) && forall m :: 0 <= m < |out| ==> NoRepeat(out[m].data.zs, i)
  {
    hide HasKey;
    var ss := Spots(out, i, |out|);
    forall s | IsSpot(out, s) && At(out, s).idx == i ensures HasKey(rows, KeyAt(out, s)) {
      assert s in ss;
    }
    forall m | 0 <= m < |out| ensures NoRepeat(out[m].data.zs, i) {
      RepeatIsBad(rows, out, i, m);
    }
  }

  lemma RepeatIsBad<P>(rows: seq<Row>, out: seq<Rec<P>>, i: int, m: nat)
    requires m < |out| && GoodPicks(rows, Keys(out, Spots(out, i, |out|)))
    ensures NoRepeat(out[m].data.zs, i)
  {
    hide GoodPicks, Spots;
    var zs := out[m].data.zs;
    forall p, q | 0 <= p < q < |zs| && zs[p].idx == i && zs[q].idx == i ensures zs[p].sign != zs[q].sign {
      TwoSpots(out, i, Spot(m, p), Spot(m, q));
    }
  }

  lemma StoredIsGood<P>(rows: seq<Row>, out: seq<Rec<P>>, i: int)
    requires DistinctRids(out)
    requires NamesStored(rows, out, i) && forall m :: 0 <= m < |out| ==> NoRepeat(out[m].data.zs, i)
    ensures GoodPicks(rows, Keys(out, Spots(out, i, |out|)))
  {
    hide HasKey, DistinctRids, NoRepeat, At, KeyAt, Spots;
    SpotsDiffer(out, i, |out|);
    var ss := Spots(out, i, |out|);
    forall q | 0 <= q < |ss| ensures HasKey(rows, KeyAt(out, ss[q])) {
      assert ss[q] in ss;
    }
    forall a, b | 0 <= a < b < |ss| ensures KeyAt(out, ss[a]) != KeyAt(out, ss[b]) {
      assert ss[a] in ss && ss[b] in ss && ss[a] != ss[b];
      KeysDiffer(out, i, ss[a], ss[b]);
    }
  }

  /** A vote with one signature twice under an index blocks the tally of that teller for ever. */
  lemma RepeatBlocks<P>(out: seq<Rec<P>>, i: int, m: nat, p: nat, q: nat)
    requires m < |out| && p < q < |out[m].data.zs| && out[m].data.zs[p].idx == out[m].data.zs[q].idx == i
    requires out[m].data.zs[p].sign == out[m].data.zs[q].sign
    ensures forall rows :: !FileReads(rows, TellerLines(out), i)
  {
    FilePicksAre(out, i, |out|);
    TwoSpots(out, i, Spot(m, p), Spot(m, q));
  }

  // ----- The shares that are counted, and those behind the commitments at a place -----

  ghost function RowOf(rows: seq<Row>, key: Key): (a: nat)
    requires HasKey(rows, key)
    ensures a < |rows| && rows[a].Id() == key
  {
    var a: nat :| a < |rows| && rows[a].Id() == key;
    a
  }

  /** What teller i counts: its shares of the votes that the entries with index i name. */
  ghost function Counted<P>(rows: seq<Row>, out: seq<Rec<P>>, i: int): (r: seq<seq<PosShares>>)
    requires NamesStored(rows, out, i)
    ensures var ss := Spots(out, i, |out|);
      |r| == |ss| && forall q :: 0 <= q < |r| ==> r[q] == rows[RowOf(rows, KeyAt(out, ss[q]))].data
  {
    var ss := Spots(out, i, |out|);
    seq(|ss|, q requires 0 <= q < |ss| => assert ss[q] in ss; rows[RowOf(rows, KeyAt(out, ss[q]))].data)
  }

  /** An entry carries what its teller has checked and signed, and stored under that signature. */
  ghost predicate SignedFor<P(!new)>(W: World<P>, layout: seq<Position>, authPub: string, rows: seq<Row>, key: Key,
                                     z: TellerZ, v: TellerVote) {
    && HasKey(rows, key) && z.val == Strip(v.commits) && TellerAccepts(W, layout, authPub, v)
    && AllSharesOf(rows[RowOf(rows, key)].data, v.commits)
  }

  ghost predicate EntryBacked<P(!new)>(W: World<P>, layout: seq<Position>, authPub: string, tables: seq<seq<Row>>,
                                       key: Key, z: TellerZ) {
    0 <= z.idx < |tables| && exists v :: SignedFor(W, layout, authPub, tables[z.idx], key, z, v)
  }

  /** The votes have an entry for each of the honest tellers with these tables, and every entry is signed by the one
      that it names. */
  ghost predicate Backed<P(!new)>(W: World<P>, layout: seq<Position>, authPub: string, tables: seq<seq<Row>>,
                                  out: seq<Rec<P>>) {
    && (forall m :: 0 <= m < |out| ==> |out[m].data.zs| == |tables|)
    && forall s :: IsSpot(out, s) ==> EntryBacked(W, layout, authPub, tables, KeyAt(out, s), At(out, s))
  }

  /** The shares stored for one entry by the teller it names. */
  ghost function StoredFor<P(!new)>(W: World<P>, layout: seq<Position>, authPub: string, tables: seq<seq<Row>>,
                                    key: Key, z: TellerZ): seq<PosShares>
    requires EntryBacked(W, layout, authPub, tables, key, z)
  {
    tables[z.idx][RowOf(tables[z.idx], key)].data
  }

  /** The shares behind the commitments at place i. */
  ghost function Placed<P(!new)>(W: World<P>, layout: seq<Position>, authPub: string, tables: seq<seq<Row>>,
                                 out: seq<Rec<P>>, i: nat): (r: seq<seq<PosShares>>)
    requires Backed(W, layout, authPub, tables, out) && i < |tables|
    ensures |r| == |out| && forall m :: 0 <= m < |r| ==>
      var s := Spot(m, i);
      IsSpot(out, s) && r[m] == StoredFor(W, layout, authPub, tables, KeyAt(out, s), At(out, s))
  {
    seq(|out|, m requires 0 <= m < |out| =>
      assert IsSpot(out, Spot(m, i));
      StoredFor(W, layout, authPub, tables, KeyAt(out, Spot(m, i)), At(out, Spot(m, i))))
  }

  lemma BackedStored<P(!new)>(W: World<P>, layout: seq<Position>, authPub: string, tables: seq<seq<Row>>,
                              out: seq<Rec<P>>, i: nat)
    requires Backed(W, layout, authPub, tables, out) && i < |tables|
    ensures NamesStored(tables[i], out, i)
  {
    hide TellerAccepts, AllSharesOf;
    forall s | IsSpot(out, s) && At(out, s).idx == i ensures HasKey(tables[i], KeyAt(out, s)) {
      assert EntryBacked(W, layout, authPub, tables, KeyAt(out, s), At(out, s));
    }
  }

  ghost predicate VoucherAt<P(!new)>(W: World<P>, layout: seq<Position>, authPub: string, tables: seq<seq<Row>>,
                                     out: seq<Rec<P>>, s: Spot, v: TellerVote) {
    && IsSpot(out, s) && 0 <= At(out, s).idx < |tables|
    && SignedFor(W, layout, authPub, tables[At(out, s).idx], KeyAt(out, s), At(out, s), v)
  }

  lemma BackedOpens<P(!new)>(W: World<P>, layout: seq<Position>, authPub: string, tables: seq<seq<Row>>,
                             out: seq<Rec<P>>, i: nat)
    requires Backed(W, layout, authPub, tables, out) && i < |tables|
    ensures FileReaches(BoardLines(out), layout, |tables|)
    ensures OpensFile(W, layout, |tables|, BoardLines(out), i, Placed(W, layout, authPub, tables, out, i))
  {
    hide TellerAccepts, OpensFile, AllSharesOf, Reaches;
    var file := BoardLines(out);
    forall m | 0 <= m < |file| ensures LineReaches(file[m], layout, |tables|) {
      forall p | 0 <= p < |file[m].zs| ensures Reaches(file[m].zs[p].val, layout) {
        assert IsSpot(out, Spot(m, p));
        EntryReaches(W, layout, authPub, tables, KeyAt(out, Spot(m, p)), At(out, Spot(m, p)));
      }
    }
    var votes: seq<TellerVote> := [];
    for m := 0 to |out|
      invariant |votes| == m
      invariant forall n :: 0 <= n < m ==> VoucherAt(W, layout, authPub, tables, out, Spot(n, i), votes[n])
    {
      var s := Spot(m, i);
      assert IsSpot(out, s) && EntryBacked(W, layout, authPub, tables, KeyAt(out, s), At(out, s));
      var v :| SignedFor(W, layout, authPub, tables[At(out, s).idx], KeyAt(out, s), At(out, s), v);
      assert VoucherAt(W, layout, authPub, tables, out, s, v);
      votes := votes + [v];
    }
    AcceptedOpens(W, layout, authPub, |tables|, file, i, votes, Placed(W, layout, authPub, tables, out, i));
  }

  lemma EntryReaches<P(!new)>(W: World<P>, layout: seq<Position>, authPub: string, tables: seq<seq<Row>>, key: Key,
                              z: TellerZ)
    requires EntryBacked(W, layout, authPub, tables, key, z)
    ensures Reaches(z.val, layout)
  {
    hide LinkOk, AllSharesOf;
    var v :| SignedFor(W, layout, authPub, tables[z.idx], key, z, v);
    forall j | 0 <= j < |layout| ensures |z.val[j].values| >= |layout[j].cand| {
      assert RowOk(W, layout[j], v.commits[j]);
    }
  }

  // ----- What that does to an honest total -----

  /** In one cell, the shares a teller counted add up to those behind the commitments at its place. */
  ghost predicate SameSums(order: nat, layout: seq<Position>, counted: seq<seq<PosShares>>, placed: seq<seq<PosShares>>,
                           j: nat, k: nat)
    requires order > 0 && AllFitLayout(counted, layout) && AllFitLayout(placed, layout)
    requires j < |layout| && k < |layout[j].cand|
  {
    && Cong(Total(DataXs(counted, layout, j, k)), Total(DataXs(placed, layout, j, k)), order)
    && Cong(Total(DataYs(counted, layout, j, k)), Total(DataYs(placed, layout, j, k)), order)
  }

  ghost predicate SumsRelate<P(!new)>(G: Group<P>, layout: seq<Position>, counted: seq<seq<PosShares>>,
                                      placed: seq<seq<PosShares>>, j: nat, k: nat)
    requires G.order > 0 && AllFitLayout(counted, layout) && AllFitLayout(placed, layout)
    requires j < |layout| && k < |layout[j].cand|
  {
    G.Relation(Total(DataXs(counted, layout, j, k)) - Total(DataXs(placed, layout, j, k)),
               Total(DataYs(counted, layout, j, k)) - Total(DataYs(placed, layout, j, k)))
  }

  /** In every cell the shares counted and the shares at the place add up to the same modulo the order, or else their
      difference is a dependency between g and h. */
  ghost predicate Agree<P(!new)>(G: Group<P>, layout: seq<Position>, counted: seq<seq<PosShares>>,
                                 placed: seq<seq<PosShares>>)
    requires G.order > 0 && AllFitLayout(counted, layout) && AllFitLayout(placed, layout)
  {
    forall j, k :: 0 <= j < |layout| && 0 <= k < |layout[j].cand| ==>
      SameSums(G.order, layout, counted, placed, j, k) || SumsRelate(G, layout, counted, placed, j, k)
  }

  lemma CountedAgainstPlaced<P(!new)>(W: World<P>, layout: seq<Position>, tellers: nat, file: seq<FileLine>, i: nat,
                                      counted: seq<seq<PosShares>>, placed: seq<seq<PosShares>>, count: seq<PosShares>)
    requires W.Valid() && FileReaches(file, layout, tellers) && OpensFile(W, layout, tellers, file, i, placed)
    requires AllFitLayout(counted, layout) && CountedFrom(W.G.order, count, layout, counted)
    ensures AllFitLayout(placed, layout)
    ensures TotalPasses(W, layout, tellers, file, i, count) <==> Agree(W.G, layout, counted, placed)
  {
    hide CountedFrom, OpensFile, Group.Com, Group.Relation, Prime, LineReaches, SameSums, SumsRelate, Passes;
    CountedFits(W.G.order, count, layout, counted);
    OpensFits(W, layout, tellers, file, i, placed);
    forall j, k | 0 <= j < |layout| && 0 <= k < |layout[j].cand|
      ensures var c := CountCell(count, layout, j, k);
        Passes(W.G, c.x, c.y, Factors(W, layout, tellers, file, i, j, k)) <==>
          SameSums(W.G.order, layout, counted, placed, j, k) || SumsRelate(W.G, layout, counted, placed, j, k)
    {
      CellByIndex(W, layout, tellers, file, i, counted, placed, count, j, k);
    }
  }

  /** Teller i has tallied votes whose entries are honestly signed. Its total passes exactly if its shares of the
      entries that carry its index agree with the shares behind the entries at place i. */
  lemma TotalByIndex<P(!new)>(W: World<P>, layout: seq<Position>, authPub: string, tables: seq<seq<Row>>,
                              out: seq<Rec<P>>, i: nat, count: seq<PosShares>)
    requires W.Valid() && Backed(W, layout, authPub, tables, out) && i < |tables|
    requires Keyed(tables[i]) && RowsFit(tables[i], layout) && forall a :: 0 <= a < |tables[i]| ==> !tables[i][a].isSum
    requires FileReads(tables[i], TellerLines(out), i)
    requires var now := Marked(tables[i], FilePicks(TellerLines(out), i, |out|).value);
      RowsFit(now, layout) && CountIs(W.G.order, count, layout, now)
    ensures FileReaches(BoardLines(out), layout, |tables|) && NamesStored(tables[i], out, i)
    ensures var counted, placed := Counted(tables[i], out, i), Placed(W, layout, authPub, tables, out, i);
      && AllFitLayout(counted, layout) && AllFitLayout(placed, layout)
      && (TotalPasses(W, layout, |tables|, BoardLines(out), i, count) <==> Agree(W.G, layout, counted, placed))
  {
    hide World.Valid, Backed, OpensFile, CountIs, CountedFrom, Agree, TotalPasses, FilePicks, HasKey, GoodPicks,
         RowsFit,
         Keyed, LineReaches;
    var rows, ss := tables[i], Spots(out, i, |out|);
    BackedStored(W, layout, authPub, tables, out, i);
    BackedOpens(W, layout, authPub, tables, out, i);
    FilePicksAre(out, i, |out|);
    var keys := Keys(out, ss);
    var at := seq(|ss|, q requires 0 <= q < |ss| => assert ss[q] in ss; RowOf(rows, KeyAt(out, ss[q])));
    OrderPositive(W);
    TallyCounts(W.G.order, rows, layout, keys, at, count);
    assert DataOf(rows, at) == Counted(rows, out, i);
    CountedAgainstPlaced(W, layout, |tables|, BoardLines(out), i, Counted(rows, out, i),
                         Placed(W, layout, authPub, tables, out, i), count);
  }

  /** The entry at every place carries the index of that place. */
  ghost predicate InOrder<P>(out: seq<Rec<P>>) {
    forall s :: IsSpot(out, s) ==> At(out, s).idx == s.p
  }

  lemma {:induction false} SpotInOrder<P>(out: seq<Rec<P>>, i: nat, m: nat, n: nat)
    requires m < |out| && n <= |out[m].data.zs| && InOrder(out)
    ensures SpotsIn(out, i, m, n) == if i < n then [Spot(m, i)] else []
  {
    if n > 0 {
      SpotInOrder(out, i, m, n - 1);
      assert At(out, Spot(m, n - 1)).idx == n - 1;
    }
  }

  lemma {:induction false} SpotsInOrder<P>(out: seq<Rec<P>>, i: nat, n: nat)
    requires n <= |out| && InOrder(out) && forall m :: 0 <= m < |out| ==> i < |out[m].data.zs|
    ensures |Spots(out, i, n)| == n && forall m :: 0 <= m < n ==> Spots(out, i, n)[m] == Spot(m, i)
  {
    hide InOrder, SpotsIn;
    if n > 0 {
      SpotsInOrder(out, i, n - 1);
      SpotInOrder(out, i, n - 1, |out[n - 1].data.zs|);
    }
  }

  /** In order, what is counted is what lies behind the place, and nothing is named twice. */
  lemma OrderedAgree<P(!new)>(W: World<P>, layout: seq<Position>, authPub: string, tables: seq<seq<Row>>,
                              out: seq<Rec<P>>, i: nat)
    requires W.G.order > 0 && Backed(W, layout, authPub, tables, out) && i < |tables| && InOrder(out)
    ensures NamesStored(tables[i], out, i)
    ensures Counted(tables[i], out, i) == Placed(W, layout, authPub, tables, out, i)
    ensures forall m :: 0 <= m < |out| ==> NoRepeat(out[m].data.zs, i)
  {
    hide EntryBacked, HasKey;
    BackedStored(W, layout, authPub, tables, out, i);
    SpotsInOrder(out, i, |out|);
    var counted, placed := Counted(tables[i], out, i), Placed(W, layout, authPub, tables, out, i);
    assert |counted| == |placed|;
    forall m | 0 <= m < |out| ensures counted[m] == placed[m] {
      assert IsSpot(out, Spot(m, i)) && At(out, Spot(m, i)).idx == i;
    }
    forall m, p | 0 <= m < |out| && 0 <= p < |out[m].data.zs| ensures out[m].data.zs[p].idx == p {
      assert IsSpot(out, Spot(m, p));
    }
  }

  lemma SameAgree<P(!new)>(G: Group<P>, layout: seq<Position>, datas: seq<seq<PosShares>>)
    requires G.order > 0 && AllFitLayout(datas, layout)
    ensures Agree(G, layout, datas, datas)
  {
    forall j, k | 0 <= j < |layout| && 0 <= k < |layout[j].cand| ensures SameSums(G.order, layout, datas, datas, j, k) {
    }
  }

  /** Every vote the teller has a receipt for is named. */
  ghost predicate ReceiptsNamed<P>(rows: seq<Row>, out: seq<Rec<P>>, i: int) {
    forall a :: 0 <= a < |rows| && rows[a].receipt.Some? ==>
      exists s :: IsSpot(out, s) && At(out, s).idx == i && KeyAt(out, s) == rows[a].Id()
  }

  lemma KeysOfSpots<P>(out: seq<Rec<P>>, i: int, key: Key)
    ensures key in Keys(out, Spots(out, i, |out|)) <==>
      exists s :: IsSpot(out, s) && At(out, s).idx == i && KeyAt(out, s) == key
  {
    hide At, KeyAt, Spots;
    var ss := Spots(out, i, |out|);
    var keys := Keys(out, ss);
    if key in keys {
      var q :| 0 <= q < |keys| && keys[q] == key;
      assert ss[q] in ss;
    }
    if s :| IsSpot(out, s) && At(out, s).idx == i && KeyAt(out, s) == key {
      assert s in ss;
      var q :| 0 <= q < |ss| && ss[q] == s;
      assert keys[q] == key;
    }
  }

  lemma ReceiptsCovered<P>(rows: seq<Row>, out: seq<Rec<P>>, i: int)
    ensures FilePicks(TellerLines(out), i, |out|).Some?
    ensures Covered(Marked(rows, FilePicks(TellerLines(out), i, |out|).value)) <==> ReceiptsNamed(rows, out, i)
  {
    hide FilePicks, IsSpot, At, KeyAt, Spots;
    FilePicksAre(out, i, |out|);
    var keys := Keys(out, Spots(out, i, |out|));
    forall a | 0 <= a < |rows| ensures Marked(rows, keys)[a].receipt == rows[a].receipt {
      KeysOfSpots(out, i, rows[a].Id());
    }
    forall a | 0 <= a < |rows|
      ensures Marked(rows, keys)[a].isSum <==>
        exists s :: IsSpot(out, s) && At(out, s).idx == i && KeyAt(out, s) == rows[a].Id()
    {
      KeysOfSpots(out, i, rows[a].Id());
    }
  }

  /** A teller's tally over honestly signed votes. It goes through exactly if no vote names one of its rows twice and
      every receipted row is named; the total then passes exactly if the shares by index agree with those by place.
      Neither can fail if the entries are in order. */
  method TallyVotes<P(!new,==)>(db: TellerDb<P>, ghost tables: seq<seq<Row>>, out: seq<Rec<P>>, i: nat, time: int)
    returns (result: Option<Stored>)
    requires db.Valid() && db.state == 3 && db.count.None? && i < |tables| && tables[i] == db.rows
    requires DistinctRids(out) && Backed(db.W, db.layout, db.authPub, tables, out)
    modifies db
    ensures result.Some? <==>
      (forall m :: 0 <= m < |out| ==> NoRepeat(out[m].data.zs, i)) && ReceiptsNamed(tables[i], out, i)
    ensures InOrder(out) ==> forall m :: 0 <= m < |out| ==> NoRepeat(out[m].data.zs, i)
    ensures db.W.G.order > 0 && FileReaches(BoardLines(out), db.layout, |tables|) && NamesStored(tables[i], out, i)
    ensures result.Some? ==>
      var counted := Counted(tables[i], out, i);
      var placed := Placed(db.W, db.layout, db.authPub, tables, out, i);
      && AllFitLayout(counted, db.layout) && AllFitLayout(placed, db.layout)
      && CountFits(result.value.count, db.layout)
      && var passes := TotalPasses(db.W, db.layout, |tables|, BoardLines(out), i, result.value.count);
         (passes <==> Agree(db.W.G, db.layout, counted, placed)) && (InOrder(out) ==> passes)
  {
    hide World.Valid, Backed, Agree, TotalPasses, FilePicks, InOrder, NoRepeat, ReceiptsNamed, NamesStored,
         GoodPicks, Covered, CountSigned, DistinctRids, TellerDb.RowsStand, LineReaches, Keyed;
    ghost var rows := db.rows;
    OrderPositive(db.W);
    BackedStored(db.W, db.layout, db.authPub, tables, out, i);
    BackedOpens(db.W, db.layout, db.authPub, tables, out, i);
    ReadsIff(rows, out, i);
    ReceiptsCovered(rows, out, i);
    result := db.Tally(TellerLines(out), i, time, true);
    if result.Some? {
      TotalByIndex(db.W, db.layout, db.authPub, tables, out, i, result.value.count);
    }
    if InOrder(out) {
      OrderedAgree(db.W, db.layout, db.authPub, tables, out, i);
      if result.Some? {
        SameAgree(db.W.G, db.layout, Counted(tables[i], out, i));
      }
    }
  }

  lemma CountedFits(order: nat, count: seq<PosShares>, layout: seq<Position>, datas: seq<seq<PosShares>>)
    requires order > 0 && AllFitLayout(datas, layout) && CountedFrom(order, count, layout, datas)
    ensures CountFits(count, layout)
  {
  }

  lemma OpensFits<P(!new)>(W: World<P>, layout: seq<Position>, tellers: nat, file: seq<FileLine>, i: nat,
                           datas: seq<seq<PosShares>>)
    requires FileReaches(file, layout, tellers) && OpensFile(W, layout, tellers, file, i, datas)
    ensures AllFitLayout(datas, layout)
  {
  }

  lemma CellByIndex<P(!new)>(W: World<P>, layout: seq<Position>, tellers: nat, file: seq<FileLine>, i: nat,
                             counted: seq<seq<PosShares>>, placed: seq<seq<PosShares>>, count: seq<PosShares>, j: nat,
                             k: nat)
    requires W.Valid() && FileReaches(file, layout, tellers) && OpensFile(W, layout, tellers, file, i, placed)
    requires AllFitLayout(counted, layout) && CountedFrom(W.G.order, count, layout, counted)
    requires AllFitLayout(placed, layout) && CountFits(count, layout)
    requires j < |layout| && k < |layout[j].cand|
    ensures var c := CountCell(count, layout, j, k);
      Passes(W.G, c.x, c.y, Factors(W, layout, tellers, file, i, j, k)) <==>
        SameSums(W.G.order, layout, counted, placed, j, k) || SumsRelate(W.G, layout, counted, placed, j, k)
  {
    hide Group.Com, Group.Sum, Group.Mul, Prime, LineReaches, CountFits;
    var c, zs := CountCell(count, layout, j, k), Factors(W, layout, tellers, file, i, j, k);
    var x, y := Total(DataXs(counted, layout, j, k)), Total(DataYs(counted, layout, j, k));
    var u, v := Total(DataXs(placed, layout, j, k)), Total(DataYs(placed, layout, j, k));
    SumOfCommitments(W.G, zs, DataXs(placed, layout, j, k), DataYs(placed, layout, j, k));
    ReducedCom(W.G, x, y);
    SameCom(W.G, x, y, u, v);
  }

  lemma ReducedCom<P(!new)>(G: Group<P>, x: int, y: int)
    requires G.Valid()
    ensures G.Com(x % G.order, y % G.order) == G.Com(x, y)
  {
    CongReduce(x, G.order);
    CongReduce(y, G.order);
    ComCong(G, x % G.order, y % G.order, x, y);
  }

  /** Two commitments are equal exactly if what they open to is congruent, or the difference is a dependency. */
  lemma SameCom<P(!new)>(G: Group<P>, x: int, y: int, u: int, v: int)
    requires G.Valid()
    ensures G.Com(x, y) == G.Com(u, v) <==>
      (Cong(x, u, G.order) && Cong(y, v, G.order)) || G.Relation(x - u, y - v)
  {
    hide Cong;
    if G.Com(x, y) == G.Com(u, v) {
      Binding(G, x, y, u, v);
    }
    if Cong(x, u, G.order) && Cong(y, v, G.order) {
      ComCong(G, x, y, u, v);
    }
    if G.Relation(x - u, y - v) {
      ComAdd(G, x - u, y - v, u, v);
      ZeroLeft(G, G.Com(u, v));
    }
  }

  // ----- After an election -----

  /** The dump of honest voters' votes is such a file, in order. */
  lemma ElectionBacked<P(!new)>(E: Setting<P>, tables: seq<seq<Row>>, out: seq<Rec<P>>, casts: seq<Cast<P>>,
                                at: seq<nat>)
    requires E.Valid() && GoodCasts(E, casts) && DumpIs(E, out, casts, at) && |tables| == |E.keys|
    requires forall i :: 0 <= i < |tables| ==> Stores(E, i, tables[i], casts)
    ensures Backed(E.W, E.layout, E.authPub, tables, out) && DistinctRids(out) && InOrder(out)
  {
    hide World.Valid, GoodCast, BoardAccepts, EntryBacked, RowIs;
    forall m, n | 0 <= m < n < |out| ensures out[m].rid != out[n].rid {
      assert IsRecord(E, out[m], casts[at[m]]) && IsRecord(E, out[n], casts[at[n]]);
      RidsDiffer(E, casts, at[m], at[n]);
    }
    forall m | 0 <= m < |out| ensures |out[m].data.zs| == |tables| {
      CastEntries(E, out[m], casts[at[m]]);
    }
    forall s | IsSpot(out, s)
      ensures At(out, s).idx == s.p && EntryBacked(E.W, E.layout, E.authPub, tables, KeyAt(out, s), At(out, s))
    {
      CastEntries(E, out[s.m], casts[at[s.m]]);
      CastBacked(E, tables, casts, at[s.m], s.p);
    }
  }

  lemma RidsDiffer<P(!new)>(E: Setting<P>, casts: seq<Cast<P>>, a: nat, b: nat)
    requires E.W.G.order > 0 && GoodCasts(E, casts) && a < |casts| && b < |casts|
    ensures casts[a].link.rid == casts[b].link.rid ==> a == b
  {
    hide GoodCast;
  }

  lemma CastEntries<P(!new)>(E: Setting<P>, r: Rec<P>, c: Cast<P>)
    requires E.W.G.order > 0 && IsRecord(E, r, c)
    ensures |c.commits| == |E.keys| == |c.times| == |r.data.zs| && r.rid == c.link.rid
    ensures forall p :: 0 <= p < |r.data.zs| ==> r.data.zs[p] == VoteOf(E, c).zs[p] && r.data.zs[p].idx == p
  {
    hide HonestBallot, LinkOk, BoardAccepts;
  }

  lemma CastBacked<P(!new)>(E: Setting<P>, tables: seq<seq<Row>>, casts: seq<Cast<P>>, b: nat, i: nat)
    requires E.Valid() && GoodCasts(E, casts) && b < |casts| && i < |tables| == |E.keys|
    requires Stores(E, i, tables[i], casts) && |casts[b].commits| == |E.keys| == |casts[b].times|
    ensures var z := VoteOf(E, casts[b]).zs[i];
      EntryBacked(E.W, E.layout, E.authPub, tables, (casts[b].link.rid, z.sign), z)
  {
    hide World.Valid, HonestBallot, LinkOk, TellerAccepts, CommitStr, AllSharesOf;
    var c, rows := casts[b], tables[i];
    var z := VoteOf(E, c).zs[i];
    HonestAccepted(E, c, i);
    assert RowIs(E, i, rows[b], c);
    var key := (c.link.rid, z.sign);
    assert HasKey(rows, key);
    var a := RowOf(rows, key);
    assert RowIs(E, i, rows[a], casts[a]);
    RidsDiffer(E, casts, a, b);
    assert SignedFor(E.W, E.layout, E.authPub, rows, key, z, TellerVote(c.link, c.commits[i]));
  }
}

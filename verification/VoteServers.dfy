/** The vote checks of a teller (src/teller/saveVote.js) and of the bulletin board (src/esp/saveVote.js), the latter
    repeated by the workers of src/common/offlineVerify.js. */
module VoteServers {
  import opened Wrappers
  import opened Groups
  import opened Proof01
  import opened Ballots

  // ----- Teller -----

  /** What a teller keeps of a vote: the shares, without the commitments. */
  datatype Share = Share(cid: int, x: nat, y: nat)
  datatype PosShares = PosShares(pid: int, values: seq<Share>)
  datatype TellerReply = TellerReply(data: seq<PosShares>, sign: string)

  predicate CellOpens<P(!new,==)>(W: World<P>, c: Cell) {
    W.dec(c.z) == W.G.Com(c.x, c.y)
  }

  predicate RowOk<P(!new,==)>(W: World<P>, pos: Position, row: PosCells) {
    RowFits(row, pos) && forall k :: 0 <= k < |row.values| ==> CellOpens(W, row.values[k])
  }

  predicate TellerAccepts<P(!new,==)>(W: World<P>, layout: seq<Position>, authPub: string, v: TellerVote) {
    && LinkOk(W, v.link, authPub)
    && |v.commits| == |layout|
    && forall j :: 0 <= j < |layout| ==> RowOk(W, layout[j], v.commits[j])
  }

  ghost predicate SharesOf(d: PosShares, row: PosCells) {
    && d.pid == row.pid && |d.values| == |row.values|
    && forall k :: 0 <= k < |row.values| ==> d.values[k] == Share(row.values[k].cid, row.values[k].x, row.values[k].y)
  }

  /** str followed by the first k candidate ids and commitments the teller received. */
  function ReceivedCellsStr<P(!new)>(W: World<P>, str: string, values: seq<Cell>, k: nat): string
    requires k <= |values|
  {
    if k == 0 then str else
      W.cat(W.cat(ReceivedCellsStr(W, str, values, k - 1), W.show(values[k - 1].cid)), values[k - 1].z)
  }

  function ReceivedStr<P(!new)>(W: World<P>, str: string, commits: seq<PosCells>, j: nat): string
    requires j <= |commits|
  {
    if j == 0 then str else
      ReceivedCellsStr(W, W.cat(ReceivedStr(W, str, commits, j - 1), W.show(commits[j - 1].pid)),
                       commits[j - 1].values, |commits[j - 1].values|)
  }

  lemma {:induction false} SameCellsStr<P(!new)>(W: World<P>, str: string, values: seq<Cell>, k: nat)
    requires k <= |values|
    ensures ReceivedCellsStr(W, str, values, k) == CellsStr(W, str, StripCells(values), k)
  {
    if k > 0 {
      SameCellsStr(W, str, values, k - 1);
    }
  }

  /** The teller signs the very text the board rebuilds from the stripped commitments. */
  lemma {:induction false} SameStr<P(!new)>(W: World<P>, str: string, commits: seq<PosCells>, j: nat)
    requires j <= |commits|
    ensures ReceivedStr(W, str, commits, j) == ZStr(W, str, Strip(commits), j)
  {
    if j > 0 {
      SameStr(W, str, commits, j - 1);
      SameCellsStr(W, W.cat(ReceivedStr(W, str, commits, j - 1), W.show(commits[j - 1].pid)),
                   commits[j - 1].values, |commits[j - 1].values|);
    }
  }

  /** The inner loop: candidate by candidate; str grows by every id and every commitment text. */
  method CheckRow<P(!new,==)>(W: World<P>, pos: Position, row: PosCells, start: string)
    returns (ok: bool, str: string, shares: PosShares)
    ensures ok <==> RowOk(W, pos, row)
    ensures ok ==>
      str == ReceivedCellsStr(W, W.cat(start, W.show(row.pid)), row.values, |row.values|) && SharesOf(shares, row)
  {
    str, shares := W.cat(start, W.show(row.pid)), PosShares(row.pid, []);
    if row.pid != pos.pid || |row.values| != |pos.cand| {
      return false, str, shares;
    }
    var values: seq<Share> := [];
    for k := 0 to |row.values|
      invariant |values| == k
      invariant forall m :: 0 <= m < k ==> row.values[m].cid == pos.cand[m] && CellOpens(W, row.values[m])
      invariant forall m :: 0 <= m < k ==> values[m] == Share(row.values[m].cid, row.values[m].x, row.values[m].y)
      invariant str == ReceivedCellsStr(W, W.cat(start, W.show(row.pid)), row.values, k)
    {
      var cell := row.values[k];
      if cell.cid != pos.cand[k] || !CellOpens(W, cell) {
        return false, str, shares;
      }
      str := W.cat(W.cat(str, W.show(cell.cid)), cell.z);
      values := values + [Share(cell.cid, cell.x, cell.y)];
    }
    return true, str, PosShares(row.pid, values);
  }

  ghost predicate AllSharesOf(data: seq<PosShares>, commits: seq<PosCells>) {
    |data| == |commits| && forall j :: 0 <= j < |commits| ==> SharesOf(data[j], commits[j])
  }

  ghost predicate RowsOk<P(!new)>(W: World<P>, layout: seq<Position>, commits: seq<PosCells>, n: nat)
    requires n <= |layout| && n <= |commits|
  {
    forall j :: 0 <= j < n ==> RowOk(W, layout[j], commits[j])
  }

  /** The outer loop: position by position. */
  method CheckRows<P(!new,==)>(W: World<P>, layout: seq<Position>, commits: seq<PosCells>, head: string)
    returns (ok: bool, str: string, data: seq<PosShares>)
    requires |commits| == |layout|
    ensures ok <==> RowsOk(W, layout, commits, |layout|)
    ensures ok ==> str == ReceivedStr(W, head, commits, |commits|) && AllSharesOf(data, commits)
  {
    hide ReceivedCellsStr, RowOk;
    ok, str, data := true, head, [];
    var j := 0;
    while j < |commits| && ok
      invariant 0 <= j <= |commits|
      invariant ok ==> |data| == j && RowsOk(W, layout, commits, j)
      invariant ok ==> str == ReceivedStr(W, head, commits, j)
      invariant ok ==> forall m :: 0 <= m < j ==> SharesOf(data[m], commits[m])
      invariant !ok ==> !RowsOk(W, layout, commits, |layout|)
    {
      var shares;
      ok, str, shares := CheckRow(W, layout[j], commits[j], str);
      data := data + [shares];
      j := j + 1;
    }
  }

  /** Checks the link, the layout and every share against its commitment, then signs the commitments. */
  method TellerVerify<P(!new,==)>(W: World<P>, layout: seq<Position>, authPub: string, key: string, v: TellerVote,
                                  time: int)
    returns (r: Option<TellerReply>)
    ensures r.Some? <==> TellerAccepts(W, layout, authPub, v)
    ensures r.Some? ==> r.value.sign == W.sign(key, CommitStr(W, v.link, Strip(v.commits), time))
    ensures r.Some? ==> AllSharesOf(r.value.data, v.commits)
  {
    if !LinkOk(W, v.link, authPub) || |v.commits| != |layout| {
      return None;
    }
    var ok, str, data := CheckRows(W, layout, v.commits, W.cat(ParamStr(W, v.link), v.link.linkSign));
    if !ok {
      return None;
    }
    SameStr(W, W.cat(ParamStr(W, v.link), v.link.linkSign), v.commits, |v.commits|);
    return Some(TellerReply(data, W.sign(key, W.cat(str, W.show(time)))));
  }

  // ----- Bulletin board, and the offline verifier's workers -----

  /** The running products of one position: one entry per candidate, the last one for the position itself. */
  ghost predicate Added<P(!new)>(W: World<P>, acc: seq<P>, acc': seq<P>, val: PosZ, n: nat)
    requires n <= |val.values| && n <= |acc|
  {
    && |acc'| == |acc|
    && (forall k :: 0 <= k < n ==> acc'[k] == W.G.add(acc[k], W.dec(val.values[k].z)))
    && (forall k :: n <= k < |acc| ==> acc'[k] == acc[k])
  }

  method AddCells<P(!new)>(W: World<P>, pos: Position, val: PosZ, acc: seq<P>, start: string)
    returns (ok: bool, acc': seq<P>, str: string)
    requires |acc| == |pos.cand| + 1
    ensures ok <==> ZRowFits(val, pos)
    ensures ok ==> Added(W, acc, acc', val, |pos.cand|)
    ensures ok ==> str == CellsStr(W, W.cat(start, W.show(val.pid)), val.values, |val.values|)
  {
    acc', str := acc, W.cat(start, W.show(val.pid));
    if val.pid != pos.pid || |val.values| != |pos.cand| {
      return false, acc', str;
    }
    for k := 0 to |val.values|
      invariant Added(W, acc, acc', val, k)
      invariant forall m :: 0 <= m < k ==> val.values[m].cid == pos.cand[m]
      invariant str == CellsStr(W, W.cat(start, W.show(val.pid)), val.values, k)
    {
      var cell := val.values[k];
      if cell.cid != pos.cand[k] {
        return false, acc', str;
      }
      str := W.cat(str, W.show(cell.cid));
      acc' := acc'[k := W.G.add(acc'[k], W.dec(cell.z))];
      str := W.cat(str, cell.z);
    }
    return true, acc', str;
  }

  ghost predicate AccFits<T>(acc: seq<seq<T>>, layout: seq<Position>) {
    |acc| == |layout| && forall j :: 0 <= j < |layout| ==> |acc[j]| == |layout[j].cand| + 1
  }

  ghost predicate AddedAll<P(!new)>(W: World<P>, layout: seq<Position>, acc: seq<seq<P>>, acc': seq<seq<P>>,
                                    val: seq<PosZ>)
    requires ZFits(val, layout) && AccFits(acc, layout)
  {
    AccFits(acc', layout) && forall j :: 0 <= j < |layout| ==>
      assert ZRowFits(val[j], layout[j]); Added(W, acc[j], acc'[j], val[j], |layout[j].cand|)
  }

  /** One teller's commitments: position by position into the running products, and the text it signed. */
  method AddPositions<P(!new)>(W: World<P>, layout: seq<Position>, val: seq<PosZ>, acc: seq<seq<P>>, head: string)
    returns (ok: bool, acc': seq<seq<P>>, str: string)
    requires AccFits(acc, layout) && |val| == |layout|
    ensures ok <==> ZFits(val, layout)
    ensures ok ==> AddedAll(W, layout, acc, acc', val) && str == ZStr(W, head, val, |val|)
  {
    hide CellsStr;
    ok, acc', str := true, acc, head;
    var j := 0;
    while j < |val| && ok
      invariant 0 <= j <= |val| && AccFits(acc', layout)
      invariant ok ==> str == ZStr(W, head, val, j)
      invariant ok ==>
        forall m :: 0 <= m < j ==> ZRowFits(val[m], layout[m]) && Added(W, acc[m], acc'[m], val[m], |layout[m].cand|)
      invariant ok ==> forall m :: j <= m < |val| ==> acc'[m] == acc[m]
      invariant !ok ==> !ZFits(val, layout)
    {
      var row;
      ok, row, str := AddCells(W, layout[j], val[j], acc'[j], str);
      if ok {
        acc' := acc'[j := row];
      }
      j := j + 1;
    }
  }

  method AddTeller<P(!new)>(W: World<P>, layout: seq<Position>, tellerKeys: seq<string>, l: Link, t: TellerZ,
                            acc: seq<seq<P>>)
    returns (ok: bool, acc': seq<seq<P>>)
    requires AccFits(acc, layout)
    ensures ok <==> TellerPartOk(W, layout, tellerKeys, l, t)
    ensures ok ==> AddedAll(W, layout, acc, acc', t.val)
  {
    acc' := acc;
    if t.idx < 0 || t.idx >= |tellerKeys| || |t.val| != |layout| {
      return false, acc';
    }
    var str;
    ok, acc', str := AddPositions(W, layout, t.val, acc, W.cat(ParamStr(W, l), l.linkSign));
    if ok {
      ok := W.verify(W.cat(str, W.show(t.time)), t.sign, tellerKeys[t.idx]);
    }
  }

  /** The entry a product list starts from, and what it holds after some tellers. */
  ghost predicate AccHolds<P(!new)>(W: World<P>, layout: seq<Position>, zs: seq<TellerZ>, acc: seq<seq<P>>)
    requires AllFit(zs, layout)
  {
    && AccFits(acc, layout)
    && forall j :: 0 <= j < |layout| ==>
      && (forall k :: 0 <= k < |layout[j].cand| ==> acc[j][k] == ZSum(W, layout, zs, j, k))
      && acc[j][|layout[j].cand|] == W.G.zero
  }

  lemma AccStep<P(!new)>(W: World<P>, layout: seq<Position>, zs: seq<TellerZ>, t: TellerZ, acc: seq<seq<P>>,
                         acc': seq<seq<P>>)
    requires AllFit(zs, layout) && ZFits(t.val, layout) && AccHolds(W, layout, zs, acc)
    requires AddedAll(W, layout, acc, acc', t.val)
    ensures AllFit(zs + [t], layout) && AccHolds(W, layout, zs + [t], acc')
  {
    var all := zs + [t];
    assert AllFit(all, layout);
    forall j | 0 <= j < |layout|
      ensures acc'[j][|layout[j].cand|] == W.G.zero
      ensures forall k :: 0 <= k < |layout[j].cand| ==> acc'[j][k] == ZSum(W, layout, all, j, k)
    {
      assert ZRowFits(t.val[j], layout[j]);
      assert Added(W, acc[j], acc'[j], t.val[j], |layout[j].cand|);
      forall k | 0 <= k < |layout[j].cand| ensures acc'[j][k] == ZSum(W, layout, all, j, k) {
        assert ZColumn(W, all, j, k) == ZColumn(W, zs, j, k) + [W.dec(t.val[j].values[k].z)];
        SumAppend(W.G, ZColumn(W, zs, j, k), W.dec(t.val[j].values[k].z));
      }
    }
  }

  ghost predicate PartsOk<P(!new)>(W: World<P>, layout: seq<Position>, tellerKeys: seq<string>, l: Link,
                                   zs: seq<TellerZ>) {
    forall i :: 0 <= i < |zs| ==> TellerPartOk(W, layout, tellerKeys, l, zs[i])
  }

  lemma PartsFit<P(!new)>(W: World<P>, layout: seq<Position>, tellerKeys: seq<string>, l: Link, zs: seq<TellerZ>)
    requires PartsOk(W, layout, tellerKeys, l, zs)
    ensures AllFit(zs, layout)
  {
    forall i | 0 <= i < |zs| ensures ZFits(zs[i].val, layout) {
      assert TellerPartOk(W, layout, tellerKeys, l, zs[i]);
    }
  }

  /** All tellers' commitments. */
  method AddTellers<P(!new)>(W: World<P>, layout: seq<Position>, tellerKeys: seq<string>, l: Link, zs: seq<TellerZ>)
    returns (ok: bool, acc: seq<seq<P>>)
    ensures ok <==> PartsOk(W, layout, tellerKeys, l, zs)
    ensures ok ==> AllFit(zs, layout) && AccHolds(W, layout, zs, acc)
  {
    hide TellerPartOk, AddedAll;
    acc := seq(|layout|, j requires 0 <= j < |layout| => seq(|layout[j].cand| + 1, k => W.G.zero));
    ok := true;
    var i := 0;
    while i < |zs| && ok
      invariant 0 <= i <= |zs|
      invariant ok ==> PartsOk(W, layout, tellerKeys, l, zs[..i])
      invariant ok ==> AllFit(zs[..i], layout) && AccHolds(W, layout, zs[..i], acc)
      invariant !ok ==> !PartsOk(W, layout, tellerKeys, l, zs)
    {
      var acc';
      ok, acc' := AddTeller(W, layout, tellerKeys, l, zs[i], acc);
      if ok {
        TellerPartFits(W, layout, tellerKeys, l, zs[i]);
        AccStep(W, layout, zs[..i], zs[i], acc, acc');
        assert zs[..i + 1] == zs[..i] + [zs[i]];
        acc := acc';
      }
      i := i + 1;
    }
    if ok {
      assert zs[..|zs|] == zs;
    }
  }

  lemma TellerPartFits<P(!new)>(W: World<P>, layout: seq<Position>, tellerKeys: seq<string>, l: Link, t: TellerZ)
    requires TellerPartOk(W, layout, tellerKeys, l, t)
    ensures ZFits(t.val, layout)
  {
  }

  /** The proofs of one position. zs ends with the entry of the position itself, which collects each candidate's
      product right after that candidate's proof has been looked at. */
  method CheckProofs<P(!new,==)>(W: World<P>, proofs: seq<Proof<P>>, zs: seq<P>, ghost sums: seq<P>) returns (ok: bool)
    requires W.G.order > 0 && zs == sums + [W.G.zero]
    ensures ok <==> PositionProved(W, sums, proofs)
  {
    hide Accepts;
    var n := |zs| - 1;
    if |proofs| != n + 1 {
      return false;
    }
    var zs' := zs;
    ok := true;
    var j := 0;
    while j < |proofs| && ok
      invariant 0 <= j <= n + 1 && |zs'| == n + 1
      invariant forall m :: 0 <= m < n ==> zs'[m] == sums[m]
      invariant zs'[n] == W.G.Sum(sums[..if j <= n then j else n])
      invariant ok ==> forall m :: 0 <= m < j && m < n ==> Verifies(W.G, W.hash, proofs[m], sums[m])
      invariant ok && j == n + 1 ==> Verifies(W.G, W.hash, proofs[n], W.G.Sum(sums))
      invariant !ok ==> !PositionProved(W, sums, proofs)
    {
      assert sums[..n] == sums;
      var result := Verifies(W.G, W.hash, proofs[j], zs'[j]);
      if j < n {
        assert sums[..j + 1] == sums[..j] + [sums[j]];
        SumAppend(W.G, sums[..j], sums[j]);
        zs' := zs'[n := W.G.add(zs'[n], zs'[j])];
      }
      ok := result;
      j := j + 1;
    }
  }

  ghost predicate AllProved<P(!new)>(W: World<P>, layout: seq<Position>, zs: seq<TellerZ>,
                                     proofs: seq<seq<Proof<P>>>, n: nat)
    requires W.G.order > 0 && AllFit(zs, layout) && n <= |layout| && n <= |proofs|
  {
    forall j :: 0 <= j < n ==> PositionProved(W, PosZSums(W, layout, zs, j), proofs[j])
  }

  method CheckAllProofs<P(!new,==)>(W: World<P>, layout: seq<Position>, ghost zs: seq<TellerZ>,
                                    proofs: seq<seq<Proof<P>>>, acc: seq<seq<P>>)
    returns (ok: bool)
    requires W.G.order > 0 && AllFit(zs, layout) && AccHolds(W, layout, zs, acc) && |proofs| == |layout|
    ensures ok <==> AllProved(W, layout, zs, proofs, |layout|)
  {
    hide PositionProved;
    ok := true;
    var j := 0;
    while j < |proofs| && ok
      invariant 0 <= j <= |proofs|
      invariant ok ==> AllProved(W, layout, zs, proofs, j)
      invariant !ok ==> !AllProved(W, layout, zs, proofs, |layout|)
    {
      assert acc[j] == PosZSums(W, layout, zs, j) + [W.G.zero];
      ok := CheckProofs(W, proofs[j], acc[j], PosZSums(W, layout, zs, j));
      j := j + 1;
    }
  }

  /** The whole check of a vote, as the board makes it before it stores the vote and as a worker repeats it later. */
  method VerifyBallot<P(!new,==)>(W: World<P>, layout: seq<Position>, tellerKeys: seq<string>, authPub: string,
                                  v: Vote<P>)
    returns (ok: bool)
    requires W.G.order > 0
    ensures ok <==> BoardAccepts(W, layout, tellerKeys, authPub, v)
  {
    hide PositionProved, TellerPartOk, LinkOk, AccHolds;
    if !LinkOk(W, v.link, authPub) || |v.zs| != |tellerKeys| {
      return false;
    }
    var acc;
    ok, acc := AddTellers(W, layout, tellerKeys, v.link, v.zs);
    if !ok || |v.proofs| != |layout| {
      return false;
    }
    ok := CheckAllProofs(W, layout, v.zs, v.proofs, acc);
  }
}

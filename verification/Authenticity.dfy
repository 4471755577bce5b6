/** Who is behind what the servers keep. Signatures that only their owner can make leave nothing with the servers, and
    nothing behind a verifier's success, that the authority has not issued or a teller or the board has not signed. */
module Authenticity {
  import opened Proof01
  import opened Ballots
  import opened ShareGeneration
  import opened HonestVote
  import opened VoteServers
  import opened VoteTheorems
  import opened Tally
  import opened TellerTally
  import opened BoardTally
  import opened OfflineVerify
  import Paging

  // ----- Voters -----

  /** Whatever verifies as a link under the authority's key is one of the links the authority has issued. */
  ghost predicate OnlyIssued<P(!new)>(W: World<P>, authPub: string, issued: iset<Link>) {
    forall l :: W.verify(ParamStr(W, l), l.linkSign, authPub) ==> l in issued
  }

  ghost predicate Eligible(issued: iset<Link>, l: Link) {
    l in issued && l.regTime < l.linkTime
  }

  /** Every vote that a teller accepts, and every vote that the board accepts, is an eligible voter's. */
  lemma AcceptedEligible<P(!new)>(W: World<P>, layout: seq<Position>, tellerKeys: seq<string>, authPub: string,
                                  issued: iset<Link>)
    requires W.G.order > 0 && OnlyIssued(W, authPub, issued)
    ensures forall v: TellerVote :: TellerAccepts(W, layout, authPub, v) ==> Eligible(issued, v.link)
    ensures forall v: Vote<P> :: BoardAccepts(W, layout, tellerKeys, authPub, v) ==> Eligible(issued, v.link)
  {
    hide ParamStr, PositionProved, TellerPartOk, RowOk;
  }

  /** Every vote in a teller's table is an eligible voter's, in the teller's own election. */
  lemma RowsEligible<P(!new)>(db: TellerDb<P>, issued: iset<Link>)
    requires db.Valid() && OnlyIssued(db.W, db.authPub, issued)
    ensures forall a :: 0 <= a < |db.rows| ==> Eligible(issued, db.rows[a].link) && db.rows[a].link.eid == db.eid
  {
    hide OnlyIssued, TellerAccepts, Eligible;
    forall a | 0 <= a < |db.rows| ensures Eligible(issued, db.rows[a].link) && db.rows[a].link.eid == db.eid {
      assert db.RowStands(db.rows[a]);
      var commits :| db.Accepted(db.rows[a], commits);
      AcceptedEligible(db.W, db.layout, [], db.authPub, issued);
      assert TellerAccepts(db.W, db.layout, db.authPub, TellerVote(db.rows[a].link, commits));
    }
  }

  /** Every row stands for commitments that open to the shares kept, and under which the teller has put its name. */
  lemma RowsSigned<P(!new)>(db: TellerDb<P>, a: nat) returns (commits: seq<PosCells>)
    requires db.Valid() && a < |db.rows|
    ensures var r := db.rows[a];
      r.sign == db.W.sign(db.key, CommitStr(db.W, r.link, Strip(commits), r.voteTime))
    ensures |commits| == |db.layout| == |db.rows[a].data|
    ensures forall j :: 0 <= j < |commits| ==>
      |commits[j].values| == |db.rows[a].data[j].values| == |db.layout[j].cand|
    ensures forall j, k :: 0 <= j < |commits| && 0 <= k < |db.layout[j].cand| ==>
      var c, s := commits[j].values[k], db.rows[a].data[j].values[k];
      c.cid == s.cid == db.layout[j].cand[k] && db.W.dec(c.z) == db.W.G.Com(s.x, s.y)
  {
    hide LinkOk, CommitStr, World.Valid;
    assert db.RowStands(db.rows[a]);
    commits :| db.Accepted(db.rows[a], commits);
    forall j | 0 <= j < |commits| ensures RowOk(db.W, db.layout[j], commits[j]) {
    }
    forall j | 0 <= j < |commits| ensures SharesOf(db.rows[a].data[j], commits[j]) {
    }
  }

  /** A stored total is the teller's own, and no vote with a receipt is missing from it. */
  lemma TotalComplete<P(!new)>(db: TellerDb<P>)
    requires db.Valid() && db.count.Some?
    ensures db.state == 3 && forall a :: 0 <= a < |db.rows| && db.rows[a].receipt.Some? ==> db.rows[a].isSum
    ensures var s := db.count.value; s.sign == db.W.sign(db.key, CountSigned(db.W, db.eid, s.count, s.time))
  {
  }

  /** Behind a verifier's success every line is an eligible voter's in the election verified, whatever id it gives. */
  lemma LinesEligible<P(!new)>(m: Master<P>, issued: iset<Link>)
    requires m.Valid() && m.success && OnlyIssued(m.W, m.authPub, issued)
    ensures forall l :: 0 <= l < |m.file| ==>
      m.file[l].Parsed? && Eligible(issued, m.file[l].vote.link.(eid := m.eid))
  {
    hide Master.Valid, ParamStr;
    m.SuccessIsEligible();
  }

  /** A link that the authority has signed serves: with it every vote of the client is accepted by all tellers, and by
      the board exactly if its choices make sense, short of a degenerate challenge. */
  lemma IssuedLinkServes<P(!new)>(W: World<P>, authKey: string, l: Link, pos: seq<Choice>,
                                  commits: seq<seq<PosCells>>, proofs: seq<seq<Proof<P>>>, keys: seq<string>,
                                  times: seq<int>)
    requires W.Valid() && HonestBallot(W, pos, commits, proofs) && |commits| == |keys| == |times|
    requires forall j :: 0 <= j < |pos| ==> Distinct(pos[j].cand)
    requires l.linkSign == W.sign(authKey, ParamStr(W, l)) && l.regTime < l.linkTime
    ensures forall i :: 0 <= i < |commits| ==>
      TellerAccepts(W, LayoutOf(pos), W.pub(authKey), TellerVote(l, commits[i]))
    ensures forall j :: 0 <= j < |pos| ==> |proofs[j]| == |pos[j].cand| + 1
    ensures BoardAccepts(W, LayoutOf(pos), Pubs(W, keys), W.pub(authKey), Sent(W, l, commits, proofs, keys, times))
      <==> forall j :: 0 <= j < |pos| ==> ChoiceOk(pos[j]) || Degenerate(W, pos[j], proofs[j])
  {
    hide ParamStr, TellerAccepts, BoardAccepts, Degenerate, HonestBallot;
    assert W.Signs(authKey, ParamStr(W, l));
    BallotCompleteness(W, pos, l, W.pub(authKey), commits, proofs, keys, times);
  }

  // ----- The board while the election is open -----

  /** The board's handler of votes, over its table of ballots. */
  class BallotBox<P(!new,==)> {
    const W: World<P>
    const eid: int
    const layout: seq<Position>
    const tellerKeys: seq<string>
    const authPub: string
    const key: string
    const table: Paging.BallotTable<Vote<P>>

    ghost predicate RowStands(r: Paging.Rec<Vote<P>>)
      requires W.G.order > 0
    {
      && r.rid == r.data.link.rid && r.data.link.eid == eid
      && BoardAccepts(W, layout, tellerKeys, authPub, r.data)
    }

    ghost predicate Valid()
      reads this, table
    {
      W.Valid() && table.Valid() && forall m :: 0 <= m < |table.rows| ==> RowStands(table.rows[m])
    }

    constructor (W: World<P>, eid: int, layout: seq<Position>, tellerKeys: seq<string>, authPub: string, key: string,
                 table: Paging.BallotTable<Vote<P>>)
      requires W.Valid() && table.Valid() && table.rows == []
      ensures Valid() && this.W == W && this.eid == eid && this.layout == layout && this.tellerKeys == tellerKeys
      ensures this.authPub == authPub && this.key == key && this.table == table
    {
      this.W, this.eid, this.layout, this.tellerKeys := W, eid, layout, tellerKeys;
      this.authPub, this.key, this.table := authPub, key, table;
    }

    /** A vote is checked under the id of the election it was sent to, inserted unless there is one of this voter, and
        answered with a signed receipt. */
    method SaveVote(v: Vote<P>, time: int) returns (code: int, sign: string)
      requires Valid()
      modifies table`rows
      ensures Valid()
      ensures code == -4 <==> table.state != 2
      ensures code == -2 <==>
        table.state == 2 && !BoardAccepts(W, layout, tellerKeys, authPub, v.(link := v.link.(eid := eid)))
      ensures code in {0, -2, -4, -5}
      ensures code == -5 ==> exists m :: 0 <= m < |table.rows| && table.rows[m].rid == v.link.rid
      ensures code == 0 ==> forall m :: 0 <= m < |old(table.rows)| ==> old(table.rows)[m].rid != v.link.rid
      ensures table.rows == if code == 0
        then old(table.rows) + [Paging.Rec(v.link.rid, v.(link := v.link.(eid := eid)))] else old(table.rows)
      ensures code == 0 ==> sign == W.sign(key, ReceiptStr(W, v.link.(eid := eid), time))
    {
      hide BoardAccepts, World.Valid;
      assert W.G.order > 0 by {
        OrderPositive(W);
      }
      sign := "";
      if table.state != 2 {
        return -4, sign;
      }
      var vote := v.(link := v.link.(eid := eid));
      var ok := VerifyBallot(W, layout, tellerKeys, authPub, vote);
      if !ok {
        return -2, sign;
      }
      code := table.SaveVote(vote.link.rid, vote);
      if code == 0 {
        var str := W.cat(ParamStr(W, vote.link), vote.link.linkSign);
        sign := W.sign(key, W.cat(str, W.show(time)));
      }
    }
  }

  /** Whatever has been sent to the board: its ballots are eligible voters', in its own election, one for each rid. */
  lemma BallotsEligible<P(!new)>(box: BallotBox<P>, issued: iset<Link>)
    requires box.Valid() && OnlyIssued(box.W, box.authPub, issued)
    ensures forall m :: 0 <= m < |box.table.rows| ==>
      var r := box.table.rows[m]; Eligible(issued,
                                           r.data.link) && r.data.link.eid == box.eid && r.rid == r.data.link.rid
    ensures forall m, n :: 0 <= m < n < |box.table.rows| ==>
      box.table.rows[m].data.link.rid != box.table.rows[n].data.link.rid
  {
    hide OnlyIssued, BoardAccepts, Eligible;
    AcceptedEligible(box.W, box.layout, box.tellerKeys, box.authPub, issued);
    forall m | 0 <= m < |box.table.rows|
      ensures var r := box.table.rows[m];
        Eligible(issued, r.data.link) && r.data.link.eid == box.eid && r.rid == r.data.link.rid
    {
      assert box.RowStands(box.table.rows[m]);
    }
  }

  // ----- Tellers, and the board's receipts -----

  /** Whatever verifies under this key is one of the texts its owner has signed. */
  ghost predicate OnlySigned<P(!new)>(W: World<P>, pub: string, signed: iset<string>) {
    forall text, sign :: W.verify(text, sign, pub) ==> text in signed
  }

  ghost predicate EachSigned<P(!new)>(W: World<P>, pubs: seq<string>, signed: seq<iset<string>>) {
    |signed| == |pubs| && forall t :: 0 <= t < |pubs| ==> OnlySigned(W, pubs[t], signed[t])
  }

  /** An accepted vote has an entry for each teller's place. Each names a teller, lists the candidates of the election
      in order, and has been signed by the teller it names over this voter's link. */
  lemma EntriesSigned<P(!new)>(W: World<P>, layout: seq<Position>, tellerKeys: seq<string>, authPub: string, v: Vote<P>,
                               signed: seq<iset<string>>)
    requires W.G.order > 0 && BoardAccepts(W, layout, tellerKeys, authPub, v) && EachSigned(W, tellerKeys, signed)
    ensures |v.zs| == |tellerKeys|
    ensures forall i :: 0 <= i < |v.zs| ==> var z := v.zs[i];
      0 <= z.idx < |tellerKeys| && CommitStr(W, v.link, z.val, z.time) in signed[z.idx] && |z.val| == |layout|
    ensures forall i, j :: 0 <= i < |v.zs| && 0 <= j < |layout| ==>
      v.zs[i].val[j].pid == layout[j].pid && |v.zs[i].val[j].values| == |layout[j].cand|
    ensures forall i, j, k :: 0 <= i < |v.zs| && 0 <= j < |layout| && 0 <= k < |layout[j].cand| ==>
      v.zs[i].val[j].values[k].cid == layout[j].cand[k]
  {
    hide CommitStr, LinkOk, PositionProved;
    forall i | 0 <= i < |v.zs|
      ensures var z := v.zs[i];
        && 0 <= z.idx < |tellerKeys| && CommitStr(W, v.link, z.val, z.time) in signed[z.idx] && |z.val| == |layout|
        && forall j :: 0 <= j < |layout| ==> ZRowFits(z.val[j], layout[j])
    {
      assert TellerPartOk(W, layout, tellerKeys, v.link, v.zs[i]);
      assert OnlySigned(W, tellerKeys[v.zs[i].idx], signed[v.zs[i].idx]);
    }
  }

  /** Every total at the board has the shape of the election, and has been signed by its own teller. */
  lemma TotalsSigned<P(!new)>(board: Board<P>, signed: seq<iset<string>>)
    requires board.Valid() && EachSigned(board.W, board.tellerKeys, signed)
    ensures forall i :: 0 <= i < |board.counts| && board.counts[i].Some? ==> var s := board.counts[i].value;
      CountSigned(board.W, board.eid, s.count, s.time) in signed[i] && |s.count| == |board.layout|
    ensures forall i, j :: 0 <= i < |board.counts| && board.counts[i].Some? && 0 <= j < |board.layout| ==>
      var row := board.counts[i].value.count[j];
      row.pid == board.layout[j].pid && |row.values| == |board.layout[j].cand|
    ensures forall i, j, k :: 0 <= i < |board.counts| && board.counts[i].Some? && 0 <= j < |board.layout|
                              && 0 <= k < |board.layout[j].cand| ==>
      board.counts[i].value.count[j].values[k].cid == board.layout[j].cand[k]
  {
    hide CountSigned, SummationIs;
    forall i | 0 <= i < |board.counts| && board.counts[i].Some?
      ensures var s := board.counts[i].value;
        && CountSigned(board.W, board.eid, s.count, s.time) in signed[i] && |s.count| == |board.layout|
        && forall j :: 0 <= j < |board.layout| ==> CountRowFits(s.count[j], board.layout[j])
    {
      assert board.CountStands(i, board.counts[i].value);
      assert OnlySigned(board.W, board.tellerKeys[i], signed[i]);
    }
  }

  /** Every receipt a teller keeps has been signed by the board for that vote, later than it was cast. */
  lemma ReceiptsSigned<P(!new)>(db: TellerDb<P>, signed: iset<string>)
    requires db.Valid() && OnlySigned(db.W, db.espPub, signed)
    ensures forall a :: 0 <= a < |db.rows| && db.rows[a].receipt.Some? ==> var r := db.rows[a];
      r.receipt.value.0 > r.voteTime && ReceiptStr(db.W, r.link, r.receipt.value.0) in signed
  {
    hide ReceiptStr, TellerAccepts;
    forall a | 0 <= a < |db.rows| && db.rows[a].receipt.Some?
      ensures var r := db.rows[a];
        r.receipt.value.0 > r.voteTime && ReceiptStr(db.W, r.link, r.receipt.value.0) in signed
    {
      assert db.RowStands(db.rows[a]);
    }
  }

  /** The board's receipt for a vote is taken by every teller that keeps this voter's part of it, if it is later than
      the part and the first. */
  method ReceiptArrives<P(!new,==)>(box: BallotBox<P>, v: Vote<P>, time: int, db: TellerDb<P>, a: nat)
    returns (code: int, reply: int)
    requires box.Valid() && db.Valid() && db.W == box.W && db.espPub == box.W.pub(box.key) && db.state == 2
    requires a < |db.rows| && db.rows[a].link == v.link.(eid := box.eid) && db.rows[a].receipt.None?
    requires time > db.rows[a].voteTime
    modifies box.table`rows, db`rows
    ensures code == 0 ==> reply == 0
  {
    hide BoardAccepts, ReceiptStr, TellerDb.RowsStand, Keyed, RowsFit;
    var sign;
    code, sign := box.SaveVote(v, time);
    reply := -1;
    if code == 0 {
      var row := db.rows[a];
      assert box.W.Signs(box.key, ReceiptStr(box.W, row.link, time));
      assert db.ReceiptDue(db.rows, row.Id(), time, sign);
      reply := db.SaveReceipt(row.link.rid, row.sign, time, sign);
    }
  }
}

/** The wire format of a vote and the world its servers live in: encodings, the hash, signatures. */
module Ballots {
  import opened Groups
  import opened Proof01

  /** Encodings, hash, signatures and the joining of texts are functions of which only the stated laws are known. */
  datatype World<!P(!new)> = World(
    G: Group<P>,
    enc: P -> string,
    dec: string -> P,
    hash: Hash<P>,
    show: int -> string,
    cat: (string, string) -> string,
    sign: (string, string) -> string,
    verify: (string, string, string) -> bool,
    pub: string -> string)
  {
    ghost predicate RoundTrip(p: P) { dec(enc(p)) == p }
    ghost predicate Signs(key: string, text: string) { verify(text, sign(key, text), pub(key)) }

    ghost predicate Valid() {
      && G.PrimeOrder()
      && (forall p :: RoundTrip(p))
      && (forall key, text :: Signs(key, text))
    }
  }

  lemma OrderPositive<P(!new)>(W: World<P>)
    requires W.Valid()
    ensures W.G.order > 0
  {
  }

  /** One position of the ballot: its id and its candidates in ballot order. */
  datatype Position = Position(pid: int, cand: seq<int>)

  ghost predicate Distinct(s: seq<int>) {
    forall k, m :: 0 <= k < m < |s| ==> s[k] != s[m]
  }

  /** What a teller receives for one candidate: a share, its blinding, and the commitment's text. */
  datatype Cell = Cell(cid: int, x: nat, y: nat, z: string)
  datatype PosCells = PosCells(pid: int, values: seq<Cell>)

  /** What the bulletin board keeps of it. */
  datatype ZCell = ZCell(cid: int, z: string)
  datatype PosZ = PosZ(pid: int, values: seq<ZCell>)
  datatype TellerZ = TellerZ(idx: int, val: seq<PosZ>, sign: string, time: int)

  datatype Link = Link(eid: int, email: string, rid: string, regTime: int, linkTime: int, linkSign: string)
  datatype TellerVote = TellerVote(link: Link, commits: seq<PosCells>)
  datatype Vote<P> = Vote(link: Link, zs: seq<TellerZ>, proofs: seq<seq<Proof<P>>>)

  /** The client deletes x and y before it sends the commitments to the bulletin board. */
  function StripCells(values: seq<Cell>): (r: seq<ZCell>)
    ensures |r| == |values|
    ensures forall k :: 0 <= k < |r| ==> r[k] == ZCell(values[k].cid, values[k].z)
  {
    seq(|values|, k requires 0 <= k < |values| => ZCell(values[k].cid, values[k].z))
  }

  function Strip(commits: seq<PosCells>): (r: seq<PosZ>)
    ensures |r| == |commits|
    ensures forall j :: 0 <= j < |r| ==> r[j] == PosZ(commits[j].pid, StripCells(commits[j].values))
  {
    seq(|commits|, j requires 0 <= j < |commits| => PosZ(commits[j].pid, StripCells(commits[j].values)))
  }

  // ----- Shapes -----

  /** The cells list exactly the candidates, in order. */
  predicate ZRowFits(val: PosZ, pos: Position) {
    && val.pid == pos.pid
    && |val.values| == |pos.cand|
    && forall k :: 0 <= k < |pos.cand| ==> val.values[k].cid == pos.cand[k]
  }

  predicate ZFits(val: seq<PosZ>, layout: seq<Position>) {
    |val| == |layout| && forall j :: 0 <= j < |layout| ==> ZRowFits(val[j], layout[j])
  }

  predicate RowFits(row: PosCells, pos: Position) {
    && row.pid == pos.pid
    && |row.values| == |pos.cand|
    && forall k :: 0 <= k < |pos.cand| ==> row.values[k].cid == pos.cand[k]
  }

  predicate Fits(commits: seq<PosCells>, layout: seq<Position>) {
    |commits| == |layout| && forall j :: 0 <= j < |layout| ==> RowFits(commits[j], layout[j])
  }

  lemma StripFits(commits: seq<PosCells>, layout: seq<Position>)
    requires Fits(commits, layout)
    ensures ZFits(Strip(commits), layout)
  {
    forall j | 0 <= j < |layout| ensures ZRowFits(Strip(commits)[j], layout[j]) {
      assert RowFits(commits[j], layout[j]);
    }
  }

  // ----- Signed strings: fields one after the other, without separators -----

  function ParamStr<P(!new)>(W: World<P>, l: Link): string {
    W.cat(W.cat(W.cat(W.cat(W.show(l.eid), l.email), l.rid), W.show(l.regTime)), W.show(l.linkTime))
  }

  /** str followed by the first k candidate ids and commitments. */
  function CellsStr<P(!new)>(W: World<P>, str: string, values: seq<ZCell>, k: nat): string
    requires k <= |values|
  {
    if k == 0 then str else W.cat(W.cat(CellsStr(W, str, values, k - 1), W.show(values[k - 1].cid)), values[k - 1].z)
  }

  /** str followed by the first j positions. */
  function ZStr<P(!new)>(W: World<P>, str: string, val: seq<PosZ>, j: nat): string
    requires j <= |val|
  {
    if j == 0 then str else
      CellsStr(W, W.cat(ZStr(W, str, val, j - 1), W.show(val[j - 1].pid)), val[j - 1].values, |val[j - 1].values|)
  }

  /** The text a teller signs when it accepts commitments, and the board checks. */
  function CommitStr<P(!new)>(W: World<P>, l: Link, val: seq<PosZ>, time: int): string {
    W.cat(ZStr(W, W.cat(ParamStr(W, l), l.linkSign), val, |val|), W.show(time))
  }

  predicate LinkOk<P(!new)>(W: World<P>, l: Link, authPub: string) {
    l.regTime < l.linkTime && W.verify(ParamStr(W, l), l.linkSign, authPub)
  }

  // ----- What the board accepts -----

  /** Candidate k of position j in the commitments of every teller. */
  ghost function ZColumn<P(!new)>(W: World<P>, zs: seq<TellerZ>, j: nat, k: nat): (c: seq<P>)
    requires forall i :: 0 <= i < |zs| ==> j < |zs[i].val| && k < |zs[i].val[j].values|
    ensures |c| == |zs| && forall i :: 0 <= i < |zs| ==> c[i] == W.dec(zs[i].val[j].values[k].z)
  {
    seq(|zs|, i requires 0 <= i < |zs| => W.dec(zs[i].val[j].values[k].z))
  }

  ghost predicate AllFit(zs: seq<TellerZ>, layout: seq<Position>) {
    forall i :: 0 <= i < |zs| ==> ZFits(zs[i].val, layout)
  }

  /** The product of the tellers' commitments for candidate k of position j. */
  ghost function ZSum<P(!new)>(W: World<P>, layout: seq<Position>, zs: seq<TellerZ>, j: nat, k: nat): P
    requires AllFit(zs, layout) && j < |layout| && k < |layout[j].cand|
  {
    W.G.Sum(ZColumn(W, zs, j, k))
  }

  ghost function PosZSums<P(!new)>(W: World<P>, layout: seq<Position>, zs: seq<TellerZ>, j: nat): (s: seq<P>)
    requires AllFit(zs, layout) && j < |layout|
    ensures |s| == |layout[j].cand| && forall k :: 0 <= k < |s| ==> s[k] == ZSum(W, layout, zs, j, k)
  {
    seq(|layout[j].cand|, k requires 0 <= k < |layout[j].cand| => ZSum(W, layout, zs, j, k))
  }

  /** One teller's part of a vote: right index, right shape, signed by the teller it names. */
  ghost predicate TellerPartOk<P(!new)>(W: World<P>, layout: seq<Position>, tellerKeys: seq<string>, l: Link,
                                        t: TellerZ) {
    && 0 <= t.idx < |tellerKeys|
    && ZFits(t.val, layout)
    && W.verify(CommitStr(W, l, t.val, t.time), t.sign, tellerKeys[t.idx])
  }

  /** Every candidate's product opens to 0 or 1 by the proofs given, and so does their sum. */
  ghost predicate PositionProved<P(!new)>(W: World<P>, sums: seq<P>, proofs: seq<Proof<P>>)
    requires W.G.order > 0
  {
    && |proofs| == |sums| + 1
    && (forall k :: 0 <= k < |sums| ==> Verifies(W.G, W.hash, proofs[k], sums[k]))
    && Verifies(W.G, W.hash, proofs[|sums|], W.G.Sum(sums))
  }

  ghost predicate BoardAccepts<P(!new)>(W: World<P>, layout: seq<Position>, tellerKeys: seq<string>, authPub: string,
                                        v: Vote<P>)
    requires W.G.order > 0
  {
    && LinkOk(W, v.link, authPub)
    && |v.zs| == |tellerKeys|
    && (forall i :: 0 <= i < |v.zs| ==> TellerPartOk(W, layout, tellerKeys, v.link, v.zs[i]))
    && |v.proofs| == |layout|
    && (forall j :: 0 <= j < |layout| ==> PositionProved(W, PosZSums(W, layout, v.zs, j), v.proofs[j]))
  }
}

/** The record of an election as the servers pass it around, the copies they keep of it, and the texts they sign
    (src/common/util.js). */
module ElectionInfo {
  import opened Wrappers

  /** A signature is a token that carries its signer and the signed text: nobody else can make it. */
  datatype Token = Token(signer: string, text: string)

  /** How fields become text. Fields follow each other without separators. */
  datatype Texts = Texts(show: int -> string, mark: Token -> string, cat: (string, string) -> string)

  datatype Cand = Cand(eid: int, cid: int, name: string, createTime: int, updateTime: int)
  datatype Pos = Pos(eid: int, pid: int, name: string, createTime: int, updateTime: int)
  datatype Mapping = Mapping(eid: int, pid: int, cid: int)

  /** A row of the teller table; other stands for the columns that are not passed on. */
  datatype Teller = Teller(eid: int, protocol: string, hostname: string, port: int, tunnelPort: int, regTime: int,
                           pubKey: string, other: string)

  /** A JSON object that fills up as the election goes on. None is an absent field. */
  datatype Election = Election(
    id: int, name: string, state: int, tunnelPort: int, createTime: int,
    freezeTime: Option<int>, freezeSign: Option<Token>,
    cand: seq<Cand>, pos: seq<Pos>, posCandMapping: seq<Mapping>,
    voterCount: Option<int>, voterSign: Option<Token>, tellerSign: Option<Token>,
    openTime: Option<int>, openSign: Option<Token>,
    closeTime: Option<int>, closeSign: Option<Token>,
    teller: Option<seq<Teller>>)

  // ----- Copies -----

  /** What a teller stores when it registers an election. */
  function InfoCopy(e: Election): (r: Election)
  {
    e.(voterCount := None, voterSign := None, tellerSign := None, openTime := None, openSign := None,
       closeTime := None, closeSign := None, teller := None)
  }

  /** What a server stores when it opens one. */
  function OpenCopy(e: Election): (r: Election)
  {
    InfoCopy(e).(voterCount := e.voterCount, voterSign := e.voterSign, tellerSign := e.tellerSign,
                 openTime := e.openTime, openSign := e.openSign)
  }

  function TellerCopies(ts: seq<Teller>): (r: seq<Teller>)
    ensures |r| == |ts| && forall i :: 0 <= i < |r| ==> r[i] == ts[i].(other := "")
  {
    seq(|ts|, i requires 0 <= i < |ts| => ts[i].(other := ""))
  }

  method GetTellerInfo(data: seq<Teller>) returns (r: seq<Teller>)
    ensures r == TellerCopies(data)
  {
    r := [];
    for i := 0 to |data|
      invariant r == TellerCopies(data)[..i]
    {
      var t := data[i];
      r := r + [Teller(t.eid, t.protocol, t.hostname, t.port, t.tunnelPort, t.regTime, t.pubKey, "")];
    }
  }

  /** Copies field by field; what is not named is not kept. */
  method GetElectionInfo(data: Election) returns (r: Election)
    ensures r == InfoCopy(data)
  {
    var cands: seq<Cand> := [];
    for i := 0 to |data.cand|
      invariant cands == data.cand[..i]
    {
      var c := data.cand[i];
      cands := cands + [Cand(c.eid, c.cid, c.name, c.createTime, c.updateTime)];
    }
    var poss: seq<Pos> := [];
    for i := 0 to |data.pos|
      invariant poss == data.pos[..i]
    {
      var p := data.pos[i];
      poss := poss + [Pos(p.eid, p.pid, p.name, p.createTime, p.updateTime)];
    }
    var maps: seq<Mapping> := [];
    for i := 0 to |data.posCandMapping|
      invariant maps == data.posCandMapping[..i]
    {
      var m := data.posCandMapping[i];
      maps := maps + [Mapping(m.eid, m.pid, m.cid)];
    }
    r := Election(data.id, data.name, data.state, data.tunnelPort, data.createTime, data.freezeTime, data.freezeSign,
                  cands, poss, maps, None, None, None, None, None, None, None, None);
  }

  method GetElectionOpenInfo(data: Election) returns (r: Election)
    ensures r == OpenCopy(data)
  {
    var info := GetElectionInfo(data);
    r := info.(voterCount := data.voterCount, voterSign := data.voterSign, tellerSign := data.tellerSign,
               openTime := data.openTime, openSign := data.openSign);
  }

  // ----- Texts -----

  function ShowTime(T: Texts, t: Option<int>): string {
    if t.None? then "undefined" else T.show(t.value)
  }

  function ShowSign(T: Texts, t: Option<Token>): string {
    if t.None? then "undefined" else T.mark(t.value)
  }

  function CandText(T: Texts, c: Cand): string {
    T.cat(T.cat(T.cat(T.cat(T.show(c.eid), T.show(c.cid)), c.name), T.show(c.createTime)), T.show(c.updateTime))
  }

  function PosText(T: Texts, p: Pos): string {
    T.cat(T.cat(T.cat(T.cat(T.show(p.eid), T.show(p.pid)), p.name), T.show(p.createTime)), T.show(p.updateTime))
  }

  function MappingText(T: Texts, m: Mapping): string {
    T.cat(T.cat(T.show(m.eid), T.show(m.pid)), T.show(m.cid))
  }

  function TellerText(T: Texts, t: Teller): string {
    T.cat(T.cat(T.cat(T.cat(T.cat(T.cat(T.show(t.eid), t.protocol), t.hostname), T.show(t.port)),
                      T.show(t.tunnelPort)), T.show(t.regTime)), t.pubKey)
  }

  function CandsText(T: Texts, str: string, cs: seq<Cand>, n: nat): string
    requires n <= |cs|
  {
    if n == 0 then str else T.cat(CandsText(T, str, cs, n - 1), CandText(T, cs[n - 1]))
  }

  function PossText(T: Texts, str: string, ps: seq<Pos>, n: nat): string
    requires n <= |ps|
  {
    if n == 0 then str else T.cat(PossText(T, str, ps, n - 1), PosText(T, ps[n - 1]))
  }

  function MappingsText(T: Texts, str: string, ms: seq<Mapping>, n: nat): string
    requires n <= |ms|
  {
    if n == 0 then str else T.cat(MappingsText(T, str, ms, n - 1), MappingText(T, ms[n - 1]))
  }

  function TellersText(T: Texts, ts: seq<Teller>, n: nat): string
    requires n <= |ts|
  {
    if n == 0 then "" else T.cat(TellersText(T, ts, n - 1), TellerText(T, ts[n - 1]))
  }

  function HeadText(T: Texts, e: Election, state: int): string {
    T.cat(T.cat(T.cat(T.cat(T.cat(T.show(e.id), e.name), T.show(state)), T.show(e.tunnelPort)), T.show(e.createTime)),
          ShowTime(T, e.freezeTime))
  }

  /** The text of the frozen election; each phase signs it with its own state number in it. */
  function InfoText(T: Texts, e: Election, state: int): string {
    var cands := CandsText(T, HeadText(T, e, state), e.cand, |e.cand|);
    var poss := PossText(T, cands, e.pos, |e.pos|);
    MappingsText(T, poss, e.posCandMapping, |e.posCandMapping|)
  }

  function OpenFields(T: Texts, str: string, e: Election): string {
    T.cat(T.cat(T.cat(T.cat(str, ShowTime(T, e.voterCount)), ShowSign(T, e.voterSign)), ShowSign(T, e.tellerSign)),
          ShowTime(T, e.openTime))
  }

  function OpenText(T: Texts, e: Election): string {
    OpenFields(T, InfoText(T, e, 2), e)
  }

  function CloseText(T: Texts, e: Election): string {
    T.cat(OpenFields(T, InfoText(T, e, 3), e), ShowTime(T, e.closeTime))
  }

  function TellerListText(T: Texts, ts: seq<Teller>): string {
    TellersText(T, ts, |ts|)
  }

  method GetElectionInfoStr(T: Texts, data: Election, state: Option<int>) returns (res: string)
    ensures res == InfoText(T, data, if state.Some? then state.value else data.state)
  {
    hide CandText, PosText, MappingText, HeadText;
    res := HeadText(T, data, if state.None? then data.state else state.value);
    ghost var head := res;
    for i := 0 to |data.cand|
      invariant res == CandsText(T, head, data.cand, i)
    {
      res := T.cat(res, CandText(T, data.cand[i]));
    }
    ghost var cands := res;
    for i := 0 to |data.pos|
      invariant res == PossText(T, cands, data.pos, i)
    {
      res := T.cat(res, PosText(T, data.pos[i]));
    }
    ghost var poss := res;
    for i := 0 to |data.posCandMapping|
      invariant res == MappingsText(T, poss, data.posCandMapping, i)
    {
      res := T.cat(res, MappingText(T, data.posCandMapping[i]));
    }
  }

  method GetTellerInfoStr(T: Texts, data: seq<Teller>) returns (res: string)
    ensures res == TellerListText(T, data)
  {
    res := "";
    for i := 0 to |data|
      invariant res == TellersText(T, data, i)
    {
      res := T.cat(res, TellerText(T, data[i]));
    }
  }

  // ----- Copies keep what the texts read -----

  lemma CopiesKeepTexts(T: Texts, e: Election, state: int)
    ensures InfoText(T, InfoCopy(e), state) == InfoText(T, e, state)
    ensures OpenText(T, OpenCopy(e)) == OpenText(T, e)
    ensures CloseText(T, OpenCopy(e).(closeTime := e.closeTime)) == CloseText(T, e)
  {
    SameInfoText(T, InfoCopy(e), e, state);
    SameInfoText(T, OpenCopy(e), e, 2);
    SameInfoText(T, OpenCopy(e).(closeTime := e.closeTime), e, 3);
  }

  /** The fields that the frozen text reads, apart from the state. */
  ghost predicate SameFrozen(a: Election, b: Election) {
    && a.id == b.id && a.name == b.name && a.tunnelPort == b.tunnelPort && a.createTime == b.createTime
    && a.freezeTime == b.freezeTime && a.cand == b.cand && a.pos == b.pos && a.posCandMapping == b.posCandMapping
  }

  lemma SameInfoText(T: Texts, a: Election, b: Election, state: int)
    requires SameFrozen(a, b)
    ensures InfoText(T, a, state) == InfoText(T, b, state)
  {
  }

  lemma {:induction false} TellerCopiesKeepText(T: Texts, ts: seq<Teller>, n: nat)
    requires n <= |ts|
    ensures TellersText(T, TellerCopies(ts), n) == TellersText(T, ts, n)
  {
    if n > 0 {
      TellerCopiesKeepText(T, ts, n - 1);
    }
  }

  // ----- Format checks -----

  predicate CandFormat(e: Election, c: Cand)
    requires e.freezeTime.Some?
  {
    c.eid == e.id && c.createTime <= c.updateTime < e.freezeTime.value
  }

  predicate PosFormat(e: Election, p: Pos)
    requires e.freezeTime.Some?
  {
    p.eid == e.id && p.createTime <= p.updateTime < e.freezeTime.value
  }

  ghost predicate InfoFormat(e: Election) {
    && e.freezeTime.Some? && e.createTime < e.freezeTime.value && e.freezeSign.Some?
    && (forall i :: 0 <= i < |e.cand| ==> CandFormat(e, e.cand[i]))
    && (forall i :: 0 <= i < |e.pos| ==> PosFormat(e, e.pos[i]))
    && (forall i :: 0 <= i < |e.posCandMapping| ==> e.posCandMapping[i].eid == e.id)
  }

  ghost predicate OpenFormat(e: Election) {
    && InfoFormat(e)
    && e.voterCount.Some? && e.voterCount.value >= 0 && e.voterSign.Some? && e.tellerSign.Some?
    && e.openTime.Some? && e.openTime.value > e.freezeTime.value && e.openSign.Some?
  }

  method ValidateElectionInfoFormat(data: Election) returns (ok: bool)
    ensures ok <==> InfoFormat(data)
  {
    if data.freezeTime.None? || data.createTime >= data.freezeTime.value || data.freezeSign.None? {
      return false;
    }
    for i := 0 to |data.cand|
      invariant forall m :: 0 <= m < i ==> CandFormat(data, data.cand[m])
    {
      var c := data.cand[i];
      if c.eid != data.id || c.createTime > c.updateTime || c.updateTime >= data.freezeTime.value {
        return false;
      }
    }
    for i := 0 to |data.pos|
      invariant forall m :: 0 <= m < i ==> PosFormat(data, data.pos[m])
    {
      var p := data.pos[i];
      if p.eid != data.id || p.createTime > p.updateTime || p.updateTime >= data.freezeTime.value {
        return false;
      }
    }
    for i := 0 to |data.posCandMapping|
      invariant forall m :: 0 <= m < i ==> data.posCandMapping[m].eid == data.id
    {
      if data.posCandMapping[i].eid != data.id {
        return false;
      }
    }
    return true;
  }

  method ValidateElectionOpenInfoFormat(data: Election) returns (ok: bool)
    ensures ok <==> OpenFormat(data)
  {
    ok := ValidateElectionInfoFormat(data);
    ok := ok && data.voterCount.Some? && data.voterCount.value >= 0 && data.voterSign.Some? && data.tellerSign.Some?
      && data.openTime.Some? && data.openTime.value > data.freezeTime.value && data.openSign.Some?;
  }
}

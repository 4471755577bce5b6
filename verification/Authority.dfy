/** The authority's handlers for one election (src/auth: freezeElection.js, regVoter.js, freezeVoters.js,
    registerTeller.js, freezeTellers.js, openElection.js, closeElection.js). */
module Authority {
  import opened Wrappers
  import opened ElectionInfo

  /** The election's row, the rows of its tellers in the order of the query, and its registered voters. */
  datatype AuthRow = AuthRow(e: Election, isVoterSign: bool, isTellerSign: bool, tellers: seq<Teller>,
                             voters: set<string>)

  datatype Addr = Addr(hostname: string, port: int)

  function AddrOf(t: Teller): Addr {
    Addr(t.hostname, t.port)
  }

  predicate Known(tellers: seq<Teller>, addr: Addr) {
    exists i :: 0 <= i < |tellers| && AddrOf(tellers[i]) == addr
  }

  /** Host and port together are a teller's address. */
  lemma KnownByBoth(tellers: seq<Teller>, hostname: string, port: int)
    ensures Known(tellers, Addr(hostname, port)) <==>
      exists i :: 0 <= i < |tellers| && tellers[i].hostname == hostname && tellers[i].port == port
  {
  }

  // ----- What the handlers do to the row -----

  function Frozen(T: Texts, key: string, a: AuthRow, time: int): AuthRow {
    if a.e.state != 0 then a else
      var e := a.e.(freezeTime := Some(time));
      a.(e := e.(state := 1, freezeSign := Some(Token(key, InfoText(T, e, 1)))))
  }

  predicate VotersOpen(a: AuthRow) {
    a.e.state == 1 && !a.isVoterSign
  }

  predicate TellersOpen(a: AuthRow) {
    a.e.state == 1 && !a.isTellerSign
  }

  function VotersFrozen(a: AuthRow, sign: Token): AuthRow {
    if VotersOpen(a) then a.(isVoterSign := true, e := a.e.(voterSign := Some(sign))) else a
  }

  function TellersFrozen(T: Texts, key: string, a: AuthRow): AuthRow {
    if TellersOpen(a) then
      a.(isTellerSign := true, e := a.e.(tellerSign := Some(Token(key, TellerListText(T, a.tellers)))))
    else a
  }

  /** A row inserted where the order of the query puts it, unless the teller is there already. */
  function Recorded(a: AuthRow, t: Teller, at: nat): AuthRow
    requires at <= |a.tellers|
  {
    if Known(a.tellers, AddrOf(t)) then a else a.(tellers := a.tellers[..at] + [t] + a.tellers[at..])
  }

  predicate MayOpen(a: AuthRow) {
    a.e.state == 1 && a.isVoterSign && a.isTellerSign
  }

  /** The election as it is to be opened: the time of the first attempt stays. */
  function Opened(a: AuthRow, time: int): Election {
    if a.e.openSign.Some? then a.e.(state := 2) else a.e.(state := 2, openTime := Some(time))
  }

  function OpenSign(T: Texts, key: string, a: AuthRow, time: int): Token {
    if a.e.openSign.Some? then a.e.openSign.value else Token(key, OpenText(T, Opened(a, time)))
  }

  function OpenRequest(T: Texts, key: string, a: AuthRow, time: int): Election {
    OpenCopy(Opened(a, time)).(teller := Some(TellerCopies(a.tellers)), openSign := Some(OpenSign(T, key, a, time)))
  }

  /** After an attempt: the time and the signature are kept whether or not it succeeded everywhere. */
  function AfterOpen(a: AuthRow, m: Election, success: bool): AuthRow {
    a.(e := a.e.(state := if success then 2 else 1, openTime := m.openTime, openSign := m.openSign))
  }

  function CloseTime(a: AuthRow, time: int): int {
    if a.e.closeSign.Some? && a.e.closeTime.Some? then a.e.closeTime.value else time
  }

  function CloseSign(T: Texts, key: string, a: AuthRow, time: int): Token {
    if a.e.closeSign.Some? then a.e.closeSign.value
    else Token(key, CloseText(T, a.e.(state := 3, closeTime := Some(CloseTime(a, time)))))
  }

  function AfterClose(a: AuthRow, time: int, sign: Token, success: bool): AuthRow {
    a.(e := a.e.(state := if success then 3 else 2, closeTime := Some(time), closeSign := Some(sign)))
  }

  /** The valid addresses among the first n. */
  function Emails(voters: seq<string>, isEmail: string -> bool, trim: string -> string, n: nat): set<string>
    requires n <= |voters|
  {
    if n == 0 then {} else
      var voter := trim(voters[n - 1]);
      Emails(voters, isEmail, trim, n - 1) + if voter != "" && isEmail(voter) then {voter} else {}
  }

  /** They are the trimmed texts that are not empty and look like an address. */
  lemma {:induction false} EmailsAre(voters: seq<string>, isEmail: string -> bool, trim: string -> string, n: nat)
    requires n <= |voters|
    ensures forall a :: a in Emails(voters, isEmail, trim, n) <==>
      a != "" && isEmail(a) && exists i :: 0 <= i < n && trim(voters[i]) == a
  {
    if n > 0 {
      EmailsAre(voters, isEmail, trim, n - 1);
    }
  }

  method InsertVoters(known: set<string>, voters: seq<string>, isEmail: string -> bool, trim: string -> string)
    returns (all: set<string>, count: nat)
    ensures all == known + Emails(voters, isEmail, trim, |voters|) && count == |all| - |known|
  {
    all, count := known, 0;
    for i := 0 to |voters|
      invariant all == known + Emails(voters, isEmail, trim, i) && count == |all| - |known|
    {
      var voter := trim(voters[i]);
      if voter != "" && isEmail(voter) {
        if voter !in all {
          count := count + 1;
        }
        all := all + {voter};
      }
    }
  }

  // ----- The handlers -----

  class AuthServer {
    const T: Texts
    const key: string
    var row: AuthRow

    constructor (T: Texts, key: string, row: AuthRow)
      ensures this.T == T && this.key == key && this.row == row
    {
      this.T, this.key, this.row := T, key, row;
    }

    method FreezeElection(time: int) returns (code: int)
      modifies this
      ensures row == Frozen(T, key, old(row), time) && (code == 0 <==> old(row).e.state == 0)
    {
      if row.e.state != 0 {
        return -1;
      }
      var data := row.e;
      data := data.(freezeTime := Some(time));
      var str := GetElectionInfoStr(T, data, Some(1));
      row := row.(e := data.(state := 1, freezeSign := Some(Token(key, str))));
      return 0;
    }

    /** Counts what it inserts; an address that is there already is not counted again. */
    method RegVoter(voters: seq<string>, isEmail: string -> bool, trim: string -> string) returns (code: int,
                    count: nat)
      requires VotersOpen(row) ==> row.e.voterCount == Some(|row.voters|)
      modifies this
      ensures code == 0 <==> VotersOpen(old(row))
      ensures code != 0 ==> row == old(row)
      ensures code == 0 ==>
        && row.voters == old(row).voters + Emails(voters, isEmail, trim, |voters|)
        && row.e.voterCount == Some(|row.voters|) && count == |row.voters| - |old(row).voters|
        && row == old(row).(voters := row.voters, e := old(row).e.(voterCount := row.e.voterCount))
    {
      if !VotersOpen(row) {
        return -1, 0;
      }
      var all;
      all, count := InsertVoters(row.voters, voters, isEmail, trim);
      var total := row.e.voterCount.value + count;
      row := row.(voters := all, e := row.e.(voterCount := Some(total)));
      return 0, count;
    }

    method FreezeVoters(sign: Token) returns (code: int)
      modifies this
      ensures row == VotersFrozen(old(row), sign) && (code == 0 <==> VotersOpen(old(row)))
    {
      if !(row.e.state == 1 && !row.isVoterSign) {
        return -1;
      }
      row := row.(e := row.e.(voterSign := Some(sign)));
      row := row.(isVoterSign := true);
      return 0;
    }

    method TellerKnown(addr: Addr) returns (known: bool)
      ensures known <==> Known(row.tellers, addr)
    {
      for i := 0 to |row.tellers|
        invariant forall m :: 0 <= m < i ==> AddrOf(row.tellers[m]) != addr
      {
        if row.tellers[i].hostname == addr.hostname && row.tellers[i].port == addr.port {
          return true;
        }
      }
      return false;
    }

    /** Before it asks the remote teller: is the list still open, and the teller not on it? */
    method StartRegister(addr: Addr) returns (code: int, info: Election)
      ensures code == 0 <==> TellersOpen(row) && !Known(row.tellers, addr)
      ensures info == InfoCopy(row.e)
    {
      info := GetElectionInfo(row.e);
      if row.e.state != 1 || row.isTellerSign {
        return -1, info;
      }
      var known := TellerKnown(addr);
      return if known then -2 else 0, info;
    }

    /** After the remote teller has agreed. Whether the list is still open is not asked again. */
    method FinishRegister(t: Teller, at: nat) returns (code: int)
      requires at <= |row.tellers|
      modifies this
      ensures row == Recorded(old(row), t, at) && (code == 0 <==> !Known(old(row).tellers, AddrOf(t)))
    {
      var known := TellerKnown(AddrOf(t));
      if known {
        return -2;
      }
      row := row.(tellers := row.tellers[..at] + [t] + row.tellers[at..]);
      return 0;
    }

    method FreezeTellers() returns (code: int)
      modifies this
      ensures row == TellersFrozen(T, key, old(row)) && (code == 0 <==> TellersOpen(old(row)))
    {
      if !(row.e.state == 1 && !row.isTellerSign) {
        return -1;
      }
      var str := GetTellerInfoStr(T, row.tellers);
      row := row.(isTellerSign := true, e := row.e.(tellerSign := Some(Token(key, str))));
      return 0;
    }

    /** Up to the point where the requests go out. */
    method StartOpen(time: int) returns (code: int, info: Election)
      ensures code == 0 <==> MayOpen(row)
      ensures code == 0 ==> info == OpenRequest(T, key, row, time)
    {
      var data := row.e;
      info := data;
      if data.state != 1 {
        return -4, info;
      }
      if !row.isVoterSign {
        return -5, info;
      }
      if !row.isTellerSign {
        return -6, info;
      }
      var retry := false;
      data := data.(state := 2);
      if data.openSign.Some? {
        retry := true;
      } else {
        data := data.(openTime := Some(time));
      }
      info := GetElectionOpenInfo(data);
      var sign := if retry then data.openSign.value else Token(key, OpenText(T, data));
      var tellers := GetTellerInfo(row.tellers);
      info := info.(teller := Some(tellers));
      info := info.(openSign := Some(sign));
      return 0, info;
    }

    /** When all requests have been answered, or one of them has failed. */
    method FinishOpen(info: Election, success: bool) returns (code: int)
      modifies this
      ensures row == AfterOpen(old(row), info, success) && (code == 0 <==> success)
    {
      var state := 2;
      if !success {
        state := 1;
      }
      row := row.(e := row.e.(state := state, openTime := info.openTime, openSign := info.openSign));
      return if state == 2 then 0 else -10;
    }

    method StartClose(time: int) returns (code: int, closeTime: int, sign: Token)
      requires row.e.closeSign.Some? ==> row.e.closeTime.Some?
      ensures code == 0 <==> row.e.state == 2
      ensures code == 0 ==> closeTime == CloseTime(row, time) && sign == CloseSign(T, key, row, time)
    {
      var data := row.e;
      closeTime, sign := time, Token(key, "");
      if data.state != 2 {
        return -4, closeTime, sign;
      }
      var retry := false;
      data := data.(state := 3);
      if data.closeSign.Some? {
        retry := true;
        closeTime := data.closeTime.value;
      } else {
        data := data.(closeTime := Some(closeTime));
      }
      sign := if retry then data.closeSign.value else Token(key, CloseText(T, data));
      return 0, closeTime, sign;
    }

    method FinishClose(time: int, sign: Token, success: bool) returns (code: int)
      modifies this
      ensures row == AfterClose(old(row), time, sign, success) && (code == 0 <==> success)
    {
      var state := 3;
      if !success {
        state := 2;
      }
      row := row.(e := row.e.(state := state, closeTime := Some(time), closeSign := Some(sign)));
      return if state == 3 then 0 else -9;
    }
  }
}

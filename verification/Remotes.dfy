/** How the bulletin board and the tellers answer the requests that move an election along
    (src/esp/openElection.js, src/esp/closeElection.js, src/teller/registerElection.js, src/teller/openElection.js,
    src/teller/closeElection.js). */
module Remotes {
  import opened Wrappers
  import opened ElectionInfo

  /** The requests the authority sends. A request to close carries no opening time. */
  datatype Msg = Register(e: Election) | Open(e: Election) | Close(time: int, sign: Token)

  datatype Reply = Reply(code: int, stored: Option<Election>)

  predicate Signed(key: string, text: string, sign: Option<Token>) {
    sign == Some(Token(key, text))
  }

  // ----- Answers, as functions of what is stored -----

  /** The authority's three signatures under a request to open. */
  ghost predicate OpenSigned(T: Texts, authKey: string, m: Election) {
    && m.teller.Some?
    && Signed(authKey, InfoText(T, m, 1), m.freezeSign)
    && Signed(authKey, TellerListText(T, m.teller.value), m.tellerSign)
    && Signed(authKey, OpenText(T, m), m.openSign)
  }

  ghost function BoardOpens(T: Texts, authKey: string, stored: Option<Election>, m: Election): Reply {
    if !OpenFormat(m) then Reply(-2, stored)
    else if m.teller.None? then Reply(-3, stored)
    else if stored.Some? then Reply(if stored.value.state == 2 then 0 else -5, stored)
    else if !OpenSigned(T, authKey, m) then Reply(-6, stored)
    else Reply(0, Some(OpenCopy(m).(teller := Some(TellerCopies(m.teller.value)))))
  }

  /** A teller compares the frozen election with the one it registered. */
  ghost predicate SameAsRegistered(T: Texts, stored: Election, m: Election) {
    stored.freezeSign == m.freezeSign && InfoText(T, stored, stored.state) == InfoText(T, m, 1)
  }

  ghost function TellerOpens(T: Texts, authKey: string, stored: Option<Election>, m: Election): Reply {
    if !OpenFormat(m) then Reply(-2, stored)
    else if m.teller.None? then Reply(-3, stored)
    else if stored.None? then Reply(-4, stored)
    else if stored.value.state == 2 then Reply(0, stored)
    else if stored.value.state != 1 then Reply(-5, stored)
    else if !(SameAsRegistered(T, stored.value, m) && Signed(authKey, TellerListText(T, m.teller.value), m.tellerSign)
              && Signed(authKey, OpenText(T, m), m.openSign)) then Reply(-6, stored)
    else Reply(0, Some(OpenCopy(m)))
  }

  function Closed(e: Election, time: int, sign: Token): Election {
    e.(state := 3, closeTime := Some(time), closeSign := Some(sign))
  }

  /** Both kinds of server close alike; missing is the code for a server that holds no election. */
  ghost function Closes(T: Texts, authKey: string, stored: Option<Election>, time: int, sign: Token,
                        missing: int): Reply {
    if stored.None? then Reply(missing, stored)
    else if stored.value.state == 3 then Reply(0, stored)
    else if stored.value.state != 2 then Reply(-4, stored)
    else if !Signed(authKey, CloseText(T, Closed(stored.value, time, sign)), Some(sign)) then Reply(-5, stored)
    else Reply(0, Some(Closed(stored.value, time, sign)))
  }

  ghost function TellerRegisters(T: Texts, authKey: string, stored: Option<Election>, m: Election): Reply {
    if m.state != 1 || !InfoFormat(m) then Reply(-1, stored)
    else if stored.Some? then Reply(-2, stored)
    else if !Signed(authKey, InfoText(T, m, 1), m.freezeSign) then Reply(-4, stored)
    else Reply(0, Some(InfoCopy(m)))
  }

  // ----- What a server holds is signed -----

  /** A record that a request has changed carries the authority's signatures over its own texts: over the frozen
      election, over the election as opened and the list of tellers, or over the election as closed. */
  lemma ChangesAreSigned(T: Texts, authKey: string, stored: Option<Election>, m: Election, time: int, sign: Token,
                         missing: int)
    ensures var r := TellerRegisters(T, authKey, stored, m).stored;
      r == stored || (r.Some? && r.value.freezeSign == Some(Token(authKey, InfoText(T, r.value, 1))))
    ensures var r := BoardOpens(T, authKey, stored, m).stored;
      r == stored || (
        && r.Some? && r.value.freezeSign == Some(Token(authKey, InfoText(T, r.value, 1)))
        && r.value.openSign == Some(Token(authKey, OpenText(T, r.value))) && r.value.teller.Some?
        && r.value.tellerSign == Some(Token(authKey, TellerListText(T, r.value.teller.value))))
    ensures var r := TellerOpens(T, authKey, stored, m).stored;
      r == stored || (
        && r.Some? && stored.Some? && r.value.freezeSign == stored.value.freezeSign
        && InfoText(T, r.value, 1) == InfoText(T, stored.value, 1)
        && r.value.openSign == Some(Token(authKey, OpenText(T, r.value))) && m.teller.Some?
        && r.value.tellerSign == Some(Token(authKey, TellerListText(T, m.teller.value))))
    ensures var r := Closes(T, authKey, stored, time, sign, missing).stored;
      r == stored || (
        && r.Some? && stored.Some? && sign == Token(authKey, CloseText(T, r.value))
        && r.value == stored.value.(state := 3, closeTime := Some(time), closeSign := Some(sign)))
  {
    hide OpenFormat, InfoFormat, InfoText, TellerListText;
    CopiesKeepTexts(T, m, 1);
    SameInfoText(T, OpenCopy(m), m, 1);
    if m.teller.Some? {
      OpenCopyTexts(T, m, m.teller.value);
    }
  }

  lemma OpenCopyTexts(T: Texts, m: Election, ts: seq<Teller>)
    ensures var e := OpenCopy(m).(teller := Some(TellerCopies(ts)));
      InfoText(T, e, 1) == InfoText(T, m, 1) && OpenText(T, e) == OpenText(T, m)
    ensures TellerListText(T, TellerCopies(ts)) == TellerListText(T, ts)
  {
    var e := OpenCopy(m).(teller := Some(TellerCopies(ts)));
    SameInfoText(T, e, m, 1);
    SameInfoText(T, e, m, 2);
    TellerCopiesKeepText(T, ts, |ts|);
  }

  // ----- The servers -----

  /** The row of one election in the board's database. It exists before the election opens, without data. */
  class BoardServer {
    const T: Texts
    const authKey: string
    var elecData: Option<Election>

    constructor (T: Texts, authKey: string)
      ensures this.T == T && this.authKey == authKey && elecData.None?
    {
      this.T, this.authKey, elecData := T, authKey, None;
    }

    method OpenElection(data: Election) returns (code: int)
      modifies this
      ensures Reply(code, elecData) == BoardOpens(T, authKey, old(elecData), data)
      ensures elecData == old(elecData) || (
        && elecData.Some? && var e := elecData.value;
        && e.freezeSign == Some(Token(authKey, InfoText(T, e, 1)))
        && e.openSign == Some(Token(authKey, OpenText(T, e)))
        && e.teller.Some? && e.tellerSign == Some(Token(authKey, TellerListText(T, e.teller.value))))
    {
      hide InfoFormat, InfoText, OpenText, TellerListText;
      ChangesAreSigned(T, authKey, elecData, data, 0, Token("", ""), 0);
      var ok := ValidateElectionOpenInfoFormat(data);
      if !ok {
        return -2;
      }
      if data.teller.None? {
        return -3;
      }
      if elecData.Some? && elecData.value.state == 2 {
        return 0;
      }
      if elecData.Some? && elecData.value.state != 2 {
        return -5;
      }
      var tellerStr := GetTellerInfoStr(T, data.teller.value);
      var freezeStr := GetElectionInfoStr(T, data, Some(1));
      if !(Signed(authKey, freezeStr, data.freezeSign) && Signed(authKey, tellerStr, data.tellerSign)
           && Signed(authKey, OpenText(T, data), data.openSign)) {
        return -6;
      }
      var electionInfo := GetElectionOpenInfo(data);
      var tellers := GetTellerInfo(data.teller.value);
      elecData := Some(electionInfo.(teller := Some(tellers)));
      return 0;
    }

    method CloseElection(time: int, sign: Token) returns (code: int)
      modifies this
      ensures Reply(code, elecData) == Closes(T, authKey, old(elecData), time, sign, -4)
      ensures elecData == old(elecData) || (
        && elecData.Some? && old(elecData).Some?
        && elecData.value == old(elecData).value.(state := 3, closeTime := Some(time), closeSign := Some(sign))
        && sign == Token(authKey, CloseText(T, elecData.value)))
    {
      if elecData.Some? && elecData.value.state == 3 {
        return 0;
      }
      if elecData.None? || elecData.value.state != 2 {
        return -4;
      }
      var closed := elecData.value;
      closed := closed.(state := 3);
      closed := closed.(closeTime := Some(time));
      closed := closed.(closeSign := Some(sign));
      if !Signed(authKey, CloseText(T, closed), Some(sign)) {
        return -5;
      }
      elecData := Some(closed);
      return 0;
    }
  }

  /** The row of one election in a teller's database; None until the election has been registered. */
  class TellerServer {
    const T: Texts
    const authKey: string
    var elecData: Option<Election>

    constructor (T: Texts, authKey: string)
      ensures this.T == T && this.authKey == authKey && elecData.None?
    {
      this.T, this.authKey, elecData := T, authKey, None;
    }

    method RegisterElection(data: Election) returns (code: int)
      modifies this
      ensures Reply(code, elecData) == TellerRegisters(T, authKey, old(elecData), data)
      ensures elecData == old(elecData) || (
        elecData.Some? && elecData.value.freezeSign == Some(Token(authKey, InfoText(T, elecData.value, 1))))
    {
      hide InfoFormat, InfoText;
      ChangesAreSigned(T, authKey, elecData, data, 0, Token("", ""), 0);
      var ok := ValidateElectionInfoFormat(data);
      if data.state != 1 || !ok {
        return -1;
      }
      if elecData.Some? {
        return -2;
      }
      var elecStr := GetElectionInfoStr(T, data, Some(1));
      if !Signed(authKey, elecStr, data.freezeSign) {
        return -4;
      }
      var elecInfo := GetElectionInfo(data);
      elecData := Some(elecInfo);
      return 0;
    }

    method OpenElection(data: Election) returns (code: int)
      modifies this
      ensures Reply(code, elecData) == TellerOpens(T, authKey, old(elecData), data)
      ensures elecData == old(elecData) || (
        && elecData.Some? && old(elecData).Some? && data.teller.Some? && var e := elecData.value;
        && e.freezeSign == old(elecData).value.freezeSign
        && InfoText(T, e, 1) == InfoText(T, old(elecData).value, 1)
        && e.openSign == Some(Token(authKey, OpenText(T, e)))
        && e.tellerSign == Some(Token(authKey, TellerListText(T, data.teller.value))))
    {
      hide InfoFormat, InfoText, OpenText, TellerListText;
      ChangesAreSigned(T, authKey, elecData, data, 0, Token("", ""), 0);
      var ok := ValidateElectionOpenInfoFormat(data);
      if !ok {
        return -2;
      }
      if data.teller.None? {
        return -3;
      }
      if elecData.None? {
        return -4;
      }
      if elecData.value.state == 2 {
        return 0;
      }
      if elecData.value.state != 1 {
        return -5;
      }
      var tellerStr := GetTellerInfoStr(T, data.teller.value);
      var freezeStr := GetElectionInfoStr(T, data, Some(1));
      var storedStr := GetElectionInfoStr(T, elecData.value, None);
      if !(elecData.value.freezeSign == data.freezeSign && storedStr == freezeStr
           && Signed(authKey, tellerStr, data.tellerSign) && Signed(authKey, OpenText(T, data), data.openSign)) {
        return -6;
      }
      var electionInfo := GetElectionOpenInfo(data);
      elecData := Some(electionInfo);
      return 0;
    }

    method CloseElection(time: int, sign: Token) returns (code: int)
      modifies this
      ensures Reply(code, elecData) == Closes(T, authKey, old(elecData), time, sign, -3)
      ensures elecData == old(elecData) || (
        && elecData.Some? && old(elecData).Some?
        && elecData.value == old(elecData).value.(state := 3, closeTime := Some(time), closeSign := Some(sign))
        && sign == Token(authKey, CloseText(T, elecData.value)))
    {
      if elecData.None? {
        return -3;
      }
      if elecData.value.state == 3 {
        return 0;
      }
      if elecData.value.state != 2 {
        return -4;
      }
      var closed := elecData.value;
      closed := closed.(state := 3);
      closed := closed.(closeTime := Some(time));
      closed := closed.(closeSign := Some(sign));
      if !Signed(authKey, CloseText(T, closed), Some(sign)) {
        return -5;
      }
      elecData := Some(closed);
      return 0;
    }
  }

  ghost function StateOf(stored: Option<Election>): int {
    if stored.None? then 0 else stored.value.state
  }
}

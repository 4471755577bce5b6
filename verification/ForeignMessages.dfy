/** Runs in which anybody may send the servers anything, at any time: what a server holds is signed by the authority all
    the same. */
module ForeignMessages {
  import opened Wrappers
  import opened ElectionInfo
  import opened Remotes
  import opened Lifecycle

  /** A step of the system, or any message to any server; its answer goes back to whoever sent it. */
  datatype Move = Own(step: Step) | Foreign(dest: Dest, msg: Msg)

  ghost function Moved(T: Texts, key: string, s: System, mv: Move): System {
    match mv
    case Own(step) => if Enabled(s, step) then Do(T, key, s, step) else s
    case Foreign(dest, msg) => Delivered(T, key, s, dest, msg, false)
  }

  ghost function After(T: Texts, key: string, s: System, moves: seq<Move>): System {
    if moves == [] then s else Moved(T, key, After(T, key, s, moves[..|moves| - 1]), moves[|moves| - 1])
  }

  /** The authority has signed the frozen election; if the record has been opened, that, with a list of tellers, the
      one in the record if there is one; and if it has been closed, that. */
  ghost predicate SignedRecord(T: Texts, key: string, e: Election) {
    && e.freezeSign == Some(Token(key, InfoText(T, e, 1)))
    && (e.openSign.Some? ==> e.openSign == Some(Token(key, OpenText(T, e))) && ListSigned(T, key, e))
    && (e.closeSign.Some? ==> e.openSign.Some? && e.state == 3 && e.closeSign == Some(Token(key, CloseText(T, e))))
    && (e.state != 1 ==> e.openSign.Some?)
  }

  ghost predicate ListSigned(T: Texts, key: string, e: Election) {
    exists ts :: e.tellerSign == Some(Token(key, TellerListText(T, ts))) && (e.teller.Some? ==> e.teller.value == ts)
  }

  /** Times in order, and every row of the election's own: created, changed, frozen, opened. */
  ghost predicate InOrder(e: Election) {
    && e.freezeTime.Some? && e.createTime < e.freezeTime.value
    && (forall i :: 0 <= i < |e.cand| ==>
          e.cand[i].eid == e.id && e.cand[i].createTime <= e.cand[i].updateTime < e.freezeTime.value)
    && (forall i :: 0 <= i < |e.pos| ==>
          e.pos[i].eid == e.id && e.pos[i].createTime <= e.pos[i].updateTime < e.freezeTime.value)
    && (forall i :: 0 <= i < |e.posCandMapping| ==> e.posCandMapping[i].eid == e.id)
    && (e.openSign.Some? ==>
          && e.voterCount.Some? && e.voterCount.value >= 0 && e.voterSign.Some? && e.tellerSign.Some?
          && e.openTime.Some? && e.openTime.value > e.freezeTime.value)
  }

  ghost predicate RecordsSound(T: Texts, key: string, s: System) {
    forall d :: At(s, d).Some? ==> SignedRecord(T, key, At(s, d).value) && InOrder(At(s, d).value)
  }

  /** What the servers' format checks ask for is that order, and the signatures. */
  lemma FormatIsOrder(e: Election)
    ensures InfoFormat(e) <==> e.freezeSign.Some? && InOrder(InfoCopy(e))
    ensures OpenFormat(e) <==> e.freezeSign.Some? && e.openSign.Some? && InOrder(OpenCopy(e))
    ensures InOrder(OpenCopy(e)) ==> InOrder(OpenCopy(e).(teller := e.teller))
  {
    assert InfoFormat(e) ==> forall i :: 0 <= i < |e.cand| ==> CandFormat(e, e.cand[i]);
    assert InfoFormat(e) ==> forall i :: 0 <= i < |e.pos| ==> PosFormat(e, e.pos[i]);
  }

  /** The answer to any message leaves a record in order. */
  lemma AnswerInOrder(T: Texts, key: string, d: Dest, stored: Option<Election>, m: Msg)
    requires stored.Some? ==> InOrder(stored.value)
    ensures var r := Answer(T, key, d, stored, m).stored; r.Some? ==> InOrder(r.value)
  {
    hide InfoFormat, OpenFormat, InfoText, OpenText, CloseText, TellerListText;
    if m.Open? {
      FormatIsOrder(m.e);
    } else if m.Register? {
      FormatIsOrder(m.e);
    }
  }

  /** One answer, to any message at all. */
  lemma AnswerSigned(T: Texts, key: string, d: Dest, stored: Option<Election>, m: Msg)
    requires stored.Some? ==> SignedRecord(T, key, stored.value)
    ensures var r := Answer(T, key, d, stored, m).stored; r.Some? ==> SignedRecord(T, key, r.value)
  {
    hide InfoText, TellerListText;
    match m
    case Register(e) =>
      ChangesAreSigned(T, key, stored, e, 0, Token("", ""), 0);
    case Open(e) =>
      ChangesAreSigned(T, key, stored, e, 0, Token("", ""), 0);
    case Close(time, sign) =>
      if stored.Some? {
        ChangesAreSigned(T, key, stored, stored.value, time, sign, if d.ToBoard? then -4 else -3);
        ClosedTexts(T, stored.value, time, sign);
      }
  }

  lemma ClosedTexts(T: Texts, e: Election, time: int, sign: Token)
    ensures InfoText(T, Closed(e, time, sign), 1) == InfoText(T, e, 1)
    ensures OpenText(T, Closed(e, time, sign)) == OpenText(T, e)
  {
    SameInfoText(T, Closed(e, time, sign), e, 1);
    SameInfoText(T, Closed(e, time, sign), e, 2);
  }

  lemma DeliveredSigned(T: Texts, key: string, s: System, d: Dest, m: Msg, heard: bool)
    requires RecordsSound(T, key, s)
    ensures RecordsSound(T, key, Delivered(T, key, s, d, m, heard))
  {
    hide SignedRecord, InOrder, Answer;
    AnswerSigned(T, key, d, At(s, d), m);
    AnswerInOrder(T, key, d, At(s, d), m);
    var s', r := Delivered(T, key, s, d, m, heard), Answer(T, key, d, At(s, d), m);
    forall x | At(s', x).Some? ensures SignedRecord(T, key, At(s', x).value) && InOrder(At(s', x).value) {
      if x == d && r.stored.Some? {
        assert At(s', x) == r.stored;
      } else {
        assert At(s', x) == At(s, x);
      }
    }
  }

  lemma MoveSigned(T: Texts, key: string, s: System, mv: Move)
    requires RecordsSound(T, key, s)
    ensures RecordsSound(T, key, Moved(T, key, s, mv))
  {
    hide SignedRecord, InOrder, Answer;
    var s' := Moved(T, key, s, mv);
    if mv.Foreign? {
      DeliveredSigned(T, key, s, mv.dest, mv.msg, false);
    } else if Enabled(s, mv.step) && mv.step.Deliver? {
      DeliveredSigned(T, key, s, mv.step.dest, mv.step.msg, mv.step.heard);
    } else {
      assert s'.board == s.board && s'.remote == s.remote;
      assert forall d :: At(s', d) == At(s, d);
    }
  }

  /** After any run from the start, whatever was sent by whom: every record held anywhere is signed, and in order. */
  lemma {:induction false} RunSigned(T: Texts, key: string, s: System, moves: seq<Move>)
    requires Initial(s)
    ensures RecordsSound(T, key, After(T, key, s, moves))
  {
    hide SignedRecord, InOrder;
    if moves == [] {
      NothingHeld(s);
    } else {
      RunSigned(T, key, s, moves[..|moves| - 1]);
      MoveSigned(T, key, After(T, key, s, moves[..|moves| - 1]), moves[|moves| - 1]);
    }
  }

  /** The state is the one field of a request to open that no signature covers and no check reads, and the server
      takes it over: whatever number stands there, the answer is the same, and that is the state afterwards. */
  lemma StateTakenOver(T: Texts, key: string, d: Dest, stored: Option<Election>, e: Election, state: int)
    requires stored.None? || stored.value.state == 1
    ensures var r, r' := Answer(T, key, d, stored, Open(e)), Answer(T, key, d, stored, Open(e.(state := state)));
      && r.code == r'.code && (r.code == 0 ==> r.stored.Some? && r'.stored == Some(r.stored.value.(state := state)))
  {
    hide TellerListText;
    var e' := e.(state := state);
    SameInfoText(T, e', e, 1);
    SameInfoText(T, e', e, 2);
    assert OpenFormat(e') <==> OpenFormat(e) by {
      FormatKept(e, state);
    }
  }

  lemma FormatKept(e: Election, state: int)
    ensures OpenFormat(e.(state := state)) <==> OpenFormat(e)
  {
    var e' := e.(state := state);
    assert forall c :: e.freezeTime.Some? ==> (CandFormat(e', c) <==> CandFormat(e, c));
    assert forall p :: e.freezeTime.Some? ==> (PosFormat(e', p) <==> PosFormat(e, p));
  }
}

/** What holds over all runs of an election, with requests and answers lost, late and repeated: when the authority
    gets ahead of a server, that there is one opening time, what the stored signatures are over, and whom a grown list
    shuts out. */
module LifecycleTheorems {
  import opened Wrappers
  import opened ElectionInfo
  import opened Remotes
  import opened Authority
  import opened Lifecycle

  // ----- Runs -----

  ghost predicate Possible(T: Texts, key: string, s: System, steps: seq<Step>)
    decreases |steps|
  {
    steps == [] || (Enabled(s, steps[0]) && Possible(T, key, Do(T, key, s, steps[0]), steps[1..]))
  }

  ghost function After(T: Texts, key: string, s: System, steps: seq<Step>): System
    requires Possible(T, key, s, steps)
    decreases |steps|
  {
    if steps == [] then s else After(T, key, Do(T, key, s, steps[0]), steps[1..])
  }

  lemma {:induction false} RunKeeps(T: Texts, key: string, s: System, steps: seq<Step>)
    requires Inv(T, key, s) && Possible(T, key, s, steps)
    ensures Inv(T, key, After(T, key, s, steps))
    ensures After(T, key, s, steps).auth.e.state >= s.auth.e.state
    ensures forall d :: StateAt(After(T, key, s, steps), d) >= StateAt(s, d)
    decreases |steps|
  {
    hide Inv, Do, Enabled, StateAt;
    if steps != [] {
      StepKeeps(T, key, s, steps[0]);
      RunKeeps(T, key, Do(T, key, s, steps[0]), steps[1..]);
    }
  }

  // ----- When the authority gets ahead -----

  ghost predicate NeverAhead(T: Texts, key: string, s: System, steps: seq<Step>)
    requires Possible(T, key, s, steps)
    decreases |steps|
  {
    NotAhead(s) && (steps != [] ==> NeverAhead(T, key, Do(T, key, s, steps[0]), steps[1..]))
  }

  /** The attempt to open that is under way ends within these steps, and successfully. */
  ghost predicate Succeeds(T: Texts, key: string, s: System, steps: seq<Step>)
    requires Possible(T, key, s, steps)
    decreases |steps|
  {
    steps != []
    && if steps[0].FinishOpen? then s.waiting == {} else Succeeds(T, key, Do(T, key, s, steps[0]), steps[1..])
  }

  ghost predicate RecordsNew(s: System, step: Step) {
    step.RecordTeller? && !Known(s.auth.tellers, AddrOf(step.row))
  }

  /** The election is open, or the attempt that opens it is under way. */
  ghost predicate TooLate(T: Texts, key: string, s: System, steps: seq<Step>)
    requires Possible(T, key, s, steps)
  {
    s.auth.e.state >= 2 || (s.pending.Opening? && Succeeds(T, key, s, steps))
  }

  /** Some step puts a teller on the list that is too late for the attempt that opens the election. */
  ghost predicate RecordsLate(T: Texts, key: string, s: System, steps: seq<Step>)
    requires Possible(T, key, s, steps)
    decreases |steps|
  {
    steps != []
    && ((RecordsNew(s, steps[0]) && TooLate(T, key, s, steps))
        || RecordsLate(T, key, Do(T, key, s, steps[0]), steps[1..]))
  }

  lemma StepAsked(T: Texts, key: string, s: System, step: Step)
    requires Inv(T, key, s) && Enabled(s, step)
    ensures var s' := Do(T, key, s, step);
      if step.StartOpen? then !Unasked(s') else Unasked(s') <==> Unasked(s) || RecordsNew(s, step)
  {
    hide AuthOk, NetOk, ServersOk, PlaceOk, OpenRequest, Answer, Known;
    var s' := Do(T, key, s, step);
    if step.RecordTeller? {
      RecordedKnown(s.auth, step.row, step.at);
      var d := ToTeller(AddrOf(step.row));
      assert d in Targets(s'.auth.tellers);
      assert forall c :: c in Targets(s'.auth.tellers) <==> c in Targets(s.auth.tellers) || c == d;
    }
  }

  lemma StepPhase(T: Texts, key: string, s: System, step: Step)
    requires Inv(T, key, s) && Enabled(s, step)
    ensures var s' := Do(T, key, s, step);
      && (s.auth.e.state >= 2 ==> s'.auth.e.state >= 2 && !step.StartOpen?)
      && (s.auth.e.state <= 1 ==> (s'.auth.e.state >= 2 <==> step.FinishOpen? && s.waiting == {}))
      && (step.StartOpen? ==> !s.pending.Opening?) && (step.FinishOpen? ==> s.pending.Opening?)
      && (s'.pending.Opening? <==> step.StartOpen? || (s.pending.Opening? && !step.FinishOpen?))
  {
    hide NetOk, ServersOk, AskedOk, OpenRequest, Answer, OpensAt, ClosesAt;
  }

  lemma {:induction false} AheadRun(T: Texts, key: string, s: System, steps: seq<Step>)
    requires Inv(T, key, s) && Possible(T, key, s, steps)
    ensures NeverAhead(T, key, s, steps) <==>
      !((Unasked(s) && TooLate(T, key, s, steps)) || RecordsLate(T, key, s, steps))
    decreases |steps|
  {
    hide Inv, Do, Enabled, NotAhead, Unasked, Known;
    AheadIff(T, key, s);
    PendingState(T, key, s);
    if steps != [] {
      StepKeeps(T, key, s, steps[0]);
      StepAsked(T, key, s, steps[0]);
      StepPhase(T, key, s, steps[0]);
      AheadRun(T, key, Do(T, key, s, steps[0]), steps[1..]);
    }
  }

  /** In all runs: the authority is never ahead of a server on its list exactly if no teller is recorded after the
      election has been opened or during the attempt that opens it. */
  lemma LifecycleSafety(T: Texts, key: string, s0: System, steps: seq<Step>)
    requires Initial(s0) && Possible(T, key, s0, steps)
    ensures NeverAhead(T, key, s0, steps) <==> !RecordsLate(T, key, s0, steps)
  {
    hide Inv, Possible, NeverAhead, RecordsLate, Succeeds;
    InitialInv(T, key, s0);
    AheadRun(T, key, s0, steps);
    assert !Unasked(s0) || !TooLate(T, key, s0, steps);
  }

  // ----- One opening -----

  ghost predicate HasOpened(s: System, d: Dest) {
    StateAt(s, d) >= 2
  }

  /** Its opening time is that of the requests, and the authority's own as soon as the attempt is over. */
  ghost predicate OpenedWith(T: Texts, key: string, s: System, d: Dest) {
    && TheOpen(T, key, s).Some? && At(s, d).Some? && At(s, d).value.openTime == TheOpen(T, key, s).value.openTime
    && (s.pending.Calm? ==> At(s, d).value.openTime == s.auth.e.openTime)
  }

  lemma OpenTime(T: Texts, key: string, s: System, d: Dest)
    requires Inv(T, key, s) && HasOpened(s, d)
    ensures OpenedWith(T, key, s, d) && StateAt(s, d) <= 3
  {
    hide InfoText, OpenText, NetOk, AskedOk;
    assert HoldsOk(T, key, s, d, At(s, d).value);
    if TheOpen(T, key, s).Some? {
      OpenRequestState(T, key, s);
    }
  }

  /** In all runs no server and not the authority goes back, and every server that has opened holds the one opening time
      there is. */
  lemma OneOpening(T: Texts, key: string, s0: System, before: seq<Step>, after: seq<Step>)
    requires Initial(s0) && Possible(T, key, s0, before)
    requires Possible(T, key, After(T, key, s0, before), after)
    ensures var s := After(T, key, s0, before); var s' := After(T, key, s, after);
      && s'.auth.e.state >= s.auth.e.state && (forall d :: 3 >= StateAt(s', d) >= StateAt(s, d))
      && (forall d :: HasOpened(s, d) ==> OpenedWith(T, key, s, d))
  {
    hide Inv, TheOpen, Possible, After;
    InitialInv(T, key, s0);
    RunKeeps(T, key, s0, before);
    var s := After(T, key, s0, before);
    RunKeeps(T, key, s, after);
    var s' := After(T, key, s, after);
    forall d | HasOpened(s, d) ensures OpenedWith(T, key, s, d) {
      OpenTime(T, key, s, d);
    }
    forall d ensures StateAt(s', d) <= 3 {
      if HasOpened(s', d) {
        OpenTime(T, key, s', d);
      }
    }
  }

  /** What the requests to open carry never changes. */
  lemma RequestStays(T: Texts, key: string, s: System, step: Step)
    requires Inv(T, key, s) && Enabled(s, step) && TheOpen(T, key, s).Some?
    ensures TheOpen(T, key, Do(T, key, s, step)) == TheOpen(T, key, s)
  {
    hide Inv, TheOpen, OpenRequest, OpenCopy, Delivered;
    match step {
      case StartOpen(time) =>
        StartOpenTalk(T, key, s, time);
      case FinishOpen =>
        InvParts(T, key, s);
        FinishOpenTalk(T, key, s);
      case RecordTeller(row, at) =>
        RecordTalk(T, key, s, row, at);
      case _ =>
        OtherTalk(T, key, s, step);
    }
  }

  lemma RecordTalk(T: Texts, key: string, s: System, row: Teller, at: nat)
    requires Enabled(s, RecordTeller(row, at))
    ensures TheOpen(T, key, Do(T, key, s, RecordTeller(row, at))) == TheOpen(T, key, s)
  {
    hide OpenRequest, OpenCopy;
    ListsApart(T, key, s.auth, Recorded(s.auth, row, at).tellers, 0);
  }

  lemma OtherTalk(T: Texts, key: string, s: System, step: Step)
    requires Inv(T, key, s) && Enabled(s, step) && TheOpen(T, key, s).Some?
    requires !step.StartOpen? && !step.FinishOpen? && !step.RecordTeller?
    ensures TheOpen(T, key, Do(T, key, s, step)) == TheOpen(T, key, s)
  {
    hide InfoText, OpenText, CloseText, TellerListText, OpenRequest, OpenCopy, NetOk, ServersOk, AskedOk, Answer,
         OpensAt,
         ClosesAt;
    if step.FinishClose? {
      CloseKeepsRequest(T, key, s.auth, s.pending.time, s.pending.sign, s.waiting == {});
    }
  }

  lemma {:induction false} RunTalk(T: Texts, key: string, s: System, steps: seq<Step>)
    requires Inv(T, key, s) && Possible(T, key, s, steps) && TheOpen(T, key, s).Some?
    ensures TheOpen(T, key, After(T, key, s, steps)) == TheOpen(T, key, s)
    decreases |steps|
  {
    hide Inv, Do, Enabled, TheOpen;
    if steps != [] {
      StepKeeps(T, key, s, steps[0]);
      RequestStays(T, key, s, steps[0]);
      RunTalk(T, key, Do(T, key, s, steps[0]), steps[1..]);
    }
  }

  // ----- Signatures -----

  /** Signatures say what they should. That over the list of tellers stands for the list at the time of freezing. */
  ghost predicate SignsOk(T: Texts, key: string, a: AuthRow) {
    && (a.e.state >= 1 ==> a.e.freezeTime.Some? && a.e.freezeSign == Some(Token(key, InfoText(T, a.e, 1))))
    && (a.isTellerSign ==> a.e.tellerSign.Some?)
    && (a.isVoterSign ==> a.e.voterSign.Some?)
    && (a.e.openSign.Some? ==> a.e.openSign == Some(Token(key, OpenText(T, a.e))) && a.e.openTime.Some?)
    && (a.e.closeSign.Some? ==> a.e.closeSign == Some(Token(key, CloseText(T, a.e))))
  }

  /** The text of the list as it is now is the one that was signed when it was frozen. */
  ghost predicate ListSigned(T: Texts, key: string, a: AuthRow) {
    Signed(key, TellerListText(T, a.tellers), a.e.tellerSign)
  }

  /** The tellers on the list, or about to be, have the election. */
  ghost predicate RecordsOk(s: System) {
    forall addr :: addr in s.agreed || Known(s.auth.tellers, addr) ==> StateAt(s, ToTeller(addr)) >= 1
  }

  /** A server opens only what has the right format. */
  ghost predicate FormatOk(T: Texts, key: string, s: System) {
    forall d :: HasOpened(s, d) ==> TheOpen(T, key, s).Some? && OpenFormat(TheOpen(T, key, s).value)
  }

  /** A teller that has not opened, and refuses every request to open that is on its way. */
  ghost predicate ShutOut(T: Texts, key: string, s: System, d: Dest) {
    && d.ToTeller? && StateAt(s, d) <= 1
    && forall e :: (d, Open(e)) in s.net ==>
      e.teller.Some? && !Signed(key, TellerListText(T, e.teller.value), e.tellerSign)
  }

  /** A list that has outgrown its signature has a teller on it that nothing sent so far can open. */
  ghost predicate ShutOutOk(T: Texts, key: string, s: System) {
    s.auth.isTellerSign && !ListSigned(T, key, s.auth) ==>
      exists d :: d in Targets(s.auth.tellers) && ShutOut(T, key, s, d)
  }

  ghost predicate SignedOk(T: Texts, key: string, s: System) {
    SignsOk(T, key, s.auth) && RecordsOk(s) && FormatOk(T, key, s) && ShutOutOk(T, key, s)
  }

  lemma InitialSigned(T: Texts, key: string, s: System)
    requires Initial(s)
    ensures SignedOk(T, key, s)
  {
    NothingHeld(s);
  }

  lemma SameOpenText(T: Texts, a: Election, b: Election)
    requires SameFrozen(a, b) && a.voterCount == b.voterCount && a.voterSign == b.voterSign
    requires a.tellerSign == b.tellerSign && a.openTime == b.openTime
    ensures OpenText(T, a) == OpenText(T, b)
    ensures a.closeTime == b.closeTime ==> CloseText(T, a) == CloseText(T, b)
  {
    SameInfoText(T, a, b, 2);
    SameInfoText(T, a, b, 3);
  }

  lemma SignsAfterOpen(T: Texts, key: string, s: System)
    requires AuthOk(T, key, s) && s.pending.Opening? && SignsOk(T, key, s.auth)
    ensures SignsOk(T, key, Do(T, key, s, FinishOpen).auth)
  {
    hide InfoText, OpenText, CloseText, ClosesAt;
    var a, m := s.auth, s.pending.m;
    var time :| OpensAt(T, key, s, time);
    SameInfoText(T, a.e, AfterOpen(a, m, s.waiting == {}).e, 1);
    OpenSignAfter(T, key, a, m, time, s.waiting == {});
  }

  lemma OpenSignAfter(T: Texts, key: string, a: AuthRow, m: Election, time: int, ok: bool)
    requires OpenCopy(m) == OpenCopy(OpenRequest(T, key, a, time))
    requires a.e.openSign.Some? ==> a.e.openSign == Some(Token(key, OpenText(T, a.e))) && a.e.openTime.Some?
    ensures var e := AfterOpen(a, m, ok).e; e.openSign == Some(Token(key, OpenText(T, e))) && e.openTime.Some?
  {
    hide InfoText, OpenText;
    var r := OpenRequest(T, key, a, time);
    assert m.openTime == OpenCopy(m).openTime == r.openTime && m.openSign == OpenCopy(m).openSign == r.openSign;
    SameOpenText(T, Authority.Opened(a, time), AfterOpen(a, m, ok).e);
    if a.e.openSign.Some? {
      SameOpenText(T, a.e, AfterOpen(a, m, ok).e);
    }
  }

  lemma SignsAfterClose(T: Texts, key: string, s: System)
    requires AuthOk(T, key, s) && s.pending.Closing? && SignsOk(T, key, s.auth)
    ensures SignsOk(T, key, Do(T, key, s, FinishClose).auth)
  {
    var a, a' := s.auth, Do(T, key, s, FinishClose).auth;
    var time :| ClosesAt(T, key, s, time);
    hide InfoText, OpenText, CloseText;
    SameInfoText(T, a.e, a'.e, 1);
    SameOpenText(T, a.e, a'.e);
    SameOpenText(T, a.e.(state := 3, closeTime := Some(s.pending.time)), a'.e);
  }

  lemma SignsKeep(T: Texts, key: string, s: System, step: Step)
    requires Inv(T, key, s) && Enabled(s, step) && SignsOk(T, key, s.auth)
    ensures SignsOk(T, key, Do(T, key, s, step).auth)
  {
    hide NetOk, ServersOk, AskedOk, TellerListText, Sent, InfoText, OpenText, CloseText;
    var a, a' := s.auth, Do(T, key, s, step).auth;
    match step {
      case Freeze(time) =>
        SameInfoText(T, a.e.(freezeTime := Some(time)), a'.e, 1);
      case RegVoters(_, _) =>
        SameInfoText(T, a.e, a'.e, 1);
      case FreezeVoters(_) =>
        SameInfoText(T, a.e, a'.e, 1);
      case FreezeTellers =>
        SameInfoText(T, a.e, a'.e, 1);
      case FinishOpen =>
        SignsAfterOpen(T, key, s);
      case FinishClose =>
        SignsAfterClose(T, key, s);
      case _ =>
    }
  }

  lemma RecordsKeep(T: Texts, key: string, s: System, step: Step)
    requires Inv(T, key, s) && Enabled(s, step) && RecordsOk(s)
    ensures RecordsOk(Do(T, key, s, step))
  {
    hide Inv, OpenRequest, Known, Answer, Delivered;
    var s' := Do(T, key, s, step);
    if step.Deliver? {
      DeliverRecords(T, key, s, step.dest, step.msg, step.heard);
    } else {
      assert forall d :: At(s', d) == At(s, d);
      if step.RecordTeller? {
        RecordedKnown(s.auth, step.row, step.at);
      } else {
        assert s'.auth.tellers == s.auth.tellers;
      }
      forall addr | addr in s'.agreed || Known(s'.auth.tellers, addr) ensures StateAt(s', ToTeller(addr)) >= 1 {
        assert addr in s.agreed || Known(s.auth.tellers, addr);
      }
    }
  }

  lemma DeliverRecords(T: Texts, key: string, s: System, d: Dest, m: Msg, heard: bool)
    requires Inv(T, key, s) && (d, m) in s.net && RecordsOk(s)
    ensures RecordsOk(Delivered(T, key, s, d, m, heard))
  {
    hide Inv, InfoText, OpenText, CloseText, TellerListText, InfoFormat, OpenFormat;
    AnswerOk(T, key, s, d, m);
    DeliveredEffect(T, key, s, d, m, heard);
    DeliverStep(T, key, s, d, m, heard);
    var s' := Delivered(T, key, s, d, m, heard);
    forall addr | addr in s'.agreed || Known(s'.auth.tellers, addr) ensures StateAt(s', ToTeller(addr)) >= 1 {
      if addr !in s.agreed && !Known(s.auth.tellers, addr) {
        assert m.Register? && d == ToTeller(addr) && Answer(T, key, d, At(s, d), m).code == 0;
        assert TellerRegisters(T, key, At(s, d), m.e).code == 0;
      }
    }
  }

  lemma FormatKeeps(T: Texts, key: string, s: System, step: Step)
    requires Inv(T, key, s) && Enabled(s, step) && FormatOk(T, key, s)
    ensures FormatOk(T, key, Do(T, key, s, step))
  {
    hide Inv, OpenFormat, TheOpen, Delivered, OpenRequest;
    var s' := Do(T, key, s, step);
    if step.Deliver? {
      DeliverFormat(T, key, s, step.dest, step.msg, step.heard);
    } else {
      assert forall d :: At(s', d) == At(s, d);
      forall d | HasOpened(s', d) ensures TheOpen(T, key, s').Some? && OpenFormat(TheOpen(T, key, s').value) {
        assert HasOpened(s, d);
        RequestStays(T, key, s, step);
      }
    }
  }

  lemma FormatOfCopy(e: Election)
    ensures OpenFormat(OpenCopy(e)) <==> OpenFormat(e)
  {
    var c := OpenCopy(e);
    if OpenFormat(c) {
      assert forall i :: 0 <= i < |e.cand| ==> CandFormat(c, c.cand[i]) && CandFormat(e, e.cand[i]);
      assert forall i :: 0 <= i < |e.pos| ==> PosFormat(c, c.pos[i]) && PosFormat(e, e.pos[i]);
    }
    if OpenFormat(e) {
      assert forall i :: 0 <= i < |e.cand| ==> CandFormat(e, e.cand[i]) && CandFormat(c, c.cand[i]);
      assert forall i :: 0 <= i < |e.pos| ==> PosFormat(e, e.pos[i]) && PosFormat(c, c.pos[i]);
    }
  }

  /** Only a request of the right format makes a server open. */
  lemma OpensOnFormat(T: Texts, key: string, s: System, d: Dest, m: Msg)
    requires Inv(T, key, s) && (d, m) in s.net && !HasOpened(s, d)
    requires StateOf(Answer(T, key, d, At(s, d), m).stored) >= 2
    ensures m.Open? && OpenFormat(m.e) && TheOpen(T, key, s) == Some(OpenCopy(m.e))
  {
    hide OpenFormat, InfoFormat, SameAsRegistered, OpenSigned, TheOpen, TheClose, AuthOk, AskedOk, ServersOk, CloseText,
         TellerListText, OpenText, InfoText;
    assert RequestOk(T, key, s, d, m);
  }

  lemma DeliverFormat(T: Texts, key: string, s: System, d: Dest, m: Msg, heard: bool)
    requires Inv(T, key, s) && (d, m) in s.net && FormatOk(T, key, s)
    ensures FormatOk(T, key, Delivered(T, key, s, d, m, heard))
  {
    hide Inv, OpenFormat, Delivered, Answer, At, OpenCopy, OpenRequest;
    AnswerOk(T, key, s, d, m);
    DeliveredEffect(T, key, s, d, m, heard);
    var s' := Delivered(T, key, s, d, m, heard);
    forall c | HasOpened(s', c) ensures TheOpen(T, key, s').Some? && OpenFormat(TheOpen(T, key, s').value) {
      if !HasOpened(s, c) {
        assert c == d;
        OpensOnFormat(T, key, s, d, m);
        FormatOfCopy(m.e);
      }
    }
  }

  // ----- Who is shut out -----

  /** What a teller that is shut out answers. */
  lemma ShutOutAnswers(T: Texts, key: string, s: System, d: Dest, m: Msg)
    requires ShutOut(T, key, s, d) && (d, m) in s.net
    ensures StateOf(Answer(T, key, d, At(s, d), m).stored) <= 1
  {
    hide OpenFormat, InfoFormat, SameAsRegistered, TellerListText, OpenText, InfoText, CloseText;
  }

  lemma RequestText(T: Texts, key: string, a: AuthRow, time: int)
    ensures var m := OpenRequest(T, key, a, time);
      m.teller.Some? && (Signed(key, TellerListText(T, m.teller.value), m.tellerSign) <==> ListSigned(T, key, a))
  {
    TellerCopiesKeepText(T, a.tellers, |a.tellers|);
  }

  /** A teller stays shut out until a list whose text is the signed one is sent to it. */
  lemma ShutOutStays(T: Texts, key: string, s: System, step: Step, d: Dest)
    requires Inv(T, key, s) && Enabled(s, step) && ShutOut(T, key, s, d)
    requires step.StartOpen? ==> !ListSigned(T, key, s.auth)
    ensures ShutOut(T, key, Do(T, key, s, step), d)
  {
    hide Inv, OpenRequest, Answer, Delivered, TellerListText, Targets, ListSigned;
    var s' := Do(T, key, s, step);
    if step.Deliver? {
      AnswerOk(T, key, s, step.dest, step.msg);
      DeliveredEffect(T, key, s, step.dest, step.msg, step.heard);
      if step.dest == d {
        ShutOutAnswers(T, key, s, d, step.msg);
      }
    } else {
      assert At(s', d) == At(s, d);
      if step.StartOpen? {
        RequestText(T, key, s.auth, step.time);
      }
    }
  }

  lemma ShutOutKeeps(T: Texts, key: string, s: System, step: Step)
    requires Inv(T, key, s) && Enabled(s, step) && ShutOutOk(T, key, s)
    ensures ShutOutOk(T, key, Do(T, key, s, step))
  {
    hide Inv, OpenRequest, Answer, Delivered, TellerListText, ShutOut, Targets, InfoText, Known;
    var s' := Do(T, key, s, step);
    if s'.auth.isTellerSign && !ListSigned(T, key, s'.auth) {
      if RecordsNew(s, step) {
        NewIsShutOut(T, key, s, step);
      } else {
        OldList(T, key, s, step);
        var d :| d in Targets(s.auth.tellers) && ShutOut(T, key, s, d);
        ShutOutStays(T, key, s, step, d);
      }
    }
  }

  lemma OldList(T: Texts, key: string, s: System, step: Step)
    requires Inv(T, key, s) && Enabled(s, step) && !RecordsNew(s, step)
    requires Do(T, key, s, step).auth.isTellerSign && !ListSigned(T, key, Do(T, key, s, step).auth)
    ensures s.auth.isTellerSign && !ListSigned(T, key, s.auth) && Do(T, key, s, step).auth.tellers == s.auth.tellers
  {
    hide NetOk, ServersOk, AskedOk, OpenRequest, Answer, TellerListText, InfoText;
  }

  lemma NewIsShutOut(T: Texts, key: string, s: System, step: Step)
    requires Inv(T, key, s) && Enabled(s, step) && RecordsNew(s, step)
    ensures var s' := Do(T, key, s, step);
      exists d :: d in Targets(s'.auth.tellers) && ShutOut(T, key, s', d)
  {
    hide AuthOk, ServersOk, TellerListText;
    var s', d := Do(T, key, s, step), ToTeller(AddrOf(step.row));
    RecordedKnown(s.auth, step.row, step.at);
    assert d !in s.asked && PlaceOk(s, d);
    assert forall e :: (d, Open(e)) !in s.net;
    assert d in Targets(s'.auth.tellers) && ShutOut(T, key, s', d);
  }

  // ----- Signed states -----

  lemma StepSigned(T: Texts, key: string, s: System, step: Step)
    requires Inv(T, key, s) && SignedOk(T, key, s) && Enabled(s, step)
    ensures Inv(T, key, Do(T, key, s, step)) && SignedOk(T, key, Do(T, key, s, step))
  {
    hide Inv, Do, Enabled, SignsOk, RecordsOk, FormatOk, ShutOutOk;
    StepKeeps(T, key, s, step);
    SignsKeep(T, key, s, step);
    RecordsKeep(T, key, s, step);
    FormatKeeps(T, key, s, step);
    ShutOutKeeps(T, key, s, step);
  }

  lemma {:induction false} RunSigned(T: Texts, key: string, s: System, steps: seq<Step>)
    requires Inv(T, key, s) && SignedOk(T, key, s) && Possible(T, key, s, steps)
    ensures Inv(T, key, After(T, key, s, steps)) && SignedOk(T, key, After(T, key, s, steps))
    decreases |steps|
  {
    hide Inv, Do, Enabled, SignedOk;
    if steps != [] {
      StepSigned(T, key, s, steps[0]);
      RunSigned(T, key, Do(T, key, s, steps[0]), steps[1..]);
    }
  }

  /** All runs lead to such states. */
  lemma ReachableIsSigned(T: Texts, key: string, s0: System, steps: seq<Step>)
    requires Initial(s0) && Possible(T, key, s0, steps)
    ensures Inv(T, key, After(T, key, s0, steps)) && SignedOk(T, key, After(T, key, s0, steps))
  {
    hide Inv, SignedOk, Possible, After;
    InitialInv(T, key, s0);
    InitialSigned(T, key, s0);
    RunSigned(T, key, s0, steps);
  }

  // ----- The guard that is missing -----

  /** Tellers are recorded only while the list is open. The code does not ask for this. */
  ghost predicate Guarded(T: Texts, key: string, s: System, steps: seq<Step>)
    requires Possible(T, key, s, steps)
    decreases |steps|
  {
    steps != [] ==>
      (steps[0].RecordTeller? ==> TellersOpen(s.auth)) && Guarded(T, key, Do(T, key, s, steps[0]), steps[1..])
  }

  lemma {:induction false} GuardedRun(T: Texts, key: string, s: System, steps: seq<Step>)
    requires Inv(T, key, s) && Possible(T, key, s, steps) && Guarded(T, key, s, steps)
    requires s.auth.isTellerSign ==> ListSigned(T, key, s.auth)
    ensures var s' := After(T, key, s, steps); s'.auth.isTellerSign ==> ListSigned(T, key, s'.auth)
    ensures !RecordsLate(T, key, s, steps)
    decreases |steps|
  {
    hide Inv, Do, Enabled, ListSigned, Succeeds;
    if steps != [] {
      StepKeeps(T, key, s, steps[0]);
      GuardedStep(T, key, s, steps[0]);
      GuardedRun(T, key, Do(T, key, s, steps[0]), steps[1..]);
    }
  }

  lemma GuardedStep(T: Texts, key: string, s: System, step: Step)
    requires Inv(T, key, s) && Enabled(s, step) && (step.RecordTeller? ==> TellersOpen(s.auth))
    requires s.auth.isTellerSign ==> ListSigned(T, key, s.auth)
    ensures var s' := Do(T, key, s, step); s'.auth.isTellerSign ==> ListSigned(T, key, s'.auth)
    ensures TellersOpen(s.auth) ==> s.auth.e.state < 2 && !s.pending.Opening?
  {
    hide NetOk, ServersOk, AskedOk, OpenRequest, Answer, TellerListText, InfoText;
  }

  /** With that guard the authority would never be ahead of a server, and the signed list would be the list. */
  lemma GuardSuffices(T: Texts, key: string, s0: System, steps: seq<Step>)
    requires Initial(s0) && Possible(T, key, s0, steps) && Guarded(T, key, s0, steps)
    ensures NeverAhead(T, key, s0, steps)
    ensures var s := After(T, key, s0, steps); s.auth.isTellerSign ==> ListSigned(T, key, s.auth)
  {
    hide Inv, Possible, After, NeverAhead, RecordsLate, Guarded;
    InitialInv(T, key, s0);
    GuardedRun(T, key, s0, steps);
    LifecycleSafety(T, key, s0, steps);
  }
}

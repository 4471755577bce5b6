/** What an attempt to open or to close an election can achieve from any state a run can reach, whatever else happens
    while it is under way. */
module LifecycleAttempts {
  import opened Wrappers
  import opened ElectionInfo
  import opened Remotes
  import opened Authority
  import opened Lifecycle
  import opened LifecycleTheorems

  // ----- Attempts -----

  ghost predicate Unfinished(steps: seq<Step>) {
    FinishOpen !in steps && FinishClose !in steps
  }

  /** With these steps between its start and its end, the attempt opens the election. */
  ghost predicate OpensBy(T: Texts, key: string, s: System, time: int, steps: seq<Step>)
    requires Enabled(s, StartOpen(time))
  {
    var s1 := Do(T, key, s, StartOpen(time));
    && Unfinished(steps) && Possible(T, key, s1, steps) && Enabled(After(T, key, s1, steps), FinishOpen)
    && Do(T, key, After(T, key, s1, steps), FinishOpen).auth.e.state == 2
  }

  ghost predicate ClosesBy(T: Texts, key: string, s: System, time: int, steps: seq<Step>)
    requires Enabled(s, StartClose(time))
  {
    var s1 := Do(T, key, s, StartClose(time));
    && Unfinished(steps) && Possible(T, key, s1, steps) && Enabled(After(T, key, s1, steps), FinishClose)
    && Do(T, key, After(T, key, s1, steps), FinishClose).auth.e.state == 3
  }

  /** While an attempt is under way, answers arrive, registrations end and tellers are recorded. */
  lemma AttemptStep(T: Texts, key: string, s: System, step: Step)
    requires Inv(T, key, s) && Enabled(s, step) && !s.pending.Calm? && step != FinishOpen && step != FinishClose
    ensures step.EndCall? || step.RecordTeller? || step.Deliver?
    ensures var s' := Do(T, key, s, step);
      && s'.pending == s.pending && s'.asked == s.asked && s'.net == s.net && s'.waiting <= s.waiting
      && s'.auth.e == s.auth.e
      && (!step.Deliver? ==> s'.waiting == s.waiting)
  {
    hide NetOk, ServersOk, AskedOk, Answer, OpensAt, ClosesAt;
  }

  lemma {:induction false} AttemptRun(T: Texts, key: string, s: System, steps: seq<Step>)
    requires Inv(T, key, s) && Possible(T, key, s, steps) && !s.pending.Calm? && Unfinished(steps)
    ensures var s' := After(T, key, s, steps); s'.pending == s.pending && s'.asked == s.asked && s'.auth.e == s.auth.e
    decreases |steps|
  {
    hide Inv, Do, Enabled;
    if steps != [] {
      AttemptStep(T, key, s, steps[0]);
      StepKeeps(T, key, s, steps[0]);
      AttemptRun(T, key, Do(T, key, s, steps[0]), steps[1..]);
    }
  }

  /** Everyone the attempt asks, in the order of the list. */
  ghost function Everyone(tellers: seq<Teller>): (r: seq<Dest>)
    ensures forall d :: d in r <==> d in Targets(tellers)
  {
    var r := [ToBoard] + seq(|tellers|, i requires 0 <= i < |tellers| => ToTeller(AddrOf(tellers[i])));
    assert forall i :: 0 <= i < |tellers| ==>
      r[i + 1] == ToTeller(AddrOf(tellers[i])) && AddrOf(tellers[i]) == r[i + 1].addr;
    r
  }

  ghost function Deliveries(ds: seq<Dest>, m: Msg): (r: seq<Step>)
    ensures Unfinished(r) && forall d :: d in ds ==> Deliver(d, m, true) in r
    decreases |ds|
  {
    if ds == [] then [] else [Deliver(ds[0], m, true)] + Deliveries(ds[1..], m)
  }

  lemma {:induction false} CanDeliver(T: Texts, key: string, s: System, ds: seq<Dest>, m: Msg)
    requires forall d :: d in ds ==> (d, m) in s.net
    ensures Possible(T, key, s, Deliveries(ds, m))
    decreases |ds|
  {
    hide Answer;
    if ds != [] {
      var steps, s' := Deliveries(ds, m), Do(T, key, s, Deliver(ds[0], m, true));
      assert s'.net == s.net;
      CanDeliver(T, key, s', ds[1..], m);
      assert steps[0] == Deliver(ds[0], m, true) && steps[1..] == Deliveries(ds[1..], m);
    }
  }

  // ----- Opening -----

  lemma SignsUnderRequest(T: Texts, key: string, a: AuthRow, time: int)
    requires a.e.freezeSign == Some(Token(key, InfoText(T, a.e, 1))) && ListSigned(T, key, a)
    requires a.e.openSign.Some? ==> a.e.openSign == Some(Token(key, OpenText(T, a.e)))
    ensures OpenSigned(T, key, OpenRequest(T, key, a, time))
  {
    var m := OpenRequest(T, key, a, time);
    SameInfoText(T, m, a.e, 1);
    SameInfoText(T, m, Authority.Opened(a, time), 2);
    SameInfoText(T, a.e, Authority.Opened(a, time), 2);
    TellerCopiesKeepText(T, a.tellers, |a.tellers|);
  }

  /** An attempt to open that nothing but silence can stop. */
  ghost predicate GoodOpening(T: Texts, key: string, s: System, m: Election) {
    Inv(T, key, s) && SignedOk(T, key, s) && s.pending == Opening(m) && OpenFormat(m) && OpenSigned(T, key, m)
  }

  /** While an attempt to open is under way, the board has nothing or is open, and a teller it asks has the election. */
  lemma OpeningHolds(T: Texts, key: string, s: System, m: Election, d: Dest)
    requires GoodOpening(T, key, s, m) && d in s.asked
    ensures d.ToBoard? && At(s, d).Some? ==> At(s, d).value.state == 2
    ensures d.ToTeller? ==> At(s, d).Some? && At(s, d).value.state in {1, 2}
    ensures d.ToTeller? && At(s, d).value.state == 1 ==> SameAsRegistered(T, At(s, d).value, m)
  {
    hide NetOk, FormatOk, ShutOutOk, InfoFormat, TellerListText, SignsOk, OpenText, CloseText, InfoText, OpenFormat,
         OpenSigned;
    assert m.state == 2 by {
      OpenRequestState(T, key, s);
    }
    assert d.ToTeller? ==> Known(s.auth.tellers, d.addr) && StateAt(s, d) >= 1;
    assert At(s, d).Some? ==> HoldsOk(T, key, s, d, At(s, d).value);
    if d.ToTeller? && At(s, d).value.state == 1 {
      SameAsMine(T, key, s, At(s, d).value);
    }
  }

  lemma SameAsMine(T: Texts, key: string, s: System, e: Election)
    requires AuthOk(T, key, s) && s.pending.Opening? && FrozenCopy(e, s.auth.e)
    ensures SameAsRegistered(T, e, s.pending.m)
  {
    hide InfoText, OpenText, CloseText, ClosesAt;
    var m := s.pending.m;
    var time :| OpensAt(T, key, s, time);
    var r := OpenRequest(T, key, s.auth, time);
    assert SameFrozen(OpenCopy(m), m) && SameFrozen(OpenCopy(r), r) && SameFrozen(r, s.auth.e);
    assert m.freezeSign == OpenCopy(m).freezeSign == r.freezeSign == s.auth.e.freezeSign;
    SameInfoText(T, e, m, 1);
  }

  /** Whatever a server the attempt asks holds, it answers a good request to open with code 0. */
  lemma TargetOpens(T: Texts, key: string, s: System, m: Election, d: Dest)
    requires GoodOpening(T, key, s, m) && d in s.asked
    ensures Answer(T, key, d, At(s, d), Open(m)).code == 0
  {
    hide Inv, SignedOk, At, Targets, OpenText, InfoText, TellerListText, OpenFormat, OpenCopy, SameAsRegistered;
    OpeningHolds(T, key, s, m, d);
  }

  lemma OpeningStep(T: Texts, key: string, s: System, m: Election, step: Step)
    requires GoodOpening(T, key, s, m) && Enabled(s, step) && step != FinishOpen && step != FinishClose
    ensures var s' := Do(T, key, s, step);
      && GoodOpening(T, key, s', m) && s'.asked == s.asked && s'.waiting <= s.waiting
      && forall d :: step == Deliver(d, Open(m), true) ==> d !in s'.waiting
  {
    hide Inv, SignedOk, OpenFormat, OpenSigned, Delivered, Answer;
    AttemptStep(T, key, s, step);
    StepSigned(T, key, s, step);
    if step.Deliver? && step.msg == Open(m) {
      AskedOnly(T, key, s, step.dest, m);
      TargetOpens(T, key, s, m, step.dest);
      AnswerOk(T, key, s, step.dest, step.msg);
      DeliveredEffect(T, key, s, step.dest, step.msg, step.heard);
    }
  }

  lemma AskedOnly(T: Texts, key: string, s: System, d: Dest, m: Election)
    requires Inv(T, key, s) && (d, Open(m)) in s.net
    ensures d in s.asked
  {
    hide AuthOk, ServersOk, AskedOk;
    assert RequestOk(T, key, s, d, Open(m));
  }

  lemma {:induction false} OpeningRun(T: Texts, key: string, s: System, m: Election, steps: seq<Step>)
    requires GoodOpening(T, key, s, m) && Possible(T, key, s, steps) && Unfinished(steps)
    ensures var s' := After(T, key, s, steps);
      && GoodOpening(T, key, s', m) && s'.asked == s.asked && s'.waiting <= s.waiting
      && forall d :: Deliver(d, Open(m), true) in steps ==> d !in s'.waiting
    decreases |steps|
  {
    hide GoodOpening, Do, Enabled;
    if steps != [] {
      OpeningStep(T, key, s, m, steps[0]);
      OpeningRun(T, key, Do(T, key, s, steps[0]), m, steps[1..]);
    }
  }

  lemma StartsGood(T: Texts, key: string, s: System, time: int)
    requires Inv(T, key, s) && SignedOk(T, key, s) && Enabled(s, StartOpen(time))
    requires OpenFormat(OpenRequest(T, key, s.auth, time)) && ListSigned(T, key, s.auth)
    ensures GoodOpening(T, key, Do(T, key, s, StartOpen(time)), OpenRequest(T, key, s.auth, time))
  {
    hide Inv, RecordsOk, FormatOk, ShutOutOk, OpenFormat, OpenSigned, OpenRequest, ListSigned, InfoText, OpenText,
         CloseText;
    StepSigned(T, key, s, StartOpen(time));
    SignsUnderRequest(T, key, s.auth, time);
  }

  /** From every reachable state, however far earlier attempts have got and whatever happens in between: an attempt to
      open whose request has the right format and carries the signed list, and in which every server is reached and
      heard, opens the election at the authority and at all of them. */
  lemma OpenCompletes(T: Texts, key: string, s: System, time: int, steps: seq<Step>)
    requires Inv(T, key, s) && SignedOk(T, key, s) && Enabled(s, StartOpen(time))
    requires OpenFormat(OpenRequest(T, key, s.auth, time)) && ListSigned(T, key, s.auth)
    requires Unfinished(steps) && Possible(T, key, Do(T, key, s, StartOpen(time)), steps)
    requires forall d :: d in Targets(s.auth.tellers) ==>
      Deliver(d, Open(OpenRequest(T, key, s.auth, time)), true) in steps
    ensures OpensBy(T, key, s, time, steps)
    ensures var s' := Do(T, key, After(T, key, Do(T, key, s, StartOpen(time)), steps), FinishOpen);
      forall d :: d in Targets(s.auth.tellers) ==> StateAt(s', d) >= 2
  {
    hide Inv, SignedOk, OpenFormat, OpenSigned, OpenRequest, ListSigned, Possible, After, Unfinished;
    var m, s1 := OpenRequest(T, key, s.auth, time), Do(T, key, s, StartOpen(time));
    StartsGood(T, key, s, time);
    OpeningRun(T, key, s1, m, steps);
    var s2 := After(T, key, s1, steps);
    assert s1.waiting == s1.asked == Targets(s.auth.tellers);
    assert s2.waiting == {};
    AllAnswered(T, key, s2);
    assert forall d :: At(Do(T, key, s2, FinishOpen), d) == At(s2, d);
  }

  lemma AllAnswered(T: Texts, key: string, s: System)
    requires Inv(T, key, s) && s.waiting == {}
    ensures forall d :: d in s.asked ==>
      (s.pending.Opening? ==> StateAt(s, d) >= 2) && (s.pending.Closing? ==> StateAt(s, d) >= 3)
  {
    hide AuthOk, NetOk, ServersOk, StateAt;
    forall d | d in s.asked
      ensures (s.pending.Opening? ==> StateAt(s, d) >= 2) && (s.pending.Closing? ==> StateAt(s, d) >= 3)
    {
      assert PlaceOk(s, d);
    }
  }

  // ----- When an attempt to open can succeed -----

  lemma {:induction false} ShutOutRun(T: Texts, key: string, s: System, steps: seq<Step>, d: Dest)
    requires Inv(T, key, s) && Possible(T, key, s, steps) && !s.pending.Calm? && Unfinished(steps)
    requires ShutOut(T, key, s, d)
    ensures ShutOut(T, key, After(T, key, s, steps), d)
    decreases |steps|
  {
    hide Inv, Do, Enabled, ShutOut;
    if steps != [] {
      AttemptStep(T, key, s, steps[0]);
      StepKeeps(T, key, s, steps[0]);
      ShutOutStays(T, key, s, steps[0], d);
      ShutOutRun(T, key, Do(T, key, s, steps[0]), steps[1..], d);
    }
  }

  lemma OpenedHadList(T: Texts, key: string, s: System, time: int, steps: seq<Step>)
    requires Inv(T, key, s) && SignedOk(T, key, s) && Enabled(s, StartOpen(time)) && OpensBy(T, key, s, time, steps)
    ensures ListSigned(T, key, s.auth)
  {
    hide Inv, SignedOk, ListSigned, ShutOut, Possible, After, OpenRequest, Targets;
    if !ListSigned(T, key, s.auth) {
      SomeoneShutOut(T, key, s);
      var d :| d in Targets(s.auth.tellers) && ShutOut(T, key, s, d);
      var s1 := Do(T, key, s, StartOpen(time));
      var s2 := After(T, key, s1, steps);
      StepKeeps(T, key, s, StartOpen(time));
      ShutOutStays(T, key, s, StartOpen(time), d);
      ShutOutRun(T, key, s1, steps, d);
      AttemptRun(T, key, s1, steps);
      RunKeeps(T, key, s1, steps);
      AllAnswered(T, key, s2);
      ShutOutState(T, key, s2, d);
      assert false;
    }
  }

  lemma SomeoneShutOut(T: Texts, key: string, s: System)
    requires SignedOk(T, key, s) && MayOpen(s.auth) && !ListSigned(T, key, s.auth)
    ensures exists d :: d in Targets(s.auth.tellers) && ShutOut(T, key, s, d)
  {
  }

  lemma ShutOutState(T: Texts, key: string, s: System, d: Dest)
    requires ShutOut(T, key, s, d)
    ensures StateAt(s, d) <= 1
  {
  }

  lemma OpenedHadFormat(T: Texts, key: string, s: System, time: int, steps: seq<Step>)
    requires Inv(T, key, s) && SignedOk(T, key, s) && Enabled(s, StartOpen(time)) && OpensBy(T, key, s, time, steps)
    ensures OpenFormat(OpenRequest(T, key, s.auth, time))
  {
    hide Inv, SignedOk, Possible, After, OpenRequest, OpenFormat, OpenCopy, TheOpen;
    var s1 := Do(T, key, s, StartOpen(time));
    var s2 := After(T, key, s1, steps);
    StepSigned(T, key, s, StartOpen(time));
    StartOpenTalk(T, key, s, time);
    RunSigned(T, key, s1, steps);
    RunTalk(T, key, s1, steps);
    StepSigned(T, key, s2, FinishOpen);
    RequestStays(T, key, s2, FinishOpen);
    OpenHasFormat(T, key, Do(T, key, s2, FinishOpen));
    FormatOfCopy(OpenRequest(T, key, s.auth, time));
  }

  lemma OpenHasFormat(T: Texts, key: string, s: System)
    requires Inv(T, key, s) && SignedOk(T, key, s) && s.auth.e.state >= 2
    ensures TheOpen(T, key, s).Some? && OpenFormat(TheOpen(T, key, s).value)
  {
    hide TheOpen, NetOk, ServersOk, SignsOk, RecordsOk, ShutOutOk, OpenFormat;
    assert PlaceOk(s, ToBoard);
    assert HasOpened(s, ToBoard);
  }

  /** From every reachable state, an attempt to open can succeed exactly if its request has the format the servers ask
      for and the list of tellers has not outgrown the signature over it. */
  lemma OpensIff(T: Texts, key: string, s: System, time: int)
    requires Inv(T, key, s) && SignedOk(T, key, s) && Enabled(s, StartOpen(time))
    ensures (exists steps :: OpensBy(T, key, s, time, steps)) <==>
      OpenFormat(OpenRequest(T, key, s.auth, time)) && ListSigned(T, key, s.auth)
  {
    hide Inv, SignedOk, OpenFormat, ListSigned, OpensBy, Possible, OpenRequest, Targets;
    var m, s1 := OpenRequest(T, key, s.auth, time), Do(T, key, s, StartOpen(time));
    if OpenFormat(m) && ListSigned(T, key, s.auth) {
      var steps := Deliveries(Everyone(s.auth.tellers), Open(m));
      CanDeliver(T, key, s1, Everyone(s.auth.tellers), Open(m));
      OpenCompletes(T, key, s, time, steps);
    }
    forall steps | OpensBy(T, key, s, time, steps) ensures OpenFormat(m) && ListSigned(T, key, s.auth) {
      OpenedHadFormat(T, key, s, time, steps);
      OpenedHadList(T, key, s, time, steps);
    }
  }

  /** The format of the request is that of the frozen election, and the opening time, fixed by the first attempt, must
      come after the freezing time. */
  lemma RequestFormat(T: Texts, key: string, s: System, time: int)
    requires Inv(T, key, s) && SignedOk(T, key, s) && MayOpen(s.auth)
    ensures OpenFormat(OpenRequest(T, key, s.auth, time)) <==>
      && InfoFormat(s.auth.e) && s.auth.e.voterCount.Some? && s.auth.e.voterCount.value >= 0
      && (if s.auth.e.openSign.Some? then s.auth.e.openTime.value else time) > s.auth.e.freezeTime.value
  {
    hide InfoText, OpenText, TellerListText, CloseText, Inv, RecordsOk, FormatOk, ShutOutOk;
    var m := OpenRequest(T, key, s.auth, time);
    assert forall i :: 0 <= i < |m.cand| ==> (CandFormat(m, m.cand[i]) <==> CandFormat(s.auth.e, m.cand[i]));
    assert forall i :: 0 <= i < |m.pos| ==> (PosFormat(m, m.pos[i]) <==> PosFormat(s.auth.e, m.pos[i]));
  }

  /** The first attempt to open is over, has failed, and has fixed an opening time that is not after the freezing
      time. */
  ghost predicate Stuck(s: System) {
    && s.pending.Calm? && s.auth.e.state == 1 && s.auth.e.openSign.Some? && s.auth.e.openTime.Some?
    && s.auth.e.freezeTime.Some? && s.auth.e.openTime.value <= s.auth.e.freezeTime.value
  }

  /** From then on the election never opens. */
  lemma StuckForever(T: Texts, key: string, s: System, steps: seq<Step>)
    requires Inv(T, key, s) && SignedOk(T, key, s) && Stuck(s) && Possible(T, key, s, steps)
    ensures After(T, key, s, steps).auth.e.state == 1
  {
    hide Inv, SignedOk, Possible, After, OpenFormat, TheOpen;
    RunSigned(T, key, s, steps);
    StuckRequest(T, key, s);
    RunTalk(T, key, s, steps);
    RunKeeps(T, key, s, steps);
    var s' := After(T, key, s, steps);
    if s'.auth.e.state >= 2 {
      OpenHasFormat(T, key, s');
      assert false;
    }
  }

  lemma StuckRequest(T: Texts, key: string, s: System)
    requires Stuck(s)
    ensures TheOpen(T, key, s).Some? && !OpenFormat(TheOpen(T, key, s).value)
  {
  }

  // ----- Closing -----

  ghost predicate GoodClosing(T: Texts, key: string, s: System, time: int, sign: Token) {
    Inv(T, key, s) && SignedOk(T, key, s) && s.pending == Closing(time, sign)
  }

  /** The signature over the authority's own record is the one a server checks over its copy. */
  lemma CloseSignFits(T: Texts, key: string, s: System, time: int, sign: Token, d: Dest)
    requires GoodClosing(T, key, s, time, sign) && d in s.asked
    ensures At(s, d).Some? && At(s, d).value.state in {2, 3}
    ensures At(s, d).value.state == 2 ==> sign == Token(key, CloseText(T, Closed(At(s, d).value, time, sign)))
  {
    hide NetOk, FormatOk, ShutOutOk, RecordsOk, Targets, InfoText, OpenText, TellerListText, CloseText;
    assert PlaceOk(s, d);
    var e := At(s, d).value;
    assert HoldsOk(T, key, s, d, e);
    if e.state == 2 {
      var t0 :| ClosesAt(T, key, s, t0);
      var mine := s.auth.e.(state := 3, closeTime := Some(time));
      SameOpenText(T, Closed(e, time, sign), mine);
      if s.auth.e.closeSign.Some? {
        SameOpenText(T, s.auth.e, mine);
      }
    }
  }

  lemma TargetCloses(T: Texts, key: string, s: System, time: int, sign: Token, d: Dest)
    requires GoodClosing(T, key, s, time, sign) && d in s.asked
    ensures Answer(T, key, d, At(s, d), Close(time, sign)).code == 0
  {
    hide Inv, SignedOk, CloseText, Targets, At;
    CloseSignFits(T, key, s, time, sign, d);
  }

  lemma ClosingStep(T: Texts, key: string, s: System, time: int, sign: Token, step: Step)
    requires GoodClosing(T, key, s, time, sign) && Enabled(s, step) && step != FinishOpen && step != FinishClose
    ensures var s' := Do(T, key, s, step);
      && GoodClosing(T, key, s', time, sign) && s'.asked == s.asked && s'.waiting <= s.waiting
      && forall d :: step == Deliver(d, Close(time, sign), true) && d in s.asked ==> d !in s'.waiting
  {
    hide Inv, SignedOk, Delivered, Answer;
    AttemptStep(T, key, s, step);
    StepSigned(T, key, s, step);
    if step.Deliver? && step.msg == Close(time, sign) && step.dest in s.asked {
      TargetCloses(T, key, s, time, sign, step.dest);
      AnswerOk(T, key, s, step.dest, step.msg);
      DeliveredEffect(T, key, s, step.dest, step.msg, step.heard);
    }
  }

  lemma {:induction false} ClosingRun(T: Texts, key: string, s: System, time: int, sign: Token, steps: seq<Step>)
    requires GoodClosing(T, key, s, time, sign) && Possible(T, key, s, steps) && Unfinished(steps)
    ensures var s' := After(T, key, s, steps);
      && GoodClosing(T, key, s', time, sign) && s'.asked == s.asked && s'.waiting <= s.waiting
      && forall d :: Deliver(d, Close(time, sign), true) in steps && d in s.asked ==> d !in s'.waiting
    decreases |steps|
  {
    hide GoodClosing, Do, Enabled;
    if steps != [] {
      ClosingStep(T, key, s, time, sign, steps[0]);
      ClosingRun(T, key, Do(T, key, s, steps[0]), time, sign, steps[1..]);
    }
  }

  ghost function CloseRequest(T: Texts, key: string, a: AuthRow, time: int): (m: Msg) {
    Close(CloseTime(a, time), CloseSign(T, key, a, time))
  }

  /** From every reachable state in which everyone on the list has opened, an attempt to close in which every server
      is reached and heard closes the election at the authority and at all of them, however far earlier attempts have
      got and whatever happens in between: the copies the servers keep have every field the signed text reads. */
  lemma CloseCompletes(T: Texts, key: string, s: System, time: int, steps: seq<Step>)
    requires Inv(T, key, s) && SignedOk(T, key, s) && Enabled(s, StartClose(time)) && NotAhead(s)
    requires Unfinished(steps) && Possible(T, key, Do(T, key, s, StartClose(time)), steps)
    requires forall d :: d in Targets(s.auth.tellers) ==> Deliver(d, CloseRequest(T, key, s.auth, time), true) in steps
    ensures ClosesBy(T, key, s, time, steps)
    ensures var s' := Do(T, key, After(T, key, Do(T, key, s, StartClose(time)), steps), FinishClose);
      forall d :: d in Targets(s.auth.tellers) ==> StateAt(s', d) >= 3
  {
    hide Inv, SignedOk, Possible, After, Unfinished, CloseTime, CloseSign, NotAhead;
    var s1 := Do(T, key, s, StartClose(time));
    StepSigned(T, key, s, StartClose(time));
    AheadIff(T, key, s);
    ClosingRun(T, key, s1, CloseTime(s.auth, time), CloseSign(T, key, s.auth, time), steps);
    var s2 := After(T, key, s1, steps);
    assert s1.waiting == Targets(s.auth.tellers) && Targets(s.auth.tellers) <= s1.asked;
    assert s2.waiting == {};
    AllAnswered(T, key, s2);
    assert forall d :: At(Do(T, key, s2, FinishClose), d) == At(s2, d);
  }

  lemma {:induction false} SilentRun(T: Texts, key: string, s: System, steps: seq<Step>, d: Dest)
    requires Inv(T, key, s) && Possible(T, key, s, steps) && s.pending.Closing? && Unfinished(steps)
    requires d !in s.asked && d in s.waiting
    ensures d in After(T, key, s, steps).waiting
    decreases |steps|
  {
    hide Inv, Do, Enabled;
    if steps != [] {
      AttemptStep(T, key, s, steps[0]);
      StepKeeps(T, key, s, steps[0]);
      SilentStep(T, key, s, steps[0], d);
      SilentRun(T, key, Do(T, key, s, steps[0]), steps[1..], d);
    }
  }

  /** A server that was never asked to open does not agree to close. */
  lemma SilentStep(T: Texts, key: string, s: System, step: Step, d: Dest)
    requires Inv(T, key, s) && Enabled(s, step) && s.pending.Closing? && step != FinishOpen && step != FinishClose
    requires d !in s.asked && d in s.waiting
    ensures d in Do(T, key, s, step).waiting
  {
    hide Inv, Delivered, Answer;
    AttemptStep(T, key, s, step);
    if step.Deliver? {
      AnswerOk(T, key, s, step.dest, step.msg);
      DeliveredEffect(T, key, s, step.dest, step.msg, step.heard);
    }
  }

  lemma ClosedWasOpen(T: Texts, key: string, s: System, time: int, steps: seq<Step>)
    requires Inv(T, key, s) && Enabled(s, StartClose(time)) && ClosesBy(T, key, s, time, steps)
    ensures NotAhead(s)
  {
    hide Inv, Possible, After, CloseTime, CloseSign, NotAhead, Targets;
    AheadIff(T, key, s);
    if Unasked(s) {
      var d :| d in Targets(s.auth.tellers) && d !in s.asked;
      StepKeeps(T, key, s, StartClose(time));
      SilentRun(T, key, Do(T, key, s, StartClose(time)), steps, d);
      assert false;
    }
  }

  /** From every reachable state in which the authority has opened the election, an attempt to close can succeed
      exactly if everyone on the list has opened it too. */
  lemma ClosesIff(T: Texts, key: string, s: System, time: int)
    requires Inv(T, key, s) && SignedOk(T, key, s) && Enabled(s, StartClose(time))
    ensures (exists steps :: ClosesBy(T, key, s, time, steps)) <==> NotAhead(s)
  {
    hide Inv, SignedOk, ClosesBy, Possible, CloseTime, CloseSign, Targets, NotAhead;
    if NotAhead(s) {
      var m, ds := CloseRequest(T, key, s.auth, time), Everyone(s.auth.tellers);
      CanDeliver(T, key, Do(T, key, s, StartClose(time)), ds, m);
      CloseCompletes(T, key, s, time, Deliveries(ds, m));
    }
    forall steps | ClosesBy(T, key, s, time, steps) ensures NotAhead(s) {
      ClosedWasOpen(T, key, s, time, steps);
    }
  }
}

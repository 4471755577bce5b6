/** Runs of an election that end badly, from the start: a teller recorded too late, a list that has outgrown its
    signature, an opening time that is too early. */
module LifecycleHarms {
  import opened Wrappers
  import opened ElectionInfo
  import opened Remotes
  import opened Authority
  import opened Lifecycle
  import opened LifecycleTheorems
  import opened LifecycleAttempts

  function Blank(): Election {
    Election(1, "", 0, 1, 0, None, None, [], [], [], Some(0), None, None, None, None, None, None, None)
  }

  function Start(): System {
    System(AuthRow(Blank(), false, false, [], {}), Calm, {}, {}, None, map[], {}, {}, {})
  }

  lemma StartIsInitial()
    ensures Initial(Start())
  {
  }

  /** Steps and the states they lead through. */
  lemma {:induction false} Chain(T: Texts, key: string, states: seq<System>, steps: seq<Step>)
    requires |states| == |steps| + 1
    requires forall i :: 0 <= i < |steps| ==>
      Enabled(states[i], steps[i]) && states[i + 1] == Do(T, key, states[i], steps[i])
    ensures Possible(T, key, states[0], steps) && After(T, key, states[0], steps) == states[|steps|]
  {
    hide Do, Enabled;
    if steps != [] {
      assert forall i :: 0 <= i < |steps[1..]| ==> states[1..][i] == states[i + 1] && steps[1..][i] == steps[i + 1];
      Chain(T, key, states[1..], steps[1..]);
    }
  }

  // ----- Up to a registration that is half done -----

  /** A teller has accepted the election, and the authority has not heard of it yet or has not written it down. */
  ghost predicate HalfRegistered(T: Texts, key: string, s: System, addr: Addr) {
    && s.auth.e == Blank().(state := 1, freezeTime := Some(1), freezeSign := s.auth.e.freezeSign,
                            voterSign := s.auth.e.voterSign)
    && s.auth.e.freezeSign == Some(Token(key, InfoText(T, s.auth.e, 1))) && s.auth.e.voterSign.Some?
    && s.auth.isVoterSign && !s.auth.isTellerSign && s.auth.tellers == []
    && s.pending.Calm? && s.board.None? && addr in s.agreed && addr in s.remote && s.remote[addr].state == 1
  }

  /** The steps that lead there, and the states in between. */
  lemma HalfRegister(T: Texts, key: string, addr: Addr, sign: Token) returns (states: seq<System>, steps: seq<Step>)
    ensures |states| == 5 && |steps| == 4 && states[0] == Start()
    ensures forall i :: 0 <= i < 4 ==> Enabled(states[i], steps[i]) && states[i + 1] == Do(T, key, states[i], steps[i])
    ensures HalfRegistered(T, key, states[4], addr)
  {
    hide OpenText, TellerListText, CloseText;
    var s1 := Do(T, key, Start(), Freeze(1));
    var s2 := Do(T, key, s1, FreezeVoters(sign));
    var s3 := Do(T, key, s2, CallTeller(addr));
    var e := InfoCopy(s2.auth.e);
    var step := Deliver(ToTeller(addr), Register(e), true);
    SameInfoText(T, e, s1.auth.e, 1);
    SameInfoText(T, Blank().(freezeTime := Some(1)), s1.auth.e, 1);
    hide InfoText;
    assert TellerRegisters(T, key, None, e) == Reply(0, Some(InfoCopy(e)));
    var s4 := Do(T, key, s3, step);
    states, steps := [Start(), s1, s2, s3, s4], [Freeze(1), FreezeVoters(sign), CallTeller(addr), step];
  }

  lemma BlankOpens(T: Texts, key: string, s: System, addr: Addr)
    requires HalfRegistered(T, key, s, addr)
    ensures var a := TellersFrozen(T, key, s.auth); var o := OpenRequest(T, key, a, 2);
      MayOpen(a) && ListSigned(T, key, a) && OpenFormat(o) && OpenSigned(T, key, o)
  {
    hide OpenText, TellerListText, CloseText;
    var a := TellersFrozen(T, key, s.auth);
    SameInfoText(T, s.auth.e, a.e, 1);
    hide InfoText;
    SignsUnderRequest(T, key, a, 2);
    assert OpenFormat(OpenRequest(T, key, a, 2));
  }

  // ----- Recorded after the opening -----

  /** An attempt to open under way, with nobody but the board to ask, and everything it asks for in order. */
  ghost predicate AsksBoard(T: Texts, key: string, s: System, addr: Addr, o: Election) {
    && s.pending == Opening(o) && s.waiting == {ToBoard} && (ToBoard, Open(o)) in s.net && s.board.None?
    && BoardOpens(T, key, None, o).code == 0
    && s.auth.tellers == [] && addr in s.agreed && addr in s.remote && s.remote[addr].state == 1
  }

  lemma StartWithout(T: Texts, key: string, s4: System, addr: Addr) returns (s5: System, s6: System, o: Election)
    requires HalfRegistered(T, key, s4, addr)
    ensures Enabled(s4, FreezeTellers) && s5 == Do(T, key, s4, FreezeTellers)
    ensures Enabled(s5, StartOpen(2)) && s6 == Do(T, key, s5, StartOpen(2))
    ensures AsksBoard(T, key, s6, addr, o)
  {
    hide OpenFormat, OpenSigned, InfoText, OpenRequest;
    BlankOpens(T, key, s4, addr);
    s5 := Do(T, key, s4, FreezeTellers);
    o := OpenRequest(T, key, s5.auth, 2);
    RequestText(T, key, s5.auth, 2);
    s6 := Do(T, key, s5, StartOpen(2));
    assert s6.waiting == {ToBoard};
  }

  lemma FinishWithout(T: Texts, key: string, s6: System, addr: Addr, o: Election) returns (s7: System, s8: System,
                      step: Step)
    requires AsksBoard(T, key, s6, addr, o)
    ensures Enabled(s6, step) && s7 == Do(T, key, s6, step)
    ensures Enabled(s7, FinishOpen) && s8 == Do(T, key, s7, FinishOpen)
    ensures s8.auth.e.state == 2 && s8.auth.tellers == []
    ensures addr in s8.agreed && addr in s8.remote && s8.remote[addr].state == 1
  {
    hide BoardOpens;
    step := Deliver(ToBoard, Open(o), true);
    s7 := Do(T, key, s6, step);
    assert s7.waiting == {};
    s8 := Do(T, key, s7, FinishOpen);
  }

  lemma RecordLate(T: Texts, key: string, s8: System, t: Teller) returns (s9: System)
    requires s8.auth.e.state == 2 && s8.auth.tellers == []
    requires AddrOf(t) in s8.agreed && AddrOf(t) in s8.remote && s8.remote[AddrOf(t)].state == 1
    ensures Enabled(s8, RecordTeller(t, 0)) && s9 == Do(T, key, s8, RecordTeller(t, 0)) && !NotAhead(s9)
  {
    s9 := Do(T, key, s8, RecordTeller(t, 0));
    assert s9.auth.tellers == [t];
    assert Known(s9.auth.tellers, AddrOf(t)) by {
      assert AddrOf(s9.auth.tellers[0]) == AddrOf(t);
    }
    assert ToTeller(AddrOf(t)) in Targets(s9.auth.tellers);
    assert StateAt(s9, ToTeller(AddrOf(t))) == 1;
  }

  /** A teller whose registration is still under way when the list is frozen can end up on the list after the election
      has been opened without it: the authority is in state 2 and a registered teller in state 1. */
  lemma LateRegistration(T: Texts, key: string)
    ensures Initial(Start())
    ensures exists steps :: Possible(T, key, Start(), steps) && !NotAhead(After(T, key, Start(), steps))
  {
    hide Do, Enabled, Possible, After, NotAhead, Start, HalfRegistered, AsksBoard;
    StartIsInitial();
    var t, sign := Teller(1, "http:", "t", 1, 1, 0, "k", ""), Token(key, "voters");
    var states, steps := HalfRegister(T, key, AddrOf(t), sign);
    var s5, s6, o := StartWithout(T, key, states[4], AddrOf(t));
    var s7, s8, step7 := FinishWithout(T, key, s6, AddrOf(t), o);
    var s9 := RecordLate(T, key, s8, t);
    var more := [FreezeTellers, StartOpen(2), step7, FinishOpen, RecordTeller(t, 0)];
    Chain(T, key, states + [s5, s6, s7, s8, s9], steps + more);
  }

  // ----- Recorded before the opening -----

  /** Worse: if it is recorded before the first attempt to open, the list is no longer the signed one. The board
      refuses a request of the right format, and no attempt from there opens the election. */
  lemma LateRefusal(T: Texts, key: string, t: Teller, sign: Token) returns (steps: seq<Step>)
    requires TellerListText(T, [t]) != TellerListText(T, [])
    ensures Possible(T, key, Start(), steps)
    ensures var s := After(T, key, Start(), steps); var o := OpenRequest(T, key, s.auth, 2);
      && MayOpen(s.auth) && OpenFormat(o) && BoardOpens(T, key, None, o).code == -6
      && forall time, between :: Enabled(s, StartOpen(time)) ==> !OpensBy(T, key, s, time, between)
  {
    hide Do, Enabled, Possible, After, Start, HalfRegistered, OpenFormat, OpenRequest, TellerListText, OpensBy, MayOpen,
         Inv,
         SignedOk, ListSigned, BoardOpens;
    var states;
    states, steps := HalfRegister(T, key, AddrOf(t), sign);
    var s5, s6 := OutgrowList(T, key, states[4], t);
    Chain(T, key, states + [s5, s6], steps + [FreezeTellers, RecordTeller(t, 0)]);
    steps := steps + [FreezeTellers, RecordTeller(t, 0)];
    StartIsInitial();
    ReachableIsSigned(T, key, Start(), steps);
    forall time, between | Enabled(s6, StartOpen(time)) ensures !OpensBy(T, key, s6, time, between) {
      OpensIff(T, key, s6, time);
    }
  }

  lemma OutgrowList(T: Texts, key: string, s4: System, t: Teller) returns (s5: System, s6: System)
    requires HalfRegistered(T, key, s4, AddrOf(t)) && TellerListText(T, [t]) != TellerListText(T, [])
    ensures Enabled(s4, FreezeTellers) && s5 == Do(T, key, s4, FreezeTellers)
    ensures Enabled(s5, RecordTeller(t, 0)) && s6 == Do(T, key, s5, RecordTeller(t, 0))
    ensures MayOpen(s6.auth) && OpenFormat(OpenRequest(T, key, s6.auth, 2)) && !ListSigned(T, key, s6.auth)
    ensures BoardOpens(T, key, None, OpenRequest(T, key, s6.auth, 2)).code == -6
  {
    hide InfoText, TellerListText, OpenText;
    s5 := Do(T, key, s4, FreezeTellers);
    s6 := Do(T, key, s5, RecordTeller(t, 0));
    assert s6.auth.tellers == [t];
    RequestText(T, key, s6.auth, 2);
  }

  /** With texts that keep what they are made of, any teller makes that difference. */
  lemma ListsDiffer(t: Teller)
    ensures var T := Texts(i => "0", sign => "s", (a, b) => a + b); TellerListText(T, [t]) != TellerListText(T, [])
  {
    var T := Texts(i => "0", sign => "s", (a, b) => a + b);
    assert TellersText(T, [t], 1) == TellersText(T, [t], 0) + TellerText(T, t);
  }

  // ----- Opened too early -----

  lemma GetsStuck(T: Texts, key: string, sign: Token) returns (s1: System, s2: System, s3: System, s4: System,
                                                               s5: System)
    ensures Enabled(Start(), Freeze(1)) && s1 == Do(T, key, Start(), Freeze(1))
    ensures Enabled(s1, FreezeVoters(sign)) && s2 == Do(T, key, s1, FreezeVoters(sign))
    ensures Enabled(s2, FreezeTellers) && s3 == Do(T, key, s2, FreezeTellers)
    ensures Enabled(s3, StartOpen(1)) && s4 == Do(T, key, s3, StartOpen(1))
    ensures Enabled(s4, FinishOpen) && s5 == Do(T, key, s4, FinishOpen)
    ensures Stuck(s5)
  {
    hide InfoText, OpenText, TellerListText;
    s1 := Do(T, key, Start(), Freeze(1));
    s2 := Do(T, key, s1, FreezeVoters(sign));
    s3 := Do(T, key, s2, FreezeTellers);
    s4 := Do(T, key, s3, StartOpen(1));
    assert ToBoard in s4.waiting;
    s5 := Do(T, key, s4, FinishOpen);
  }

  /** A first attempt to open in the second of the freezing, with a board that does not answer, is enough to get
      stuck. */
  lemma StuckReached(T: Texts, key: string, sign: Token) returns (steps: seq<Step>)
    ensures Possible(T, key, Start(), steps) && Stuck(After(T, key, Start(), steps))
    ensures forall more :: Possible(T, key, After(T, key, Start(), steps), more) ==>
      After(T, key, After(T, key, Start(), steps), more).auth.e.state == 1
  {
    hide Do, Enabled, Possible, After, Inv, SignedOk, Stuck, Start;
    var s1, s2, s3, s4, s5 := GetsStuck(T, key, sign);
    steps := [Freeze(1), FreezeVoters(sign), FreezeTellers, StartOpen(1), FinishOpen];
    Chain(T, key, [Start(), s1, s2, s3, s4, s5], steps);
    StartIsInitial();
    ReachableIsSigned(T, key, Start(), steps);
    forall more | Possible(T, key, s5, more) ensures After(T, key, s5, more).auth.e.state == 1 {
      StuckForever(T, key, s5, more);
    }
  }
}

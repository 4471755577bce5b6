/** The life of an election across the authority, the bulletin board and the tellers. Requests may be lost, late or
    repeated, and so may the answers; the authority runs one attempt to open or close at a time, and writes down its
    outcome at the end of it. */
module Lifecycle {
  import opened Wrappers
  import opened ElectionInfo
  import opened Remotes
  import opened Authority

  datatype Dest = ToBoard | ToTeller(addr: Addr)

  /** An attempt to open or close that is under way. */
  datatype Pending = Calm | Opening(m: Election) | Closing(time: int, sign: Token)

  /** net holds every request ever sent: any of them may still arrive, any number of times. waiting are the servers the
      attempt has had no good answer from, asked those the last attempt to open sent its request to. calls are the
      registrations under way, agreed those the teller has accepted. */
  datatype System = System(
    auth: AuthRow, pending: Pending, waiting: set<Dest>, asked: set<Dest>,
    board: Option<Election>, remote: map<Addr, Election>,
    net: set<(Dest, Msg)>, calls: set<Addr>, agreed: set<Addr>)

  ghost function At(s: System, d: Dest): Option<Election> {
    match d
    case ToBoard => s.board
    case ToTeller(addr) => if addr in s.remote then Some(s.remote[addr]) else None
  }

  ghost function Put(s: System, d: Dest, stored: Option<Election>): (s': System)
    requires stored.Some?
    ensures At(s', d) == stored && forall c :: c != d ==> At(s', c) == At(s, c)
    ensures s' == s.(board := s'.board, remote := s'.remote)
  {
    match d
    case ToBoard => s.(board := stored)
    case ToTeller(addr) => s.(remote := s.remote[addr := stored.value])
  }

  ghost function Answer(T: Texts, key: string, d: Dest, stored: Option<Election>, m: Msg): Reply {
    match (d, m)
    case (ToBoard, Open(e)) => BoardOpens(T, key, stored, e)
    case (ToBoard, Close(time, sign)) => Closes(T, key, stored, time, sign, -4)
    case (ToBoard, Register(e)) => Reply(-1, stored)
    case (ToTeller(_), Open(e)) => TellerOpens(T, key, stored, e)
    case (ToTeller(_), Close(time, sign)) => Closes(T, key, stored, time, sign, -3)
    case (ToTeller(_), Register(e)) => TellerRegisters(T, key, stored, e)
  }

  /** The board and every teller on the list. */
  ghost function Targets(tellers: seq<Teller>): (r: set<Dest>)
    ensures forall d :: d in r <==> d == ToBoard || (d.ToTeller? && Known(tellers, d.addr))
  {
    {ToBoard} + set i | 0 <= i < |tellers| :: ToTeller(AddrOf(tellers[i]))
  }

  ghost function Sent(to: set<Dest>, m: Msg): set<(Dest, Msg)> {
    set d | d in to :: (d, m)
  }

  // ----- Steps -----

  datatype Step =
    | Freeze(time: int)
    | RegVoters(voters: set<string>, count: int)
    | FreezeVoters(sign: Token)
    | CallTeller(addr: Addr)
    | EndCall(addr: Addr)
    | RecordTeller(row: Teller, at: nat)
    | FreezeTellers
    | StartOpen(time: int)
    | FinishOpen
    | StartClose(time: int)
    | FinishClose
    | Deliver(dest: Dest, msg: Msg, heard: bool)

  ghost predicate Enabled(s: System, step: Step) {
    match step
    case Freeze(_) => s.auth.e.state == 0
    case RegVoters(_, _) => VotersOpen(s.auth)
    case FreezeVoters(_) => VotersOpen(s.auth)
    case CallTeller(addr) => TellersOpen(s.auth) && !Known(s.auth.tellers, addr)
    case EndCall(addr) => addr in s.calls
    case RecordTeller(row, at) => AddrOf(row) in s.agreed && at <= |s.auth.tellers|
    case FreezeTellers => TellersOpen(s.auth)
    case StartOpen(_) => s.pending.Calm? && MayOpen(s.auth)
    case FinishOpen => s.pending.Opening?
    case StartClose(_) => s.pending.Calm? && s.auth.e.state == 2
    case FinishClose => s.pending.Closing?
    case Deliver(dest, msg, _) => (dest, msg) in s.net
  }

  /** An answer with code 0 counts for what the request was sent for, if it is heard. */
  ghost function Delivered(T: Texts, key: string, s: System, d: Dest, m: Msg, heard: bool): System {
    var r := Answer(T, key, d, At(s, d), m);
    var s' := if r.stored.Some? then Put(s, d, r.stored) else s;
    if !(heard && r.code == 0) then s'
    else if m.Register? then if d.ToTeller? && d.addr in s.calls then s'.(agreed := s.agreed + {d.addr}) else s'
    else if (m.Open? && s.pending.Opening?) || (m.Close? && s.pending.Closing?) then s'.(waiting := s.waiting - {d})
    else s'
  }

  ghost function Do(T: Texts, key: string, s: System, step: Step): System
    requires Enabled(s, step)
  {
    match step
    case Freeze(time) => s.(auth := Frozen(T, key, s.auth, time))
    case RegVoters(voters, count) => s.(auth := s.auth.(voters := voters, e := s.auth.e.(voterCount := Some(count))))
    case FreezeVoters(sign) => s.(auth := VotersFrozen(s.auth, sign))
    case CallTeller(addr) =>
      s.(net := s.net + {(ToTeller(addr), Register(InfoCopy(s.auth.e)))}, calls := s.calls + {addr})
    case EndCall(addr) => s.(calls := s.calls - {addr}, agreed := s.agreed - {addr})
    case RecordTeller(row, at) =>
      s.(auth := Recorded(s.auth, row, at), calls := s.calls - {AddrOf(row)}, agreed := s.agreed - {AddrOf(row)})
    case FreezeTellers => s.(auth := TellersFrozen(T, key, s.auth))
    case StartOpen(time) =>
      var m := OpenRequest(T, key, s.auth, time);
      var to := Targets(s.auth.tellers);
      s.(pending := Opening(m), waiting := to, asked := to, net := s.net + Sent(to, Open(m)))
    case FinishOpen => s.(auth := AfterOpen(s.auth, s.pending.m, s.waiting == {}), pending := Calm)
    case StartClose(time) =>
      var (t, sign) := (CloseTime(s.auth, time), CloseSign(T, key, s.auth, time));
      var to := Targets(s.auth.tellers);
      s.(pending := Closing(t, sign), waiting := to, net := s.net + Sent(to, Close(t, sign)))
    case FinishClose => s.(auth := AfterClose(s.auth, s.pending.time, s.pending.sign, s.waiting == {}), pending := Calm)
    case Deliver(dest, msg, heard) => Delivered(T, key, s, dest, msg, heard)
  }

  ghost predicate Initial(s: System) {
    && s.auth.e.state == 0 && !s.auth.isVoterSign && !s.auth.isTellerSign && s.auth.tellers == []
    && s.auth.e.freezeSign.None? && s.auth.e.openSign.None? && s.auth.e.closeSign.None?
    && s.auth.e.openTime.None? && s.auth.e.closeTime.None? && s.auth.e.tellerSign.None? && s.auth.e.voterSign.None?
    && s.auth.e.voterCount == Some(0) && s.auth.e.teller.None?
    && s.pending.Calm? && s.board.None? && s.remote == map[] && s.net == {} && s.asked == {}
    && s.calls == {} && s.agreed == {}
  }

  // ----- The invariant -----

  /** What every request to open there has been so far carries apart from the list of tellers, and the one request to
      close. The list may have grown from one attempt to the next. */
  ghost function TheOpen(T: Texts, key: string, s: System): Option<Election> {
    if s.pending.Opening? then Some(OpenCopy(s.pending.m))
    else if s.auth.e.openSign.Some? then Some(OpenCopy(OpenRequest(T, key, s.auth, 0)))
    else None
  }

  ghost function TheClose(s: System): Option<(int, Token)> {
    if s.pending.Closing? then Some((s.pending.time, s.pending.sign))
    else if s.auth.e.closeSign.Some? && s.auth.e.closeTime.Some? then
      Some((s.auth.e.closeTime.value, s.auth.e.closeSign.value))
    else None
  }

  ghost predicate FrozenCopy(e: Election, a: Election) {
    e.state == 1 && SameFrozen(e, a) && e.freezeSign == a.freezeSign
  }

  ghost predicate OpensAt(T: Texts, key: string, s: System, time: int)
    requires s.pending.Opening?
  {
    OpenCopy(s.pending.m) == OpenCopy(OpenRequest(T, key, s.auth, time)) && s.pending.m.teller.Some?
  }

  ghost predicate ClosesAt(T: Texts, key: string, s: System, time: int)
    requires s.pending.Closing?
  {
    s.pending.time == CloseTime(s.auth, time) && s.pending.sign == CloseSign(T, key, s.auth, time)
  }

  ghost predicate AuthOk(T: Texts, key: string, s: System) {
    && 0 <= s.auth.e.state <= 3
    && (s.auth.e.state == 0 ==> s.net == {} && s.calls == {} && s.board.None? && s.remote == map[])
    && (s.auth.isTellerSign || s.auth.isVoterSign ==> s.auth.e.state >= 1)
    && (s.auth.e.state == 0 || !s.auth.isTellerSign || !s.auth.isVoterSign ==>
          s.auth.e.openSign.None? && s.auth.e.closeSign.None? && s.pending.Calm?)
    && (s.auth.e.state >= 2 ==> s.auth.isTellerSign && s.auth.isVoterSign && s.auth.e.openSign.Some?)
    && (s.auth.e.state < 2 ==> s.auth.e.closeSign.None? && !s.pending.Closing?)
    && (s.auth.e.state == 3 ==> s.auth.e.closeSign.Some? && s.pending.Calm?)
    && (s.auth.e.closeSign.Some? ==> s.auth.e.closeTime.Some?)
    && (s.pending.Opening? ==> s.auth.e.state == 1 && exists time :: OpensAt(T, key, s, time))
    && (s.pending.Closing? ==> s.auth.e.state == 2 && exists time :: ClosesAt(T, key, s, time))
    && s.agreed <= s.calls
  }

  ghost predicate RequestOk(T: Texts, key: string, s: System, d: Dest, m: Msg) {
    match m
    case Open(e) => d in s.asked && TheOpen(T, key, s) == Some(OpenCopy(e)) && e.state == 2 && e.teller.Some?
    case Close(time, sign) => TheClose(s) == Some((time, sign))
    case Register(e) => d.ToTeller? && FrozenCopy(e, s.auth.e)
  }

  ghost predicate NetOk(T: Texts, key: string, s: System) {
    forall d, m :: (d, m) in s.net ==> RequestOk(T, key, s, d, m)
  }

  /** What a server holds: the frozen election, or what every request to open carried, closed or not. */
  ghost predicate HoldsOk(T: Texts, key: string, s: System, d: Dest, e: Election) {
    || (d.ToTeller? && FrozenCopy(e, s.auth.e))
    || (TheOpen(T, key, s).Some? && var m := TheOpen(T, key, s).value;
        || e.(teller := None) == m
        || (TheClose(s).Some? && e.(teller := None) == Closed(m, TheClose(s).value.0, TheClose(s).value.1)))
  }

  ghost predicate ServersOk(T: Texts, key: string, s: System) {
    forall d :: At(s, d).Some? ==> HoldsOk(T, key, s, d, At(s, d).value)
  }

  ghost function StateAt(s: System, d: Dest): int {
    StateOf(At(s, d))
  }

  /** How far a server is: nowhere past the frozen election unless an attempt to open asked it, and no less far than its
      answers and the authority's own state say if the last one did. */
  ghost predicate PlaceOk(s: System, d: Dest) {
    && (d !in s.asked ==> StateAt(s, d) <= 1)
    && (d in s.asked ==>
          && (s.auth.e.state >= 2 ==> StateAt(s, d) >= 2) && (s.auth.e.state == 3 ==> StateAt(s, d) >= 3)
          && (s.pending.Opening? && d !in s.waiting ==> StateAt(s, d) >= 2)
          && (s.pending.Closing? && d !in s.waiting ==> StateAt(s, d) >= 3))
  }

  ghost predicate AskedOk(s: System) {
    && s.asked <= Targets(s.auth.tellers)
    && (s.auth.e.openSign.Some? || s.pending.Opening? ==> ToBoard in s.asked)
    && forall d :: PlaceOk(s, d)
  }

  ghost predicate Inv(T: Texts, key: string, s: System) {
    AuthOk(T, key, s) && NetOk(T, key, s) && ServersOk(T, key, s) && AskedOk(s)
  }

  lemma NothingHeld(s: System)
    requires s.board.None? && s.remote == map[]
    ensures forall d :: At(s, d).None?
  {
    forall d ensures At(s, d).None? {
      if d.ToTeller? {
        assert d.addr !in s.remote;
      }
    }
  }

  lemma InitialInv(T: Texts, key: string, s: System)
    requires Initial(s)
    ensures Inv(T, key, s)
  {
    NothingHeld(s);
  }

  // ----- Steps that are no part of an attempt -----

  /** Nothing has been opened while one of the two lists is not frozen. */
  lemma NothingOpen(T: Texts, key: string, s: System)
    requires Inv(T, key, s) && (!s.auth.isTellerSign || !s.auth.isVoterSign)
    ensures TheOpen(T, key, s).None? && TheClose(s).None? && s.pending.Calm? && s.auth.e.state <= 1
    ensures forall d, m :: (d, m) in s.net ==> m.Register?
  {
    hide FrozenCopy;
    forall d, m | (d, m) in s.net ensures m.Register? {
      assert RequestOk(T, key, s, d, m);
    }
  }

  /** The requests stand as long as what they carry and the frozen election do. */
  ghost predicate SameTalk(T: Texts, key: string, s: System, s': System) {
    && TheOpen(T, key, s') == TheOpen(T, key, s) && TheClose(s') == TheClose(s)
    && SameFrozen(s'.auth.e, s.auth.e) && s'.auth.e.freezeSign == s.auth.e.freezeSign
    && s'.asked == s.asked
  }

  lemma SameTalkKeeps(T: Texts, key: string, s: System, s': System)
    requires NetOk(T, key, s) && SameTalk(T, key, s, s')
    requires forall d, m :: (d, m) in s'.net ==> (d, m) in s.net || RequestOk(T, key, s', d, m)
    ensures NetOk(T, key, s')
    ensures forall d, e :: HoldsOk(T, key, s, d, e) ==> HoldsOk(T, key, s', d, e)
  {
    hide TheOpen, TheClose, OpenCopy;
    forall d, m | (d, m) in s'.net ensures RequestOk(T, key, s', d, m) {
      if (d, m) in s.net {
        assert RequestOk(T, key, s, d, m);
      }
    }
  }

  /** A step that touches no server and no answer. */
  lemma QuietStep(T: Texts, key: string, s: System, s': System)
    requires Inv(T, key, s) && AuthOk(T, key, s') && SameTalk(T, key, s, s')
    requires s'.waiting == s.waiting && s'.board == s.board && s'.remote == s.remote && s'.pending == s.pending
    requires s'.auth.e.state == s.auth.e.state && s'.auth.e.openSign == s.auth.e.openSign
    requires Targets(s.auth.tellers) <= Targets(s'.auth.tellers)
    requires forall d, m :: (d, m) in s'.net ==> (d, m) in s.net || RequestOk(T, key, s', d, m)
    ensures Inv(T, key, s')
  {
    hide AuthOk, HoldsOk, RequestOk, Targets, TheOpen, TheClose, FrozenCopy;
    SameTalkKeeps(T, key, s, s');
    assert forall d :: At(s', d) == At(s, d);
    assert forall d :: PlaceOk(s, d) ==> PlaceOk(s', d);
  }

  lemma EarlySteps(T: Texts, key: string, s: System, step: Step)
    requires Inv(T, key, s) && Enabled(s, step)
    requires step.RegVoters? || step.FreezeVoters? || step.CallTeller? || step.FreezeTellers?
    ensures Inv(T, key, Do(T, key, s, step))
  {
    hide InfoText, OpenText, TellerListText, OpenRequest, PlaceOk, HoldsOk;
    NothingOpen(T, key, s);
    var s' := Do(T, key, s, step);
    assert AuthOk(T, key, s');
    assert SameTalk(T, key, s, s');
    QuietStep(T, key, s, s');
  }

  lemma FreezeStep(T: Texts, key: string, s: System, time: int)
    requires Inv(T, key, s) && Enabled(s, Freeze(time))
    ensures Inv(T, key, Do(T, key, s, Freeze(time)))
  {
    hide InfoText, OpenText, OpenRequest;
    NothingOpen(T, key, s);
    NothingHeld(Do(T, key, s, Freeze(time)));
    NothingHeld(s);
  }

  lemma RecordedKnown(a: AuthRow, t: Teller, at: nat)
    requires at <= |a.tellers|
    ensures forall addr :: Known(Recorded(a, t, at).tellers, addr) <==> Known(a.tellers, addr) || addr == AddrOf(t)
  {
    var ts := Recorded(a, t, at).tellers;
    if ts != a.tellers {
      assert AddrOf(ts[at]) == AddrOf(t);
      forall addr | Known(ts, addr) ensures Known(a.tellers, addr) || addr == AddrOf(t) {
        var i :| 0 <= i < |ts| && AddrOf(ts[i]) == addr;
        if i != at {
          assert ts[i] == a.tellers[if i < at then i else i - 1];
        }
      }
      forall addr | Known(a.tellers, addr) ensures Known(ts, addr) {
        var i :| 0 <= i < |a.tellers| && AddrOf(a.tellers[i]) == addr;
        assert ts[if i < at then i else i + 1] == a.tellers[i];
      }
    }
  }

  /** Requests do not depend on the list of tellers apart from the copy of it they carry. */
  lemma ListsApart(T: Texts, key: string, a: AuthRow, tellers: seq<Teller>, time: int)
    ensures OpenCopy(OpenRequest(T, key, a.(tellers := tellers), time)) == OpenCopy(OpenRequest(T, key, a, time))
  {
  }

  lemma ListStep(T: Texts, key: string, s: System, s': System)
    requires Inv(T, key, s)
    requires s' == s.(auth := s.auth.(tellers := s'.auth.tellers), calls := s'.calls, agreed := s'.agreed)
    requires s'.agreed <= s'.calls <= s.calls && Targets(s.auth.tellers) <= Targets(s'.auth.tellers)
    ensures Inv(T, key, s')
  {
    ListsApart(T, key, s.auth, s'.auth.tellers, 0);
    hide OpenCopy, OpenRequest, PlaceOk, HoldsOk, Targets;
    if s.pending.Opening? {
      var time :| OpensAt(T, key, s, time);
      ListsApart(T, key, s.auth, s'.auth.tellers, time);
      assert OpensAt(T, key, s', time);
    }
    if s.pending.Closing? {
      var time :| ClosesAt(T, key, s, time);
      assert ClosesAt(T, key, s', time);
    }
    QuietStep(T, key, s, s');
  }

  lemma RecordStep(T: Texts, key: string, s: System, row: Teller, at: nat)
    requires Inv(T, key, s) && Enabled(s, RecordTeller(row, at))
    ensures Inv(T, key, Do(T, key, s, RecordTeller(row, at)))
  {
    RecordedKnown(s.auth, row, at);
    var s' := Do(T, key, s, RecordTeller(row, at));
    assert s'.agreed <= s'.calls by {
      assert s.agreed <= s.calls;
    }
    hide AuthOk, NetOk, ServersOk, AskedOk;
    ListStep(T, key, s, s');
  }

  lemma EndCallStep(T: Texts, key: string, s: System, addr: Addr)
    requires Inv(T, key, s) && Enabled(s, EndCall(addr))
    ensures Inv(T, key, Do(T, key, s, EndCall(addr)))
  {
    var s' := Do(T, key, s, EndCall(addr));
    assert s'.agreed <= s'.calls by {
      assert s.agreed <= s.calls;
    }
    hide AuthOk, NetOk, ServersOk, AskedOk;
    ListStep(T, key, s, s');
  }

  // ----- The attempts -----

  /** A repeated request to open is the first one again, and writing the outcome down does not change it. */
  lemma SameRequest(T: Texts, key: string, a: AuthRow, m: Election, time: int)
    requires OpenCopy(m) == OpenCopy(OpenRequest(T, key, a, time))
    ensures a.e.openSign.Some? ==> OpenCopy(m) == OpenCopy(OpenRequest(T, key, a, 0))
    ensures forall ok :: OpenCopy(OpenRequest(T, key, AfterOpen(a, m, ok), 0)) == OpenCopy(m)
    ensures forall ok :: AfterOpen(a, m, ok).e.openSign.Some?
    ensures m.state == 2
  {
    hide InfoText;
    var r := OpenRequest(T, key, a, time);
    assert m.openTime == OpenCopy(m).openTime == r.openTime && m.openSign == OpenCopy(m).openSign == r.openSign;
  }

  lemma CloseKeepsRequest(T: Texts, key: string, a: AuthRow, time: int, sign: Token, ok: bool)
    requires a.e.openSign.Some?
    ensures OpenRequest(T, key, AfterClose(a, time, sign, ok), 0) == OpenRequest(T, key, a, 0)
  {
  }

  lemma StartOpenTalk(T: Texts, key: string, s: System, time: int)
    requires Inv(T, key, s) && Enabled(s, StartOpen(time))
    ensures var s' := Do(T, key, s, StartOpen(time));
      && AuthOk(T, key, s') && TheClose(s).None? && TheClose(s').None?
      && (TheOpen(T, key, s).Some? ==> TheOpen(T, key, s') == TheOpen(T, key, s))
      && TheOpen(T, key, s') == Some(OpenCopy(OpenRequest(T, key, s.auth, time)))
      && OpenRequest(T, key, s.auth, time).state == 2 && OpenRequest(T, key, s.auth, time).teller.Some?
  {
    hide InfoText, OpenText, TellerListText, NetOk, ServersOk, AskedOk;
    SameRequest(T, key, s.auth, OpenRequest(T, key, s.auth, time), time);
    assert OpensAt(T, key, Do(T, key, s, StartOpen(time)), time);
  }

  lemma StartOpenStep(T: Texts, key: string, s: System, time: int)
    requires Inv(T, key, s) && Enabled(s, StartOpen(time))
    ensures Inv(T, key, Do(T, key, s, StartOpen(time)))
  {
    hide AuthOk, TheOpen, TheClose, OpenRequest, OpenCopy, PlaceOk;
    StartOpenTalk(T, key, s, time);
    var s' := Do(T, key, s, StartOpen(time));
    forall d, m | (d, m) in s'.net ensures RequestOk(T, key, s', d, m) {
      if (d, m) in s.net {
        assert RequestOk(T, key, s, d, m);
      }
    }
    forall d | At(s', d).Some? ensures HoldsOk(T, key, s', d, At(s', d).value) {
      assert At(s', d) == At(s, d);
      assert HoldsOk(T, key, s, d, At(s, d).value);
    }
    StartOpenPlaces(T, key, s, time);
  }

  lemma StartOpenPlaces(T: Texts, key: string, s: System, time: int)
    requires AskedOk(s) && Enabled(s, StartOpen(time))
    ensures AskedOk(Do(T, key, s, StartOpen(time)))
  {
    hide OpenRequest;
    var s' := Do(T, key, s, StartOpen(time));
    forall d ensures PlaceOk(s', d) {
      assert PlaceOk(s, d) && At(s', d) == At(s, d);
    }
  }

  lemma FinishOpenTalk(T: Texts, key: string, s: System)
    requires AuthOk(T, key, s) && s.pending.Opening?
    ensures AuthOk(T, key, Do(T, key, s, FinishOpen)) && SameTalk(T, key, s, Do(T, key, s, FinishOpen))
  {
    var time :| OpensAt(T, key, s, time);
    SameRequest(T, key, s.auth, s.pending.m, time);
    hide OpenRequest, OpenCopy;
  }

  lemma FinishOpenPlaces(T: Texts, key: string, s: System)
    requires AuthOk(T, key, s) && AskedOk(s) && s.pending.Opening?
    ensures AskedOk(Do(T, key, s, FinishOpen))
  {
    hide OpenCopy, OpenRequest, OpensAt, ClosesAt;
    var s' := Do(T, key, s, FinishOpen);
    forall d ensures PlaceOk(s', d) {
      assert PlaceOk(s, d) && At(s', d) == At(s, d);
    }
  }

  lemma FinishOpenStep(T: Texts, key: string, s: System)
    requires Inv(T, key, s) && Enabled(s, FinishOpen)
    ensures Inv(T, key, Do(T, key, s, FinishOpen))
  {
    hide AuthOk, AskedOk, NetOk, SameTalk, HoldsOk, OpenRequest, OpenCopy;
    FinishOpenTalk(T, key, s);
    FinishOpenPlaces(T, key, s);
    var s' := Do(T, key, s, FinishOpen);
    SameTalkKeeps(T, key, s, s');
    assert forall d :: At(s', d) == At(s, d);
  }

  lemma StartCloseStep(T: Texts, key: string, s: System, time: int)
    requires Inv(T, key, s) && Enabled(s, StartClose(time))
    ensures Inv(T, key, Do(T, key, s, StartClose(time)))
  {
    hide InfoText, OpenText, OpenRequest, TellerListText, CloseText, OpenCopy;
    var s' := Do(T, key, s, StartClose(time));
    assert TheOpen(T, key, s') == TheOpen(T, key, s);
    assert ClosesAt(T, key, s', time);
    forall d, m | (d, m) in s'.net ensures RequestOk(T, key, s', d, m) {
      if (d, m) in s.net {
        assert RequestOk(T, key, s, d, m);
      }
    }
    forall d | At(s', d).Some? ensures HoldsOk(T, key, s', d, At(s', d).value) {
      assert At(s', d) == At(s, d);
      assert HoldsOk(T, key, s, d, At(s, d).value);
    }
    forall d ensures PlaceOk(s', d) {
      assert PlaceOk(s, d) && At(s', d) == At(s, d);
    }
  }

  lemma FinishCloseStep(T: Texts, key: string, s: System)
    requires Inv(T, key, s) && Enabled(s, FinishClose)
    ensures Inv(T, key, Do(T, key, s, FinishClose))
  {
    CloseKeepsRequest(T, key, s.auth, s.pending.time, s.pending.sign, s.waiting == {});
    hide InfoText, OpenText, OpenRequest, TellerListText, CloseText, OpenCopy;
    var s' := Do(T, key, s, FinishClose);
    assert TheOpen(T, key, s') == TheOpen(T, key, s) && TheClose(s') == TheClose(s);
    SameTalkKeeps(T, key, s, s');
    hide NetOk, SameTalk;
    assert forall d :: At(s', d) == At(s, d);
    forall d ensures PlaceOk(s', d) {
      assert PlaceOk(s, d) && At(s', d) == At(s, d);
    }
  }

  // ----- Deliveries -----

  lemma InvParts(T: Texts, key: string, s: System)
    requires Inv(T, key, s)
    ensures AuthOk(T, key, s) && NetOk(T, key, s) && ServersOk(T, key, s) && AskedOk(s)
  {
  }

  lemma OpenRequestState(T: Texts, key: string, s: System)
    requires AuthOk(T, key, s) && TheOpen(T, key, s).Some?
    ensures TheOpen(T, key, s).value.state == 2
  {
  }

  /** What a server answers to one of the authority's requests, and what it holds afterwards. */
  lemma AnswerOk(T: Texts, key: string, s: System, d: Dest, m: Msg)
    requires Inv(T, key, s) && (d, m) in s.net
    ensures var r := Answer(T, key, d, At(s, d), m);
      && (r.stored.Some? ==> HoldsOk(T, key, s, d, r.stored.value))
      && StateOf(r.stored) >= StateAt(s, d) && (At(s, d).Some? ==> r.stored.Some?)
      && (StateOf(r.stored) >= 2 ==> d in s.asked)
      && (r.code == 0 && m.Open? ==> StateOf(r.stored) == 2) && (r.code == 0 && m.Close? ==> StateOf(r.stored) == 3)
  {
    hide Answer, AuthOk, TheOpen, HoldsOk, RequestOk, PlaceOk;
    assert RequestOk(T, key, s, d, m);
    assert At(s, d).Some? ==> HoldsOk(T, key, s, d, At(s, d).value);
    assert PlaceOk(s, d);
    if TheOpen(T, key, s).Some? {
      OpenRequestState(T, key, s);
    }
    AnswerFits(T, key, s, d, m);
  }

  lemma AnswerFits(T: Texts, key: string, s: System, d: Dest, m: Msg)
    requires RequestOk(T, key, s, d, m) && PlaceOk(s, d) && (At(s, d).Some? ==> HoldsOk(T, key, s, d, At(s, d).value))
    requires TheOpen(T, key, s).Some? ==> TheOpen(T, key, s).value.state == 2
    ensures var r := Answer(T, key, d, At(s, d), m);
      && (r.stored.Some? ==> HoldsOk(T, key, s, d, r.stored.value))
      && StateOf(r.stored) >= StateAt(s, d) && (At(s, d).Some? ==> r.stored.Some?)
      && (StateOf(r.stored) >= 2 ==> d in s.asked)
      && (r.code == 0 && m.Open? ==> StateOf(r.stored) == 2) && (r.code == 0 && m.Close? ==> StateOf(r.stored) == 3)
  {
    hide InfoText, OpenText, TellerListText, CloseText, OpenFormat, InfoFormat, SameAsRegistered, OpenSigned, TheOpen,
         TheClose,
         At;
  }

  lemma DeliverStep(T: Texts, key: string, s: System, d: Dest, m: Msg, heard: bool)
    requires Inv(T, key, s) && Enabled(s, Deliver(d, m, heard))
    ensures Inv(T, key, Do(T, key, s, Deliver(d, m, heard)))
    ensures forall c :: StateAt(Do(T, key, s, Deliver(d, m, heard)), c) >= StateAt(s, c)
  {
    DeliverAuth(T, key, s, d, m, heard);
    DeliverServers(T, key, s, d, m, heard);
    DeliverAnswers(T, key, s, d, m, heard);
  }

  /** What a delivery changes. */
  lemma DeliveredEffect(T: Texts, key: string, s: System, d: Dest, m: Msg, heard: bool)
    requires At(s, d).Some? ==> Answer(T, key, d, At(s, d), m).stored.Some?
    ensures var s' := Delivered(T, key, s, d, m, heard); var r := Answer(T, key, d, At(s, d), m);
      && s' == s.(board := s'.board, remote := s'.remote, agreed := s'.agreed, waiting := s'.waiting)
      && At(s', d) == r.stored && (forall c :: c != d ==> At(s', c) == At(s, c))
      && (s'.waiting == s.waiting || (s'.waiting == s.waiting - {d} && r.code == 0
            && ((m.Open? && s.pending.Opening?) || (m.Close? && s.pending.Closing?))))
      && (heard && r.code == 0 && ((m.Open? && s.pending.Opening?) || (m.Close? && s.pending.Closing?)) ==>
            s'.waiting == s.waiting - {d})
  {
    hide Answer;
  }

  lemma DeliverServers(T: Texts, key: string, s: System, d: Dest, m: Msg, heard: bool)
    requires Inv(T, key, s) && (d, m) in s.net
    ensures NetOk(T, key, Delivered(T, key, s, d, m, heard)) && ServersOk(T, key, Delivered(T, key, s, d, m, heard))
  {
    hide Inv, Answer, HoldsOk, Delivered, At, OpenCopy, OpenRequest, NetOk;
    assert NetOk(T, key, s) && ServersOk(T, key, s) by {
      InvParts(T, key, s);
    }
    AnswerOk(T, key, s, d, m);
    DeliveredEffect(T, key, s, d, m, heard);
    var s' := Delivered(T, key, s, d, m, heard);
    assert SameTalk(T, key, s, s');
    SameTalkKeeps(T, key, s, s');
    forall c | At(s', c).Some? ensures HoldsOk(T, key, s', c, At(s', c).value) {
      assert c != d ==> At(s', c) == At(s, c);
    }
  }

  lemma DeliverAnswers(T: Texts, key: string, s: System, d: Dest, m: Msg, heard: bool)
    requires Inv(T, key, s) && (d, m) in s.net
    ensures AskedOk(Delivered(T, key, s, d, m, heard))
    ensures forall c :: StateAt(Delivered(T, key, s, d, m, heard), c) >= StateAt(s, c)
  {
    hide Inv, Answer, HoldsOk, Delivered, At, Targets;
    assert AskedOk(s) by {
      InvParts(T, key, s);
    }
    AnswerOk(T, key, s, d, m);
    DeliveredEffect(T, key, s, d, m, heard);
    var s' := Delivered(T, key, s, d, m, heard);
    forall c ensures StateAt(s', c) >= StateAt(s, c) && PlaceOk(s', c) {
      assert PlaceOk(s, c);
      assert c != d ==> At(s', c) == At(s, c);
    }
  }

  lemma DeliverAuth(T: Texts, key: string, s: System, d: Dest, m: Msg, heard: bool)
    requires Inv(T, key, s) && Enabled(s, Deliver(d, m, heard))
    ensures AuthOk(T, key, Do(T, key, s, Deliver(d, m, heard)))
  {
    hide InfoText, OpenText, OpenRequest, TellerListText, CloseText, Answer, ServersOk, AskedOk, NetOk, OpenCopy;
    var s' := Do(T, key, s, Deliver(d, m, heard));
    if s.pending.Closing? {
      var time :| ClosesAt(T, key, s, time);
      assert ClosesAt(T, key, s', time);
    }
    if s.pending.Opening? {
      var time :| OpensAt(T, key, s, time);
      assert OpensAt(T, key, s', time);
    }
  }

  // ----- Every step -----

  /** Every step keeps the invariant, and moves no server and not the authority back. */
  lemma StepKeeps(T: Texts, key: string, s: System, step: Step)
    requires Inv(T, key, s) && Enabled(s, step)
    ensures Inv(T, key, Do(T, key, s, step))
    ensures Do(T, key, s, step).auth.e.state >= s.auth.e.state
    ensures forall d :: StateAt(Do(T, key, s, step), d) >= StateAt(s, d)
  {
    hide Inv, InfoText, OpenText, OpenRequest, TellerListText, CloseText, Answer, Targets;
    match step
    case Freeze(time) => FreezeStep(T, key, s, time);
    case EndCall(addr) => EndCallStep(T, key, s, addr);
    case RecordTeller(row, at) => RecordStep(T, key, s, row, at);
    case StartOpen(time) => StartOpenStep(T, key, s, time);
    case FinishOpen => FinishOpenStep(T, key, s); PendingState(T, key, s);
    case StartClose(time) => StartCloseStep(T, key, s, time);
    case FinishClose => FinishCloseStep(T, key, s); PendingState(T, key, s);
    case Deliver(dest, msg, heard) => DeliverStep(T, key, s, dest, msg, heard);
    case _ => EarlySteps(T, key, s, step);
  }

  lemma PendingState(T: Texts, key: string, s: System)
    requires Inv(T, key, s)
    ensures s.pending.Opening? ==> s.auth.e.state == 1
    ensures s.pending.Closing? ==> s.auth.e.state == 2
  {
  }

  // ----- The authority and the servers on its list -----

  /** The authority is not ahead of any server on its list. */
  ghost predicate NotAhead(s: System) {
    forall d :: d in Targets(s.auth.tellers) ==>
      (s.auth.e.state >= 2 ==> StateAt(s, d) >= 2) && (s.auth.e.state == 3 ==> StateAt(s, d) >= 3)
  }

  /** Somebody on the list has not been asked by the last attempt to open. */
  ghost predicate Unasked(s: System) {
    !(Targets(s.auth.tellers) <= s.asked)
  }

  /** In every reachable state: the authority is ahead of a server exactly if it has opened the election without asking
      everyone who is now on its list. */
  lemma AheadIff(T: Texts, key: string, s: System)
    requires Inv(T, key, s)
    ensures NotAhead(s) <==> !(s.auth.e.state >= 2 && Unasked(s))
  {
    hide AuthOk, NetOk, ServersOk, Targets, StateAt;
    if s.auth.e.state >= 2 && Unasked(s) {
      var d :| d in Targets(s.auth.tellers) && d !in s.asked;
      assert PlaceOk(s, d);
    } else {
      forall d | d in Targets(s.auth.tellers)
        ensures (s.auth.e.state >= 2 ==> StateAt(s, d) >= 2) && (s.auth.e.state == 3 ==> StateAt(s, d) >= 3)
      {
        assert PlaceOk(s, d);
      }
    }
  }
}

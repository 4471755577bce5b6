/** The parallel offline verifier of src/common/offlineVerify.js: a master that hands out the lines of the ballot file
    to worker processes and multiplies up the commitments of the ballots they find correct. */
module OfflineVerify {
  import opened Groups
  import opened Ballots
  import opened VoteServers
  import opened Tally
  import opened BoardTally
  import opened TallyTheorems

  // ----- The protocol between master and workers -----

  /** What is going on between the master and one worker. A worker that dies does so before it has come online (Lost)
      or later (Dead), and nothing is heard of it again; a worker that is disconnected in the middle of its work is
      Dead. */
  datatype Phase =
    | Starting
    | Lost
    | Waiting
    | HasBallot(line: nat)
    | Verdict(line: nat, verify: bool)
    | ShutdownSent
    | FinishedSent
    | Finished
    | Stopped(line: nat)
    | Dead

  /** What has become of a line: not read, out with a worker, multiplied in, or found wrong while serving a worker. */
  datatype LineState = Unread | Out(worker: nat) | Merged | Refused(worker: nat)

  /** What a line is: no ballot, a ballot the check refuses, or one it accepts. */
  datatype Kind = NoBallot | Wrong | Right

  /** The master's place in the file, its counters, the workers' phases and the states of the lines. */
  datatype Control = Control(next: nat, online: nat, finished: nat, processed: nat, ws: seq<Phase>, ls: seq<LineState>)

  ghost predicate LineOk(kinds: seq<Kind>, c: Control, l: nat)
    requires l < |kinds| == |c.ls|
  {
    match c.ls[l]
    case Unread => l >= c.next
    case Out(w) => l < c.next && w < |c.ws| && !kinds[l].NoBallot?
                   && (c.ws[w] == HasBallot(l) || c.ws[w] == Verdict(l, kinds[l].Right?) || c.ws[w].Dead?)
    case Merged => l < c.next && kinds[l].Right?
    case Refused(w) => l < c.next && w < |c.ws| && (c.ws[w] == Stopped(l) || c.ws[w].Dead?) && !kinds[l].Right?
  }

  ghost predicate WorkerOk(c: Control, w: nat)
    requires w < |c.ws|
  {
    match c.ws[w]
    case HasBallot(l) => l < |c.ls| && c.ls[l] == Out(w)
    case Verdict(l, ok) => l < |c.ls| && c.ls[l] == Out(w)
    case Stopped(l) => l < |c.ls| && c.ls[l] == Refused(w)
    case ShutdownSent => c.next == |c.ls|
    case FinishedSent => c.next == |c.ls|
    case Finished => c.next == |c.ls|
    case _ => true
  }

  ghost predicate LinesOk(kinds: seq<Kind>, c: Control) {
    |kinds| == |c.ls| && forall l :: 0 <= l < |c.ls| ==> LineOk(kinds, c, l)
  }

  ghost predicate WorkersOk(c: Control) {
    forall w :: 0 <= w < |c.ws| ==> WorkerOk(c, w)
  }

  ghost predicate CountersOk(c: Control) {
    && c.next <= |c.ls| && c.ws != []
    && c.online == Total(OnlineFlags(c.ws))
    && c.finished == Total(FinishedFlags(c.ws))
    && c.processed == Total(MergedFlags(c.ls))
  }

  /** Every line that has been read is in one place only, the phases agree with it, and so do the counters. */
  ghost predicate Linked(kinds: seq<Kind>, c: Control) {
    LinesOk(kinds, c) && WorkersOk(c) && CountersOk(c)
  }

  /** Nothing is handed out before all workers are online; once they are, a worker still waits only if a line could
      not be parsed. */
  ghost predicate Begun(c: Control) {
    && (c.online < |c.ws| ==> c.next == 0 && forall w :: 0 <= w < |c.ws| ==> Idle(c.ws[w]))
    && (c.online == |c.ws| && SomeWaiting(c.ws) ==> SomeRefused(c.ls))
  }

  predicate Idle(p: Phase) {
    p.Starting? || p.Waiting? || p.Lost? || p.Dead?
  }

  ghost predicate SomeWaiting(ws: seq<Phase>) {
    exists w :: 0 <= w < |ws| && ws[w].Waiting?
  }

  ghost predicate SomeRefused(ls: seq<LineState>) {
    exists l :: 0 <= l < |ls| && ls[l].Refused?
  }

  /** Twice the lines not read, plus what the workers have left to do. */
  ghost function Work(c: Control): int {
    2 * (|c.ls| - c.next) + Total(Weights(c.ws))
  }

  /** Work left for a worker. */
  function Weight(p: Phase): nat {
    match p
    case Starting => 5
    case Waiting => 4
    case HasBallot(_) => 4
    case Verdict(_, _) => 3
    case ShutdownSent => 2
    case FinishedSent => 1
    case _ => 0
  }

  function Weights(ws: seq<Phase>): (r: seq<int>)
    ensures |r| == |ws| && forall w :: 0 <= w < |r| ==> r[w] == Weight(ws[w])
  {
    seq(|ws|, w requires 0 <= w < |ws| => Weight(ws[w]))
  }

  function FinishedFlags(ws: seq<Phase>): (r: seq<int>)
    ensures |r| == |ws| && forall w :: 0 <= w < |r| ==> r[w] == if ws[w].Finished? then 1 else 0
  {
    seq(|ws|, w requires 0 <= w < |ws| => if ws[w].Finished? then 1 else 0)
  }

  predicate Online(p: Phase) {
    !p.Starting? && !p.Lost?
  }

  function OnlineFlags(ws: seq<Phase>): (r: seq<int>)
    ensures |r| == |ws| && forall w :: 0 <= w < |r| ==> r[w] == if Online(ws[w]) then 1 else 0
  {
    seq(|ws|, w requires 0 <= w < |ws| => if Online(ws[w]) then 1 else 0)
  }

  function MergedFlags(ls: seq<LineState>): (r: seq<int>)
    ensures |r| == |ls| && forall l :: 0 <= l < |r| ==> r[l] == if ls[l].Merged? then 1 else 0
  {
    seq(|ls|, l requires 0 <= l < |ls| => if ls[l].Merged? then 1 else 0)
  }

  function Int(b: bool): int {
    if b then 1 else 0
  }

  lemma PhaseCounts(ws: seq<Phase>, w: nat, p: Phase)
    requires w < |ws|
    ensures Total(Weights(ws[w := p])) == Total(Weights(ws)) - Weight(ws[w]) + Weight(p)
    ensures Total(FinishedFlags(ws[w := p])) == Total(FinishedFlags(ws)) - Int(ws[w].Finished?) + Int(p.Finished?)
    ensures Total(OnlineFlags(ws[w := p])) == Total(OnlineFlags(ws)) - Int(Online(ws[w])) + Int(Online(p))
  {
    var ws' := ws[w := p];
    assert Weights(ws') == Weights(ws)[w := Weight(p)];
    assert FinishedFlags(ws') == FinishedFlags(ws)[w := Int(p.Finished?)];
    assert OnlineFlags(ws') == OnlineFlags(ws)[w := Int(Online(p))];
    TotalUpdate(Weights(ws), w, Weight(p));
    TotalUpdate(FinishedFlags(ws), w, Int(p.Finished?));
    TotalUpdate(OnlineFlags(ws), w, Int(Online(p)));
  }

  lemma LineCounts(ls: seq<LineState>, l: nat, s: LineState)
    requires l < |ls|
    ensures Total(MergedFlags(ls[l := s])) == Total(MergedFlags(ls)) - Int(ls[l].Merged?) + Int(s.Merged?)
  {
    assert MergedFlags(ls[l := s]) == MergedFlags(ls)[l := Int(s.Merged?)];
    TotalUpdate(MergedFlags(ls), l, Int(s.Merged?));
  }

  lemma {:induction false} FullFlags(s: seq<int>)
    requires forall w :: 0 <= w < |s| ==> s[w] == 0 || s[w] == 1
    ensures 0 <= Total(s) <= |s|
    ensures Total(s) == |s| <==> forall w :: 0 <= w < |s| ==> s[w] == 1
  {
    var n := |s| - 1;
    if n >= 0 {
      FullFlags(s[..n]);
      assert forall w :: 0 <= w < n ==> s[..n][w] == s[w];
    }
  }

  lemma AllOnline(c: Control)
    requires CountersOk(c)
    ensures c.online <= |c.ws| && (c.online == |c.ws| <==> forall w :: 0 <= w < |c.ws| ==> Online(c.ws[w]))
    ensures c.finished <= |c.ws| && (c.finished == |c.ws| <==> forall w :: 0 <= w < |c.ws| ==> c.ws[w].Finished?)
  {
    FullFlags(OnlineFlags(c.ws));
    FullFlags(FinishedFlags(c.ws));
    assert c.online == |c.ws| ==> forall w :: 0 <= w < |c.ws| ==> OnlineFlags(c.ws)[w] == 1;
    assert c.finished == |c.ws| ==> forall w :: 0 <= w < |c.ws| ==> FinishedFlags(c.ws)[w] == 1;
  }

  // ----- The moves -----

  /** The next line goes to a worker that waits, unless it is no ballot. */
  function ServeLine(kinds: seq<Kind>, c: Control, w: nat): Control
    requires w < |c.ws| && c.next < |c.ls| == |kinds|
  {
    var l := c.next;
    if kinds[l].NoBallot? then c.(next := l + 1, ws := c.ws[w := Stopped(l)], ls := c.ls[l := Refused(w)])
    else c.(next := l + 1, ws := c.ws[w := HasBallot(l)], ls := c.ls[l := Out(w)])
  }

  ghost predicate Untouched(p: Phase, l: nat) {
    && p != HasBallot(l) && !(p.Verdict? && p.line == l) && p != Stopped(l)
    && !p.ShutdownSent? && !p.FinishedSent? && !p.Finished?
  }

  lemma UnreadLine(kinds: seq<Kind>, c: Control)
    requires Linked(kinds, c) && c.next < |c.ls|
    ensures c.ls[c.next] == Unread && forall w :: 0 <= w < |c.ws| ==> Untouched(c.ws[w], c.next)
  {
    assert LineOk(kinds, c, c.next);
    forall w | 0 <= w < |c.ws| ensures Untouched(c.ws[w], c.next) {
      assert WorkerOk(c, w);
    }
  }

  lemma ServeLineLines(kinds: seq<Kind>, c: Control, w: nat)
    requires Linked(kinds, c) && w < |c.ws| && c.ws[w].Waiting? && c.next < |c.ls|
    ensures LinesOk(kinds, ServeLine(kinds, c, w))
  {
    UnreadLine(kinds, c);
    hide WorkersOk, CountersOk;
    forall l | 0 <= l < |c.ls| ensures LineOk(kinds, ServeLine(kinds, c, w), l) {
      assert LineOk(kinds, c, l);
    }
  }

  lemma ServeLineLinked(kinds: seq<Kind>, c: Control, w: nat)
    requires Linked(kinds, c) && w < |c.ws| && c.ws[w].Waiting? && c.next < |c.ls|
    ensures c.ls[c.next] == Unread && Linked(kinds, ServeLine(kinds, c, w))
    ensures Work(ServeLine(kinds, c, w)) <= Work(c) - 2
    ensures SomeRefused(c.ls) || kinds[c.next].NoBallot? ==> SomeRefused(ServeLine(kinds, c, w).ls)
  {
    var c' := ServeLine(kinds, c, w);
    UnreadLine(kinds, c);
    ServeLineLines(kinds, c, w);
    hide LinesOk;
    PhaseCounts(c.ws, w, c'.ws[w]);
    LineCounts(c.ls, c.next, c'.ls[c.next]);
    KeepsRefused(c.ls, c.next, c'.ls[c.next]);
    forall v | 0 <= v < |c'.ws| ensures WorkerOk(c', v) {
      assert WorkerOk(c, v);
    }
  }

  /** Moves of a worker that change no line: coming online, dying, reaching a verdict, and shutting down. */
  ghost predicate Moves(kinds: seq<Kind>, c: Control, p: Phase, q: Phase) {
    || (p.Starting? && (q.Waiting? || q.Lost?))
    || (Online(p) && Weight(p) > 0 && q.Dead?)
    || (p.HasBallot? && p.line < |kinds| && q == Verdict(p.line, kinds[p.line].Right?))
    || (p.Waiting? && q.ShutdownSent? && c.next == |c.ls|)
    || (p.ShutdownSent? && q.FinishedSent?)
    || (p.FinishedSent? && q.Finished?)
  }

  function Moved(c: Control, w: nat, q: Phase): Control
    requires w < |c.ws|
  {
    c.(ws := c.ws[w := q], online := if c.ws[w].Starting? && q.Waiting? then c.online + 1 else c.online,
       finished := if q.Finished? then c.finished + 1 else c.finished)
  }

  lemma MovedLinked(kinds: seq<Kind>, c: Control, w: nat, q: Phase)
    requires Linked(kinds, c) && w < |c.ws| && Moves(kinds, c, c.ws[w], q)
    ensures Linked(kinds, Moved(c, w, q)) && Work(Moved(c, w, q)) == Work(c) - Weight(c.ws[w]) + Weight(q) < Work(c)
  {
    var c' := Moved(c, w, q);
    PhaseCounts(c.ws, w, q);
    assert WorkerOk(c, w);
    forall l | 0 <= l < |c'.ls| ensures LineOk(kinds, c', l) {
      assert LineOk(kinds, c, l);
    }
    forall v | 0 <= v < |c'.ws| ensures WorkerOk(c', v) {
      assert WorkerOk(c, v);
    }
  }

  /** A verdict comes in: the line is merged and the worker waits, or the line stays with the worker that refused it. */
  function Judged(c: Control, w: nat): Control
    requires w < |c.ws| && c.ws[w].Verdict? && c.ws[w].line < |c.ls|
  {
    var l := c.ws[w].line;
    if c.ws[w].verify then c.(processed := c.processed + 1, ws := c.ws[w := Waiting], ls := c.ls[l := Merged])
    else c.(ws := c.ws[w := Stopped(l)], ls := c.ls[l := Refused(w)])
  }

  lemma JudgedLines(kinds: seq<Kind>, c: Control, w: nat)
    requires LinesOk(kinds, c) && WorkersOk(c) && w < |c.ws| && c.ws[w].Verdict?
    ensures c.ws[w].line < |c.ls| && c.ws[w].line < c.next && c.ls[c.ws[w].line] == Out(w)
    ensures c.ws[w].verify == kinds[c.ws[w].line].Right? && LinesOk(kinds, Judged(c, w))
  {
    assert WorkerOk(c, w) && LineOk(kinds, c, c.ws[w].line);
    hide WorkersOk, WorkerOk;
    forall l | 0 <= l < |c.ls| ensures LineOk(kinds, Judged(c, w), l) {
      assert LineOk(kinds, c, l);
    }
  }

  lemma JudgedLinked(kinds: seq<Kind>, c: Control, w: nat)
    requires Linked(kinds, c) && w < |c.ws| && c.ws[w].Verdict?
    ensures c.ws[w].line < |c.ls| && c.ws[w].line < c.next && c.ls[c.ws[w].line] == Out(w)
    ensures c.ws[w].verify == kinds[c.ws[w].line].Right? && Linked(kinds, Judged(c, w))
    ensures Work(Judged(c, w)) <= Work(c) + 1
    ensures !c.ws[w].verify ==> Work(Judged(c, w)) < Work(c)
    ensures SomeRefused(c.ls) || !c.ws[w].verify ==> SomeRefused(Judged(c, w).ls)
  {
    JudgedLines(kinds, c, w);
    hide LinesOk;
    var at, c' := c.ws[w].line, Judged(c, w);
    PhaseCounts(c.ws, w, c'.ws[w]);
    LineCounts(c.ls, at, c'.ls[at]);
    KeepsRefused(c.ls, at, c'.ls[at]);
    forall v | 0 <= v < |c'.ws| ensures WorkerOk(c', v) {
      assert WorkerOk(c, v);
    }
  }

  /** Serving a worker: the next line, or the order to shut down once there is none. */
  function Served(kinds: seq<Kind>, c: Control, w: nat): Control
    requires w < |c.ws| && c.next <= |c.ls| == |kinds|
  {
    if c.next == |c.ls| then Moved(c, w, ShutdownSent) else ServeLine(kinds, c, w)
  }

  /** Serving every waiting worker from id on, up to the first line that is no ballot. */
  function ServedFrom(kinds: seq<Kind>, c: Control, id: nat): Control
    requires id <= |c.ws| && c.next <= |c.ls| == |kinds|
    decreases |c.ws| - id
  {
    if id == |c.ws| then c
    else if !c.ws[id].Waiting? then ServedFrom(kinds, c, id + 1)
    else if c.next < |c.ls| && kinds[c.next].NoBallot? then Served(kinds, c, id)
    else ServedFrom(kinds, Served(kinds, c, id), id + 1)
  }

  lemma KeepsRefused(ls: seq<LineState>, l: nat, s: LineState)
    requires l < |ls| && !ls[l].Refused?
    ensures SomeRefused(ls) || s.Refused? ==> SomeRefused(ls[l := s])
  {
    if s.Refused? {
      assert ls[l := s][l].Refused?;
    } else if SomeRefused(ls) {
      var m :| 0 <= m < |ls| && ls[m].Refused?;
      assert ls[l := s][m].Refused?;
    }
  }

  /** When every worker has finished, every line has been merged, and none was wrong. */
  lemma AllFinished(kinds: seq<Kind>, c: Control)
    requires Linked(kinds, c) && c.finished == |c.ws|
    ensures c.next == c.processed == |c.ls| && forall l :: 0 <= l < |c.ls| ==> c.ls[l].Merged? && kinds[l].Right?
  {
    AllOnline(c);
    assert WorkerOk(c, 0);
    forall l | 0 <= l < |c.ls| ensures c.ls[l].Merged? && kinds[l].Right? {
      assert LineOk(kinds, c, l);
    }
    FullFlags(MergedFlags(c.ls));
  }

  /** When nothing can move any more and no worker has died, the workers have all finished just if no line was wrong. */
  lemma Settled(kinds: seq<Kind>, c: Control)
    requires Linked(kinds, c) && Begun(c)
    requires forall w :: 0 <= w < |c.ws| ==> c.ws[w].Waiting? || c.ws[w].Stopped? || c.ws[w].Finished?
    ensures c.finished == |c.ws| <==> forall l :: 0 <= l < |kinds| ==> kinds[l].Right?
  {
    AllOnline(c);
    if c.finished == |c.ws| {
      AllFinished(kinds, c);
    } else {
      var w :| 0 <= w < |c.ws| && !c.ws[w].Finished?;
      assert WorkerOk(c, w);
      if c.ws[w].Stopped? {
        assert LineOk(kinds, c, c.ws[w].line);
      } else {
        var l :| 0 <= l < |c.ls| && c.ls[l].Refused?;
        assert LineOk(kinds, c, l);
      }
    }
  }

  // ----- The product the master keeps -----

  datatype BallotLine<P> = Broken | Parsed(vote: Vote<P>)

  /** Every entry has a cell at this place. */
  ghost predicate HasCell(zs: seq<TellerZ>, j: nat, k: nat) {
    forall i :: 0 <= i < |zs| ==> j < |zs[i].val| && k < |zs[i].val[j].values|
  }

  /** The product of one ballot's commitments at one place; zero for a ballot that lacks it. */
  ghost function LinePoint<P(!new)>(W: World<P>, line: BallotLine<P>, j: nat, k: nat): P {
    if line.Parsed? && HasCell(line.vote.zs, j, k) then W.G.Sum(ZColumn(W, line.vote.zs, j, k)) else W.G.zero
  }

  /** The products of the lines merged so far, with zero for the others. */
  ghost function MergedPoints<P(!new)>(W: World<P>, file: seq<BallotLine<P>>, ls: seq<LineState>, j: nat, k: nat):
      (r: seq<P>)
    requires |ls| == |file|
    ensures |r| == |file| && forall l :: 0 <= l < |r| ==>
      r[l] == if ls[l].Merged? then LinePoint(W, file[l], j, k) else W.G.zero
  {
    seq(|file|, l requires 0 <= l < |file| => if ls[l].Merged? then LinePoint(W, file[l], j, k) else W.G.zero)
  }

  /** The places of a published record: as many positions, and in each as many cells, as the record itself has. */
  function ShapeOf(published: seq<PosShares>): (s: seq<Position>)
    ensures |s| == |published| && forall j :: 0 <= j < |s| ==> |s[j].cand| == |published[j].values|
  {
    seq(|published|, j requires 0 <= j < |published| => Position(published[j].pid, seq(|published[j].values|, k => 0)))
  }

  ghost predicate SumsAre<P(!new)>(W: World<P>, shape: seq<Position>, file: seq<BallotLine<P>>, ls: seq<LineState>,
                                   grid: seq<seq<P>>)
    requires |ls| == |file|
  {
    && GridFits(grid, shape)
    && forall j, k :: 0 <= j < |shape| && 0 <= k < |shape[j].cand| ==>
      grid[j][k] == W.G.Sum(MergedPoints(W, file, ls, j, k))
  }

  /** Every entry of the ballot has all these places. */
  ghost predicate Carries(zs: seq<TellerZ>, shape: seq<Position>) {
    forall i :: 0 <= i < |zs| ==> Reaches(zs[i].val, shape)
  }

  /** Every cell of the grid times the product of that cell over the entries of a ballot. */
  ghost predicate BallotMerged<P(!new)>(W: World<P>, shape: seq<Position>, grid: seq<seq<P>>, grid': seq<seq<P>>,
                                        zs: seq<TellerZ>)
    requires GridFits(grid, shape) && Carries(zs, shape)
  {
    GridFits(grid', shape) && forall j, k :: 0 <= j < |shape| && 0 <= k < |shape[j].cand| ==>
      HasCell(zs, j, k) && grid'[j][k] == W.G.add(grid[j][k], W.G.Sum(ZColumn(W, zs, j, k)))
  }

  lemma BallotMergedStep<P(!new)>(W: World<P>, shape: seq<Position>, start: seq<seq<P>>, before: seq<seq<P>>,
                                  after: seq<seq<P>>, zs: seq<TellerZ>, t: TellerZ)
    requires W.Valid() && GridFits(start, shape) && Carries(zs, shape) && Reaches(t.val, shape)
    requires BallotMerged(W, shape, start, before, zs) && Multiplied(W, shape, before, after, t.val)
    ensures Carries(zs + [t], shape) && BallotMerged(W, shape, start, after, zs + [t])
  {
    var all := zs + [t];
    assert Carries(all, shape);
    forall j, k | 0 <= j < |shape| && 0 <= k < |shape[j].cand|
      ensures HasCell(all, j, k) && after[j][k] == W.G.add(start[j][k], W.G.Sum(ZColumn(W, all, j, k)))
    {
      var z := W.dec(t.val[j].values[k].z);
      assert HasCell(all, j, k);
      assert ZColumn(W, all, j, k) == ZColumn(W, zs, j, k) + [z];
      SumAppend(W.G, ZColumn(W, zs, j, k), z);
      assert W.G.Associates(start[j][k], W.G.Sum(ZColumn(W, zs, j, k)), z);
    }
  }

  /** The loop over the tellers' entries of a ballot that a worker has found correct; false stands for the exception at
      a place of the record that an entry lacks. */
  method MergeBallot<P(!new)>(W: World<P>, ghost shape: seq<Position>, grid: seq<seq<P>>, zs: seq<TellerZ>,
                              tellers: nat)
    returns (ok: bool, grid': seq<seq<P>>)
    requires W.Valid() && GridFits(grid, shape) && |zs| == tellers
    ensures ok <==> Carries(zs, shape)
    ensures ok ==> BallotMerged(W, shape, grid, grid', zs)
  {
    hide Reaches, Multiplied, World.Valid, BallotMerged;
    ok, grid' := true, grid;
    NothingMerged(W, shape, grid);
    var i := 0;
    while i < tellers && ok
      invariant 0 <= i <= tellers
      invariant ok ==> GridFits(grid', shape) && Carries(zs[..i], shape) && BallotMerged(W, shape, grid, grid', zs[..i])
      invariant !ok ==> !Carries(zs, shape)
    {
      var next;
      ok, next := MultResult(W, shape, grid', zs[i].val);
      if ok {
        assert zs[..i + 1] == zs[..i] + [zs[i]];
        BallotMergedStep(W, shape, grid, grid', next, zs[..i], zs[i]);
        MergedFits(W, shape, grid, next, zs[..i + 1]);
        grid' := next;
      }
      i := i + 1;
    }
    if ok {
      assert zs[..tellers] == zs;
    }
  }

  lemma MergedFits<P(!new)>(W: World<P>, shape: seq<Position>, grid: seq<seq<P>>, grid': seq<seq<P>>, zs: seq<TellerZ>)
    requires GridFits(grid, shape) && Carries(zs, shape) && BallotMerged(W, shape, grid, grid', zs)
    ensures GridFits(grid', shape)
  {
  }

  lemma NothingMerged<P(!new)>(W: World<P>, shape: seq<Position>, grid: seq<seq<P>>)
    requires W.Valid() && GridFits(grid, shape)
    ensures Carries([], shape) && BallotMerged(W, shape, grid, grid, [])
  {
    forall j, k | 0 <= j < |shape| && 0 <= k < |shape[j].cand|
      ensures grid[j][k] == W.G.add(grid[j][k], W.G.Sum(ZColumn(W, [], j, k)))
    {
      ZeroLeft(W.G, grid[j][k]);
    }
  }

  /** Lines may be merged in any order: each fills its own place in the sum. */
  lemma MergeLine<P(!new)>(W: World<P>, shape: seq<Position>, file: seq<BallotLine<P>>, ls: seq<LineState>, l: nat,
                           grid: seq<seq<P>>, grid': seq<seq<P>>)
    requires W.Valid() && |ls| == |file| && l < |file| && !ls[l].Merged?
    requires file[l].Parsed? && Carries(file[l].vote.zs, shape)
    requires SumsAre(W, shape, file, ls, grid) && BallotMerged(W, shape, grid, grid', file[l].vote.zs)
    ensures SumsAre(W, shape, file, ls[l := Merged], grid')
  {
    forall j, k | 0 <= j < |shape| && 0 <= k < |shape[j].cand|
      ensures grid'[j][k] == W.G.Sum(MergedPoints(W, file, ls[l := Merged], j, k))
    {
      var before := MergedPoints(W, file, ls, j, k);
      assert MergedPoints(W, file, ls[l := Merged], j, k) == before[l := LinePoint(W, file[l], j, k)];
      SumUpdate(W.G, before, l, LinePoint(W, file[l], j, k));
    }
  }

  /** No other change of state touches the sum. */
  lemma SameMerged<P(!new)>(W: World<P>, shape: seq<Position>, file: seq<BallotLine<P>>, ls: seq<LineState>, l: nat,
                            s: LineState, grid: seq<seq<P>>)
    requires |ls| == |file| && l < |file| && !ls[l].Merged? && !s.Merged? && SumsAre(W, shape, file, ls, grid)
    ensures SumsAre(W, shape, file, ls[l := s], grid)
  {
    forall j, k | 0 <= j < |shape| && 0 <= k < |shape[j].cand|
      ensures MergedPoints(W, file, ls[l := s], j, k) == MergedPoints(W, file, ls, j, k)
    {
    }
  }

  // ----- The check of the published numbers -----

  /** The loops run over the record that was read, whatever its shape, and read neither its pids nor its cids. */
  method VerifySummation<P(!new,==)>(W: World<P>, published: seq<PosShares>, grid: seq<seq<P>>) returns (ok: bool)
    requires GridFits(grid, ShapeOf(published))
    ensures ok <==> forall j, k :: 0 <= j < |published| && 0 <= k < |published[j].values| ==>
      W.G.Com(published[j].values[k].x, published[j].values[k].y) == grid[j][k]
  {
    for j := 0 to |published|
      invariant forall m, k :: 0 <= m < j && 0 <= k < |published[m].values| ==>
        W.G.Com(published[m].values[k].x, published[m].values[k].y) == grid[m][k]
    {
      for k := 0 to |published[j].values|
        invariant forall m :: 0 <= m < k ==> W.G.Com(published[j].values[m].x, published[j].values[m].y) == grid[j][m]
      {
        if W.G.Com(published[j].values[k].x, published[j].values[k].y) != grid[j][k] {
          return false;
        }
      }
    }
    return true;
  }

  // ----- The master -----

  class Master<P(!new,==)> {
    const W: World<P>
    const layout: seq<Position>
    const eid: int
    const tellerKeys: seq<string>
    const authPub: string
    const published: seq<PosShares>
    const file: seq<BallotLine<P>>
    /** The reader's place in the file, and the master's counters. */
    var next: nat
    var ballotCount: nat
    var processedCount: nat
    var onlineWorker: nat
    var finishedWorkers: nat
    var success: bool
    var ended: bool
    /** An exception in a handler has ended the master. */
    var crashed: bool
    /** The points the master hangs on the record's own cells. */
    var summation: seq<seq<P>>
    /** What is under way between the master and each worker. */
    var worker: seq<Phase>
    ghost var lines: seq<LineState>

    /** The master overwrites the election's id in every ballot it hands out. */
    function Handed(l: nat): Vote<P>
      requires l < |file| && file[l].Parsed?
    {
      var v := file[l].vote;
      v.(link := v.link.(eid := eid))
    }

    ghost function KindOf(l: nat): Kind
      requires W.G.order > 0 && l < |file|
    {
      if file[l].Broken? then NoBallot
      else if BoardAccepts(W, layout, tellerKeys, authPub, Handed(l)) then Right
      else Wrong
    }

    ghost function Kinds(): (r: seq<Kind>)
      requires W.G.order > 0
      ensures |r| == |file| && forall l :: 0 <= l < |r| ==> r[l] == KindOf(l)
    {
      seq(|file|, l requires 0 <= l < |file| => KindOf(l))
    }

    /** The places of the record that was read. */
    function Shape(): seq<Position> {
      ShapeOf(published)
    }

    /** Line l has every place of the record. */
    ghost predicate LineCarries(l: nat)
      requires l < |file|
    {
      file[l].Parsed? && Carries(file[l].vote.zs, Shape())
    }

    /** Every pair of the record opens the product of all the ballots at its own place. */
    ghost predicate PublishedRight() {
      forall j, k :: 0 <= j < |published| && 0 <= k < |published[j].values| ==>
        Passes(W.G, published[j].values[k].x, published[j].values[k].y, FilePoints(j, k))
    }

    /** The ballots' products at one place, in the order of the file. */
    ghost function FilePoints(j: nat, k: nat): (r: seq<P>)
      ensures |r| == |file| && forall l :: 0 <= l < |r| ==> r[l] == LinePoint(W, file[l], j, k)
    {
      seq(|file|, l requires 0 <= l < |file| => LinePoint(W, file[l], j, k))
    }

    ghost function Now(): Control
      reads this
    {
      Control(next, onlineWorker, finishedWorkers, processedCount, worker, lines)
    }

    ghost predicate Consistent()
      reads this
    {
      && W.Valid() && |file| == |lines|
      && if crashed then !success && SomeLacking() else Linked(Kinds(), Now()) && Alive()
    }

    /** Some accepted ballot lacks a place of the record. */
    ghost predicate SomeLacking()
      requires W.G.order > 0
    {
      exists l :: 0 <= l < |file| && Kinds()[l].Right? && !LineCarries(l)
    }

    ghost predicate Alive()
      requires |file| == |lines|
      reads this
    {
      && ballotCount == next && SumsAre(W, Shape(), file, lines, summation)
      && (forall l :: 0 <= l < |file| && lines[l].Merged? ==> LineCarries(l))
      && (success <==> finishedWorkers == |worker| && PublishedRight())
    }

    ghost predicate Valid()
      reads this
    {
      Consistent() && (!crashed ==> Begun(Now()))
    }

    ghost function Measure(): int
      reads this
    {
      Work(Now())
    }

    constructor (W: World<P>, layout: seq<Position>, eid: int, tellerKeys: seq<string>, authPub: string,
                 published: seq<PosShares>, file: seq<BallotLine<P>>, numCPUs: nat)
      requires W.Valid() && numCPUs > 0
      ensures Valid() && worker == seq(numCPUs, w => Starting) && !success && !crashed
      ensures this.W == W && this.layout == layout && this.eid == eid && this.tellerKeys == tellerKeys
      ensures this.authPub == authPub && this.published == published && this.file == file
    {
      this.W, this.layout, this.eid, this.tellerKeys := W, layout, eid, tellerKeys;
      this.authPub, this.published, this.file := authPub, published, file;
      next, ballotCount, processedCount, onlineWorker, finishedWorkers := 0, 0, 0, 0, 0;
      success, ended, crashed := false, false, false;
      summation := seq(|published|, j requires 0 <= j < |published| => seq(|published[j].values|, k => W.G.zero));
      worker := seq(numCPUs, w => Starting);
      lines := seq(|file|, l => Unread);
      new;
      Unbegun(W, Shape(), file, worker, lines, summation);
      forall l | 0 <= l < |lines| ensures LineOk(Kinds(), Now(), l) {
      }
    }

    // ----- What the master does -----

    method EndWorkers()
      modifies this`ended
      ensures ended
    {
      ended := true;
    }

    /** One line for a worker that has nothing to do; false if it is no ballot. */
    method ProcessBallot(w: nat) returns (more: bool)
      requires Consistent() && !crashed && w < |worker| && worker[w].Waiting?
      modifies this`next, this`ballotCount, this`worker, this`lines, this`ended
      ensures Consistent()
      ensures old(next) <= |file| == |old(lines)| && Now() == Served(Kinds(), old(Now()), w)
      ensures more <==> old(next) == |file| || !Kinds()[old(next)].NoBallot?
      ensures |worker| == |old(worker)| && worker == old(worker)[w := worker[w]] && !worker[w].Waiting?
      ensures Measure() <= old(Measure()) - 2
      ensures SomeRefused(old(lines)) || !more ==> SomeRefused(lines)
    {
      hide KindOf, SumsAre, PublishedRight, Linked, Work, SomeRefused;
      var l := next;
      InFile();
      if l == |file| {
        MovedLinked(Kinds(), Now(), w, ShutdownSent);
        worker := worker[w := ShutdownSent];
        return true;
      }
      ServeLineLinked(Kinds(), Now(), w);
      BrokenIsNoBallot(l);
      more := file[l].Parsed?;
      SetLine(l, if more then Out(w) else Refused(w));
      next, ballotCount := l + 1, ballotCount + 1;
      if more {
        worker, lines := worker[w := HasBallot(l)], lines[l := Out(w)];
      } else {
        worker, lines := worker[w := Stopped(l)], lines[l := Refused(w)];
        EndWorkers();
      }
    }

    lemma InFile()
      requires Consistent() && !crashed
      ensures next <= |file|
    {
    }

    lemma Placed()
      requires Valid() && !crashed
      ensures W.G.order > 0 && next <= |file| == |lines|
    {
    }

    lemma BrokenIsNoBallot(l: nat)
      requires W.G.order > 0 && l < |file|
      ensures Kinds()[l].NoBallot? <==> file[l].Broken?
    {
    }

    /** A line that is not merged changes its state without being merged. */
    lemma SetLine(l: nat, s: LineState)
      requires Consistent() && !crashed && l < |lines| && !lines[l].Merged? && !s.Merged?
      ensures SumsAre(W, Shape(), file, lines[l := s], summation)
    {
      SameMerged(W, Shape(), file, lines, l, s, summation);
    }

    /** The loop that serves every worker once. */
    method ServeAll()
      requires Consistent() && !crashed && onlineWorker == |worker|
      requires forall v :: 0 <= v < |worker| ==> worker[v].Waiting? || worker[v].Dead?
      modifies this`next, this`ballotCount, this`worker, this`lines, this`ended
      ensures Consistent() && Begun(Now()) && Measure() <= old(Measure()) && |worker| == |old(worker)|
      ensures old(next) <= |file| == |old(lines)| && Now() == ServedFrom(Kinds(), old(Now()), 0)
    {
      hide KindOf, SumsAre, PublishedRight, Linked, Work, Served;
      InFile();
      ghost var all := ServedFrom(Kinds(), Now(), 0);
      var id, more := 0, true;
      while id < |worker| && more
        invariant 0 <= id <= |worker| == |old(worker)| == onlineWorker && Consistent() && Measure() <= old(Measure())
        invariant next <= |file| == |lines|
        invariant all == if more then ServedFrom(Kinds(), Now(), id) else Now()
        invariant forall v :: id <= v < |worker| ==> worker[v].Waiting? || worker[v].Dead?
        invariant more ==> forall v :: 0 <= v < id ==> !worker[v].Waiting?
        invariant !more ==> SomeRefused(lines)
      {
        if worker[id].Waiting? {
          more := ProcessBallot(id);
          InFile();
        }
        id := id + 1;
      }
    }

    /** A worker has come online; the last one sets the work going. */
    method OnOnline(w: nat)
      requires Valid() && !crashed && w < |worker| && worker[w].Starting?
      modifies this`onlineWorker, this`next, this`ballotCount, this`worker, this`lines, this`ended
      ensures Valid() && Measure() < old(Measure()) && |worker| == |old(worker)|
      ensures old(next) <= |file| == |old(lines)|
      ensures var c := Moved(old(Now()), w, Waiting);
        Now() == if c.online < |c.ws| then c else ServedFrom(Kinds(), c, 0)
    {
      hide KindOf, SumsAre, PublishedRight, LinesOk, WorkersOk, CountersOk, Work, ServedFrom;
      InFile();
      FinishedFirst(w);
      MovedLinked(Kinds(), Now(), w, Waiting);
      worker := worker[w := Waiting];
      onlineWorker := onlineWorker + 1;
      AllOnline(Now());
      if onlineWorker == |worker| {
        hide Begun;
        ServeAll();
      }
    }

    /** While a worker is starting, not all have finished. */
    lemma FinishedFirst(w: nat)
      requires Valid() && !crashed && w < |worker| && !worker[w].Finished?
      ensures finishedWorkers < |worker| && !success
      ensures if Idle(worker[w]) then worker[w].Starting? ==> onlineWorker < |worker| else onlineWorker == |worker|
    {
      hide LinesOk, WorkersOk, PublishedRight;
      AllOnline(Now());
    }

    /** The commitments of a correct ballot are multiplied in; an exception at a place of the record that the ballot
        lacks ends the master. */
    method Merge(w: nat)
      requires Consistent() && !crashed && w < |worker| && worker[w].Verdict? && worker[w].verify
      requires finishedWorkers < |worker|
      modifies this`processedCount, this`summation, this`worker, this`lines, this`crashed
      ensures Consistent() && old(worker)[w].line < |old(lines)| == |file|
      ensures crashed <==> !LineCarries(old(worker)[w].line)
      ensures !crashed ==>
        worker == old(worker)[w := Waiting] && Measure() <= old(Measure()) + 1 && Now() == Judged(old(Now()), w)
        && (SomeRefused(old(lines)) ==> SomeRefused(lines))
      ensures crashed ==> worker == old(worker)
    {
      hide KindOf, SumsAre, PublishedRight, LinesOk, WorkersOk, CountersOk, SomeRefused, Work, Carries, ShapeOf;
      JudgedLinked(Kinds(), Now(), w);
      var l := worker[w].line;
      processedCount := processedCount + 1;
      MergeCorrect(l);
      var ok, sum := MergeBallot(W, Shape(), summation, file[l].vote.zs, |tellerKeys|);
      if !ok {
        assert Kinds()[l].Right? && !LineCarries(l);
        crashed := true;
        return;
      }
      MergeLine(W, Shape(), file, lines, l, summation, sum);
      summation, worker, lines := sum, worker[w := Waiting], lines[l := Merged];
    }

    /** A verdict has come in. A correct ballot is multiplied in, and its worker gets the next line; at a wrong one the
        master ends the workers. */
    method OnVerdict(w: nat)
      requires Valid() && !crashed && w < |worker| && worker[w].Verdict?
      modifies this`processedCount, this`summation, this`next, this`ballotCount, this`worker, this`lines, this`ended,
               this`crashed
      ensures Valid() && |worker| == |old(worker)| && (!crashed ==> Measure() < old(Measure()))
      ensures old(worker)[w].line < |old(lines)| == |file| && old(next) <= |file|
      ensures crashed <==> old(worker)[w].verify && !LineCarries(old(worker)[w].line)
      ensures !crashed ==>
        Now() == if old(worker)[w].verify then Served(Kinds(), Judged(old(Now()), w), w) else Judged(old(Now()), w)
      ensures crashed ==> worker == old(worker)
    {
      hide KindOf, SumsAre, PublishedRight, LinesOk, WorkersOk, CountersOk, SomeRefused, Work, LineCarries;
      InFile();
      FinishedFirst(w);
      if worker[w].verify {
        Merge(w);
        if !crashed {
          var _ := ProcessBallot(w);
        }
      } else {
        JudgedLinked(Kinds(), Now(), w);
        var l := worker[w].line;
        SetLine(l, Refused(w));
        worker, lines := worker[w := Stopped(l)], lines[l := Refused(w)];
        EndWorkers();
      }
    }

    lemma MergeCorrect(l: nat)
      requires W.Valid() && |lines| == |file| && SumsAre(W, Shape(), file, lines, summation)
      requires l < |file| && Kinds()[l].Right?
      ensures file[l].Parsed? && AllFit(file[l].vote.zs, layout) && |file[l].vote.zs| == |tellerKeys|
      ensures GridFits(summation, Shape())
    {
      hide PositionProved;
      var v := Handed(l);
      assert KindOf(l).Right?;
      PartsFit(W, layout, tellerKeys, v.link, v.zs);
    }

    /** A worker has finished; with the last one the published numbers are checked. */
    method OnFinished(w: nat)
      requires Valid() && !crashed && w < |worker| && worker[w].FinishedSent?
      modifies this`finishedWorkers, this`success, this`worker, this`ended
      ensures Valid() && Measure() < old(Measure()) && |worker| == |old(worker)|
      ensures Now() == Moved(old(Now()), w, Finished)
    {
      hide KindOf, SumsAre, PublishedRight, LinesOk, WorkersOk, CountersOk, LineCarries;
      FinishedFirst(w);
      MovedLinked(Kinds(), Now(), w, Finished);
      worker := worker[w := Finished];
      finishedWorkers := finishedWorkers + 1;
      AllOnline(Now());
      if finishedWorkers == |worker| {
        AllFinished(Kinds(), Now());
        OpensIsRight();
        success := VerifySummation(W, published, summation);
        EndWorkers();
      }
    }

    lemma OpensIsRight()
      requires |lines| == |file| && SumsAre(W, Shape(), file, lines, summation)
      requires forall l :: 0 <= l < |lines| ==> lines[l].Merged?
      ensures GridFits(summation, Shape())
      ensures PublishedRight() <==> forall j, k :: 0 <= j < |published| && 0 <= k < |published[j].values| ==>
        W.G.Com(published[j].values[k].x, published[j].values[k].y) == summation[j][k]
    {
      hide Group.Com, Group.Sum;
      forall j, k | 0 <= j < |published| && 0 <= k < |published[j].values|
        ensures summation[j][k] == W.G.Sum(FilePoints(j, k))
      {
        assert |Shape()[j].cand| == |published[j].values|;
        assert MergedPoints(W, file, lines, j, k) == FilePoints(j, k);
      }
    }

    // ----- What a worker does -----

    method WorkerVerifies(w: nat)
      requires Valid() && !crashed && w < |worker| && worker[w].HasBallot?
      modifies this`worker
      ensures Valid() && Measure() < old(Measure()) && |worker| == |old(worker)|
      ensures var l := old(worker)[w].line;
        l < |file| && file[l].Parsed?
        && worker == old(worker)[w := Verdict(l, BoardAccepts(W, layout, tellerKeys, authPub, Handed(l)))]
    {
      hide SumsAre, PublishedRight, KindOf, Work, CountersOk;
      var l := worker[w].line;
      FinishedFirst(w);
      assert WorkerOk(Now(), w) && LineOk(Kinds(), Now(), l);
      hide LinesOk, WorkersOk, WorkerOk, LineOk;
      BrokenIsNoBallot(l);
      var ok := VerifyBallot(W, layout, tellerKeys, authPub, Handed(l));
      RightIsAccepted(l);
      MovedLinked(Kinds(), Now(), w, Verdict(l, ok));
      worker := worker[w := Verdict(l, ok)];
    }

    lemma RightIsAccepted(l: nat)
      requires W.G.order > 0 && l < |file| && file[l].Parsed?
      ensures Kinds()[l].Right? <==> BoardAccepts(W, layout, tellerKeys, authPub, Handed(l))
    {
    }

    method WorkerShutsDown(w: nat)
      requires Valid() && !crashed && w < |worker| && worker[w].ShutdownSent?
      modifies this`worker
      ensures Valid() && Measure() < old(Measure()) && worker == old(worker)[w := FinishedSent]
    {
      hide KindOf, SumsAre, PublishedRight, LinesOk, WorkersOk, CountersOk, Work;
      FinishedFirst(w);
      MovedLinked(Kinds(), Now(), w, FinishedSent);
      worker := worker[w := FinishedSent];
    }

    /** A worker that is not done dies. */
    method WorkerDies(w: nat)
      requires Valid() && !crashed && w < |worker| && Weight(worker[w]) > 0
      modifies this`worker
      ensures Valid() && Measure() < old(Measure())
      ensures worker == old(worker)[w := if old(worker)[w].Starting? then Lost else Dead]
    {
      hide KindOf, SumsAre, PublishedRight, LinesOk, WorkersOk, CountersOk, Work;
      FinishedFirst(w);
      var p := if worker[w].Starting? then Lost else Dead;
      MovedLinked(Kinds(), Now(), w, p);
      worker := worker[w := p];
    }

    // ----- Whole runs -----

    /** One event at worker w, whatever is due there; a worker that still has something to do may die instead. Nothing
        happens once an exception has ended the master. */
    method Act(w: nat, dies: bool) returns (acted: bool)
      requires Valid()
      modifies this
      ensures Valid() && |worker| == |old(worker)|
      ensures acted <==> !old(crashed) && w < |worker| && (Due(old(worker)[w]) || (dies && old(worker)[w].Waiting?))
      ensures acted && !crashed ==> Measure() < old(Measure())
      ensures !acted ==> Measure() == old(Measure()) && worker == old(worker) && crashed == old(crashed)
      ensures !dies && NoneDead(old(worker)) ==> NoneDead(worker)
    {
      hide Linked, Begun, SumsAre, PublishedRight, Work, Consistent, Served, ServedFrom, Judged, NoneDead;
      if crashed || w >= |worker| {
        return false;
      }
      if dies && Weight(worker[w]) > 0 {
        WorkerDies(w);
        return true;
      }
      ghost var c := Now();
      Placed();
      match worker[w] {
        case Starting =>
          OnOnline(w);
          ServedNoneDead(Kinds(), c, w);
          return true;
        case HasBallot(_) =>
          WorkerVerifies(w);
          StaysAlive(c.ws, w, worker[w]);
          return true;
        case Verdict(_, _) =>
          OnVerdict(w);
          if !crashed {
            JudgedNoneDead(Kinds(), c, w);
          }
          return true;
        case ShutdownSent =>
          WorkerShutsDown(w);
          StaysAlive(c.ws, w, worker[w]);
          return true;
        case FinishedSent =>
          OnFinished(w);
          StaysAlive(c.ws, w, Finished);
          return true;
        case _ =>
          return false;
      }
    }

    /** A worker at which something is due. */
    method FindDue() returns (w: nat)
      ensures w < |worker| ==> Due(worker[w])
      ensures w >= |worker| ==> forall v :: 0 <= v < |worker| ==> !Due(worker[v])
    {
      w := 0;
      while w < |worker| && !Due(worker[w])
        invariant 0 <= w <= |worker|
        invariant forall v :: 0 <= v < w ==> !Due(worker[v])
      {
        w := w + 1;
      }
    }

    /** Every schedule of events, and of deaths, comes to an end. */
    method Run(schedule: nat -> (nat, bool))
      requires Valid()
      modifies this
      ensures Valid() && (crashed || forall w :: 0 <= w < |worker| ==> !Due(worker[w]))
      ensures (forall t: nat :: !schedule(t).1) && NoneDead(old(worker)) ==> NoneDead(worker)
    {
      hide Consistent, Linked, Begun, SumsAre, PublishedRight, Work, NoneDead;
      var t: nat := 0;
      var w: nat := FindDue();
      while w < |worker| && !crashed
        invariant Valid()
        invariant (forall t: nat :: !schedule(t).1) && NoneDead(old(worker)) ==> NoneDead(worker)
        invariant w < |worker| ==> Due(worker[w])
        invariant w >= |worker| ==> forall v :: 0 <= v < |worker| ==> !Due(worker[v])
        decreases !crashed, Measure()
      {
        MeasurePositive();
        var (pick, dies) := schedule(t);
        var acted := Act(pick, dies);
        if !acted {
          var _ := Act(w, dies);
        }
        t := t + 1;
        w := FindDue();
      }
    }

    lemma MeasurePositive()
      requires Valid() && !crashed
      ensures Measure() >= 0
    {
      hide LinesOk, WorkersOk, PublishedRight, SumsAre;
      NonNegative(Weights(worker));
    }

    /** Success: every line was handed out and came back, was accepted, and was multiplied in once; and every pair of
        the record opens the product of the whole file at its place. */
    lemma SuccessMeans()
      requires Valid() && success
      ensures !crashed && ballotCount == processedCount == |file| == |lines| && PublishedRight()
      ensures forall l :: 0 <= l < |file| ==>
        lines[l].Merged? && LineCarries(l) && BoardAccepts(W, layout, tellerKeys, authPub, Handed(l))
    {
      hide LinesOk, WorkersOk, SumsAre, BoardAccepts, PublishedRight, Carries;
      AllFinished(Kinds(), Now());
      forall l | 0 <= l < |file| ensures file[l].Parsed? && BoardAccepts(W, layout, tellerKeys, authPub, Handed(l)) {
        assert Kinds()[l] == KindOf(l);
      }
    }

    /** Behind a success every line carries a link that the authority has signed for this very election, whatever id the
        line itself gives. */
    lemma SuccessIsEligible()
      requires Valid() && success
      ensures forall l :: 0 <= l < |file| ==>
        file[l].Parsed? && var k := file[l].vote.link.(eid := eid);
        k.regTime < k.linkTime && W.verify(ParamStr(W, k), k.linkSign, authPub)
    {
      hide LinesOk, WorkersOk, SumsAre, PublishedRight, Carries, BoardAccepts, ParamStr;
      SuccessMeans();
      Placed();
      forall l | 0 <= l < |file|
        ensures file[l].Parsed? && var k := file[l].vote.link.(eid := eid);
          k.regTime < k.linkTime && W.verify(ParamStr(W, k), k.linkSign, authPub)
      {
        assert LineCarries(l);
        AcceptedLink(W, layout, tellerKeys, authPub, Handed(l));
      }
    }

    /** One line that is no ballot, or one ballot that is refused or lacks a place, rules success out from the start. */
    lemma OneWrongLine(l: nat)
      requires Valid() && l < |file|
      requires file[l].Broken? || !BoardAccepts(W, layout, tellerKeys, authPub, Handed(l)) || !LineCarries(l)
      ensures !success
    {
      hide BoardAccepts, PublishedRight, Carries;
      var carries := LineCarries(l);
      if success {
        SuccessMeans();
        assert false;
      }
    }

    /** A run that has come to its end without a death succeeds just if all ballots are right, none lacks a place of the
        record, and every pair of the record opens the product at its place. */
    lemma RunOutcome()
      requires Valid() && NoneDead(worker) && (crashed || forall w :: 0 <= w < |worker| ==> !Due(worker[w]))
      ensures success <==> PublishedRight() && forall l :: 0 <= l < |file| ==> Kinds()[l].Right? && LineCarries(l)
    {
      hide LinesOk, WorkersOk, CountersOk, SumsAre, PublishedRight, Begun, KindOf, Carries;
      if !crashed {
        Settled(Kinds(), Now());
        if finishedWorkers == |worker| {
          AllFinished(Kinds(), Now());
        }
      }
    }

    /** The ids that the lines give make no difference: on two files that differ in them only, the same ballots are
        right, and two runs at their end without a death have the same outcome. */
    lemma LineIdsUnread(other: Master<P>)
      requires Valid() && other.Valid() && NoneDead(worker) && NoneDead(other.worker)
      requires crashed || forall w :: 0 <= w < |worker| ==> !Due(worker[w])
      requires other.crashed || forall w :: 0 <= w < |other.worker| ==> !Due(other.worker[w])
      requires other.W == W && other.layout == layout && other.eid == eid && other.tellerKeys == tellerKeys
      requires other.authPub == authPub && other.published == published && SameButIds(file, other.file)
      ensures Kinds() == other.Kinds() && success == other.success
    {
      hide LinesOk, WorkersOk, CountersOk, SumsAre, Begun, Carries, BoardAccepts;
      forall l | 0 <= l < |file| ensures KindOf(l) == other.KindOf(l) && LineCarries(l) == other.LineCarries(l) {
        assert file[l].Parsed? ==> Handed(l) == other.Handed(l);
      }
      assert Kinds() == other.Kinds();
      assert forall j, k :: FilePoints(j, k) == other.FilePoints(j, k);
      RunOutcome();
      other.RunOutcome();
    }

    /** What the board published from a file of right ballots, the verifier confirms on the same file, and no ballot
        lacks a place of it. */
    lemma PublicationConfirmed(dump: seq<FileLine>, counts: seq<seq<PosShares>>)
      requires W.Valid() && CountFits(published, layout) && |dump| == |file| && |counts| == |tellerKeys|
      requires forall l :: 0 <= l < |file| ==> Kinds()[l].Right? && file[l].Parsed? && dump[l] == Read(file[l].vote.zs)
      requires FileReaches(dump, layout, |counts|) && AllCountsFit(counts, layout)
      requires forall i :: 0 <= i < |counts| ==> TotalPasses(W, layout, |counts|, dump, i, counts[i])
      requires SummationIs(W.G.order, published, layout, counts)
      ensures PublishedRight() && forall l :: 0 <= l < |file| ==> LineCarries(l)
    {
      hide KindOf, TotalPasses, LineReaches, SummationIs, CountFits;
      PublicationVerifies(W, layout, dump, counts, published);
      SumsConfirmed(dump);
    }

    /** The board's sums over the whole file are what the verifier compares with. */
    lemma SumsConfirmed(dump: seq<FileLine>)
      requires W.Valid() && CountFits(published, layout) && |dump| == |file|
      requires forall l :: 0 <= l < |file| ==> Kinds()[l].Right? && file[l].Parsed? && dump[l] == Read(file[l].vote.zs)
      requires FileReaches(dump, layout, |tellerKeys|)
      requires SummationPasses(W, layout, |tellerKeys|, dump, published)
      ensures PublishedRight() && forall l :: 0 <= l < |file| ==> LineCarries(l)
    {
      hide KindOf, LineReaches;
      forall j, k | 0 <= j < |published| && 0 <= k < |published[j].values|
        ensures Passes(W.G, published[j].values[k].x, published[j].values[k].y, FilePoints(j, k))
      {
        assert CountRowFits(published[j], layout[j]);
        assert CountCell(published, layout, j, k) == published[j].values[k];
        forall l | 0 <= l < |file|
          ensures FilePoints(j, k)[l] == LineSums(W, layout, |tellerKeys|, dump, j, k)[l]
        {
          RightLinePoint(l, dump[l], j, k);
        }
        assert FilePoints(j, k) == LineSums(W, layout, |tellerKeys|, dump, j, k);
      }
      forall l | 0 <= l < |file| ensures LineCarries(l) {
        RightLineCarries(l);
      }
    }

    /** A right ballot has every place of a record of the election's shape. */
    lemma RightLineCarries(l: nat)
      requires W.Valid() && l < |file| && Kinds()[l].Right? && CountFits(published, layout)
      ensures LineCarries(l)
    {
      hide PositionProved;
      var v := Handed(l);
      assert KindOf(l).Right?;
      PartsFit(W, layout, tellerKeys, v.link, v.zs);
      forall i | 0 <= i < |v.zs| ensures Reaches(v.zs[i].val, Shape()) {
        assert ZFits(v.zs[i].val, layout);
        forall j | 0 <= j < |published| ensures |v.zs[i].val[j].values| >= |Shape()[j].cand| {
          assert ZRowFits(v.zs[i].val[j], layout[j]) && CountRowFits(published[j], layout[j]);
        }
      }
    }

    lemma RightLinePoint(l: nat, line: FileLine, j: nat, k: nat)
      requires W.Valid() && l < |file| && Kinds()[l].Right? && j < |layout| && k < |layout[j].cand|
      requires file[l].Parsed? && line == Read(file[l].vote.zs) && LineReaches(line, layout, |tellerKeys|)
      ensures LinePoint(W, file[l], j, k) == W.G.Sum(BallotFactors(W, layout, |tellerKeys|, line, j, k))
    {
      hide PositionProved;
      var v := Handed(l);
      assert KindOf(l).Right?;
      PartsFit(W, layout, tellerKeys, v.link, v.zs);
      forall i | 0 <= i < |v.zs| ensures j < |v.zs[i].val| && k < |v.zs[i].val[j].values| {
        assert ZFits(v.zs[i].val, layout) && ZRowFits(v.zs[i].val[j], layout[j]);
      }
      assert BallotFactors(W, layout, |tellerKeys|, line, j, k) == ZColumn(W, v.zs, j, k);
    }
  }

  lemma AcceptedLink<P(!new)>(W: World<P>, layout: seq<Position>, tellerKeys: seq<string>, authPub: string, v: Vote<P>)
    requires W.G.order > 0 && BoardAccepts(W, layout, tellerKeys, authPub, v)
    ensures v.link.regTime < v.link.linkTime && W.verify(ParamStr(W, v.link), v.link.linkSign, authPub)
  {
    hide PositionProved, TellerPartOk, ParamStr;
  }

  /** Line by line the same ballots, but for the election's id in their links. */
  ghost predicate SameButIds<P>(a: seq<BallotLine<P>>, b: seq<BallotLine<P>>) {
    |a| == |b| && forall l :: 0 <= l < |a| ==>
      (a[l].Broken? <==> b[l].Broken?) && (a[l].Parsed? ==> SameButId(a[l].vote, b[l].vote))
  }

  ghost predicate SameButId<P>(v: Vote<P>, w: Vote<P>) {
    v.zs == w.zs && v.proofs == w.proofs && v.link.(eid := 0) == w.link.(eid := 0)
  }

  /** No worker has died. */
  ghost predicate NoneDead(ws: seq<Phase>) {
    forall w :: 0 <= w < |ws| ==> !ws[w].Lost? && !ws[w].Dead?
  }

  lemma StaysAlive(ws: seq<Phase>, w: nat, p: Phase)
    requires w < |ws|
    ensures NoneDead(ws) && !p.Lost? && !p.Dead? ==> NoneDead(ws[w := p])
  {
  }

  lemma {:induction false} FromNoneDead(kinds: seq<Kind>, c: Control, id: nat)
    requires id <= |c.ws| && c.next <= |c.ls| == |kinds| && NoneDead(c.ws)
    ensures NoneDead(ServedFrom(kinds, c, id).ws)
    decreases |c.ws| - id
  {
    if id < |c.ws| {
      if c.ws[id].Waiting? {
        FromNoneDead(kinds, Served(kinds, c, id), id + 1);
      } else {
        FromNoneDead(kinds, c, id + 1);
      }
    }
  }

  lemma ServedNoneDead(kinds: seq<Kind>, c: Control, w: nat)
    requires w < |c.ws| && c.next <= |c.ls| == |kinds|
    ensures var c' := Moved(c, w, Waiting);
      NoneDead(c.ws) ==> NoneDead(c'.ws) && NoneDead(ServedFrom(kinds, c', 0).ws)
  {
    if NoneDead(c.ws) {
      FromNoneDead(kinds, Moved(c, w, Waiting), 0);
    }
  }

  lemma JudgedNoneDead(kinds: seq<Kind>, c: Control, w: nat)
    requires w < |c.ws| && c.next <= |c.ls| == |kinds| && c.ws[w].Verdict? && c.ws[w].line < |c.ls|
    ensures NoneDead(c.ws) ==> NoneDead(Judged(c, w).ws) && NoneDead(Served(kinds, Judged(c, w), w).ws)
  {
  }

  /** A message is under way, or the worker is starting or at work. */
  predicate Due(p: Phase) {
    Weight(p) > 0 && !p.Waiting?
  }

  lemma {:induction false} NonNegative(s: seq<int>)
    requires forall i :: 0 <= i < |s| ==> s[i] >= 0
    ensures Total(s) >= 0
  {
    if s != [] {
      NonNegative(s[..|s| - 1]);
    }
  }

  lemma Unbegun<P(!new)>(W: World<P>, shape: seq<Position>, file: seq<BallotLine<P>>, ws: seq<Phase>,
                         ls: seq<LineState>, grid: seq<seq<P>>)
    requires W.Valid() && |ls| == |file| && GridFits(grid, shape) && AllZero(W, grid)
    requires (forall w :: 0 <= w < |ws| ==> ws[w].Starting?) && forall l :: 0 <= l < |ls| ==> ls[l].Unread?
    ensures Total(OnlineFlags(ws)) == Total(FinishedFlags(ws)) == Total(MergedFlags(ls)) == 0
    ensures SumsAre(W, shape, file, ls, grid)
  {
    TotalOfZeros(OnlineFlags(ws));
    TotalOfZeros(FinishedFlags(ws));
    TotalOfZeros(MergedFlags(ls));
    forall j, k | 0 <= j < |shape| && 0 <= k < |shape[j].cand|
      ensures W.G.Sum(MergedPoints(W, file, ls, j, k)) == W.G.zero
    {
      SumOfZeros(W.G, MergedPoints(W, file, ls, j, k));
    }
  }
}

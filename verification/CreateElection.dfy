/** The validation of src/auth/createElection.js: which elections are accepted. */
module CreateElection {
  import opened Wrappers

  datatype PosIn = PosIn(id: int, name: string)
  datatype CandIn = CandIn(id: int, name: string)
  datatype MapIn = MapIn(pid: int, cid: int)

  /** tunnelPort is the number that is read from the start of the field's text, None if there is none. */
  datatype Data = Data(tunnelPort: Option<int>, pos: seq<PosIn>, cand: seq<CandIn>, mapping: seq<MapIn>)

  // ----- What is accepted -----

  /** Names that a fresh object already has: looking them up never yields undefined. */
  datatype Env = Env(inherited: set<string>)

  predicate ValidPort(port: Option<int>) {
    port.Some? && 0 < port.value < 65536
  }

  ghost predicate PositionsOk(env: Env, pos: seq<PosIn>) {
    && (forall i :: 0 <= i < |pos| ==> pos[i].name != "" && pos[i].name !in env.inherited)
    && (forall i, m :: 0 <= i < m < |pos| ==> pos[i].id != pos[m].id && pos[i].name != pos[m].name)
  }

  ghost predicate CandidatesOk(cand: seq<CandIn>) {
    && (forall i :: 0 <= i < |cand| ==> cand[i].name != "")
    && (forall i, m :: 0 <= i < m < |cand| ==> cand[i].id != cand[m].id)
  }

  ghost predicate HasPosition(d: Data, pid: int) {
    exists i :: 0 <= i < |d.pos| && d.pos[i].id == pid
  }

  ghost predicate HasCandidate(d: Data, cid: int) {
    exists i :: 0 <= i < |d.cand| && d.cand[i].id == cid
  }

  /** The name of a candidate id; the ids are distinct. */
  ghost function NameOf(d: Data, cid: int): string
    requires HasCandidate(d, cid)
  {
    var i :| 0 <= i < |d.cand| && d.cand[i].id == cid;
    d.cand[i].name
  }

  /** The pair names a position and a candidate, whose name does not clash with those already there. */
  ghost predicate PairOk(env: Env, d: Data, i: nat)
    requires i < |d.mapping|
  {
    var p := d.mapping[i];
    && HasPosition(d, p.pid) && HasCandidate(d, p.cid) && NameOf(d, p.cid) !in env.inherited
    && forall m :: 0 <= m < i && d.mapping[m].pid == p.pid && HasCandidate(d, d.mapping[m].cid) ==>
      d.mapping[m].cid != p.cid && NameOf(d, d.mapping[m].cid) != NameOf(d, p.cid)
  }

  function Count(mapping: seq<MapIn>, pid: int, n: nat): nat
    requires n <= |mapping|
  {
    if n == 0 then 0 else Count(mapping, pid, n - 1) + if mapping[n - 1].pid == pid then 1 else 0
  }

  ghost predicate Accepts(env: Env, d: Data) {
    && ValidPort(d.tunnelPort) && PositionsOk(env, d.pos) && CandidatesOk(d.cand)
    && (forall i :: 0 <= i < |d.mapping| ==> PairOk(env, d, i))
    && (forall i :: 0 <= i < |d.pos| ==> Count(d.mapping, d.pos[i].id, |d.mapping|) >= 2)
  }

  // ----- The loops -----

  /** What the code keeps for a position. */
  datatype Entry = Entry(ids: set<int>, names: set<string>, count: nat)

  method CheckPositions(env: Env, pos: seq<PosIn>) returns (ok: bool, posIds: map<int, Entry>)
    ensures ok <==> PositionsOk(env, pos)
    ensures ok ==> forall id :: id in posIds <==> exists i :: 0 <= i < |pos| && pos[i].id == id
    ensures ok ==> forall id :: id in posIds ==> posIds[id] == Entry({}, {}, 0)
  {
    posIds := map[];
    var posNames: set<string> := {};
    for i := 0 to |pos|
      invariant PositionsOk(env, pos[..i])
      invariant forall id :: id in posIds <==> exists m :: 0 <= m < i && pos[m].id == id
      invariant forall id :: id in posIds ==> posIds[id] == Entry({}, {}, 0)
      invariant forall name :: name in posNames <==> exists m :: 0 <= m < i && pos[m].name == name
    {
      var cur := pos[i];
      if cur.name == "" || cur.id in posIds || cur.name in posNames || cur.name in env.inherited {
        return false, posIds;
      }
      posIds := posIds[cur.id := Entry({}, {}, 0)];
      posNames := posNames + {cur.name};
    }
    assert pos[..|pos|] == pos;
    ok := true;
  }

  method CheckCandidates(cand: seq<CandIn>) returns (ok: bool, candIds: map<int, string>)
    ensures ok <==> CandidatesOk(cand)
    ensures ok ==> forall id :: id in candIds <==> exists i :: 0 <= i < |cand| && cand[i].id == id
    ensures ok ==> forall i :: 0 <= i < |cand| ==> candIds[cand[i].id] == cand[i].name
  {
    candIds := map[];
    for i := 0 to |cand|
      invariant CandidatesOk(cand[..i])
      invariant forall id :: id in candIds <==> exists m :: 0 <= m < i && cand[m].id == id
      invariant forall m :: 0 <= m < i ==> candIds[cand[m].id] == cand[m].name
    {
      var cur := cand[i];
      if cur.name == "" || cur.id in candIds {
        return false, candIds;
      }
      candIds := candIds[cur.id := cur.name];
    }
    assert cand[..|cand|] == cand;
    ok := true;
  }

  /** An entry after the first n pairs. */
  ghost predicate EntryIs(d: Data, n: nat, pid: int, e: Entry)
    requires n <= |d.mapping|
  {
    && (forall cid :: cid in e.ids <==> exists m :: 0 <= m < n && d.mapping[m] == MapIn(pid, cid))
    && (forall name :: name in e.names <==> exists m :: 0 <= m < n && NamedPair(d, m, pid, name))
    && e.count == Count(d.mapping, pid, n)
  }

  ghost predicate NamedPair(d: Data, m: nat, pid: int, name: string)
    requires m < |d.mapping|
  {
    d.mapping[m].pid == pid && HasCandidate(d, d.mapping[m].cid) && NameOf(d, d.mapping[m].cid) == name
  }

  lemma NoPair(d: Data, pid: int)
    ensures EntryIs(d, 0, pid, Entry({}, {}, 0))
  {
  }

  /** The pair is right exactly when the position's entry has room for it. */
  lemma PairFits(env: Env, d: Data, i: nat, e: Entry)
    requires i < |d.mapping| && EntryIs(d, i, d.mapping[i].pid, e)
    requires HasPosition(d, d.mapping[i].pid) && HasCandidate(d, d.mapping[i].cid)
    ensures var p := d.mapping[i]; var name := NameOf(d, p.cid);
      PairOk(env, d, i) <==> p.cid !in e.ids && name !in e.names && name !in env.inherited
  {
    var p := d.mapping[i];
    if p.cid in e.ids {
      var m :| 0 <= m < i && d.mapping[m] == MapIn(p.pid, p.cid);
    }
    var name := NameOf(d, p.cid);
    if name in e.names {
      var m :| 0 <= m < i && NamedPair(d, m, p.pid, name);
    }
    forall m | 0 <= m < i && d.mapping[m].pid == p.pid && HasCandidate(d, d.mapping[m].cid)
      ensures d.mapping[m].cid == p.cid ==> p.cid in e.ids
      ensures NameOf(d, d.mapping[m].cid) == name ==> name in e.names
    {
      assert d.mapping[m] == MapIn(p.pid, d.mapping[m].cid);
      assert NameOf(d, d.mapping[m].cid) == name ==> NamedPair(d, m, p.pid, name);
    }
  }

  lemma AddPair(d: Data, i: nat, pid: int, e: Entry)
    requires i < |d.mapping| && EntryIs(d, i, pid, e) && HasCandidate(d, d.mapping[i].cid)
    ensures var p := d.mapping[i];
      EntryIs(d, i + 1, pid, if p.pid != pid then e
                             else Entry(e.ids + {p.cid}, e.names + {NameOf(d, p.cid)}, e.count + 1))
  {
    var p := d.mapping[i];
    var e' := if p.pid != pid then e else Entry(e.ids + {p.cid}, e.names + {NameOf(d, p.cid)}, e.count + 1);
    forall cid ensures cid in e'.ids <==> exists m :: 0 <= m < i + 1 && d.mapping[m] == MapIn(pid, cid) {
      if m :| 0 <= m < i + 1 && d.mapping[m] == MapIn(pid, cid) {
        assert m == i || cid in e.ids;
      }
      if cid in e'.ids && cid !in e.ids {
        assert d.mapping[i] == MapIn(pid, cid);
      }
    }
    forall name ensures name in e'.names <==> exists m :: 0 <= m < i + 1 && NamedPair(d, m, pid, name) {
      if m :| 0 <= m < i + 1 && NamedPair(d, m, pid, name) {
        assert m == i || name in e.names;
      }
      if name in e'.names && name !in e.names {
        assert NamedPair(d, i, pid, name);
      }
    }
  }

  ghost predicate EntriesAre(d: Data, n: nat, posIds: map<int, Entry>)
    requires n <= |d.mapping|
  {
    && (forall pid :: pid in posIds <==> HasPosition(d, pid))
    && (forall pid :: pid in posIds ==> EntryIs(d, n, pid, posIds[pid]))
  }

  method CheckPairs(env: Env, d: Data, posIds: map<int, Entry>, candIds: map<int, string>) returns (ok: bool,
                    filled: map<int, Entry>)
    requires EntriesAre(d, 0, posIds) && CandidatesOk(d.cand)
    requires forall id :: id in candIds <==> HasCandidate(d, id)
    requires forall id :: id in candIds ==> candIds[id] == NameOf(d, id)
    ensures ok <==> forall i :: 0 <= i < |d.mapping| ==> PairOk(env, d, i)
    ensures ok ==> EntriesAre(d, |d.mapping|, filled)
  {
    hide EntryIs, NameOf, HasCandidate, HasPosition;
    filled := posIds;
    for i := 0 to |d.mapping|
      invariant EntriesAre(d, i, filled)
      invariant forall m :: 0 <= m < i ==> PairOk(env, d, m)
    {
      var cur := d.mapping[i];
      if cur.pid !in filled || cur.cid !in candIds {
        assert !PairOk(env, d, i);
        return false, filled;
      }
      var e, name := filled[cur.pid], candIds[cur.cid];
      PairFits(env, d, i, e);
      if cur.cid in e.ids || name in e.names || name in env.inherited {
        return false, filled;
      }
      forall pid | pid in filled
        ensures EntryIs(d, i + 1, pid, if cur.pid != pid then filled[pid]
                                       else Entry(filled[pid].ids + {cur.cid}, filled[pid].names + {name},
                                                  filled[pid].count + 1))
      {
        AddPair(d, i, pid, filled[pid]);
      }
      filled := filled[cur.pid := Entry(e.ids + {cur.cid}, e.names + {name}, e.count + 1)];
    }
    ok := true;
  }

  /** Everything that is looked at before the first row is inserted, for data of the right types. */
  method Validate(env: Env, d: Data) returns (ok: bool)
    ensures ok <==> Accepts(env, d)
  {
    if !ValidPort(d.tunnelPort) {
      return false;
    }
    var posOk, posIds := CheckPositions(env, d.pos);
    if !posOk {
      return false;
    }
    var candOk, candIds := CheckCandidates(d.cand);
    if !candOk {
      return false;
    }
    forall pid ensures EntryIs(d, 0, pid, Entry({}, {}, 0)) {
      NoPair(d, pid);
    }
    forall id | id in candIds ensures candIds[id] == NameOf(d, id) {
      NameIs(d, id);
    }
    hide EntryIs, PairOk, NameOf;
    var pairsOk, filled := CheckPairs(env, d, posIds, candIds);
    if !pairsOk {
      return false;
    }
    ok := CheckCounts(d, filled);
  }

  lemma NameIs(d: Data, id: int)
    requires HasCandidate(d, id)
    ensures exists i :: 0 <= i < |d.cand| && d.cand[i].id == id && d.cand[i].name == NameOf(d, id)
  {
  }

  lemma NameOnly(d: Data, a: nat)
    requires CandidatesOk(d.cand) && a < |d.cand|
    ensures HasCandidate(d, d.cand[a].id) && NameOf(d, d.cand[a].id) == d.cand[a].name
  {
  }

  lemma {:induction false} OnePair(mapping: seq<MapIn>, pid: int, n: nat) returns (i: nat)
    requires n <= |mapping| && Count(mapping, pid, n) >= 1
    ensures i < n && mapping[i].pid == pid
  {
    if mapping[n - 1].pid == pid {
      i := n - 1;
    } else {
      i := OnePair(mapping, pid, n - 1);
    }
  }

  lemma {:induction false} TwoPairs(mapping: seq<MapIn>, pid: int, n: nat) returns (i: nat, m: nat)
    requires n <= |mapping| && Count(mapping, pid, n) >= 2
    ensures i < m < n && mapping[i].pid == mapping[m].pid == pid
  {
    if mapping[n - 1].pid == pid {
      i := OnePair(mapping, pid, n - 1);
      m := n - 1;
    } else {
      i, m := TwoPairs(mapping, pid, n - 1);
    }
  }

  /** What voters and servers can rely on in an accepted election: ports, ids and names. */
  lemma AcceptedNames(env: Env, d: Data)
    requires Accepts(env, d)
    ensures d.tunnelPort.Some? && 1 <= d.tunnelPort.value <= 65535
    ensures forall i :: 0 <= i < |d.pos| ==> d.pos[i].name != "" && d.pos[i].name !in env.inherited
    ensures forall i, m :: 0 <= i < |d.pos| && 0 <= m < |d.pos| && i != m ==>
      d.pos[i].id != d.pos[m].id && d.pos[i].name != d.pos[m].name
    ensures forall i :: 0 <= i < |d.cand| ==> d.cand[i].name != ""
    ensures forall i, m :: 0 <= i < |d.cand| && 0 <= m < |d.cand| && d.cand[i].id == d.cand[m].id ==> i == m
  {
    hide PairOk, Count;
  }

  /** Every pair names a position and a candidate. */
  lemma AcceptedPair(env: Env, d: Data, i: nat) returns (p: nat, c: nat)
    requires Accepts(env, d) && i < |d.mapping|
    ensures p < |d.pos| && d.pos[p].id == d.mapping[i].pid
    ensures c < |d.cand| && d.cand[c].id == d.mapping[i].cid && d.cand[c].name !in env.inherited
  {
    hide PositionsOk, CandidatesOk, Count;
    assert PairOk(env, d, i);
    p :| p < |d.pos| && d.pos[p].id == d.mapping[i].pid;
    NameIs(d, d.mapping[i].cid);
    c :| c < |d.cand| && d.cand[c].id == d.mapping[i].cid && d.cand[c].name == NameOf(d, d.mapping[i].cid);
  }

  /** Within a position neither an id nor a name comes twice. */
  lemma AcceptedApart(env: Env, d: Data, a: nat, b: nat, i: nat, m: nat)
    requires Accepts(env, d) && a < |d.cand| && b < |d.cand| && i < m < |d.mapping|
    requires d.mapping[i].pid == d.mapping[m].pid
    requires d.mapping[i].cid == d.cand[a].id && d.mapping[m].cid == d.cand[b].id
    ensures d.cand[a].id != d.cand[b].id && d.cand[a].name != d.cand[b].name
  {
    hide PositionsOk, CandidatesOk, Count, NameOf;
    assert PairOk(env, d, m) && HasCandidate(d, d.mapping[i].cid);
    NameOnly(d, a);
    NameOnly(d, b);
  }

  /** Every position has two candidates at least. */
  lemma AcceptedChoice(env: Env, d: Data, p: nat) returns (i: nat, m: nat)
    requires Accepts(env, d) && p < |d.pos|
    ensures i < m < |d.mapping| && d.mapping[i].pid == d.mapping[m].pid == d.pos[p].id
  {
    i, m := TwoPairs(d.mapping, d.pos[p].id, |d.mapping|);
  }

  /** And nothing else is asked: whatever meets all that is accepted. */
  lemma NothingElse(env: Env, d: Data)
    requires d.tunnelPort.Some? && 1 <= d.tunnelPort.value <= 65535
    requires forall i :: 0 <= i < |d.pos| ==> d.pos[i].name != "" && d.pos[i].name !in env.inherited
    requires forall i, m :: 0 <= i < m < |d.pos| ==> d.pos[i].id != d.pos[m].id && d.pos[i].name != d.pos[m].name
    requires forall i :: 0 <= i < |d.cand| ==> d.cand[i].name != "" && d.cand[i].name !in env.inherited
    requires forall i, m :: 0 <= i < m < |d.cand| ==> d.cand[i].id != d.cand[m].id
    requires forall i :: 0 <= i < |d.mapping| ==>
      HasPosition(d, d.mapping[i].pid) && HasCandidate(d, d.mapping[i].cid)
    requires forall a, b, i, m :: 0 <= a < |d.cand| && 0 <= b < |d.cand| && 0 <= i < m < |d.mapping|
                                  && d.mapping[i] == MapIn(d.mapping[m].pid, d.cand[a].id)
                                  && d.mapping[m] == MapIn(d.mapping[m].pid, d.cand[b].id) ==>
      a != b && d.cand[a].name != d.cand[b].name
    requires forall p :: 0 <= p < |d.pos| ==> Count(d.mapping, d.pos[p].id, |d.mapping|) >= 2
    ensures Accepts(env, d)
  {
    hide Count, NameOf;
    assert PositionsOk(env, d.pos) && CandidatesOk(d.cand);
    forall m | 0 <= m < |d.mapping| ensures PairOk(env, d, m) {
      var p := d.mapping[m];
      NameIs(d, p.cid);
      var b :| 0 <= b < |d.cand| && d.cand[b].id == p.cid && d.cand[b].name == NameOf(d, p.cid);
      forall i | 0 <= i < m && d.mapping[i].pid == p.pid && HasCandidate(d, d.mapping[i].cid)
        ensures d.mapping[i].cid != p.cid && NameOf(d, d.mapping[i].cid) != NameOf(d, p.cid)
      {
        NameIs(d, d.mapping[i].cid);
        var a :| 0 <= a < |d.cand| && d.cand[a].id == d.mapping[i].cid && d.cand[a].name == NameOf(d, d.mapping[i].cid);
        assert d.mapping[i] == MapIn(p.pid, d.cand[a].id) && d.mapping[m] == MapIn(p.pid, d.cand[b].id);
      }
    }
  }

  /** The last loop: at least two candidates for each key of the dictionary, which are the ids of the positions. */
  method CheckCounts(d: Data, filled: map<int, Entry>) returns (ok: bool)
    requires EntriesAre(d, |d.mapping|, filled)
    ensures ok <==> forall i :: 0 <= i < |d.pos| ==> Count(d.mapping, d.pos[i].id, |d.mapping|) >= 2
  {
    for k := 0 to |d.pos|
      invariant forall i :: 0 <= i < k ==> Count(d.mapping, d.pos[i].id, |d.mapping|) >= 2
    {
      var id := d.pos[k].id;
      assert HasPosition(d, id);
      assert EntryIs(d, |d.mapping|, id, filled[id]);
      if filled[id].count < 2 {
        return false;
      }
    }
    ok := true;
  }
}

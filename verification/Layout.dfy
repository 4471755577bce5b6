/** The grid of positions and candidates, as the client (src/autoscript/autovote.js), the servers (src/common/util.js)
    and the tally (src/common/tallyingUtil.js) build it from the stored election, and when the three agree. */
module Layout {
  import opened Wrappers
  import opened Ballots
  import opened VoteServers
  import opened CreateElection

  // ----- Order -----

  ghost predicate Ascending(s: seq<int>) {
    forall i, j :: 0 <= i < j < |s| ==> s[i] < s[j]
  }

  function Insert(s: seq<int>, x: int): (r: seq<int>)
    ensures |r| == |s| + 1
    ensures forall y :: y in r <==> y in s || y == x
  {
    if s == [] then [x] else if x <= s[0] then [x] + s else [s[0]] + Insert(s[1..], x)
  }

  /** Array.prototype.sort with a numeric comparison. */
  function SortInts(s: seq<int>): (r: seq<int>)
    ensures |r| == |s| && forall y :: y in r <==> y in s
  {
    if s == [] then [] else Insert(SortInts(s[..|s| - 1]), s[|s| - 1])
  }

  lemma {:induction false} InsertAscending(s: seq<int>, x: int)
    requires Ascending(s) && x !in s
    ensures Ascending(Insert(s, x))
  {
    if s != [] && x > s[0] {
      InsertAscending(s[1..], x);
      var r := Insert(s[1..], x);
      forall i | 0 <= i < |r| ensures s[0] < r[i] {
        assert r[i] in r;
        assert r[i] in s[1..] || r[i] == x;
      }
    }
  }

  lemma {:induction false} SortAscending(s: seq<int>)
    requires Distinct(s)
    ensures Ascending(SortInts(s))
  {
    var n := |s| - 1;
    if n >= 0 {
      SortAscending(s[..n]);
      assert s[n] !in s[..n];
      InsertAscending(SortInts(s[..n]), s[n]);
    }
  }

  lemma NoElements(s: seq<int>)
    ensures s == [] || exists y :: y in s
  {
    if s != [] {
      var y := s[0];
      assert y in s;
    }
  }

  /** There is only one way to put a set of numbers in order. */
  lemma {:induction false} AscendingUnique(s: seq<int>, t: seq<int>)
    requires Ascending(s) && Ascending(t) && forall y :: y in s <==> y in t
    ensures s == t
  {
    if s == [] || t == [] {
      NoElements(s);
      NoElements(t);
    } else {
      var a, b := |s| - 1, |t| - 1;
      assert s[a] in s && t[b] in t;
      assert s[a] in t && t[b] in s;
      assert s[a] == t[b];
      forall y ensures y in s[..a] <==> y in t[..b] {
        assert y in s[..a] <==> y in s && y != s[a];
        assert y in t[..b] <==> y in t && y != t[b];
      }
      AscendingUnique(s[..a], t[..b]);
      assert s == s[..a] + [s[a]] && t == t[..b] + [t[b]];
    }
  }

  // ----- The order in which for-in enumerates -----

  function Filter(s: seq<int>, nonNegative: bool): (r: seq<int>)
    ensures forall y :: y in r <==> y in s && (y >= 0 <==> nonNegative)
  {
    if s == [] then [] else
      Filter(s[..|s| - 1], nonNegative) + if (s[|s| - 1] >= 0) == nonNegative then [s[|s| - 1]] else []
  }

  /** Keys that are array indices come first, in ascending order; the others follow in the order of insertion. */
  function ForIn(inserted: seq<int>): (r: seq<int>)
    ensures forall y :: y in r <==> y in inserted
  {
    SortInts(Filter(inserted, true)) + Filter(inserted, false)
  }

  lemma {:induction false} FilterAscending(s: seq<int>, nonNegative: bool)
    requires Ascending(s)
    ensures Ascending(Filter(s, nonNegative))
  {
    var n := |s| - 1;
    if n >= 0 {
      FilterAscending(s[..n], nonNegative);
      var f := Filter(s[..n], nonNegative);
      forall i | 0 <= i < |f| ensures f[i] < s[n] {
        assert f[i] in f;
        assert f[i] in s[..n];
      }
    }
  }

  lemma SortOfAscending(s: seq<int>)
    requires Ascending(s)
    ensures SortInts(s) == s
  {
    SortAscending(s);
    AscendingUnique(SortInts(s), s);
  }

  ghost predicate OneSign(s: seq<int>) {
    (forall y :: y in s ==> y >= 0) || (forall y :: y in s ==> y < 0)
  }

  lemma DistinctForIn(s: seq<int>)
    requires Ascending(s)
    ensures Distinct(ForIn(s))
  {
    FilterAscending(s, true);
    FilterAscending(s, false);
    SortOfAscending(Filter(s, true));
    var a, b := Filter(s, true), Filter(s, false);
    forall i, j | 0 <= i < |a| && 0 <= j < |b| ensures a[i] != b[j] {
      assert a[i] in a && b[j] in b;
    }
  }

  lemma ForInOfAscending(s: seq<int>)
    requires Ascending(s)
    ensures ForIn(s) == Filter(s, true) + Filter(s, false)
    ensures Ascending(Filter(s, true)) && Ascending(Filter(s, false))
  {
    FilterAscending(s, true);
    FilterAscending(s, false);
    SortOfAscending(Filter(s, true));
  }

  lemma OneSignOrder(s: seq<int>)
    requires Ascending(s) && OneSign(s)
    ensures ForIn(s) == s
  {
    ForInOfAscending(s);
    var a, b := Filter(s, true), Filter(s, false);
    assert a != [] ==> a[0] in a;
    assert b != [] ==> b[0] in b;
    assert a == [] || b == [];
    AscendingUnique(a + b, s);
  }

  lemma MixedSignOrder(s: seq<int>, y: int, z: int)
    requires Ascending(s) && y in s && y < 0 && z in s && z >= 0
    ensures ForIn(s) != s
  {
    ForInOfAscending(s);
    hide Filter, ForIn;
    var a, b := Filter(s, true), Filter(s, false);
    assert z in a && y in b;
    var i :| 0 <= i < |a| && a[i] == z;
    var j :| 0 <= j < |b| && b[j] == y;
    assert (a + b)[i] == z && (a + b)[|a| + j] == y;
  }

  /** Enumeration keeps ascending keys in order just if they are all negative or all not. */
  lemma ForInOrder(s: seq<int>)
    requires Ascending(s)
    ensures ForIn(s) == s <==> OneSign(s)
  {
    hide ForIn;
    if OneSign(s) {
      OneSignOrder(s);
    } else {
      var y :| y in s && y < 0;
      var z :| z in s && z >= 0;
      MixedSignOrder(s, y, z);
    }
  }

  lemma KeyOf(inserted: seq<int>, k: nat)
    requires k < |ForIn(inserted)|
    ensures ForIn(inserted)[k] in inserted
  {
    var y := ForIn(inserted)[k];
    assert y in ForIn(inserted);
  }

  // ----- The builders -----

  /** The candidates of a position, in the order of the rows. */
  function Cids(rows: seq<MapIn>, pid: int, n: nat): (r: seq<int>)
    requires n <= |rows|
    ensures forall c :: c in r <==> exists m :: 0 <= m < n && rows[m] == MapIn(pid, c)
  {
    if n == 0 then [] else
      var r := Cids(rows, pid, n - 1);
      if rows[n - 1].pid == pid then
        assert forall c :: c in r + [rows[n - 1].cid] <==> c in r || c == rows[n - 1].cid;
        r + [rows[n - 1].cid]
      else r
  }

  function Grid(pids: seq<int>, rows: seq<MapIn>): (g: seq<Position>)
    ensures |g| == |pids| && forall i :: 0 <= i < |g| ==> g[i] == Position(pids[i], Cids(rows, pids[i], |rows|))
  {
    seq(|pids|, i requires 0 <= i < |pids| => Position(pids[i], Cids(rows, pids[i], |rows|)))
  }

  ghost predicate ListsAre(dict: map<int, seq<int>>, pids: seq<int>, rows: seq<MapIn>, n: nat)
    requires n <= |rows|
  {
    && (forall pid :: pid in dict <==> pid in pids)
    && (forall pid :: pid in dict ==> dict[pid] == Cids(rows, pid, n))
  }

  /** The two loops all three builders begin with; None stands for the exception on a row whose position is unknown. */
  method Collect(pids: seq<int>, rows: seq<MapIn>) returns (dict: Option<map<int, seq<int>>>)
    ensures dict.None? <==> exists i :: 0 <= i < |rows| && rows[i].pid !in pids
    ensures dict.Some? ==> ListsAre(dict.value, pids, rows, |rows|)
  {
    var obj: map<int, seq<int>> := map[];
    for i := 0 to |pids|
      invariant forall pid :: pid in obj <==> pid in pids[..i]
      invariant forall pid :: pid in obj ==> obj[pid] == []
    {
      obj := obj[pids[i] := []];
      assert pids[..i + 1] == pids[..i] + [pids[i]];
    }
    assert pids[..|pids|] == pids;
    for i := 0 to |rows|
      invariant ListsAre(obj, pids, rows, i)
      invariant forall m :: 0 <= m < i ==> rows[m].pid in pids
    {
      var cur := rows[i];
      if cur.pid !in obj {
        return None;
      }
      obj := obj[cur.pid := obj[cur.pid] + [cur.cid]];
    }
    return Some(obj);
  }

  /** What the servers check votes against. */
  method BuildElectionPos(pids: seq<int>, rows: seq<MapIn>) returns (pos: Option<seq<Position>>)
    ensures pos.None? <==> exists i :: 0 <= i < |rows| && rows[i].pid !in pids
    ensures pos.Some? ==> pos.value == Grid(ForIn(pids), rows)
  {
    hide Cids, ForIn, SortInts;
    var posObj := Collect(pids, rows);
    if posObj.None? {
      return None;
    }
    var keys := ForIn(pids);
    var res: seq<Position> := [];
    for k := 0 to |keys|
      invariant res == Grid(keys, rows)[..k]
    {
      KeyOf(pids, k);
      var key := keys[k];
      res := res + [Position(key, posObj.value[key])];
    }
    return Some(res);
  }

  ghost predicate ZeroCounts(pos: seq<PosShares>, g: seq<Position>) {
    |pos| == |g| && forall i :: 0 <= i < |g| ==>
      && pos[i].pid == g[i].pid && |pos[i].values| == |g[i].cand|
      && forall k :: 0 <= k < |g[i].cand| ==> pos[i].values[k] == Share(g[i].cand[k], 0, 0)
  }

  /** What totals are counted into. */
  method InitElectionPos(pids: seq<int>, rows: seq<MapIn>) returns (pos: Option<seq<PosShares>>)
    ensures pos.None? <==> exists i :: 0 <= i < |rows| && rows[i].pid !in pids
    ensures pos.Some? ==> ZeroCounts(pos.value, Grid(ForIn(pids), rows))
  {
    hide Cids, ForIn;
    var posObj := Collect(pids, rows);
    if posObj.None? {
      return None;
    }
    var keys := ForIn(pids);
    ghost var g := Grid(keys, rows);
    var res: seq<PosShares> := [];
    for k := 0 to |keys|
      invariant |res| == k && ZeroCounts(res, g[..k])
    {
      KeyOf(pids, k);
      var key := keys[k];
      var cand := posObj.value[key];
      res := res + [PosShares(key, seq(|cand|, m requires 0 <= m < |cand| => Share(cand[m], 0, 0)))];
    }
    assert g[..|keys|] == g;
    return Some(res);
  }

  /** Positions sorted by their id, as the client sorts them. */
  function InsertPosition(s: seq<Position>, x: Position): seq<Position> {
    if s == [] then [x] else if x.pid <= s[0].pid then [x] + s else [s[0]] + InsertPosition(s[1..], x)
  }

  function SortPositions(s: seq<Position>): seq<Position> {
    if s == [] then [] else InsertPosition(SortPositions(s[..|s| - 1]), s[|s| - 1])
  }

  function Pids(s: seq<Position>): (r: seq<int>)
    ensures |r| == |s| && forall i :: 0 <= i < |r| ==> r[i] == s[i].pid
  {
    seq(|s|, i requires 0 <= i < |s| => s[i].pid)
  }

  /** A position with its candidates sorted. */
  function SortedPosition(rows: seq<MapIn>, pid: int): Position {
    Position(pid, SortInts(Cids(rows, pid, |rows|)))
  }

  ghost predicate AllSorted(s: seq<Position>, rows: seq<MapIn>) {
    forall i :: 0 <= i < |s| ==> s[i] == SortedPosition(rows, s[i].pid)
  }

  lemma {:induction false} InsertPositionPids(s: seq<Position>, x: Position, rows: seq<MapIn>)
    requires AllSorted(s, rows) && x == SortedPosition(rows, x.pid)
    ensures AllSorted(InsertPosition(s, x), rows) && Pids(InsertPosition(s, x)) == Insert(Pids(s), x.pid)
  {
    hide SortedPosition;
    if s != [] && x.pid > s[0].pid {
      InsertPositionPids(s[1..], x, rows);
      assert Pids(s)[1..] == Pids(s[1..]);
      assert Pids(InsertPosition(s, x)) == [s[0].pid] + Pids(InsertPosition(s[1..], x));
    } else {
      assert Pids([x] + s) == [x.pid] + Pids(s);
    }
  }

  lemma {:induction false} SortPositionsPids(s: seq<Position>, rows: seq<MapIn>)
    requires AllSorted(s, rows)
    ensures AllSorted(SortPositions(s), rows) && Pids(SortPositions(s)) == SortInts(Pids(s))
  {
    hide SortedPosition;
    var n := |s| - 1;
    if n >= 0 {
      SortPositionsPids(s[..n], rows);
      assert Pids(s)[..n] == Pids(s[..n]);
      InsertPositionPids(SortPositions(s[..n]), s[n], rows);
    }
  }

  /** What the client votes on: everything sorted by number. */
  method InitPosDataArray(pids: seq<int>, rows: seq<MapIn>) returns (pos: Option<seq<Position>>)
    ensures pos.None? <==> exists i :: 0 <= i < |rows| && rows[i].pid !in pids
    ensures pos.Some? ==> AllSorted(pos.value, rows) && Pids(pos.value) == SortInts(ForIn(pids))
  {
    hide SortInts, Cids, ForIn, SortPositions;
    var posDataObj := Collect(pids, rows);
    if posDataObj.None? {
      return None;
    }
    var keys := ForIn(pids);
    var res: seq<Position> := [];
    for k := 0 to |keys|
      invariant |res| == k && Pids(res) == keys[..k] && AllSorted(res, rows)
    {
      KeyOf(pids, k);
      var key := keys[k];
      var sorted := SortInts(posDataObj.value[key]);
      res := res + [Position(key, sorted)];
      assert Pids(res) == keys[..k] + [keys[k]];
    }
    assert keys[..|keys|] == keys;
    SortPositionsPids(res, rows);
    return Some(SortPositions(res));
  }

  // ----- Agreement -----

  ghost predicate RowsAscending(rows: seq<MapIn>) {
    forall i, j :: 0 <= i < j < |rows| ==>
      rows[i].pid < rows[j].pid || (rows[i].pid == rows[j].pid && rows[i].cid < rows[j].cid)
  }

  /** What the database gives back for an election: positions ordered by id, pairs by position and candidate. */
  ghost predicate Stored(d: Data, pids: seq<int>, rows: seq<MapIn>) {
    && Ascending(pids) && (forall pid :: pid in pids <==> HasPosition(d, pid))
    && RowsAscending(rows) && (forall r :: r in rows <==> r in d.mapping)
  }

  lemma {:induction false} CidsAscending(rows: seq<MapIn>, pid: int, n: nat)
    requires n <= |rows| && RowsAscending(rows)
    ensures Ascending(Cids(rows, pid, n))
  {
    if n > 0 {
      CidsAscending(rows, pid, n - 1);
      var r := Cids(rows, pid, n - 1);
      forall i | 0 <= i < |r| && rows[n - 1].pid == pid ensures r[i] < rows[n - 1].cid {
        assert r[i] in r;
        var m :| 0 <= m < n - 1 && rows[m] == MapIn(pid, r[i]);
      }
    }
  }

  lemma {:induction false} TwoPairs(mapping: seq<MapIn>, pid: int, n: nat) returns (i: nat, m: nat)
    requires n <= |mapping| && Count(mapping, pid, n) >= 2
    ensures i < m < n && mapping[i].pid == pid && mapping[m].pid == pid
  {
    if Count(mapping, pid, n - 1) >= 2 {
      i, m := TwoPairs(mapping, pid, n - 1);
    } else {
      i := OnePair(mapping, pid, n - 1);
      m := n - 1;
    }
  }

  lemma {:induction false} OnePair(mapping: seq<MapIn>, pid: int, n: nat) returns (i: nat)
    requires n <= |mapping| && Count(mapping, pid, n) >= 1
    ensures i < n && mapping[i].pid == pid
  {
    i := n - 1;
    if mapping[n - 1].pid != pid {
      i := OnePair(mapping, pid, n - 1);
    }
  }

  lemma TwoCandidates(env: Env, d: Data, rows: seq<MapIn>, pid: int)
    requires Accepts(env, d) && HasPosition(d, pid) && forall r :: r in rows <==> r in d.mapping
    ensures |Cids(rows, pid, |rows|)| >= 2
  {
    var p :| 0 <= p < |d.pos| && d.pos[p].id == pid;
    var i, m := TwoPairs(d.mapping, pid, |d.mapping|);
    assert PairOk(env, d, m) && PairOk(env, d, i);
    var a, b := d.mapping[i].cid, d.mapping[m].cid;
    assert a != b;
    assert d.mapping[i] in rows && d.mapping[m] in rows;
    var s := Cids(rows, pid, |rows|);
    assert a in s && b in s by {
      var x :| 0 <= x < |rows| && rows[x] == MapIn(pid, a);
      var y :| 0 <= y < |rows| && rows[y] == MapIn(pid, b);
    }
  }

  /** Every stored pair belongs to a stored position, so that no builder fails. */
  lemma PairsHavePositions(env: Env, d: Data, pids: seq<int>, rows: seq<MapIn>)
    requires Accepts(env, d) && Stored(d, pids, rows)
    ensures forall i :: 0 <= i < |rows| ==> rows[i].pid in pids
  {
    forall i | 0 <= i < |rows| ensures rows[i].pid in pids {
      assert rows[i] in rows;
      assert rows[i] in d.mapping;
      var m :| 0 <= m < |d.mapping| && d.mapping[m] == rows[i];
      assert PairOk(env, d, m);
    }
  }

  lemma ClientOrder(pids: seq<int>)
    requires Ascending(pids)
    ensures SortInts(ForIn(pids)) == pids
  {
    DistinctForIn(pids);
    SortAscending(ForIn(pids));
    AscendingUnique(SortInts(ForIn(pids)), pids);
  }

  /** For every election that is accepted, the client builds a grid whose positions have at least two, distinct
      candidates in ascending order, and the servers build the same grid just if the position ids do not mix signs. */
  lemma LayoutAgreement(env: Env, d: Data, pids: seq<int>, rows: seq<MapIn>, client: seq<Position>)
    requires Accepts(env, d) && Stored(d, pids, rows)
    requires AllSorted(client, rows) && Pids(client) == SortInts(ForIn(pids))
    ensures forall i :: 0 <= i < |rows| ==> rows[i].pid in pids
    ensures Pids(client) == pids && client == Grid(pids, rows)
    ensures forall i :: 0 <= i < |client| ==> |client[i].cand| >= 2 && Ascending(client[i].cand)
    ensures client == Grid(ForIn(pids), rows) <==> OneSign(pids)
  {
    hide ForIn, SortInts, Cids, Accepts;
    PairsHavePositions(env, d, pids, rows);
    ClientOrder(pids);
    forall i | 0 <= i < |client|
      ensures client[i] == Grid(pids, rows)[i] && |client[i].cand| >= 2 && Ascending(client[i].cand)
    {
      assert Pids(client)[i] == pids[i];
      assert pids[i] in pids;
      CidsAscending(rows, pids[i], |rows|);
      SortOfAscending(Cids(rows, pids[i], |rows|));
      TwoCandidates(env, d, rows, pids[i]);
    }
    ForInOrder(pids);
    if client == Grid(ForIn(pids), rows) {
      assert Pids(Grid(ForIn(pids), rows)) == ForIn(pids);
    }
  }
}

/** Reading a table page by page: the dump of the ballots (src/esp/dumpVotes.js), whose loop src/auth/freezeVoters.js
    repeats over the voters it signs; and why every dump of an election is the same. */
module Paging {
  import opened Wrappers

  datatype Rec<V> = Rec(rid: string, data: V)

  /** How the database orders texts. */
  datatype Collation = Collation(lt: (string, string) -> bool)
  {
    ghost predicate Total(a: string, b: string) { a == b || lt(a, b) || lt(b, a) }
    ghost predicate Irreflexive(a: string) { !lt(a, a) }
    ghost predicate Transitive(a: string, b: string, c: string) { lt(a, b) && lt(b, c) ==> lt(a, c) }

    ghost predicate Valid() {
      && (forall a, b :: Total(a, b)) && (forall a :: Irreflexive(a)) && (forall a, b, c :: Transitive(a, b, c))
    }

    /** Beyond the last rid read; before the first page there is none. */
    predicate Beyond(last: Option<string>, rid: string) {
      last.None? || lt(last.value, rid)
    }
  }

  ghost predicate UniqueRids<V(!new)>(rows: seq<Rec<V>>) {
    forall i, j :: 0 <= i < j < |rows| ==> rows[i].rid != rows[j].rid
  }

  ghost predicate Ordered<V(!new)>(C: Collation, s: seq<Rec<V>>) {
    forall i, j :: 0 <= i < j < |s| ==> C.lt(s[i].rid, s[j].rid)
  }

  /** page continues what has been read up to last: rows of the table, in order, with nothing left out in between. */
  ghost predicate Continues<V(!new)>(C: Collation, rows: seq<Rec<V>>, last: Option<string>, page: seq<Rec<V>>) {
    && Ordered(C, page)
    && (forall i :: 0 <= i < |page| ==> page[i] in rows && C.Beyond(last, page[i].rid))
    && (page != [] ==>
          forall r :: r in rows && C.Beyond(last, r.rid) && !C.lt(page[|page| - 1].rid, r.rid) ==> r in page)
  }

  function LastOf<V(!new)>(last: Option<string>, page: seq<Rec<V>>): Option<string> {
    if page == [] then last else Some(page[|page| - 1].rid)
  }

  // ----- The query -----

  /** The row with the smallest rid beyond last. */
  method Next<V(!new)>(C: Collation, rows: seq<Rec<V>>, last: Option<string>) returns (r: Option<Rec<V>>)
    requires C.Valid() && UniqueRids(rows)
    ensures r.None? <==> forall x :: x in rows ==> !C.Beyond(last, x.rid)
    ensures r.Some? ==> r.value in rows && C.Beyond(last, r.value.rid)
    ensures r.Some? ==> forall x :: x in rows && C.Beyond(last, x.rid) ==> x == r.value || C.lt(r.value.rid, x.rid)
  {
    r := None;
    for i := 0 to |rows|
      invariant r.None? <==> forall m :: 0 <= m < i ==> !C.Beyond(last, rows[m].rid)
      invariant r.Some? ==> r.value in rows && C.Beyond(last, r.value.rid)
      invariant r.Some? ==>
        forall m :: 0 <= m < i && C.Beyond(last, rows[m].rid) ==> rows[m] == r.value || C.lt(r.value.rid, rows[m].rid)
    {
      var x := rows[i];
      if C.Beyond(last, x.rid) && (r.None? || C.lt(x.rid, r.value.rid)) {
        forall m | 0 <= m < i && C.Beyond(last, rows[m].rid) ensures C.lt(x.rid, rows[m].rid) {
          assert C.Transitive(x.rid, r.value.rid, rows[m].rid);
        }
        r := Some(x);
      } else if r.Some? {
        assert C.Total(x.rid, r.value.rid);
        if x.rid == r.value.rid {
          assert x == r.value;
        }
      }
    }
  }

  lemma AppendNext<V(!new)>(C: Collation, rows: seq<Rec<V>>, last: Option<string>, page: seq<Rec<V>>, r: Rec<V>)
    requires C.Valid() && UniqueRids(rows) && Continues(C, rows, last, page)
    requires r in rows && C.Beyond(LastOf(last, page), r.rid)
    requires forall x :: x in rows && C.Beyond(LastOf(last, page), x.rid) ==> x == r || C.lt(r.rid, x.rid)
    ensures Continues(C, rows, last, page + [r])
  {
    var all, n := page + [r], |page|;
    forall i | 0 <= i < n ensures C.lt(page[i].rid, r.rid) {
      assert i < n - 1 ==> C.Transitive(page[i].rid, page[n - 1].rid, r.rid);
    }
    if n > 0 && last.Some? {
      assert C.Transitive(last.value, page[n - 1].rid, r.rid);
    }
    forall x | x in rows && C.Beyond(last, x.rid) && !C.lt(r.rid, x.rid) ensures x in all {
      if n > 0 {
        if C.lt(page[n - 1].rid, x.rid) {
          assert x == r;
          assert all[n] == x;
        } else {
          assert x in page;
        }
      } else {
        assert all[0] == x;
      }
    }
  }

  /** SELECT ... WHERE rid > last ORDER BY rid LIMIT limit. */
  method Query<V(!new)>(C: Collation, rows: seq<Rec<V>>, last: Option<string>, limit: nat) returns (page: seq<Rec<V>>)
    requires C.Valid() && UniqueRids(rows)
    ensures |page| <= limit && Continues(C, rows, last, page)
    ensures |page| < limit ==> forall x :: x in rows ==> !C.Beyond(LastOf(last, page), x.rid)
  {
    hide Continues;
    page := [];
    EmptyContinues(C, rows, last);
    var more := true;
    while |page| < limit && more
      invariant |page| <= limit && Continues(C, rows, last, page)
      invariant !more ==> forall x :: x in rows ==> !C.Beyond(LastOf(last, page), x.rid)
      decreases limit - |page|, more
    {
      var r := Next(C, rows, LastOf(last, page));
      if r.None? {
        more := false;
      } else {
        AppendNext(C, rows, last, page, r.value);
        page := page + [r.value];
      }
    }
  }

  lemma EmptyContinues<V(!new)>(C: Collation, rows: seq<Rec<V>>, last: Option<string>)
    ensures Continues(C, rows, last, [])
  {
  }

  // ----- The dump -----

  /** Every row, once, in the order of the rids. */
  ghost predicate IsDump<V(!new)>(C: Collation, rows: seq<Rec<V>>, out: seq<Rec<V>>) {
    Ordered(C, out) && forall r :: r in out <==> r in rows
  }

  lemma JoinPages<V(!new)>(C: Collation, rows: seq<Rec<V>>, out: seq<Rec<V>>, page: seq<Rec<V>>)
    requires C.Valid() && Continues(C, rows, None, out) && Continues(C, rows, LastOf(None, out), page)
    ensures Continues(C, rows, None, out + page) && LastOf(None, out + page) == LastOf(LastOf(None, out), page)
  {
    var all, n := out + page, |out|;
    forall i, j | 0 <= i < j < |all| ensures C.lt(all[i].rid, all[j].rid) {
      if i < n <= j {
        assert C.Beyond(Some(out[n - 1].rid), page[j - n].rid);
        assert i < n - 1 ==> C.Transitive(out[i].rid, out[n - 1].rid, page[j - n].rid);
      }
    }
    if page != [] {
      forall x | x in rows && !C.lt(page[|page| - 1].rid, x.rid) ensures x in all {
        if n > 0 && !C.lt(out[n - 1].rid, x.rid) {
          assert x in out;
        } else {
          assert x in page;
        }
      }
    } else {
      assert all == out;
    }
  }

  lemma {:induction false} OrderedWithin<V(!new)>(C: Collation, rows: seq<Rec<V>>, out: seq<Rec<V>>)
    requires C.Valid() && Ordered(C, out) && forall i :: 0 <= i < |out| ==> out[i] in rows
    ensures |out| <= |rows|
  {
    if out != [] {
      var n := |out| - 1;
      var k :| 0 <= k < |rows| && rows[k] == out[n];
      var rest := rows[..k] + rows[k + 1..];
      forall i | 0 <= i < n ensures out[..n][i] in rest {
        assert out[i] in rows;
        assert C.lt(out[i].rid, out[n].rid) && C.Irreflexive(out[n].rid);
        var m :| 0 <= m < |rows| && rows[m] == out[i];
        assert rest[if m < k then m else m - 1] == out[i];
      }
      OrderedWithin(C, rest, out[..n]);
    }
  }

  /** The loop: pages until one is not full. It ends, whatever the limit, and writes every row once, in order. */
  method DumpRows<V(!new)>(C: Collation, rows: seq<Rec<V>>, limit: nat) returns (out: seq<Rec<V>>)
    requires C.Valid() && UniqueRids(rows) && limit >= 1
    ensures IsDump(C, rows, out)
  {
    hide Continues;
    var canQuery := true;
    var lastVid: Option<string> := None;
    out := [];
    EmptyContinues(C, rows, None);
    while canQuery
      invariant Continues(C, rows, None, out) && lastVid == LastOf(None, out) && |out| <= |rows|
      invariant !canQuery ==> forall x :: x in rows ==> !C.Beyond(lastVid, x.rid)
      decreases canQuery, |rows| - |out|
    {
      var page := Query(C, rows, lastVid, limit);
      JoinPages(C, rows, out, page);
      ContinuesWithin(C, rows, out + page);
      out := out + page;
      if |page| > 0 {
        lastVid := Some(page[|page| - 1].rid);
      }
      if |page| < limit {
        canQuery := false;
      }
    }
    AllRead(C, rows, out);
  }

  lemma ContinuesWithin<V(!new)>(C: Collation, rows: seq<Rec<V>>, out: seq<Rec<V>>)
    requires C.Valid() && Continues(C, rows, None, out)
    ensures |out| <= |rows|
  {
    OrderedWithin(C, rows, out);
  }

  lemma AllRead<V(!new)>(C: Collation, rows: seq<Rec<V>>, out: seq<Rec<V>>)
    requires C.Valid() && Continues(C, rows, None, out) && forall x :: x in rows ==> !C.Beyond(LastOf(None, out), x.rid)
    ensures IsDump(C, rows, out)
  {
    forall r | r in out ensures r in rows {
      var i :| 0 <= i < |out| && out[i] == r;
    }
    forall r | r in rows ensures r in out {
      assert !C.Beyond(LastOf(None, out), r.rid);
    }
  }

  /** There is only one way to dump a table. */
  lemma {:induction false} OneDump<V(!new)>(C: Collation, rows: seq<Rec<V>>, s: seq<Rec<V>>, t: seq<Rec<V>>)
    requires C.Valid() && IsDump(C, rows, s) && IsDump(C, rows, t)
    ensures s == t
  {
    SameOrder(C, s, t);
  }

  lemma {:induction false} SameOrder<V(!new)>(C: Collation, s: seq<Rec<V>>, t: seq<Rec<V>>)
    requires C.Valid() && Ordered(C, s) && Ordered(C, t) && forall r :: r in s <==> r in t
    ensures s == t
  {
    if |s| > 0 && |t| > 0 {
      var a, b := |s| - 1, |t| - 1;
      var x, y := s[a], t[b];
      assert x in t && y in s;
      LastIsGreatest(C, s, y);
      LastIsGreatest(C, t, x);
      assert C.Irreflexive(x.rid) && C.Transitive(x.rid, y.rid, x.rid);
      assert x == y;
      ButLast(C, s);
      ButLast(C, t);
      forall r ensures r in s[..a] <==> r in t[..b] {
        assert r in s[..a] <==> r in s && r != x;
        assert r in t[..b] <==> r in t && r != x;
      }
      SameOrder(C, s[..a], t[..b]);
      assert s == s[..a] + [x] && t == t[..b] + [y];
    } else {
      NoRecords(s);
      NoRecords(t);
    }
  }

  lemma NoRecords<V(!new)>(s: seq<Rec<V>>)
    ensures s == [] || exists r :: r in s
  {
    if s != [] {
      var r := s[0];
      assert r in s;
    }
  }

  lemma LastIsGreatest<V(!new)>(C: Collation, s: seq<Rec<V>>, r: Rec<V>)
    requires Ordered(C, s) && r in s
    ensures r == s[|s| - 1] || C.lt(r.rid, s[|s| - 1].rid)
  {
  }

  lemma ButLast<V(!new)>(C: Collation, s: seq<Rec<V>>)
    requires C.Valid() && Ordered(C, s) && s != []
    ensures Ordered(C, s[..|s| - 1]) && forall r :: r in s[..|s| - 1] <==> r in s && r != s[|s| - 1]
  {
    var n := |s| - 1;
    forall r | r in s[..n] ensures r in s && r != s[n] {
      var i :| 0 <= i < n && s[i] == r;
      assert C.Irreflexive(r.rid);
    }
  }

  // ----- The table of ballots -----

  class BallotTable<V(!new,==)> {
    const C: Collation
    var state: int
    var rows: seq<Rec<V>>

    ghost predicate Valid()
      reads this
    {
      C.Valid() && UniqueRids(rows)
    }

    constructor (C: Collation)
      requires C.Valid()
      ensures Valid() && state == 2 && rows == [] && this.C == C
    {
      this.C, state, rows := C, 2, [];
    }

    /** A checked vote: inserted while the election is open, unless the voter has one. */
    method SaveVote(rid: string, data: V) returns (code: int)
      requires Valid()
      modifies this`rows
      ensures Valid()
      ensures code == 0 <==> state == 2 && forall i :: 0 <= i < |old(rows)| ==> old(rows)[i].rid != rid
      ensures code in {0, -4, -5} && (code == -4 <==> state != 2)
      ensures rows == if code == 0 then old(rows) + [Rec(rid, data)] else old(rows)
    {
      if state != 2 {
        return -4;
      }
      for i := 0 to |rows|
        invariant forall m :: 0 <= m < i ==> rows[m].rid != rid
        invariant rows == old(rows)
      {
        if rows[i].rid == rid {
          return -5;
        }
      }
      rows := rows + [Rec(rid, data)];
      return 0;
    }

    method Close()
      requires Valid()
      modifies this`state
      ensures Valid() && state == if old(state) == 2 then 3 else old(state)
    {
      if state == 2 {
        state := 3;
      }
    }

    method DumpVotes(limit: nat) returns (out: Option<seq<Rec<V>>>)
      requires Valid() && limit >= 1
      ensures out.Some? <==> state == 3
      ensures out.Some? ==> IsDump(C, rows, out.value)
    {
      if state != 3 {
        return None;
      }
      var res := DumpRows(C, rows, limit);
      return Some(res);
    }
  }

  datatype Attempt<V> = Attempt(rid: string, data: V)

  /** Two dumps, with other page sizes and with more votes sent in between, are the same. */
  method DumpTwice<V(!new,==)>(b: BallotTable<V>, limit: nat, limit': nat,
                               votes: seq<Attempt<V>>) returns (first: Option<seq<Rec<V>>>,
                               second: Option<seq<Rec<V>>>)
    requires b.Valid() && limit >= 1 && limit' >= 1
    modifies b
    ensures first.Some? ==> second == first && b.rows == old(b.rows)
  {
    first := b.DumpVotes(limit);
    for i := 0 to |votes|
      invariant b.Valid() && b.state == old(b.state) && (first.Some? ==> b.rows == old(b.rows))
    {
      var _ := b.SaveVote(votes[i].rid, votes[i].data);
    }
    second := b.DumpVotes(limit');
    if first.Some? {
      OneDump(b.C, b.rows, first.value, second.value);
    }
  }
}

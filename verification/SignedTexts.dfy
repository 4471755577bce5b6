/** What the signed texts say. Where joining texts loses nothing of either part and rendering tells numbers apart, a
    text changes with every single field that it is made of; and on examples, where it is all there, in which order.
    */
module SignedTexts {
  import opened Wrappers
  import opened Ballots
  import opened VoteServers
  import opened Tally
  import opened TellerTally
  import opened ElectionInfo
  import opened SmallCurve

  type Join = (string, string) -> string

  ghost predicate LeftCancels(cat: Join, a: string, b: string, c: string) { cat(a, b) == cat(a, c) ==> b == c }
  ghost predicate RightCancels(cat: Join, a: string, b: string, c: string) { cat(b, a) == cat(c, a) ==> b == c }

  /** Either part of a joined text can be read off if the other is known. */
  ghost predicate Joins(cat: Join) {
    (forall a, b, c :: LeftCancels(cat, a, b, c)) && forall a, b, c :: RightCancels(cat, a, b, c)
  }

  ghost predicate Tells<X(!new)>(show: X -> string) {
    forall a, b :: show(a) == show(b) ==> a == b
  }

  lemma Same(cat: Join, a: string, b: string, c: string, d: string)
    requires Joins(cat) && cat(a, b) == cat(c, d)
    ensures (a == c ==> b == d) && (b == d ==> a == c)
  {
    assert LeftCancels(cat, a, b, d) && RightCancels(cat, b, a, c);
  }

  /** Writing one text after the other loses nothing. */
  lemma ConcatJoins()
    ensures Joins((s, t) => s + t)
  {
    var cat: Join := (s, t) => s + t;
    forall a, b, c ensures LeftCancels(cat, a, b, c) && RightCancels(cat, a, b, c) {
      if a + b == a + c {
        assert b == (a + b)[|a|..] && c == (a + c)[|a|..];
      }
      if b + a == c + a {
        assert |b + a| == |c + a|;
        assert b == (b + a)[..|b|] && c == (c + a)[..|c|];
      }
    }
  }

  // ----- Texts that grow by one part after the other -----

  function Fold<X>(step: (string, X) -> string, str: string, xs: seq<X>): string {
    if xs == [] then str else step(Fold(step, str, xs[..|xs| - 1]), xs[|xs| - 1])
  }

  ghost predicate Keeps<X>(step: (string, X) -> string, a: string, b: string, x: X) {
    step(a, x) == step(b, x) ==> a == b
  }

  ghost predicate KeepsAll<X(!new)>(step: (string, X) -> string) {
    forall a, b, x :: Keeps(step, a, b, x)
  }

  /** Both texts have had the same put before the parts x and y. */
  ghost predicate Alike<X>(step: (string, X) -> string, x: X, y: X) {
    exists s :: step(s, x) == step(s, y)
  }

  lemma {:induction false} StartRead<X(!new)>(step: (string, X) -> string, a: string, b: string, xs: seq<X>)
    requires KeepsAll(step) && Fold(step, a, xs) == Fold(step, b, xs)
    ensures a == b
  {
    if xs != [] {
      var n := |xs| - 1;
      assert Keeps(step, Fold(step, a, xs[..n]), Fold(step, b, xs[..n]), xs[n]);
      StartRead(step, a, b, xs[..n]);
    }
  }

  /** If the texts are the same although part i is another one, that part's own text is the same. */
  lemma {:induction false} PartRead<X(!new)>(step: (string, X) -> string, str: string, xs: seq<X>, i: nat, y: X)
    requires KeepsAll(step) && i < |xs| && Fold(step, str, xs[i := y]) == Fold(step, str, xs)
    ensures Alike(step, y, xs[i])
  {
    var n := |xs| - 1;
    var ys := xs[i := y];
    if i == n {
      assert ys[..n] == xs[..n];
    } else {
      assert ys[..n] == xs[..n][i := y];
      assert Keeps(step, Fold(step, str, ys[..n]), Fold(step, str, xs[..n]), xs[n]);
      PartRead(step, str, xs[..n], i, y);
    }
  }

  // ----- Links and votes -----

  /** One field of the link another: the text another. */
  lemma LinkFieldsRead<P(!new)>(W: World<P>, l: Link, k: Link)
    requires Joins(W.cat) && Tells(W.show) && ParamStr(W, k) == ParamStr(W, l)
    ensures k == l.(eid := k.eid) ==> k.eid == l.eid
    ensures k == l.(email := k.email) ==> k.email == l.email
    ensures k == l.(rid := k.rid) ==> k.rid == l.rid
    ensures k == l.(regTime := k.regTime) ==> k.regTime == l.regTime
    ensures k == l.(linkTime := k.linkTime) ==> k.linkTime == l.linkTime
  {
    var c := W.cat;
    var a, b := c(W.show(k.eid), k.email), c(W.show(l.eid), l.email);
    Same(c, c(c(a, k.rid), W.show(k.regTime)), W.show(k.linkTime), c(c(b, l.rid), W.show(l.regTime)),
         W.show(l.linkTime));
    if k.linkTime == l.linkTime {
      Same(c, c(a, k.rid), W.show(k.regTime), c(b, l.rid), W.show(l.regTime));
      if k.regTime == l.regTime {
        Same(c, a, k.rid, b, l.rid);
        if k.rid == l.rid {
          Same(c, W.show(k.eid), k.email, W.show(l.eid), l.email);
        }
      }
    }
  }

  function CellStep<P(!new)>(W: World<P>): (string, ZCell) -> string {
    (s: string, z: ZCell) => W.cat(W.cat(s, W.show(z.cid)), z.z)
  }

  function PosStep<P(!new)>(W: World<P>): (string, PosZ) -> string {
    (s: string, p: PosZ) => CellsStr(W, W.cat(s, W.show(p.pid)), p.values, |p.values|)
  }

  lemma {:induction false} CellsAreFold<P(!new)>(W: World<P>, str: string, values: seq<ZCell>, n: nat)
    requires n <= |values|
    ensures CellsStr(W, str, values, n) == Fold(CellStep(W), str, values[..n])
  {
    if n > 0 {
      CellsAreFold(W, str, values, n - 1);
      assert values[..n][..n - 1] == values[..n - 1];
    }
  }

  lemma {:induction false} ZAreFold<P(!new)>(W: World<P>, str: string, val: seq<PosZ>, n: nat)
    requires n <= |val|
    ensures ZStr(W, str, val, n) == Fold(PosStep(W), str, val[..n])
  {
    if n > 0 {
      ZAreFold(W, str, val, n - 1);
      assert val[..n][..n - 1] == val[..n - 1];
    }
  }

  lemma CellKeeps<P(!new)>(W: World<P>)
    requires Joins(W.cat)
    ensures KeepsAll(CellStep(W))
  {
    forall a, b, z: ZCell ensures Keeps(CellStep(W), a, b, z) {
      if CellStep(W)(a, z) == CellStep(W)(b, z) {
        Same(W.cat, W.cat(a, W.show(z.cid)), z.z, W.cat(b, W.show(z.cid)), z.z);
        Same(W.cat, a, W.show(z.cid), b, W.show(z.cid));
      }
    }
  }

  lemma PosKeeps<P(!new)>(W: World<P>)
    requires Joins(W.cat)
    ensures KeepsAll(PosStep(W))
  {
    CellKeeps(W);
    forall a, b, p: PosZ ensures Keeps(PosStep(W), a, b, p) {
      if PosStep(W)(a, p) == PosStep(W)(b, p) {
        var s, t := W.cat(a, W.show(p.pid)), W.cat(b, W.show(p.pid));
        CellsAreFold(W, s, p.values, |p.values|);
        CellsAreFold(W, t, p.values, |p.values|);
        assert p.values[..|p.values|] == p.values;
        StartRead(CellStep(W), s, t, p.values);
        Same(W.cat, a, W.show(p.pid), b, W.show(p.pid));
      }
    }
  }

  /** A position in place of another one: no single part of it may differ. */
  ghost predicate PosRead(p: PosZ, q: PosZ) {
    && (p.values == q.values ==> p.pid == q.pid)
    && (p.pid == q.pid && |p.values| == |q.values| ==>
          forall k :: 0 <= k < |q.values| && p.values == q.values[k := p.values[k]] ==>
            && (p.values[k].z == q.values[k].z ==> p.values[k].cid == q.values[k].cid)
            && (p.values[k].cid == q.values[k].cid ==> p.values[k].z == q.values[k].z))
  }

  lemma OneCell<P(!new)>(W: World<P>, t: string, y: ZCell, z: ZCell)
    requires Joins(W.cat) && Tells(W.show) && CellStep(W)(t, y) == CellStep(W)(t, z)
    ensures (y.z == z.z ==> y.cid == z.cid) && (y.cid == z.cid ==> y.z == z.z)
  {
    Same(W.cat, W.cat(t, W.show(y.cid)), y.z, W.cat(t, W.show(z.cid)), z.z);
    if y.z == z.z {
      Same(W.cat, t, W.show(y.cid), t, W.show(z.cid));
    }
  }

  lemma OnePosition<P(!new)>(W: World<P>, s: string, p: PosZ, q: PosZ)
    requires Joins(W.cat) && Tells(W.show) && PosStep(W)(s, p) == PosStep(W)(s, q)
    ensures PosRead(p, q)
  {
    var a, b := W.cat(s, W.show(p.pid)), W.cat(s, W.show(q.pid));
    CellsAreFold(W, a, p.values, |p.values|);
    CellsAreFold(W, b, q.values, |q.values|);
    assert p.values[..|p.values|] == p.values && q.values[..|q.values|] == q.values;
    CellKeeps(W);
    if p.values == q.values {
      StartRead(CellStep(W), a, b, q.values);
      Same(W.cat, s, W.show(p.pid), s, W.show(q.pid));
    }
    if p.pid == q.pid && |p.values| == |q.values| {
      forall k | 0 <= k < |q.values| && p.values == q.values[k := p.values[k]]
        ensures p.values[k].z == q.values[k].z ==> p.values[k].cid == q.values[k].cid
        ensures p.values[k].cid == q.values[k].cid ==> p.values[k].z == q.values[k].z
      {
        PartRead(CellStep(W), a, q.values, k, p.values[k]);
        var t :| CellStep(W)(t, p.values[k]) == CellStep(W)(t, q.values[k]);
        OneCell(W, t, p.values[k], q.values[k]);
      }
    }
  }

  lemma PositionsRead<P(!new)>(W: World<P>, head: string, val: seq<PosZ>, time: int, j: nat, p: PosZ)
    requires Joins(W.cat) && Tells(W.show) && j < |val|
    requires W.cat(ZStr(W, head, val[j := p], |val|), W.show(time)) == W.cat(ZStr(W, head, val, |val|), W.show(time))
    ensures PosRead(p, val[j])
  {
    var val' := val[j := p];
    Same(W.cat, ZStr(W, head, val', |val|), W.show(time), ZStr(W, head, val, |val|), W.show(time));
    ZAreFold(W, head, val, |val|);
    ZAreFold(W, head, val', |val|);
    assert val[..|val|] == val && val'[..|val|] == val';
    PosKeeps(W);
    PartRead(PosStep(W), head, val, j, p);
    var s :| PosStep(W)(s, p) == PosStep(W)(s, val[j]);
    OnePosition(W, s, p, val[j]);
  }

  /** What a teller signs changes with the time, with what the link and its signature make, with every position's id,
      and with every candidate's id and commitment. */
  lemma CommitRead<P(!new)>(W: World<P>, l: Link, k: Link, val: seq<PosZ>, time: int, time': int, j: nat, p: PosZ)
    requires Joins(W.cat) && Tells(W.show) && j < |val|
    ensures CommitStr(W, l, val, time') == CommitStr(W, l, val, time) ==> time' == time
    ensures CommitStr(W, k, val, time) == CommitStr(W, l, val, time) ==>
      W.cat(ParamStr(W, k), k.linkSign) == W.cat(ParamStr(W, l), l.linkSign)
    ensures CommitStr(W, l, val[j := p], time) == CommitStr(W, l, val, time) ==> PosRead(p, val[j])
  {
    var head, head' := W.cat(ParamStr(W, l), l.linkSign), W.cat(ParamStr(W, k), k.linkSign);
    var z := ZStr(W, head, val, |val|);
    if CommitStr(W, l, val, time') == CommitStr(W, l, val, time) {
      Same(W.cat, z, W.show(time'), z, W.show(time));
    }
    if CommitStr(W, k, val, time) == CommitStr(W, l, val, time) {
      Same(W.cat, ZStr(W, head', val, |val|), W.show(time), z, W.show(time));
      ZAreFold(W, head, val, |val|);
      ZAreFold(W, head', val, |val|);
      assert val[..|val|] == val;
      PosKeeps(W);
      StartRead(PosStep(W), head', head, val);
    }
    if CommitStr(W, l, val[j := p], time) == CommitStr(W, l, val, time) {
      PositionsRead(W, head, val, time, j, p);
    }
  }

  // ----- Receipts and totals -----

  /** The board's receipt changes with the link's own text, with its signature, and with the time. */
  lemma ReceiptRead<P(!new)>(W: World<P>, l: Link, k: Link, time: int, time': int)
    requires Joins(W.cat) && Tells(W.show) && ReceiptStr(W, k, time') == ReceiptStr(W, l, time)
    ensures k == l ==> time' == time
    ensures time' == time && ParamStr(W, k) == ParamStr(W, l) ==> k.linkSign == l.linkSign
    ensures time' == time && k.linkSign == l.linkSign ==> ParamStr(W, k) == ParamStr(W, l)
  {
    hide ParamStr;
    var a, b := W.cat(ParamStr(W, k), k.linkSign), W.cat(ParamStr(W, l), l.linkSign);
    Same(W.cat, a, W.show(time'), b, W.show(time));
    if time' == time {
      Same(W.cat, ParamStr(W, k), k.linkSign, ParamStr(W, l), l.linkSign);
    }
  }

  function ShareStep<P(!new)>(W: World<P>): (string, Share) -> string {
    (s: string, v: Share) => W.cat(s, W.cat(W.cat(W.show(v.cid), W.show(v.x)), W.show(v.y)))
  }

  function RowStep<P(!new)>(W: World<P>): (string, PosShares) -> string {
    (s: string, r: PosShares) => CountRowStr(W, W.cat(s, W.show(r.pid)), r.values, |r.values|)
  }

  lemma {:induction false} SharesAreFold<P(!new)>(W: World<P>, str: string, values: seq<Share>, n: nat)
    requires n <= |values|
    ensures CountRowStr(W, str, values, n) == Fold(ShareStep(W), str, values[..n])
  {
    if n > 0 {
      SharesAreFold(W, str, values, n - 1);
      assert values[..n][..n - 1] == values[..n - 1];
    }
  }

  lemma {:induction false} RowsAreFold<P(!new)>(W: World<P>, str: string, count: seq<PosShares>, n: nat)
    requires n <= |count|
    ensures CountStr(W, str, count, n) == Fold(RowStep(W), str, count[..n])
  {
    if n > 0 {
      RowsAreFold(W, str, count, n - 1);
      assert count[..n][..n - 1] == count[..n - 1];
    }
  }

  lemma ShareKeeps<P(!new)>(W: World<P>)
    requires Joins(W.cat)
    ensures KeepsAll(ShareStep(W))
  {
    forall a, b, v: Share ensures Keeps(ShareStep(W), a, b, v) {
      var part := W.cat(W.cat(W.show(v.cid), W.show(v.x)), W.show(v.y));
      if ShareStep(W)(a, v) == ShareStep(W)(b, v) {
        Same(W.cat, a, part, b, part);
      }
    }
  }

  lemma RowKeeps<P(!new)>(W: World<P>)
    requires Joins(W.cat)
    ensures KeepsAll(RowStep(W))
  {
    ShareKeeps(W);
    forall a, b, r: PosShares ensures Keeps(RowStep(W), a, b, r) {
      if RowStep(W)(a, r) == RowStep(W)(b, r) {
        var s, t := W.cat(a, W.show(r.pid)), W.cat(b, W.show(r.pid));
        SharesAreFold(W, s, r.values, |r.values|);
        SharesAreFold(W, t, r.values, |r.values|);
        assert r.values[..|r.values|] == r.values;
        StartRead(ShareStep(W), s, t, r.values);
        Same(W.cat, a, W.show(r.pid), b, W.show(r.pid));
      }
    }
  }

  ghost predicate RowRead(p: PosShares, q: PosShares) {
    && (p.values == q.values ==> p.pid == q.pid)
    && (p.pid == q.pid && |p.values| == |q.values| ==>
          forall k :: 0 <= k < |q.values| && p.values == q.values[k := p.values[k]] ==>
            ShareRead(p.values[k], q.values[k]))
  }

  ghost predicate ShareRead(v: Share, w: Share) {
    && (v == w.(cid := v.cid) ==> v.cid == w.cid) && (v == w.(x := v.x) ==> v.x == w.x)
    && (v == w.(y := v.y) ==> v.y == w.y)
  }

  lemma OneShare<P(!new)>(W: World<P>, t: string, v: Share, w: Share)
    requires Joins(W.cat) && Tells(W.show) && ShareStep(W)(t, v) == ShareStep(W)(t, w)
    ensures ShareRead(v, w)
  {
    var c, show := W.cat, W.show;
    var a, b := c(show(v.cid), show(v.x)), c(show(w.cid), show(w.x));
    Same(c, t, c(a, show(v.y)), t, c(b, show(w.y)));
    Same(c, a, show(v.y), b, show(w.y));
    if v.y == w.y {
      Same(c, show(v.cid), show(v.x), show(w.cid), show(w.x));
    }
  }

  lemma OneRow<P(!new)>(W: World<P>, s: string, p: PosShares, q: PosShares)
    requires Joins(W.cat) && Tells(W.show) && RowStep(W)(s, p) == RowStep(W)(s, q)
    ensures RowRead(p, q)
  {
    hide ShareRead;
    var a, b := W.cat(s, W.show(p.pid)), W.cat(s, W.show(q.pid));
    SharesAreFold(W, a, p.values, |p.values|);
    SharesAreFold(W, b, q.values, |q.values|);
    assert p.values[..|p.values|] == p.values && q.values[..|q.values|] == q.values;
    ShareKeeps(W);
    if p.values == q.values {
      StartRead(ShareStep(W), a, b, q.values);
      Same(W.cat, s, W.show(p.pid), s, W.show(q.pid));
    }
    if p.pid == q.pid && |p.values| == |q.values| {
      forall k | 0 <= k < |q.values| && p.values == q.values[k := p.values[k]]
        ensures ShareRead(p.values[k], q.values[k])
      {
        PartRead(ShareStep(W), a, q.values, k, p.values[k]);
        var t :| ShareStep(W)(t, p.values[k]) == ShareStep(W)(t, q.values[k]);
        OneShare(W, t, p.values[k], q.values[k]);
      }
    }
  }

  /** What a teller signs under its totals changes with the election, with the time, and with any one number in it. */
  lemma CountRead<P(!new)>(W: World<P>, eid: int, eid': int, count: seq<PosShares>, time: int, time': int, j: nat,
                           r: PosShares)
    requires Joins(W.cat) && Tells(W.show) && j < |count|
    ensures CountSigned(W, eid, count, time') == CountSigned(W, eid, count, time) ==> time' == time
    ensures CountSigned(W, eid', count, time) == CountSigned(W, eid, count, time) ==> eid' == eid
    ensures CountSigned(W, eid, count[j := r], time) == CountSigned(W, eid, count, time) ==> RowRead(r, count[j])
  {
    var s, s', count' := W.show(eid), W.show(eid'), count[j := r];
    var a := CountStr(W, s, count, |count|);
    RowsAreFold(W, s, count, |count|);
    assert count[..|count|] == count && count'[..|count|] == count';
    RowKeeps(W);
    if CountSigned(W, eid, count, time') == CountSigned(W, eid, count, time) {
      Same(W.cat, a, W.show(time'), a, W.show(time));
    }
    if CountSigned(W, eid', count, time) == CountSigned(W, eid, count, time) {
      Same(W.cat, CountStr(W, s', count, |count|), W.show(time), a, W.show(time));
      RowsAreFold(W, s', count, |count|);
      StartRead(RowStep(W), s', s, count);
    }
    if CountSigned(W, eid, count', time) == CountSigned(W, eid, count, time) {
      Same(W.cat, CountStr(W, s, count', |count|), W.show(time), a, W.show(time));
      RowsAreFold(W, s, count', |count|);
      PartRead(RowStep(W), s, count, j, r);
      var t :| RowStep(W)(t, r) == RowStep(W)(t, count[j]);
      OneRow(W, t, r, count[j]);
    }
  }

  // ----- Elections -----

  ghost predicate Plain(T: Texts) {
    Joins(T.cat) && Tells(T.show) && Tells(T.mark)
  }

  /** Five parts joined, one of them another. */
  lemma FiveRead(T: Texts, a: string, b: string, c: string, d: string, e: string, a': string, b': string, c': string,
                 d': string, e': string)
    requires Joins(T.cat)
    requires T.cat(T.cat(T.cat(T.cat(a, b), c), d), e) == T.cat(T.cat(T.cat(T.cat(a', b'), c'), d'), e')
    ensures b == b' && c == c' && d == d' && e == e' ==> a == a'
    ensures a == a' && c == c' && d == d' && e == e' ==> b == b'
    ensures a == a' && b == b' && d == d' && e == e' ==> c == c'
    ensures a == a' && b == b' && c == c' && e == e' ==> d == d'
    ensures a == a' && b == b' && c == c' && d == d' ==> e == e'
  {
    var f := T.cat;
    var x, y := f(a, b), f(a', b');
    Same(f, f(f(x, c), d), e, f(f(y, c'), d'), e');
    if e == e' {
      Same(f, f(x, c), d, f(y, c'), d');
      if d == d' {
        Same(f, x, c, y, c');
        if c == c' {
          Same(f, a, b, a', b');
        }
      }
    }
  }

  lemma CandRead(T: Texts, c: Cand, d: Cand)
    requires Plain(T) && CandText(T, c) == CandText(T, d)
    ensures c == d.(eid := c.eid) ==> c.eid == d.eid
    ensures c == d.(cid := c.cid) ==> c.cid == d.cid
    ensures c == d.(name := c.name) ==> c.name == d.name
    ensures c == d.(createTime := c.createTime) ==> c.createTime == d.createTime
    ensures c == d.(updateTime := c.updateTime) ==> c.updateTime == d.updateTime
  {
    FiveRead(T, T.show(c.eid), T.show(c.cid), c.name, T.show(c.createTime), T.show(c.updateTime),
             T.show(d.eid), T.show(d.cid), d.name, T.show(d.createTime), T.show(d.updateTime));
  }

  lemma PosEntryRead(T: Texts, c: Pos, d: Pos)
    requires Plain(T) && PosText(T, c) == PosText(T, d)
    ensures c == d.(eid := c.eid) ==> c.eid == d.eid
    ensures c == d.(pid := c.pid) ==> c.pid == d.pid
    ensures c == d.(name := c.name) ==> c.name == d.name
    ensures c == d.(createTime := c.createTime) ==> c.createTime == d.createTime
    ensures c == d.(updateTime := c.updateTime) ==> c.updateTime == d.updateTime
  {
    FiveRead(T, T.show(c.eid), T.show(c.pid), c.name, T.show(c.createTime), T.show(c.updateTime),
             T.show(d.eid), T.show(d.pid), d.name, T.show(d.createTime), T.show(d.updateTime));
  }

  lemma MappingRead(T: Texts, c: Mapping, d: Mapping)
    requires Plain(T) && MappingText(T, c) == MappingText(T, d)
    ensures c == d.(eid := c.eid) ==> c.eid == d.eid
    ensures c == d.(pid := c.pid) ==> c.pid == d.pid
    ensures c == d.(cid := c.cid) ==> c.cid == d.cid
  {
    var f := T.cat;
    Same(f, f(T.show(c.eid), T.show(c.pid)), T.show(c.cid), f(T.show(d.eid), T.show(d.pid)), T.show(d.cid));
    if c.cid == d.cid {
      Same(f, T.show(c.eid), T.show(c.pid), T.show(d.eid), T.show(d.pid));
    }
  }

  lemma TellerRead(T: Texts, c: Teller, d: Teller)
    requires Plain(T) && TellerText(T, c) == TellerText(T, d)
    ensures c == d.(eid := c.eid) ==> c.eid == d.eid
    ensures c == d.(protocol := c.protocol) ==> c.protocol == d.protocol
    ensures c == d.(hostname := c.hostname) ==> c.hostname == d.hostname
    ensures c == d.(port := c.port) ==> c.port == d.port
    ensures c == d.(tunnelPort := c.tunnelPort) ==> c.tunnelPort == d.tunnelPort
    ensures c == d.(regTime := c.regTime) ==> c.regTime == d.regTime
    ensures c == d.(pubKey := c.pubKey) ==> c.pubKey == d.pubKey
  {
    var f := T.cat;
    var a, b := f(f(T.show(c.eid), c.protocol), c.hostname), f(f(T.show(d.eid), d.protocol), d.hostname);
    FiveRead(T, a, T.show(c.port), T.show(c.tunnelPort), T.show(c.regTime), c.pubKey,
             b, T.show(d.port), T.show(d.tunnelPort), T.show(d.regTime), d.pubKey);
    if a == b {
      Same(f, f(T.show(c.eid), c.protocol), c.hostname, f(T.show(d.eid), d.protocol), d.hostname);
      if c.hostname == d.hostname {
        Same(f, T.show(c.eid), c.protocol, T.show(d.eid), d.protocol);
      }
    }
  }

  function CandStep(T: Texts): (string, Cand) -> string {
    (s: string, x: Cand) => T.cat(s, CandText(T, x))
  }

  lemma {:induction false} CandsTextIsFold(T: Texts, str: string, xs: seq<Cand>, n: nat)
    requires n <= |xs|
    ensures CandsText(T, str, xs, n) == Fold(CandStep(T), str, xs[..n])
  {
    if n > 0 {
      CandsTextIsFold(T, str, xs, n - 1);
      assert xs[..n][..n - 1] == xs[..n - 1];
    }
  }

  function EntryStep(T: Texts): (string, Pos) -> string {
    (s: string, x: Pos) => T.cat(s, PosText(T, x))
  }

  lemma {:induction false} PossTextIsFold(T: Texts, str: string, xs: seq<Pos>, n: nat)
    requires n <= |xs|
    ensures PossText(T, str, xs, n) == Fold(EntryStep(T), str, xs[..n])
  {
    if n > 0 {
      PossTextIsFold(T, str, xs, n - 1);
      assert xs[..n][..n - 1] == xs[..n - 1];
    }
  }

  function MappingStep(T: Texts): (string, Mapping) -> string {
    (s: string, x: Mapping) => T.cat(s, MappingText(T, x))
  }

  lemma {:induction false} MappingsTextIsFold(T: Texts, str: string, xs: seq<Mapping>, n: nat)
    requires n <= |xs|
    ensures MappingsText(T, str, xs, n) == Fold(MappingStep(T), str, xs[..n])
  {
    if n > 0 {
      MappingsTextIsFold(T, str, xs, n - 1);
      assert xs[..n][..n - 1] == xs[..n - 1];
    }
  }

  function TellerStep(T: Texts): (string, Teller) -> string {
    (s: string, x: Teller) => T.cat(s, TellerText(T, x))
  }

  lemma {:induction false} TellersTextIsFold(T: Texts, xs: seq<Teller>, n: nat)
    requires n <= |xs|
    ensures TellersText(T, xs, n) == Fold(TellerStep(T), "", xs[..n])
  {
    if n > 0 {
      TellersTextIsFold(T, xs, n - 1);
      assert xs[..n][..n - 1] == xs[..n - 1];
    }
  }

  /** A step that joins one text per part keeps what stands before, and tells apart parts of different texts. */
  lemma JoinKeeps<X(!new)>(cat: Join, text: X -> string, step: (string, X) -> string)
    requires Joins(cat) && forall s, x :: step(s, x) == cat(s, text(x))
    ensures KeepsAll(step) && forall x, y :: Alike(step, x, y) ==> text(x) == text(y)
  {
    forall a, b, x ensures Keeps(step, a, b, x) {
      if step(a, x) == step(b, x) {
        Same(cat, a, text(x), b, text(x));
      }
    }
    forall x, y | Alike(step, x, y) ensures text(x) == text(y) {
      var s :| step(s, x) == step(s, y);
      Same(cat, s, text(x), s, text(y));
    }
  }

  /** The list of tellers changes with the text of each one. */
  lemma TellerListRead(T: Texts, ts: seq<Teller>, i: nat, t: Teller)
    requires Plain(T) && i < |ts| && TellerListText(T, ts[i := t]) == TellerListText(T, ts)
    ensures TellerText(T, t) == TellerText(T, ts[i])
  {
    hide TellerText;
    JoinKeeps(T.cat, x => TellerText(T, x), TellerStep(T));
    TellersTextIsFold(T, ts, |ts|);
    TellersTextIsFold(T, ts[i := t], |ts|);
    assert ts[..|ts|] == ts && ts[i := t][..|ts|] == ts[i := t];
    PartRead(TellerStep(T), "", ts, i, t);
  }

  lemma SameHead(T: Texts, e: Election, e': Election, state: int)
    requires e' == e.(cand := e'.cand, pos := e'.pos, posCandMapping := e'.posCandMapping)
    ensures HeadText(T, e', state) == HeadText(T, e, state)
  {
  }

  lemma InfoIsFold(T: Texts, e: Election, state: int)
    ensures InfoText(T, e, state) ==
      Fold(MappingStep(T), Fold(EntryStep(T), Fold(CandStep(T), HeadText(T, e, state), e.cand), e.pos),
           e.posCandMapping)
  {
    hide CandText, PosText, MappingText, HeadText;
    var h := HeadText(T, e, state);
    CandsTextIsFold(T, h, e.cand, |e.cand|);
    var c := CandsText(T, h, e.cand, |e.cand|);
    PossTextIsFold(T, c, e.pos, |e.pos|);
    var p := PossText(T, c, e.pos, |e.pos|);
    MappingsTextIsFold(T, p, e.posCandMapping, |e.posCandMapping|);
    assert e.cand[..|e.cand|] == e.cand && e.pos[..|e.pos|] == e.pos;
    assert e.posCandMapping[..|e.posCandMapping|] == e.posCandMapping;
  }

  /** The frozen election's text changes with the state given, with each field, and with the text of each candidate,
      position and pair. */
  lemma InfoRead(T: Texts, e: Election, e': Election, state: int, state': int)
    requires Plain(T) && InfoText(T, e', state') == InfoText(T, e, state)
    ensures e'.cand == e.cand && e'.pos == e.pos && e'.posCandMapping == e.posCandMapping ==>
      HeadText(T, e', state') == HeadText(T, e, state)
    ensures state' == state ==>
      && (forall i, c :: 0 <= i < |e.cand| && e' == e.(cand := e.cand[i := c]) ==>
            CandText(T, c) == CandText(T, e.cand[i]))
      && (forall i, p :: 0 <= i < |e.pos| && e' == e.(pos := e.pos[i := p]) ==> PosText(T, p) == PosText(T, e.pos[i]))
      && (forall i, m :: 0 <= i < |e.posCandMapping| && e' == e.(posCandMapping := e.posCandMapping[i := m]) ==>
            MappingText(T, m) == MappingText(T, e.posCandMapping[i]))
  {
    hide CandText, PosText, MappingText, HeadText;
    JoinKeeps(T.cat, x => CandText(T, x), CandStep(T));
    JoinKeeps(T.cat, x => PosText(T, x), EntryStep(T));
    JoinKeeps(T.cat, x => MappingText(T, x), MappingStep(T));
    InfoIsFold(T, e, state);
    InfoIsFold(T, e', state');
    var h, h' := HeadText(T, e, state), HeadText(T, e', state');
    var c, c' := Fold(CandStep(T), h, e.cand), Fold(CandStep(T), h', e'.cand);
    var p, p' := Fold(EntryStep(T), c, e.pos), Fold(EntryStep(T), c', e'.pos);
    if e'.posCandMapping == e.posCandMapping {
      StartRead(MappingStep(T), p', p, e.posCandMapping);
      if e'.pos == e.pos {
        StartRead(EntryStep(T), c', c, e.pos);
        if e'.cand == e.cand {
          StartRead(CandStep(T), h', h, e.cand);
        }
      }
    }
    if state' == state {
      forall i, x | 0 <= i < |e.cand| && e' == e.(cand := e.cand[i := x])
        ensures CandText(T, x) == CandText(T, e.cand[i])
      {
        SameHead(T, e, e', state);
        PartRead(CandStep(T), h, e.cand, i, x);
      }
      forall i, x | 0 <= i < |e.pos| && e' == e.(pos := e.pos[i := x]) ensures PosText(T, x) == PosText(T, e.pos[i]) {
        SameHead(T, e, e', state);
        PartRead(EntryStep(T), c, e.pos, i, x);
      }
      forall i, x | 0 <= i < |e.posCandMapping| && e' == e.(posCandMapping := e.posCandMapping[i := x])
        ensures MappingText(T, x) == MappingText(T, e.posCandMapping[i])
      {
        SameHead(T, e, e', state);
        PartRead(MappingStep(T), p, e.posCandMapping, i, x);
      }
    }
  }

  lemma HeadRead(T: Texts, e: Election, e': Election, state: int, state': int)
    requires Plain(T) && HeadText(T, e', state') == HeadText(T, e, state) && e.freezeTime.Some? && e'.freezeTime.Some?
    ensures e' == e ==> state' == state
    ensures state' == state && e' == e.(id := e'.id) ==> e'.id == e.id
    ensures state' == state && e' == e.(name := e'.name) ==> e'.name == e.name
    ensures state' == state && e' == e.(tunnelPort := e'.tunnelPort) ==> e'.tunnelPort == e.tunnelPort
    ensures state' == state && e' == e.(createTime := e'.createTime) ==> e'.createTime == e.createTime
    ensures state' == state && e' == e.(freezeTime := e'.freezeTime) ==> e'.freezeTime == e.freezeTime
  {
    var f := T.cat;
    var a, a' := f(T.show(e.id), e.name), f(T.show(e'.id), e'.name);
    FiveRead(T, a', T.show(state'), T.show(e'.tunnelPort), T.show(e'.createTime), T.show(e'.freezeTime.value),
             a, T.show(state), T.show(e.tunnelPort), T.show(e.createTime), T.show(e.freezeTime.value));
    if a' == a {
      Same(f, T.show(e'.id), e'.name, T.show(e.id), e.name);
    }
  }

  ghost predicate Complete(e: Election) {
    e.voterCount.Some? && e.voterSign.Some? && e.tellerSign.Some? && e.openTime.Some? && e.closeTime.Some?
  }

  lemma InfoFieldsOnly(T: Texts, e: Election, e': Election, state: int)
    ensures SameFrozen(e', e) ==> InfoText(T, e', state) == InfoText(T, e, state)
  {
    if SameFrozen(e', e) {
      SameInfoText(T, e', e, state);
    }
  }

  ghost predicate SameOpening(a: Election, b: Election) {
    && a.voterCount == b.voterCount && a.voterSign == b.voterSign && a.tellerSign == b.tellerSign
    && a.openTime == b.openTime
  }

  lemma OpenFieldsRead(T: Texts, s: string, s': string, e: Election, e': Election)
    requires Plain(T) && Complete(e) && Complete(e') && OpenFields(T, s', e') == OpenFields(T, s, e)
    ensures s == s' && e' == e.(voterCount := e'.voterCount) ==> e'.voterCount == e.voterCount
    ensures s == s' && e' == e.(voterSign := e'.voterSign) ==> e'.voterSign == e.voterSign
    ensures s == s' && e' == e.(tellerSign := e'.tellerSign) ==> e'.tellerSign == e.tellerSign
    ensures s == s' && e' == e.(openTime := e'.openTime) ==> e'.openTime == e.openTime
    ensures SameOpening(e', e) ==> s == s'
  {
    FiveRead(T, s', ShowTime(T, e'.voterCount), ShowSign(T, e'.voterSign), ShowSign(T, e'.tellerSign),
             ShowTime(T, e'.openTime),
             s, ShowTime(T, e.voterCount), ShowSign(T, e.voterSign), ShowSign(T, e.tellerSign),
             ShowTime(T, e.openTime));
  }

  /** Opening and closing: the text changes with each field of its own, and with the frozen election's text. */
  lemma OpenCloseRead(T: Texts, e: Election, e': Election)
    requires Plain(T) && Complete(e) && Complete(e')
    requires OpenText(T, e') == OpenText(T, e) || CloseText(T, e') == CloseText(T, e)
    ensures e' == e.(voterCount := e'.voterCount) ==> e'.voterCount == e.voterCount
    ensures e' == e.(voterSign := e'.voterSign) ==> e'.voterSign == e.voterSign
    ensures e' == e.(tellerSign := e'.tellerSign) ==> e'.tellerSign == e.tellerSign
    ensures e' == e.(openTime := e'.openTime) ==> e'.openTime == e.openTime
    ensures CloseText(T, e') == CloseText(T, e) && e' == e.(closeTime := e'.closeTime) ==> e'.closeTime == e.closeTime
    ensures e' == e.(id := e'.id, name := e'.name, cand := e'.cand, pos := e'.pos, posCandMapping := e'.posCandMapping,
                     tunnelPort := e'.tunnelPort, createTime := e'.createTime, freezeTime := e'.freezeTime) ==>
      InfoText(T, e', 2) == InfoText(T, e, 2) || InfoText(T, e', 3) == InfoText(T, e, 3)
  {
    hide InfoText;
    if OpenText(T, e') == OpenText(T, e) {
      OpenFieldsRead(T, InfoText(T, e', 2), InfoText(T, e, 2), e', e);
      InfoFieldsOnly(T, e, e', 2);
    }
    if CloseText(T, e') == CloseText(T, e) {
      Same(T.cat, OpenFields(T, InfoText(T, e', 3), e'), ShowTime(T, e'.closeTime),
           OpenFields(T, InfoText(T, e, 3), e), ShowTime(T, e.closeTime));
      InfoFieldsOnly(T, e, e', 3);
      if e'.closeTime == e.closeTime {
        OpenFieldsRead(T, InfoText(T, e', 3), InfoText(T, e, 3), e', e);
      }
    }
  }

  // ----- The texts of examples -----

  function Digit(n: int): string {
    if 0 <= n < 10 then ["0123456789"[n]] else "?"
  }

  function DigitWorld(): World<Five> {
    FiveWorld().(show := Digit)
  }

  function DigitTexts(): Texts {
    Texts(Digit, (t: Token) => "<" + t.text + ">", (s, t) => s + t)
  }

  const LINK := Link(1, "e@x", "r", 2, 3, "s")
  const CELLS := [ZCell(5, "z"), ZCell(6, "y")]
  const SHARES := [Share(5, 6, 7), Share(8, 9, 0)]

  lemma LinkTexts()
    ensures ParamStr(DigitWorld(), LINK) == "1e@xr23" && ReceiptStr(DigitWorld(), LINK, 9) == "1e@xr23s9"
  {
  }

  lemma CommitTexts()
    ensures CommitStr(DigitWorld(), LINK, [PosZ(4, CELLS), PosZ(8, [])], 7) == "1e@xr23s45z6y87"
  {
    hide ParamStr;
    LinkTexts();
    var W, val := DigitWorld(), [PosZ(4, CELLS), PosZ(8, [])];
    var s := "1e@xr23s";
    assert W.cat(ParamStr(W, LINK), LINK.linkSign) == s;
    assert CellsStr(W, s + "4", CELLS, 1) == s + "45z";
    assert CellsStr(W, s + "4", CELLS, 2) == s + "45z6y";
    assert ZStr(W, s, val, 1) == s + "45z6y";
    assert ZStr(W, s, val, 2) == s + "45z6y8";
  }

  lemma CountTexts()
    ensures CountSigned(DigitWorld(), 1, [PosShares(4, SHARES)], 2) == "1" + "4" + "567" + "890" + "2"
  {
    var W, count := DigitWorld(), [PosShares(4, SHARES)];
    assert CountRowStr(W, "14", SHARES, 1) == "14" + "567";
    assert CountRowStr(W, "14", SHARES, 2) == "14" + "567" + "890";
    assert CountStr(W, "1", count, 0) == "1" && W.cat("1", W.show(4)) == "14";
    assert count[0].values == SHARES && |SHARES| == 2;
    assert CountStr(W, "1", count, 1) == "14" + "567" + "890";
  }

  const CAND := Cand(1, 5, "c", 6, 7)
  const POS := Pos(1, 8, "p", 6, 7)
  const PAIR := Mapping(1, 8, 5)
  const TELLER := Teller(1, "http:", "h", 8, 9, 7, "k", "x")

  function Sample(): Election {
    Election(1, "n", 0, 2, 3, Some(4), None, [CAND], [POS], [PAIR], Some(9), Some(Token("a", "v")),
             Some(Token("a", "t")), Some(5), None, Some(6), None, None)
  }

  lemma PartTexts(state: int)
    ensures HeadText(DigitTexts(), Sample(), state) == "1n" + Digit(state) + "234"
    ensures CandText(DigitTexts(), CAND) == "15c67" && PosText(DigitTexts(), POS) == "18p67"
    ensures MappingText(DigitTexts(), PAIR) == "185" && TellerText(DigitTexts(), TELLER) == "1http:h897k"
  {
  }

  lemma FrozenTexts(state: int)
    ensures InfoText(DigitTexts(), Sample(), state) == "1n" + Digit(state) + "234" + "15c67" + "18p67" + "185"
  {
    hide HeadText, CandText, PosText, MappingText, Digit;
    PartTexts(state);
    var T, h := DigitTexts(), HeadText(DigitTexts(), Sample(), state);
    assert CandsText(T, h, [CAND], 1) == h + "15c67";
    var c := h + "15c67";
    assert PossText(T, c, [POS], 1) == c + "18p67";
    var p := c + "18p67";
    assert MappingsText(T, p, [PAIR], 1) == p + "185";
  }

  lemma AttemptTexts()
    ensures OpenText(DigitTexts(), Sample()) == InfoText(DigitTexts(), Sample(), 2) + "9" + "<v>" + "<t>" + "5"
    ensures CloseText(DigitTexts(), Sample()) == InfoText(DigitTexts(), Sample(), 3) + "9" + "<v>" + "<t>" + "5" + "6"
    ensures TellerListText(DigitTexts(), [TELLER]) == "1http:h897k"
  {
    hide InfoText, TellerText;
    PartTexts(0);
    assert TellersText(DigitTexts(), [TELLER], 0) == "";
    assert TellersText(DigitTexts(), [TELLER], 1) == "" + "1http:h897k";
  }
}

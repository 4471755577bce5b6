/** A teller's database for one election: votes and receipts come in while the election is open, and the tally of
    src/teller/electionTallying.js runs in one transaction after it has closed. */
module TellerTally {
  import opened Wrappers
  import opened Groups
  import opened Ballots
  import opened VoteServers
  import opened Tally

  type Key = (string, string)

  /** A stored vote; (rid, sign) is the primary key of the table. A receipt is the board's signature and its time. */
  datatype Row = Row(link: Link, sign: string, data: seq<PosShares>, voteTime: int, receipt: Option<(int, string)>,
                     isSum: bool)
  {
    function Id(): Key { (link.rid, sign) }
  }

  ghost predicate Keyed(rows: seq<Row>) {
    forall a, b :: 0 <= a < b < |rows| ==> rows[a].Id() != rows[b].Id()
  }

  ghost predicate RowsFit(rows: seq<Row>, layout: seq<Position>) {
    forall a :: 0 <= a < |rows| ==> CountFits(rows[a].data, layout)
  }

  ghost predicate HasKey(rows: seq<Row>, key: Key) {
    exists a :: 0 <= a < |rows| && rows[a].Id() == key
  }

  /** The rows with is_sum set on exactly the keys given. */
  ghost function Marked(rows: seq<Row>, picks: seq<Key>): (r: seq<Row>)
    ensures |r| == |rows|
    ensures forall a :: 0 <= a < |r| ==> r[a] == rows[a].(isSum := rows[a].Id() in picks)
  {
    seq(|rows|, a requires 0 <= a < |rows| => rows[a].(isSum := rows[a].Id() in picks))
  }

  /** Every pick names a row, and none is named twice. */
  ghost predicate GoodPicks(rows: seq<Row>, picks: seq<Key>) {
    && (forall i :: 0 <= i < |picks| ==> HasKey(rows, picks[i]))
    && forall i, m :: 0 <= i < m < |picks| ==> picks[i] != picks[m]
  }

  /** The shares of one cell, with zero for the rows not yet summed. */
  ghost function SummedXs(rows: seq<Row>, layout: seq<Position>, j: nat, k: nat): (r: seq<int>)
    requires RowsFit(rows, layout) && j < |layout| && k < |layout[j].cand|
    ensures |r| == |rows|
    ensures forall a :: 0 <= a < |r| ==> r[a] == if rows[a].isSum then CountCell(rows[a].data, layout, j, k).x else 0
  {
    seq(|rows|, a requires 0 <= a < |rows| => if rows[a].isSum then CountCell(rows[a].data, layout, j, k).x else 0)
  }

  ghost function SummedYs(rows: seq<Row>, layout: seq<Position>, j: nat, k: nat): (r: seq<int>)
    requires RowsFit(rows, layout) && j < |layout| && k < |layout[j].cand|
    ensures |r| == |rows|
    ensures forall a :: 0 <= a < |r| ==> r[a] == if rows[a].isSum then CountCell(rows[a].data, layout, j, k).y else 0
  {
    seq(|rows|, a requires 0 <= a < |rows| => if rows[a].isSum then CountCell(rows[a].data, layout, j, k).y else 0)
  }

  /** The accumulator holds the plain sums over the rows marked is_sum. */
  ghost predicate OutputIs(out: seq<PosShares>, layout: seq<Position>, rows: seq<Row>)
    requires RowsFit(rows, layout)
  {
    && CountFits(out, layout)
    && forall j, k :: 0 <= j < |layout| && 0 <= k < |layout[j].cand| ==>
      && CountCell(out, layout, j, k).x == Total(SummedXs(rows, layout, j, k))
      && CountCell(out, layout, j, k).y == Total(SummedYs(rows, layout, j, k))
  }

  /** The count is the sum over the rows marked is_sum, reduced modulo the order. */
  ghost predicate CountIs(order: nat, count: seq<PosShares>, layout: seq<Position>, rows: seq<Row>)
    requires order > 0 && RowsFit(rows, layout)
  {
    && CountFits(count, layout)
    && forall j, k :: 0 <= j < |layout| && 0 <= k < |layout[j].cand| ==>
      && CountCell(count, layout, j, k).x == Total(SummedXs(rows, layout, j, k)) % order
      && CountCell(count, layout, j, k).y == Total(SummedYs(rows, layout, j, k)) % order
  }

  // ----- The loops of the tally -----

  /** out[j][k] plus data[j][k], in every cell. */
  ghost predicate IsSum(out': seq<PosShares>, out: seq<PosShares>, data: seq<PosShares>, layout: seq<Position>)
    requires CountFits(out, layout) && CountFits(data, layout)
  {
    && CountFits(out', layout)
    && forall j, k :: 0 <= j < |layout| && 0 <= k < |layout[j].cand| ==>
      && CountCell(out', layout, j, k).x == CountCell(out, layout, j, k).x + CountCell(data, layout, j, k).x
      && CountCell(out', layout, j, k).y == CountCell(out, layout, j, k).y + CountCell(data, layout, j, k).y
  }

  method AddRow(out: PosShares, data: PosShares, ghost pos: Position) returns (out': PosShares)
    requires CountRowFits(out, pos) && CountRowFits(data, pos)
    ensures CountRowFits(out', pos)
    ensures forall k :: 0 <= k < |pos.cand| ==>
      out'.values[k] == Share(pos.cand[k], out.values[k].x + data.values[k].x, out.values[k].y + data.values[k].y)
  {
    var values := out.values;
    for k := 0 to |out.values|
      invariant |values| == |out.values|
      invariant forall m :: k <= m < |values| ==> values[m] == out.values[m]
      invariant forall m :: 0 <= m < k ==>
        values[m] == Share(pos.cand[m], out.values[m].x + data.values[m].x, out.values[m].y + data.values[m].y)
    {
      var a, b := values[k], data.values[k];
      values := values[k := a.(x := a.x + b.x, y := a.y + b.y)];
    }
    out' := PosShares(out.pid, values);
  }

  method AddResult(out: seq<PosShares>, data: seq<PosShares>,
                   ghost layout: seq<Position>) returns (out': seq<PosShares>)
    requires CountFits(out, layout) && CountFits(data, layout)
    ensures IsSum(out', out, data, layout)
  {
    out' := out;
    for j := 0 to |out|
      invariant CountFits(out', layout)
      invariant forall m :: j <= m < |layout| ==> out'[m] == out[m]
      invariant forall m, k :: 0 <= m < j && 0 <= k < |layout[m].cand| ==>
        && CountCell(out', layout, m, k).x == CountCell(out, layout, m, k).x + CountCell(data, layout, m, k).x
        && CountCell(out', layout, m, k).y == CountCell(out, layout, m, k).y + CountCell(data, layout, m, k).y
    {
      assert CountRowFits(out'[j], layout[j]) && CountRowFits(data[j], layout[j]);
      var row := AddRow(out'[j], data[j], layout[j]);
      out' := out'[j := row];
    }
  }

  method FindUnsummed(rows: seq<Row>, key: Key) returns (a: int)
    ensures -1 <= a < |rows|
    ensures a >= 0 ==> rows[a].Id() == key && !rows[a].isSum
    ensures a == -1 ==> forall m :: 0 <= m < |rows| ==> rows[m].Id() != key || rows[m].isSum
  {
    for i := 0 to |rows|
      invariant forall m :: 0 <= m < i ==> rows[m].Id() != key || rows[m].isSum
    {
      if rows[i].Id() == key && !rows[i].isSum {
        return i;
      }
    }
    return -1;
  }

  /** Marking one more row adds exactly that row to the sums. */
  lemma MarkOne(rows: seq<Row>, layout: seq<Position>, a: nat, out: seq<PosShares>, out': seq<PosShares>)
    requires RowsFit(rows, layout) && a < |rows| && !rows[a].isSum && OutputIs(out, layout, rows)
    requires IsSum(out', out, rows[a].data, layout)
    ensures RowsFit(rows[a := rows[a].(isSum := true)], layout)
    ensures OutputIs(out', layout, rows[a := rows[a].(isSum := true)])
  {
    var rows' := rows[a := rows[a].(isSum := true)];
    assert RowsFit(rows', layout);
    forall j, k | 0 <= j < |layout| && 0 <= k < |layout[j].cand|
      ensures CountCell(out', layout, j, k).x == Total(SummedXs(rows', layout, j, k))
      ensures CountCell(out', layout, j, k).y == Total(SummedYs(rows', layout, j, k))
    {
      var c := CountCell(rows[a].data, layout, j, k);
      assert SummedXs(rows', layout, j, k) == SummedXs(rows, layout, j, k)[a := c.x];
      assert SummedYs(rows', layout, j, k) == SummedYs(rows, layout, j, k)[a := c.y];
      TotalUpdate(SummedXs(rows, layout, j, k), a, c.x);
      TotalUpdate(SummedYs(rows, layout, j, k), a, c.y);
    }
  }

  /** A new pick succeeds exactly when it names a row not named before. */
  lemma PickOne(rows: seq<Row>, picks: seq<Key>, key: Key, a: int)
    requires Keyed(rows) && GoodPicks(rows, picks) && -1 <= a < |rows|
    requires a >= 0 ==> rows[a].Id() == key && !Marked(rows, picks)[a].isSum
    requires a == -1 ==> forall m :: 0 <= m < |rows| ==> rows[m].Id() != key || Marked(rows, picks)[m].isSum
    ensures GoodPicks(rows, picks + [key]) <==> a >= 0
    ensures a >= 0 ==> Marked(rows, picks + [key]) == Marked(rows, picks)[a := Marked(rows, picks)[a].(isSum := true)]
  {
    if a >= 0 {
      assert HasKey(rows, key);
      forall i | 0 <= i < |picks| ensures picks[i] != key {
        assert picks[i] in picks;
      }
    } else if HasKey(rows, key) {
      RepeatedPick(rows, picks, key);
    } else {
      assert (picks + [key])[|picks|] == key;
    }
  }

  lemma RepeatedPick(rows: seq<Row>, picks: seq<Key>, key: Key)
    requires key in picks
    ensures !GoodPicks(rows, picks + [key])
  {
    var all := picks + [key];
    var i :| 0 <= i < |picks| && picks[i] == key;
    assert all[i] == all[|picks|];
  }

  // ----- The ballot file -----

  /** One teller's entry on a ballot; the signature may be missing. */
  datatype Entry = Entry(idx: int, sign: Option<string>)

  /** A line of the ballot file: empty, not a ballot, or a ballot. */
  datatype Line = Blank | Malformed | BallotLine(rid: string, zs: seq<Entry>)

  /** The keys of this teller's votes on the first n entries of a ballot, unless one lacks its signature. */
  function EntryPicks(rid: string, zs: seq<Entry>, idx: int, n: nat): Option<seq<Key>>
    requires n <= |zs|
  {
    if n == 0 then Some([])
    else match EntryPicks(rid, zs, idx, n - 1)
      case None => None
      case Some(ps) =>
        if zs[n - 1].idx != idx then Some(ps)
        else match zs[n - 1].sign
          case None => None
          case Some(sign) => Some(ps + [(rid, sign)])
  }

  function LinePicks(line: Line, idx: int): Option<seq<Key>> {
    match line
    case Blank => Some([])
    case Malformed => None
    case BallotLine(rid, zs) => EntryPicks(rid, zs, idx, |zs|)
  }

  /** The votes of this teller that the first n lines name, unless one of the lines cannot be read. */
  function FilePicks(file: seq<Line>, idx: int, n: nat): Option<seq<Key>>
    requires n <= |file|
  {
    if n == 0 then Some([])
    else match FilePicks(file, idx, n - 1)
      case None => None
      case Some(ps) => match LinePicks(file[n - 1], idx)
        case None => None
        case Some(more) => Some(ps + more)
  }

  /** The votes named so far are good, and the working copies show them summed. */
  ghost predicate Working(rows: seq<Row>, layout: seq<Position>, picks: seq<Key>, now: seq<Row>, out: seq<PosShares>) {
    GoodPicks(rows, picks) && now == Marked(rows, picks) && RowsFit(now, layout) && OutputIs(out, layout, now)
  }

  lemma GoodPrefix(rows: seq<Row>, picks: seq<Key>, more: seq<Key>)
    requires GoodPicks(rows, picks + more)
    ensures GoodPicks(rows, picks)
  {
    forall i | 0 <= i < |picks| ensures HasKey(rows, picks[i]) {
      assert (picks + more)[i] == picks[i];
    }
    forall i, m | 0 <= i < m < |picks| ensures picks[i] != picks[m] {
      assert (picks + more)[i] == picks[i] && (picks + more)[m] == picks[m];
    }
  }

  /** The query, the addition and the update for one vote. */
  method SumOne(ghost rows: seq<Row>, ghost layout: seq<Position>, ghost picks: seq<Key>, key: Key,
                now: seq<Row>, out: seq<PosShares>)
    returns (ok: bool, now': seq<Row>, out': seq<PosShares>)
    requires Keyed(rows) && Working(rows, layout, picks, now, out)
    ensures ok <==> GoodPicks(rows, picks + [key])
    ensures ok ==> Working(rows, layout, picks + [key], now', out')
  {
    hide OutputIs, IsSum, GoodPicks;
    now', out' := now, out;
    var a := FindUnsummed(now, key);
    PickOne(rows, picks, key, a);
    ok := a >= 0;
    if ok {
      assert CountFits(now[a].data, layout);
      OutputFits(out, layout, now);
      out' := AddResult(out, now[a].data, layout);
      MarkOne(now, layout, a, out, out');
      now' := now[a := now[a].(isSum := true)];
    }
  }

  lemma OutputFits(out: seq<PosShares>, layout: seq<Position>, rows: seq<Row>)
    requires RowsFit(rows, layout) && OutputIs(out, layout, rows)
    ensures CountFits(out, layout)
  {
  }

  lemma {:induction false} EntryPicksGrow(rid: string, zs: seq<Entry>, idx: int, i: nat, n: nat)
    requires i <= n <= |zs| && EntryPicks(rid, zs, idx, n).Some?
    ensures EntryPicks(rid, zs, idx, i).Some? && EntryPicks(rid, zs, idx, i).value <= EntryPicks(rid, zs, idx, n).value
    decreases n - i
  {
    if i < n {
      EntryPicksGrow(rid, zs, idx, i, n - 1);
    }
  }

  lemma {:induction false} FilePicksGrow(file: seq<Line>, idx: int, i: nat, n: nat)
    requires i <= n <= |file| && FilePicks(file, idx, n).Some?
    ensures FilePicks(file, idx, i).Some? && FilePicks(file, idx, i).value <= FilePicks(file, idx, n).value
    decreases n - i
  {
    if i < n {
      FilePicksGrow(file, idx, i, n - 1);
    }
  }

  /** One ballot: this teller's entries one after the other. */
  method SumBallot(ghost rows: seq<Row>, ghost layout: seq<Position>, ghost picks: seq<Key>, rid: string,
                   zs: seq<Entry>,
                   idx: int, now: seq<Row>, out: seq<PosShares>)
    returns (ok: bool, now': seq<Row>, out': seq<PosShares>)
    requires Keyed(rows) && Working(rows, layout, picks, now, out)
    ensures var more := EntryPicks(rid, zs, idx, |zs|);
      && (ok <==> more.Some? && GoodPicks(rows, picks + more.value))
      && (ok ==> Working(rows, layout, picks + more.value, now', out'))
  {
    WorkingIsGood(rows, layout, picks, now, out);
    hide Working, GoodPicks;
    now', out', ok := now, out, true;
    assert picks + [] == picks;
    ghost var so := [];
    var i := 0;
    while i < |zs| && ok
      invariant 0 <= i <= |zs|
      invariant ok ==> EntryPicks(rid, zs, idx, i) == Some(so)
      invariant ok ==> Working(rows, layout, picks + so, now', out')
      invariant !ok ==> !BallotReads(rows, picks, rid, zs, idx)
    {
      ghost var was := so;
      if zs[i].idx == idx {
        match zs[i].sign {
          case None =>
            ok := false;
            NoPrefix(rows, picks, rid, zs, idx, i + 1);
          case Some(sign) =>
            so := was + [(rid, sign)];
            assert picks + so == picks + was + [(rid, sign)];
            ok, now', out' := SumOne(rows, layout, picks + was, (rid, sign), now', out');
            if !ok {
              NoPrefix(rows, picks, rid, zs, idx, i + 1);
            }
        }
      }
      i := i + 1;
    }
    if ok {
      WorkingIsGood(rows, layout, picks + so, now', out');
    }
  }

  /** Every entry of this teller on the ballot is signed and names a row not named before. */
  ghost predicate BallotReads(rows: seq<Row>, picks: seq<Key>, rid: string, zs: seq<Entry>, idx: int) {
    var more := EntryPicks(rid, zs, idx, |zs|);
    more.Some? && GoodPicks(rows, picks + more.value)
  }

  lemma NoPrefix(rows: seq<Row>, picks: seq<Key>, rid: string, zs: seq<Entry>, idx: int, i: nat)
    requires i <= |zs|
    requires EntryPicks(rid, zs, idx, i).None? || !GoodPicks(rows, picks + EntryPicks(rid, zs, idx, i).value)
    ensures !BallotReads(rows, picks, rid, zs, idx)
  {
    hide GoodPicks;
    if BallotReads(rows, picks, rid, zs, idx) {
      EntryPicksGrow(rid, zs, idx, i, |zs|);
      PrefixOf(rows, picks, EntryPicks(rid, zs, idx, i).value, EntryPicks(rid, zs, idx, |zs|).value);
      assert false;
    }
  }

  lemma PrefixOf(rows: seq<Row>, picks: seq<Key>, some: seq<Key>, all: seq<Key>)
    requires some <= all && GoodPicks(rows, picks + all)
    ensures GoodPicks(rows, picks + some)
  {
    assert picks + all == (picks + some) + all[|some|..];
    GoodPrefix(rows, picks + some, all[|some|..]);
  }

  lemma WorkingIsGood(rows: seq<Row>, layout: seq<Position>, picks: seq<Key>, now: seq<Row>, out: seq<PosShares>)
    requires Working(rows, layout, picks, now, out)
    ensures GoodPicks(rows, picks)
  {
  }

  /** The file names only rows of this teller, none twice, and can be read. */
  ghost predicate FileReads(rows: seq<Row>, file: seq<Line>, idx: int) {
    var picks := FilePicks(file, idx, |file|);
    picks.Some? && GoodPicks(rows, picks.value)
  }

  /** A file that reads has no line that is not a ballot, and none that lacks a signature of this teller. */
  lemma ReadsEveryLine(rows: seq<Row>, file: seq<Line>, idx: int, i: nat)
    requires FileReads(rows, file, idx) && i < |file|
    ensures !file[i].Malformed?
    ensures file[i].BallotLine? ==> forall m :: 0 <= m < |file[i].zs| && file[i].zs[m].idx == idx ==>
      file[i].zs[m].sign.Some? && HasKey(rows, (file[i].rid, file[i].zs[m].sign.value))
  {
    hide HasKey;
    FilePicksGrow(file, idx, i + 1, |file|);
    var all := FilePicks(file, idx, |file|).value;
    assert LinePicks(file[i], idx).Some?;
    if file[i].BallotLine? {
      var (rid, zs) := (file[i].rid, file[i].zs);
      var before, more := FilePicks(file, idx, i).value, EntryPicks(rid, zs, idx, |zs|).value;
      forall m | 0 <= m < |zs| && zs[m].idx == idx ensures zs[m].sign.Some? && HasKey(rows, (rid, zs[m].sign.value)) {
        EntryPicksGrow(rid, zs, idx, m + 1, |zs|);
        var some := EntryPicks(rid, zs, idx, m + 1).value;
        assert some[|some| - 1] == (rid, zs[m].sign.value);
        assert (before + more)[|before| + |some| - 1] == some[|some| - 1];
        assert all[|before| + |some| - 1] == (rid, zs[m].sign.value);
      }
    }
  }

  /** Empty lines name nothing. */
  lemma {:induction false} BlankNamesNothing(file: seq<Line>, idx: int, i: nat, n: nat)
    requires i < n <= |file| && file[i].Blank?
    ensures FilePicks(file[..i] + file[i + 1..], idx, n - 1) == FilePicks(file, idx, n)
  {
    var rest := file[..i] + file[i + 1..];
    if n == i + 1 {
      SamePrefix(rest, file, idx, i);
      assert forall ps: seq<Key> :: ps + [] == ps;
    } else {
      BlankNamesNothing(file, idx, i, n - 1);
      assert rest[n - 2] == file[n - 1];
    }
  }

  lemma {:induction false} SamePrefix(a: seq<Line>, b: seq<Line>, idx: int, n: nat)
    requires n <= |a| && n <= |b| && a[..n] == b[..n]
    ensures FilePicks(a, idx, n) == FilePicks(b, idx, n)
  {
    if n > 0 {
      assert a[..n - 1] == a[..n][..n - 1] && b[..n - 1] == b[..n][..n - 1];
      assert a[n - 1] == a[..n][n - 1] && b[n - 1] == b[..n][n - 1];
      SamePrefix(a, b, idx, n - 1);
    }
  }

  lemma NoFilePrefix(rows: seq<Row>, file: seq<Line>, idx: int, i: nat)
    requires i <= |file|
    requires FilePicks(file, idx, i).None? || !GoodPicks(rows, FilePicks(file, idx, i).value)
    ensures !FileReads(rows, file, idx)
  {
    hide GoodPicks;
    if FileReads(rows, file, idx) {
      FilePicksGrow(file, idx, i, |file|);
      var some, all := FilePicks(file, idx, i).value, FilePicks(file, idx, |file|).value;
      assert some + all[|some|..] == all;
      GoodPrefix(rows, some, all[|some|..]);
      assert false;
    }
  }

  /** The read loop: line by line, giving up at the first line or vote that is wrong. */
  method SumFile(ghost rows: seq<Row>, ghost layout: seq<Position>, file: seq<Line>, idx: int,
                 now: seq<Row>, out: seq<PosShares>)
    returns (ok: bool, now': seq<Row>, out': seq<PosShares>)
    requires Keyed(rows) && Working(rows, layout, [], now, out)
    ensures ok <==> FileReads(rows, file, idx)
    ensures ok ==> Working(rows, layout, FilePicks(file, idx, |file|).value, now', out')
  {
    hide Working, GoodPicks, EntryPicks;
    now', out', ok := now, out, true;
    ghost var so: seq<Key> := [];
    var i := 0;
    while i < |file| && ok
      invariant 0 <= i <= |file|
      invariant ok ==> FilePicks(file, idx, i) == Some(so)
      invariant ok ==> Working(rows, layout, so, now', out')
      invariant !ok ==> !FileReads(rows, file, idx)
    {
      ghost var was := so;
      match file[i] {
        case Blank =>
          assert was + [] == was;
        case Malformed =>
          ok := false;
          NoFilePrefix(rows, file, idx, i + 1);
        case BallotLine(rid, zs) =>
          ok, now', out' := SumBallot(rows, layout, was, rid, zs, idx, now', out');
          if ok {
            so := was + EntryPicks(rid, zs, idx, |zs|).value;
          } else {
            NoFilePrefix(rows, file, idx, i + 1);
          }
      }
      i := i + 1;
    }
    if ok {
      WorkingIsGood(rows, layout, so, now', out');
    }
  }

  // ----- The database -----

  method InitOutput(layout: seq<Position>, ghost rows: seq<Row>) returns (out: seq<PosShares>)
    requires RowsFit(rows, layout) && forall a :: 0 <= a < |rows| ==> !rows[a].isSum
    ensures OutputIs(out, layout, rows)
  {
    out := [];
    for j := 0 to |layout|
      invariant |out| == j && forall m :: 0 <= m < j ==> CountRowFits(out[m], layout[m])
      invariant forall m, k :: 0 <= m < j && 0 <= k < |layout[m].cand| ==> out[m].values[k].x == out[m].values[k].y == 0
    {
      var cand := layout[j].cand;
      out := out + [PosShares(layout[j].pid, seq(|cand|, k requires 0 <= k < |cand| => Share(cand[k], 0, 0)))];
    }
    forall j, k | 0 <= j < |layout| && 0 <= k < |layout[j].cand|
      ensures Total(SummedXs(rows, layout, j, k)) == 0 && Total(SummedYs(rows, layout, j, k)) == 0
    {
      TotalOfZeros(SummedXs(rows, layout, j, k));
      TotalOfZeros(SummedYs(rows, layout, j, k));
    }
  }

  method ReduceRow(row: PosShares, order: nat, ghost pos: Position) returns (r: PosShares)
    requires order > 0 && CountRowFits(row, pos)
    ensures CountRowFits(r, pos)
    ensures forall k :: 0 <= k < |pos.cand| ==>
      r.values[k] == Share(pos.cand[k], row.values[k].x % order, row.values[k].y % order)
  {
    var values := row.values;
    for k := 0 to |row.values|
      invariant |values| == |row.values|
      invariant forall m :: k <= m < |values| ==> values[m] == row.values[m]
      invariant forall m :: 0 <= m < k ==>
        values[m] == Share(pos.cand[m], row.values[m].x % order, row.values[m].y % order)
    {
      var c := values[k];
      values := values[k := c.(x := c.x % order, y := c.y % order)];
    }
    r := PosShares(row.pid, values);
  }

  /** The last loop: reduce every cell and grow the text to be signed. */
  method Reduce<P(!new)>(W: World<P>, out: seq<PosShares>, ghost layout: seq<Position>, ghost rows: seq<Row>,
                         head: string)
    returns (count: seq<PosShares>, str: string)
    requires W.G.order > 0 && RowsFit(rows, layout) && OutputIs(out, layout, rows)
    ensures CountIs(W.G.order, count, layout, rows) && str == CountStr(W, head, count, |count|)
  {
    hide CountRowStr, Total, SummedXs, SummedYs;
    count, str := [], head;
    for j := 0 to |out|
      invariant |count| == j && forall m :: 0 <= m < j ==> CountRowFits(count[m], layout[m])
      invariant forall m, k :: 0 <= m < j && 0 <= k < |layout[m].cand| ==>
        && count[m].values[k].x == CountCell(out, layout, m, k).x % W.G.order
        && count[m].values[k].y == CountCell(out, layout, m, k).y % W.G.order
      invariant str == CountStr(W, head, count, j)
    {
      assert CountRowFits(out[j], layout[j]);
      var row := ReduceRow(out[j], W.G.order, layout[j]);
      CountStrAppend(W, head, count, row);
      str := CountRowStr(W, W.cat(str, W.show(row.pid)), row.values, |row.values|);
      count := count + [row];
    }
  }

  /** Receipted votes that the ballot file left out. */
  method CountMissing(rows: seq<Row>) returns (n: nat)
    ensures n == 0 <==> Covered(rows)
  {
    n := 0;
    for i := 0 to |rows|
      invariant n == 0 <==> Covered(rows[..i])
    {
      if rows[i].receipt.Some? && !rows[i].isSum {
        n := n + 1;
      }
      assert rows[..i + 1] == rows[..i] + [rows[i]];
    }
    assert rows[..|rows|] == rows;
  }

  ghost predicate Covered(rows: seq<Row>) {
    forall a :: 0 <= a < |rows| && rows[a].receipt.Some? ==> rows[a].isSum
  }

  /** The file names rows of this teller only, none twice, and every row that has a receipt. */
  ghost predicate FileCovers(rows: seq<Row>, file: seq<Line>, idx: int) {
    FileReads(rows, file, idx) && Covered(Marked(rows, FilePicks(file, idx, |file|).value))
  }

  datatype Stored = Stored(count: seq<PosShares>, time: int, sign: string)

  /** The text the board signs when it has stored a vote. */
  function ReceiptStr<P(!new)>(W: World<P>, l: Link, time: int): string {
    W.cat(W.cat(ParamStr(W, l), l.linkSign), W.show(time))
  }

  class TellerDb<P(!new,==)> {
    const W: World<P>
    const eid: int
    const layout: seq<Position>
    const authPub: string
    const espPub: string
    const key: string
    var state: int
    var rows: seq<Row>
    var count: Option<Stored>

    /** The teller accepted these commitments, and this is what it kept of them. */
    ghost predicate Accepted(row: Row, commits: seq<PosCells>) {
      && TellerAccepts(W, layout, authPub, TellerVote(row.link, commits))
      && AllSharesOf(row.data, commits)
      && row.sign == W.sign(key, CommitStr(W, row.link, Strip(commits), row.voteTime))
    }

    ghost predicate RowStands(row: Row) {
      && row.link.eid == eid
      && (exists commits :: Accepted(row, commits))
      && (row.receipt.Some? ==>
            row.receipt.value.0 > row.voteTime
            && W.verify(ReceiptStr(W, row.link, row.receipt.value.0), row.receipt.value.1, espPub))
    }

    ghost predicate RowsStand(rs: seq<Row>) {
      forall a :: 0 <= a < |rs| ==> RowStands(rs[a])
    }

    /** What a committed tally leaves behind: the sum over exactly the rows marked, none of the receipted ones missing,
        signed. */
    ghost predicate TallyStands(rs: seq<Row>, stored: Stored)
      requires W.G.order > 0 && RowsFit(rs, layout)
    {
      && CountIs(W.G.order, stored.count, layout, rs)
      && Covered(rs)
      && stored.sign == W.sign(key, CountSigned(W, eid, stored.count, stored.time))
    }

    ghost predicate Valid()
      reads this
    {
      && W.Valid() && Keyed(rows) && RowsStand(rows) && RowsFit(rows, layout)
      && (count.None? ==> forall a :: 0 <= a < |rows| ==> !rows[a].isSum)
      && (count.Some? ==> state == 3 && TallyStands(rows, count.value))
    }

    lemma AcceptedFits(row: Row, commits: seq<PosCells>)
      requires Accepted(row, commits)
      ensures CountFits(row.data, layout)
    {
      forall j | 0 <= j < |layout| ensures CountRowFits(row.data[j], layout[j]) {
        assert RowOk(W, layout[j], commits[j]);
        assert SharesOf(row.data[j], commits[j]);
      }
    }

    constructor (W: World<P>, eid: int, layout: seq<Position>, authPub: string, espPub: string, key: string)
      requires W.Valid()
      ensures Valid() && rows == [] && count.None? && state == 2
      ensures this.W == W && this.eid == eid && this.layout == layout
      ensures this.authPub == authPub && this.espPub == espPub && this.key == key
    {
      this.W, this.eid, this.layout, this.authPub, this.espPub, this.key := W, eid, layout, authPub, espPub, key;
      state, rows, count := 2, [], None;
    }

    method Close()
      requires Valid()
      modifies this`state
      ensures Valid() && state == if old(state) == 2 then 3 else old(state)
    {
      if state == 2 {
        state := 3;
      }
    }

    method SaveVote(v: TellerVote, time: int) returns (code: int, sign: string)
      requires Valid()
      modifies this`rows
      ensures Valid()
      ensures sign == W.sign(key, CommitStr(W, v.link, Strip(v.commits), time)) || code != 0
      ensures code == 0 <==>
        && v.link.eid == eid && state == 2 && TellerAccepts(W, layout, authPub, v)
        && !HasKey(old(rows), (v.link.rid, W.sign(key, CommitStr(W, v.link, Strip(v.commits), time))))
      ensures code != 0 ==> rows == old(rows)
      ensures code == 0 ==>
        && |rows| == |old(rows)| + 1 && rows[..|old(rows)|] == old(rows)
        && var row := rows[|old(rows)|];
           row == Row(v.link, sign, row.data, time, None, false) && AllSharesOf(row.data, v.commits)
    {
      hide TellerAccepts, CommitStr, RowStands;
      sign := "";
      if v.link.eid != eid {
        return -3, sign;
      }
      if state != 2 {
        return -4, sign;
      }
      var r := TellerVerify(W, layout, authPub, key, v, time);
      if r.None? {
        return -2, sign;
      }
      var row := Row(v.link, r.value.sign, r.value.data, time, None, false);
      var there := Find(row.Id());
      if there >= 0 {
        return -5, sign;
      }
      assert !HasKey(rows, row.Id());
      NewRowStands(row, v.commits);
      rows := rows + [row];
      return 0, r.value.sign;
    }

    lemma NewRowStands(row: Row, commits: seq<PosCells>)
      requires row.link.eid == eid && Accepted(row, commits) && row.receipt.None?
      ensures RowStands(row) && CountFits(row.data, layout)
    {
      AcceptedFits(row, commits);
    }

    method Find(id: Key) returns (a: int)
      ensures -1 <= a < |rows|
      ensures a >= 0 ==> rows[a].Id() == id
      ensures a == -1 ==> !HasKey(rows, id)
    {
      for i := 0 to |rows|
        invariant forall m :: 0 <= m < i ==> rows[m].Id() != id
      {
        if rows[i].Id() == id {
          return i;
        }
      }
      return -1;
    }

    /** The vote is there, has no receipt yet, and the board signed one for it after it was cast. */
    ghost predicate ReceiptDue(rs: seq<Row>, id: Key, time: int, sign: string) {
      exists a :: 0 <= a < |rs| && rs[a].Id() == id && (
        && rs[a].receipt.None? && time > rs[a].voteTime
        && W.verify(ReceiptStr(W, rs[a].link, time), sign, espPub))
    }

    /** A receipt is stored once, while the election is open, if the board signed it after the vote. */
    method SaveReceipt(rid: string, commitSign: string, time: int, sign: string) returns (code: int)
      requires Valid()
      modifies this`rows
      ensures Valid()
      ensures code == 0 <==> state == 2 && ReceiptDue(old(rows), (rid, commitSign), time, sign)
      ensures code != 0 ==> rows == old(rows)
      ensures |rows| == |old(rows)| && forall a :: 0 <= a < |rows| && old(rows)[a].receipt.Some? ==>
        rows[a] == old(rows)[a]
      ensures code == 0 ==> |rows| == |old(rows)| && forall a :: 0 <= a < |rows| ==>
        rows[a] == if old(rows)[a].Id() == (rid,
                                         commitSign) then old(rows)[a].(receipt := Some((time, sign))) else old(rows)[a]
    {
      hide ReceiptStr, RowStands;
      if state != 2 {
        return -4;
      }
      var a := Find((rid, commitSign));
      if a < 0 {
        return -5;
      }
      var share := rows[a];
      if share.receipt.Some? {
        return -6;
      }
      if time <= share.voteTime || !W.verify(ReceiptStr(W, share.link, time), sign, espPub) {
        return -6;
      }
      ReceiptStands(share, time, sign);
      assert RowsFit(rows[a := share.(receipt := Some((time, sign)))], layout) by {
        assert CountFits(share.data, layout);
      }
      rows := rows[a := share.(receipt := Some((time, sign)))];
      return 0;
    }

    lemma ReceiptStands(row: Row, time: int, sign: string)
      requires RowStands(row) && time > row.voteTime && W.verify(ReceiptStr(W, row.link, time), sign, espPub)
      ensures RowStands(row.(receipt := Some((time, sign))))
    {
      var commits :| Accepted(row, commits);
      assert Accepted(row.(receipt := Some((time, sign))), commits);
    }

    lemma MarkedStand(picks: seq<Key>)
      requires Valid()
      ensures RowsStand(Marked(rows, picks)) && Keyed(Marked(rows, picks))
    {
      var rs := Marked(rows, picks);
      forall a | 0 <= a < |rs| ensures RowStands(rs[a]) {
        assert RowStands(rows[a]);
        var commits :| Accepted(rows[a], commits);
        assert Accepted(rs[a], commits);
      }
    }

    /** The tally commits exactly when the election is closed, the file reads, no receipted vote is missing from it and
        the database commits; it then counts the rows it marks, each once. Otherwise nothing changes. A committed tally
        is never redone. */
    method Tally(file: seq<Line>, idx: int, time: int, commits: bool) returns (result: Option<Stored>)
      requires Valid()
      modifies this`rows, this`count
      ensures Valid()
      ensures result.Some? <==> state == 3 && (old(count).Some? || (commits && FileCovers(old(rows), file, idx)))
      ensures result.Some? ==> result == count
      ensures result.None? || old(count).Some? ==> rows == old(rows) && count == old(count)
      ensures result.Some? && old(count).None? ==>
        rows == Marked(old(rows), FilePicks(file, idx, |file|).value) && count.value.time == time
    {
      hide RowStands, OutputIs, CountIs, FilePicks, GoodPicks, CountStr;
      if state != 3 {
        return None;
      }
      if count.Some? {
        return count;
      }
      var out := InitOutput(layout, rows);
      StartWorking(rows, layout, out);
      var ok, now, sums := SumFile(rows, layout, file, idx, rows, out);
      if !ok {
        return None;
      }
      var missing := CountMissing(now);
      if missing > 0 {
        return None;
      }
      var tally, str := Reduce(W, sums, layout, now, W.show(eid));
      var stored := Stored(tally, time, W.sign(key, W.cat(str, W.show(time))));
      if !commits {
        return None;
      }
      MarkedStand(FilePicks(file, idx, |file|).value);
      rows, count := now, Some(stored);
      return count;
    }
  }

  lemma StartWorking(rows: seq<Row>, layout: seq<Position>, out: seq<PosShares>)
    requires RowsFit(rows, layout) && OutputIs(out, layout, rows)
    requires forall a :: 0 <= a < |rows| ==> !rows[a].isSum
    ensures Working(rows, layout, [], rows, out)
  {
    assert Marked(rows, []) == rows;
  }

  datatype Attempt = Attempt(file: seq<Line>, time: int, commits: bool)

  /** However often the tally is started, with whatever files and whatever aborts, there is one total: every attempt
      that returns one returns the one stored, and until then the rows stay as they were. */
  method TallyAttempts<P(!new,==)>(db: TellerDb<P>, idx: int,
                                   attempts: seq<Attempt>) returns (results: seq<Option<Stored>>)
    requires db.Valid()
    modifies db
    ensures db.Valid() && db.state == old(db.state) && |results| == |attempts|
    ensures forall i :: 0 <= i < |results| && results[i].Some? ==> results[i] == db.count
    ensures forall i, m :: 0 <= i < m < |results| && results[i].Some? ==> results[m].Some?
    ensures (forall i :: 0 <= i < |results| ==> results[i].None?) ==>
      db.rows == old(db.rows) && db.count == old(db.count)
  {
    results := [];
    for i := 0 to |attempts|
      invariant db.Valid() && db.state == old(db.state) && |results| == i
      invariant forall m :: 0 <= m < i && results[m].Some? ==> results[m] == db.count
      invariant forall m, n :: 0 <= m < n < i && results[m].Some? ==> results[n].Some?
      invariant (forall m :: 0 <= m < i ==> results[m].None?) ==> db.rows == old(db.rows) && db.count == old(db.count)
    {
      ghost var before := results;
      var r := db.Tally(attempts[i].file, idx, attempts[i].time, attempts[i].commits);
      results := results + [r];
      assert forall m :: 0 <= m < i ==> results[m] == before[m];
      assert results[i] == r;
    }
  }
}

/** The chunked line reader of src/common/readlineSync.js, on text of single-byte characters. */
module LineReader {
  import opened Wrappers

  // ----- Splitting -----

  /** The pieces between line ends, which are CR LF, CR or LF. */
  function Split(s: string): (r: seq<string>)
    ensures r != []
  {
    if s == "" then [""]
    else if s[0] == '\r' && |s| > 1 && s[1] == '\n' then [""] + Split(s[2..])
    else if s[0] == '\r' || s[0] == '\n' then [""] + Split(s[1..])
    else
      var r := Split(s[1..]);
      [[s[0]] + r[0]] + r[1..]
  }

  function Last(pieces: seq<string>): string
    requires pieces != []
  {
    pieces[|pieces| - 1]
  }

  /** The last piece of a and the first of b are one. */
  function Glue(a: seq<string>, b: seq<string>): (r: seq<string>)
    requires a != [] && b != []
    ensures |r| == |a| + |b| - 1
  {
    a[..|a| - 1] + [a[|a| - 1] + b[0]] + b[1..]
  }

  /** The text of a file, split as a whole: a last empty piece does not count as a line. */
  function Lines(pieces: seq<string>): seq<string>
    requires pieces != []
  {
    if Last(pieces) == "" then pieces[..|pieces| - 1] else pieces
  }

  function Concat(chunks: seq<string>): string {
    if chunks == [] then "" else Concat(chunks[..|chunks| - 1]) + chunks[|chunks| - 1]
  }

  /** What the reader makes of the chunks: each is split by itself, and glued to what came before. */
  function Pieces(chunks: seq<string>): (r: seq<string>)
    ensures r != []
  {
    if chunks == [] then [""] else Glue(Pieces(chunks[..|chunks| - 1]), Split(chunks[|chunks| - 1]))
  }

  /** A CR LF with a chunk boundary inside. */
  predicate Cut(a: string, b: string) {
    a != "" && b != "" && a[|a| - 1] == '\r' && b[0] == '\n'
  }

  function Cuts(chunks: seq<string>): nat {
    if |chunks| < 2 then 0 else
      var n := |chunks| - 1;
      Cuts(chunks[..n]) + if Cut(chunks[n - 1], chunks[n]) then 1 else 0
  }

  lemma GlueFront(x: string, a: seq<string>, b: seq<string>)
    requires a != [] && b != []
    ensures Glue([x] + a, b) == [x] + Glue(a, b)
  {
    assert ([x] + a)[..|a|] == [x] + a[..|a| - 1];
  }

  lemma GlueChar(c: char, a: seq<string>, b: seq<string>)
    requires a != [] && b != []
    ensures var g := Glue(a, b); Glue([[c] + a[0]] + a[1..], b) == [[c] + g[0]] + g[1..]
  {
    var a', g := [[c] + a[0]] + a[1..], Glue(a, b);
    if |a| == 1 {
      assert [c] + a[0] + b[0] == [c] + (a[0] + b[0]);
      assert Glue(a', b) == [[c] + a[0] + b[0]] + b[1..];
    } else {
      assert a'[..|a'| - 1] == [[c] + a[0]] + a[1..|a| - 1];
      assert g == [a[0]] + a[1..|a| - 1] + [a[|a| - 1] + b[0]] + b[1..];
    }
  }

  /** Splitting in two parts gives the same as splitting the whole, unless a CR LF is cut. */
  lemma {:induction false} SplitParts(a: string, b: string)
    requires !Cut(a, b)
    ensures Split(a + b) == Glue(Split(a), Split(b))
  {
    if a == "" {
      assert a + b == b;
      assert "" + Split(b)[0] == Split(b)[0];
      assert Glue([""], Split(b)) == Split(b);
    } else if a[0] == '\r' && |a| > 1 && a[1] == '\n' {
      assert (a + b)[2..] == a[2..] + b;
      SplitParts(a[2..], b);
      GlueFront("", Split(a[2..]), Split(b));
    } else if a[0] == '\r' || a[0] == '\n' {
      assert (a + b)[1..] == a[1..] + b;
      SplitParts(a[1..], b);
      GlueFront("", Split(a[1..]), Split(b));
    } else {
      assert (a + b)[1..] == a[1..] + b;
      SplitParts(a[1..], b);
      GlueChar(a[0], Split(a[1..]), Split(b));
    }
  }

  lemma SplitLineEnd(s: string)
    requires s != "" && (s[0] == '\n' || (s[0] == '\r' && !(|s| > 1 && s[1] == '\n')))
    ensures Split(s) == [""] + Split(s[1..])
  {
  }

  lemma SplitChar(s: string)
    requires s != "" && s[0] != '\n' && s[0] != '\r'
    ensures |Split(s)| == |Split(s[1..])| && (|Split(s)| > 1 ==> Last(Split(s)) == Last(Split(s[1..])))
  {
  }

  /** A cut CR LF counts as two line ends instead of one. */
  lemma {:induction false} SplitCut(a: string, b: string)
    requires Cut(a, b)
    ensures |Split(a)| > 1 && |Split(b)| > 1 && |Split(a + b)| == |Split(a)| + |Split(b)| - 2
    ensures Last(Split(a + b)) == Last(Split(b))
  {
    if |a| == 1 {
      assert (a + b)[2..] == b[1..];
      SplitLineEnd(b);
      SplitLineEnd(a);
      assert Split(a + b) == [""] + Split(b[1..]);
    } else if a[0] == '\r' && a[1] == '\n' {
      assert (a + b)[2..] == a[2..] + b;
      SplitCut(a[2..], b);
      assert Split(a + b) == [""] + Split(a[2..] + b) && Split(a) == [""] + Split(a[2..]);
    } else {
      assert (a + b)[1..] == a[1..] + b;
      SplitCut(a[1..], b);
      hide Split;
      if a[0] == '\r' || a[0] == '\n' {
        SplitLineEnd(a);
        SplitLineEnd(a + b);
      } else {
        SplitChar(a);
        SplitChar(a + b);
      }
    }
  }

  lemma {:induction false} ConcatEnd(chunks: seq<string>)
    requires chunks != [] && forall i :: 0 <= i < |chunks| ==> chunks[i] != ""
    ensures var t := Concat(chunks); t != "" && t[|t| - 1] == chunks[|chunks| - 1][|chunks[|chunks| - 1]| - 1]
  {
  }

  /** What gluing one more chunk does to the pieces so far, which are as many as they should be and some for cuts. */
  lemma GlueMore(p: seq<string>, s: seq<string>, cuts: nat, l: seq<string>, whole: seq<string>, cut: bool)
    requires p != [] && s != [] && l != [] && whole != []
    requires |p| == |s| + cuts && (p == s <==> cuts == 0) && Last(p) == Last(s)
    requires !cut ==> whole == Glue(s, l)
    requires cut ==> |l| > 1 && |whole| == |s| + |l| - 2 && Last(whole) == Last(l)
    ensures var more := cuts + if cut then 1 else 0;
      && |Glue(p, l)| == |whole| + more && (Glue(p, l) == whole <==> more == 0) && Last(Glue(p, l)) == Last(whole)
  {
  }

  /** The reader's pieces are those of the whole text exactly when no chunk boundary falls inside a CR LF; each one that
      does makes one more piece. */
  lemma {:induction false} PiecesOfText(chunks: seq<string>)
    requires forall i :: 0 <= i < |chunks| ==> chunks[i] != ""
    ensures |Pieces(chunks)| == |Split(Concat(chunks))| + Cuts(chunks)
    ensures Pieces(chunks) == Split(Concat(chunks)) <==> Cuts(chunks) == 0
    ensures Last(Pieces(chunks)) == Last(Split(Concat(chunks)))
  {
    hide Split, Glue, Last;
    var n := |chunks| - 1;
    if n < 0 {
      SplitNothing();
    } else {
      var before, last := chunks[..n], chunks[n];
      PiecesOfText(before);
      if n > 0 {
        ConcatEnd(before);
        assert before[..n - 1] == chunks[..n - 1];
      }
      if Cut(Concat(before), last) {
        SplitCut(Concat(before), last);
      } else {
        SplitParts(Concat(before), last);
      }
      GlueMore(Pieces(before), Split(Concat(before)), Cuts(before), Split(last), Split(Concat(before) + last),
               Cut(Concat(before), last));
    }
  }

  lemma SplitNothing()
    ensures Split("") == [""]
  {
  }

  // ----- Reads -----

  /** The place is inside a CR LF. */
  predicate CrLfAt(text: string, i: nat) {
    0 < i < |text| && text[i - 1] == '\r' && text[i] == '\n'
  }

  /** How many reads, from this place on, start inside a CR LF. */
  function CutReads(text: string, size: nat -> nat, at: nat): (n: nat)
    requires forall at {:trigger size(at)} :: 0 <= at < |text| ==> 1 <= size(at) <= |text| - at
    requires at <= |text|
    decreases |text| - at
  {
    if at == |text| then 0
    else (if CrLfAt(text, at) then 1 else 0) + CutReads(text, size, at + size(at))
  }

  /** Text without CR LF cannot be cut. */
  lemma {:induction false} NothingToCut(text: string, size: nat -> nat, at: nat)
    requires forall at {:trigger size(at)} :: 0 <= at < |text| ==> 1 <= size(at) <= |text| - at
    requires at <= |text| && forall i: nat :: !CrLfAt(text, i)
    ensures CutReads(text, size, at) == 0
    decreases |text| - at
  {
    if at < |text| {
      NothingToCut(text, size, at + size(at));
    }
  }

  /** One more chunk is cut off exactly if its read starts inside a CR LF. */
  lemma CutMore(chunks: seq<string>, text: string, at: nat, str: string)
    requires (forall i :: 0 <= i < |chunks| ==> chunks[i] != "") && at + |str| <= |text| && str != ""
    requires Concat(chunks) == text[..at] && str == text[at..at + |str|]
    ensures Cuts(chunks + [str]) == Cuts(chunks) + if CrLfAt(text, at) then 1 else 0
  {
    var all, n := chunks + [str], |chunks|;
    assert all[..n] == chunks && str[0] == text[at];
    if n > 0 {
      ConcatEnd(chunks);
      assert text[..at][at - 1] == text[at - 1];
    }
  }

  /** The size of the reader's buffer. */
  const BUFFER := 65536

  /** Reads that fill the buffer, but for the last one. */
  function FullReads(text: string): (size: nat -> nat)
    ensures forall at {:trigger size(at)} :: 0 <= at < |text| ==> 1 <= size(at) <= |text| - at
  {
    at => if at + BUFFER <= |text| then BUFFER else if at <= |text| then |text| - at else 0
  }

  /** From this place on, no multiple of the buffer's size falls into a CR LF. */
  ghost predicate NoneAtBuffer(text: string, from: nat) {
    forall i: nat :: from <= i && CrLfAt(text, i) ==> i % BUFFER != 0
  }

  lemma Between(i: nat, at: nat)
    requires at % BUFFER == 0 && at < i < at + BUFFER
    ensures i % BUFFER != 0
  {
  }

  lemma NextMultiple(text: string, at: nat, next: nat)
    requires at < |text| && at % BUFFER == 0 && (next == at + BUFFER || next == |text| < at + BUFFER)
    ensures NoneAtBuffer(text, at) <==> !CrLfAt(text, at) && NoneAtBuffer(text, next)
  {
    if !CrLfAt(text, at) && NoneAtBuffer(text, next) {
      forall i: nat | at <= i && CrLfAt(text, i) ensures i % BUFFER != 0 {
        if at < i < next {
          Between(i, at);
        }
      }
    }
  }

  /** With full reads, exactly then nothing is cut. */
  lemma {:induction false} FullReadsCut(text: string, at: nat)
    requires at <= |text| && (at % BUFFER == 0 || at == |text|)
    ensures CutReads(text, FullReads(text), at) == 0 <==> NoneAtBuffer(text, at)
    decreases |text| - at
  {
    if at < |text| {
      var next := at + FullReads(text)(at);
      FullReadsCut(text, next);
      NextMultiple(text, at, next);
      assert CutReads(text, FullReads(text), at)
          == (if CrLfAt(text, at) then 1 else 0) + CutReads(text, FullReads(text), next);
    }
  }

  lemma NextRead(text: string, size: nat -> nat, at: nat)
    requires forall at {:trigger size(at)} :: 0 <= at < |text| ==> 1 <= size(at) <= |text| - at
    requires at < |text|
    ensures CutReads(text, size, at)
         == (if CrLfAt(text, at) then 1 else 0) + CutReads(text, size, at + size(at))
  {
  }

  lemma MoreText(chunks: seq<string>, str: string)
    ensures Concat(chunks + [str]) == Concat(chunks) + str
    ensures Pieces(chunks + [str]) == Glue(Pieces(chunks), Split(str))
  {
    assert (chunks + [str])[..|chunks|] == chunks;
  }

  lemma GluePartial(before: seq<string>, partial: string, parts: seq<string>)
    requires parts != []
    ensures Glue(before + [partial], parts) == before + parts[0 := partial + parts[0]]
  {
    assert (before + [partial])[..|before|] == before;
    assert parts[0 := partial + parts[0]] == [partial + parts[0]] + parts[1..];
  }

  // ----- The reader -----

  class Reader {
    const text: string
    /** How many bytes a read at this place returns. */
    const size: nat -> nat
    var position: nat
    var cacheStr: seq<string>
    var partialStr: string
    ghost var chunks: seq<string>
    ghost var yielded: seq<string>

    /** Before the end of the file, a read returns something, and not more than there is. */
    ghost predicate ReadsOn() {
      forall at {:trigger size(at)} :: 0 <= at < |text| ==> 1 <= size(at) <= |text| - at
    }

    /** Every chunk has the size of the read at its place. */
    ghost predicate Sized(cs: seq<string>) {
      forall i :: 0 <= i < |cs| ==> |cs[i]| == size(|Concat(cs[..i])|)
    }

    ghost predicate Valid()
      reads this
    {
      && ReadsOn() && position <= |text| && Concat(chunks) == text[..position]
      && (forall i :: 0 <= i < |chunks| ==> chunks[i] != "")
      && Sized(chunks) && Cuts(chunks) + CutReads(text, size, position) == CutReads(text, size, 0)
      && (if position < |text| then yielded + cacheStr + [partialStr] == Pieces(chunks)
          else partialStr == "" && yielded + cacheStr == Lines(Pieces(chunks)))
    }

    constructor (text: string, size: nat -> nat)
      requires forall at {:trigger size(at)} :: 0 <= at < |text| ==> 1 <= size(at) <= |text| - at
      ensures Valid() && this.text == text && this.size == size && yielded == [] && chunks == []
    {
      this.text, this.size := text, size;
      position, cacheStr, partialStr, chunks, yielded := 0, [], "", [], [];
    }

    /** One read, split and stored. */
    method ReadChunk()
      requires Valid() && position < |text| && cacheStr == []
      modifies this`position, this`cacheStr, this`partialStr, this`chunks
      ensures ReadsOn() && old(position) < position <= |text| && Concat(chunks) == text[..position]
      ensures old(chunks) <= chunks
      ensures forall i :: 0 <= i < |chunks| ==> chunks[i] != ""
      ensures Sized(chunks) && Cuts(chunks) + CutReads(text, size, position) == CutReads(text, size, 0)
      ensures yielded + cacheStr + [partialStr] == Pieces(chunks)
      ensures position == |text| ==> cacheStr != [] || partialStr != ""
    {
      hide Split, Concat, Pieces, Glue, Cuts, CutReads, Sized;
      var bytesRead := size(position);
      var str := text[position..position + bytesRead];
      CutMore(chunks, text, position, str);
      NextRead(text, size, position);
      MoreText(chunks, str);
      MoreSized(chunks, str);
      assert text[..position + bytesRead] == text[..position] + str;
      assert yielded + cacheStr + [partialStr] == yielded + [partialStr];
      position := position + bytesRead;
      chunks := chunks + [str];
      var strArray := Split(str);
      GluePartial(yielded, partialStr, strArray);
      if |strArray| > 1 {
        strArray := strArray[0 := partialStr + strArray[0]];
        for i := 0 to |strArray| - 1
          invariant cacheStr == strArray[..i]
          invariant position == old(position) + bytesRead && chunks == old(chunks) + [str]
          invariant partialStr == old(partialStr)
        {
          cacheStr := cacheStr + [strArray[i]];
        }
        partialStr := strArray[|strArray| - 1];
        assert cacheStr + [partialStr] == strArray;
        assert yielded + cacheStr + [partialStr] == yielded + strArray;
      } else {
        OnePiece(str);
        partialStr := partialStr + strArray[0];
        assert yielded + cacheStr + [partialStr] == yielded + [partialStr];
        assert Split(str)[0 := partialStr] == [partialStr];
      }
    }

    lemma MoreSized(cs: seq<string>, str: string)
      requires Sized(cs) && |str| == size(|Concat(cs)|)
      ensures Sized(cs + [str])
    {
      var all := cs + [str];
      assert all[..|cs|] == cs;
      assert forall i :: 0 <= i < |cs| ==> all[..i] == cs[..i];
    }

    /** The first stored line. */
    method Shift() returns (ret: string)
      requires Valid() && cacheStr != []
      modifies this`cacheStr, this`yielded
      ensures Valid() && cacheStr == old(cacheStr)[1..] && yielded == old(yielded) + [ret]
    {
      ret := cacheStr[0];
      ghost var all := yielded + cacheStr;
      cacheStr := cacheStr[1..];
      yielded := yielded + [ret];
      assert yielded + cacheStr == all;
    }

    /** Reads until a line is there. */
    method Fill()
      requires Valid() && position < |text| && cacheStr == []
      modifies this`position, this`cacheStr, this`partialStr, this`chunks
      ensures Valid() && cacheStr != [] && old(position) < position && old(chunks) <= chunks
    {
      hide Split, Concat, Pieces;
      var reading := true;
      while reading
        invariant Valid() && old(chunks) <= chunks
        invariant reading ==> old(position) <= position < |text| && cacheStr == []
        invariant !reading ==> cacheStr != [] && old(position) < position
        decreases reading, |text| - position
      {
        ReadChunk();
        if position == |text| {
          ghost var all := yielded + cacheStr + [partialStr];
          if |partialStr| > 0 {
            cacheStr := cacheStr + [partialStr];
            partialStr := "";
            assert yielded + cacheStr == all;
          } else {
            assert all[..|all| - 1] == yielded + cacheStr;
          }
          reading := false;
        } else if |cacheStr| > 0 {
          reading := false;
        }
      }
    }

    /** The next line, or None for null. */
    method Getline() returns (line: Option<string>)
      requires Valid()
      modifies this
      ensures Valid() && old(chunks) <= chunks
      ensures line.Some? ==> yielded == old(yielded) + [line.value]
      ensures line.None? ==> position == |text| && yielded == old(yielded) == Lines(Pieces(chunks))
      ensures old(position) == |text| && old(cacheStr) == [] <==> line.None?
      ensures old(position) == |text| ==> position == |text| && chunks == old(chunks)
      ensures old(cacheStr) != [] ==> position == old(position) && |cacheStr| < |old(cacheStr)|
      ensures old(cacheStr) == [] && old(position) < |text| ==> position > old(position)
    {
      hide Split, Concat, Pieces;
      if |cacheStr| > 0 {
        var first := Shift();
        return Some(first);
      }
      if position == |text| {
        assert yielded + cacheStr == yielded;
        return None;
      }
      Fill();
      var ret := Shift();
      return Some(ret);
    }
  }

  /** A chunk without a line end is one piece, itself. */
  lemma {:induction false} OnePiece(s: string)
    requires |Split(s)| == 1
    ensures Split(s) == [s]
  {
    if s != "" {
      assert s[0] != '\r' && s[0] != '\n';
      OnePiece(s[1..]);
      assert [s[0]] + s[1..] == s;
    }
  }

  lemma NoMoreReads(text: string, size: nat -> nat)
    requires forall at {:trigger size(at)} :: 0 <= at < |text| ==> 1 <= size(at) <= |text| - at
    ensures CutReads(text, size, |text|) == 0
  {
  }

  lemma SameLines(p: seq<string>, s: seq<string>, cuts: nat)
    requires p != [] && s != [] && |p| == |s| + cuts && (p == s <==> cuts == 0) && Last(p) == Last(s)
    ensures (Lines(p) == Lines(s) <==> cuts == 0) && |Lines(p)| == |Lines(s)| + cuts
  {
  }

  /** Reading to the end: the lines of the whole text, exactly when no read starts inside a CR LF, and one more for
      each that does; null from then on. */
  method ReadAll(text: string, size: nat -> nat) returns (lines: seq<string>, ghost chunks: seq<string>,
                 after: Option<string>)
    requires forall at {:trigger size(at)} :: 0 <= at < |text| ==> 1 <= size(at) <= |text| - at
    ensures Concat(chunks) == text && lines == Lines(Pieces(chunks)) && after.None?
    ensures forall i :: 0 <= i < |chunks| ==> |chunks[i]| == size(|Concat(chunks[..i])|)
    ensures Cuts(chunks) == CutReads(text, size, 0)
    ensures lines == Lines(Split(text)) <==> CutReads(text, size, 0) == 0
    ensures |lines| == |Lines(Split(text))| + CutReads(text, size, 0)
  {
    hide Split, Concat, Pieces, Lines, Cuts, CutReads;
    var r := new Reader(text, size);
    lines := [];
    var line := r.Getline();
    while line.Some?
      invariant r.Valid() && fresh(r) && r.text == text && r.size == size
      invariant line.Some? ==> r.yielded == lines + [line.value]
      invariant line.None? ==> r.yielded == lines == Lines(Pieces(r.chunks)) && r.position == |text| && r.cacheStr == []
      decreases |text| - r.position, |r.cacheStr|, line.Some?
    {
      lines := lines + [line.value];
      line := r.Getline();
    }
    chunks := r.chunks;
    assert text[..|text|] == text;
    NoMoreReads(text, size);
    PiecesOfText(chunks);
    SameLines(Pieces(chunks), Split(text), Cuts(chunks));
    after := r.Getline();
  }

  lemma {:induction false} SplitOneLine(s: string)
    requires forall i :: 0 <= i < |s| ==> s[i] != '\r' && s[i] != '\n'
    ensures Split(s + "\r\n") == [s, ""]
  {
    if s == "" {
      assert s + "\r\n" == "\r\n" && "\r\n"[2..] == "";
    } else {
      SplitOneLine(s[1..]);
      assert (s + "\r\n")[1..] == s[1..] + "\r\n";
      assert [s[0]] + s[1..] == s;
    }
  }

  lemma LongCuts(text: string)
    requires |text| == BUFFER + 1 && CrLfAt(text, BUFFER)
    ensures CutReads(text, FullReads(text), 0) == 1
  {
    var size := FullReads(text);
    assert CutReads(text, size, BUFFER + 1) == 0;
    assert CutReads(text, size, BUFFER) == 1;
  }

  /** A line of 65535 characters and its CR LF: the buffer ends between the two, and one line becomes two. */
  method CutExample() returns (text: string, lines: seq<string>)
    ensures text == seq(65535, _ => 'a') + "\r\n"
    ensures Lines(Split(text)) == [seq(65535, _ => 'a')] && |lines| == 2
  {
    var line := seq(65535, _ => 'a');
    text := line + "\r\n";
    SplitOneLine(line);
    var after;
    ghost var chunks;
    LongCuts(text);
    lines, chunks, after := ReadAll(text, FullReads(text));
  }
}

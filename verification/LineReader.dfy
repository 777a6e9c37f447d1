/** The event-stream line reader `ln` (resources/public/js/datastar.js): bytes arrive in chunks, lines end
    in CRLF, CR or LF (section 9.2.5 of the WHATWG HTML Living Standard). */
module LineReader {
  import opened Options

  type byte = b: int | 0 <= b < 256

  const LF: byte := 10
  const CR: byte := 13
  const COLON: byte := 58

  predicate Ends(b: byte) {
    b == CR || b == LF
  }

  predicate NoEnd(s: seq<byte>) {
    forall i :: 0 <= i < |s| ==> !Ends(s[i])
  }

  ghost predicate NoEndIn(t: seq<byte>, from: nat, stop: nat)
    requires from <= stop <= |t|
  {
    forall j :: from <= j < stop ==> !Ends(t[j])
  }

  /** A line and the position of its first colon, or -1. */
  type Line = (seq<byte>, int)

  /** The first colon among the first k bytes, or -1. */
  function ColonIn(s: seq<byte>, k: nat): int
    requires k <= |s|
  {
    if k == 0 then -1
    else
      var c := ColonIn(s, k - 1);
      if c == -1 && s[k - 1] == COLON then k - 1 else c
  }

  function FirstColon(s: seq<byte>): int {
    ColonIn(s, |s|)
  }

  lemma {:induction false} ColonInIs(s: seq<byte>, k: nat)
    requires k <= |s|
    ensures var c := ColonIn(s, k);
      if c == -1 then COLON !in s[..k] else 0 <= c < k && s[c] == COLON && COLON !in s[..c]
  {
    if k > 0 {
      ColonInIs(s, k - 1);
      assert s[..k] == s[..k - 1] + [s[k - 1]];
    }
  }

  // ---- The lines of a whole stream ----

  /** Where the line that starts at i ends. */
  function FirstEnd(bs: seq<byte>, i: nat): (k: nat)
    requires i <= |bs|
    ensures i <= k <= |bs| && (k < |bs| ==> Ends(bs[k]))
    decreases |bs| - i
  {
    if i == |bs| || Ends(bs[i]) then i else FirstEnd(bs, i + 1)
  }

  lemma {:induction false} FirstEndIsFirst(bs: seq<byte>, i: nat)
    requires i <= |bs|
    ensures NoEndIn(bs, i, FirstEnd(bs, i))
    decreases |bs| - i
  {
    if i < |bs| && !Ends(bs[i]) { FirstEndIsFirst(bs, i + 1); }
  }

  /** What follows the line end at k, a CR and an LF after it being one end. */
  function AfterEnd(bs: seq<byte>, k: nat): (n: nat)
    requires k < |bs|
    ensures k < n <= |bs|
  {
    if bs[k] == CR && k + 1 < |bs| && bs[k + 1] == LF then k + 2 else k + 1
  }

  /** Every line that has ended, from i on. */
  function LinesFrom(bs: seq<byte>, i: nat): seq<Line>
    requires i <= |bs|
    decreases |bs| - i
  {
    var k := FirstEnd(bs, i);
    if k == |bs| then [] else [(bs[i..k], FirstColon(bs[i..k]))] + LinesFrom(bs, AfterEnd(bs, k))
  }

  /** Where the line that has not ended starts. */
  function LastStart(bs: seq<byte>, i: nat): (a: nat)
    requires i <= |bs|
    ensures i <= a <= |bs|
    decreases |bs| - i
  {
    var k := FirstEnd(bs, i);
    if k == |bs| then i else LastStart(bs, AfterEnd(bs, k))
  }

  lemma {:induction false} TailIsUnfinished(bs: seq<byte>, i: nat)
    requires i <= |bs|
    ensures NoEndIn(bs, LastStart(bs, i), |bs|)
    decreases |bs| - i
  {
    var k := FirstEnd(bs, i);
    FirstEndIsFirst(bs, i);
    if k < |bs| { TailIsUnfinished(bs, AfterEnd(bs, k)); }
  }

  function Lines(bs: seq<byte>): seq<Line> {
    LinesFrom(bs, 0)
  }

  function Tail(bs: seq<byte>): seq<byte> {
    bs[LastStart(bs, 0)..]
  }

  /** A line with its ending. */
  datatype Piece = Piece(line: seq<byte>, end: seq<byte>)

  function PiecesFrom(bs: seq<byte>, i: nat): seq<Piece>
    requires i <= |bs|
    decreases |bs| - i
  {
    var k := FirstEnd(bs, i);
    if k == |bs| then []
    else [Piece(bs[i..k], bs[k..AfterEnd(bs, k)])] + PiecesFrom(bs, AfterEnd(bs, k))
  }

  function Joined(ps: seq<Piece>): seq<byte> {
    if ps == [] then [] else ps[0].line + (ps[0].end + Joined(ps[1..]))
  }

  /** A line without line ends inside, ended by CRLF, CR or LF. */
  ghost predicate IsPiece(p: Piece) {
    NoEnd(p.line) && (p.end == [CR, LF] || p.end == [CR] || p.end == [LF])
  }

  /** No CRLF is cut in two. */
  ghost predicate Apart(p: Piece, q: Piece) {
    p.end == [CR] ==> q.line != [] || q.end != [LF]
  }

  /** The pieces and the tail are the stream. */
  lemma {:induction false} PiecesJoin(bs: seq<byte>, i: nat)
    requires i <= |bs|
    ensures Joined(PiecesFrom(bs, i)) + bs[LastStart(bs, i)..] == bs[i..]
    decreases |bs| - i
  {
    var k := FirstEnd(bs, i);
    if k < |bs| {
      var n := AfterEnd(bs, k);
      PiecesJoin(bs, n);
      JoinedOneMore(Piece(bs[i..k], bs[k..n]), PiecesFrom(bs, n), bs[LastStart(bs, n)..]);
      SplitTwice(bs, i, k, n);
    }
  }

  /** The stream is cut at every CRLF, CR and LF and nowhere else. */
  lemma {:induction false} PiecesAreLines(bs: seq<byte>, i: nat)
    requires i <= |bs|
    ensures forall j :: 0 <= j < |PiecesFrom(bs, i)| ==> IsPiece(PiecesFrom(bs, i)[j])
    ensures forall j :: 0 <= j < |PiecesFrom(bs, i)| - 1 ==> Apart(PiecesFrom(bs, i)[j], PiecesFrom(bs, i)[j + 1])
    decreases |bs| - i
  {
    var k := FirstEnd(bs, i);
    if k < |bs| {
      var n := AfterEnd(bs, k);
      var p, more := Piece(bs[i..k], bs[k..n]), PiecesFrom(bs, n);
      PiecesAreLines(bs, n);
      FirstEndIsFirst(bs, i);
      assert IsPiece(p);
      if more != [] { FirstPiece(bs, k, n); }
      assert PiecesFrom(bs, i) == [p] + more;
    }
  }

  /** The lines are the pieces' lines, each with its first colon. */
  lemma {:induction false} LinesArePieces(bs: seq<byte>, i: nat)
    requires i <= |bs|
    ensures LinesFrom(bs, i) == LinesOf(PiecesFrom(bs, i))
    decreases |bs| - i
  {
    var k := FirstEnd(bs, i);
    if k < |bs| {
      var n := AfterEnd(bs, k);
      LinesArePieces(bs, n);
      assert PiecesFrom(bs, i)[1..] == PiecesFrom(bs, n);
    }
  }

  function LinesOf(ps: seq<Piece>): seq<Line> {
    if ps == [] then [] else [(ps[0].line, FirstColon(ps[0].line))] + LinesOf(ps[1..])
  }

  lemma {:induction false} JoinedOneMore(p: Piece, more: seq<Piece>, tail: seq<byte>)
    ensures Joined([p] + more) + tail == p.line + (p.end + (Joined(more) + tail))
  {
    assert ([p] + more)[1..] == more;
    Associative(p.line, p.end + Joined(more), tail);
    Associative(p.end, Joined(more), tail);
  }

  lemma {:induction false} Associative(a: seq<byte>, b: seq<byte>, c: seq<byte>)
    ensures a + b + c == a + (b + c)
  {
  }

  lemma {:induction false} SplitTwice(bs: seq<byte>, i: nat, k: nat, n: nat)
    requires i <= k <= n <= |bs|
    ensures bs[i..] == bs[i..k] + (bs[k..n] + bs[n..])
  {
  }

  lemma {:induction false} FirstPiece(bs: seq<byte>, k: nat, n: nat)
    requires k < |bs| && n == AfterEnd(bs, k) && PiecesFrom(bs, n) != []
    ensures Apart(Piece([], bs[k..n]), PiecesFrom(bs, n)[0])
  {
    var q := PiecesFrom(bs, n)[0];
    if q.line == [] {
      assert q.end[0] == bs[n];
      assert n == k + 1 && bs[k] == CR ==> bs[n] != LF;
    }
  }

  // ---- One byte at a time ----

  /** The line so far, its first colon, whether a CR just ended a line, and the lines so far. */
  datatype Reading = Reading(line: seq<byte>, colon: int, cr: bool, lines: seq<Line>)

  const FRESH := Reading([], -1, false, [])

  function Next(st: Reading, b: byte): Reading {
    if st.cr && b == LF then st.(cr := false)
    else if Ends(b) then Reading([], -1, b == CR, st.lines + [(st.line, st.colon)])
    else Reading(st.line + [b], if b == COLON && st.colon == -1 then |st.line| else st.colon, false, st.lines)
  }

  /** The state after the first k bytes. */
  function Fed(st: Reading, bs: seq<byte>, k: nat): Reading
    requires k <= |bs|
  {
    if k == 0 then st else Next(Fed(st, bs, k - 1), bs[k - 1])
  }

  lemma {:induction false} FedConcat(st: Reading, a: seq<byte>, b: seq<byte>, k: nat)
    requires k <= |a| + |b|
    ensures k <= |a| ==> Fed(st, a + b, k) == Fed(st, a, k)
    ensures k > |a| ==> Fed(st, a + b, k) == Fed(Fed(st, a, |a|), b, k - |a|)
  {
    if k > 0 { FedConcat(st, a, b, k - 1); }
  }

  predicate AfterCr(bs: seq<byte>) {
    bs != [] && bs[|bs| - 1] == CR
  }

  /** What one more byte does to the lines of a stream and to its unfinished line. */
  lemma {:induction false} LinesOneMore(bs: seq<byte>, b: byte, i: nat)
    requires i <= |bs|
    ensures var all, a, cut := bs + [b], LastStart(bs, i), b == LF && i < |bs| && AfterCr(bs);
      && LastStart(all, i) == (if Ends(b) then |all| else a)
      && (cut ==> a == |bs|)
      && LinesFrom(all, i) == LinesFrom(bs, i) + (if Ends(b) && !cut then [(bs[a..], FirstColon(bs[a..]))] else [])
    decreases |bs| - i
  {
    var k, all := FirstEnd(bs, i), bs + [b];
    FirstEndIsFirst(bs, i);
    EndOneMore(bs, b, i);
    if k == |bs| {
      assert all[i..k] == bs[i..];
    } else {
      var n := AfterEnd(bs, k);
      assert all[i..k] == bs[i..k];
      var line := [(bs[i..k], FirstColon(bs[i..k]))];
      if k + 1 == |bs| && bs[k] == CR && b == LF {
        assert AfterEnd(all, k) == |all|;
      } else {
        assert AfterEnd(all, k) == n;
        LinesOneMore(bs, b, n);
        var a := LastStart(bs, n);
        var more := [(bs[a..], FirstColon(bs[a..]))];
        assert line + (LinesFrom(bs, n) + more) == line + LinesFrom(bs, n) + more;
      }
    }
  }

  lemma {:induction false} EndOneMore(bs: seq<byte>, b: byte, i: nat)
    requires i <= |bs|
    ensures FirstEnd(bs + [b], i) == if FirstEnd(bs, i) == |bs| && !Ends(b) then |bs| + 1 else FirstEnd(bs, i)
    decreases |bs| - i
  {
    if i < |bs| { EndOneMore(bs, b, i + 1); }
  }

  /** The state that belongs to a stream. */
  function StateOf(bs: seq<byte>): Reading {
    Reading(Tail(bs), FirstColon(Tail(bs)), AfterCr(bs), Lines(bs))
  }

  lemma {:induction false} TailOneMore(bs: seq<byte>, b: byte)
    ensures Tail(bs + [b]) == if Ends(b) then [] else Tail(bs) + [b]
    ensures Lines(bs + [b]) == Lines(bs) + (if Ends(b) && !(b == LF && AfterCr(bs)) then [(Tail(bs), FirstColon(Tail(bs)))] else [])
    ensures b == LF && AfterCr(bs) ==> Tail(bs) == []
  {
    var a, all := LastStart(bs, 0), bs + [b];
    LinesOneMore(bs, b, 0);
    assert all[|all|..] == [] && all[a..] == bs[a..] + [b];
  }

  lemma {:induction false} StateOneMore(bs: seq<byte>, b: byte)
    ensures StateOf(bs + [b]) == Next(StateOf(bs), b)
  {
    TailOneMore(bs, b);
    var tail, tail', lines, lines' := Tail(bs), Tail(bs + [b]), Lines(bs), Lines(bs + [b]);
    ColonOneMore(tail, b);
    assert lines + [] == lines;
    assert AfterCr(bs + [b]) == (b == CR);
    assert Reading(tail', FirstColon(tail'), b == CR, lines') == Next(Reading(tail, FirstColon(tail), AfterCr(bs), lines), b);
  }

  /** Byte by byte, the lines are those of the stream so far. */
  lemma {:induction false} FedIsLines(bs: seq<byte>, k: nat)
    requires k <= |bs|
    ensures Fed(FRESH, bs, k) == StateOf(bs[..k])
  {
    if k > 0 {
      FedIsLines(bs, k - 1);
      FedNext(bs, k - 1);
    } else {
      assert bs[..k] == [];
      NothingRead();
    }
  }

  lemma {:induction false} FedNext(bs: seq<byte>, k: nat)
    requires k < |bs| && Fed(FRESH, bs, k) == StateOf(bs[..k])
    ensures Fed(FRESH, bs, k + 1) == StateOf(bs[..k + 1])
  {
    assert bs[..k + 1] == bs[..k] + [bs[k]];
    StateOneMore(bs[..k], bs[k]);
  }

  lemma {:induction false} NothingRead()
    ensures StateOf([]) == FRESH
  {
  }

  lemma {:induction false} ColonOneMore(s: seq<byte>, b: byte)
    ensures FirstColon(s + [b]) == if FirstColon(s) == -1 && b == COLON then |s| else FirstColon(s)
  {
    ColonInPrefix(s, b, |s|);
  }

  lemma {:induction false} ColonInPrefix(s: seq<byte>, b: byte, k: nat)
    requires k <= |s|
    ensures ColonIn(s + [b], k) == ColonIn(s, k)
  {
    if k > 0 { ColonInPrefix(s, b, k - 1); }
  }

  // ---- The reader ----

  /** What is kept of a stream: its unfinished line, that line's first colon, and whether a CR came last. */
  function Pending(seen: seq<byte>): (Option<seq<byte>>, int, bool) {
    (if Tail(seen) == [] then None else Some(Tail(seen)), FirstColon(Tail(seen)), AfterCr(seen))
  }

  class LineReader {
    /** t, n, r and s. */
    var buffer: Option<seq<byte>>
    var n: nat
    var colon: int
    var cr: bool
    /** Every byte received. */
    ghost var seen: seq<byte>

    ghost predicate Valid()
      reads this
    {
      && (buffer, if buffer.None? then -1 else colon, cr) == Pending(seen)
      && (buffer.Some? ==> n == |buffer.value|)
    }

    constructor ()
      ensures Valid() && seen == []
    {
      buffer, n, colon, cr, seen := None, 0, -1, false, [];
    }

    /** A chunk gives the lines it completes: all lines are those of all bytes received, however the
        bytes were cut. */
    method Feed(chunk: seq<byte>) returns (lines: seq<Line>)
      requires Valid()
      modifies this
      ensures Valid() && seen == old(seen) + chunk
      ensures Lines(old(seen)) + lines == Lines(seen)
    {
      var t, from, first := Extend(buffer, n, colon, chunk, seen);
      TailAfterCr(seen);
      ghost var all, line := seen + chunk, [];
      lines, buffer, n, colon, cr, line := Absorb(t, from, first, cr, Reading(Tail(seen), first, cr, []), chunk);
      FedAfter(seen, chunk, line, colon, cr, lines);
      seen := all;
    }

    /** The chunk after what is kept of the stream. */
    method Extend(buffer: Option<seq<byte>>, n: nat, colon: int, chunk: seq<byte>, ghost seen: seq<byte>)
      returns (t: seq<byte>, from: nat, first: int)
      requires (buffer, if buffer.None? then -1 else colon) == (Pending(seen).0, Pending(seen).1)
      requires buffer.Some? ==> n == |buffer.value|
      ensures Buffered(t, Tail(seen), chunk) && from == |Tail(seen)| && first == FirstColon(Tail(seen))
    {
      BufferedConcat(Tail(seen), chunk);
      t, from, first := chunk, 0, -1;
      if buffer.Some? { t, from, first := buffer.value + chunk, n, colon; }
    }

    /** What one chunk completes and what is kept; the buffer t is the unfinished line and the chunk. */
    method Absorb(t: seq<byte>, from: nat, first: int, cr0: bool, ghost st: Reading, ghost chunk: seq<byte>)
      returns (lines: seq<Line>, kept: Option<seq<byte>>, n: nat, colon: int, cr: bool, ghost line: seq<byte>)
      requires Buffered(t, st.line, chunk) && from == |st.line| && first == st.colon && cr0 == st.cr
      requires st.lines == [] && (st.cr ==> st.line == [])
      ensures Fed(st, chunk, |chunk|) == Reading(line, colon, cr, lines)
      ensures kept == (if line == [] then None else Some(line)) && (kept.Some? ==> n == |line|)
    {
      var a;
      lines, a, n, colon, cr := Scan(t, from, first, cr0, st, chunk);
      line := t[a..n];
      assert n - from == |chunk|;
      if a == |t| {
        kept := None;
      } else {
        kept, n := Some(t[a..n]), n - a;
      }
    }

    /** The scanning loop over the buffer t, whose bytes from n0 on are new. */
    method Scan(t: seq<byte>, n0: nat, colon0: int, cr0: bool, ghost st: Reading, ghost chunk: seq<byte>)
      returns (lines: seq<Line>, a: nat, n: nat, colon: int, cr: bool)
      requires Buffered(t, st.line, chunk) && n0 == |st.line| && colon0 == st.colon && cr0 == st.cr
      requires st.lines == [] && (st.cr ==> st.line == [])
      ensures a <= n == |t| && Fed(st, chunk, n - n0) == Reading(t[a..n], colon, cr, lines)
    {
      lines, a, n, colon, cr := [], 0, n0, colon0, cr0;
      assert t[0..n0] == st.line;
      while n < |t|
        invariant n0 <= n <= |t| && a <= n && (cr ==> a == n)
        invariant Fed(st, chunk, n - n0) == Reading(t[a..n], colon, cr, lines)
        decreases |t| - n
      {
        var c;
        a, c, n, colon, cr := Round(t, n0, a, n, colon, cr, lines, st, chunk);
        assert c == -1 ==> Fed(st, chunk, n - n0) == Reading(t[a..n], colon, cr, lines);
        if c == -1 { break; }
        lines := lines + [(t[a..c], colon)];
        a := n;
        colon := -1;
      }
    }

    /** A round of that loop: past the LF of a CRLF, then on to the next line end. */
    method Round(t: seq<byte>, ghost n0: nat, a0: nat, n1: nat, colon1: int, cr1: bool, ghost lines: seq<Line>,
                 ghost st: Reading, ghost chunk: seq<byte>)
      returns (a: nat, c: int, n: nat, colon: int, cr: bool)
      requires Buffered(t, st.line, chunk) && n0 == |st.line| <= n1 < |t| && a0 <= n1 && (cr1 ==> a0 == n1)
      requires Fed(st, chunk, n1 - n0) == Reading(t[a0..n1], colon1, cr1, lines)
      ensures n1 < n <= |t| && a <= n
      ensures c == -1 ==> n == |t| && !cr && Fed(st, chunk, n - n0) == Reading(t[a..n], colon, cr, lines)
      ensures c != -1 ==> a <= c == n - 1
      ensures c != -1 ==> Fed(st, chunk, n - n0) == Reading(t[n..n], -1, cr, lines + [(t[a..c], colon)])
    {
      a, n := a0, n1;
      if cr1 {
        if t[n] == LF {
          n := n + 1;
          a := n;
        }
      }
      ghost var from := n;
      c, n, colon, cr := LineEnd(t, a, n, colon1);
      FedRound(st, chunk, t, n0, n1, a0, colon1, cr1, lines, from, a, c, n, colon, cr);
    }

    /** The inner loop: on to the next line end, minding the first colon of the line begun at a. */
    method LineEnd(t: seq<byte>, a: nat, from: nat, colonFrom: int) returns (c: int, n: nat, colon: int, cr: bool)
      requires a <= from <= |t|
      ensures c == -1 ==> n == |t| && NoEndIn(t, from, n) && !cr
      ensures c != -1 ==> from <= c < |t| && n == c + 1 && NoEndIn(t, from, c) && Ends(t[c]) && cr == (t[c] == CR)
      ensures colon == ColonFrom(t, a, colonFrom, from, if c == -1 then n else c)
    {
      c, n, colon, cr := -1, from, colonFrom, false;
      while n < |t| && c == -1
        invariant from <= n <= |t|
        invariant c == -1 ==> NoEndIn(t, from, n) && !cr && colon == ColonFrom(t, a, colonFrom, from, n)
        invariant c != -1 ==> from <= c < |t| && n == c + 1 && NoEndIn(t, from, c) && Ends(t[c]) && cr == (t[c] == CR)
        invariant c != -1 ==> colon == ColonFrom(t, a, colonFrom, from, c)
        decreases |t| - n
      {
        if t[n] == COLON {
          if colon == -1 { colon := n - a; }
        } else if t[n] == CR {
          cr := true;
          c := n;
        } else if t[n] == LF {
          c := n;
        }
        n := n + 1;
      }
    }
  }

  /** The first colon, counted from a, once the bytes from..to have been read. */
  function ColonFrom(t: seq<byte>, a: nat, colon: int, from: nat, stop: nat): int
    requires a <= from <= stop <= |t|
    decreases stop
  {
    if from == stop then colon
    else
      var c := ColonFrom(t, a, colon, from, stop - 1);
      if t[stop - 1] == COLON && c == -1 then stop - 1 - a else c
  }

  /** The LF after a CR is passed over. */
  lemma {:induction false} AfterPending(st: Reading, chunk: seq<byte>, k: nat)
    requires k < |chunk| && Fed(st, chunk, k).cr && chunk[k] == LF
    ensures Fed(st, chunk, k + 1) == Fed(st, chunk, k).(cr := false)
  {
  }

  /** Bytes that end nothing make the line longer. */
  lemma {:induction false} FedQuiet(st: Reading, chunk: seq<byte>, k: nat, n: nat)
    requires k <= n <= |chunk| && NoEndIn(chunk, k, n)
    ensures var s, now := Fed(st, chunk, k), Fed(st, chunk, n);
      && now.line == s.line + chunk[k..n] && now.lines == s.lines && (k < n ==> !now.cr)
      && now.colon == ColonOver(chunk, |s.line|, s.colon, k, n)
    decreases n
  {
    if k < n {
      FedQuiet(st, chunk, k, n - 1);
      assert chunk[k..n] == chunk[k..n - 1] + [chunk[n - 1]];
    }
  }

  /** The first colon of a line of length m that goes on with bytes k..n of the chunk. */
  function ColonOver(chunk: seq<byte>, m: nat, colon: int, k: nat, n: nat): int
    requires k <= n <= |chunk|
    decreases n
  {
    if k == n then colon
    else
      var c := ColonOver(chunk, m, colon, k, n - 1);
      if chunk[n - 1] == COLON && c == -1 then m + (n - 1 - k) else c
  }

  lemma {:induction false} ColonInBuffer(t: seq<byte>, chunk: seq<byte>, m: nat, a: nat, colon: int, k: nat, n: nat)
    requires k <= n <= |chunk| && |t| == m + |chunk| && a <= m + k
    requires forall i :: k <= i < n ==> t[m + i] == chunk[i]
    ensures ColonFrom(t, a, colon, m + k, m + n) == ColonOver(chunk, m + k - a, colon, k, n)
    decreases n
  {
    if k < n {
      ColonInBuffer(t, chunk, m, a, colon, k, n - 1);
      assert t[m + (n - 1)] == chunk[n - 1];
    }
  }

  /** What the quiet bytes of the chunk are in the buffer. */
  lemma {:induction false} QuietInBuffer(t: seq<byte>, line: seq<byte>, chunk: seq<byte>, a: nat, colon: int, k: nat, n: nat)
    requires Buffered(t, line, chunk) && k <= n <= |chunk| && a <= |line| + k && NoEndIn(t, |line| + k, |line| + n)
    ensures NoEndIn(chunk, k, n) && t[a..|line| + k] + chunk[k..n] == t[a..|line| + n]
    ensures ColonFrom(t, a, colon, |line| + k, |line| + n) == ColonOver(chunk, |line| + k - a, colon, k, n)
  {
    forall i | k <= i < n ensures t[|line| + i] == chunk[i] && !Ends(chunk[i]) {
      assert !Ends(t[|line| + i]);
    }
    ColonInBuffer(t, chunk, |line|, a, colon, k, n);
  }

  /** One round of the scanning loop. */
  lemma {:induction false} FedRound(st: Reading, chunk: seq<byte>, t: seq<byte>, n0: nat, n: nat, a: nat, colon: int, cr: bool,
                                    lines: seq<Line>, from: nat, a': nat, c: int, n': nat, colon': int, cr': bool)
    requires Buffered(t, st.line, chunk) && |st.line| == n0 <= n < |t| && a <= n && (cr ==> a == n)
    requires Fed(st, chunk, n - n0) == Reading(t[a..n], colon, cr, lines)
    requires if cr && t[n] == LF then from == a' == n + 1 else from == n && a' == a
    requires from <= n' <= |t|
    requires c == -1 ==> n' == |t| && NoEndIn(t, from, n') && !cr'
    requires c != -1 ==> from <= c < |t| && n' == c + 1 && NoEndIn(t, from, c) && Ends(t[c]) && cr' == (t[c] == CR)
    requires colon' == ColonFrom(t, a', colon, from, if c == -1 then n' else c)
    ensures c == -1 ==> Fed(st, chunk, n' - n0) == Reading(t[a'..n'], colon', cr', lines)
    ensures c != -1 ==> Fed(st, chunk, n' - n0) == Reading(t[n'..n'], -1, cr', lines + [(t[a'..c], colon')])
  {
    var skip := cr && t[n] == LF;
    assert t[n] == chunk[n - n0];
    if skip {
      AfterPending(st, chunk, n - n0);
      assert t[a..n] == t[from..from] == [];
    }
    FedLine(st, chunk, t, from, a', colon, if skip then false else cr, lines, c, n', cr');
  }

  lemma {:induction false} FedLine(st: Reading, chunk: seq<byte>, t: seq<byte>, from: nat, a: nat, colon: int,
                                   flag: bool, lines: seq<Line>, c: int, n: nat, cr: bool)
    requires Buffered(t, st.line, chunk) && |st.line| <= from <= n <= |t| && a <= from
    requires flag ==> from < |t| && t[from] != LF
    requires Fed(st, chunk, from - |st.line|) == Reading(t[a..from], colon, flag, lines)
    requires c == -1 ==> n == |t| && NoEndIn(t, from, n) && !cr
    requires c != -1 ==> from <= c < |t| && n == c + 1 && NoEndIn(t, from, c) && Ends(t[c]) && cr == (t[c] == CR)
    ensures c == -1 && from < n ==>
      Fed(st, chunk, n - |st.line|) == Reading(t[a..n], ColonFrom(t, a, colon, from, n), false, lines)
    ensures c != -1 ==>
      Fed(st, chunk, n - |st.line|) == Reading([], -1, cr, lines + [(t[a..c], ColonFrom(t, a, colon, from, c))])
  {
    var m := |st.line|;
    var stop := if c == -1 then n else c;
    FedStretch(st, chunk, t, m, from, stop, a, colon, flag, lines);
    if c != -1 {
      assert chunk[c - m] == t[m + (c - m)];
      FedEnd(st, chunk, c - m, t[a..c], ColonFrom(t, a, colon, from, c), flag && c == from, lines);
    }
  }

  lemma {:induction false} FedStretch(st: Reading, chunk: seq<byte>, t: seq<byte>, m: nat, from: nat, stop: nat, a: nat,
                                      colon: int, flag: bool, lines: seq<Line>)
    requires Buffered(t, st.line, chunk) && m == |st.line| <= from <= stop <= |t| && a <= from && NoEndIn(t, from, stop)
    requires Fed(st, chunk, from - m) == Reading(t[a..from], colon, flag, lines)
    ensures var cr := flag && from == stop;
      Fed(st, chunk, stop - m) == Reading(t[a..stop], ColonFrom(t, a, colon, from, stop), cr, lines)
  {
    if from < stop {
      var k, n := from - m, stop - m;
      assert m + k == from && m + n == stop;
      FedBuffered(st, chunk, t, k, n, a, colon, flag, lines);
    }
  }

  lemma {:induction false} FedBuffered(st: Reading, chunk: seq<byte>, t: seq<byte>, k: nat, n: nat, a: nat, colon: int, flag: bool,
                                       lines: seq<Line>)
    requires Buffered(t, st.line, chunk) && k < n <= |chunk| && a <= |st.line| + k
    requires NoEndIn(t, |st.line| + k, |st.line| + n)
    requires Fed(st, chunk, k) == Reading(t[a..|st.line| + k], colon, flag, lines)
    ensures Fed(st, chunk, n)
      == Reading(t[a..|st.line| + n], ColonFrom(t, a, colon, |st.line| + k, |st.line| + n), false, lines)
  {
    QuietInBuffer(t, st.line, chunk, a, colon, k, n);
    FedOver(st, chunk, k, n, t[a..|st.line| + k], colon, flag, lines);
  }

  /** Bytes that end nothing, in the chunk's own terms. */
  lemma {:induction false} FedOver(st: Reading, chunk: seq<byte>, k: nat, n: nat, line: seq<byte>, colon: int, cr: bool,
                                   lines: seq<Line>)
    requires k < n <= |chunk| && NoEndIn(chunk, k, n) && Fed(st, chunk, k) == Reading(line, colon, cr, lines)
    ensures Fed(st, chunk, n) == Reading(line + chunk[k..n], ColonOver(chunk, |line|, colon, k, n), false, lines)
  {
    FedQuiet(st, chunk, k, n);
  }

  lemma {:induction false} FedEnd(st: Reading, chunk: seq<byte>, k: nat, line: seq<byte>, colon: int, cr: bool, lines: seq<Line>)
    requires k < |chunk| && Ends(chunk[k]) && (cr ==> chunk[k] != LF) && Fed(st, chunk, k) == Reading(line, colon, cr, lines)
    ensures Fed(st, chunk, k + 1) == Reading([], -1, chunk[k] == CR, lines + [(line, colon)])
  {
  }

  lemma {:induction false} BufferedConcat(line: seq<byte>, chunk: seq<byte>)
    ensures Buffered(line + chunk, line, chunk)
    ensures line == [] ==> line + chunk == chunk
  {
  }

  /** The buffer is the unfinished line and the new bytes. */
  ghost predicate Buffered(t: seq<byte>, line: seq<byte>, chunk: seq<byte>) {
    && |t| == |line| + |chunk| && t[..|line|] == line
    && forall i :: 0 <= i < |chunk| ==> t[|line| + i] == chunk[i]
  }

  /** Lines found before do not change how the reading goes on. */
  lemma {:induction false} FedLater(st: Reading, before: seq<Line>, bs: seq<byte>, k: nat)
    requires st.lines == [] && k <= |bs|
    ensures Fed(st.(lines := before), bs, k) == Fed(st, bs, k).(lines := before + Fed(st, bs, k).lines)
  {
    if k > 0 {
      FedLater(st, before, bs, k - 1);
      var m := Fed(st, bs, k - 1);
      assert before + (m.lines + [(m.line, m.colon)]) == before + m.lines + [(m.line, m.colon)];
    } else {
      assert before + [] == before;
    }
  }

  lemma {:induction false} StateFed(seen: seq<byte>, chunk: seq<byte>)
    ensures Fed(StateOf(seen), chunk, |chunk|) == StateOf(seen + chunk)
  {
    var all := seen + chunk;
    assert seen[..|seen|] == seen && all[..|all|] == all;
    FedIsLines(seen, |seen|);
    FedIsLines(all, |all|);
    FedConcat(FRESH, seen, chunk, |all|);
    if chunk == [] { assert all == seen; }
  }

  /** The new lines come after the old ones. */
  lemma {:induction false} FedAfter(seen: seq<byte>, chunk: seq<byte>, line: seq<byte>, colon: int, cr: bool, lines: seq<Line>)
    requires Fed(Reading(Tail(seen), FirstColon(Tail(seen)), AfterCr(seen), []), chunk, |chunk|) == Reading(line, colon, cr, lines)
    ensures Pending(seen + chunk) == (if line == [] then None else Some(line), if line == [] then -1 else colon, cr)
    ensures Lines(seen + chunk) == Lines(seen) + lines
  {
    var st := StateOf(seen);
    StateFed(seen, chunk);
    FedLater(st.(lines := []), st.lines, chunk, |chunk|);
    assert st.(lines := []).(lines := st.lines) == st;
    assert StateOf(seen + chunk) == Reading(line, colon, cr, Lines(seen) + lines);
    assert FirstColon([]) == -1;
  }

  lemma {:induction false} TailAfterCr(bs: seq<byte>)
    ensures AfterCr(bs) ==> Tail(bs) == []
  {
    TailIsUnfinished(bs, 0);
  }

  // ---- Chunk invariance ----

  function Concat(chunks: seq<seq<byte>>): seq<byte> {
    if chunks == [] then [] else Concat(chunks[..|chunks| - 1]) + chunks[|chunks| - 1]
  }

  /** A stream in any chunks, empty ones too, gives the lines of its bytes. */
  method ReadStream(chunks: seq<seq<byte>>) returns (lines: seq<Line>)
    ensures lines == Lines(Concat(chunks))
  {
    var reader := new LineReader();
    lines := [];
    for i := 0 to |chunks|
      invariant reader.Valid() && reader.seen == Concat(chunks[..i]) && lines == Lines(reader.seen)
      invariant fresh(reader)
    {
      assert chunks[..i + 1][..i] == chunks[..i];
      var more := reader.Feed(chunks[i]);
      lines := lines + more;
    }
    assert chunks[..|chunks|] == chunks;
  }
}

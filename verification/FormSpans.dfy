/** The top-level spans of a reply: a scan that knows strings and comments
    (evals/runs/2026-07-05-bfcl-ast-dev-form/bfcl_adapter_form.py). */
module FormSpans {

  datatype Mode = Code | InString | Escaped | InComment

  predicate Opens(c: char) {
    c == '(' || c == '['
  }

  predicate Closes(c: char) {
    c == ')' || c == ']'
  }

  function NextMode(m: Mode, c: char): Mode {
    match m
    case InComment => if c == '\n' then Code else InComment
    case Escaped => InString
    case InString => if c == '\\' then Escaped else if c == '"' then Code else InString
    case Code => if c == '"' then InString else if c == ';' then InComment else Code
  }

  /** Brackets count in code only, and a closer at depth 0 is ignored. */
  function NextDepth(m: Mode, depth: nat, c: char): nat {
    if m == Code && Opens(c) then depth + 1
    else if m == Code && Closes(c) && depth > 0 then depth - 1
    else depth
  }

  /** Round and square brackets move the depth, braces do not; a closer at depth 0 does not either, and nothing does
      in a string or a comment. */
  lemma {:induction false} DepthMoves(m: Mode, depth: nat, c: char)
    ensures NextDepth(m, depth, c) == depth + 1 <==> m == Code && c in "(["
    ensures NextDepth(m, depth, c) == depth - 1 <==> m == Code && c in ")]" && depth > 0
    ensures NextDepth(m, depth, c) in {depth - 1, depth, depth + 1}
  {
  }

  /** Quotes open and close strings, a semicolon opens a comment and the end of the line closes it, and a character
      after a backslash in a string closes nothing. */
  lemma {:induction false} ModeMoves(c: char)
    ensures NextMode(Code, c) == (if c == '"' then InString else if c == ';' then InComment else Code)
    ensures NextMode(InString, c) == Code <==> c == '"'
    ensures NextMode(InString, c) == Escaped <==> c == '\\'
    ensures NextMode(Escaped, c) == InString && (NextMode(InComment, c) == Code <==> c == '\n')
  {
  }

  // ---- What a span is ----

  function ModeAt(text: string, k: nat): Mode
    requires k <= |text|
  {
    if k == 0 then Code else NextMode(ModeAt(text, k - 1), text[k - 1])
  }

  /** Bracket depth before position k, outside strings and comments. */
  function DepthAt(text: string, k: nat): nat
    requires k <= |text|
  {
    if k == 0 then 0 else NextDepth(ModeAt(text, k - 1), DepthAt(text, k - 1), text[k - 1])
  }

  /** Depth is 0 before `from`, positive strictly inside, and first 0 again at `to`. */
  ghost predicate IsSpan(text: string, from: int, to: int) {
    && 0 <= from < to <= |text|
    && DepthAt(text, from) == 0
    && (forall k :: from < k < to ==> DepthAt(text, k) > 0)
    && DepthAt(text, from + 1) > 0
    && DepthAt(text, to) == 0
  }

  // ---- The scan ----

  /** `start` is -1 outside a span. */
  datatype Scan = Scan(i: nat, mode: Mode, depth: nat, start: int, spans: seq<(int, int)>)

  const BEGIN := Scan(0, Code, 0, -1, [])

  function Step(sc: Scan, c: char): Scan {
    var mode, depth := NextMode(sc.mode, c), NextDepth(sc.mode, sc.depth, c);
    if sc.depth == 0 && depth > 0 then Scan(sc.i + 1, mode, depth, sc.i, sc.spans)
    else if sc.depth > 0 && depth == 0 then Scan(sc.i + 1, mode, depth, -1, sc.spans + [(sc.start, sc.i + 1)])
    else Scan(sc.i + 1, mode, depth, sc.start, sc.spans)
  }

  function Run(sc: Scan, text: string): Scan
    decreases |text|
  {
    if text == [] then sc else Run(Step(sc, text[0]), text[1..])
  }

  lemma {:induction false} RunConcat(sc: Scan, a: string, b: string)
    ensures Run(sc, a + b) == Run(Run(sc, a), b)
    decreases |a|
  {
    if a == [] {
      assert a + b == b;
    } else {
      RunConcat(Step(sc, a[0]), a[1..], b);
      assert (a + b)[1..] == a[1..] + b;
    }
  }

  lemma {:induction false} RunMore(sc: Scan, text: string, k: nat)
    requires k < |text|
    ensures Run(sc, text[..k + 1]) == Step(Run(sc, text[..k]), text[k])
  {
    assert text[..k + 1] == text[..k] + [text[k]];
    RunConcat(sc, text[..k], [text[k]]);
    assert [text[k]][1..] == [];
  }

  // ---- The scan finds exactly the spans ----

  /** The scan at position k: the span list is every span ended by k, in order, and `start` is where the
      open one began. */
  ghost predicate Scanned(text: string, k: nat, sc: Scan)
    requires k <= |text|
  {
    && sc.i == k && sc.mode == ModeAt(text, k) && sc.depth == DepthAt(text, k)
    && (sc.depth == 0 ==> sc.start == -1)
    && (sc.depth > 0 ==> Opening(text, sc.start, k))
    && Found(text, k, sc.spans)
    && Ordered(sc.spans)
    && (forall i :: 0 <= i < |sc.spans| && sc.depth > 0 ==> sc.spans[i].1 <= sc.start)
  }

  /** A span begun at `start` is still open at k. */
  ghost predicate Opening(text: string, start: int, k: nat)
    requires k <= |text|
  {
    0 <= start < k && DepthAt(text, start) == 0 && forall j :: start < j <= k ==> DepthAt(text, j) > 0
  }

  ghost predicate Found(text: string, k: nat, spans: seq<(int, int)>) {
    forall a, b :: (a, b) in spans <==> IsSpan(text, a, b) && b <= k
  }

  /** One after another, without overlap. */
  ghost predicate Ordered(spans: seq<(int, int)>) {
    && (forall i :: 0 <= i < |spans| ==> spans[i].0 < spans[i].1)
    && forall i, j :: 0 <= i < j < |spans| ==> spans[i].1 <= spans[j].0
  }

  /** Two spans that end together begin together: the start of one is not inside the other. */
  lemma {:induction false} SpanEndsOnce(text: string, a: int, a': int, b: int)
    requires IsSpan(text, a, b) && IsSpan(text, a', b)
    ensures a == a'
  {
  }

  lemma {:induction false} ScanStep(text: string, k: nat, sc: Scan)
    requires k < |text| && Scanned(text, k, sc)
    ensures Scanned(text, k + 1, Step(sc, text[k]))
  {
    var sc' := Step(sc, text[k]);
    if sc.depth > 0 && sc'.depth == 0 {
      CloseSpan(text, k, sc.start, sc.spans);
      OrderedMore(sc.spans, sc.start, k + 1);
      assert sc'.spans == sc.spans + [(sc.start, k + 1)];
    } else {
      NoSpanEnds(text, k, sc.spans);
      assert sc'.spans == sc.spans;
      if sc.depth == 0 && sc'.depth > 0 { FoundEnd(text, k, sc.spans); }
    }
  }

  lemma {:induction false} OrderedMore(spans: seq<(int, int)>, from: int, to: int)
    requires Ordered(spans) && from < to && forall i :: 0 <= i < |spans| ==> spans[i].1 <= from
    ensures Ordered(spans + [(from, to)])
  {
  }

  lemma {:induction false} FoundEnd(text: string, k: nat, spans: seq<(int, int)>)
    requires Found(text, k, spans)
    ensures forall i :: 0 <= i < |spans| ==> spans[i].1 <= k
  {
    forall i | 0 <= i < |spans| ensures spans[i].1 <= k {
      var p := spans[i];
      assert (p.0, p.1) in spans <==> IsSpan(text, p.0, p.1) && p.1 <= k;
      assert p in spans && p == (p.0, p.1);
    }
  }

  lemma {:induction false} CloseSpan(text: string, k: nat, start: int, spans: seq<(int, int)>)
    requires k < |text| && Opening(text, start, k) && DepthAt(text, k + 1) == 0 && Found(text, k, spans)
    ensures Found(text, k + 1, spans + [(start, k + 1)])
  {
    assert IsSpan(text, start, k + 1);
    forall a, b ensures (a, b) in spans + [(start, k + 1)] <==> IsSpan(text, a, b) && b <= k + 1 {
      if IsSpan(text, a, b) && b == k + 1 {
        SpanEndsOnce(text, a, start, b);
      }
    }
  }

  lemma {:induction false} NoSpanEnds(text: string, k: nat, spans: seq<(int, int)>)
    requires k < |text| && Found(text, k, spans) && (DepthAt(text, k) == 0 || DepthAt(text, k + 1) > 0)
    ensures Found(text, k + 1, spans)
  {
    forall a, b ensures (a, b) in spans <==> IsSpan(text, a, b) && b <= k + 1 {
      assert !IsSpan(text, a, k + 1);
    }
  }

  lemma {:induction false} ScanIsRight(text: string, k: nat)
    requires k <= |text|
    ensures Scanned(text, k, Run(BEGIN, text[..k]))
  {
    if k > 0 {
      ScanIsRight(text, k - 1);
      RunMore(BEGIN, text, k - 1);
      ScanStep(text, k - 1, Run(BEGIN, text[..k - 1]));
    }
  }

  function Spans(text: string): seq<(int, int)> {
    Run(BEGIN, text).spans
  }

  /** The scan yields the spans of the text, all of them, in order and apart. */
  lemma {:induction false} SpansAreRight(text: string)
    ensures forall a, b :: (a, b) in Spans(text) <==> IsSpan(text, a, b)
    ensures Ordered(Spans(text))
  {
    ScanIsRight(text, |text|);
    assert text[..|text|] == text;
  }

  /** The span texts. */
  function Slices(text: string, spans: seq<(int, int)>): (r: seq<string>)
    requires forall p :: p in spans ==> 0 <= p.0 <= p.1 <= |text|
  {
    seq(|spans|, i requires 0 <= i < |spans| => text[spans[i].0..spans[i].1])
  }

  function SpanTexts(text: string): seq<string> {
    SpansAreRight(text);
    Slices(text, Spans(text))
  }

  /** What one character does to the scan, in range. */
  lemma {:induction false} ScanFacts(text: string, k: nat)
    requires k <= |text|
    ensures var sc := Run(BEGIN, text[..k]);
      && sc.i == k
      && (sc.depth > 0 ==> 0 <= sc.start < k)
      && forall j :: 0 <= j < |sc.spans| ==> 0 <= sc.spans[j].0 <= sc.spans[j].1 <= |text|
    ensures k < |text| ==> Run(BEGIN, text[..k + 1]) == Step(Run(BEGIN, text[..k]), text[k])
  {
    ScanIsRight(text, k);
    if k < |text| { RunMore(BEGIN, text, k); }
    var sc := Run(BEGIN, text[..k]);
    forall j | 0 <= j < |sc.spans| ensures 0 <= sc.spans[j].0 <= sc.spans[j].1 <= |text| {
      assert sc.spans[j] in sc.spans;
      assert IsSpan(text, sc.spans[j].0, sc.spans[j].1);
    }
  }

  method Spanned(text: string) returns (spans: seq<string>)
    ensures spans == SpanTexts(text)
  {
    spans := [];
    var depth: nat, start := 0, -1;
    var inStr, escape, inCmt := false, false, false;
    ghost var sc := BEGIN;
    ScanFacts(text, |text|);
    for i := 0 to |text|
      invariant sc == Run(BEGIN, text[..i])
      invariant sc.depth == depth && sc.start == start && sc.i == i
      invariant sc.mode == (if inCmt then InComment else if inStr then (if escape then Escaped else InString) else Code)
      invariant inStr ==> !inCmt
      invariant escape ==> inStr
      invariant |spans| == |sc.spans|
      invariant forall j :: 0 <= j < |spans| ==>
        0 <= sc.spans[j].0 <= sc.spans[j].1 <= |text| && spans[j] == text[sc.spans[j].0..sc.spans[j].1]
    {
      var ch := text[i];
      ScanFacts(text, i);
      sc := Step(sc, ch);
      if inCmt {
        if ch == '\n' { inCmt := false; }
        continue;
      }
      if inStr {
        if escape {
          escape := false;
        } else if ch == '\\' {
          escape := true;
        } else if ch == '"' {
          inStr := false;
        }
        continue;
      }
      if ch == '"' { inStr := true; continue; }
      if ch == ';' { inCmt := true; continue; }
      if Opens(ch) {
        if depth == 0 { start := i; }
        depth := depth + 1;
      } else if Closes(ch) {
        if depth > 0 {
          depth := depth - 1;
          if depth == 0 && start >= 0 {
            spans := spans + [text[start..i + 1]];
            start := -1;
          }
        }
      }
    }
    assert text[..|text|] == text;
  }
}

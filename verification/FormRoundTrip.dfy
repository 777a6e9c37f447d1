/** Written forms: whatever their layout, the scanner finds each one and the reader reads it back
    (evals/runs/2026-07-05-bfcl-ast-dev-form/bfcl_adapter_form.py). */
module FormRoundTrip {
  import opened Options
  import opened Decimal
  import opened FormReader
  import opened FormSpans
  import opened FormCalls

  // ---- Written forms ----

  datatype Kind = Round | Square | Curly

  /** Concrete syntax, blanks and comments included. `body` is a string literal as written. */
  datatype Form =
    | Atom(tok: string)
    | Keyword(tok: string)
    | Text(body: string)
    | Brackets(kind: Kind, items: seq<Item>, last: string)

  /** A form and the blanks before it. */
  datatype Item = Item(gap: string, form: Form)

  function Opener(k: Kind): char {
    match k case Round => '(' case Square => '[' case Curly => '{'
  }

  function Closer(k: Kind): char {
    match k case Round => ')' case Square => ']' case Curly => '}'
  }

  predicate PlainToken(tok: string) {
    forall i :: 0 <= i < |tok| ==> !EndsAtom(tok[i])
  }

  /** Blanks and whole comment lines. */
  predicate Blank(g: string)
    decreases |g|
  {
    g == []
    || (IsSpace(g[0]) && Blank(g[1..]))
    || (g[0] == ';' && LineTail(g[1..]) != [] && Blank(LineTail(g[1..])))
  }

  /** A string literal's inside: every backslash has its character, no bare quote. */
  predicate IsBody(b: string) {
    b == []
    || (b[0] == '\\' && |b| >= 2 && IsBody(b[2..]))
    || (b[0] != '\\' && b[0] != '"' && IsBody(b[1..]))
  }

  function Unquoted(b: string): string
    requires IsBody(b)
  {
    if b == [] then []
    else if b[0] == '\\' then [Unescape(b[1])] + Unquoted(b[2..])
    else [b[0]] + Unquoted(b[1..])
  }

  predicate Wf(lex: Lex, f: Form) {
    match f
    case Atom(tok) => tok != [] && PlainToken(tok) && !IsMacro(tok[0]) && tok[0] != ':' && Interpret(lex, tok).Some?
    case Keyword(tok) => PlainToken(tok) && Interpret(lex, tok).Some?
    case Text(body) => IsBody(body)
    case Brackets(kind, items, last) =>
      Blank(last) && forall i :: 0 <= i < |items| ==>
        Blank(items[i].gap) && (i > 0 ==> items[i].gap != []) && Wf(lex, items[i].form)
  }

  function Show(f: Form): string
    decreases f, if f.Brackets? then |f.items| + 1 else 0
  {
    match f
    case Atom(tok) => tok
    case Keyword(tok) => [':'] + tok
    case Text(body) => ['"'] + body + ['"']
    case Brackets(kind, items, last) => [Opener(kind)] + ShowFrom(f, 0)
  }

  /** The written sequence from its k-th item to its closer. */
  function ShowFrom(f: Form, k: nat): (s: string)
    requires f.Brackets? && k <= |f.items|
    ensures s != []
    decreases f, |f.items| - k
  {
    if k == |f.items| then f.last + [Closer(f.kind)]
    else f.items[k].gap + (Show(f.items[k].form) + ShowFrom(f, k + 1))
  }

  /** The datum a form stands for. */
  function Meaning(lex: Lex, f: Form): Datum
    requires Wf(lex, f)
    decreases f, 1
  {
    match f
    case Atom(tok) => Interpret(lex, tok).value
    case Keyword(tok) => Kw(StrOf(lex, Interpret(lex, tok).value))
    case Text(body) => Str(Unquoted(body))
    case Brackets(kind, items, last) =>
      Built(lex, kind, Meanings(lex, f))
  }

  function Built(lex: Lex, kind: Kind, ms: seq<Datum>): Datum {
    match kind
    case Round => List(ms)
    case Square => Vec(ms)
    case Curly => Dict(Pairs(lex, ms, |ms| / 2))
  }

  function Meanings(lex: Lex, f: Form): (ms: seq<Datum>)
    requires f.Brackets? && Wf(lex, f)
    ensures |ms| == |f.items|
    decreases f, 0
  {
    seq(|f.items|, i requires 0 <= i < |f.items| => Meaning(lex, f.items[i].form))
  }

  // ---- Reading what is written ----

  lemma {:induction false} LineTailConcat(a: string, b: string)
    requires LineTail(a) != []
    ensures LineTail(a + b) == LineTail(a) + b
  {
    if a != [] && a[0] != '\n' {
      LineTailConcat(a[1..], b);
      assert (a + b)[1..] == a[1..] + b;
    }
  }

  lemma {:induction false} SkipGap(g: string, s: string)
    requires Blank(g)
    ensures SkipBlank(g + s) == SkipBlank(s)
    decreases |g|
  {
    if g == [] {
      assert g + s == s;
    } else {
      assert (g + s)[1..] == g[1..] + s;
      if IsSpace(g[0]) {
        SkipGap(g[1..], s);
      } else {
        LineTailConcat(g[1..], s);
        SkipGap(LineTail(g[1..]), s);
      }
    }
  }

  lemma {:induction false} AtomTailConcat(tok: string, s: string)
    requires PlainToken(tok) && (s == [] || EndsAtom(s[0]))
    ensures AtomTail(tok + s) == s && Token(tok + s) == tok
  {
    if tok == [] {
      assert tok + s == s;
    } else {
      AtomTailConcat(tok[1..], s);
      assert (tok + s)[1..] == tok[1..] + s;
    }
  }

  lemma {:induction false} ReadTextConcat(b: string, s: string)
    requires IsBody(b)
    ensures ReadText(b + (['"'] + s)) == (Unquoted(b), s)
  {
    var t := ['"'] + s;
    if b == [] {
      assert b + t == t && t[1..] == s;
    } else if b[0] == '\\' {
      ReadTextConcat(b[2..], s);
      assert (b + t)[2..] == b[2..] + t;
    } else {
      ReadTextConcat(b[1..], s);
      assert (b + t)[1..] == b[1..] + t;
    }
  }

  /** A written form starts at a character that is neither blank nor closer. */
  lemma {:induction false} ShowStarts(lex: Lex, f: Form, s: string)
    requires Wf(lex, f)
    ensures Show(f) != [] && !IsCloser(Show(f)[0]) && SkipBlank(Show(f) + s) == Show(f) + s
  {
    var t := Show(f);
    assert (t + s)[0] == t[0];
    if f.Atom? { assert !EndsAtom(f.tok[0]); }
  }

  /** What follows an item can follow an atom. */
  lemma {:induction false} ShowFromStarts(lex: Lex, f: Form, k: nat)
    requires f.Brackets? && Wf(lex, f) && 0 < k <= |f.items|
    ensures ShowFrom(f, k) != [] && EndsAtom(ShowFrom(f, k)[0])
  {
    var g := if k == |f.items| then f.last else f.items[k].gap;
    assert Blank(g);
    if g != [] { assert ShowFrom(f, k)[0] == g[0]; }
  }

  lemma {:induction false} ReadToken(lex: Lex, tok: string, s: string)
    requires Wf(lex, Atom(tok)) && (s == [] || EndsAtom(s[0]))
    ensures Read(lex, tok + s) == Some((Interpret(lex, tok).value, s))
  {
    ShowStarts(lex, Atom(tok), s);
    AtomTailConcat(tok, s);
    assert !EndsAtom((tok + s)[0]);
  }

  lemma {:induction false} ReadKeyword(lex: Lex, tok: string, s: string)
    requires Wf(lex, Keyword(tok)) && (s == [] || EndsAtom(s[0]))
    ensures Read(lex, [':'] + tok + s) == Some((Kw(StrOf(lex, Interpret(lex, tok).value)), s))
  {
    var t := [':'] + tok + s;
    ShowStarts(lex, Keyword(tok), s);
    AtomTailConcat(tok, s);
    assert t[1..] == tok + s && t[0] == ':';
  }

  lemma {:induction false} ReadLiteral(lex: Lex, b: string, s: string)
    requires IsBody(b)
    ensures Read(lex, ['"'] + b + ['"'] + s) == Some((Str(Unquoted(b)), s))
  {
    var t := ['"'] + b + ['"'] + s;
    ReadTextConcat(b, s);
    assert t[1..] == b + (['"'] + s) && t[0] == '"';
    ReadQuote(lex, t);
  }

  lemma {:induction false} ReadQuote(lex: Lex, t: string)
    requires t != [] && t[0] == '"'
    ensures Read(lex, t) == (var r := ReadText(t[1..]); Some((Str(r.0), r.1)))
  {
    assert SkipBlank(t) == t;
  }

  lemma {:induction false} ReadBrackets(lex: Lex, kind: Kind, t: string, ms: seq<Datum>, s: string)
    requires ReadSeq(lex, t, Closer(kind)) == Some((ms, s))
    ensures Read(lex, [Opener(kind)] + t) == Some((Built(lex, kind, ms), s))
  {
    var all := [Opener(kind)] + t;
    assert all[0] == Opener(kind) && all[1..] == t;
    assert SkipBlank(all) == all;
  }

  /** Reading a written form gives its meaning, and leaves exactly what follows. */
  lemma {:induction false} ReadShow(lex: Lex, f: Form, s: string)
    requires Wf(lex, f) && (s == [] || EndsAtom(s[0]))
    ensures Read(lex, Show(f) + s) == Some((Meaning(lex, f), s))
    decreases f, if f.Brackets? then |f.items| + 1 else 0
  {
    match f
    case Atom(tok) => ReadToken(lex, tok, s);
    case Keyword(tok) => ReadKeyword(lex, tok, s);
    case Text(body) => ReadLiteral(lex, body, s);
    case Brackets(kind, items, last) =>
      ReadShowFrom(lex, f, 0, s);
      ReadWhole(lex, f, s);
  }

  lemma {:induction false} ReadWhole(lex: Lex, f: Form, s: string)
    requires f.Brackets? && Wf(lex, f)
    requires ReadSeq(lex, ShowFrom(f, 0) + s, Closer(f.kind)) == Some((Meanings(lex, f)[0..], s))
    ensures Read(lex, Show(f) + s) == Some((Meaning(lex, f), s))
  {
    var ms := Meanings(lex, f);
    assert ms[0..] == ms;
    ReadBrackets(lex, f.kind, ShowFrom(f, 0) + s, ms, s);
    assert Show(f) + s == [Opener(f.kind)] + (ShowFrom(f, 0) + s);
    assert Meaning(lex, f) == Built(lex, f.kind, ms);
  }

  /** One item of a written sequence, given how it and the rest of the sequence read. */
  lemma {:induction false} ReadItem(lex: Lex, kind: Kind, gap: string, f: Form, more: string, m: Datum, ms: seq<Datum>, s: string)
    requires Wf(lex, f) && Blank(gap)
    requires Read(lex, Show(f) + more) == Some((m, more))
    requires ReadSeq(lex, more, Closer(kind)) == Some((ms, s))
    ensures ReadSeq(lex, gap + (Show(f) + more), Closer(kind)) == Some(([m] + ms, s))
  {
    var close, here := Closer(kind), Show(f) + more;
    SkipIsIdempotent(lex, gap + here, close);
    SkipGap(gap, here);
    ShowStarts(lex, f, more);
    ReadSeqStep(lex, here, close);
    assert here[0] == Show(f)[0];
  }

  lemma {:induction false} ReadCloser(lex: Lex, kind: Kind, last: string, s: string)
    requires Blank(last)
    ensures ReadSeq(lex, last + [Closer(kind)] + s, Closer(kind)) == Some(([], s))
  {
    var t := [Closer(kind)] + s;
    assert last + [Closer(kind)] + s == last + t;
    SkipIsIdempotent(lex, last + t, Closer(kind));
    SkipGap(last, t);
    assert SkipBlank(t) == t && t[1..] == s;
  }

  lemma {:induction false} Regather(a: string, b: string, c: string, d: string)
    ensures a + (b + c) + d == a + (b + (c + d))
  {
  }

  lemma {:induction false} MeaningsFrom(lex: Lex, f: Form, k: nat)
    requires f.Brackets? && Wf(lex, f) && k < |f.items|
    ensures [Meaning(lex, f.items[k].form)] + Meanings(lex, f)[k + 1..] == Meanings(lex, f)[k..]
  {
  }

  lemma {:induction false} ReadShowFrom(lex: Lex, f: Form, k: nat, s: string)
    requires f.Brackets? && Wf(lex, f) && k <= |f.items|
    ensures ReadSeq(lex, ShowFrom(f, k) + s, Closer(f.kind)) == Some((Meanings(lex, f)[k..], s))
    decreases f, |f.items| - k
  {
    if k == |f.items| {
      ReadCloser(lex, f.kind, f.last, s);
      assert Meanings(lex, f)[k..] == [];
    } else {
      var item, rest := f.items[k], ShowFrom(f, k + 1);
      var m, ms := Meaning(lex, item.form), Meanings(lex, f)[k + 1..];
      ShowFromStarts(lex, f, k + 1);
      assert (rest + s)[0] == rest[0];
      ReadShow(lex, item.form, rest + s);
      ReadShowFrom(lex, f, k + 1, s);
      ReadItem(lex, f.kind, item.gap, item.form, rest + s, m, ms, s);
      Regather(item.gap, Show(item.form), rest, s);
      MeaningsFrom(lex, f, k);
    }
  }

  /** A span that is one written form is read as just that form. */
  lemma {:induction false} ReadFormsShow(lex: Lex, f: Form)
    requires Wf(lex, f)
    ensures ReadForms(lex, Show(f)) == Some([Meaning(lex, f)])
  {
    ShowStarts(lex, f, []);
    ReadShow(lex, f, []);
    assert Show(f) + [] == Show(f);
    assert ReadForms(lex, []) == Some([]);
    assert PrependForms([Meaning(lex, f)], Some([])) == Some([Meaning(lex, f)]) by {
      assert [Meaning(lex, f)] + [] == [Meaning(lex, f)];
    }
  }

  // ---- Scanning what is written ----

  function Moved(sc: Scan, n: nat): Scan {
    sc.(i := sc.i + n)
  }

  lemma {:induction false} RunToken(sc: Scan, tok: string)
    requires sc.mode == Code && PlainToken(tok)
    ensures Run(sc, tok) == Moved(sc, |tok|)
    decreases |tok|
  {
    if tok != [] {
      assert !EndsAtom(tok[0]);
      assert Step(sc, tok[0]) == Moved(sc, 1);
      RunToken(Moved(sc, 1), tok[1..]);
    }
  }

  lemma {:induction false} RunComment(sc: Scan, g: string)
    requires sc.mode == InComment && LineTail(g) != []
    ensures Run(sc, g) == Run(Moved(sc, |g| - |LineTail(g)|), LineTail(g))
    decreases |g|
  {
    if g[0] != '\n' {
      assert Step(sc, g[0]) == Moved(sc, 1);
      RunComment(Moved(sc, 1), g[1..]);
    }
  }

  lemma {:induction false} RunBlank(sc: Scan, g: string)
    requires sc.mode == Code && Blank(g)
    ensures Run(sc, g) == Moved(sc, |g|)
    decreases |g|
  {
    if g != [] {
      if IsSpace(g[0]) {
        assert Step(sc, g[0]) == Moved(sc, 1);
        RunBlank(Moved(sc, 1), g[1..]);
      } else {
        var tail := LineTail(g[1..]);
        var at := Moved(sc, |g| - |tail|);
        assert Step(sc, g[0]) == Moved(sc, 1).(mode := InComment);
        RunComment(Step(sc, g[0]), g[1..]);
        assert Step(at.(mode := InComment), tail[0]) == Step(at, tail[0]);
        assert Run(sc, g) == Run(at, tail);
        RunBlank(at, tail);
      }
    }
  }

  lemma {:induction false} RunBody(sc: Scan, b: string)
    requires sc.mode == InString && IsBody(b)
    ensures Run(sc, b) == Moved(sc, |b|)
    decreases |b|
  {
    if b != [] {
      if b[0] == '\\' {
        assert b[1..][1..] == b[2..];
        assert Step(Step(sc, b[0]), b[1]) == Moved(sc, 2);
        RunBody(Moved(sc, 2), b[2..]);
      } else {
        assert Step(sc, b[0]) == Moved(sc, 1);
        RunBody(Moved(sc, 1), b[1..]);
      }
    }
  }

  lemma {:induction false} RunVia(sc: Scan, a: string, mid: Scan, b: string, end: Scan)
    requires Run(sc, a) == mid && Run(mid, b) == end
    ensures Run(sc, a + b) == end
  {
    RunConcat(sc, a, b);
  }

  lemma {:induction false} RunOne(sc: Scan, c: char)
    ensures Run(sc, [c]) == Step(sc, c)
  {
    assert [c][1..] == [];
  }

  lemma {:induction false} RunText(sc: Scan, b: string)
    requires sc.mode == Code && IsBody(b)
    ensures Run(sc, ['"'] + b + ['"']) == Moved(sc, |b| + 2)
  {
    var inside := Moved(sc, 1).(mode := InString);
    RunOne(sc, '"');
    RunBody(inside, b);
    RunVia(sc, ['"'], inside, b, Moved(inside, |b|));
    RunOne(Moved(inside, |b|), '"');
    RunVia(sc, ['"'] + b, Moved(inside, |b|), ['"'], Moved(sc, |b| + 2));
  }

  /** The scan after a top-level span of n characters. */
  function Ended(sc: Scan, n: nat): Scan {
    Moved(sc, n).(spans := sc.spans + [(sc.i, sc.i + n)])
  }

  /** An opening bracket, n characters passed over, and its closer: inside a span, and around one. */
  lemma {:induction false} BracketSteps(sc: Scan, kind: Kind, n: nat)
    requires sc.mode == Code
    ensures sc.depth > 0 || kind != Curly ==> Step(sc, Opener(kind)).mode == Code && Step(sc, Opener(kind)).depth > 0
    ensures sc.depth > 0 ==> Step(Moved(Step(sc, Opener(kind)), n), Closer(kind)) == Moved(sc, n + 2)
    ensures sc.depth == 0 && sc.start == -1 && kind != Curly ==>
      Step(Moved(Step(sc, Opener(kind)), n), Closer(kind)) == Ended(sc, n + 2)
  {
  }

  predicate Inside(sc: Scan) {
    sc.mode == Code && sc.depth > 0
  }

  predicate PassedAt(sc: Scan, s: string) {
    Run(sc, s) == Moved(sc, |s|)
  }

  predicate ClosesAt(sc: Scan, s: string, close: char)
    requires s != []
  {
    Run(sc, s) == Step(Moved(sc, |s| - 1), close)
  }

  /** Inside a span the scan passes over s. */
  ghost predicate Passed(s: string) {
    forall sc :: Inside(sc) ==> PassedAt(sc, s)
  }

  /** Inside a span the scan passes over all of s but its last character, which closes a bracket. */
  ghost predicate Closes(s: string, close: char) {
    s != [] && forall sc :: Inside(sc) ==> ClosesAt(sc, s, close)
  }

  lemma {:induction false} PassedThenCloses(a: string, b: string, close: char)
    requires Passed(a) && Closes(b, close)
    ensures Closes(a + b, close)
  {
    forall sc | Inside(sc) ensures ClosesAt(sc, a + b, close) {
      assert PassedAt(sc, a) && ClosesAt(Moved(sc, |a|), b, close);
      RunVia(sc, a, Moved(sc, |a|), b, Step(Moved(sc, |a + b| - 1), close));
    }
  }

  lemma {:induction false} PassedTwo(a: string, b: string)
    requires Passed(a) && Passed(b)
    ensures Passed(a + b)
  {
    forall sc | Inside(sc) ensures PassedAt(sc, a + b) {
      assert PassedAt(sc, a) && PassedAt(Moved(sc, |a|), b);
      RunVia(sc, a, Moved(sc, |a|), b, Moved(sc, |a + b|));
    }
  }

  lemma {:induction false} PassedBlank(g: string)
    requires Blank(g)
    ensures Passed(g)
  {
    forall sc | Inside(sc) ensures PassedAt(sc, g) {
      RunBlank(sc, g);
    }
  }

  lemma {:induction false} PassedToken(tok: string)
    requires PlainToken(tok)
    ensures Passed(tok) && Passed([':'] + tok)
  {
    forall sc | Inside(sc) ensures PassedAt(sc, tok) {
      RunToken(sc, tok);
    }
    forall sc | Inside(sc) ensures PassedAt(sc, [':']) {
      RunOne(sc, ':');
    }
    PassedTwo([':'], tok);
  }

  lemma {:induction false} PassedText(b: string)
    requires IsBody(b)
    ensures Passed(['"'] + b + ['"'])
  {
    forall sc | Inside(sc) ensures PassedAt(sc, ['"'] + b + ['"']) {
      RunText(sc, b);
    }
  }

  lemma {:induction false} PassedBrackets(kind: Kind, inside: string)
    requires Closes(inside, Closer(kind))
    ensures Passed([Opener(kind)] + inside)
  {
    forall sc | Inside(sc) ensures PassedAt(sc, [Opener(kind)] + inside) {
      var at := Step(sc, Opener(kind));
      BracketSteps(sc, kind, |inside| - 1);
      RunOne(sc, Opener(kind));
      assert ClosesAt(at, inside, Closer(kind));
      RunVia(sc, [Opener(kind)], at, inside, Moved(sc, |inside| + 1));
    }
  }

  lemma {:induction false} ClosesLast(last: string, kind: Kind)
    requires Blank(last)
    ensures Closes(last + [Closer(kind)], Closer(kind))
  {
    var close := Closer(kind);
    forall sc | Inside(sc) ensures ClosesAt(sc, [close], close) {
      RunOne(sc, close);
    }
    PassedBlank(last);
    PassedThenCloses(last, [close], close);
  }

  /** Inside a span a written form is passed over: its brackets balance, and those in its strings and
      comments do not count. */
  lemma {:induction false} RunShow(lex: Lex, f: Form)
    requires Wf(lex, f)
    ensures Passed(Show(f))
    decreases f, if f.Brackets? then |f.items| + 1 else 0
  {
    match f
    case Atom(tok) => PassedToken(tok);
    case Keyword(tok) => PassedToken(tok);
    case Text(body) => PassedText(body);
    case Brackets(kind, items, last) =>
      RunShowFrom(lex, f, 0);
      PassedBrackets(kind, ShowFrom(f, 0));
  }

  lemma {:induction false} RunShowFrom(lex: Lex, f: Form, k: nat)
    requires f.Brackets? && Wf(lex, f) && k <= |f.items|
    ensures Closes(ShowFrom(f, k), Closer(f.kind))
    decreases f, |f.items| - k
  {
    if k == |f.items| {
      ClosesLast(f.last, f.kind);
    } else {
      RunShow(lex, f.items[k].form);
      RunShowFrom(lex, f, k + 1);
      PassedBlank(f.items[k].gap);
      PassedThenCloses(Show(f.items[k].form), ShowFrom(f, k + 1), Closer(f.kind));
      PassedThenCloses(f.items[k].gap, Show(f.items[k].form) + ShowFrom(f, k + 1), Closer(f.kind));
    }
  }

  /** At the top level a written list or vector is one span. */
  lemma {:induction false} RunTop(lex: Lex, sc: Scan, f: Form)
    requires f.Brackets? && f.kind != Curly && Wf(lex, f) && sc.mode == Code && sc.depth == 0 && sc.start == -1
    ensures Run(sc, Show(f)) == Ended(sc, |Show(f)|)
  {
    var inside := ShowFrom(f, 0);
    BracketSteps(sc, f.kind, 0);
    RunShowFrom(lex, f, 0);
    assert ClosesAt(Step(sc, Opener(f.kind)), inside, Closer(f.kind));
    RunEnclosed(sc, f.kind, inside);
    assert Show(f) == [Opener(f.kind)] + inside;
  }

  /** The closing of a top-level span. */
  lemma {:induction false} RunEnclosed(sc: Scan, kind: Kind, inside: string)
    requires kind != Curly && sc.mode == Code && sc.depth == 0 && sc.start == -1 && inside != []
    requires Run(Step(sc, Opener(kind)), inside) == Step(Moved(Step(sc, Opener(kind)), |inside| - 1), Closer(kind))
    ensures Run(sc, [Opener(kind)] + inside) == Ended(sc, |inside| + 1)
  {
    BracketSteps(sc, kind, |inside| - 1);
    RunOne(sc, Opener(kind));
    RunVia(sc, [Opener(kind)], Step(sc, Opener(kind)), inside,
           Step(Moved(Step(sc, Opener(kind)), |inside| - 1), Closer(kind)));
  }

  // ---- Replies ----

  /** Text outside spans: no bracket is opened outside its strings and comments. */
  predicate Quiet(m: Mode, g: string)
    decreases |g|
  {
    g == [] || (!(m == Code && Opens(g[0])) && Quiet(NextMode(m, g[0]), g[1..]))
  }

  function EndMode(m: Mode, g: string): Mode
    decreases |g|
  {
    if g == [] then m else EndMode(NextMode(m, g[0]), g[1..])
  }

  lemma {:induction false} RunQuiet(sc: Scan, g: string)
    requires sc.depth == 0 && Quiet(sc.mode, g)
    ensures Run(sc, g) == Moved(sc, |g|).(mode := EndMode(sc.mode, g))
    decreases |g|
  {
    if g != [] {
      assert Step(sc, g[0]) == Moved(sc, 1).(mode := NextMode(sc.mode, g[0]));
      RunQuiet(Step(sc, g[0]), g[1..]);
    }
  }

  /** A form and the prose before it. */
  datatype Part = Part(prose: string, form: Form)

  predicate WfPart(lex: Lex, p: Part) {
    && Quiet(Code, p.prose) && EndMode(Code, p.prose) == Code
    && p.form.Brackets? && p.form.kind != Curly && Wf(lex, p.form)
  }

  function TextOf(parts: seq<Part>, tail: string): string {
    if parts == [] then tail
    else parts[0].prose + (Show(parts[0].form) + TextOf(parts[1..], tail))
  }

  function PlacesOf(parts: seq<Part>, at: nat): (ps: seq<(int, int)>)
    ensures |ps| == |parts|
  {
    if parts == [] then []
    else
      var from := at + |parts[0].prose|;
      var to := from + |Show(parts[0].form)|;
      [(from, to)] + PlacesOf(parts[1..], to)
  }

  lemma {:induction false} RunDocument(lex: Lex, sc: Scan, parts: seq<Part>, tail: string)
    requires forall i :: 0 <= i < |parts| ==> WfPart(lex, parts[i])
    requires Quiet(Code, tail) && sc.mode == Code && sc.depth == 0 && sc.start == -1
    ensures Run(sc, TextOf(parts, tail)).spans == sc.spans + PlacesOf(parts, sc.i)
    decreases |parts|
  {
    if parts == [] {
      RunQuiet(sc, tail);
    } else {
      var sc2 := Ended(Moved(sc, |parts[0].prose|), |Show(parts[0].form)|);
      RunDocument(lex, sc2, parts[1..], tail);
      RunFirst(lex, sc, parts[0], TextOf(parts[1..], tail), PlacesOf(parts[1..], sc2.i));
    }
  }

  /** The first part of a reply, given what the rest of it adds. */
  lemma {:induction false} RunFirst(lex: Lex, sc: Scan, part: Part, more: string, ps: seq<(int, int)>)
    requires WfPart(lex, part) && sc.mode == Code && sc.depth == 0 && sc.start == -1
    requires var sc2 := Ended(Moved(sc, |part.prose|), |Show(part.form)|); Run(sc2, more).spans == sc2.spans + ps
    ensures var from := sc.i + |part.prose|; var to := from + |Show(part.form)|;
      Run(sc, part.prose + (Show(part.form) + more)).spans == sc.spans + ([(from, to)] + ps)
  {
    var sc1 := Moved(sc, |part.prose|);
    var sc2 := Ended(sc1, |Show(part.form)|);
    RunQuiet(sc, part.prose);
    RunTop(lex, sc1, part.form);
    RunPart(sc, part.prose, sc1, Show(part.form), sc2, more, (sc1.i, sc2.i), ps);
  }

  lemma {:induction false} RunPart(sc: Scan, prose: string, sc1: Scan, here: string, sc2: Scan, more: string, p: (int, int), ps: seq<(int, int)>)
    requires Run(sc, prose) == sc1 && Run(sc1, here) == sc2
    requires sc2.spans == sc.spans + [p] && Run(sc2, more).spans == sc2.spans + ps
    ensures Run(sc, prose + (here + more)).spans == sc.spans + ([p] + ps)
  {
    RunVia(sc1, here, sc2, more, Run(sc2, more));
    RunVia(sc, prose, sc1, here + more, Run(sc2, more));
    assert sc.spans + [p] + ps == sc.spans + ([p] + ps);
  }

  lemma {:induction false} Regroup(a: string, b: string, c: string, d: string)
    ensures a + (b + (c + d)) == a + b + c + d
    ensures (a + b + c + d)[|a + b|..|a + b + c|] == c
  {
  }

  lemma {:induction false} PlacesShow(before: string, parts: seq<Part>, tail: string, k: nat)
    requires k < |parts|
    ensures var p := PlacesOf(parts, |before|)[k];
      0 <= p.0 <= p.1 <= |before + TextOf(parts, tail)|
      && (before + TextOf(parts, tail))[p.0..p.1] == Show(parts[k].form)
    decreases |parts|
  {
    var prose, here, more := parts[0].prose, Show(parts[0].form), TextOf(parts[1..], tail);
    var text := before + TextOf(parts, tail);
    Regroup(before, prose, here, more);
    assert text == before + prose + here + more;
    if k > 0 {
      PlacesShow(before + prose + here, parts[1..], tail, k - 1);
    }
  }

  function Shown(parts: seq<Part>): (r: seq<string>)
    ensures |r| == |parts|
  {
    seq(|parts|, i requires 0 <= i < |parts| => Show(parts[i].form))
  }

  /** The spans of a reply are its written forms, whatever prose and comments stand between them. */
  lemma {:induction false} SpansOfDocument(lex: Lex, parts: seq<Part>, tail: string)
    requires forall i :: 0 <= i < |parts| ==> WfPart(lex, parts[i])
    requires Quiet(Code, tail)
    ensures SpanTexts(TextOf(parts, tail)) == Shown(parts)
  {
    var text := TextOf(parts, tail);
    RunDocument(lex, BEGIN, parts, tail);
    assert Spans(text) == PlacesOf(parts, 0);
    forall k | 0 <= k < |parts| ensures SpanTexts(text)[k] == Show(parts[k].form) {
      PlacesShow([], parts, tail, k);
      assert [] + text == text;
    }
  }

  function CallsIn(lex: Lex, parts: seq<Part>): seq<Call>
    requires forall i :: 0 <= i < |parts| ==> WfPart(lex, parts[i])
  {
    if parts == [] then []
    else
      var n := |parts| - 1;
      assert WfPart(lex, parts[n]);
      CallsIn(lex, parts[..n]) + Calls(Meaning(lex, parts[n].form))
  }

  lemma {:induction false} AllCallsShown(lex: Lex, parts: seq<Part>)
    requires forall i :: 0 <= i < |parts| ==> WfPart(lex, parts[i])
    ensures AllCalls(lex, Shown(parts)) == CallsIn(lex, parts)
  {
    if parts != [] {
      var n := |parts| - 1;
      AllCallsShown(lex, parts[..n]);
      assert Shown(parts)[..n] == Shown(parts[..n]);
      var m := Meaning(lex, parts[n].form);
      assert WfPart(lex, parts[n]);
      ReadFormsShow(lex, parts[n].form);
      assert CallsWithin(Vec([m]), 1) == CallsWithin(Vec([m]), 0) + Calls(m);
      assert [] + Calls(m) == Calls(m);
    }
  }

  /** The parser returns the calls of the written forms, in order. */
  lemma {:induction false} ParsedDocument(lex: Lex, parts: seq<Part>, tail: string)
    requires forall i :: 0 <= i < |parts| ==> WfPart(lex, parts[i])
    requires Quiet(Code, tail)
    ensures Parsed(lex, TextOf(parts, tail), [], true) == Natives(CallsIn(lex, parts))
  {
    SpansOfDocument(lex, parts, tail);
    AllCallsShown(lex, parts);
    NoCandidates(CallsIn(lex, parts));
  }

  // ---- Calls with native arguments ----

  ghost predicate DistinctKeys(es: seq<(string, Datum)>) {
    forall i, j :: 0 <= i < j < |es| ==> es[i].0 != es[j].0
  }

  /** f is a layout of the native value d: strings, also as keywords or symbols, numbers, booleans, nil, vectors, also as
      lists, and maps whose keys are distinct. A key may be written in any way that names it. */
  ghost predicate Lays(lex: Lex, f: Form, d: Datum)
    requires Wf(lex, f)
    decreases d
  {
    match d
    case Nil => f.Atom? && Interpret(lex, f.tok) == Some(d)
    case Bool(_) => f.Atom? && Interpret(lex, f.tok) == Some(d)
    case Int(_) => f.Atom? && Interpret(lex, f.tok) == Some(d)
    case Float(_) => f.Atom? && Interpret(lex, f.tok) == Some(d)
    case Str(t) =>
      || (f.Text? && Unquoted(f.body) == t)
      || (f.Keyword? && KeyName(lex, Meaning(lex, f)) == t)
      || (f.Atom? && Interpret(lex, f.tok) == Some(Sym(t)))
    case Vec(ds) =>
      f.Brackets? && f.kind != Curly && |f.items| == |ds|
      && forall i :: 0 <= i < |ds| ==> Lays(lex, f.items[i].form, ds[i])
    case Dict(es) =>
      f.Brackets? && f.kind == Curly && |f.items| == 2 * |es|
      && DistinctKeys(es)
      && forall i :: 0 <= i < |es| ==>
        Wf(lex, f.items[2 * i].form) && KeyName(lex, Meaning(lex, f.items[2 * i].form)) == es[i].0
        && Wf(lex, f.items[2 * i + 1].form) && Lays(lex, f.items[2 * i + 1].form, es[i].1)
    case _ => false
  }

  lemma {:induction false} DictSetFresh(es: seq<(string, Datum)>, k: string, v: Datum)
    requires forall i :: 0 <= i < |es| ==> es[i].0 != k
    ensures DictSet(es, k, v) == es + [(k, v)]
  {
    if es != [] { DictSetFresh(es[1..], k, v); }
  }

  /** The k-th pair of a map's items. */
  ghost predicate PairReads(lex: Lex, ms: seq<Datum>, k: nat, e: (string, Datum)) {
    2 * k + 1 < |ms| && KeyName(lex, ms[2 * k]) == e.0 && Pyify(ms[2 * k + 1]) == e.1
  }

  lemma {:induction false} PairsMore(lex: Lex, ms: seq<Datum>, k: nat, e: (string, Datum))
    requires PairReads(lex, ms, k, e)
    ensures Pairs(lex, ms, k + 1) == DictSet(Pairs(lex, ms, k), e.0, e.1)
  {
    assert 2 * (k + 1) - 2 == 2 * k && 2 * (k + 1) - 1 == 2 * k + 1;
  }

  /** With distinct keys the dict is its written pairs. */
  lemma {:induction false} PairsDistinct(lex: Lex, ms: seq<Datum>, es: seq<(string, Datum)>)
    requires 2 * |es| <= |ms| && DistinctKeys(es)
    requires forall i :: 0 <= i < |es| ==> PairReads(lex, ms, i, es[i])
    ensures Pairs(lex, ms, |es|) == es
  {
    if es != [] {
      var init, last := es[..|es| - 1], es[|es| - 1];
      PairsDistinct(lex, ms, init);
      PairsNext(lex, ms, init, last);
      assert es == init + [last];
    }
  }

  lemma {:induction false} PairsNext(lex: Lex, ms: seq<Datum>, es: seq<(string, Datum)>, e: (string, Datum))
    requires 2 * |es| <= |ms| && Pairs(lex, ms, |es|) == es && PairReads(lex, ms, |es|, e)
    requires forall i :: 0 <= i < |es| ==> es[i].0 != e.0
    ensures Pairs(lex, ms, |es| + 1) == es + [e]
  {
    DictSetFresh(es, e.0, e.1);
    PairsMore(lex, ms, |es|, e);
  }

  /** A laid out value is read as itself, and is left alone when arguments are made native again. */
  lemma {:induction false} LaysMeans(lex: Lex, f: Form, d: Datum)
    requires Wf(lex, f) && Lays(lex, f, d)
    ensures Pyify(Meaning(lex, f)) == d && Pyify(d) == d
    ensures d.Dict? ==> Meaning(lex, f) == d
    decreases d
  {
    match d
    case Vec(ds) =>
      forall i | 0 <= i < |ds| ensures Pyify(Meanings(lex, f)[i]) == ds[i] && Pyify(ds[i]) == ds[i] {
        LaysMeans(lex, f.items[i].form, ds[i]);
      }
      assert Pyify(d).items == ds;
      assert Pyify(Meaning(lex, f)).items == ds;
    case Dict(es) =>
      forall i | 0 <= i < |es| ensures PairReads(lex, Meanings(lex, f), i, es[i]) && Pyify(es[i].1) == es[i].1 {
        LaysMeans(lex, f.items[2 * i + 1].form, es[i].1);
      }
      assert Pyify(d).entries == es;
      DictReads(lex, Meanings(lex, f), es);
    case _ =>
  }

  lemma {:induction false} DictReads(lex: Lex, ms: seq<Datum>, es: seq<(string, Datum)>)
    requires |ms| == 2 * |es| && DistinctKeys(es)
    requires forall i :: 0 <= i < |es| ==> PairReads(lex, ms, i, es[i])
    ensures Pairs(lex, ms, |ms| / 2) == es
  {
    PairsDistinct(lex, ms, es);
  }

  /** `(name {...})`, in any layout. */
  ghost predicate WritesCall(lex: Lex, f: Form, c: Call)
    requires Wf(lex, f)
  {
    && f.Brackets? && f.kind == Round && |f.items| == 2
    && f.items[0].form == Atom(c.name) && Interpret(lex, c.name) == Some(Sym(c.name))
    && Wf(lex, f.items[1].form) && Lays(lex, f.items[1].form, Dict(c.args))
  }

  lemma {:induction false} WrittenCall(lex: Lex, f: Form, c: Call)
    requires Wf(lex, f) && WritesCall(lex, f, c)
    ensures Calls(Meaning(lex, f)) == [c] && Native(c) == c
  {
    var head, args := f.items[0].form, f.items[1].form;
    assert Wf(lex, head) && Meaning(lex, head) == Sym(c.name);
    LaysMeans(lex, args, Dict(c.args));
    assert Meanings(lex, f) == [Sym(c.name), Dict(c.args)];
    CallOfTwo(c);
  }

  lemma {:induction false} WrittenPart(lex: Lex, p: Part, c: Call)
    requires WfPart(lex, p) && WritesCall(lex, p.form, c)
    ensures Calls(Meaning(lex, p.form)) == [c]
  {
    WrittenCall(lex, p.form, c);
  }

  lemma {:induction false} CallOfTwo(c: Call)
    ensures Calls(List([Sym(c.name), Dict(c.args)])) == [c]
  {
    assert [Sym(c.name), Dict(c.args)][1..] == [Dict(c.args)];
  }

  lemma {:induction false} CallsInMore(lex: Lex, parts: seq<Part>, calls: seq<Call>)
    requires parts != [] && |calls| == |parts| && forall i :: 0 <= i < |parts| ==> WfPart(lex, parts[i])
    requires var n := |parts| - 1;
      WfPart(lex, parts[n]) && CallsIn(lex, parts[..n]) == calls[..n] && Calls(Meaning(lex, parts[n].form)) == [calls[n]]
    ensures CallsIn(lex, parts) == calls
  {
    assert calls == calls[..|parts| - 1] + [calls[|parts| - 1]];
  }

  lemma {:induction false} WrittenCalls(lex: Lex, parts: seq<Part>, calls: seq<Call>)
    requires |calls| == |parts|
    requires forall i :: 0 <= i < |parts| ==> WfPart(lex, parts[i]) && WritesCall(lex, parts[i].form, calls[i])
    ensures CallsIn(lex, parts) == calls
  {
    if parts != [] {
      var n := |parts| - 1;
      WrittenCalls(lex, parts[..n], calls[..n]);
      WrittenPart(lex, parts[n], calls[n]);
      CallsInMore(lex, parts, calls);
    }
  }

  lemma {:induction false} WrittenNatives(lex: Lex, parts: seq<Part>, calls: seq<Call>)
    requires |calls| == |parts|
    requires forall i :: 0 <= i < |parts| ==> WfPart(lex, parts[i]) && WritesCall(lex, parts[i].form, calls[i])
    ensures Natives(calls) == calls
  {
    forall i | 0 <= i < |calls| ensures Native(calls[i]) == calls[i] {
      assert WfPart(lex, parts[i]);
      WrittenCall(lex, parts[i].form, calls[i]);
    }
  }

  /** Any list of calls, each written in any layout, between any prose that opens no bracket and any
      comment lines, is parsed back: those calls, in order, with those arguments. */
  lemma {:induction false} RoundTrip(lex: Lex, parts: seq<Part>, tail: string, calls: seq<Call>)
    requires |calls| == |parts| && Quiet(Code, tail)
    requires forall i :: 0 <= i < |parts| ==> WfPart(lex, parts[i]) && WritesCall(lex, parts[i].form, calls[i])
    ensures Parsed(lex, TextOf(parts, tail), [], true) == calls
    ensures calls != [] ==> Parsed(lex, TextOf(parts, tail), [], false) == [calls[|calls| - 1]]
  {
    CandidateRoundTrip(lex, parts, tail, calls, [], []);
  }

  /** The same with candidates: the calls that name one, up to '.' and '_', in order, or all where none does. */
  lemma {:induction false} CandidateRoundTrip(lex: Lex, parts: seq<Part>, tail: string, calls: seq<Call>, candidates: seq<string>,
                                              js: seq<nat>)
    requires |calls| == |parts| && Quiet(Code, tail) && Picks(js, calls, candidates)
    requires forall i :: 0 <= i < |parts| ==> WfPart(lex, parts[i]) && WritesCall(lex, parts[i].form, calls[i])
    ensures var reply := TextOf(parts, tail);
      && Parsed(lex, reply, candidates, true) == (if js == [] then calls else seq(|js|, a requires 0 <= a < |js| => calls[js[a]]))
      && (js != [] ==> Parsed(lex, reply, candidates, false) == [calls[js[|js| - 1]]])
      && (js == [] && calls != [] ==> Parsed(lex, reply, candidates, false) == [calls[|calls| - 1]])
  {
    SpansOfDocument(lex, parts, tail);
    AllCallsShown(lex, parts);
    WrittenCalls(lex, parts, calls);
    WrittenNatives(lex, parts, calls);
    ChosenPicked(calls, candidates, js);
  }

  // ---- Strings and keys ----

  function QuoteChar(c: char): string {
    if c == '"' then "\\\"" else if c == '\\' then "\\\\" else if c == '\n' then "\\n"
    else if c == '\t' then "\\t" else if c == '\r' then "\\r" else [c]
  }

  function Quote(t: string): string {
    if t == [] then [] else QuoteChar(t[0]) + Quote(t[1..])
  }

  /** Every string has a literal. */
  lemma {:induction false} QuoteIsBody(t: string)
    ensures IsBody(Quote(t)) && Unquoted(Quote(t)) == t
  {
    if t != [] {
      QuoteIsBody(t[1..]);
      QuotedChar(t[0], Quote(t[1..]));
    }
  }

  lemma {:induction false} QuotedChar(c: char, b: string)
    requires IsBody(b)
    ensures IsBody(QuoteChar(c) + b) && Unquoted(QuoteChar(c) + b) == [c] + Unquoted(b)
  {
    if c == '"' {
      Escaped('"', b);
    } else if c == '\\' {
      Escaped('\\', b);
    } else if c == '\n' {
      Escaped('n', b);
    } else if c == '\t' {
      Escaped('t', b);
    } else if c == '\r' {
      Escaped('r', b);
    } else {
      assert ([c] + b)[1..] == b;
    }
  }

  lemma {:induction false} Escaped(e: char, b: string)
    requires IsBody(b)
    ensures IsBody(['\\', e] + b) && Unquoted(['\\', e] + b) == [Unescape(e)] + Unquoted(b)
  {
    var s := ['\\', e] + b;
    assert s[2..] == b;
  }

  /** Exactly when a slash-free keyword names its own token: not for true, false and nil, which come back
      as Python prints them, nor for a number that is printed another way. */
  lemma {:induction false} KeywordNames(lex: Lex, tok: string)
    requires Wf(lex, Keyword(tok)) && '/' !in tok
    requires forall r :: Interpret(lex, tok) == Some(Float(r)) ==> '/' !in r
    ensures KeyName(lex, Meaning(lex, Keyword(tok))) == tok <==>
      tok !in ["true", "false", "nil"]
      && (forall n :: Interpret(lex, tok) == Some(Int(n)) ==> IntText(n) == tok)
      && (forall r :: Interpret(lex, tok) == Some(Float(r)) ==> r == tok)
  {
    var v := Interpret(lex, tok).value;
    if v.Int? {
      assert '/' !in IntText(v.n);
    }
  }

  /** `:true` is read as the name "True". */
  lemma {:induction false} TrueKeyword(lex: Lex)
    ensures Wf(lex, Keyword("true")) && KeyName(lex, Meaning(lex, Keyword("true"))) == "True"
  {
    LiteralTokens(lex);
    assert '/' !in "True";
  }

  // ---- A printer ----

  /** A value that can be printed: its integers are not longer than int() takes, its keys are distinct plain tokens
      that are not themselves literals. */
  ghost predicate Printable(lex: Lex, maxDigits: nat, d: Datum)
    decreases d
  {
    match d
    case Nil => true
    case Bool(_) => true
    case Int(n) => |Unsigned(IntText(n))| <= maxDigits
    case Str(_) => true
    case Vec(ds) => forall i :: 0 <= i < |ds| ==> Printable(lex, maxDigits, ds[i])
    case Dict(es) =>
      DistinctKeys(es) && forall i :: 0 <= i < |es| ==> PlainKey(lex, es[i].0) && Printable(lex, maxDigits, es[i].1)
    case _ => false
  }

  ghost predicate PlainKey(lex: Lex, k: string) {
    PlainToken(k) && '/' !in k && Interpret(lex, k) == Some(Sym(k))
  }

  function Printed(d: Datum): Form
    decreases d
  {
    match d
    case Nil => Atom("nil")
    case Bool(b) => Atom(if b then "true" else "false")
    case Int(n) => Atom(IntText(n))
    case Str(t) => Text(Quote(t))
    case Vec(ds) => Brackets(Square, seq(|ds|, i requires 0 <= i < |ds| => Item(" ", Printed(ds[i]))), "")
    case Dict(es) => Brackets(Curly, PrintedPairs(d, |es|), "")
    case _ => Atom("nil")
  }

  function PrintedPairs(d: Datum, n: nat): (items: seq<Item>)
    requires d.Dict? && n <= |d.entries|
    ensures |items| == 2 * n
    decreases d, n
  {
    if n == 0 then []
    else
      PrintedPairs(d, n - 1) + [Item(" ", Keyword(d.entries[n - 1].0)), Item(" ", Printed(d.entries[n - 1].1))]
  }

  lemma {:induction false} PrintedPairsAt(d: Datum, n: nat, i: nat)
    requires d.Dict? && i < n <= |d.entries|
    ensures PrintedPairs(d, n)[2 * i] == Item(" ", Keyword(d.entries[i].0))
    ensures PrintedPairs(d, n)[2 * i + 1] == Item(" ", Printed(d.entries[i].1))
  {
    if i < n - 1 { PrintedPairsAt(d, n - 1, i); }
  }

  lemma {:induction false} LiteralTokens(lex: Lex)
    ensures Interpret(lex, "nil") == Some(Nil) && Wf(lex, Atom("nil"))
    ensures Interpret(lex, "true") == Some(Bool(true)) && Wf(lex, Atom("true"))
    ensures Interpret(lex, "false") == Some(Bool(false)) && Wf(lex, Atom("false"))
  {
    WordIsPlain("nil");
    WordIsPlain("true");
    WordIsPlain("false");
  }

  lemma {:induction false} WordIsPlain(w: string)
    requires forall i :: 0 <= i < |w| ==> 'a' <= w[i] <= 'z'
    ensures PlainToken(w) && (w != [] ==> !IsMacro(w[0]) && w[0] != ':')
  {
  }

  /** A printed integer is read back, if int() takes that many digits. */
  lemma {:induction false} NumeralsRead(lex: Lex, maxDigits: nat, n: int)
    requires |Unsigned(IntText(n))| <= maxDigits
    ensures var py := AsciiLex(lex, maxDigits);
      Interpret(py, IntText(n)) == Some(Int(n)) && Wf(py, Atom(IntText(n)))
  {
    var tok, py := IntText(n), AsciiLex(lex, maxDigits);
    var body := Unsigned(tok);
    NumeralBody(n);
    NumeralPlain(tok, body);
    assert py.toInt(tok) == ReadInt(maxDigits, tok);
    assert forall i :: 0 <= i < |body| ==> py.digit(body[i]);
  }

  lemma {:induction false} NumeralBody(n: int)
    ensures var tok := IntText(n);
      var body := Unsigned(tok);
      && AllDigits(body) && body != [] && tok == (if n < 0 then "-" + body else body)
      && Value(body) == if n < 0 then 0 - n else n
  {
    var m: nat := if n < 0 then 0 - n else n;
    ValueOfNumeral(m);
    assert IsDigit(Numeral(m)[0]);
    assert ("-" + Numeral(m))[1..] == Numeral(m);
  }

  lemma {:induction false} NumeralPlain(tok: string, body: string)
    requires AllDigits(body) && body != [] && (tok == body || tok == "-" + body)
    ensures PlainToken(tok) && !IsMacro(tok[0]) && tok[0] != ':' && tok !in ["true", "false", "nil"]
  {
    forall i | 0 <= i < |tok| ensures IsDigit(tok[i]) || tok[i] == '-' {
      if tok != body && i > 0 { assert tok[i] == body[i - 1]; }
    }
  }

  /** Printed integers are read as themselves. */
  ghost predicate ReadsNumerals(lex: Lex, maxDigits: nat) {
    forall n: int :: |Unsigned(IntText(n))| <= maxDigits ==>
      Interpret(lex, IntText(n)) == Some(Int(n)) && Wf(lex, Atom(IntText(n)))
  }

  /** A printed value is a layout of it. */
  lemma {:induction false} PrintedLays(lex: Lex, maxDigits: nat, d: Datum)
    requires ReadsNumerals(lex, maxDigits) && Printable(lex, maxDigits, d)
    ensures Wf(lex, Printed(d)) && Lays(lex, Printed(d), d)
    decreases d
  {
    LiteralTokens(lex);
    match d
    case Str(t) => QuoteIsBody(t);
    case Vec(ds) =>
      forall i | 0 <= i < |ds| ensures Wf(lex, Printed(ds[i])) && Lays(lex, Printed(ds[i]), ds[i]) {
        PrintedLays(lex, maxDigits, ds[i]);
      }
    case Dict(es) => PrintedDict(lex, maxDigits, d);
    case _ =>
  }

  lemma {:induction false} PrintedDict(lex: Lex, maxDigits: nat, d: Datum)
    requires d.Dict? && ReadsNumerals(lex, maxDigits) && Printable(lex, maxDigits, d)
    ensures Wf(lex, Printed(d)) && Lays(lex, Printed(d), d)
    decreases d, 0
  {
    var es, items := d.entries, PrintedPairs(d, |d.entries|);
    forall i | 0 <= i < |es|
      ensures PairLays(lex, items[2 * i], items[2 * i + 1], es[i])
    {
      PrintedPairsAt(d, |es|, i);
      PrintedLays(lex, maxDigits, es[i].1);
      PrintedPair(lex, es[i]);
    }
    PairsLay(lex, items, d);
  }

  lemma {:induction false} PrintedPair(lex: Lex, e: (string, Datum))
    requires PlainKey(lex, e.0) && Wf(lex, Printed(e.1)) && Lays(lex, Printed(e.1), e.1)
    ensures PairLays(lex, Item(" ", Keyword(e.0)), Item(" ", Printed(e.1)), e)
  {
    assert Meaning(lex, Keyword(e.0)) == Kw(e.0);
  }

  lemma {:induction false} SpacedItems(lex: Lex, items: seq<Item>)
    requires forall k :: 0 <= k < |items| ==> items[k].gap == " " && Wf(lex, items[k].form)
    ensures Wf(lex, Brackets(Curly, items, ""))
  {
    assert Blank(" ");
  }

  lemma {:induction false} PairsLay(lex: Lex, items: seq<Item>, d: Datum)
    requires d.Dict? && |items| == 2 * |d.entries| && DistinctKeys(d.entries)
    requires forall i :: 0 <= i < |d.entries| ==> PairLays(lex, items[2 * i], items[2 * i + 1], d.entries[i])
    ensures var f := Brackets(Curly, items, ""); Wf(lex, f) && Lays(lex, f, d)
  {
    var es, f := d.entries, Brackets(Curly, items, "");
    forall k | 0 <= k < |items| ensures items[k].gap == " " && Wf(lex, items[k].form) {
      var i := k / 2;
      assert PairLays(lex, items[2 * i], items[2 * i + 1], es[i]);
      assert k == 2 * i || k == 2 * i + 1;
    }
    SpacedItems(lex, items);
    forall i | 0 <= i < |es|
      ensures Wf(lex, items[2 * i].form) && KeyName(lex, Meaning(lex, items[2 * i].form)) == es[i].0
      ensures Wf(lex, items[2 * i + 1].form) && Lays(lex, items[2 * i + 1].form, es[i].1)
    {
      assert PairLays(lex, items[2 * i], items[2 * i + 1], es[i]);
    }
  }

  ghost predicate PairLays(lex: Lex, k: Item, v: Item, e: (string, Datum)) {
    && k.gap == " " && Wf(lex, k.form) && KeyName(lex, Meaning(lex, k.form)) == e.0
    && v.gap == " " && Wf(lex, v.form) && Lays(lex, v.form, e.1)
  }

  ghost predicate PrintableCall(lex: Lex, maxDigits: nat, c: Call) {
    Wf(lex, Atom(c.name)) && Interpret(lex, c.name) == Some(Sym(c.name)) && Printable(lex, maxDigits, Dict(c.args))
  }

  function PrintedCall(c: Call): Form {
    Brackets(Round, [Item("", Atom(c.name)), Item(" ", Printed(Dict(c.args)))], "")
  }

  /** Each call on a line of its own, after a comment line. */
  function PrintedReply(calls: seq<Call>, comments: seq<string>): (parts: seq<Part>)
    requires |comments| == |calls|
  {
    seq(|calls|, i requires 0 <= i < |calls| => Part([';'] + comments[i] + ['\n'], PrintedCall(calls[i])))
  }

  lemma {:induction false} CommentQuiet(c: string)
    requires '\n' !in c
    ensures Quiet(InComment, c + ['\n']) && EndMode(InComment, c + ['\n']) == Code
  {
    if c != [] {
      CommentQuiet(c[1..]);
      assert (c + ['\n'])[1..] == c[1..] + ['\n'];
    } else {
      assert c + ['\n'] == ['\n'];
    }
  }

  lemma {:induction false} PrintedPart(lex: Lex, maxDigits: nat, c: Call, comment: string)
    requires ReadsNumerals(lex, maxDigits) && PrintableCall(lex, maxDigits, c) && '\n' !in comment
    ensures var p := Part([';'] + comment + ['\n'], PrintedCall(c));
      WfPart(lex, p) && WritesCall(lex, p.form, c)
  {
    PrintedLays(lex, maxDigits, Dict(c.args));
    PrintedCallIs(lex, c);
    CommentQuiet(comment);
    var prose := [';'] + comment + ['\n'];
    assert prose[1..] == comment + ['\n'];
  }

  lemma {:induction false} PrintedCallIs(lex: Lex, c: Call)
    requires Wf(lex, Atom(c.name)) && Interpret(lex, c.name) == Some(Sym(c.name))
    requires var args := Dict(c.args); Wf(lex, Printed(args)) && Lays(lex, Printed(args), args)
    ensures Wf(lex, PrintedCall(c)) && WritesCall(lex, PrintedCall(c), c)
  {
    assert Blank(" ");
  }

  /** Printing calls with comment lines between them and parsing the text gives the calls back. */
  lemma {:induction false} PrintParse(lex: Lex, maxDigits: nat, calls: seq<Call>, comments: seq<string>)
    requires |comments| == |calls|
    requires forall i :: 0 <= i < |calls| ==>
      PrintableCall(AsciiLex(lex, maxDigits), maxDigits, calls[i]) && '\n' !in comments[i]
    ensures Parsed(AsciiLex(lex, maxDigits), TextOf(PrintedReply(calls, comments), []), [], true) == calls
  {
    var py, parts := AsciiLex(lex, maxDigits), PrintedReply(calls, comments);
    assert ReadsNumerals(py, maxDigits) by {
      forall n: int | |Unsigned(IntText(n))| <= maxDigits
        ensures Interpret(py, IntText(n)) == Some(Int(n)) && Wf(py, Atom(IntText(n)))
      {
        NumeralsRead(lex, maxDigits, n);
      }
    }
    forall i | 0 <= i < |parts| ensures WfPart(py, parts[i]) && WritesCall(py, parts[i].form, calls[i]) {
      PrintedPart(py, maxDigits, calls[i], comments[i]);
    }
    RoundTrip(py, parts, [], calls);
  }
}

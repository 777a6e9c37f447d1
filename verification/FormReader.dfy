/** The Clojure form reader of the BFCL adapter
    (evals/runs/2026-07-05-bfcl-ast-dev-form/bfcl_adapter_form.py). */
module FormReader {
  import opened Options
  import opened Decimal

  /** What the reader yields. A dict keeps its insertion order. */
  datatype Datum =
    | Nil
    | Bool(b: bool)
    | Int(n: int)
    | Float(repr: string)
    | Str(t: string)
    | Sym(t: string)
    | Kw(t: string)
    | List(items: seq<Datum>)
    | Vec(items: seq<Datum>)
    | Dict(entries: seq<(string, Datum)>)

  /** Python's own string functions: str.isdigit of a character, int() and float() (which may raise),
      and repr() of a composite key. */
  datatype Lex = Lex(digit: char -> bool, toInt: string -> Option<int>, toFloat: string -> Option<string>,
                     repr: Datum -> string)

  // ---- Characters ----

  predicate IsSpace(c: char) {
    c in " \t\r\n,"
  }

  predicate IsCloser(c: char) {
    c in ")]}"
  }

  predicate IsMacro(c: char) {
    c in "'`~@#"
  }

  predicate EndsAtom(c: char) {
    c in " \t\r\n,;()[]{}\""
  }

  /** The characters that separate, close, are dropped before a form, and end an atom. */
  lemma {:induction false} Characters(c: char)
    ensures IsSpace(c) <==> c == ' ' || c == '\t' || c == '\r' || c == '\n' || c == ','
    ensures IsCloser(c) <==> c == ')' || c == ']' || c == '}'
    ensures IsMacro(c) <==> c == '\'' || c == '`' || c == '~' || c == '@' || c == '#'
    ensures EndsAtom(c) <==> IsSpace(c) || IsCloser(c) || c == ';' || c == '(' || c == '[' || c == '{' || c == '"'
  {
  }

  // ---- Lexing ----

  /** The rest of the text from the end of this line. */
  function LineTail(s: string): (r: string)
    ensures |r| <= |s| && (r != [] ==> r[0] == '\n')
  {
    if s == [] || s[0] == '\n' then s else LineTail(s[1..])
  }

  function SkipBlank(s: string): (r: string)
    ensures |r| <= |s|
    ensures r != [] ==> !IsSpace(r[0]) && r[0] != ';'
    decreases |s|
  {
    if s == [] then s
    else if IsSpace(s[0]) then SkipBlank(s[1..])
    else if s[0] == ';' then SkipBlank(LineTail(s[1..]))
    else s
  }

  function Unescape(c: char): char {
    if c == 'n' then '\n' else if c == 't' then '\t' else if c == 'r' then '\r' else c
  }

  /** The string whose opening quote has been read, and what follows it. */
  function ReadText(s: string): (r: (string, string))
    ensures |r.1| <= |s|
  {
    if s == [] then ("", s)
    else if s[0] == '\\' then
      if |s| == 1 then ("", "")
      else var r := ReadText(s[2..]); ([Unescape(s[1])] + r.0, r.1)
    else if s[0] == '"' then ("", s[1..])
    else var r := ReadText(s[1..]); ([s[0]] + r.0, r.1)
  }

  function AtomTail(s: string): (r: string)
    ensures |r| <= |s| && (r != [] ==> EndsAtom(r[0]))
    ensures s != [] && !EndsAtom(s[0]) ==> |r| < |s|
  {
    if s == [] || EndsAtom(s[0]) then s else AtomTail(s[1..])
  }

  function Token(s: string): string {
    s[..|s| - |AtomTail(s)|]
  }

  /** A token without its sign. */
  function Unsigned(tok: string): string {
    if tok != [] && tok[0] in "+-" then tok[1..] else tok
  }

  /** None when int() raises. */
  function Interpret(lex: Lex, tok: string): Option<Datum> {
    var body := Unsigned(tok);
    if tok == "true" then Some(Bool(true))
    else if tok == "false" then Some(Bool(false))
    else if tok == "nil" then Some(Nil)
    else if body != [] && forall i :: 0 <= i < |body| ==> lex.digit(body[i]) then
      var n := lex.toInt(tok);
      if n.Some? then Some(Int(n.value)) else None
    else if (exists i :: 0 <= i < |tok| && lex.digit(tok[i])) && exists i :: 0 <= i < |tok| && tok[i] in ".eE" then
      var f := lex.toFloat(tok);
      Some(if f.Some? then Float(f.value) else Sym(tok))
    else Some(Sym(tok))
  }

  /** int() of an ASCII numeral, which raises when there are too many digits. */
  function ReadInt(maxDigits: nat, tok: string): Option<int>
    requires AllDigits(Unsigned(tok)) && Unsigned(tok) != []
  {
    var body := Unsigned(tok);
    var n: int := Value(body);
    if |body| > maxDigits then None else if tok[0] == '-' then Some(0 - n) else Some(n)
  }

  /** Python's reading of ASCII digits; other digits as given. */
  function AsciiLex(lex: Lex, maxDigits: nat): Lex {
    lex.(digit := (c: char) => IsDigit(c) || lex.digit(c),
         toInt := (tok: string) =>
           if Unsigned(tok) != [] && AllDigits(Unsigned(tok)) then ReadInt(maxDigits, tok) else lex.toInt(tok))
  }

  function IntText(n: int): string {
    if n < 0 then var m: nat := -n; "-" + Numeral(m) else Numeral(n)
  }

  /** str() of a datum. */
  function StrOf(lex: Lex, d: Datum): string {
    match d
    case Nil => "None"
    case Bool(b) => if b then "True" else "False"
    case Int(n) => IntText(n)
    case Float(r) => r
    case Str(t) => t
    case Sym(t) => t
    case Kw(t) => t
    case _ => lex.repr(d)
  }

  // ---- Names and native values ----

  /** raw.split("/")[-1] */
  function LastSegment(s: string): (r: string)
    ensures '/' !in s ==> r == s
  {
    if '/' !in s then s else LastSegment(s[1..])
  }

  /** What follows the last slash. */
  lemma {:induction false} LastSegmentIs(s: string)
    ensures var r := LastSegment(s);
      '/' !in r && |r| <= |s| && s[|s| - |r|..] == r && (r == s || s[|s| - |r| - 1] == '/')
  {
    if '/' in s { LastSegmentIs(s[1..]); }
  }

  function KeyName(lex: Lex, k: Datum): string {
    if k.Kw? || k.Sym? then LastSegment(k.t) else StrOf(lex, k)
  }

  function Pyify(v: Datum): Datum {
    match v
    case Kw(t) => Str(LastSegment(t))
    case Sym(t) => Str(t)
    case Dict(es) => Dict(seq(|es|, i requires 0 <= i < |es| => (es[i].0, Pyify(es[i].1))))
    case List(items) => Vec(seq(|items|, i requires 0 <= i < |items| => Pyify(items[i])))
    case Vec(items) => Vec(seq(|items|, i requires 0 <= i < |items| => Pyify(items[i])))
    case _ => v
  }

  /** d[k] = v: a key already there keeps its place. */
  function DictSet(es: seq<(string, Datum)>, k: string, v: Datum): seq<(string, Datum)> {
    if es == [] then [(k, v)]
    else if es[0].0 == k then [(k, v)] + es[1..]
    else [es[0]] + DictSet(es[1..], k, v)
  }

  /** Setting a key again replaces its value and leaves its place; a new key comes last. */
  lemma {:induction false} DictSetIs(es: seq<(string, Datum)>, k: string, v: Datum, i: nat)
    requires i <= |es| && forall j :: 0 <= j < i ==> es[j].0 != k
    ensures i == |es| ==> DictSet(es, k, v) == es + [(k, v)]
    ensures i < |es| && es[i].0 == k ==> DictSet(es, k, v) == es[i := (k, v)]
  {
    if i > 0 {
      DictSetIs(es[1..], k, v, i - 1);
      assert i < |es| ==> es[i := (k, v)] == [es[0]] + es[1..][i - 1 := (k, v)];
    }
  }

  /** The dict of the first n key-value pairs; an odd datum at the end is dropped. */
  function Pairs(lex: Lex, items: seq<Datum>, n: nat): seq<(string, Datum)>
    requires 2 * n <= |items|
  {
    if n == 0 then []
    else DictSet(Pairs(lex, items, n - 1), KeyName(lex, items[2 * n - 2]), Pyify(items[2 * n - 1]))
  }

  // ---- Reading ----

  /** What a sequence read so far becomes with the rest of it. */
  function Prepend(items: seq<Datum>, more: Option<(seq<Datum>, string)>): (r: Option<(seq<Datum>, string)>)
    ensures r.Some? <==> more.Some?
    ensures r.Some? ==> r.value == (items + more.value.0, more.value.1)
  {
    if more.None? then None else Some((items + more.value.0, more.value.1))
  }

  /** One form and what follows it. Nothing is consumed only at a stray closer or at the end. */
  function Read(lex: Lex, s: string): (r: Option<(Datum, string)>)
    ensures r.Some? ==> |r.value.1| <= |s|
    ensures r.Some? && SkipBlank(s) != [] && !IsCloser(SkipBlank(s)[0]) ==> |r.value.1| < |SkipBlank(s)|
    decreases |s|, 0
  {
    var s := SkipBlank(s);
    if s == [] then Some((Nil, s))
    else if IsMacro(s[0]) then Read(lex, s[1..])
    else if s[0] == '"' then var r := ReadText(s[1..]); Some((Str(r.0), r.1))
    else if s[0] == ':' then
      var v := Interpret(lex, Token(s[1..]));
      if v.None? then None else Some((Kw(StrOf(lex, v.value)), AtomTail(s[1..])))
    else if s[0] == '(' then
      var r := ReadSeq(lex, s[1..], ')');
      if r.None? then None else Some((List(r.value.0), r.value.1))
    else if s[0] == '[' then
      var r := ReadSeq(lex, s[1..], ']');
      if r.None? then None else Some((Vec(r.value.0), r.value.1))
    else if s[0] == '{' then
      var r := ReadSeq(lex, s[1..], '}');
      if r.None? then None else Some((Dict(Pairs(lex, r.value.0, |r.value.0| / 2)), r.value.1))
    else
      var v := Interpret(lex, Token(s));
      if v.None? then None else Some((v.value, AtomTail(s)))
  }

  /** The forms up to a closer, and what follows it; any closer ends the sequence. */
  function ReadSeq(lex: Lex, s: string, close: char): (r: Option<(seq<Datum>, string)>)
    requires IsCloser(close)
    ensures r.Some? ==> |r.value.1| <= |s|
    decreases |s|, 1
  {
    var s := SkipBlank(s);
    if s == [] then Some(([], s))
    else if IsCloser(s[0]) then Some(([], s[1..]))
    else
      var first := Read(lex, s);
      if first.None? then None else Prepend([first.value.0], ReadSeq(lex, first.value.1, close))
  }

  /** All forms of a span; a form that consumes nothing ends it. */
  function ReadForms(lex: Lex, s: string): Option<seq<Datum>>
    decreases |s|
  {
    var s := SkipBlank(s);
    if s == [] then Some([])
    else
      var first := Read(lex, s);
      if first.None? then None
      else if |first.value.1| >= |s| then Some([])
      else
        PrependForms([first.value.0], ReadForms(lex, first.value.1))
  }

  /** Exactly when reading consumes nothing but blanks: at the end and at a stray closer, which is why a
      sequence, having looked for a closer first, always advances. */
  lemma {:induction false} ReadStandsStill(lex: Lex, s: string)
    requires Read(lex, s).Some?
    ensures |Read(lex, s).value.1| == |SkipBlank(s)| <==> SkipBlank(s) == [] || IsCloser(SkipBlank(s)[0])
    ensures SkipBlank(s) != [] && IsCloser(SkipBlank(s)[0]) ==> Read(lex, s) == Some((Sym(""), SkipBlank(s)))
  {
    var t := SkipBlank(s);
    if t != [] && IsCloser(t[0]) {
      assert AtomTail(t) == t && Token(t) == "";
    }
  }

  /** A reader macro's character is dropped. */
  lemma {:induction false} MacroReads(lex: Lex, c: char, s: string)
    requires c in "'`~@#"
    ensures Read(lex, [c] + s) == Read(lex, s)
  {
    var t := [c] + s;
    assert t[0] == c && t[1..] == s;
    assert SkipBlank(t) == t;
  }

  /** Any closer ends a sequence, whichever bracket opened it. */
  lemma {:induction false} AnyCloser(lex: Lex, s: string, close: char, close': char)
    requires IsCloser(close) && IsCloser(close')
    ensures ReadSeq(lex, s, close) == ReadSeq(lex, s, close')
    decreases |s|
  {
    var t := SkipBlank(s);
    if t != [] && !IsCloser(t[0]) && Read(lex, t).Some? {
      AnyCloser(lex, Read(lex, t).value.1, close, close');
    }
  }

  /** An unfinished sequence ends with the text. */
  lemma {:induction false} Unfinished(lex: Lex, s: string)
    requires s != [] && s[0] in "([{" && SkipBlank(s[1..]) == []
    ensures Read(lex, s) == Some((if s[0] == '(' then List([]) else if s[0] == '[' then Vec([]) else Dict([]), ""))
  {
    ReadBracket(lex, s);
  }

  /** Other tokens: a number if it has a digit, a point or an exponent, and float() takes it, else a symbol. */
  lemma {:induction false} OtherTokens(lex: Lex, tok: string, i: nat, j: nat)
    requires tok != "true" && tok != "false" && tok != "nil"
    requires Unsigned(tok) == "" || exists k :: 0 <= k < |Unsigned(tok)| && !lex.digit(Unsigned(tok)[k])
    ensures i < |tok| && j < |tok| && lex.digit(tok[i]) && (tok[j] == '.' || tok[j] == 'e' || tok[j] == 'E') ==>
      Interpret(lex, tok) == Some(if lex.toFloat(tok).Some? then Float(lex.toFloat(tok).value) else Sym(tok))
    ensures (forall k :: 0 <= k < |tok| ==> !lex.digit(tok[k])) ==> Interpret(lex, tok) == Some(Sym(tok))
    ensures (forall k :: 0 <= k < |tok| ==> tok[k] != '.' && tok[k] != 'e' && tok[k] != 'E') ==>
      Interpret(lex, tok) == Some(Sym(tok))
  {
    assert forall c: char :: c in ".eE" <==> c == '.' || c == 'e' || c == 'E';
  }

  // ---- The reader's loops ----

  lemma {:induction false} Suffix(s: string, i: nat)
    requires i < |s|
    ensures s[i..] != [] && s[i..][0] == s[i] && s[i..][1..] == s[i + 1..]
  {
  }

  method SkipWs(s: string, i0: nat) returns (i: nat)
    requires i0 <= |s|
    ensures i0 <= i <= |s| && s[i..] == SkipBlank(s[i0..])
  {
    i := i0;
    while i < |s|
      invariant i0 <= i <= |s| && SkipBlank(s[i..]) == SkipBlank(s[i0..])
    {
      Suffix(s, i);
      if IsSpace(s[i]) {
        i := i + 1;
      } else if s[i] == ';' {
        ghost var at := i;
        while i < |s| && s[i] != '\n'
          invariant at <= i <= |s|
          invariant LineTail(s[i..]) == LineTail(s[at..])
        {
          Suffix(s, i);
          i := i + 1;
        }
      } else {
        break;
      }
    }
  }

  method ReadString(s: string, i0: nat) returns (t: string, i: nat)
    requires i0 < |s| && s[i0] == '"'
    ensures i0 < i <= |s| && (t, s[i..]) == ReadText(s[i0 + 1..])
  {
    i, t := i0 + 1, [];
    ghost var whole := ReadText(s[i0 + 1..]);
    assert [] + whole.0 == whole.0;
    while i < |s|
      invariant i0 < i <= |s|
      invariant whole == (t + ReadText(s[i..]).0, ReadText(s[i..]).1)
    {
      Suffix(s, i);
      if s[i] == '\\' {
        if i + 1 < |s| {
          Suffix(s, i + 1);
          assert s[i..][2..] == s[i + 2..];
          assert t + ([Unescape(s[i + 1])] + ReadText(s[i + 2..]).0) == t + [Unescape(s[i + 1])] + ReadText(s[i + 2..]).0;
          t := t + [Unescape(s[i + 1])];
          i := i + 2;
          continue;
        }
        i := i + 1;
        continue;
      }
      assert t + [] == t;
      if s[i] == '"' { return t, i + 1; }
      assert t + ([s[i]] + ReadText(s[i + 1..]).0) == t + [s[i]] + ReadText(s[i + 1..]).0;
      t := t + [s[i]];
      i := i + 1;
    }
    assert s[i..] == [] && t + [] == t;
  }

  method ReadAtom(lex: Lex, s: string, start: nat) returns (v: Option<Datum>, i: nat)
    requires start <= |s|
    ensures start <= i <= |s| && s[i..] == AtomTail(s[start..]) && v == Interpret(lex, Token(s[start..]))
  {
    i := start;
    while i < |s| && !EndsAtom(s[i])
      invariant start <= i <= |s| && AtomTail(s[i..]) == AtomTail(s[start..])
    {
      Suffix(s, i);
      i := i + 1;
    }
    assert Token(s[start..]) == s[start..i];
    v := Interpret(lex, s[start..i]);
  }

  method ReadAt(lex: Lex, s: string, i0: nat) returns (r: Option<(Datum, nat)>)
    requires i0 <= |s|
    ensures r.Some? <==> Read(lex, s[i0..]).Some?
    ensures r.Some? ==> i0 <= r.value.1 <= |s| && Read(lex, s[i0..]) == Some((r.value.0, s[r.value.1..]))
    decreases |s| - i0, 1
  {
    var i := SkipWs(s, i0);
    ReadSkips(lex, s[i0..]);
    if i >= |s| { return Some((Nil, i)); }
    Suffix(s, i);
    var ch := s[i];
    if IsMacro(ch) {
      r := ReadAt(lex, s, i + 1);
    } else if ch == '(' || ch == '[' || ch == '{' {
      r := ReadBracketed(lex, s, i);
    } else {
      r := ReadPlain(lex, s, i);
    }
  }

  /** Strings, keywords and atoms. */
  method ReadPlain(lex: Lex, s: string, i: nat) returns (r: Option<(Datum, nat)>)
    requires i < |s| && SkipBlank(s[i..]) == s[i..] && !IsMacro(s[i]) && s[i] !in "([{"
    ensures r.Some? <==> Read(lex, s[i..]).Some?
    ensures r.Some? ==> i <= r.value.1 <= |s| && Read(lex, s[i..]) == Some((r.value.0, s[r.value.1..]))
  {
    Suffix(s, i);
    if s[i] == '"' {
      var t, j := ReadString(s, i);
      r := Some((Str(t), j));
    } else if s[i] == ':' {
      var v, j := ReadAtom(lex, s, i + 1);
      r := if v.None? then None else Some((Kw(StrOf(lex, v.value)), j));
    } else {
      var v, j := ReadAtom(lex, s, i);
      r := if v.None? then None else Some((v.value, j));
    }
  }

  /** The three bracketed forms. */
  method ReadBracketed(lex: Lex, s: string, i: nat) returns (r: Option<(Datum, nat)>)
    requires i < |s| && (s[i] == '(' || s[i] == '[' || s[i] == '{')
    ensures r.Some? <==> Read(lex, s[i..]).Some?
    ensures r.Some? ==> i <= r.value.1 <= |s| && Read(lex, s[i..]) == Some((r.value.0, s[r.value.1..]))
    decreases |s| - i, 0
  {
    Suffix(s, i);
    ReadBracket(lex, s[i..]);
    var items := ReadSeqAt(lex, s, i + 1, CloserOf(s[i]));
    if items.None? { return None; }
    var d: Datum;
    if s[i] == '(' {
      d := List(items.value.0);
    } else if s[i] == '[' {
      d := Vec(items.value.0);
    } else {
      var es := ReadPairs(lex, items.value.0);
      d := Dict(es);
    }
    r := Some((d, items.value.1));
  }

  function CloserOf(c: char): char {
    if c == '(' then ')' else if c == '[' then ']' else '}'
  }

  /** What a bracketed sequence is read as. */
  function OfBracket(lex: Lex, c: char, items: seq<Datum>): Datum {
    if c == '(' then List(items) else if c == '[' then Vec(items) else Dict(Pairs(lex, items, |items| / 2))
  }

  lemma {:induction false} ReadBracket(lex: Lex, s: string)
    requires s != [] && (s[0] == '(' || s[0] == '[' || s[0] == '{')
    ensures var r := ReadSeq(lex, s[1..], CloserOf(s[0]));
      Read(lex, s) == if r.None? then None else Some((OfBracket(lex, s[0], r.value.0), r.value.1))
  {
    assert SkipBlank(s) == s;
  }

  lemma {:induction false} ReadSkips(lex: Lex, s: string)
    ensures Read(lex, SkipBlank(s)) == Read(lex, s)
  {
    var t := SkipBlank(s);
    assert SkipBlank(t) == t;
  }

  method ReadPairs(lex: Lex, items: seq<Datum>) returns (es: seq<(string, Datum)>)
    ensures es == Pairs(lex, items, |items| / 2)
  {
    es := [];
    for k := 0 to |items| / 2
      invariant es == Pairs(lex, items, k)
    {
      es := DictSet(es, KeyName(lex, items[2 * k]), Pyify(items[2 * k + 1]));
    }
  }

  lemma {:induction false} PrependNothing(more: Option<(seq<Datum>, string)>)
    ensures Prepend([], more) == more
  {
    if more.Some? { assert [] + more.value.0 == more.value.0; }
  }

  lemma {:induction false} PrependTwice(a: seq<Datum>, b: seq<Datum>, more: Option<(seq<Datum>, string)>)
    ensures Prepend(a, Prepend(b, more)) == Prepend(a + b, more)
  {
    if more.Some? { assert a + (b + more.value.0) == a + b + more.value.0; }
  }

  /** How a sequence goes on from text that starts at a form. */
  lemma {:induction false} ReadSeqStep(lex: Lex, s: string, close: char)
    requires s != [] && SkipBlank(s) == s && IsCloser(close)
    ensures IsCloser(s[0]) ==> ReadSeq(lex, s, close) == Some(([], s[1..]))
    ensures !IsCloser(s[0]) && Read(lex, s).None? ==> ReadSeq(lex, s, close).None?
    ensures !IsCloser(s[0]) && Read(lex, s).Some? ==>
      ReadSeq(lex, s, close) == Prepend([Read(lex, s).value.0], ReadSeq(lex, Read(lex, s).value.1, close))
  {
  }

  /** The same after the items read before. */
  lemma {:induction false} ReadSeqRound(lex: Lex, s: string, close: char, items: seq<Datum>)
    requires s != [] && SkipBlank(s) == s && IsCloser(close)
    ensures IsCloser(s[0]) ==> Prepend(items, ReadSeq(lex, s, close)) == Some((items, s[1..]))
    ensures !IsCloser(s[0]) && Read(lex, s).None? ==> Prepend(items, ReadSeq(lex, s, close)).None?
    ensures !IsCloser(s[0]) && Read(lex, s).Some? ==>
      Prepend(items, ReadSeq(lex, s, close))
      == Prepend(items + [Read(lex, s).value.0], ReadSeq(lex, Read(lex, s).value.1, close))
  {
    ReadSeqStep(lex, s, close);
    assert items + [] == items;
    if !IsCloser(s[0]) && Read(lex, s).Some? {
      PrependTwice(items, [Read(lex, s).value.0], ReadSeq(lex, Read(lex, s).value.1, close));
    }
  }

  lemma {:induction false} SkipIsIdempotent(lex: Lex, s: string, close: char)
    requires IsCloser(close)
    ensures SkipBlank(SkipBlank(s)) == SkipBlank(s)
    ensures ReadSeq(lex, SkipBlank(s), close) == ReadSeq(lex, s, close)
    ensures ReadForms(lex, SkipBlank(s)) == ReadForms(lex, s)
  {
    var t := SkipBlank(s);
    assert t == [] || (!IsSpace(t[0]) && t[0] != ';');
  }

  /** Blanks before an item or a closer do not matter. */
  method SkipInSeq(lex: Lex, s: string, i0: nat, close: char) returns (i: nat)
    requires i0 <= |s| && IsCloser(close)
    ensures i0 <= i <= |s| && SkipBlank(s[i..]) == s[i..]
    ensures ReadSeq(lex, s[i0..], close) == ReadSeq(lex, s[i..], close)
    ensures i == |s| ==> ReadSeq(lex, s[i..], close) == Some(([], s[i..]))
  {
    SkipIsIdempotent(lex, s[i0..], close);
    i := SkipWs(s, i0);
  }

  method ReadSeqAt(lex: Lex, s: string, i0: nat, close: char) returns (r: Option<(seq<Datum>, nat)>)
    requires i0 <= |s| && IsCloser(close)
    ensures r.Some? <==> ReadSeq(lex, s[i0..], close).Some?
    ensures r.Some? ==> i0 <= r.value.1 <= |s| && ReadSeq(lex, s[i0..], close) == Some((r.value.0, s[r.value.1..]))
    decreases |s| - i0, 2
  {
    var items, i := [], i0;
    ghost var whole := ReadSeq(lex, s[i0..], close);
    PrependNothing(whole);
    while true
      invariant i0 <= i <= |s| && whole == Prepend(items, ReadSeq(lex, s[i..], close))
      decreases |s| - i
    {
      i := SkipInSeq(lex, s, i, close);
      if i >= |s| {
        assert items + [] == items;
        return Some((items, i));
      }
      Suffix(s, i);
      ReadSeqRound(lex, s[i..], close, items);
      if s[i] == close { return Some((items, i + 1)); }
      if IsCloser(s[i]) { return Some((items, i + 1)); }
      var v := ReadAt(lex, s, i);
      if v.None? { return None; }
      items := items + [v.value.0];
      i := v.value.1;
    }
  }

  function PrependForms(forms: seq<Datum>, more: Option<seq<Datum>>): Option<seq<Datum>> {
    if more.None? then None else Some(forms + more.value)
  }

  lemma {:induction false} PrependFormsTwice(a: seq<Datum>, d: Datum, more: Option<seq<Datum>>)
    ensures PrependForms([], more) == more
    ensures PrependForms(a, PrependForms([d], more)) == PrependForms(a + [d], more)
  {
    if more.Some? {
      assert [] + more.value == more.value;
      assert a + ([d] + more.value) == a + [d] + more.value;
    }
  }

  method ReadAll(lex: Lex, span: string) returns (r: Option<seq<Datum>>)
    ensures r == ReadForms(lex, span)
  {
    var forms: seq<Datum>, i := [], 0;
    assert span[0..] == span;
    PrependFormsTwice([], Nil, ReadForms(lex, span));
    while true
      invariant 0 <= i <= |span|
      invariant ReadForms(lex, span) == PrependForms(forms, ReadForms(lex, span[i..]))
      decreases |span| - i
    {
      SkipIsIdempotent(lex, span[i..], ')');
      i := SkipWs(span, i);
      assert forms + [] == forms;
      if i >= |span| { break; }
      var v := ReadAt(lex, span, i);
      if v.None? { return None; }
      if v.value.1 <= i { break; }
      PrependFormsTwice(forms, v.value.0, ReadForms(lex, span[v.value.1..]));
      forms := forms + [v.value.0];
      i := v.value.1;
    }
    r := Some(forms);
  }
}

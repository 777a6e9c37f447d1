/** The frozen draw (src-inspect-ai/src/seon_inspect/freeze.py): a seeded shuffle, plain or round-robin over
    strata, cut into tiers. */
module StratifiedDraw {
  import opened Options
  import opened Decimal
  import opened Sorting

  /** A raw id is a number or a string; str() may make two of them alike. */
  datatype RawId = Number(n: nat) | Text(s: string)

  function Str(id: RawId): string {
    match id case Number(n) => Numeral(n) case Text(s) => s
  }

  datatype Row = Row(id: RawId, content: string, stratum: string)

  function Key(r: Row): string {
    Str(r.id)
  }

  /** A text id is its own key, a number's key is its decimal numeral. */
  lemma {:induction false} KeyIs(r: Row)
    ensures r.id.Text? ==> Key(r) == r.id.s
    ensures r.id.Number? ==> Key(r) != "" && AllDigits(Key(r)) && Value(Key(r)) == r.id.n
    ensures r.id.Number? && r.id.n > 0 ==> Key(r)[0] != '0'
  {
    if r.id.Number? {
      ValueOfNumeral(r.id.n);
      if r.id.n > 0 { NoLeadingZero(r.id.n); }
    }
  }

  lemma {:induction false} NoLeadingZero(n: nat)
    requires n > 0
    ensures Numeral(n)[0] != '0'
  {
    if n >= 10 { NoLeadingZero(n / 10); }
  }

  // ---- The order of strings ----

  predicate Before(a: string, b: string) {
    a == [] || (b != [] && (a[0] < b[0] || (a[0] == b[0] && Before(a[1..], b[1..]))))
  }

  lemma {:induction false} BeforeTotal(a: string, b: string)
    ensures Before(a, b) || Before(b, a)
    ensures Before(a, b) && Before(b, a) ==> a == b
  {
    if a != [] && b != [] && a[0] == b[0] {
      BeforeTotal(a[1..], b[1..]);
      assert a == [a[0]] + a[1..] && b == [b[0]] + b[1..];
    }
  }

  lemma {:induction false} BeforeTransitive(a: string, b: string, c: string)
    requires Before(a, b) && Before(b, c)
    ensures Before(a, c)
  {
    if a != [] && a[0] == b[0] && b[0] == c[0] {
      BeforeTransitive(a[1..], b[1..], c[1..]);
    }
  }

  // ---- The canonical order ----

  /** After every row whose key is not larger. */
  function Insert(s: seq<Row>, r: Row): seq<Row> {
    if s == [] || Before(Key(s[|s| - 1]), Key(r)) then s + [r]
    else Insert(s[..|s| - 1], r) + [s[|s| - 1]]
  }

  /** sorted(rows, key=lambda r: str(r["id"])) */
  function Canonical(rows: seq<Row>): seq<Row> {
    if rows == [] then [] else Insert(Canonical(rows[..|rows| - 1]), rows[|rows| - 1])
  }

  ghost predicate InOrder(s: seq<Row>) {
    forall i, j :: 0 <= i < j < |s| ==> Before(Key(s[i]), Key(s[j]))
  }

  lemma {:induction false} InsertIs(s: seq<Row>, r: Row)
    requires InOrder(s)
    ensures InOrder(Insert(s, r)) && multiset(Insert(s, r)) == multiset(s) + multiset{r}
  {
    if s == [] {
    } else {
      var m, x := s[..|s| - 1], s[|s| - 1];
      assert s == m + [x];
      BeforeTotal(Key(x), Key(r));
      if Before(Key(x), Key(r)) {
        forall i | 0 <= i < |s| ensures Before(Key(s[i]), Key(r)) {
          if i < |m| { BeforeTransitive(Key(s[i]), Key(x), Key(r)); }
        }
      } else {
        InsertIs(m, r);
        InsertedBefore(m, x, r, Insert(m, r));
      }
    }
  }

  lemma {:induction false} InsertedBefore(m: seq<Row>, x: Row, r: Row, t: seq<Row>)
    requires InOrder(m + [x]) && InOrder(t) && multiset(t) == multiset(m) + multiset{r} && Before(Key(r), Key(x))
    ensures InOrder(t + [x]) && multiset(t + [x]) == multiset(m + [x]) + multiset{r}
  {
    forall i | 0 <= i < |t| ensures Before(Key(t[i]), Key(x)) {
      assert t[i] in multiset(t);
      if t[i] != r {
        assert t[i] in m;
        var k :| 0 <= k < |m| && m[k] == t[i];
        assert (m + [x])[k] == t[i] && (m + [x])[|m|] == x;
      }
    }
  }

  lemma {:induction false} CanonicalIs(rows: seq<Row>)
    ensures InOrder(Canonical(rows)) && multiset(Canonical(rows)) == multiset(rows)
  {
    if rows != [] {
      var m, r := rows[..|rows| - 1], rows[|rows| - 1];
      assert rows == m + [r];
      assert multiset(rows) == multiset(m) + multiset{r};
      CanonicalIs(m);
      InsertIs(Canonical(m), r);
    }
  }

  /** No id string stands for two different rows. */
  ghost predicate OneRowPerId(rows: multiset<Row>) {
    forall r, q :: r in rows && q in rows && Key(r) == Key(q) ==> r == q
  }

  lemma {:induction false} OneOrder(a: seq<Row>, b: seq<Row>)
    requires InOrder(a) && InOrder(b) && multiset(a) == multiset(b) && OneRowPerId(multiset(a))
    ensures a == b
    decreases |a|
  {
    SameLength(a, b);
    if a != [] {
      SameFirst(a, b);
      DropFirst(a);
      DropFirst(b);
      OneOrder(a[1..], b[1..]);
      SameSeq(a, b);
    }
  }

  lemma {:induction false} SameSeq(a: seq<Row>, b: seq<Row>)
    requires a != [] && b != [] && a[0] == b[0] && a[1..] == b[1..]
    ensures a == b
  {
    assert a == [a[0]] + a[1..] && b == [b[0]] + b[1..];
  }

  lemma {:induction false} SameLength(a: seq<Row>, b: seq<Row>)
    requires multiset(a) == multiset(b)
    ensures |a| == |b|
  {
    assert |multiset(a)| == |a| && |multiset(b)| == |b|;
  }

  lemma {:induction false} SameFirst(a: seq<Row>, b: seq<Row>)
    requires InOrder(a) && InOrder(b) && multiset(a) == multiset(b) && OneRowPerId(multiset(a)) && a != [] && b != []
    ensures a[0] == b[0]
  {
    assert a[0] in multiset(b) && b[0] in multiset(a);
    Least(a, b[0]);
    Least(b, a[0]);
    BeforeTotal(Key(a[0]), Key(b[0]));
  }

  lemma {:induction false} DropFirst(a: seq<Row>)
    requires a != [] && InOrder(a)
    ensures multiset(a[1..]) == multiset(a) - multiset{a[0]} && InOrder(a[1..])
    ensures OneRowPerId(multiset(a)) ==> OneRowPerId(multiset(a[1..]))
  {
    assert a == [a[0]] + a[1..];
    assert forall r :: r in multiset(a[1..]) ==> r in multiset(a);
  }

  lemma {:induction false} Least(s: seq<Row>, r: Row)
    requires InOrder(s) && r in s
    ensures Before(Key(s[0]), Key(r))
  {
    var i :| 0 <= i < |s| && s[i] == r;
    if i == 0 { BeforeTotal(Key(r), Key(r)); }
  }

  // ---- Shuffles ----

  /** The generator's permutation of a list of n items, given the lengths shuffled before: CPython's
      shuffle depends on nothing else but the seed. */
  type Rng = (seq<nat>, nat) -> seq<nat>

  ghost predicate Shuffles(rng: Rng) {
    forall before, n :: IsOrder(rng(before, n), n)
  }

  function Permuted<T>(s: seq<T>, o: seq<nat>): (r: seq<T>)
    requires |o| == |s| && forall a :: 0 <= a < |o| ==> o[a] < |s|
    ensures |r| == |s|
  {
    seq(|s|, i requires 0 <= i < |s| => s[o[i]])
  }

  lemma {:induction false} PermutedSame<T>(s: seq<T>, o: seq<nat>)
    requires IsOrder(o, |s|)
    ensures multiset(Permuted(s, o)) == multiset(s)
  {
    if s != [] {
      var n := |s| - 1;
      assert n in o;
      var p :| 0 <= p < |o| && o[p] == n;
      WithoutLast(o, n, p);
      PermutedSame(s[..n], o[..p] + o[p + 1..]);
      PutBack(s, o, p);
      MiddleOut(Permuted(s[..n], o[..p] + o[p + 1..]), p, s[n]);
      assert s == s[..n] + [s[n]];
    }
  }

  lemma {:induction false} PutBack<T>(s: seq<T>, o: seq<nat>, p: nat)
    requires s != [] && |o| == |s| && p < |o| && o[p] == |s| - 1
    requires forall a :: 0 <= a < |o| ==> o[a] < |s|
    requires var t := o[..p] + o[p + 1..]; forall a :: 0 <= a < |t| ==> t[a] < |s| - 1
    ensures var n := |s| - 1;
      var r := Permuted(s[..n], o[..p] + o[p + 1..]);
      Permuted(s, o) == r[..p] + [s[n]] + r[p..]
  {
  }

  lemma {:induction false} MiddleOut<T>(r: seq<T>, p: nat, x: T)
    requires p <= |r|
    ensures multiset(r[..p] + [x] + r[p..]) == multiset(r) + multiset{x}
  {
    assert r == r[..p] + r[p..];
  }

  lemma {:induction false} WithoutLast(o: seq<nat>, n: nat, p: nat)
    requires IsOrder(o, n + 1) && p <= n && o[p] == n
    ensures IsOrder(o[..p] + o[p + 1..], n)
  {
    var o' := o[..p] + o[p + 1..];
    forall i | 0 <= i < n ensures i in o' {
      assert i in o;
      var a :| 0 <= a < |o| && o[a] == i;
      assert o'[if a < p then a else a - 1] == i;
    }
  }

  // ---- Strata ----

  function Group(rows: seq<Row>, stratum: string): seq<Row> {
    if rows == [] then []
    else
      Group(rows[..|rows| - 1], stratum) + (if rows[|rows| - 1].stratum == stratum then [rows[|rows| - 1]] else [])
  }

  function InsertName(s: seq<string>, x: string): (r: seq<string>)
    ensures forall y :: y in r <==> y in s || y == x
    ensures |r| == |s| + 1
  {
    if s == [] || Before(s[|s| - 1], x) then s + [x]
    else
      assert s == s[..|s| - 1] + [s[|s| - 1]];
      InsertName(s[..|s| - 1], x) + [s[|s| - 1]]
  }

  /** sorted(groups): the strata present, each once. */
  function Strata(rows: seq<Row>): (r: seq<string>)
    ensures forall y :: y in r <==> exists i :: 0 <= i < |rows| && rows[i].stratum == y
  {
    if rows == [] then []
    else
      var r, x := Strata(rows[..|rows| - 1]), rows[|rows| - 1].stratum;
      if x in r then r else InsertName(r, x)
  }

  ghost predicate Distinct(s: seq<string>) {
    forall i, j :: 0 <= i < j < |s| ==> s[i] != s[j]
  }

  lemma {:induction false} InsertNameDistinct(s: seq<string>, x: string)
    requires Distinct(s) && x !in s
    ensures Distinct(InsertName(s, x))
  {
    if s != [] && !Before(s[|s| - 1], x) {
      var m := s[..|s| - 1];
      InsertNameDistinct(m, x);
      assert s[|s| - 1] !in m;
    }
  }

  lemma {:induction false} StrataDistinct(rows: seq<Row>)
    ensures Distinct(Strata(rows))
  {
    if rows != [] {
      StrataDistinct(rows[..|rows| - 1]);
      var r, x := Strata(rows[..|rows| - 1]), rows[|rows| - 1].stratum;
      if x !in r { InsertNameDistinct(r, x); }
    }
  }

  /** The lengths shuffled before the j-th group. */
  function Lengths(rows: seq<Row>, strata: seq<string>, j: nat): seq<nat>
    requires j <= |strata|
  {
    if j == 0 then [|strata|] else Lengths(rows, strata, j - 1) + [|Group(rows, strata[j - 1])|]
  }

  /** The first j groups, shuffled. */
  function Queues(rows: seq<Row>, strata: seq<string>, rng: Rng, j: nat): (qs: seq<seq<Row>>)
    requires j <= |strata| && Shuffles(rng)
    ensures |qs| == j
  {
    if j == 0 then []
    else
      var g := Group(rows, strata[j - 1]);
      Queues(rows, strata, rng, j - 1) + [Permuted(g, rng(Lengths(rows, strata, j - 1), |g|))]
  }

  // ---- Round robin ----

  /** The first of each queue that has one. */
  function Heads(qs: seq<seq<Row>>): seq<Row> {
    if qs == [] then []
    else Heads(qs[..|qs| - 1]) + (if qs[|qs| - 1] == [] then [] else [qs[|qs| - 1][0]])
  }

  function Rest(q: seq<Row>): seq<Row> {
    if q == [] then [] else q[1..]
  }

  function Tails(qs: seq<seq<Row>>): (r: seq<seq<Row>>)
    ensures |r| == |qs|
  {
    seq(|qs|, j requires 0 <= j < |qs| => Rest(qs[j]))
  }

  function Left(qs: seq<seq<Row>>): nat {
    if qs == [] then 0 else Left(qs[..|qs| - 1]) + |qs[|qs| - 1]|
  }

  lemma {:induction false} HeadsLeft(qs: seq<seq<Row>>)
    ensures |Heads(qs)| + Left(Tails(qs)) == Left(qs)
    ensures Heads(qs) == [] ==> Left(qs) == 0
  {
    if qs != [] {
      HeadsLeft(qs[..|qs| - 1]);
      assert Tails(qs)[..|qs| - 1] == Tails(qs[..|qs| - 1]);
    }
  }

  function RoundRobin(qs: seq<seq<Row>>): seq<Row>
    decreases Left(qs)
  {
    HeadsLeft(qs);
    if Left(qs) == 0 then [] else Heads(qs) + RoundRobin(Tails(qs))
  }

  function Sum(qs: seq<seq<Row>>): multiset<Row> {
    if qs == [] then multiset{} else Sum(qs[..|qs| - 1]) + multiset(qs[|qs| - 1])
  }

  lemma {:induction false} HeadsSum(qs: seq<seq<Row>>)
    ensures multiset(Heads(qs)) + Sum(Tails(qs)) == Sum(qs)
  {
    if qs != [] {
      var q := qs[|qs| - 1];
      HeadsSum(qs[..|qs| - 1]);
      assert Tails(qs)[..|qs| - 1] == Tails(qs[..|qs| - 1]);
      HeadAndRest(q);
    }
  }

  lemma {:induction false} HeadAndRest(q: seq<Row>)
    ensures multiset(if q == [] then [] else [q[0]]) + multiset(Rest(q)) == multiset(q)
  {
    if q != [] { assert q == [q[0]] + q[1..]; }
  }

  lemma {:induction false} EmptySum(qs: seq<seq<Row>>)
    requires Left(qs) == 0
    ensures Sum(qs) == multiset{}
  {
    if qs != [] { EmptySum(qs[..|qs| - 1]); }
  }

  /** Round robin gives every queued row, as often as it is queued. */
  lemma {:induction false} RoundRobinKeeps(qs: seq<seq<Row>>)
    ensures multiset(RoundRobin(qs)) == Sum(qs)
    decreases Left(qs)
  {
    HeadsLeft(qs);
    if Left(qs) == 0 {
      EmptySum(qs);
    } else {
      RoundRobinKeeps(Tails(qs));
      HeadsSum(qs);
    }
  }

  // ---- Fairness ----

  function Count(rows: seq<Row>, stratum: string): nat {
    |Group(rows, stratum)|
  }

  lemma {:induction false} CountConcat(a: seq<Row>, b: seq<Row>, x: string)
    ensures Count(a + b, x) == Count(a, x) + Count(b, x)
  {
    if b == [] {
      assert a + b == a;
    } else {
      CountConcat(a, b[..|b| - 1], x);
      assert (a + b)[..|a + b| - 1] == a + b[..|b| - 1];
    }
  }

  /** Queue j holds rows of stratum j, and each stratum has one queue. */
  ghost predicate Labelled(qs: seq<seq<Row>>, strata: seq<string>) {
    && |qs| == |strata| && Distinct(strata)
    && forall j, i :: 0 <= j < |qs| && 0 <= i < |qs[j]| ==> qs[j][i].stratum == strata[j]
  }

  /** A part of a round takes at most one row of a stratum, a whole round exactly one if there is one. */
  lemma {:induction false} HeadsCount(qs: seq<seq<Row>>, strata: seq<string>, k: nat, j: nat)
    requires Labelled(qs, strata) && k <= |Heads(qs)| && j < |qs|
    ensures Count(Heads(qs)[..k], strata[j]) <= if qs[j] == [] then 0 else 1
    ensures k == |Heads(qs)| ==> Count(Heads(qs)[..k], strata[j]) == if qs[j] == [] then 0 else 1
  {
    var n := |qs| - 1;
    var before := Heads(qs[..n]);
    if k <= |before| {
      assert Heads(qs)[..k] == before[..k];
      if j < n {
        HeadsCount(qs[..n], strata[..n], k, j);
      } else {
        NoHead(qs[..n], strata[..n], k, strata[n]);
      }
    } else {
      assert Heads(qs)[..k] == before + [qs[n][0]];
      CountConcat(before, [qs[n][0]], strata[j]);
      assert before == before[..|before|];
      CountOne(qs[n][0], strata[j]);
      if j < n {
        HeadsCount(qs[..n], strata[..n], |before|, j);
      } else {
        NoHead(qs[..n], strata[..n], |before|, strata[n]);
      }
    }
  }

  lemma {:induction false} CountOne(r: Row, x: string)
    ensures Count([r], x) == if r.stratum == x then 1 else 0
  {
    assert [r][..0] == [] && Group([], x) == [];
    assert Group([r], x) == Group([], x) + (if r.stratum == x then [r] else []);
  }

  lemma {:induction false} NoHead(qs: seq<seq<Row>>, strata: seq<string>, k: nat, x: string)
    requires Labelled(qs, strata) && k <= |Heads(qs)| && x !in strata
    ensures Count(Heads(qs)[..k], x) == 0
  {
    if qs != [] {
      var n := |qs| - 1;
      var before := Heads(qs[..n]);
      if k <= |before| {
        assert Heads(qs)[..k] == before[..k];
        NoHead(qs[..n], strata[..n], k, x);
      } else {
        assert Heads(qs)[..k] == before + [qs[n][0]];
        CountConcat(before, [qs[n][0]], x);
        CountOne(qs[n][0], x);
        assert qs[n][0].stratum == strata[n] && strata[n] in strata;
        assert before == before[..|before|];
        NoHead(qs[..n], strata[..n], |before|, x);
      }
    }
  }

  lemma {:induction false} WholeRound(qs: seq<seq<Row>>, strata: seq<string>, p: seq<Row>, j: nat)
    requires Labelled(qs, strata) && j < |qs|
    ensures Count(Heads(qs) + p, strata[j]) == (if qs[j] == [] then 0 else 1) + Count(p, strata[j])
  {
    HeadsCount(qs, strata, |Heads(qs)|, j);
    assert Heads(qs)[..|Heads(qs)|] == Heads(qs);
    CountConcat(Heads(qs), p, strata[j]);
  }

  function Min(a: nat, b: nat): nat {
    if a < b then a else b
  }

  /** p has r rows of every stratum or, of some, one more, where there are so many. */
  ghost predicate WithinRounds(qs: seq<seq<Row>>, strata: seq<string>, p: seq<Row>, r: nat)
    requires |strata| == |qs|
  {
    forall j :: 0 <= j < |qs| ==> Min(r, |qs[j]|) <= Count(p, strata[j]) <= Min(r + 1, |qs[j]|)
  }

  /** Every prefix is r whole rounds and part of another. */
  lemma {:induction false} Rounds(qs: seq<seq<Row>>, strata: seq<string>, k: nat) returns (r: nat)
    requires Labelled(qs, strata) && k <= |RoundRobin(qs)|
    ensures WithinRounds(qs, strata, RoundRobin(qs)[..k], r)
    decreases Left(qs)
  {
    RoundPrefix(qs, k);
    if k <= |Heads(qs)| {
      r := 0;
      PartOfRound(qs, strata, k);
    } else {
      var n := k - |Heads(qs)|;
      TailsLabelled(qs, strata);
      r := Rounds(Tails(qs), strata, n);
      OneRoundMore(qs, strata, RoundRobin(Tails(qs))[..n], r);
      r := r + 1;
    }
  }

  lemma {:induction false} RoundPrefix(qs: seq<seq<Row>>, k: nat)
    requires k <= |RoundRobin(qs)|
    ensures k <= |Heads(qs)| ==> RoundRobin(qs)[..k] == Heads(qs)[..k]
    ensures k > |Heads(qs)| ==> Left(Tails(qs)) < Left(qs) && k - |Heads(qs)| <= |RoundRobin(Tails(qs))|
    ensures k > |Heads(qs)| ==> RoundRobin(qs)[..k] == Heads(qs) + RoundRobin(Tails(qs))[..k - |Heads(qs)|]
  {
    HeadsLeft(qs);
  }

  lemma {:induction false} PartOfRound(qs: seq<seq<Row>>, strata: seq<string>, k: nat)
    requires Labelled(qs, strata) && k <= |RoundRobin(qs)| && k <= |Heads(qs)|
    ensures WithinRounds(qs, strata, RoundRobin(qs)[..k], 0)
  {
    RoundPrefix(qs, k);
    forall j | 0 <= j < |qs| ensures Min(0, |qs[j]|) <= Count(Heads(qs)[..k], strata[j]) <= Min(1, |qs[j]|) {
      HeadsCount(qs, strata, k, j);
    }
  }

  lemma {:induction false} OneRoundMore(qs: seq<seq<Row>>, strata: seq<string>, p: seq<Row>, r: nat)
    requires Labelled(qs, strata) && WithinRounds(Tails(qs), strata, p, r)
    ensures WithinRounds(qs, strata, Heads(qs) + p, r + 1)
  {
    forall j | 0 <= j < |qs| ensures Min(r + 1, |qs[j]|) <= Count(Heads(qs) + p, strata[j]) <= Min(r + 2, |qs[j]|) {
      assert Tails(qs)[j] == Rest(qs[j]);
      WholeRound(qs, strata, p, j);
    }
  }

  // ---- The draw ----

  function ShuffledStrata(rows: seq<Row>, rng: Rng): seq<string>
    requires Shuffles(rng)
  {
    var names := Strata(rows);
    Permuted(names, rng([], |names|))
  }

  function Draw(rows: seq<Row>, rng: Rng, stratify: bool): seq<Row>
    requires Shuffles(rng)
  {
    var c := Canonical(rows);
    if !stratify then Permuted(c, rng([], |c|))
    else
      var strata := ShuffledStrata(c, rng);
      RoundRobin(Queues(c, strata, rng, |strata|))
  }

  lemma {:induction false} ShuffledStrataAre(rows: seq<Row>, rng: Rng)
    requires Shuffles(rng)
    ensures Distinct(ShuffledStrata(rows, rng))
    ensures forall i :: 0 <= i < |rows| ==> rows[i].stratum in ShuffledStrata(rows, rng)
  {
    var names := Strata(rows);
    var o := rng([], |names|);
    StrataDistinct(rows);
    PermutedSame(names, o);
    forall i | 0 <= i < |rows| ensures rows[i].stratum in ShuffledStrata(rows, rng) {
      assert rows[i].stratum in names;
      assert rows[i].stratum in multiset(Permuted(names, o));
    }
  }

  lemma {:induction false} GroupIs(rows: seq<Row>, x: string)
    ensures forall i :: 0 <= i < |Group(rows, x)| ==> Group(rows, x)[i].stratum == x
  {
    if rows != [] { GroupIs(rows[..|rows| - 1], x); }
  }

  /** q is the group of stratum x in some order. */
  ghost predicate QueueOf(q: seq<Row>, rows: seq<Row>, x: string) {
    && multiset(q) == multiset(Group(rows, x)) && |q| == Count(rows, x)
    && forall i :: 0 <= i < |q| ==> q[i].stratum == x
  }

  lemma {:induction false} QueueIs(rows: seq<Row>, x: string, o: seq<nat>)
    requires IsOrder(o, Count(rows, x))
    ensures QueueOf(Permuted(Group(rows, x), o), rows, x)
  {
    GroupIs(rows, x);
    PermutedSame(Group(rows, x), o);
  }

  lemma {:induction false} QueueAt(rows: seq<Row>, strata: seq<string>, rng: Rng, j: nat, i: nat)
    requires i < j <= |strata| && Shuffles(rng)
    ensures QueueOf(Queues(rows, strata, rng, j)[i], rows, strata[i])
  {
    if i < j - 1 {
      QueueAt(rows, strata, rng, j - 1, i);
    } else {
      QueueIs(rows, strata[i], rng(Lengths(rows, strata, i), Count(rows, strata[i])));
    }
  }

  /** The queues a stratified draw of canonical rows starts with. */
  lemma {:induction false} DrawQueues(rows: seq<Row>, rng: Rng) returns (strata: seq<string>, qs: seq<seq<Row>>)
    requires Shuffles(rng)
    ensures strata == ShuffledStrata(rows, rng) && qs == Queues(rows, strata, rng, |strata|)
    ensures Labelled(qs, strata)
    ensures forall i :: 0 <= i < |rows| ==> rows[i].stratum in strata
    ensures forall i :: 0 <= i < |qs| ==> QueueOf(qs[i], rows, strata[i])
  {
    strata := ShuffledStrata(rows, rng);
    qs := Queues(rows, strata, rng, |strata|);
    ShuffledStrataAre(rows, rng);
    forall i | 0 <= i < |qs| ensures QueueOf(qs[i], rows, strata[i]) {
      QueueAt(rows, strata, rng, |strata|, i);
    }
  }

  function GroupsSum(rows: seq<Row>, strata: seq<string>): multiset<Row> {
    if strata == [] then multiset{}
    else GroupsSum(rows, strata[..|strata| - 1]) + multiset(Group(rows, strata[|strata| - 1]))
  }

  lemma {:induction false} GroupsSumMore(rows: seq<Row>, r: Row, strata: seq<string>)
    requires Distinct(strata)
    ensures GroupsSum(rows + [r], strata) == GroupsSum(rows, strata) + (if r.stratum in strata then multiset{r} else multiset{})
  {
    if strata != [] {
      var m, x := strata[..|strata| - 1], strata[|strata| - 1];
      assert strata == m + [x];
      GroupsSumMore(rows, r, m);
      assert (rows + [r])[..|rows|] == rows;
      assert x !in m;
    }
  }

  lemma {:induction false} GroupsSumAll(rows: seq<Row>, strata: seq<string>)
    requires Distinct(strata) && forall i :: 0 <= i < |rows| ==> rows[i].stratum in strata
    ensures GroupsSum(rows, strata) == multiset(rows)
  {
    if rows == [] {
      NoGroups(strata);
    } else {
      var m, r := rows[..|rows| - 1], rows[|rows| - 1];
      assert rows == m + [r];
      GroupsSumAll(m, strata);
      GroupsSumMore(m, r, strata);
    }
  }

  lemma {:induction false} NoGroups(strata: seq<string>)
    ensures GroupsSum([], strata) == multiset{}
  {
    if strata != [] { NoGroups(strata[..|strata| - 1]); }
  }

  lemma {:induction false} SumIsGroups(rows: seq<Row>, strata: seq<string>, qs: seq<seq<Row>>)
    requires |qs| == |strata| && forall i :: 0 <= i < |qs| ==> QueueOf(qs[i], rows, strata[i])
    ensures Sum(qs) == GroupsSum(rows, strata)
  {
    if qs != [] { SumIsGroups(rows, strata[..|qs| - 1], qs[..|qs| - 1]); }
  }

  /** The draw is a permutation of the rows. */
  lemma {:induction false} DrawKeeps(rows: seq<Row>, rng: Rng, stratify: bool)
    requires Shuffles(rng)
    ensures multiset(Draw(rows, rng, stratify)) == multiset(rows)
  {
    var c := Canonical(rows);
    CanonicalIs(rows);
    if !stratify {
      PermutedSame(c, rng([], |c|));
    } else {
      var strata, qs := DrawQueues(c, rng);
      RoundRobinKeeps(qs);
      SumIsGroups(c, strata, qs);
      GroupsSumAll(c, strata);
    }
  }

  lemma {:induction false} CountInsert(s: seq<Row>, r: Row, x: string)
    ensures Count(Insert(s, r), x) == Count(s, x) + (if r.stratum == x then 1 else 0)
  {
    if s == [] || Before(Key(s[|s| - 1]), Key(r)) {
      CountConcat(s, [r], x);
      CountOne(r, x);
    } else {
      var m, y := s[..|s| - 1], s[|s| - 1];
      CountInsert(m, r, x);
      CountConcat(Insert(m, r), [y], x);
      CountConcat(m, [y], x);
      assert s == m + [y];
    }
  }

  lemma {:induction false} CountCanonical(rows: seq<Row>, x: string)
    ensures Count(Canonical(rows), x) == Count(rows, x)
  {
    if rows != [] {
      var m, r := rows[..|rows| - 1], rows[|rows| - 1];
      CountCanonical(m, x);
      CountInsert(Canonical(m), r, x);
    }
  }

  /** In every prefix of a stratified draw two strata differ by at most one row, unless the one with fewer
      is exhausted. */
  lemma {:induction false} DrawIsFair(rows: seq<Row>, rng: Rng, k: nat, x: string, y: string)
    requires Shuffles(rng) && k <= |Draw(rows, rng, true)|
    requires x in Names(rows) && y in Names(rows)
    ensures var p := Draw(rows, rng, true)[..k]; Count(p, x) + 1 < Count(p, y) ==> Count(p, x) == Count(rows, x)
  {
    var strata, qs := DrawQueues(Canonical(rows), rng);
    NamesDrawn(rows, strata);
    var i :| 0 <= i < |strata| && strata[i] == x;
    var j :| 0 <= j < |strata| && strata[j] == y;
    CountCanonical(rows, x);
    assert QueueOf(qs[i], Canonical(rows), x);
    RoundRobinFair(qs, strata, k, i, j);
  }

  lemma {:induction false} RoundRobinFair(qs: seq<seq<Row>>, strata: seq<string>, k: nat, i: nat, j: nat)
    requires Labelled(qs, strata) && k <= |RoundRobin(qs)| && i < |qs| && j < |qs|
    ensures var p := RoundRobin(qs)[..k];
      Count(p, strata[i]) + 1 < Count(p, strata[j]) ==> Count(p, strata[i]) == |qs[i]|
  {
    var r := Rounds(qs, strata, k);
  }

  function Names(rows: seq<Row>): set<string> {
    set r | r in rows :: r.stratum
  }

  lemma {:induction false} NamesDrawn(rows: seq<Row>, strata: seq<string>)
    requires forall i :: 0 <= i < |Canonical(rows)| ==> Canonical(rows)[i].stratum in strata
    ensures forall x :: x in Names(rows) ==> x in strata
  {
    CanonicalIs(rows);
    forall r | r in rows ensures r.stratum in strata {
      assert r in multiset(Canonical(rows));
    }
  }

  // ---- Independence of the input order ----

  /** The draw is the same however upstream orders the rows. */
  ghost predicate OrderFree(rows: seq<Row>, rng: Rng, stratify: bool)
    requires Shuffles(rng)
  {
    forall other: seq<Row> :: multiset(other) == multiset(rows) ==> Draw(other, rng, stratify) == Draw(rows, rng, stratify)
  }

  function WithKey(rows: seq<Row>, key: string): seq<Row> {
    if rows == [] then []
    else WithKey(rows[..|rows| - 1], key) + (if Key(rows[|rows| - 1]) == key then [rows[|rows| - 1]] else [])
  }

  lemma {:induction false} WithKeyConcat(a: seq<Row>, b: seq<Row>, key: string)
    ensures WithKey(a + b, key) == WithKey(a, key) + WithKey(b, key)
  {
    if b == [] {
      assert a + b == a;
    } else {
      WithKeyConcat(a, b[..|b| - 1], key);
      assert (a + b)[..|a + b| - 1] == a + b[..|b| - 1];
    }
  }

  lemma {:induction false} WithKeyOne(r: Row, key: string)
    ensures WithKey([r], key) == if Key(r) == key then [r] else []
  {
    assert [r][..0] == [];
  }

  /** The sort is stable: rows of one id stay in input order. */
  lemma {:induction false} InsertStable(s: seq<Row>, r: Row, key: string)
    ensures WithKey(Insert(s, r), key) == WithKey(s, key) + WithKey([r], key)
  {
    if s == [] || Before(Key(s[|s| - 1]), Key(r)) {
      WithKeyConcat(s, [r], key);
    } else {
      var m, y := s[..|s| - 1], s[|s| - 1];
      assert s == m + [y];
      BeforeTotal(Key(y), Key(r));
      InsertStable(m, r, key);
      WithKeyConcat(Insert(m, r), [y], key);
      WithKeyConcat(m, [y], key);
      OneKeyOnly(WithKey(m, key), y, r, key);
    }
  }

  lemma {:induction false} OneKeyOnly(w: seq<Row>, y: Row, r: Row, key: string)
    requires Key(y) != Key(r)
    ensures w + WithKey([r], key) + WithKey([y], key) == w + WithKey([y], key) + WithKey([r], key)
  {
    WithKeyOne(r, key);
    WithKeyOne(y, key);
  }

  lemma {:induction false} CanonicalStable(rows: seq<Row>, key: string)
    ensures WithKey(Canonical(rows), key) == WithKey(rows, key)
  {
    if rows != [] {
      var m, r := rows[..|rows| - 1], rows[|rows| - 1];
      CanonicalStable(m, key);
      InsertStable(Canonical(m), r, key);
      WithKeyLast(rows, key);
    }
  }

  lemma {:induction false} WithKeyLast(rows: seq<Row>, key: string)
    requires rows != []
    ensures WithKey(rows, key) == WithKey(rows[..|rows| - 1], key) + WithKey([rows[|rows| - 1]], key)
  {
    var m, r := rows[..|rows| - 1], rows[|rows| - 1];
    WithKeyConcat(m, [r], key);
    assert rows == m + [r];
  }

  lemma {:induction false} MoveFirst(rows: seq<Row>, i: nat) returns (other: seq<Row>)
    requires i < |rows|
    ensures multiset(other) == multiset(rows) && |other| == |rows|
    ensures WithKey(other, Key(rows[i])) != [] && WithKey(other, Key(rows[i]))[0] == rows[i]
  {
    var rest := rows[..i] + rows[i + 1..];
    other := [rows[i]] + rest;
    assert rows == rows[..i] + [rows[i]] + rows[i + 1..];
    WithKeyConcat([rows[i]], rest, Key(rows[i]));
    WithKeyOne(rows[i], Key(rows[i]));
  }

  lemma {:induction false} PermutedInjective(s: seq<Row>, t: seq<Row>, o: seq<nat>)
    requires |s| == |t| && IsOrder(o, |s|) && Permuted(s, o) == Permuted(t, o)
    ensures s == t
  {
    forall i | 0 <= i < |s| ensures s[i] == t[i] {
      assert i in o;
      var a :| 0 <= a < |o| && o[a] == i;
      assert Permuted(s, o)[a] == s[i] && Permuted(t, o)[a] == t[i];
    }
  }

  /** Exactly when the plain draw does not depend on the input order: no id string names two rows. */
  lemma {:induction false} PlainDrawOrder(rows: seq<Row>, rng: Rng)
    requires Shuffles(rng)
    ensures OrderFree(rows, rng, false) <==> OneRowPerId(multiset(rows))
  {
    if OneRowPerId(multiset(rows)) {
      DrawIgnoresOrder(rows, rng, false);
    }
    if OrderFree(rows, rng, false) {
      forall r, q | r in multiset(rows) && q in multiset(rows) && Key(r) == Key(q) ensures r == q {
        var i :| 0 <= i < |rows| && rows[i] == r;
        var j :| 0 <= j < |rows| && rows[j] == q;
        var a := MoveFirst(rows, i);
        var b := MoveFirst(rows, j);
        SameCanonical(a, rows, rng);
        SameCanonical(b, rows, rng);
        CanonicalStable(a, Key(r));
        CanonicalStable(b, Key(r));
      }
    }
  }

  lemma {:induction false} SameCanonical(a: seq<Row>, rows: seq<Row>, rng: Rng)
    requires Shuffles(rng) && OrderFree(rows, rng, false) && multiset(a) == multiset(rows) && |a| == |rows|
    ensures Canonical(a) == Canonical(rows)
  {
    CanonicalIs(a);
    CanonicalIs(rows);
    SameLength(Canonical(a), Canonical(rows));
    assert Draw(a, rng, false) == Draw(rows, rng, false);
    PermutedInjective(Canonical(a), Canonical(rows), rng([], |Canonical(rows)|));
  }

  // ---- Independence of a stratified draw ----

  /** No id string stands for two different rows of one stratum. */
  ghost predicate OneRowPerStratumId(rows: multiset<Row>) {
    forall r, q :: r in rows && q in rows && r.stratum == q.stratum && Key(r) == Key(q) ==> r == q
  }

  lemma {:induction false} GroupConcat(a: seq<Row>, b: seq<Row>, x: string)
    ensures Group(a + b, x) == Group(a, x) + Group(b, x)
  {
    if b == [] {
      assert a + b == a;
    } else {
      GroupConcat(a, b[..|b| - 1], x);
      assert (a + b)[..|a + b| - 1] == a + b[..|b| - 1];
    }
  }

  lemma {:induction false} GroupOne(r: Row, x: string)
    ensures Group([r], x) == if r.stratum == x then [r] else []
  {
    assert [r][..0] == [] && Group([], x) == [];
  }

  /** A group is the rows of its stratum, as often as they occur, and in the order they occur in. */
  lemma {:induction false} GroupCounts(rows: seq<Row>, x: string, r: Row)
    ensures multiset(Group(rows, x))[r] == if r.stratum == x then multiset(rows)[r] else 0
  {
    if rows != [] {
      GroupCounts(rows[..|rows| - 1], x, r);
      assert rows == rows[..|rows| - 1] + [rows[|rows| - 1]];
    }
  }

  lemma {:induction false} GroupInOrder(rows: seq<Row>, x: string)
    requires InOrder(rows)
    ensures InOrder(Group(rows, x))
    ensures forall r :: r in Group(rows, x) ==> r in rows
  {
    if rows != [] {
      var m, y := rows[..|rows| - 1], rows[|rows| - 1];
      GroupInOrder(m, x);
      forall i | 0 <= i < |Group(m, x)| ensures Before(Key(Group(m, x)[i]), Key(y)) {
        assert Group(m, x)[i] in m;
      }
    }
  }

  lemma {:induction false} SameGroup(a: seq<Row>, b: seq<Row>, x: string)
    requires multiset(a) == multiset(b) && OneRowPerStratumId(multiset(a)) && InOrder(a) && InOrder(b)
    ensures Group(a, x) == Group(b, x)
  {
    GroupInOrder(a, x);
    GroupInOrder(b, x);
    forall r ensures multiset(Group(a, x))[r] == multiset(Group(b, x))[r] {
      GroupCounts(a, x, r);
      GroupCounts(b, x, r);
    }
    assert multiset(Group(a, x)) == multiset(Group(b, x));
    forall r, q | r in multiset(Group(a, x)) && q in multiset(Group(a, x)) && Key(r) == Key(q) ensures r == q {
      GroupCounts(a, x, r);
      GroupCounts(a, x, q);
    }
    OneOrder(Group(a, x), Group(b, x));
  }

  // The strata are sorted, so their order depends only on which there are.

  ghost predicate NamesInOrder(s: seq<string>) {
    forall i, j :: 0 <= i < j < |s| ==> Before(s[i], s[j])
  }

  lemma {:induction false} InsertNameInOrder(s: seq<string>, x: string)
    requires NamesInOrder(s)
    ensures NamesInOrder(InsertName(s, x))
  {
    if s != [] {
      var m, y := s[..|s| - 1], s[|s| - 1];
      BeforeTotal(y, x);
      if Before(y, x) {
        forall i | 0 <= i < |s| ensures Before(s[i], x) {
          if i < |m| { BeforeTransitive(s[i], y, x); }
        }
      } else {
        InsertNameInOrder(m, x);
        forall i | 0 <= i < |InsertName(m, x)| ensures Before(InsertName(m, x)[i], y) {
          assert InsertName(m, x)[i] in InsertName(m, x);
        }
      }
    }
  }

  lemma {:induction false} StrataInOrder(rows: seq<Row>)
    ensures NamesInOrder(Strata(rows))
  {
    if rows != [] {
      StrataInOrder(rows[..|rows| - 1]);
      InsertNameInOrder(Strata(rows[..|rows| - 1]), rows[|rows| - 1].stratum);
    }
  }

  lemma {:induction false} OneNameOrder(a: seq<string>, b: seq<string>)
    requires NamesInOrder(a) && NamesInOrder(b) && Distinct(a) && Distinct(b) && forall x :: x in a <==> x in b
    ensures a == b
    decreases |a|
  {
    assert (a != [] ==> a[0] in b) && (b != [] ==> b[0] in a);
    if a != [] && b != [] {
      FirstName(a, b);
      FirstName(b, a);
      BeforeTotal(a[0], b[0]);
      assert a[0] !in a[1..] && b[0] !in b[1..];
      forall x ensures x in a[1..] <==> x in b[1..] {
        InRest(a, x);
        InRest(b, x);
        assert x in a <==> x in b;
      }
      OneNameOrder(a[1..], b[1..]);
      assert a == [a[0]] + a[1..] && b == [b[0]] + b[1..];
    }
  }

  lemma {:induction false} InRest(s: seq<string>, x: string)
    requires s != []
    ensures x in s <==> x == s[0] || x in s[1..]
  {
    assert s == [s[0]] + s[1..];
  }

  lemma {:induction false} FirstName(a: seq<string>, b: seq<string>)
    requires NamesInOrder(a) && a != [] && b != [] && b[0] in a
    ensures Before(a[0], b[0])
  {
    var i :| 0 <= i < |a| && a[i] == b[0];
    if i == 0 { BeforeTotal(a[0], a[0]); }
  }

  lemma {:induction false} SameStrata(a: seq<Row>, b: seq<Row>)
    requires multiset(a) == multiset(b)
    ensures Strata(a) == Strata(b)
  {
    StrataInOrder(a);
    StrataInOrder(b);
    StrataDistinct(a);
    StrataDistinct(b);
    forall x ensures x in Strata(a) <==> x in Strata(b) {
      StrataWithin(a, b, x);
      StrataWithin(b, a, x);
    }
    OneNameOrder(Strata(a), Strata(b));
  }

  lemma {:induction false} StrataWithin(a: seq<Row>, b: seq<Row>, x: string)
    requires multiset(a) == multiset(b)
    ensures x in Strata(a) ==> x in Strata(b)
  {
    if x in Strata(a) {
      var i :| 0 <= i < |a| && a[i].stratum == x;
      assert a[i] in multiset(b);
      var j :| 0 <= j < |b| && b[j] == a[i];
    }
  }

  lemma {:induction false} SameQueues(a: seq<Row>, b: seq<Row>, strata: seq<string>, rng: Rng, j: nat)
    requires j <= |strata| && Shuffles(rng) && forall x :: Group(a, x) == Group(b, x)
    ensures Lengths(a, strata, j) == Lengths(b, strata, j)
    ensures Queues(a, strata, rng, j) == Queues(b, strata, rng, j)
  {
    if j > 0 { SameQueues(a, b, strata, rng, j - 1); }
  }

  /** No id string names two rows whose order the shuffles see. */
  ghost predicate OneRow(rows: multiset<Row>, stratify: bool) {
    if stratify then OneRowPerStratumId(rows) else OneRowPerId(rows)
  }

  lemma {:induction false} DrawIgnoresOrder(rows: seq<Row>, rng: Rng, stratify: bool)
    requires Shuffles(rng) && OneRow(multiset(rows), stratify)
    ensures OrderFree(rows, rng, stratify)
  {
    forall other: seq<Row> | multiset(other) == multiset(rows)
      ensures Draw(other, rng, stratify) == Draw(rows, rng, stratify)
    {
      var a, b := Canonical(rows), Canonical(other);
      CanonicalIs(rows);
      CanonicalIs(other);
      if stratify {
        SameStrata(a, b);
        forall x ensures Group(a, x) == Group(b, x) {
          SameGroup(a, b, x);
        }
        SameQueues(a, b, ShuffledStrata(a, rng), rng, |ShuffledStrata(a, rng)|);
      } else {
        OneOrder(a, b);
      }
    }
  }

  // What a draw says about its groups.

  function Top(q: seq<Row>): seq<Row> {
    if q == [] then [] else [q[0]]
  }

  lemma {:induction false} TopGroup(before: seq<Row>, q: seq<Row>, y: string, x: string)
    requires q != [] ==> q[0].stratum == y
    ensures Group(before + Top(q), x) == Group(before, x) + (if x == y then Top(q) else [])
  {
    GroupConcat(before, Top(q), x);
    if q != [] { GroupOne(q[0], x); }
  }

  lemma {:induction false} NoGroup(rows: seq<Row>, x: string)
    requires Count(rows, x) == 0
    ensures Group(rows, x) == []
  {
  }

  lemma {:induction false} HeadsGroup(qs: seq<seq<Row>>, strata: seq<string>, j: nat)
    requires Labelled(qs, strata) && j < |qs|
    ensures Group(Heads(qs), strata[j]) == Top(qs[j])
  {
    var n := |qs| - 1;
    var before := Heads(qs[..n]);
    assert Heads(qs) == before + Top(qs[n]);
    TopGroup(before, qs[n], strata[n], strata[j]);
    if j < n {
      HeadsGroup(qs[..n], strata[..n], j);
    } else {
      NoHead(qs[..n], strata[..n], |before|, strata[n]);
      assert before[..|before|] == before;
      NoGroup(before, strata[n]);
      assert [] + Top(qs[n]) == Top(qs[n]);
    }
  }

  lemma {:induction false} TailsLabelled(qs: seq<seq<Row>>, strata: seq<string>)
    requires Labelled(qs, strata)
    ensures Labelled(Tails(qs), strata)
  {
  }

  /** Round robin keeps the order within each queue. */
  lemma {:induction false} RoundRobinGroup(qs: seq<seq<Row>>, strata: seq<string>, j: nat)
    requires Labelled(qs, strata) && j < |qs|
    ensures Group(RoundRobin(qs), strata[j]) == qs[j]
    decreases Left(qs)
  {
    HeadsLeft(qs);
    if Left(qs) == 0 {
      NoneLeft(qs, j);
    } else {
      TailsLabelled(qs, strata);
      RoundRobinGroup(Tails(qs), strata, j);
      HeadsGroup(qs, strata, j);
      GroupConcat(Heads(qs), RoundRobin(Tails(qs)), strata[j]);
      TopRest(qs[j]);
    }
  }

  lemma {:induction false} TopRest(q: seq<Row>)
    ensures Top(q) + Rest(q) == q
  {
  }

  lemma {:induction false} NoneLeft(qs: seq<seq<Row>>, j: nat)
    requires Left(qs) == 0 && j < |qs|
    ensures qs[j] == []
  {
    if j < |qs| - 1 { NoneLeft(qs[..|qs| - 1], j); }
  }

  /** Equal stratified draws come from equal groups. */
  lemma {:induction false} DrawTellsGroups(a: seq<Row>, b: seq<Row>, rng: Rng, x: string)
    requires Shuffles(rng) && multiset(a) == multiset(b) && x in Names(a)
    requires Draw(a, rng, true) == Draw(b, rng, true)
    ensures Group(Canonical(a), x) == Group(Canonical(b), x)
  {
    var c, d := Canonical(a), Canonical(b);
    CanonicalIs(a);
    CanonicalIs(b);
    SameStrata(c, d);
    var strata, qs := DrawQueues(c, rng);
    var strata', qs' := DrawQueues(d, rng);
    NamesDrawn(a, strata);
    var j :| 0 <= j < |strata| && strata[j] == x;
    RoundRobinGroup(qs, strata, j);
    RoundRobinGroup(qs', strata, j);
    SameBefore(c, d, strata, rng, j);
  }

  lemma {:induction false} SameBefore(c: seq<Row>, d: seq<Row>, strata: seq<string>, rng: Rng, j: nat)
    requires Shuffles(rng) && j < |strata| && multiset(c) == multiset(d)
    requires Queues(c, strata, rng, |strata|)[j] == Queues(d, strata, rng, |strata|)[j]
    ensures Group(c, strata[j]) == Group(d, strata[j])
  {
    var x := strata[j];
    forall y ensures Count(c, y) == Count(d, y) {
      forall r ensures multiset(Group(c, y))[r] == multiset(Group(d, y))[r] {
        GroupCounts(c, y, r);
        GroupCounts(d, y, r);
      }
      assert multiset(Group(c, y)) == multiset(Group(d, y));
      SameLength(Group(c, y), Group(d, y));
    }
    SameLengths(c, d, strata, j);
    QueueIsShuffled(c, strata, rng, |strata|, j);
    QueueIsShuffled(d, strata, rng, |strata|, j);
    PermutedInjective(Group(c, x), Group(d, x), rng(Lengths(c, strata, j), Count(c, x)));
  }

  lemma {:induction false} SameLengths(c: seq<Row>, d: seq<Row>, strata: seq<string>, j: nat)
    requires j <= |strata| && forall y :: Count(c, y) == Count(d, y)
    ensures Lengths(c, strata, j) == Lengths(d, strata, j)
  {
    if j > 0 {
      SameLengths(c, d, strata, j - 1);
      assert Count(c, strata[j - 1]) == Count(d, strata[j - 1]);
    }
  }

  lemma {:induction false} QueueIsShuffled(rows: seq<Row>, strata: seq<string>, rng: Rng, n: nat, j: nat)
    requires Shuffles(rng) && j < n <= |strata|
    ensures var g := Group(rows, strata[j]);
      Queues(rows, strata, rng, n)[j] == Permuted(g, rng(Lengths(rows, strata, j), |g|))
  {
    if j < n - 1 { QueueIsShuffled(rows, strata, rng, n - 1, j); }
  }

  lemma {:induction false} GroupWithKey(s: seq<Row>, key: string, x: string)
    ensures Group(WithKey(s, key), x) == WithKey(Group(s, x), key)
  {
    if s != [] {
      var m, y := s[..|s| - 1], s[|s| - 1];
      GroupWithKey(m, key, x);
      GroupConcat(WithKey(m, key), WithKey([y], key), x);
      WithKeyConcat(Group(m, x), Group([y], x), key);
      WithKeyOne(y, key);
      GroupOne(y, x);
      assert Group([], x) == [] && WithKey([], key) == [];
      assert WithKey(m, key) + [] == WithKey(m, key) && Group(m, x) + [] == Group(m, x);
    }
  }

  /** The first row of a stratum and an id string among those of the id string that come first. */
  lemma {:induction false} FirstOfGroup(s: seq<Row>, r: Row)
    requires s != [] && s[0] == r
    ensures Group(s, r.stratum) != [] && Group(s, r.stratum)[0] == r
  {
    assert s == [r] + s[1..];
    GroupConcat([r], s[1..], r.stratum);
    GroupOne(r, r.stratum);
  }

  lemma {:induction false} CanonicalPick(other: seq<Row>, r: Row)
    requires WithKey(other, Key(r)) != [] && WithKey(other, Key(r))[0] == r
    ensures var picked := WithKey(Group(Canonical(other), r.stratum), Key(r)); picked != [] && picked[0] == r
  {
    CanonicalStable(other, Key(r));
    GroupWithKey(Canonical(other), Key(r), r.stratum);
    FirstOfGroup(WithKey(other, Key(r)), r);
  }

  /** Exactly when a stratified draw does not depend on the input order: no id string names two rows of one
      stratum. */
  lemma {:induction false} StratifiedDrawOrder(rows: seq<Row>, rng: Rng)
    requires Shuffles(rng)
    ensures OrderFree(rows, rng, true) <==> OneRowPerStratumId(multiset(rows))
  {
    if OneRowPerStratumId(multiset(rows)) {
      DrawIgnoresOrder(rows, rng, true);
    }
    if OrderFree(rows, rng, true) {
      forall r, q | r in multiset(rows) && q in multiset(rows) && r.stratum == q.stratum && Key(r) == Key(q)
        ensures r == q
      {
        SamePick(rows, rng, r, q);
      }
    }
  }

  lemma {:induction false} SamePick(rows: seq<Row>, rng: Rng, r: Row, q: Row)
    requires Shuffles(rng) && OrderFree(rows, rng, true) && r in rows && q in rows
    requires r.stratum == q.stratum && Key(r) == Key(q)
    ensures r == q
  {
    var i :| 0 <= i < |rows| && rows[i] == r;
    var j :| 0 <= j < |rows| && rows[j] == q;
    var a := MoveFirst(rows, i);
    var b := MoveFirst(rows, j);
    assert r in multiset(a);
    DrawTellsGroups(a, b, rng, r.stratum);
    CanonicalPick(a, r);
    CanonicalPick(b, q);
  }

  // ---- The draw's loops ----

  /** groups.setdefault(stratum, []).append(row), row by row. */
  function GroupMap(rows: seq<Row>): map<string, seq<Row>> {
    if rows == [] then map[]
    else
      var g, r := GroupMap(rows[..|rows| - 1]), rows[|rows| - 1];
      g[r.stratum := (if r.stratum in g then g[r.stratum] else []) + [r]]
  }

  lemma {:induction false} GroupMapIs(rows: seq<Row>, x: string)
    ensures x in GroupMap(rows) <==> x in Strata(rows)
    ensures Group(rows, x) == if x in GroupMap(rows) then GroupMap(rows)[x] else []
  {
    if rows != [] { GroupMapIs(rows[..|rows| - 1], x); }
  }

  lemma {:induction false} GroupsNext(rows: seq<Row>, i: nat)
    requires i < |rows|
    ensures var g, names, r := GroupMap(rows[..i]), Strata(rows[..i]), rows[i];
      && (r.stratum in g <==> r.stratum in names)
      && GroupMap(rows[..i + 1]) == g[r.stratum := (if r.stratum in g then g[r.stratum] else []) + [r]]
      && Strata(rows[..i + 1]) == (if r.stratum in names then names else InsertName(names, r.stratum))
  {
    assert rows[..i + 1][..i] == rows[..i];
    GroupMapIs(rows[..i], rows[i].stratum);
  }

  method GroupRows(rows: seq<Row>) returns (groups: map<string, seq<Row>>, names: seq<string>)
    ensures groups == GroupMap(rows) && names == Strata(rows)
  {
    groups, names := map[], [];
    assert rows[..0] == [];
    for i := 0 to |rows|
      invariant groups == GroupMap(rows[..i]) && names == Strata(rows[..i])
    {
      var x := rows[i].stratum;
      GroupsNext(rows, i);
      if x !in groups {
        groups, names := groups[x := []], InsertName(names, x);
      }
      groups := groups[x := groups[x] + [rows[i]]];
    }
    assert rows[..|rows|] == rows;
  }

  /** Each group shuffled, in the strata's order. */
  method ShuffleGroups(rows: seq<Row>, groups: map<string, seq<Row>>, strata: seq<string>, rng: Rng)
    returns (queues: seq<seq<Row>>)
    requires Shuffles(rng) && forall j :: 0 <= j < |strata| ==> strata[j] in groups && groups[strata[j]] == Group(rows, strata[j])
    ensures queues == Queues(rows, strata, rng, |strata|)
  {
    queues := [];
    var shuffled := [|strata|];
    for j := 0 to |strata|
      invariant queues == Queues(rows, strata, rng, j) && shuffled == Lengths(rows, strata, j)
    {
      var g := groups[strata[j]];
      queues := queues + [Permuted(g, rng(shuffled, |g|))];
      shuffled := shuffled + [|g|];
    }
  }

  /** One row of each queue in turn while any is left. */
  method TakeTurns(initial: seq<seq<Row>>) returns (ordered: seq<Row>)
    ensures ordered == RoundRobin(initial)
  {
    var queues := initial;
    ordered := [];
    while Left(queues) > 0
      invariant ordered + RoundRobin(queues) == RoundRobin(initial)
      decreases Left(queues)
    {
      HeadsLeft(queues);
      ghost var before, was := ordered, queues;
      var heads;
      heads, queues := Round(queues);
      ordered := ordered + heads;
      assert before + (Heads(was) + RoundRobin(queues)) == ordered + RoundRobin(queues);
    }
    assert ordered + [] == ordered;
  }

  method Round(initial: seq<seq<Row>>) returns (ordered: seq<Row>, queues: seq<seq<Row>>)
    ensures ordered == Heads(initial) && queues == Tails(initial)
  {
    ordered, queues := [], initial;
    for j := 0 to |initial|
      invariant |queues| == |initial| && ordered == Heads(initial[..j])
      invariant forall i :: 0 <= i < j ==> queues[i] == Rest(initial[i])
      invariant forall i :: j <= i < |initial| ==> queues[i] == initial[i]
    {
      assert initial[..j + 1][..j] == initial[..j];
      if queues[j] != [] {
        ordered := ordered + [queues[j][0]];
        queues := queues[j := queues[j][1..]];
      }
    }
    assert initial[..|initial|] == initial;
  }

  method OrderedDraw(rows: seq<Row>, rng: Rng, stratify: bool) returns (ordered: seq<Row>)
    requires Shuffles(rng)
    ensures ordered == Draw(rows, rng, stratify)
  {
    var canonical := Canonical(rows);
    if !stratify { return Permuted(canonical, rng([], |canonical|)); }
    var groups, names := GroupRows(canonical);
    var strata := Permuted(names, rng([], |names|));
    forall j | 0 <= j < |strata|
      ensures strata[j] in groups && groups[strata[j]] == Group(canonical, strata[j])
    {
      GroupMapIs(canonical, strata[j]);
    }
    var queues := ShuffleGroups(canonical, groups, strata, rng);
    ordered := TakeTurns(queues);
  }

  // ---- Exclusions and tiers ----

  datatype DrawError = UnknownExclusions(ids: set<string>) | TooSmall

  function Surviving(ordered: seq<Row>, excluded: set<string>): seq<Row> {
    if ordered == [] then []
    else (if Key(ordered[0]) in excluded then [] else [ordered[0]]) + Surviving(ordered[1..], excluded)
  }

  function Keys(rows: seq<Row>): set<string> {
    set r | r in rows :: Key(r)
  }

  /** Excluding nothing returns the draw as it is. */
  method ApplyExclusions(excluded: set<string>, ordered: seq<Row>) returns (r: Result<seq<Row>, DrawError>)
    ensures r == if excluded <= Keys(ordered) then Ok(Surviving(ordered, excluded))
                 else Err(UnknownExclusions(excluded - Keys(ordered)))
  {
    if excluded == {} {
      NothingExcluded(ordered);
      return Ok(ordered);
    }
    var missing := excluded - Keys(ordered);
    assert forall x :: x in missing <==> x in excluded && x !in Keys(ordered);
    if missing != {} { return Err(UnknownExclusions(missing)); }
    r := Ok(Surviving(ordered, excluded));
  }

  lemma {:induction false} NothingExcluded(ordered: seq<Row>)
    ensures Surviving(ordered, {}) == ordered
  {
    if ordered != [] { NothingExcluded(ordered[1..]); }
  }

  datatype Tiers = Tiers(dev: seq<RawId>, milestone: seq<RawId>, test: seq<RawId>)

  function Ids(rows: seq<Row>): (r: seq<RawId>)
    ensures |r| == |rows|
  {
    seq(|rows|, i requires 0 <= i < |rows| => rows[i].id)
  }

  /** The tiers are the draw, cut: nothing lost, nothing twice, and a test tier left over; exactly the draws
      too short for that are refused. */
  method SplitIds(ordered: seq<Row>, devN: nat, milestoneN: nat) returns (r: Result<Tiers, DrawError>)
    ensures r.Ok? <==> |ordered| > devN + milestoneN
    ensures r.Ok? ==> r.value.dev + r.value.milestone + r.value.test == Ids(ordered)
    ensures |Ids(ordered)| == |ordered| && forall i :: 0 <= i < |ordered| ==> Ids(ordered)[i] == ordered[i].id
    ensures r.Ok? ==> |r.value.dev| == devN && |r.value.milestone| == milestoneN && r.value.test != []
    ensures r.Err? ==> r.error == TooSmall
  {
    if |ordered| <= devN + milestoneN { return Err(TooSmall); }
    var ids := Ids(ordered);
    r := Ok(Tiers(ids[..devN], ids[devN..devN + milestoneN], ids[devN + milestoneN..]));
    assert ids == ids[..devN] + ids[devN..devN + milestoneN] + ids[devN + milestoneN..];
  }

  /** Excluded rows leave, the others keep their order: each exclusion promotes what comes after it. */
  lemma {:induction false} SurvivingConcat(a: seq<Row>, b: seq<Row>, excluded: set<string>)
    ensures Surviving(a + b, excluded) == Surviving(a, excluded) + Surviving(b, excluded)
  {
    if a == [] {
      assert a + b == b;
    } else {
      SurvivingConcat(a[1..], b, excluded);
      assert (a + b)[1..] == a[1..] + b && (a + b)[0] == a[0];
      Associative(if Key(a[0]) in excluded then [] else [a[0]], Surviving(a[1..], excluded), Surviving(b, excluded));
    }
  }

  lemma {:induction false} Associative(a: seq<Row>, b: seq<Row>, c: seq<Row>)
    ensures a + b + c == a + (b + c)
  {
  }

  lemma {:induction false} SurvivingAre(ordered: seq<Row>, excluded: set<string>, r: Row)
    ensures multiset(Surviving(ordered, excluded))[r] == if Key(r) in excluded then 0 else multiset(ordered)[r]
  {
    if ordered != [] {
      SurvivingAre(ordered[1..], excluded, r);
      assert ordered == [ordered[0]] + ordered[1..];
    }
  }

  /** From rows to tiers: the three tiers together are exactly the rows not excluded, in draw order. */
  method FreezeTiers(rows: seq<Row>, rng: Rng, stratify: bool, excluded: set<string>, devN: nat, milestoneN: nat)
    returns (r: Result<Tiers, DrawError>)
    requires Shuffles(rng)
    ensures r.Ok? ==> r.value.dev + r.value.milestone + r.value.test == Ids(Surviving(Draw(rows, rng, stratify), excluded))
    ensures r.Ok? ==> |r.value.dev| == devN && |r.value.milestone| == milestoneN && r.value.test != []
    ensures r.Ok? <==> excluded <= Keys(rows) && |Surviving(Draw(rows, rng, stratify), excluded)| > devN + milestoneN
  {
    var ordered := OrderedDraw(rows, rng, stratify);
    DrawnKeys(rows, rng, stratify);
    var left := ApplyExclusions(excluded, ordered);
    if left.Err? { return Err(left.error); }
    r := SplitIds(left.value, devN, milestoneN);
  }

  lemma {:induction false} DrawnKeys(rows: seq<Row>, rng: Rng, stratify: bool)
    requires Shuffles(rng)
    ensures Keys(Draw(rows, rng, stratify)) == Keys(rows)
  {
    var d := Draw(rows, rng, stratify);
    DrawKeeps(rows, rng, stratify);
    forall r ensures r in d <==> r in rows {
      assert r in multiset(d) <==> r in multiset(rows);
    }
  }

  // ---- The draw, place by place ----

  /** The i-th row of a plain draw is the canonical row the generator's permutation names. */
  lemma {:induction false} PlainDrawAt(rows: seq<Row>, rng: Rng, i: nat)
    requires Shuffles(rng) && i < |rows|
    ensures |Canonical(rows)| == |rows| == |Draw(rows, rng, false)| && rng([], |rows|)[i] < |rows|
    ensures Draw(rows, rng, false)[i] == Canonical(rows)[rng([], |rows|)[i]]
  {
    CanonicalIs(rows);
    SameLength(Canonical(rows), rows);
    assert IsOrder(rng([], |rows|), |rows|);
  }

  lemma {:induction false} OneOfHeads(qs: seq<seq<Row>>, strata: seq<string>, a: nat)
    requires Labelled(qs, strata) && a < |Heads(qs)|
    ensures Heads(qs)[a].stratum in strata
  {
    var n := |qs| - 1;
    if a < |Heads(qs[..n])| {
      OneOfHeads(qs[..n], strata[..n], a);
    } else {
      assert Heads(qs)[a] == qs[n][0] && strata[n] in strata;
    }
  }

  /** A round goes through the strata in their order. */
  lemma {:induction false} HeadsOrder(qs: seq<seq<Row>>, strata: seq<string>, a: nat, b: nat, ja: nat, jb: nat)
    requires Labelled(qs, strata) && a < b < |Heads(qs)| && ja < |qs| && jb < |qs|
    requires Heads(qs)[a].stratum == strata[ja] && Heads(qs)[b].stratum == strata[jb]
    ensures ja < jb
  {
    var n := |qs| - 1;
    var before := Heads(qs[..n]);
    assert a < |before| && Heads(qs)[a] == before[a];
    OneOfHeads(qs[..n], strata[..n], a);
    assert ja < n;
    if b < |before| {
      assert Heads(qs)[b] == before[b];
      OneOfHeads(qs[..n], strata[..n], b);
      HeadsOrder(qs[..n], strata[..n], a, b, ja, jb);
    } else {
      assert Heads(qs)[b] == qs[n][0];
    }
  }

  lemma {:induction false} FirstInRound(qs: seq<seq<Row>>, strata: seq<string>, a: nat, j: nat)
    requires Labelled(qs, strata) && a < |Heads(qs)| && j < |qs| && Heads(qs)[a].stratum == strata[j]
    ensures Count(Heads(qs)[..a], strata[j]) == 0
  {
    var h := Heads(qs);
    HeadsCount(qs, strata, a + 1, j);
    assert h[..a + 1] == h[..a] + [h[a]];
    CountConcat(h[..a], [h[a]], strata[j]);
    CountOne(h[a], strata[j]);
  }

  /** After the first round a row has one more of its stratum before it. */
  lemma {:induction false} LaterRound(qs: seq<seq<Row>>, strata: seq<string>, b: nat, j: nat)
    requires Labelled(qs, strata) && Labelled(Tails(qs), strata) && b < |RoundRobin(Tails(qs))| && j < |qs|
    requires RoundRobin(Tails(qs))[b].stratum == strata[j]
    ensures Count(Heads(qs) + RoundRobin(Tails(qs))[..b], strata[j]) == 1 + Count(RoundRobin(Tails(qs))[..b], strata[j])
  {
    var t := RoundRobin(Tails(qs));
    RoundRobinGroup(Tails(qs), strata, j);
    InGroup(t, b);
    assert Tails(qs)[j] == Rest(qs[j]);
    WholeRound(qs, strata, t[..b], j);
  }

  lemma {:induction false} InGroup(rows: seq<Row>, b: nat)
    requires b < |rows|
    ensures Group(rows, rows[b].stratum) != []
  {
    if b < |rows| - 1 { InGroup(rows[..|rows| - 1], b); }
  }

  /** Counts at a place of the first round, and at a later one. */
  lemma {:induction false} RoundCounts(qs: seq<seq<Row>>, strata: seq<string>, b: nat, j: nat)
    requires Labelled(qs, strata) && b < |RoundRobin(qs)| && j < |qs| && RoundRobin(qs)[b].stratum == strata[j]
    ensures b < |Heads(qs)| ==> Heads(qs)[b] == RoundRobin(qs)[b] && Count(RoundRobin(qs)[..b], strata[j]) == 0
    ensures b >= |Heads(qs)| ==>
      var t, k := RoundRobin(Tails(qs)), b - |Heads(qs)|;
      k < |t| && t[k] == RoundRobin(qs)[b] && Count(RoundRobin(qs)[..b], strata[j]) == 1 + Count(t[..k], strata[j])
  {
    HeadsLeft(qs);
    TailsLabelled(qs, strata);
    var h, t := Heads(qs), RoundRobin(Tails(qs));
    assert RoundRobin(qs) == h + t;
    if b < |h| {
      assert RoundRobin(qs)[..b] == h[..b];
      FirstInRound(qs, strata, b, j);
    } else {
      assert RoundRobin(qs)[..b] == h + t[..b - |h|];
      LaterRound(qs, strata, b - |h|, j);
    }
  }

  /** Rows come by how many of their stratum are before them, and at equal numbers by stratum. */
  lemma {:induction false} RoundOrder(qs: seq<seq<Row>>, strata: seq<string>, a: nat, b: nat, ja: nat, jb: nat)
    requires Labelled(qs, strata) && a < b < |RoundRobin(qs)| && ja < |qs| && jb < |qs|
    requires RoundRobin(qs)[a].stratum == strata[ja] && RoundRobin(qs)[b].stratum == strata[jb]
    ensures var ra, rb := Count(RoundRobin(qs)[..a], strata[ja]), Count(RoundRobin(qs)[..b], strata[jb]);
      ra < rb || (ra == rb && ja < jb)
    decreases Left(qs)
  {
    HeadsLeft(qs);
    RoundCounts(qs, strata, a, ja);
    RoundCounts(qs, strata, b, jb);
    if b < |Heads(qs)| {
      HeadsOrder(qs, strata, a, b, ja, jb);
    } else if a >= |Heads(qs)| {
      TailsLabelled(qs, strata);
      RoundOrder(Tails(qs), strata, a - |Heads(qs)|, b - |Heads(qs)|, ja, jb);
    }
  }

  /** The i-th drawn row of a stratum is the row of its group, in canonical order, that the generator's permutation
      names; rows come by how many of their stratum are before them, and at equal numbers by the shuffled strata. */
  lemma {:induction false} StratifiedDrawAt(rows: seq<Row>, rng: Rng, j: nat, i: nat)
    requires Shuffles(rng)
    requires var c := Canonical(rows); j < |Strata(c)| && i < |Group(c, ShuffledStrata(c, rng)[j])|
    ensures var c, d := Canonical(rows), Draw(rows, rng, true);
      var strata := ShuffledStrata(c, rng);
      var g, o := Group(c, strata[j]), rng(Lengths(c, strata, j), |Group(c, strata[j])|);
      && rng([], |strata|)[j] < |strata| && strata[j] == Strata(c)[rng([], |strata|)[j]]
      && |Group(d, strata[j])| == |g| && o[i] < |g| && Group(d, strata[j])[i] == g[o[i]]
  {
    var c := Canonical(rows);
    var strata, qs := DrawQueues(c, rng);
    assert strata == ShuffledStrata(c, rng);
    RoundRobinGroup(qs, strata, j);
    QueueIsShuffled(c, strata, rng, |strata|, j);
    assert IsOrder(rng([], |strata|), |strata|);
    assert IsOrder(rng(Lengths(c, strata, j), |Group(c, strata[j])|), |Group(c, strata[j])|);
  }

  lemma {:induction false} DrawRounds(rows: seq<Row>, rng: Rng, a: nat, b: nat, ja: nat, jb: nat)
    requires Shuffles(rng) && a < b < |Draw(rows, rng, true)|
    requires var strata, d := ShuffledStrata(Canonical(rows), rng), Draw(rows, rng, true);
      ja < |strata| && jb < |strata| && d[a].stratum == strata[ja] && d[b].stratum == strata[jb]
    ensures var d := Draw(rows, rng, true);
      var ra, rb := |Group(d[..a], d[a].stratum)|, |Group(d[..b], d[b].stratum)|;
      ra < rb || (ra == rb && ja < jb)
  {
    var strata, qs := DrawQueues(Canonical(rows), rng);
    RoundOrder(qs, strata, a, b, ja, jb);
  }
}

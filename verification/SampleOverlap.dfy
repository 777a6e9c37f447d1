/** Overlap measurement of concurrent samples (src-inspect-ai/src/seon_inspect/host.py): what each sample
    reports about the others, over every interleaving of its two critical sections. */
module SampleOverlap {
  import opened Options

  type Id = string

  /** The critical sections of `run_sample`, in the order the lock admits them. `End` may raise before it
      records anything, when the store cannot be measured, and after it, when the summary cannot be written. */
  datatype Event = Begin(id: Id) | End(id: Id, ok: bool, written: bool) | EndRaises(id: Id)

  /** `noted` is each sample's local `overlaps` after its begin, `reported` what it returns; a sample that failed,
      or whose summary was not written, returns nothing. */
  datatype State = State(active: set<Id>, completed: nat, errored: nat, noted: map<Id, set<Id>>, reported: map<Id, set<Id>>)

  const IDLE := State({}, 0, 0, map[], map[])

  function Began(st: State, id: Id): State {
    st.(noted := st.noted[id := st.active], active := st.active + {id})
  }

  function Ended(st: State, id: Id, ok: bool, written: bool): State
    requires id in st.noted
  {
    State(st.active - {id}, st.completed + (if ok then 1 else 0), st.errored + (if ok then 0 else 1), st.noted,
          if ok && written then st.reported[id := st.noted[id] + (st.active - {id})] else st.reported)
  }

  // ---- Runs ----

  predicate Begun(h: seq<Event>, k: nat, x: Id)
    requires k <= |h|
  {
    k > 0 && (h[k - 1] == Begin(x) || Begun(h, k - 1, x))
  }

  /** The sample's end has been recorded. */
  predicate Left(h: seq<Event>, k: nat, x: Id)
    requires k <= |h|
  {
    k > 0 && ((h[k - 1].End? && h[k - 1].id == x) || Left(h, k - 1, x))
  }

  /** The sample is over, recorded or not. */
  predicate Over(h: seq<Event>, k: nat, x: Id)
    requires k <= |h|
  {
    k > 0 && ((!h[k - 1].Begin? && h[k - 1].id == x) || Over(h, k - 1, x))
  }

  /** Distinct samples: each begins once and, having begun, ends at most once. */
  predicate Legal(h: seq<Event>, k: nat)
    requires k <= |h|
  {
    k > 0 ==>
      Legal(h, k - 1)
      && (if h[k - 1].Begin? then !Begun(h, k - 1, h[k - 1].id)
          else Begun(h, k - 1, h[k - 1].id) && !Over(h, k - 1, h[k - 1].id))
  }

  function After(st: State, e: Event): State
    requires e.End? ==> e.id in st.noted
  {
    match e
    case Begin(id) => Began(st, id)
    case End(id, ok, written) => Ended(st, id, ok, written)
    case EndRaises(_) => st
  }

  function Run(h: seq<Event>, k: nat): (st: State)
    requires k <= |h| && Legal(h, k)
    ensures forall x :: x in st.noted <==> Begun(h, k, x)
  {
    if k == 0 then IDLE else After(Run(h, k - 1), h[k - 1])
  }

  /** The samples the host takes for active. */
  predicate Active(h: seq<Event>, k: nat, x: Id)
    requires k <= |h|
  {
    Begun(h, k, x) && !Left(h, k, x)
  }

  lemma {:induction false} LeftWasBegun(h: seq<Event>, k: nat, x: Id)
    requires k <= |h| && Legal(h, k) && (Left(h, k, x) || Over(h, k, x))
    ensures Begun(h, k, x)
    ensures Left(h, k, x) ==> Over(h, k, x)
  {
    if Left(h, k - 1, x) || Over(h, k - 1, x) { LeftWasBegun(h, k - 1, x); }
  }

  lemma {:induction false} ActiveIs(h: seq<Event>, k: nat, x: Id)
    requires k <= |h| && Legal(h, k)
    ensures x in Run(h, k).active <==> Active(h, k, x)
  {
    if k > 0 {
      ActiveIs(h, k - 1, x);
      if Left(h, k - 1, x) { LeftWasBegun(h, k - 1, x); }
    }
  }

  lemma {:induction false} LegalPrefix(h: seq<Event>, k: nat, j: nat)
    requires j <= k <= |h| && Legal(h, k)
    ensures Legal(h, j)
  {
    if j < k { LegalPrefix(h, k - 1, j); }
  }

  lemma {:induction false} Grows(h: seq<Event>, j: nat, k: nat, x: Id)
    requires j <= k <= |h|
    ensures Begun(h, j, x) ==> Begun(h, k, x)
    ensures Left(h, j, x) ==> Left(h, k, x)
    ensures Over(h, j, x) ==> Over(h, k, x)
  {
    if j < k { Grows(h, j, k - 1, x); }
  }

  // ---- Counts ----

  function Begins(h: seq<Event>, k: nat): nat
    requires k <= |h|
  {
    if k == 0 then 0 else Begins(h, k - 1) + (if h[k - 1].Begin? then 1 else 0)
  }

  /** Completed, errored and active samples are all that ever began, also where an end raises. */
  lemma {:induction false} CountsAddUp(h: seq<Event>, k: nat)
    requires k <= |h| && Legal(h, k)
    ensures var st := Run(h, k); st.completed + st.errored + |st.active| == Begins(h, k)
  {
    if k > 0 {
      CountsAddUp(h, k - 1);
      var st, x := Run(h, k - 1), h[k - 1].id;
      ActiveIs(h, k - 1, x);
      if h[k - 1].End? {
        NotLeftYet(h, k - 1, x);
        assert st.active == (st.active - {x}) + {x};
      }
    }
  }

  /** The recorded ends of samples that succeeded, or of those that failed. */
  function Recorded(h: seq<Event>, k: nat, ok: bool): nat
    requires k <= |h|
  {
    if k == 0 then 0 else Recorded(h, k - 1, ok) + (if h[k - 1].End? && h[k - 1].ok == ok then 1 else 0)
  }

  /** A sample whose end is recorded is completed if it succeeded and errored if it did not. */
  lemma {:induction false} CountsAre(h: seq<Event>, k: nat)
    requires k <= |h| && Legal(h, k)
    ensures Run(h, k).completed == Recorded(h, k, true) && Run(h, k).errored == Recorded(h, k, false)
  {
    if k > 0 { CountsAre(h, k - 1); }
  }

  lemma {:induction false} NotLeftYet(h: seq<Event>, k: nat, x: Id)
    requires k <= |h| && Legal(h, k) && !Over(h, k, x)
    ensures !Left(h, k, x)
  {
    if Left(h, k, x) { LeftWasBegun(h, k, x); }
  }

  // ---- What samples report ----

  /** a begins at i and its end is recorded at j. */
  predicate Ran(h: seq<Event>, a: Id, i: nat, j: nat) {
    i < j < |h| && h[i] == Begin(a) && h[j].End? && h[j].id == a
  }

  /** a begins at i and returns its report at j. */
  predicate Reports(h: seq<Event>, a: Id, i: nat, j: nat) {
    Ran(h, a, i, j) && h[j].ok && h[j].written
  }

  lemma {:induction false} NotedIs(h: seq<Event>, k: nat, a: Id, i: nat)
    requires i < k <= |h| && Legal(h, k) && h[i] == Begin(a)
    ensures Legal(h, i) && Begun(h, k, a) && Run(h, k).noted[a] == Run(h, i).active
  {
    LegalPrefix(h, k, i);
    if i < k - 1 {
      NotedIs(h, k - 1, a, i);
    }
  }

  lemma {:induction false} ReportedIs(h: seq<Event>, k: nat, a: Id, i: nat, j: nat)
    requires k <= |h| && j < k && Legal(h, k) && Reports(h, a, i, j)
    ensures a in Run(h, k).reported
    ensures Legal(h, i) && Legal(h, j) && Run(h, k).reported[a] == Run(h, i).active + (Run(h, j).active - {a})
  {
    LegalPrefix(h, k, i);
    LegalPrefix(h, k, j);
    if j < k - 1 {
      ReportedIs(h, k - 1, a, i, j);
      Grows(h, j + 1, k - 1, a);
      assert Over(h, k - 1, a);
    } else {
      NotedIs(h, j, a, i);
    }
  }

  /** Only a sample that succeeded and whose summary was written returns a report. */
  lemma {:induction false} ReportedOnly(h: seq<Event>, k: nat, a: Id)
    requires k <= |h| && Legal(h, k)
    ensures a in Run(h, k).reported ==> exists j :: 0 <= j < k && h[j] == End(a, true, true)
  {
    if k > 0 && a in Run(h, k).reported {
      if a in Run(h, k - 1).reported {
        ReportedOnly(h, k - 1, a);
      } else {
        assert h[k - 1] == End(a, true, true);
      }
    }
  }

  /** Exactly what a sample reports: those the host took for active when it began or when it ended. */
  lemma {:induction false} ReportsExactly(h: seq<Event>, a: Id, i: nat, j: nat, b: Id)
    requires Legal(h, |h|) && Reports(h, a, i, j)
    ensures a in Run(h, |h|).reported
    ensures b in Run(h, |h|).reported[a] <==> b != a && (Active(h, i, b) || Active(h, j, b))
  {
    ReportedIs(h, |h|, a, i, j);
    ActiveIs(h, i, b);
    ActiveIs(h, j, b);
    NotActiveAtBegin(h, a, i);
  }

  lemma {:induction false} NotActiveAtBegin(h: seq<Event>, a: Id, i: nat)
    requires i < |h| && Legal(h, |h|) && h[i] == Begin(a)
    ensures !Active(h, i, a)
  {
    LegalPrefix(h, |h|, i + 1);
  }

  /** From its begin to its end a sample is active. */
  lemma {:induction false} ActiveWithin(h: seq<Event>, a: Id, i: nat, j: nat, m: nat)
    requires Legal(h, |h|) && Ran(h, a, i, j) && m <= |h|
    ensures Active(h, m, a) <==> i < m <= j
    ensures Begun(h, m, a) <==> i < m
  {
    LegalPrefix(h, |h|, i + 1);
    LegalPrefix(h, |h|, j + 1);
    if m <= i {
      Grows(h, m, i, a);
    } else {
      Grows(h, i + 1, m, a);
    }
    if m <= j {
      LegalPrefix(h, |h|, j);
      NotLeftYet(h, j, a);
      Grows(h, m, j, a);
    } else {
      Grows(h, j + 1, m, a);
    }
  }

  /** A sample that is over before k or has begun after it has its begin there. */
  lemma {:induction false} BeginPoint(h: seq<Event>, i: nat, k: nat, x: Id) returns (n: nat)
    requires i <= k <= |h| && Begun(h, k, x) && !Begun(h, i, x)
    ensures i <= n < k && h[n] == Begin(x)
  {
    if h[k - 1] == Begin(x) { n := k - 1; } else { n := BeginPoint(h, i, k - 1, x); }
  }

  /** The two samples really were running at the same moment. */
  ghost predicate Met(h: seq<Event>, i: nat, j: nat, b: Id)
    requires j < |h|
  {
    exists m :: i < m <= j && Begun(h, m, b) && !Over(h, m, b)
  }

  /** What is reported of b is true exactly if b was not over before the reporter began. */
  lemma {:induction false} ReportIsTrue(h: seq<Event>, a: Id, i: nat, j: nat, b: Id)
    requires Legal(h, |h|) && Reports(h, a, i, j) && a in Run(h, |h|).reported && b in Run(h, |h|).reported[a]
    ensures Met(h, i, j, b) <==> !Over(h, i, b)
  {
    ReportsExactly(h, a, i, j, b);
    if Met(h, i, j, b) {
      var m :| i < m <= j && Begun(h, m, b) && !Over(h, m, b);
      if Over(h, i, b) { Grows(h, i, m, b); }
    }
    if !Over(h, i, b) {
      if Begun(h, i, b) {
        assert Begun(h, i + 1, b) && !Over(h, i + 1, b);
      } else {
        var n := BeginPoint(h, i, j, b);
        LegalPrefix(h, |h|, n + 1);
        NotOverAtBegin(h, n, b);
        assert n != i;
        assert Begun(h, n + 1, b) && !Over(h, n + 1, b);
      }
    }
  }

  lemma {:induction false} NotOverAtBegin(h: seq<Event>, n: nat, x: Id)
    requires n < |h| && Legal(h, n + 1) && h[n] == Begin(x)
    ensures !Over(h, n + 1, x)
  {
    LegalPrefix(h, n + 1, n);
    if Over(h, n, x) { LeftWasBegun(h, n, x); }
  }

  /** Everything a sample reports is true exactly if no end had raised before the sample began. */
  lemma {:induction false} ReportsTrue(h: seq<Event>, a: Id, i: nat, j: nat)
    requires Legal(h, |h|) && Reports(h, a, i, j)
    ensures a in Run(h, |h|).reported
    ensures (forall b :: b in Run(h, |h|).reported[a] ==> Met(h, i, j, b)) <==> !(exists k :: 0 <= k < i && h[k].EndRaises?)
  {
    ReportedIs(h, |h|, a, i, j);
    if k :| 0 <= k < i && h[k].EndRaises? {
      var b := h[k].id;
      RaisedStaysActive(h, k, i, b);
      NotActiveAtBegin(h, a, i);
      ReportsExactly(h, a, i, j, b);
      ReportIsTrue(h, a, i, j, b);
    } else {
      forall b | b in Run(h, |h|).reported[a] ensures Met(h, i, j, b) {
        ReportsExactly(h, a, i, j, b);
        ReportIsTrue(h, a, i, j, b);
        OverIsLeft(h, i, b);
        if Left(h, i, b) { Grows(h, i, j, b); }
      }
    }
  }

  /** A sample whose end raised is over, but active in the host's eyes ever after. */
  lemma {:induction false} RaisedStaysActive(h: seq<Event>, k: nat, n: nat, x: Id)
    requires k < n <= |h| && Legal(h, |h|) && h[k] == EndRaises(x)
    ensures Over(h, n, x) && Active(h, n, x)
  {
    LegalPrefix(h, |h|, k + 1);
    LegalPrefix(h, |h|, n);
    Grows(h, k + 1, n, x);
    NotLeftYet(h, k, x);
    StillNotLeft(h, k + 1, n, x);
    Grows(h, k, n, x);
  }

  lemma {:induction false} StillNotLeft(h: seq<Event>, k: nat, n: nat, x: Id)
    requires k <= n <= |h| && Legal(h, n) && Over(h, k, x) && !Left(h, k, x)
    ensures !Left(h, n, x)
  {
    if k < n {
      StillNotLeft(h, k, n - 1, x);
      Grows(h, k, n - 1, x);
    }
  }

  lemma {:induction false} OverIsLeft(h: seq<Event>, k: nat, x: Id)
    requires k <= |h| && !(exists n :: 0 <= n < k && h[n].EndRaises?)
    ensures Over(h, k, x) == Left(h, k, x)
  {
    if k > 0 {
      OverIsLeft(h, k - 1, x);
      assert !h[k - 1].EndRaises?;
    }
  }

  /** Of two samples active together, the one that began later reports the other, whether or not that has ended. */
  lemma {:induction false} LaterReports(h: seq<Event>, a: Id, i: nat, b: Id, i': nat, j': nat, m: nat)
    requires Legal(h, |h|) && i < |h| && h[i] == Begin(a) && Reports(h, b, i', j') && a != b && i < i'
    requires m <= |h| && Active(h, m, a) && Active(h, m, b)
    ensures b in Run(h, |h|).reported && a in Run(h, |h|).reported[b]
  {
    ReportsExactly(h, b, i', j', a);
    ActiveWithin(h, b, i', j', m);
    Grows(h, i', m, a);
    Grows(h, i + 1, i', a);
  }

  /** Where the host stops taking a sample for active: at its recorded end, if there is one. */
  predicate Leaves(h: seq<Event>, b: Id, i: nat, e: nat) {
    i < |h| && h[i] == Begin(b) && (Ran(h, b, i, e) || (e == |h| && !Left(h, |h|, b)))
  }

  lemma {:induction false} ActiveUntil(h: seq<Event>, b: Id, i: nat, e: nat, m: nat)
    requires Legal(h, |h|) && Leaves(h, b, i, e) && m <= |h|
    ensures Active(h, m, b) <==> i < m <= e
  {
    if Ran(h, b, i, e) {
      ActiveWithin(h, b, i, e, m);
    } else {
      if Left(h, m, b) { Grows(h, m, |h|, b); }
      LegalPrefix(h, |h|, i + 1);
      if m <= i { Grows(h, m, i, b); } else { Grows(h, i + 1, m, b); }
    }
  }

  /** A sample fails to report another exactly when they were never active together or the other was so wholly within
      it; one that has not been recorded as ended stays active. */
  lemma {:induction false} MissesExactly(h: seq<Event>, a: Id, i: nat, j: nat, b: Id, i': nat, e: nat)
    requires Legal(h, |h|) && Reports(h, a, i, j) && Leaves(h, b, i', e) && a != b
    ensures a in Run(h, |h|).reported
    ensures b !in Run(h, |h|).reported[a] <==> e < i || j < i' || (i < i' && e < j)
  {
    ReportsExactly(h, a, i, j, b);
    ActiveUntil(h, b, i', e, i);
    ActiveUntil(h, b, i', e, j);
    assert i != i' && j != i' && i != e && j != e;
  }

  /** A sample whose end raised is reported by samples that began after it was over. */
  lemma {:induction false} StaleReport()
    ensures var h := [Begin("a"), EndRaises("a"), Begin("b"), End("b", true, true)];
      Legal(h, |h|) && Over(h, 2, "a") && "b" in Run(h, |h|).reported && "a" in Run(h, |h|).reported["b"]
  {
    var h := [Begin("a"), EndRaises("a"), Begin("b"), End("b", true, true)];
    assert Legal(h, 1) && Legal(h, 2);
    assert Legal(h, 3) && Legal(h, 4);
    assert Begun(h, 1, "a") && !Left(h, 1, "a");
    assert Begun(h, 2, "a") && !Left(h, 2, "a");
    ReportsExactly(h, "b", 2, 3, "a");
  }

  // ---- The host ----

  class SeonHost {
    var active: set<Id>
    var completed: nat
    var errored: nat
    /** The sections admitted so far. */
    ghost var history: seq<Event>

    ghost predicate Valid()
      reads this
    {
      && Legal(history, |history|)
      && var st := Run(history, |history|);
         active == st.active && completed == st.completed && errored == st.errored
    }

    constructor ()
      ensures Valid() && history == []
    {
      active, completed, errored, history := {}, 0, 0, [];
    }

    /** The first section: note who is active and join them. */
    method BeginSample(id: Id) returns (overlaps: set<Id>)
      requires Valid() && !Begun(history, |history|, id)
      modifies this
      ensures Valid() && history == old(history) + [Begin(id)]
      ensures overlaps == Run(history, |history|).noted[id]
    {
      overlaps := active;
      active := active + {id};
      RunMore(history, Begin(id));
      history := history + [Begin(id)];
    }

    /** The second section: add who is active now, leave, count, and write the summary; if the store cannot be measured
        nothing of this happens. */
    method EndSample(id: Id, ok: bool, measured: bool, written: bool, overlaps: set<Id>) returns (report: Option<set<Id>>)
      requires Valid() && Begun(history, |history|, id) && !Over(history, |history|, id)
      requires overlaps == Run(history, |history|).noted[id]
      modifies this
      ensures Valid() && history == old(history) + [if measured then End(id, ok, written) else EndRaises(id)]
      ensures report.Some? <==> measured && ok && written
      ensures report.Some? ==> id in Run(history, |history|).reported && report == Some(Run(history, |history|).reported[id])
    {
      RunMore(history, if measured then End(id, ok, written) else EndRaises(id));
      history := history + [if measured then End(id, ok, written) else EndRaises(id)];
      if !measured { return None; }
      report := if ok && written then Some(overlaps + (active - {id})) else None;
      active := active - {id};
      completed := completed + (if ok then 1 else 0);
      errored := errored + (if ok then 0 else 1);
    }
  }

  lemma {:induction false} SamePrefix(h: seq<Event>, e: Event, k: nat)
    requires k <= |h|
    ensures forall x :: Begun(h + [e], k, x) == Begun(h, k, x)
    ensures forall x :: Over(h + [e], k, x) == Over(h, k, x)
    ensures Legal(h + [e], k) == Legal(h, k)
    ensures Legal(h, k) ==> Run(h + [e], k) == Run(h, k)
  {
    if k > 0 { SamePrefix(h, e, k - 1); }
  }

  lemma {:induction false} RunMore(h: seq<Event>, e: Event)
    requires Legal(h, |h|)
    requires if e.Begin? then !Begun(h, |h|, e.id) else Begun(h, |h|, e.id) && !Over(h, |h|, e.id)
    ensures var h' := h + [e]; Legal(h', |h'|) && Run(h', |h'|) == After(Run(h, |h|), e)
  {
    SamePrefix(h, e, |h|);
  }
}

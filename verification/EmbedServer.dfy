/** The embedding server's worker (script/embed/server.py) as a state machine: requests are
    enqueued at any moment between the worker's steps, rounds take what has queued, and every
    future is resolved once with its own texts' vectors. */
module EmbedServer {
  import opened Options
  import opened Tensors
  import opened Banded
  import opened GemmaText

  /** A queued request; its id is its place in the arrival order, and stands for its future. */
  datatype Job = Job(id: nat, ids: seq<seq<Tok>>, dim: nat, ntok: nat)

  datatype Outcome = Rows(rows: seq<Vec>) | Failed

  /** Idle waits in Q.get(); Gathering drains the queue; Answering has `left` dims to embed. */
  datatype Phase = Idle | Gathering | Answering(left: set<nat>)

  /** The whole state, with its history: every request so far, the finished rounds, the round of
      each job of a finished round, and the (round, dim) pairs whose embed raised. */
  datatype State = State(
    queue: seq<Job>, jobs: seq<Job>, ntok: nat, phase: Phase, futures: map<nat, Outcome>, rounds: nat, errors: nat,
    arrivals: seq<Job>, done: seq<seq<Job>>, roundOf: seq<nat>, failures: set<(nat, nat)>)
  {
    /** The dims of this round nobody has answered yet. */
    function Left(): set<nat> {
      if phase.Answering? then phase.left else Dims(jobs)
    }
  }

  /** The atomic steps: a request arriving, and the worker's own. */
  datatype Event =
    | Enqueue(ids: seq<seq<Tok>>, dim: nat)
    | TakeFirst
    | TakeMore
    | StopGathering
    | AnswerDim(dim: nat, raises: bool)
    | FinishRound

  const START: State := State([], [], 0, Idle, map[], 0, 0, [], [], [], {})

  function Dims(jobs: seq<Job>): set<nat> {
    set j | j in jobs :: j.dim
  }

  function Tokens(jobs: seq<Job>): nat {
    if jobs == [] then 0 else Tokens(jobs[..|jobs| - 1]) + jobs[|jobs| - 1].ntok
  }

  function TextLengths(ids: seq<seq<Tok>>): nat {
    if ids == [] then 0 else TextLengths(ids[..|ids| - 1]) + |ids[|ids| - 1]|
  }

  /** The jobs of one dim, in arrival order. */
  function OfDim(jobs: seq<Job>, dim: nat): (g: seq<Job>)
    ensures forall j :: j in g <==> j in jobs && j.dim == dim
  {
    if jobs == [] then []
    else OfDim(jobs[..|jobs| - 1], dim) + (if jobs[|jobs| - 1].dim == dim then [jobs[|jobs| - 1]] else [])
  }

  function AllIds(jobs: seq<Job>): seq<seq<Tok>> {
    if jobs == [] then [] else AllIds(jobs[..|jobs| - 1]) + jobs[|jobs| - 1].ids
  }

  /** What a job's future should get: its own texts' embeddings, at its own dim. */
  function Wanted(net: Net, job: Job): seq<Vec>
    requires net.Valid()
  {
    seq(|job.ids|, t requires 0 <= t < |job.ids| => Shrunk(net, Embedding(net, job.ids[t]), Some(job.dim)))
  }

  function Verdict(net: Net, job: Job, failed: bool): Outcome
    requires net.Valid()
  {
    if failed then Failed else Rows(Wanted(net, job))
  }

  function VerdictOf(net: Net, failed: bool): Job -> Outcome
    requires net.Valid()
  {
    (job: Job) => Verdict(net, job, failed)
  }

  /** Resolves the futures of a group, one after the other. */
  function AnswerAll(group: seq<Job>, verdict: Job -> Outcome, futures: map<nat, Outcome>): map<nat, Outcome> {
    if group == [] then futures
    else AnswerAll(group[..|group| - 1], verdict, futures)[group[|group| - 1].id := verdict(group[|group| - 1])]
  }

  predicate Enabled(maxPending: int, s: State, e: Event) {
    match e
    case Enqueue(_, _) => true
    case TakeFirst => s.phase.Idle? && s.queue != []
    case TakeMore => s.phase.Gathering? && s.ntok < maxPending && s.queue != []
    case StopGathering => s.phase.Gathering? && (s.ntok >= maxPending || s.queue == [])
    case AnswerDim(dim, _) => s.phase.Answering? && dim in s.phase.left
    case FinishRound => s.phase == Answering({})
  }

  function After(net: Net, maxPending: int, s: State, e: Event): State
    requires net.Valid() && Enabled(maxPending, s, e)
  {
    match e
    case Enqueue(ids, dim) =>
      var job := Job(|s.arrivals|, ids, dim, TextLengths(ids));
      s.(queue := s.queue + [job], arrivals := s.arrivals + [job])
    case TakeFirst => s.(jobs := [s.queue[0]], queue := s.queue[1..], ntok := s.queue[0].ntok, phase := Gathering)
    case TakeMore => s.(jobs := s.jobs + [s.queue[0]], queue := s.queue[1..], ntok := s.ntok + s.queue[0].ntok)
    case StopGathering => s.(phase := Answering(Dims(s.jobs)))
    case AnswerDim(dim, raises) =>
      s.(phase := Answering(s.phase.left - {dim}),
         futures := AnswerAll(OfDim(s.jobs, dim), VerdictOf(net, raises), s.futures),
         errors := s.errors + (if raises then 1 else 0),
         failures := s.failures + (if raises then {(s.rounds, dim)} else {}))
    case FinishRound =>
      s.(phase := Idle, jobs := [], ntok := 0, rounds := s.rounds + 1, done := s.done + [s.jobs],
         roundOf := s.roundOf + seq(|s.jobs|, _ => s.rounds))
  }

  // ---- What every run keeps ----

  /** Rounds are consecutive pieces of the arrival order: no job lost, repeated or overtaken. */
  ghost predicate InOrder(s: State) {
    && Flatten(s.done) + s.jobs + s.queue == s.arrivals
    && (forall i :: 0 <= i < |s.arrivals| ==> s.arrivals[i].id == i)
    && |s.roundOf| == |Flatten(s.done)| && s.rounds == |s.done|
    && (forall i :: 0 <= i < |s.roundOf| ==> s.roundOf[i] < s.rounds)
  }

  /** Future `id` holds what its job got in round r. */
  ghost predicate Resolved(net: Net, s: State, job: Job, id: nat, r: nat)
    requires net.Valid()
  {
    id in s.futures && s.futures[id] == Verdict(net, job, (r, job.dim) in s.failures)
  }

  /** A future is resolved exactly when its job's round is through with its dim, with a failure exactly
      when that embed raised, and otherwise with its own texts' vectors. */
  ghost predicate Answers(net: Net, s: State)
    requires net.Valid() && |s.roundOf| <= |s.arrivals|
  {
    && (forall i :: 0 <= i < |s.roundOf| ==> Resolved(net, s, s.arrivals[i], i, s.roundOf[i]))
    && (forall j :: j in s.jobs && j.dim !in s.Left() ==> Resolved(net, s, j, j.id, s.rounds))
    && (forall j :: j in s.jobs && j.dim in s.Left() ==> j.id !in s.futures)
    && (forall j :: j in s.queue ==> j.id !in s.futures)
    && (forall i :: i in s.futures ==> i < |s.arrivals|)
  }

  ghost predicate Bounds(maxPending: int, s: State) {
    && (forall f :: f in s.failures ==> f.0 <= s.rounds && (f.0 == s.rounds ==> s.phase.Answering? && f.1 !in s.Left()))
    && s.Left() <= Dims(s.jobs)
    && (s.phase.Idle? <==> s.jobs == [])
    && s.ntok == Tokens(s.jobs) && s.errors == |s.failures|
    && (s.jobs != [] ==> |s.jobs| == 1 || Tokens(s.jobs[..|s.jobs| - 1]) < maxPending)
  }

  ghost predicate Good(net: Net, maxPending: int, s: State)
    requires net.Valid()
  {
    InOrder(s) && Answers(net, s) && Bounds(maxPending, s)
  }

  /** Ids are arrival places, so they tell the parts of the arrival order apart. */
  lemma {:induction false} OrderedIds(s: State)
    requires InOrder(s)
    ensures forall k :: 0 <= k < |s.jobs| ==> s.jobs[k].id == |s.roundOf| + k
    ensures forall k :: 0 <= k < |s.queue| ==> s.queue[k].id == |s.roundOf| + |s.jobs| + k
  {
    assert forall k :: 0 <= k < |s.jobs| ==> s.arrivals[|s.roundOf| + k] == s.jobs[k];
    assert forall k :: 0 <= k < |s.queue| ==> s.arrivals[|s.roundOf| + |s.jobs| + k] == s.queue[k];
  }

  ghost predicate Rising(jobs: seq<Job>) {
    forall a, b :: 0 <= a < b < |jobs| ==> jobs[a].id < jobs[b].id
  }

  lemma {:induction false} OfDimRising(jobs: seq<Job>, dim: nat)
    requires Rising(jobs)
    ensures Rising(OfDim(jobs, dim))
  {
    if jobs != [] {
      var rest, last := jobs[..|jobs| - 1], jobs[|jobs| - 1];
      OfDimRising(rest, dim);
      var g := OfDim(rest, dim);
      forall a | 0 <= a < |g| ensures g[a].id < last.id {
        assert g[a] in g;
        var c :| 0 <= c < |rest| && rest[c] == g[a];
        assert jobs[c] == rest[c];
      }
    }
  }

  function Ids(jobs: seq<Job>): set<nat> {
    set j | j in jobs :: j.id
  }

  lemma {:induction false} AnswerAllKeys(group: seq<Job>, verdict: Job -> Outcome, futures: map<nat, Outcome>)
    ensures AnswerAll(group, verdict, futures).Keys == futures.Keys + Ids(group)
    ensures forall i :: i in futures && i !in Ids(group) ==> AnswerAll(group, verdict, futures)[i] == futures[i]
  {
    if group != [] {
      var rest, last := group[..|group| - 1], group[|group| - 1];
      AnswerAllKeys(rest, verdict, futures);
      assert Ids(group) == Ids(rest) + {last.id} by { assert group == rest + [last]; }
    }
  }

  /** AnswerAll resolves the group's futures and no other. */
  lemma {:induction false} AnswerAllAt(group: seq<Job>, verdict: Job -> Outcome, futures: map<nat, Outcome>)
    requires Rising(group)
    ensures AnswerAll(group, verdict, futures).Keys == futures.Keys + Ids(group)
    ensures forall i :: i in futures && i !in Ids(group) ==> AnswerAll(group, verdict, futures)[i] == futures[i]
    ensures forall a :: 0 <= a < |group| ==> AnswerAll(group, verdict, futures)[group[a].id] == verdict(group[a])
  {
    AnswerAllKeys(group, verdict, futures);
    forall a | 0 <= a < |group| ensures AnswerAll(group, verdict, futures)[group[a].id] == verdict(group[a]) {
      AnswerOne(group, verdict, futures, a);
    }
  }

  lemma {:induction false} AnswerOne(group: seq<Job>, verdict: Job -> Outcome, futures: map<nat, Outcome>, a: nat)
    requires Rising(group) && a < |group|
    ensures group[a].id in AnswerAll(group, verdict, futures)
    ensures AnswerAll(group, verdict, futures)[group[a].id] == verdict(group[a])
  {
    var n := |group| - 1;
    if a < n {
      AnswerOne(group[..n], verdict, futures, a);
      assert group[a].id < group[n].id;
    }
  }

  /** The ids of the round's jobs of one dim belong to this round, and to no job of another dim. */
  lemma {:induction false} GroupIds(s: State, dim: nat)
    requires InOrder(s)
    ensures forall i :: i in Ids(OfDim(s.jobs, dim)) ==> |s.roundOf| <= i < |s.roundOf| + |s.jobs|
    ensures forall j :: j in s.jobs && j.dim != dim ==> j.id !in Ids(OfDim(s.jobs, dim))
    ensures forall j :: j in s.queue ==> j.id !in Ids(OfDim(s.jobs, dim))
  {
    OrderedIds(s);
  }

  lemma {:induction false} AnswerKeeps(net: Net, maxPending: int, s: State, dim: nat, raises: bool)
    requires net.Valid() && Good(net, maxPending, s) && s.phase.Answering? && dim in s.phase.left
    ensures Answers(net, After(net, maxPending, s, AnswerDim(dim, raises)))
  {
    OrderedIds(s);
    OfDimRising(s.jobs, dim);
    GroupIds(s, dim);
    AnswerAllAt(OfDim(s.jobs, dim), VerdictOf(net, raises), s.futures);
    var s' := After(net, maxPending, s, AnswerDim(dim, raises));
    forall i | 0 <= i < |s.roundOf| ensures Resolved(net, s', s'.arrivals[i], i, s'.roundOf[i]) {
      assert Resolved(net, s, s.arrivals[i], i, s.roundOf[i]);
    }
    forall j | j in s.jobs && j.dim !in s'.Left() ensures Resolved(net, s', j, j.id, s.rounds) {
      if j.dim != dim {
        assert Resolved(net, s, j, j.id, s.rounds);
      }
    }
  }

  lemma {:induction false} FinishKeeps(net: Net, maxPending: int, s: State)
    requires net.Valid() && Good(net, maxPending, s) && s.phase == Answering({})
    ensures Good(net, maxPending, After(net, maxPending, s, FinishRound))
  {
    var s' := After(net, maxPending, s, FinishRound);
    FlattenMore(s.done, s.jobs);
    OrderedIds(s);
    forall i | 0 <= i < |s'.roundOf| ensures Resolved(net, s', s'.arrivals[i], i, s'.roundOf[i]) {
      if i < |s.roundOf| {
        assert Resolved(net, s, s.arrivals[i], i, s.roundOf[i]);
      } else {
        var j := s.jobs[i - |s.roundOf|];
        assert s.arrivals[i] == j && j in s.jobs;
        assert Resolved(net, s, j, j.id, s.rounds);
      }
    }
  }

  /** The other worker steps move jobs from the queue into the round, in order. */
  lemma {:induction false} OtherOrder(net: Net, maxPending: int, s: State, e: Event)
    requires net.Valid() && InOrder(s) && Bounds(maxPending, s) && Enabled(maxPending, s, e)
    requires !e.AnswerDim? && !e.FinishRound?
    ensures InOrder(After(net, maxPending, s, e)) && Bounds(maxPending, After(net, maxPending, s, e))
  {
    OtherBounds(net, maxPending, s, e);
    var before := Flatten(s.done);
    match e
    case Enqueue(ids, dim) =>
      var job := Job(|s.arrivals|, ids, dim, TextLengths(ids));
      assert before + s.jobs + (s.queue + [job]) == s.arrivals + [job];
    case TakeFirst => FromQueue(before, s.jobs, s.queue);
    case TakeMore => FromQueue(before, s.jobs, s.queue);
    case _ =>
  }

  lemma {:induction false} FromQueue(before: seq<Job>, jobs: seq<Job>, queue: seq<Job>)
    requires queue != []
    ensures before + (jobs + [queue[0]]) + queue[1..] == before + jobs + queue
    ensures jobs == [] ==> before + [queue[0]] + queue[1..] == before + jobs + queue
  {
  }

  lemma {:induction false} OtherBounds(net: Net, maxPending: int, s: State, e: Event)
    requires net.Valid() && Bounds(maxPending, s) && Enabled(maxPending, s, e)
    requires !e.AnswerDim? && !e.FinishRound?
    ensures Bounds(maxPending, After(net, maxPending, s, e))
  {
    var s' := After(net, maxPending, s, e);
    assert e.TakeFirst? || e.TakeMore? ==> s'.jobs[..|s'.jobs| - 1] == s.jobs;
    assert s.phase.Gathering? || s.phase.Idle? ==> forall f :: f in s.failures ==> f.0 < s.rounds;
  }

  /** They resolve no future, and those already resolved stay right. */
  lemma {:induction false} OtherAnswers(net: Net, maxPending: int, s: State, e: Event)
    requires net.Valid() && Good(net, maxPending, s) && Enabled(maxPending, s, e)
    requires !e.AnswerDim? && !e.FinishRound? && InOrder(After(net, maxPending, s, e))
    ensures Answers(net, After(net, maxPending, s, e))
  {
    var s' := After(net, maxPending, s, e);
    forall i | 0 <= i < |s'.roundOf| ensures Resolved(net, s', s'.arrivals[i], i, s'.roundOf[i]) {
      assert Resolved(net, s, s.arrivals[i], i, s.roundOf[i]);
    }
    forall j | j in s'.jobs && j.dim !in s'.Left() ensures Resolved(net, s', j, j.id, s'.rounds) {
      assert j in s.jobs && j.dim !in s.Left();
      assert Resolved(net, s, j, j.id, s.rounds);
    }
  }

  lemma {:induction false} AnswerGood(net: Net, maxPending: int, s: State, dim: nat, raises: bool)
    requires net.Valid() && Good(net, maxPending, s) && s.phase.Answering? && dim in s.phase.left
    ensures var s' := After(net, maxPending, s, AnswerDim(dim, raises));
      Good(net, maxPending, s') && forall i :: i in s.futures ==> i in s'.futures && s'.futures[i] == s.futures[i]
  {
    AnswerKeeps(net, maxPending, s, dim, raises);
    AnswerBounds(net, maxPending, s, dim, raises);
    AnswerStable(net, maxPending, s, dim, raises);
  }

  lemma {:induction false} AnswerBounds(net: Net, maxPending: int, s: State, dim: nat, raises: bool)
    requires net.Valid() && InOrder(s) && Bounds(maxPending, s) && s.phase.Answering? && dim in s.phase.left
    ensures var s' := After(net, maxPending, s, AnswerDim(dim, raises)); InOrder(s') && Bounds(maxPending, s')
  {
    assert (s.rounds, dim) !in s.failures;
  }

  lemma {:induction false} AnswerStable(net: Net, maxPending: int, s: State, dim: nat, raises: bool)
    requires net.Valid() && InOrder(s) && Answers(net, s) && s.phase.Answering? && dim in s.phase.left
    ensures var s' := After(net, maxPending, s, AnswerDim(dim, raises));
      forall i :: i in s.futures ==> i in s'.futures && s'.futures[i] == s.futures[i]
  {
    var group := OfDim(s.jobs, dim);
    AnswerAllKeys(group, VerdictOf(net, raises), s.futures);
    assert forall j :: j in group ==> j.id !in s.futures;
    assert forall i :: i in Ids(group) ==> i !in s.futures;
  }

  lemma {:induction false} StepKeeps(net: Net, maxPending: int, s: State, e: Event)
    requires net.Valid() && Good(net, maxPending, s) && Enabled(maxPending, s, e)
    ensures Good(net, maxPending, After(net, maxPending, s, e))
    ensures forall i :: i in s.futures ==> i in After(net, maxPending, s, e).futures
    ensures forall i :: i in s.futures ==> After(net, maxPending, s, e).futures[i] == s.futures[i]
  {
    if e.AnswerDim? {
      AnswerGood(net, maxPending, s, e.dim, e.raises);
    } else if e.FinishRound? {
      FinishKeeps(net, maxPending, s);
    } else {
      OtherOrder(net, maxPending, s, e);
      OtherAnswers(net, maxPending, s, e);
    }
  }

  // ---- Whole runs ----

  ghost predicate IsRun(net: Net, maxPending: int, run: seq<State>, events: seq<Event>)
    requires net.Valid()
  {
    && |run| == |events| + 1 && run[0] == START
    && forall i :: 0 <= i < |events| ==> Enabled(maxPending, run[i], events[i]) && run[i + 1] == After(net, maxPending, run[i], events[i])
  }

  lemma {:induction false} RunStep(net: Net, maxPending: int, run: seq<State>, events: seq<Event>, k: nat)
    requires net.Valid() && IsRun(net, maxPending, run, events) && k < |events| && Good(net, maxPending, run[k])
    ensures Good(net, maxPending, run[k + 1])
    ensures forall f :: f in run[k].futures ==> f in run[k + 1].futures && run[k + 1].futures[f] == run[k].futures[f]
  {
    assert run[k + 1] == After(net, maxPending, run[k], events[k]);
    StepKeeps(net, maxPending, run[k], events[k]);
  }

  /** Over every interleaving of arrivals with the worker's steps: rounds are FIFO pieces, and a
      future once resolved holds its own job's outcome for ever. */
  lemma {:induction false} RunGood(net: Net, maxPending: int, run: seq<State>, events: seq<Event>, i: nat, j: nat)
    requires net.Valid() && IsRun(net, maxPending, run, events) && i <= j < |run|
    ensures Good(net, maxPending, run[i]) && Good(net, maxPending, run[j])
    ensures forall f :: f in run[i].futures ==> f in run[j].futures && run[j].futures[f] == run[i].futures[f]
    decreases j
  {
    StateGood(net, maxPending, run, events, i);
    StateGood(net, maxPending, run, events, j);
    if i < j {
      RunGood(net, maxPending, run, events, i, j - 1);
      RunStep(net, maxPending, run, events, j - 1);
    }
  }

  lemma {:induction false} StateGood(net: Net, maxPending: int, run: seq<State>, events: seq<Event>, i: nat)
    requires net.Valid() && IsRun(net, maxPending, run, events) && i < |run|
    ensures Good(net, maxPending, run[i])
  {
    if i > 0 {
      StateGood(net, maxPending, run, events, i - 1);
      RunStep(net, maxPending, run, events, i - 1);
    } else {
      StartGood(net, maxPending);
    }
  }

  lemma {:induction false} StartGood(net: Net, maxPending: int)
    requires net.Valid()
    ensures Good(net, maxPending, START)
  {
  }

  /** Once the worker is idle with an empty queue, every request ever made has its answer: its own
      texts' vectors unless the embed of its dim raised in its round. */
  lemma {:induction false} AllAnswered(net: Net, maxPending: int, run: seq<State>, events: seq<Event>, i: nat)
    requires net.Valid() && IsRun(net, maxPending, run, events) && i < |run|
    requires run[i].phase.Idle? && run[i].queue == []
    ensures |run[i].roundOf| == |run[i].arrivals|
    ensures forall id :: 0 <= id < |run[i].arrivals| ==> Resolved(net, run[i], run[i].arrivals[id], id, run[i].roundOf[id])
    ensures forall id :: 0 <= id < |run[i].arrivals| ==>
      id in run[i].futures
      && (run[i].futures[id] == Failed <==> (run[i].roundOf[id], run[i].arrivals[id].dim) in run[i].failures)
      && (run[i].futures[id] != Failed ==> OwnVectors(net, run[i].arrivals[id], run[i].futures[id].rows))
  {
    RunGood(net, maxPending, run, events, i, i);
    forall id | 0 <= id < |run[i].arrivals|
      ensures id in run[i].futures
        && (run[i].futures[id] == Failed <==> (run[i].roundOf[id], run[i].arrivals[id].dim) in run[i].failures)
        && (run[i].futures[id] != Failed ==> OwnVectors(net, run[i].arrivals[id], run[i].futures[id].rows))
    {
      assert Resolved(net, run[i], run[i].arrivals[id], id, run[i].roundOf[id]);
      WantedIs(net, run[i].arrivals[id]);
    }
  }

  /** Row t is the embedding of text t, at the job's dim. */
  ghost predicate OwnVectors(net: Net, job: Job, rows: seq<Vec>)
    requires net.Valid()
  {
    |rows| == |job.ids| && forall t :: 0 <= t < |rows| ==> rows[t] == EmbeddingAt(net, job.ids[t], Some(job.dim))
  }

  lemma {:induction false} WantedIs(net: Net, job: Job)
    requires net.Valid()
    ensures OwnVectors(net, job, Wanted(net, job))
  {
    forall t | 0 <= t < |job.ids| ensures Wanted(net, job)[t] == EmbeddingAt(net, job.ids[t], Some(job.dim)) {
      EmbeddingIs(net, job.ids[t], Some(job.dim));
    }
  }

  // ---- What the history is, told from the events ----

  /** The requests among the first k events. */
  function Requests(events: seq<Event>, k: nat): seq<(seq<seq<Tok>>, nat)>
    requires k <= |events|
  {
    if k == 0 then []
    else Requests(events, k - 1) + (if events[k - 1].Enqueue? then [(events[k - 1].ids, events[k - 1].dim)] else [])
  }

  lemma {:induction false} TextLengthsAre(ids: seq<seq<Tok>>)
    ensures TextLengths(ids) == |Flatten(ids)|
  {
    if ids != [] {
      TextLengthsAre(ids[..|ids| - 1]);
      FlattenMore(ids[..|ids| - 1], ids[|ids| - 1]);
      assert ids == ids[..|ids| - 1] + [ids[|ids| - 1]];
    }
  }

  /** The arrivals are the requests in the order they were made, each with its number of tokens. */
  lemma {:induction false} ArrivalsAre(net: Net, maxPending: int, run: seq<State>, events: seq<Event>, k: nat)
    requires net.Valid() && IsRun(net, maxPending, run, events) && k < |run|
    ensures |run[k].arrivals| == |Requests(events, k)|
    ensures forall i :: 0 <= i < |run[k].arrivals| ==>
      var (ids, dim) := Requests(events, k)[i]; run[k].arrivals[i] == Job(i, ids, dim, |Flatten(ids)|)
  {
    if k > 0 {
      ArrivalsAre(net, maxPending, run, events, k - 1);
      assert run[k] == After(net, maxPending, run[k - 1], events[k - 1]);
      if events[k - 1].Enqueue? { TextLengthsAre(events[k - 1].ids); }
    }
  }

  /** The failures are the embeds that raised. */
  lemma {:induction false} FailuresAre(net: Net, maxPending: int, run: seq<State>, events: seq<Event>, k: nat, r: nat, dim: nat)
    requires net.Valid() && IsRun(net, maxPending, run, events) && k < |run|
    ensures (r, dim) in run[k].failures <==> exists i :: 0 <= i < k && events[i] == AnswerDim(dim, true) && run[i].rounds == r
  {
    if k > 0 {
      FailuresAre(net, maxPending, run, events, k - 1, r, dim);
      assert run[k] == After(net, maxPending, run[k - 1], events[k - 1]);
    }
  }

  // ---- The worker ----

  class Worker {
    const net: Net
    const budget: int
    const maxBatch: int
    const maxPending: int

    var issued: nat
    var queue: seq<Job>
    var jobs: seq<Job>
    var ntok: nat
    var phase: Phase
    var futures: map<nat, Outcome>
    var rounds: nat
    var errors: nat
    ghost var arrivals: seq<Job>
    ghost var done: seq<seq<Job>>
    ghost var roundOf: seq<nat>
    ghost var failures: set<(nat, nat)>

    ghost function Now(): State
      reads this
    {
      State(queue, jobs, ntok, phase, futures, rounds, errors, arrivals, done, roundOf, failures)
    }

    ghost predicate Valid()
      reads this
    {
      && net.Valid() && net.window == 512 && 1 <= maxBatch && issued == |arrivals|
      && Good(net, maxPending, Now())
    }

    constructor (net: Net, budget: int, maxBatch: int, maxPending: int)
      requires net.Valid() && net.window == 512 && 1 <= maxBatch
      ensures Valid() && Now() == START
    {
      this.net, this.budget, this.maxBatch, this.maxPending := net, budget, maxBatch, maxPending;
      issued, queue, jobs, ntok, phase, futures, rounds, errors := 0, [], [], 0, Idle, map[], 0, 0;
      arrivals, done, roundOf, failures := [], [], [], {};
    }

    /** do_POST: a request enters at the back of the queue, whatever the worker is doing. */
    method Put(ids: seq<seq<Tok>>, dim: nat) returns (future: nat)
      requires Valid()
      modifies this
      ensures Valid() && Now() == After(net, maxPending, old(Now()), Enqueue(ids, dim)) && future == old(issued)
    {
      StepKeeps(net, maxPending, Now(), Enqueue(ids, dim));
      future := issued;
      var job := Job(issued, ids, dim, TextLengths(ids));
      queue, issued := queue + [job], issued + 1;
      arrivals := arrivals + [job];
    }

    /** jobs = [Q.get()] */
    method GetFirst()
      requires Valid() && phase.Idle? && queue != []
      modifies this
      ensures Valid() && Now() == After(net, maxPending, old(Now()), TakeFirst)
    {
      StepKeeps(net, maxPending, Now(), TakeFirst);
      jobs, queue, ntok, phase := [queue[0]], queue[1..], queue[0].ntok, Gathering;
    }

    /** The draining loop's Q.get returned: one more queued request joins the round. */
    method GetMore()
      requires Valid() && phase.Gathering? && ntok < maxPending && queue != []
      modifies this
      ensures Valid() && Now() == After(net, maxPending, old(Now()), TakeMore)
    {
      ghost var was := Now();
      StepKeeps(net, maxPending, was, TakeMore);
      Join();
      assert Now() == After(net, maxPending, was, TakeMore);
    }

    /** jobs.append(Q.get(...)) and the token count. */
    method Join()
      requires queue != []
      modifies this`jobs, this`queue, this`ntok
      ensures jobs == old(jobs) + [old(queue)[0]] && queue == old(queue)[1..] && ntok == old(ntok) + old(queue)[0].ntok
    {
      jobs, queue, ntok := jobs + [queue[0]], queue[1..], ntok + queue[0].ntok;
    }

    /** The draining loop ends: the round is full, or Q.get found nothing before the deadline. */
    method StopDraining()
      requires Valid() && phase.Gathering? && (ntok >= maxPending || queue == [])
      modifies this
      ensures Valid() && Now() == After(net, maxPending, old(Now()), StopGathering)
    {
      StepKeeps(net, maxPending, Now(), StopGathering);
      phase := Answering(Dims(jobs));
    }

    /** One merged embed for the jobs of `dim`; `raises` says whether the embedder raised. Every
        future of the group gets its own slice of the vectors, or the group's exception. */
    method Answer(dim: nat, raises: bool)
      requires Valid() && phase.Answering? && dim in phase.left
      modifies this
      ensures Valid() && Now() == After(net, maxPending, old(Now()), AnswerDim(dim, raises))
    {
      StepKeeps(net, maxPending, Now(), AnswerDim(dim, raises));
      GroupOpen(net, maxPending, Now(), dim);
      var group := OfDim(jobs, dim);
      var answers;
      if raises {
        answers := SetExceptions(net, group, futures);
      } else {
        answers := EmbedGroup(net, budget, maxBatch, group, dim, futures);
      }
      assert answers == AnswerAll(group, VerdictOf(net, raises), futures);
      Record(dim, raises, answers);
    }

    /** The worker's own bookkeeping for an answered dim. */
    method Record(dim: nat, raises: bool, answers: map<nat, Outcome>)
      requires net.Valid() && phase.Answering?
      modifies this
      ensures issued == old(issued)
      ensures Now() == old(Now()).(phase := Answering(old(phase.left) - {dim}), futures := answers,
        errors := old(errors) + (if raises then 1 else 0),
        failures := old(failures) + (if raises then {(old(rounds), dim)} else {}))
    {
      futures, phase := answers, Answering(phase.left - {dim});
      errors := errors + (if raises then 1 else 0);
      failures := failures + (if raises then {(rounds, dim)} else {});
    }

    method EndRound()
      requires Valid() && phase == Answering({})
      modifies this
      ensures Valid() && Now() == After(net, maxPending, old(Now()), FinishRound)
    {
      StepKeeps(net, maxPending, Now(), FinishRound);
      CloseRound();
    }

    method CloseRound()
      modifies this
      ensures issued == old(issued)
      ensures Now() == old(Now()).(phase := Idle, jobs := [], ntok := 0, rounds := old(rounds) + 1, done := old(done) + [old(jobs)],
                                   roundOf := old(roundOf) + seq(|old(jobs)|, _ => old(rounds)))
    {
      ghost var r := rounds;
      done, roundOf := done + [jobs], roundOf + seq(|jobs|, _ => r);
      rounds, jobs, ntok, phase := rounds + 1, [], 0, Idle;
    }
  }

  /** Before a dim is answered none of its futures is resolved. */
  lemma {:induction false} GroupOpen(net: Net, maxPending: int, s: State, dim: nat)
    requires net.Valid() && Good(net, maxPending, s) && s.phase.Answering? && dim in s.phase.left
    ensures var group := OfDim(s.jobs, dim);
      Rising(group) && forall a :: 0 <= a < |group| ==> group[a].dim == dim && group[a].id !in s.futures
  {
    var group := OfDim(s.jobs, dim);
    OrderedIds(s);
    OfDimRising(s.jobs, dim);
    assert forall a :: 0 <= a < |group| ==> group[a] in group;
  }

  /** The merged embed of a group, and its rows handed out. */
  method EmbedGroup(net: Net, budget: int, maxBatch: int, group: seq<Job>, dim: nat, was: map<nat, Outcome>)
    returns (futures: map<nat, Outcome>)
    requires net.Valid() && net.window == 512 && 1 <= maxBatch && Rising(group)
    requires forall a :: 0 <= a < |group| ==> group[a].dim == dim && group[a].id !in was
    ensures futures == AnswerAll(group, VerdictOf(net, false), was)
  {
    var V := EmbedIds(net, budget, maxBatch, AllIds(group), Some(dim));
    futures := SetResults(net, group, dim, V[..], was);
  }

  /** fut.set_exception(e) for every job of the group, none of them set before. */
  method SetExceptions(net: Net, group: seq<Job>, was: map<nat, Outcome>) returns (futures: map<nat, Outcome>)
    requires net.Valid() && Rising(group)
    requires forall a :: 0 <= a < |group| ==> group[a].id !in was
    ensures futures == AnswerAll(group, VerdictOf(net, true), was)
  {
    futures := was;
    assert group[..0] == [];
    for g := 0 to |group|
      invariant futures == AnswerAll(group[..g], VerdictOf(net, true), was)
    {
      NotYet(group, g, VerdictOf(net, true), was);
      assert group[g].id !in futures;
      futures := futures[group[g].id := Failed];
      assert group[..g + 1][..g] == group[..g];
    }
    assert group[..|group|] == group;
  }

  /** fut.set_result(V[o:o + len(ids)]) for every job of the group, o advancing. */
  method SetResults(net: Net, group: seq<Job>, ghost dim: nat, V: seq<Vec>, was: map<nat, Outcome>)
    returns (futures: map<nat, Outcome>)
    requires net.Valid() && Rising(group) && forall a :: 0 <= a < |group| ==> group[a].dim == dim
    requires forall a :: 0 <= a < |group| ==> group[a].id !in was
    requires |V| == |AllIds(group)|
    requires forall i :: 0 <= i < |V| ==> V[i] == Shrunk(net, Embedding(net, AllIds(group)[i]), Some(dim))
    ensures futures == AnswerAll(group, VerdictOf(net, false), was)
  {
    futures := was;
    var o := 0;
    assert group[..0] == [];
    for g := 0 to |group|
      invariant o == |AllIds(group[..g])| && futures == AnswerAll(group[..g], VerdictOf(net, false), was)
    {
      NotYet(group, g, VerdictOf(net, false), was);
      SliceIsWanted(net, group, g, dim, V, o);
      assert group[g].id !in futures;
      futures := futures[group[g].id := Rows(V[o..o + |group[g].ids|])];
      o := o + |group[g].ids|;
      assert group[..g + 1][..g] == group[..g];
    }
    assert group[..|group|] == group;
  }

  lemma {:induction false} NotYet(group: seq<Job>, g: nat, verdict: Job -> Outcome, was: map<nat, Outcome>)
    requires Rising(group) && g < |group| && group[g].id !in was
    ensures group[g].id !in AnswerAll(group[..g], verdict, was)
  {
    AnswerAllKeys(group[..g], verdict, was);
  }

  /** Job g's texts are the slice of all texts that starts where the earlier jobs' end. */
  lemma {:induction false} SliceOfJob(group: seq<Job>, g: nat)
    requires g < |group|
    ensures AllIds(group[..g + 1]) == AllIds(group[..g]) + group[g].ids
    ensures |AllIds(group[..g + 1])| <= |AllIds(group)|
    ensures AllIds(group[..g]) + group[g].ids == AllIds(group)[..|AllIds(group[..g + 1])|]
  {
    assert group[..g + 1][..g] == group[..g];
    if g + 1 < |group| {
      var rest := group[..|group| - 1];
      SliceOfJob(rest, g);
      assert rest[..g + 1] == group[..g + 1] && rest[..g] == group[..g];
    } else {
      assert group[..g + 1] == group;
    }
  }

  lemma {:induction false} SliceIsWanted(net: Net, group: seq<Job>, g: nat, dim: nat, V: seq<Vec>, o: nat)
    requires net.Valid() && g < |group| && o == |AllIds(group[..g])| && |V| == |AllIds(group)|
    requires group[g].dim == dim
    requires forall i :: 0 <= i < |V| ==> V[i] == Shrunk(net, Embedding(net, AllIds(group)[i]), Some(dim))
    ensures |AllIds(group[..g + 1])| == o + |group[g].ids| <= |V|
    ensures V[o..o + |group[g].ids|] == Wanted(net, group[g])
  {
    SliceOfJob(group, g);
    forall t | 0 <= t < |group[g].ids| ensures V[o + t] == Wanted(net, group[g])[t] {
      assert AllIds(group)[o + t] == (AllIds(group[..g]) + group[g].ids)[o + t];
    }
  }
}

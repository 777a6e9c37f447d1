/** The scratch-cluster lease (src-inspect-ai/src/seon_inspect/seon_cluster.py): which operator calls it makes,
    and when its private root may be deleted. The outcome of every call is part of the event that makes it. */
module ScratchLease {
  import opened Options

  // ---- Calls ----

  datatype Call = Init | Status | Start | Stop | Delete

  /** A call and whether it succeeded. */
  datatype Done = Done(call: Call, ok: bool)

  /** A start has succeeded since the last successful stop. */
  predicate Live(log: seq<Done>) {
    log != []
    && (log[|log| - 1] == Done(Start, true) || (log[|log| - 1] != Done(Stop, true) && Live(log[..|log| - 1])))
  }

  /** How the last start since the last successful stop ended; None if there was none. */
  function LastStart(log: seq<Done>): Option<bool> {
    if log == [] || log[|log| - 1] == Done(Stop, true) then None
    else if log[|log| - 1].call == Start then Some(log[|log| - 1].ok)
    else LastStart(log[..|log| - 1])
  }

  /** A start has been attempted since the last successful stop, so a process may be alive. */
  predicate MayRun(log: seq<Done>) {
    LastStart(log).Some?
  }

  /** The root was never deleted, in whole or in part, while the cluster was live. */
  predicate Safe(log: seq<Done>) {
    log == [] || (Safe(log[..|log| - 1]) && (log[|log| - 1].call == Delete ==> !Live(log[..|log| - 1])))
  }

  predicate Deleted(log: seq<Done>) {
    log != [] && (log[|log| - 1] == Done(Delete, true) || Deleted(log[..|log| - 1]))
  }

  lemma {:induction false} LogMore(log: seq<Done>, d: Done)
    ensures Live(log + [d]) == (d == Done(Start, true) || (d != Done(Stop, true) && Live(log)))
    ensures LastStart(log + [d]) ==
      if d == Done(Stop, true) then None else if d.call == Start then Some(d.ok) else LastStart(log)
    ensures Safe(log + [d]) == (Safe(log) && (d.call == Delete ==> !Live(log)))
    ensures Deleted(log + [d]) == (d == Done(Delete, true) || Deleted(log))
  {
    assert (log + [d])[..|log|] == log;
  }

  // ---- The lease as a state machine ----

  /** Recovering a stale advertisement: there is none, asking the operator fails, it keeps the leaf, or removes it. */
  datatype Recovery = NoLeaf | StatusFails | Retained | Removed

  predicate Recovered(r: Recovery) {
    r.NoLeaf? || r.Removed?
  }

  function RecoveryCalls(r: Recovery): seq<Done> {
    match r
    case NoLeaf => []
    case StatusFails => [Done(Status, false)]
    case Retained => [Done(Status, true)]
    case Removed => [Done(Status, true)]
  }

  /** An operation with the outcomes its calls meet, should it come to them. */
  datatype Event =
    | Restart(stop: bool, recovery: Recovery, start: bool, ready: bool)
    | Release(stop: bool, delete: bool)

  datatype Failure = Released | CallFailed(call: Call) | StillAdvertised | NotReady | RootFailed | ConfigFailed

  datatype State = State(stopped: bool, released: bool, log: seq<Done>)

  /** The calls an operation makes. */
  function CallsOf(st: State, e: Event): seq<Done> {
    if st.released then []
    else
      match e
      case Restart(stop, recovery, start, ready) =>
        if !stop then [Done(Stop, false)]
        else if !Recovered(recovery) then [Done(Stop, true)] + RecoveryCalls(recovery)
        else [Done(Stop, true)] + RecoveryCalls(recovery) + [Done(Start, start)]
      case Release(stop, delete) =>
        if st.stopped then [Done(Delete, delete)]
        else if !stop then [Done(Stop, false)]
        else [Done(Stop, true), Done(Delete, delete)]
  }

  function RecoveryFailure(r: Recovery): Option<Failure> {
    match r
    case NoLeaf => None
    case StatusFails => Some(CallFailed(Status))
    case Retained => Some(StillAdvertised)
    case Removed => None
  }

  function Reply(st: State, e: Event): Option<Failure> {
    match e
    case Restart(stop, recovery, start, ready) =>
      if st.released then Some(Released)
      else if !stop then Some(CallFailed(Stop))
      else if !Recovered(recovery) then RecoveryFailure(recovery)
      else if !start then Some(CallFailed(Start))
      else if !ready then Some(NotReady)
      else None
    case Release(stop, delete) =>
      if st.released then None
      else if !st.stopped && !stop then Some(CallFailed(Stop))
      else if !delete then Some(CallFailed(Delete))
      else None
  }

  function After(st: State, e: Event): State {
    if st.released then st
    else
      var log := st.log + CallsOf(st, e);
      match e
      case Restart(stop, recovery, start, ready) =>
        State(if !stop then st.stopped else !(Recovered(recovery) && start), false, log)
      case Release(stop, delete) =>
        var stopped := st.stopped || stop;
        State(stopped, stopped && delete, log)
  }

  // ---- When an operation succeeds, and what it calls ----

  /** A restart succeeds exactly if the lease is unreleased and every step does; it fails with its first failing step. */
  lemma {:induction false} RestartSucceeds(st: State, stop: bool, recovery: Recovery, start: bool, ready: bool)
    ensures var r := Reply(st, Restart(stop, recovery, start, ready));
      && (r == None <==> !st.released && stop && (recovery == NoLeaf || recovery == Removed) && start && ready)
      && (r == Some(NotReady) <==> !st.released && stop && (recovery == NoLeaf || recovery == Removed) && start && !ready)
      && (r == Some(CallFailed(Start)) <==> !st.released && stop && (recovery == NoLeaf || recovery == Removed) && !start)
      && (r == Some(CallFailed(Stop)) <==> !st.released && !stop) && (r == Some(Released) <==> st.released)
  {
  }

  /** A restart starts only after it has stopped, starts at most once and deletes nothing. */
  lemma {:induction false} RestartCalls(st: State, stop: bool, recovery: Recovery, start: bool, ready: bool, i: nat)
    requires i < |CallsOf(st, Restart(stop, recovery, start, ready))|
    ensures var calls := CallsOf(st, Restart(stop, recovery, start, ready));
      && calls[0] == Done(Stop, stop) && calls[i].call != Delete && (i > 0 ==> calls[0].ok && calls[i].call != Stop)
      && (calls[i].call == Start <==> i > 0 && i == |calls| - 1 && (recovery == NoLeaf || recovery == Removed))
  {
  }

  /** A release succeeds exactly if the lease is released already, or the stop, where one is due, and the deletion do. */
  lemma {:induction false} ReleaseSucceeds(st: State, stop: bool, delete: bool)
    ensures Reply(st, Release(stop, delete)) == None <==> st.released || ((st.stopped || stop) && delete)
    ensures After(st, Release(stop, delete)).released <==> st.released || ((st.stopped || stop) && delete)
  {
  }

  // ---- What every run keeps ----

  /** The flags tell the cluster's state, and the root is gone exactly when the lease is released. */
  ghost predicate Good(st: State) {
    && Safe(st.log)
    && (st.stopped <==> !Live(st.log))
    && (Live(st.log) <==> LastStart(st.log) == Some(true))
    && (st.released <==> Deleted(st.log))
    && (st.released ==> st.stopped)
  }

  lemma {:induction false} StopKeeps(log: seq<Done>)
    ensures var now := log + [Done(Stop, true)];
      !Live(now) && LastStart(now).None? && Safe(now) == Safe(log) && Deleted(now) == Deleted(log)
  {
    LogMore(log, Done(Stop, true));
  }

  lemma {:induction false} RecoveryKeeps(log: seq<Done>, r: Recovery)
    ensures var now := log + RecoveryCalls(r);
      Live(now) == Live(log) && LastStart(now) == LastStart(log) && Safe(now) == Safe(log) && Deleted(now) == Deleted(log)
  {
    LogMore(log, Done(Status, false));
    LogMore(log, Done(Status, true));
    assert log + [] == log;
  }

  lemma {:induction false} StepGood(st: State, e: Event)
    requires Good(st)
    ensures Good(After(st, e))
  {
    if !st.released {
      match e
      case Restart(stop, recovery, start, ready) => RestartGood(st, stop, recovery, start, ready);
      case Release(stop, delete) => ReleaseGood(st, stop, delete);
    }
  }

  lemma {:induction false} RestartGood(st: State, stop: bool, recovery: Recovery, start: bool, ready: bool)
    requires Good(st) && !st.released
    ensures Good(After(st, Restart(stop, recovery, start, ready)))
  {
    if !stop {
      LogMore(st.log, Done(Stop, false));
    } else {
      var stopped := st.log + [Done(Stop, true)];
      var recovered := stopped + RecoveryCalls(recovery);
      StopKeeps(st.log);
      RecoveryKeeps(stopped, recovery);
      assert st.log + ([Done(Stop, true)] + RecoveryCalls(recovery)) == recovered;
      if Recovered(recovery) {
        LogMore(recovered, Done(Start, start));
        assert st.log + ([Done(Stop, true)] + RecoveryCalls(recovery) + [Done(Start, start)]) == recovered + [Done(Start, start)];
      }
    }
  }

  lemma {:induction false} ReleaseGood(st: State, stop: bool, delete: bool)
    requires Good(st) && !st.released
    ensures Good(After(st, Release(stop, delete)))
  {
    var stopped := st.log + [Done(Stop, true)];
    if st.stopped {
      LogMore(st.log, Done(Delete, delete));
    } else if !stop {
      LogMore(st.log, Done(Stop, false));
    } else {
      StopKeeps(st.log);
      LogMore(stopped, Done(Delete, delete));
      assert st.log + [Done(Stop, true), Done(Delete, delete)] == stopped + [Done(Delete, delete)];
    }
  }

  // ---- Whole runs ----

  /** After the first k events, from the log of a successful start. */
  function Run(began: seq<Done>, events: seq<Event>, k: nat): State
    requires k <= |events|
  {
    if k == 0 then State(false, false, began + [Done(Start, true)])
    else After(Run(began, events, k - 1), events[k - 1])
  }

  /** Nothing has been started, stopped or deleted. */
  ghost predicate Preparing(log: seq<Done>) {
    forall i :: 0 <= i < |log| ==> log[i].call == Init || log[i].call == Status
  }

  lemma {:induction false} PreparingIs(log: seq<Done>)
    requires Preparing(log)
    ensures !Live(log) && LastStart(log).None? && Safe(log) && !Deleted(log)
  {
    if log != [] { PreparingIs(log[..|log| - 1]); }
  }

  /** Over every run, whatever each call does, the root is only deleted while no start has succeeded since the last
      successful stop. */
  lemma {:induction false} RunGood(began: seq<Done>, events: seq<Event>, k: nat)
    requires Preparing(began) && k <= |events|
    ensures Good(Run(began, events, k))
  {
    if k == 0 {
      PreparingIs(began);
      LogMore(began, Done(Start, true));
    } else {
      RunGood(began, events, k - 1);
      StepGood(Run(began, events, k - 1), events[k - 1]);
    }
  }

  /** The last restart that got as far as starting failed there. */
  predicate StartFailed(began: seq<Done>, events: seq<Event>, k: nat)
    requires k <= |events|
  {
    k > 0 &&
    var e := events[k - 1];
    if e.Restart? && e.stop && !Run(began, events, k - 1).released then Recovered(e.recovery) && !e.start
    else StartFailed(began, events, k - 1)
  }

  lemma {:induction false} StartFailedIs(began: seq<Done>, events: seq<Event>, k: nat)
    requires Preparing(began) && k <= |events|
    ensures StartFailed(began, events, k) <==> LastStart(Run(began, events, k).log) == Some(false)
  {
    if k == 0 {
      LogMore(began, Done(Start, true));
    } else {
      var st, e := Run(began, events, k - 1), events[k - 1];
      StartFailedIs(began, events, k - 1);
      RunGood(began, events, k - 1);
      if !st.released { LastStartAfter(st, e); }
    }
  }

  lemma {:induction false} LastStartAfter(st: State, e: Event)
    requires Good(st) && !st.released
    ensures e.Restart? && e.stop ==>
      LastStart(After(st, e).log) == if Recovered(e.recovery) then Some(e.start) else None
    ensures !(e.Restart? && e.stop) ==> (LastStart(After(st, e).log) == Some(false) <==> LastStart(st.log) == Some(false))
  {
    StopKeeps(st.log);
    var stopped := st.log + [Done(Stop, true)];
    LogMore(st.log, Done(Stop, false));
    match e
    case Restart(stop, recovery, start, ready) =>
      RecoveryKeeps(stopped, recovery);
      var recovered := stopped + RecoveryCalls(recovery);
      LogMore(recovered, Done(Start, start));
      assert st.log + ([Done(Stop, true)] + RecoveryCalls(recovery)) == recovered;
      assert st.log + ([Done(Stop, true)] + RecoveryCalls(recovery) + [Done(Start, start)]) == recovered + [Done(Start, start)];
    case Release(stop, delete) =>
      LogMore(st.log, Done(Delete, delete));
      LogMore(stopped, Done(Delete, delete));
      assert st.log + [Done(Stop, true), Done(Delete, delete)] == stopped + [Done(Delete, delete)];
  }

  /** Release deletes the root of a cluster that may be running, without stopping it, exactly when the last restart
      that got as far as starting failed there. */
  lemma {:induction false} DeletedUnstopped(began: seq<Done>, events: seq<Event>, k: nat, stop: bool, delete: bool)
    requires Preparing(began) && k <= |events|
    ensures var st := Run(began, events, k);
      CallsOf(st, Release(stop, delete)) == [Done(Delete, delete)] && MayRun(st.log)
      <==> !st.released && StartFailed(began, events, k)
  {
    RunGood(began, events, k);
    StartFailedIs(began, events, k);
    var st := Run(began, events, k);
    var calls := CallsOf(st, Release(stop, delete));
    assert calls == [Done(Delete, delete)] <==> !st.released && st.stopped by {
      if st.released { assert |calls| == 0; }
      if !st.released && !st.stopped { assert calls[0] != Done(Delete, delete); }
    }
    var last := LastStart(st.log);
    if last.Some? {
      assert last == if last.value then Some(true) else Some(false);
    }
  }

  /** Such a run: the restart's start fails, and release deletes the root. */
  lemma {:induction false} FailedStartIsDeleted()
    ensures var events := [Restart(true, NoLeaf, false, false), Release(true, true)];
      var st := Run([], events, 1);
      && Reply(Run([], events, 0), events[0]) == Some(CallFailed(Start)) && MayRun(st.log)
      && CallsOf(st, events[1]) == [Done(Delete, true)] && Run([], events, 2).released
  {
    var events := [Restart(true, NoLeaf, false, false), Release(true, true)];
    StartFailedIs([], events, 1);
    assert !Run([], events, 0).released;
    assert StartFailed([], events, 1);
    DeletedUnstopped([], events, 1, true, true);
    assert Run([], events, 2) == After(Run([], events, 1), events[1]);
  }

  // ---- The lease ----

  class Lease {
    var stopped: bool
    var released: bool
    ghost var log: seq<Done>

    ghost function Now(): State
      reads this
    {
      State(stopped, released, log)
    }

    constructor ()
      ensures Now() == State(true, false, [])
    {
      stopped, released, log := true, false, [];
    }

    /** bin/seon, or the deletion of the root, with the given outcome; the flags are the caller's business. */
    method Do(call: Call, outcome: bool) returns (ok: bool)
      modifies this`log
      ensures ok == outcome && log == old(log) + [Done(call, ok)]
    {
      log := log + [Done(call, outcome)];
      ok := outcome;
    }

    /** _recover_stale_advertisement */
    method Recover(recovery: Recovery) returns (r: Option<Failure>)
      modifies this`log
      ensures log == old(log) + RecoveryCalls(recovery) && r == RecoveryFailure(recovery)
    {
      if recovery.NoLeaf? { return None; }
      var ok := Do(Status, !recovery.StatusFails?);
      if !ok { return Some(CallFailed(Status)); }
      r := if recovery.Retained? then Some(StillAdvertised) else None;
    }

    method Restart(stop: bool, recovery: Recovery, start: bool, ready: bool) returns (r: Option<Failure>)
      modifies this
      ensures Now() == After(old(Now()), Event.Restart(stop, recovery, start, ready))
      ensures r == Reply(old(Now()), Event.Restart(stop, recovery, start, ready))
    {
      if released { return Some(Released); }
      ghost var was := log;
      var ok := Do(Stop, stop);
      if !ok { return Some(CallFailed(Stop)); }
      stopped := true;
      r := Recover(recovery);
      assert log == was + ([Done(Stop, true)] + RecoveryCalls(recovery));
      if r.Some? { return; }
      ok := Do(Start, start);
      assert log == was + ([Done(Stop, true)] + RecoveryCalls(recovery) + [Done(Start, start)]);
      if !ok { return Some(CallFailed(Start)); }
      stopped := false;
      r := if ready then None else Some(NotReady);
    }

    method Release(stop: bool, delete: bool) returns (r: Option<Failure>)
      modifies this
      ensures Now() == After(old(Now()), Event.Release(stop, delete))
      ensures r == Reply(old(Now()), Event.Release(stop, delete))
    {
      if released { return None; }
      if !stopped {
        var ok := Do(Stop, stop);
        if !ok { return Some(CallFailed(Stop)); }
        stopped := true;
      }
      var ok := Do(Delete, delete);
      if !ok { return Some(CallFailed(Delete)); }
      released := true;
      r := None;
    }
  }

  // ---- Starting a cluster ----

  /** The outcomes start_scratch_cluster meets, should it come to them: making the root, recovering, the two init
      commands, writing the config file if there is one, the start, readiness, and the release after that. */
  datatype Plan = Plan(root: bool, recovery: Recovery, init: bool, initName: bool, config: Option<bool>, start: bool,
                       ready: bool, stop: bool, delete: bool)

  function PrepareCalls(p: Plan): seq<Done> {
    if !Recovered(p.recovery) then RecoveryCalls(p.recovery)
    else if !p.init then RecoveryCalls(p.recovery) + [Done(Init, false)]
    else RecoveryCalls(p.recovery) + [Done(Init, true)] + [Done(Init, p.initName)]
  }

  predicate Prepared(p: Plan) {
    Recovered(p.recovery) && p.init && p.initName
  }

  function StartCalls(p: Plan): seq<Done> {
    if !p.root then []
    else if !Prepared(p) then PrepareCalls(p) + [Done(Delete, p.delete)]
    else if p.config == Some(false) then PrepareCalls(p)
    else if !p.start then PrepareCalls(p) + [Done(Start, false)]
    else if p.ready then PrepareCalls(p) + [Done(Start, true)]
    else if !p.stop then PrepareCalls(p) + [Done(Start, true)] + [Done(Stop, false)]
    else PrepareCalls(p) + [Done(Start, true)] + [Done(Stop, true), Done(Delete, p.delete)]
  }

  /** A deletion that fails after a failed preparation is what the caller hears of; a failing release is not. */
  function StartReply(p: Plan): Option<Failure> {
    if !p.root then Some(RootFailed)
    else if !Prepared(p) && !p.delete then Some(CallFailed(Delete))
    else if !Recovered(p.recovery) then RecoveryFailure(p.recovery)
    else if !p.init || !p.initName then Some(CallFailed(Init))
    else if p.config == Some(false) then Some(ConfigFailed)
    else if !p.start then Some(CallFailed(Start))
    else if !p.ready then Some(NotReady)
    else None
  }

  /** The root is given up exactly when nothing was prepared that could be started, or the started cluster was
      stopped again; in particular it stays when the config file cannot be written and when the start fails. */
  lemma {:induction false} RootGivenUp(p: Plan)
    ensures (exists i :: 0 <= i < |StartCalls(p)| && StartCalls(p)[i].call == Delete)
      <==> p.root && (!Prepared(p) || (p.config != Some(false) && p.start && !p.ready && p.stop))
  {
    var prep, calls := PrepareCalls(p), StartCalls(p);
    PreparePrepares(p);
    assert forall i :: 0 <= i < |prep| ==> prep[i].call != Delete;
    if p.root && (!Prepared(p) || (p.config != Some(false) && p.start && !p.ready && p.stop)) {
      assert calls[|calls| - 1].call == Delete;
    }
  }

  /** A start succeeds exactly if every step does, and the start command is given exactly if everything before it,
      the config file included, succeeded. */
  lemma {:induction false} StartSucceeds(p: Plan)
    ensures StartReply(p) == None <==>
      p.root && (p.recovery == NoLeaf || p.recovery == Removed) && p.init && p.initName && p.config != Some(false)
      && p.start && p.ready
    ensures (exists i :: 0 <= i < |StartCalls(p)| && StartCalls(p)[i].call == Start) <==>
      p.root && (p.recovery == NoLeaf || p.recovery == Removed) && p.init && p.initName && p.config != Some(false)
  {
    var prep, calls := PrepareCalls(p), StartCalls(p);
    PreparePrepares(p);
    assert forall i :: 0 <= i < |prep| ==> prep[i].call != Start;
    if p.root && Prepared(p) && p.config != Some(false) { assert calls[|prep|].call == Start; }
  }

  lemma {:induction false} PreparePrepares(p: Plan)
    ensures Preparing(PrepareCalls(p))
  {
  }

  /** The lease a start leaves, which only a successful start hands out. */
  method StartCluster(p: Plan) returns (lease: Lease, r: Option<Failure>)
    ensures fresh(lease) && lease.log == StartCalls(p) && r == StartReply(p)
    ensures r == None ==> lease.Now() == Run(PrepareCalls(p), [], 0)
    ensures lease.stopped <==> !Live(lease.log)
  {
    PreparePrepares(p);
    PreparingIs(PrepareCalls(p));
    lease := new Lease();
    if !p.root { return lease, Some(RootFailed); }
    r := Prepare(lease, p);
    if r.Some? {
      LogMore(lease.log, Done(Delete, p.delete));
      var gone := lease.Do(Delete, p.delete);
      if !gone { r := Some(CallFailed(Delete)); }
      return;
    }
    if p.config == Some(false) { return lease, Some(ConfigFailed); }
    r := Launch(lease, p);
  }

  lemma {:induction false} LaunchedThenStopped(prep: seq<Done>, stop: bool, delete: bool)
    ensures Live(prep + [Done(Start, true)] + [Done(Stop, stop)]) == !stop
    ensures !Live(prep + [Done(Start, true)] + [Done(Stop, true), Done(Delete, delete)])
  {
    var started := prep + [Done(Start, true)];
    var down := started + [Done(Stop, true)];
    LogMore(prep, Done(Start, true));
    LogMore(started, Done(Stop, stop));
    LogMore(started, Done(Stop, true));
    LogMore(down, Done(Delete, delete));
    assert started + [Done(Stop, true), Done(Delete, delete)] == down + [Done(Delete, delete)];
  }

  /** The start command, and what follows it. */
  method Launch(lease: Lease, p: Plan) returns (r: Option<Failure>)
    requires lease.Now() == State(true, false, PrepareCalls(p)) && p.root && Prepared(p) && p.config != Some(false)
    modifies lease
    ensures lease.log == StartCalls(p) && r == StartReply(p)
    ensures r == None ==> lease.Now() == Run(PrepareCalls(p), [], 0)
    ensures lease.stopped <==> !Live(lease.log)
  {
    ghost var prep := PrepareCalls(p);
    PreparePrepares(p);
    PreparingIs(prep);
    LogMore(prep, Done(Start, p.start));
    var started := lease.Do(Start, p.start);
    if !started { return Some(CallFailed(Start)); }
    lease.stopped := false;
    if p.ready { return None; }
    LaunchedThenStopped(prep, p.stop, p.delete);
    var cleanup := lease.Release(p.stop, p.delete);
    r := Some(NotReady);
  }

  method Prepare(lease: Lease, p: Plan) returns (r: Option<Failure>)
    requires lease.Now() == State(true, false, [])
    modifies lease`log
    ensures lease.log == PrepareCalls(p) && (r == None <==> Prepared(p))
    ensures r.Some? ==> r == StartReply(p.(root := true, delete := true))
  {
    r := lease.Recover(p.recovery);
    if r.Some? { return; }
    var ok := lease.Do(Init, p.init);
    if !ok { return Some(CallFailed(Init)); }
    ok := lease.Do(Init, p.initName);
    if !ok { return Some(CallFailed(Init)); }
  }

  /** Any sequence of restarts and releases of a started lease goes through the machine's states. */
  method Drive(p: Plan, events: seq<Event>) returns (lease: Lease)
    requires StartReply(p) == None
    ensures fresh(lease) && lease.Now() == Run(PrepareCalls(p), events, |events|) && Good(lease.Now())
  {
    var r;
    lease, r := StartCluster(p);
    assert Run(PrepareCalls(p), [], 0) == Run(PrepareCalls(p), events, 0);
    for k := 0 to |events|
      invariant fresh(lease) && lease.Now() == Run(PrepareCalls(p), events, k)
    {
      match events[k]
      case Restart(stop, recovery, start, ready) => r := lease.Restart(stop, recovery, start, ready);
      case Release(stop, delete) => r := lease.Release(stop, delete);
    }
    PreparePrepares(p);
    RunGood(PrepareCalls(p), events, |events|);
  }
}

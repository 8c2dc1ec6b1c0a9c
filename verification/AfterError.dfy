/** What becomes of a task that is accepted when its workers have left, as they do
    when they see the service in Error. */
module AfterError {
  import opened SyncTypes
  import opened SyncCore
  import opened Protocol
  import opened Effects
  import opened Conservation
  import opened TaskLife
  import opened Timing
  import opened FailureReasons
  import opened Liveness
  import opened Pools
  import opened Runs

  /** Every worker of a class has left. */
  ghost predicate Deserted(s: State, large: bool) {
    forall i | 0 <= i < |s.workers| :: s.workers[i].large == large ==> s.workers[i].phase == Exited
  }

  /** The step is the locked part of `stop`, or enters Error: it sweeps the queues. */
  ghost predicate Sweeps(w: World, s: State, a: Action) {
    EffectOf(w, s, a).CancelAll? || EffectOf(w, s, a).FailAll?
  }

  /** A task that waits for a class whose workers have all left. */
  ghost predicate Stranded(s: State, id: string, large: bool) {
    s.sh.started && Deserted(s, large) && InClass(s, id, large) && Queueable(s.sh.results[id].state)
  }

  lemma ConcludeLeaves(w: World, s: State, i: nat, j: nat)
    requires ConcludeEnabled(s, i) && At(s, j) && s.workers[j].phase == Exited
    ensures var s' := ConcludeStep(w, s, i); At(s', j) && s'.workers[j] == s.workers[j]
  {
  }

  /** Who has left does not come back before the next start. */
  lemma GoneStep(w: World, s: State, a: Action, s': State, j: nat)
    requires Step(w, s, a, s') && !a.StopJoin? && !a.Start? && At(s, j) && s.workers[j].phase == Exited
    ensures At(s', j) && s'.workers[j] == s.workers[j]
  {
    match a
    case Seek(i) => IsSeek(w, s, i, s'); QueueingLeaves(w, s, i, j);
    case WakeUp(i) => IsWakeUp(w, s, i, s');
    case Read(i) => IsRead(w, s, i, s');
    case Transfer(i, env) => IsTransfer(w, s, i, env, s');
    case Fetch(i, op) => IsFetch(w, s, i, op, s');
    case Conclude(i) => IsConclude(w, s, i, s'); ConcludeLeaves(w, s, i, j);
    case Requeue(i) => IsRequeue(w, s, i, s'); QueueingLeaves(w, s, i, j);
    case Deliver(i) => IsDeliver(w, s, i, s'); QueueingLeaves(w, s, i, j);
    case _ => OtherLeaves(w, s, a, s', j);
  }

  lemma OtherLeaves(w: World, s: State, a: Action, s': State, j: nat)
    requires Step(w, s, a, s') && !ByWorker(a) && !a.StopJoin? && !a.Start? && At(s, j) && s.workers[j].phase == Exited
    ensures At(s', j) && s'.workers[j] == s.workers[j]
  {
    assert Inspect(0);
  }

  lemma QueueingLeaves(w: World, s: State, i: nat, j: nat)
    requires At(s, i) && At(s, j) && s.workers[j].phase == Exited
    ensures SeekEnabled(s, i) ==> SeekStep(s, i).workers[j] == s.workers[j]
    ensures RequeueEnabled(s, i) ==> RequeueStep(w, s, i).workers[j] == s.workers[j]
    ensures DeliverEnabled(s, i) ==> DeliverStep(s, i).workers[j] == s.workers[j]
  {
  }

  lemma DesertedStep(w: World, s: State, a: Action, s': State, large: bool)
    requires Sound(w, s, a, s') && Step(w, s, a, s') && s.sh.started && !a.StopLock? && Deserted(s, large)
    ensures s'.sh.started && Deserted(s', large)
  {
    StartedStays(w, s, a, s');
    forall i | 0 <= i < |s'.workers| && s'.workers[i].large == large ensures s'.workers[i].phase == Exited {
      SameClass(w, s, a, s', i);
      GoneStep(w, s, a, s', i);
    }
  }

  lemma StartedStays(w: World, s: State, a: Action, s': State)
    requires Sound(w, s, a, s') && Step(w, s, a, s') && s.sh.started && !a.StopLock?
    ensures s'.sh.started && !ByControl(a) && |s'.workers| == |s.workers|
  {
    assert !ByControl(a) by {
      assert Look(0);
      assert Inspect(0);
    }
    FlagsStep(w, s, a, s');
  }

  lemma SameClass(w: World, s: State, a: Action, s': State, i: nat)
    requires Sound(w, s, a, s') && At(s, i) && At(s', i)
    ensures s'.workers[i].large == s.workers[i].large
  {
    assert Look(0);
  }

  /** Nobody takes a stranded task; only `stop` and the step into Error, which sweep
      the queues, touch it. */
  ghost predicate Untouched(s: State, s': State, e: Effect, id: string)
    requires id in s.sh.results
  {
    && id in s'.sh.results
    && if e.CancelAll? || e.FailAll? then Terminal(s'.sh.results[id].state)
       else s'.sh.results[id] == s.sh.results[id]
  }

  lemma StrandedEffect(w: World, s: State, s': State, e: Effect, id: string, large: bool)
    requires Conserved(s) && Shows(w, s, s', e) && !e.Crash? && Stranded(s, id, large)
    ensures Untouched(s, s', e, id)
  {
    match e
    case Take(i, k) => NotTaken(s, s', i, k, id, large);
    case Settle(i, r) => HeldItem(s, i);
    case PutBack(i, r) => HeldItem(s, i);
    case _ =>
  }

  lemma StrandedRecord(w: World, s: State, a: Action, s': State, id: string, large: bool)
    requires Sound(w, s, a, s') && Stranded(s, id, large)
    ensures Untouched(s, s', EffectOf(w, s, a), id)
  {
    assert Look(0);
    StrandedEffect(w, s, s', EffectOf(w, s, a), id, large);
  }

  lemma NotTaken(s: State, s': State, i: nat, k: nat, id: string, large: bool)
    requires Stranded(s, id, large) && TakeShown(s, s', i, k)
    ensures Queue(s.sh, s.workers[i].large)[k].id != id
  {
  }

  lemma StrandedStep(w: World, s: State, a: Action, s': State, id: string, large: bool)
    requires Sound(w, s, a, s') && Step(w, s, a, s') && Stranded(s, id, large)
    requires !Sweeps(w, s, a)
    ensures Stranded(s', id, large) && s'.sh.results[id] == s.sh.results[id]
  {
    StrandedRecord(w, s, a, s', id, large);
    DesertedStep(w, s, a, s', large);
    InClassStep(w, s, a, s', id, large);
  }

  lemma StrandedNext(w: World, ss: seq<State>, acts: seq<Action>, k: nat, id: string, large: bool)
    requires IsRun(w, ss, acts) && k < |acts| && Stranded(ss[k], id, large) && !Sweeps(w, ss[k], acts[k])
    ensures Stranded(ss[k + 1], id, large) && ss[k + 1].sh.results[id] == ss[k].sh.results[id]
  {
    SoundRun(w, ss, acts, k);
    StrandedStep(w, ss[k], acts[k], ss[k + 1], id, large);
  }

  /** Once every worker of its class has left, a waiting task keeps its record, and
      `wait_for_idle` cannot return true, until `stop` or another step into Error
      sweeps the queues. */
  lemma {:induction false} StrandedUntilSwept(w: World, ss: seq<State>, acts: seq<Action>, m: nat, n: nat,
                                              id: string, large: bool)
    requires IsRun(w, ss, acts) && m <= n < |ss| && Stranded(ss[m], id, large)
    requires forall k | m <= k < n :: !Sweeps(w, ss[k], acts[k])
    ensures Stranded(ss[n], id, large) && ss[n].sh.results[id] == ss[m].sh.results[id]
    ensures !IdleVerdict(ss[n].sh)
    decreases n
  {
    if m < n {
      StrandedUntilSwept(w, ss, acts, m, n - 1, id, large);
      StrandedNext(w, ss, acts, n - 1, id, large);
    }
    BasicRun(w, ss, acts, n);
    var l, k := QueuedPlace(ss[n], id);
  }

  // ------------------------------------------------------------------ a run that strands a task

  /** `failures` health checks have failed, and nothing else has happened. */
  ghost predicate Checked(c: Config, s: State, failures: U32) {
    Fresh(c, s) && s.monitor == Polling(failures) && s.sh.service != Error
  }

  /** A failed health check of a manager without tasks. */
  lemma CheckFails(w: World, s: State, failures: U32) returns (s': State)
    requires Reached(w, s) && Checked(w.config, s, failures) && failures + 1 < U32_LIMIT
    ensures Reached(w, s') && Fresh(w.config, s') && s'.monitor == Announcing(failures + 1, [])
    ensures s'.sh.service == if failures + 1 > w.config.maxRetries then Error else Disconnected
  {
    var s1 := Apply(w, s, Poll);
    Onward(w, s, Poll, s1);
    s' := ProbeStep(w, s1, false, []);
    Onward(w, s1, Probe(false, []), s');
    assert s'.workers == FreshWorkers(w.config);
  }

  /** The monitor goes on to its next check. */
  lemma NextCheck(w: World, s: State, failures: U32) returns (s': State)
    requires Reached(w, s) && Fresh(w.config, s) && s.monitor == Announcing(failures, []) && s.sh.service != Error
    ensures Reached(w, s') && Checked(w.config, s', failures)
  {
    var s1 := Apply(w, s, Announce);
    Onward(w, s, Announce, s1);
    s' := Apply(w, s1, Rest);
    Onward(w, s1, Rest, s');
  }

  lemma {:induction false} ChecksFail(w: World, n: nat) returns (s: State)
    requires ValidConfig(w.config) && n <= w.config.maxRetries
    ensures Reached(w, s) && Checked(w.config, s, n)
  {
    if n == 0 {
      s := Runs.Launch(w);
    } else {
      var s0 := ChecksFail(w, n - 1);
      var s1 := CheckFails(w, s0, n - 1);
      s := NextCheck(w, s1, n);
    }
  }

  /** The service is in Error, and the first `n` workers have left. */
  ghost predicate Leaving(c: Config, s: State, n: nat) {
    && s.sh.started && !s.sh.stopping && s.sh.service == Error && s.sh.results == map[] && QueuesEmpty(s.sh)
    && n <= |s.workers|
    && (forall i | 0 <= i < |s.workers| :: s.workers[i].phase == if i < n then Exited else Seeking)
  }

  lemma {:induction false} WorkersLeave(w: World, n: nat) returns (s: State)
    requires ValidConfig(w.config) && BudgetFits(w.config) && n <= w.config.smallFileWorkers + w.config.largeFileWorkers
    ensures Reached(w, s) && Leaving(w.config, s, n)
    ensures |s.workers| == w.config.smallFileWorkers + w.config.largeFileWorkers
  {
    if n == 0 {
      var s0 := ChecksFail(w, w.config.maxRetries);
      s := CheckFails(w, s0, w.config.maxRetries);
    } else {
      var s0 := WorkersLeave(w, n - 1);
      s := SeekStep(s0, n - 1);
      Onward(w, s0, Seek(n - 1), s);
    }
  }

  /** For every valid configuration whose failure count can exceed its budget, and
      every task that can be accepted, some run strands the task. */
  lemma SomeRunStrands(w: World, task: SyncTask, large: bool) returns (s: State)
    requires ValidConfig(w.config) && BudgetFits(w.config) && w.admits(task, large)
    ensures Reached(w, s) && Stranded(s, task.id, large) && s.sh.results[task.id].state == Pending
  {
    var s0 := WorkersLeave(w, w.config.smallFileWorkers + w.config.largeFileWorkers);
    s := EnqueueStep(s0, task, large);
    Onward(w, s0, Enqueue(task, large), s);
  }

  // ------------------------------------------------------------------ exactly when a task can be stranded

  /** The failure count of the monitor cannot exceed 2^32 - 1. */
  lemma NoError(w: World, s: State, a: Action, s': State)
    requires Step(w, s, a, s') && !BudgetFits(w.config) && s.sh.service != Error
    ensures s'.sh.service != Error
  {
    ServiceStep(w, s, a, s');
  }

  lemma {:induction false} NoneLeftRun(w: World, ss: seq<State>, acts: seq<Action>, n: nat)
    requires IsRun(w, ss, acts) && n < |ss| && !BudgetFits(w.config)
    ensures ss[n].sh.service != Error && NoneLeft(ss[n])
  {
    if n > 0 {
      NoneLeftRun(w, ss, acts, n - 1);
      NoneLeftNext(w, ss, acts, n - 1);
    }
  }

  lemma NoneLeftNext(w: World, ss: seq<State>, acts: seq<Action>, k: nat)
    requires IsRun(w, ss, acts) && k < |acts| && !BudgetFits(w.config) && ss[k].sh.service != Error && NoneLeft(ss[k])
    ensures ss[k + 1].sh.service != Error && NoneLeft(ss[k + 1])
  {
    assert StepAt(w, ss, acts, k);
    NoError(w, ss[k], acts[k], ss[k + 1]);
    StaysStep(w, ss[k], acts[k], ss[k + 1]);
  }

  lemma NotDeserted(w: World, s: State, large: bool)
    requires ValidConfig(w.config) && Basic(w.config, s) && s.sh.started && NoneLeft(s)
    ensures !Deserted(s, large)
  {
    var i := FirstOf(w.config, large);
    assert s.workers[i].large == large;
  }

  ghost predicate CanStrand(w: World, id: string, large: bool) {
    exists s :: Reached(w, s) && Stranded(s, id, large)
  }

  /** A task that `enqueue` can let through can be stranded iff the failure count can
      exceed the budget. */
  lemma StrandsExactly(w: World, task: SyncTask, large: bool)
    requires ValidConfig(w.config) && w.admits(task, large)
    ensures CanStrand(w, task.id, large) <==> w.config.maxRetries < 4294967295
  {
    if BudgetFits(w.config) {
      var s := SomeRunStrands(w, task, large);
    } else {
      forall s | Reached(w, s) ensures !Stranded(s, task.id, large) {
        var ss, acts := RunTo(w, s);
        BasicRun(w, ss, acts, |acts|);
        NoneLeftRun(w, ss, acts, |acts|);
        if s.sh.started {
          NotDeserted(w, s, large);
        }
      }
    }
  }
}

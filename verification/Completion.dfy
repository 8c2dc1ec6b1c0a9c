/** Every run without Error can be continued until the manager is idle: no state is
    a trap, neither for a task nor for `wait_for_idle`. */
module Completion {
  import opened SyncTypes
  import opened SyncCore
  import opened Protocol
  import opened Effects
  import opened Conservation
  import opened TaskLife
  import opened Wakeups
  import opened Progress
  import opened Liveness
  import opened FailureReasons
  import opened Runs

  // ------------------------------------------------------------------ the monitor stays

  ghost predicate Watched(s: State) {
    s.sh.started ==> Counts(s.monitor)
  }

  lemma WatchedStep(w: World, s: State, a: Action, s': State)
    requires Step(w, s, a, s') && Watched(s) && (s.sh.started ==> !s.sh.stopping)
    ensures Watched(s')
  {
    if ByWorker(a) {
      WorkerKeeps(w, s, a, s');
    } else {
      assert Inspect(0);
    }
  }

  lemma {:induction false} WatchedRun(w: World, ss: seq<State>, acts: seq<Action>, n: nat)
    requires IsRun(w, ss, acts) && n < |ss|
    ensures Watched(ss[n])
  {
    if n > 0 {
      WatchedRun(w, ss, acts, n - 1);
      WatchedNext(w, ss, acts, n - 1);
    }
  }

  lemma WatchedNext(w: World, ss: seq<State>, acts: seq<Action>, k: nat)
    requires IsRun(w, ss, acts) && k < |acts| && Watched(ss[k])
    ensures Watched(ss[k + 1])
  {
    BasicRun(w, ss, acts, k);
    assert StepAt(w, ss, acts, k);
    WatchedStep(w, ss[k], acts[k], ss[k + 1]);
  }

  // ------------------------------------------------------------------ states from which one can go on

  /** A started manager that has not seen Error, in a reachable state. */
  ghost predicate Healthy(w: World, s: State) {
    && TasksOk(w, s) && Listed(s) && AllMaySleep(s) && NoneLeft(s) && Watched(s)
    && s.sh.started && s.sh.service != Error
  }

  lemma HealthyStep(w: World, s: State, a: Action, s': State)
    requires Healthy(w, s) && Step(w, s, a, s') && !ByControl(a) && s'.sh.service != Error
    ensures Healthy(w, s')
  {
    SoundStep(w, s, a, s');
    ListedStep(w, s, a, s');
    AllSleepStep(w, s, a, s');
    StaysStep(w, s, a, s');
    FlagsStep(w, s, a, s');
    WatchedStep(w, s, a, s');
    assert TasksOk(w, s') by {
      assert Look(0);
    }
  }

  // ------------------------------------------------------------------ reconnecting

  /** Steps of the monitor until its next health check. */
  function UntilCheck(m: Monitor): nat {
    match m
    case Probing(_) => 0
    case Polling(_) => 1
    case Sleeping(_) => 2
    case Announcing(_, pending) => 3 + |pending|
    case _ => 0
  }

  /** A step of the monitor towards its next health check, or a check that succeeds. */
  lemma MonitorMoves(w: World, s: State) returns (a: Action, s': State)
    requires Counts(s.monitor) && !s.sh.stopping
    ensures Step(w, s, a, s') && !ByControl(a)
    ensures s'.accepted == s.accepted && s'.sh.results == s.sh.results && |s'.workers| == |s.workers|
    ensures forall j | 0 <= j < |s.workers| :: Stage(s'.workers[j].phase) == Stage(s.workers[j].phase)
    ensures forall j | 0 <= j < |s.workers| :: s'.workers[j] == s.workers[j] || s'.workers[j] == Woken(s.workers[j])
    ensures SameQueues(s, s') && EffectOf(w, s, a).Quiet?
    ensures if s.monitor.Probing? then s'.sh.service == Connected
            else s'.sh.service == s.sh.service && UntilCheck(s'.monitor) < UntilCheck(s.monitor)
  {
    a := match s.monitor
      case Probing(_) => Probe(true, [])
      case Polling(_) => Poll
      case Sleeping(_) => Rest
      case _ => Announce;
    s' := Apply(w, s, a);
  }

  lemma SameFine(c: Config, s: State, s': State)
    requires s'.accepted == s.accepted && s'.sh.results == s.sh.results && |s'.workers| == |s.workers|
    requires forall j | 0 <= j < |s.workers| :: Stage(s'.workers[j].phase) == Stage(s.workers[j].phase)
    ensures Fine(c, s') == Fine(c, s)
  {
    RanksFall(s.workers, s'.workers, Stage);
    RanksFall(s'.workers, s.workers, Stage);
  }

  // ------------------------------------------------------------------ until idle

  /** Where the manager is not idle there is a live task. */
  lemma LiveTask(s: State) returns (id: string)
    requires Conserved(s) && !IdlePredicate(s.sh)
    ensures id in s.sh.results && !Terminal(s.sh.results[id].state)
  {
    if s.sh.small != [] {
      QueuedItem(s, false, 0);
      id := s.sh.small[0].id;
    } else if s.sh.large != [] {
      QueuedItem(s, true, 0);
      id := s.sh.large[0].id;
    } else {
      var i := SomeHolder(s);
      HeldItem(s, i);
      id := s.workers[i].phase.item.id;
    }
  }

  lemma SomeHolder(s: State) returns (i: nat)
    requires Conserved(s) && s.sh.active > 0
    ensures At(s, i) && Holding(s.workers[i].phase)
  {
    if j: nat :| j < |s.workers| && Holding(s.workers[j].phase) {
      i := j;
    } else {
      HeldNone(s.workers);
      assert false;
    }
  }

  /** A schedule of `Liveness` keeps the manager healthy. */
  lemma ScheduleHealthy(w: World, s: State, a1: Action, s1: State, a2: Action, s2: State, a3: Action, s3: State)
    requires Healthy(w, s) && Step(w, s, a1, s1) && Step(w, s1, a2, s2) && Step(w, s2, a3, s3)
    requires Resting(s, a1) && Resting(s1, a2) && ByWorker(a3)
    ensures Healthy(w, s3)
  {
    RestHealthy(w, s, a1, s1);
    RestHealthy(w, s1, a2, s2);
    WorkHealthy(w, s2, a3, s3);
  }

  lemma RestHealthy(w: World, s: State, a: Action, s': State)
    requires Healthy(w, s) && Step(w, s, a, s') && Resting(s, a)
    ensures Healthy(w, s')
  {
    CalmStep(w, s, a, s');
    HealthyStep(w, s, a, s');
  }

  lemma WorkHealthy(w: World, s: State, a: Action, s': State)
    requires Healthy(w, s) && Step(w, s, a, s') && ByWorker(a)
    ensures Healthy(w, s')
  {
    ServiceStep(w, s, a, s');
    HealthyStep(w, s, a, s');
  }

  /** Three steps after which less is left to do. */
  lemma AdvanceOnce(w: World, s: State)
    returns (a1: Action, s1: State, a2: Action, s2: State, a3: Action, s3: State)
    requires Healthy(w, s) && ValidConfig(w.config) && BudgetFits(w.config)
    requires s.sh.service == Connected && !IdlePredicate(s.sh)
    ensures Step(w, s, a1, s1) && Step(w, s1, a2, s2) && Step(w, s2, a3, s3)
    ensures Healthy(w, s3) && Fine(w.config, s3) < Fine(w.config, s)
  {
    var id := LiveTask(s);
    a1, s1, a2, s2, a3, s3 := SomeSchedule(w, s, id);
    ScheduleLowers(w, s, a1, s1, a2, s2, a3, s3);
    ScheduleHealthy(w, s, a1, s1, a2, s2, a3, s3);
  }

  /** How many health checks and waits lie before the next connection. */
  ghost function Wait(s: State): nat {
    if s.sh.service == Connected then 0 else 1 + UntilCheck(s.monitor)
  }

  /** One step of the monitor towards a connected service. */
  lemma ReconnectOnce(w: World, s: State) returns (a: Action, s': State)
    requires Healthy(w, s) && s.sh.service != Connected
    ensures Step(w, s, a, s') && Healthy(w, s') && Fine(w.config, s') == Fine(w.config, s)
    ensures Wait(s') < Wait(s)
  {
    a, s' := MonitorMoves(w, s);
    HealthyStep(w, s, a, s');
    SameFine(w.config, s, s');
  }

  lemma {:induction false} Drains(w: World, s: State) returns (s': State, k: nat)
    requires Healthy(w, s) && ValidConfig(w.config) && BudgetFits(w.config)
    ensures Leads(w, s, s', k) && IdleVerdict(s'.sh)
    decreases Fine(w.config, s), Wait(s), 1
  {
    if IdlePredicate(s.sh) {
      s', k := s, 0;
    } else if s.sh.service == Connected {
      s', k := DrainsConnected(w, s);
    } else {
      s', k := DrainsLater(w, s);
    }
  }

  lemma {:induction false} DrainsConnected(w: World, s: State) returns (s': State, k: nat)
    requires Healthy(w, s) && ValidConfig(w.config) && BudgetFits(w.config)
    requires !IdlePredicate(s.sh) && s.sh.service == Connected
    ensures Leads(w, s, s', k) && IdleVerdict(s'.sh)
    decreases Fine(w.config, s), Wait(s), 0
  {
    var a1, s1, a2, s2, a3, s3 := AdvanceOnce(w, s);
    s', k := Drains(w, s3);
    ThreeBefore(w, s, a1, s1, a2, s2, a3, s3, s', k);
    k := k + 3;
  }

  lemma {:induction false} DrainsLater(w: World, s: State) returns (s': State, k: nat)
    requires Healthy(w, s) && ValidConfig(w.config) && BudgetFits(w.config) && s.sh.service != Connected
    ensures Leads(w, s, s', k) && IdleVerdict(s'.sh)
    decreases Fine(w.config, s), Wait(s), 0
  {
    var a, s1 := ReconnectOnce(w, s);
    s', k := Drains(w, s1);
    Before(w, s, a, s1, s', k);
    k := k + 1;
  }

  /** From every state of a run without Error since the last start, while the
      manager is started, some continuation makes `wait_for_idle` return true. */
  lemma CanBecomeIdle(w: World, ss: seq<State>, acts: seq<Action>, m: nat, n: nat) returns (s': State, k: nat)
    requires IsRun(w, ss, acts) && BudgetFits(w.config) && m < n < |ss| && acts[m].Start?
    requires forall k | m < k <= n :: ss[k].sh.service != Error
    requires ss[n].sh.started
    ensures Leads(w, ss[n], s', k) && IdleVerdict(s'.sh)
  {
    HealthyRun(w, ss, acts, m, n);
    s', k := Drains(w, ss[n]);
  }

  // ------------------------------------------------------------------ a manager that cannot go on is idle

  function Later(s: State, delta: nat): State {
    s.(now := s.now + delta)
  }

  /** A step that some thread will make of itself: of a worker, but for a spurious
      wake-up, or a notification that is owed. */
  ghost predicate Due(s: State, a: Action) {
    a.EnqueueNotify? || (ByWorker(a) && (a.WakeUp? ==> Resting(s, a)))
  }

  /** However much time passes, no such step becomes possible. */
  ghost predicate Stuck(w: World, s: State) {
    forall delta: nat, a: Action | Due(Later(s, delta), a) :: !Enabled(w, Later(s, delta), a)
  }

  /** A worker that can be roused has, or will have, a step to make. */
  lemma RousableIsDue(w: World, s: State, i: nat, t: int) returns (delta: nat, a: Action)
    requires Rousable(s, i, t)
    ensures Due(Later(s, delta), a) && Enabled(w, Later(s, delta), a)
  {
    delta := 0;
    if s.workers[i].phase.Seeking? {
      a := Seek(i);
    } else if s.workers[i].phase.Reporting? {
      a := Deliver(i);
    } else if s.notifies > 0 {
      a := EnqueueNotify;
    } else if j: nat :| j < |s.workers| && OwesNotify(s.workers[j]) {
      a := Deliver(j);
    } else {
      var time := s.workers[i].phase.wakeup.time;
      delta := if s.now < time then time - s.now else 0;
      a := WakeUp(i);
    }
  }

  lemma HolderIsDue(w: World, s: State, i: nat) returns (a: Action)
    requires At(s, i) && Holding(s.workers[i].phase)
    ensures Due(Later(s, 0), a) && Enabled(w, Later(s, 0), a)
  {
    var s';
    a, s' := HolderAdvances(w, s, i);
    assert Enabled(w, s, a) && !a.WakeUp? by {
      assert Inspect(0);
    }
    assert Later(s, 0) == s;
  }

  lemma LiveIsDue(w: World, s: State, id: string) returns (delta: nat, a: Action)
    requires Healthy(w, s) && ValidConfig(w.config) && s.sh.service == Connected
    requires id in s.sh.results && !Terminal(s.sh.results[id].state)
    ensures Due(Later(s, delta), a) && Enabled(w, Later(s, delta), a)
  {
    if i: nat :| i < |s.workers| && Holding(s.workers[i].phase) {
      delta := 0;
      a := HolderIsDue(w, s, i);
    } else {
      if s.sh.results[id].state == InProgress {
        var i := HeldPlace(s, id);
      }
      var large, k := QueuedPlace(s, id);
      ClassRousable(w, s, large, k);
      delta, a := RousableIsDue(w, s, FirstOf(w.config, large), Queue(s.sh, large)[k].readyAt);
    }
  }

  /** In a run without Error since the last start, a started and connected manager
      in which, however long one waits, no thread has a step to make is idle. */
  lemma StuckIsIdle(w: World, ss: seq<State>, acts: seq<Action>, m: nat, n: nat)
    requires IsRun(w, ss, acts) && m < n < |ss| && acts[m].Start?
    requires forall k | m < k <= n :: ss[k].sh.service != Error
    requires ss[n].sh.started && ss[n].sh.service == Connected && Stuck(w, ss[n])
    ensures IdleVerdict(ss[n].sh)
  {
    HealthyRun(w, ss, acts, m, n);
    if !IdlePredicate(ss[n].sh) {
      var id := LiveTask(ss[n]);
      var delta, a := LiveIsDue(w, ss[n], id);
    }
  }

  lemma HealthyRun(w: World, ss: seq<State>, acts: seq<Action>, m: nat, n: nat)
    requires IsRun(w, ss, acts) && m < n < |ss| && acts[m].Start?
    requires forall k | m < k <= n :: ss[k].sh.service != Error
    requires ss[n].sh.started
    ensures Healthy(w, ss[n]) && ValidConfig(w.config) && !ss[n].sh.stopping
  {
    TasksRun(w, ss, acts, n);
    ListedRun(w, ss, acts, n);
    NoLostQueueWakeup(w, ss, acts, n);
    StaysRun(w, ss, acts, m, n);
    WatchedRun(w, ss, acts, n);
  }
}

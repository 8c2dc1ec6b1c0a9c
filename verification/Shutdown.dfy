/** What `stop` leaves behind, and why its joins come to an end. */
module Shutdown {
  import opened SyncTypes
  import opened SyncCore
  import opened Protocol
  import opened Effects
  import opened Conservation
  import opened TaskLife
  import opened Timing
  import opened Wakeups
  import opened Progress
  import opened Runs
  import Downloads

  // ------------------------------------------------------------------ nothing is taken

  lemma StoppedStep(w: World, s: State, a: Action, s': State)
    requires Sound(w, s, a, s') && Step(w, s, a, s') && !s.sh.started && !a.Start?
    ensures !s'.sh.started && QueuesEmpty(s'.sh) && !TakesFrom(a, s', false) && !TakesFrom(a, s', true)
  {
    if ByControl(a) {
      assert Inspect(0);
    } else {
      FlagsStep(w, s, a, s');
    }
    TakeEffect(w, s, a, s');
    assert Look(0);
  }

  lemma StopLockStep(w: World, s: State, a: Action, s': State)
    requires Step(w, s, a, s') && a.StopLock?
    ensures !s'.sh.started && QueuesEmpty(s'.sh)
  {
    assert Inspect(0);
  }

  /** From the locked part of `stop` until the next start both queues are empty
      and no task is taken. */
  lemma {:induction false} NothingTakenAfterStop(w: World, ss: seq<State>, acts: seq<Action>, m: nat, n: nat)
    requires IsRun(w, ss, acts) && m < n < |ss| && acts[m].StopLock?
    requires forall k | m < k < n :: !acts[k].Start?
    ensures !ss[n].sh.started && QueuesEmpty(ss[n].sh)
    ensures !TakesFrom(acts[n - 1], ss[n], false) && !TakesFrom(acts[n - 1], ss[n], true)
    decreases n
  {
    if m + 1 < n {
      NothingTakenAfterStop(w, ss, acts, m, n - 1);
    }
    StoppedNext(w, ss, acts, n - 1);
  }

  lemma StoppedNext(w: World, ss: seq<State>, acts: seq<Action>, k: nat)
    requires IsRun(w, ss, acts) && k < |acts| && (acts[k].StopLock? || (!ss[k].sh.started && !acts[k].Start?))
    ensures !ss[k + 1].sh.started && QueuesEmpty(ss[k + 1].sh)
    ensures !TakesFrom(acts[k], ss[k + 1], false) && !TakesFrom(acts[k], ss[k + 1], true)
  {
    SoundRun(w, ss, acts, k);
    if acts[k].StopLock? {
      StopLockStep(w, ss[k], acts[k], ss[k + 1]);
    } else {
      StoppedStep(w, ss[k], acts[k], ss[k + 1]);
    }
  }

  /** When `stop` has returned, no worker is left, nothing is active, and every
      task ever accepted is Completed, Failed or Cancelled. */
  lemma AllTerminalAfterStop(w: World, ss: seq<State>, acts: seq<Action>, n: nat)
    requires IsRun(w, ss, acts) && n < |ss| && ss[n].control == Ready && !ss[n].sh.started
    ensures ss[n].workers == [] && ss[n].sh.active == 0 && QueuesEmpty(ss[n].sh)
    ensures forall id | id in ss[n].accepted :: id in ss[n].sh.results && Terminal(ss[n].sh.results[id].state)
  {
    BasicRun(w, ss, acts, n);
    ListedRun(w, ss, acts, n);
    NothingLeft(ss[n]);
  }

  // ------------------------------------------------------------------ every thread leaves

  /** The most steps a worker still makes once `stop` has set its flag. */
  function StepsLeft(p: Phase): nat {
    match p
    case Taken(_) => 15
    case Working(_, _, _) => 14
    case Fetching(_, _, _, place) => 5 + Downloads.OpsLeft(place)
    case Finished(_, _, _, _) => 4
    case Retrying(_, _, _, _) => 3
    case Reporting(_, _) => 2
    case Parked(_) => 2
    case Seeking => 1
    case Exited => 0
    case Crashed => 0
  }

  predicate OwnStep(a: Action, j: nat) {
    ByWorker(a) && a.w == j
  }

  ghost predicate Nearer(s: State, a: Action, s': State, j: nat)
    requires At(s, j)
  {
    At(s', j) && StepsLeft(s'.workers[j].phase) + (if OwnStep(a, j) then 1 else 0) <= StepsLeft(s.workers[j].phase)
  }

  lemma RetryNearer(w: World, s: State, i: nat, j: nat)
    requires ConcludeEnabled(s, i) && At(s, j) && GoesBack(w, s.workers[i].phase)
    ensures Nearer(s, Conclude(i), ConcludeStep(w, s, i), j)
  {
  }

  lemma SettleNearer(w: World, s: State, i: nat, j: nat)
    requires ConcludeEnabled(s, i) && At(s, j) && !GoesBack(w, s.workers[i].phase)
    ensures Nearer(s, Conclude(i), ConcludeStep(w, s, i), j)
  {
  }

  lemma QueueingNearer(w: World, s: State, i: nat, j: nat)
    requires At(s, i) && At(s, j)
    ensures SeekEnabled(s, i) && s.sh.stopping ==> Nearer(s, Seek(i), SeekStep(s, i), j)
    ensures RequeueEnabled(s, i) ==> Nearer(s, Requeue(i), RequeueStep(w, s, i), j)
    ensures DeliverEnabled(s, i) ==> Nearer(s, Deliver(i), DeliverStep(s, i), j)
  {
  }

  /** While `stop` is at work, every step of a worker brings it nearer to its exit,
      and no step of another thread sets it back. */
  lemma WorkerNearer(w: World, s: State, a: Action, s': State, j: nat)
    requires Step(w, s, a, s') && (a.Seek? ==> s.sh.stopping) && At(s, j) && !a.StopJoin? && !a.Start?
    ensures Nearer(s, a, s', j)
  {
    match a
    case Seek(i) => IsSeek(w, s, i, s'); QueueingNearer(w, s, i, j);
    case WakeUp(i) => IsWakeUp(w, s, i, s');
    case Read(i) => IsRead(w, s, i, s');
    case Transfer(i, env) => IsTransfer(w, s, i, env, s');
    case Fetch(i, op) => IsFetch(w, s, i, op, s');
    case Conclude(i) =>
      IsConclude(w, s, i, s');
      if GoesBack(w, s.workers[i].phase) {
        RetryNearer(w, s, i, j);
      } else {
        SettleNearer(w, s, i, j);
      }
    case Requeue(i) => IsRequeue(w, s, i, s'); QueueingNearer(w, s, i, j);
    case Deliver(i) => IsDeliver(w, s, i, s'); QueueingNearer(w, s, i, j);
    case _ => OtherNearer(w, s, a, s', j);
  }

  lemma OtherNearer(w: World, s: State, a: Action, s': State, j: nat)
    requires Step(w, s, a, s') && !ByWorker(a) && At(s, j) && !a.StopJoin? && !a.Start?
    ensures Nearer(s, a, s', j)
  {
    assert Inspect(0);
  }

  ghost function OwnSteps(acts: seq<Action>, j: nat, m: nat, n: nat): nat
    requires m <= n <= |acts|
  {
    if m == n then 0 else OwnSteps(acts, j, m, n - 1) + if OwnStep(acts[n - 1], j) then 1 else 0
  }

  /** After `done` steps of its own, worker `j` has no more left than `total` allows. */
  ghost predicate Within(s: State, j: nat, done: nat, total: nat) {
    At(s, j) && done + StepsLeft(s.workers[j].phase) <= total
  }

  lemma WithinStep(w: World, s: State, a: Action, s': State, j: nat, done: nat, total: nat)
    requires Sound(w, s, a, s') && Step(w, s, a, s') && s.control != Ready && s'.control != Ready
    requires Within(s, j, done, total)
    ensures Within(s', j, done + if OwnStep(a, j) then 1 else 0, total)
  {
    StoppingHere(w, s, a, s');
    WorkerNearer(w, s, a, s', j);
  }

  /** From the locked part of `stop` to its joins, each worker makes at most fifteen steps. */
  lemma {:induction false} FewStepsLeft(w: World, ss: seq<State>, acts: seq<Action>, j: nat, m: nat, n: nat)
    requires IsRun(w, ss, acts) && m <= n < |ss| && At(ss[m], j)
    requires forall k | m <= k <= n :: ss[k].control != Ready
    ensures Within(ss[n], j, OwnSteps(acts, j, m, n), 15)
    decreases n - m
  {
    if m < n {
      FewStepsLeft(w, ss, acts, j, m, n - 1);
      WithinNext(w, ss, acts, j, n - 1, OwnSteps(acts, j, m, n - 1));
    }
  }

  lemma WithinNext(w: World, ss: seq<State>, acts: seq<Action>, j: nat, k: nat, done: nat)
    requires IsRun(w, ss, acts) && k < |acts| && ss[k].control != Ready && ss[k + 1].control != Ready
    requires Within(ss[k], j, done, 15)
    ensures Within(ss[k + 1], j, done + if OwnStep(acts[k], j) then 1 else 0, 15)
  {
    SoundRun(w, ss, acts, k);
    WithinStep(w, ss[k], acts[k], ss[k + 1], j, done, 15);
  }

  lemma StoppingHere(w: World, s: State, a: Action, s': State)
    requires Sound(w, s, a, s') && Step(w, s, a, s') && s.control != Ready && s'.control != Ready
    ensures s.sh.stopping && !a.StopJoin? && !a.Start?
  {
    assert Look(0);
    assert Inspect(0);
  }

  /** The most steps the monitor still makes. */
  function ChecksLeft(m: Monitor): nat {
    match m
    case NoMonitor => 0
    case Ended => 0
    case Polling(_) => 1
    case Sleeping(_) => 1
    case Announcing(_, pending) => 2 + |pending|
    case Probing(_) => 3
  }

  predicate MonitorStep(a: Action) {
    a.Poll? || a.Probe? || a.Announce? || a.Rest?
  }

  lemma NoneSwept(s: State)
    requires Conserved(s) && QueuesEmpty(s.sh)
    ensures Swept(s.sh.results) == {}
  {
    forall id | id in s.sh.results ensures !Queueable(s.sh.results[id].state) {
      assert Of(id) && Ids([]) == [];
      assert Queued(s.sh)[id] == 0;
    }
  }

  lemma ProbeNearer(w: World, s: State, a: Action, s': State)
    requires Step(w, s, a, s') && a.Probe? && Swept(s.sh.results) == {}
    ensures ChecksLeft(s'.monitor) < ChecksLeft(s.monitor)
  {
    assert Inspect(0);
    FirstListed(a.order, {});
  }

  /** While `stop` is at work, every step of the monitor brings it nearer to its
      end, and no other step sets it back. */
  lemma MonitorNearer(w: World, s: State, a: Action, s': State)
    requires Step(w, s, a, s') && Basic(w.config, s) && s.sh.stopping && !a.StopJoin? && !a.Start?
    ensures ChecksLeft(s'.monitor) + (if MonitorStep(a) then 1 else 0) <= ChecksLeft(s.monitor)
  {
    if a.Probe? {
      NoneSwept(s);
      ProbeNearer(w, s, a, s');
    } else {
      MonitorAlone(w, s, a, s');
    }
  }

  /** Who else steps leaves the monitor alone. */
  lemma MonitorAlone(w: World, s: State, a: Action, s': State)
    requires Step(w, s, a, s') && !a.Probe? && !a.StopJoin? && !a.Start? && s.sh.stopping
    ensures ChecksLeft(s'.monitor) + (if MonitorStep(a) then 1 else 0) <= ChecksLeft(s.monitor)
  {
    if ByWorker(a) {
      WorkerKeeps(w, s, a, s');
    } else {
      assert Inspect(0);
    }
  }

  /** The joins are not blocked: once `stop` has notified, either it can return, or
      a worker or the monitor that has not left has a step to make. */
  lemma JoinsProceed(w: World, ss: seq<State>, acts: seq<Action>, n: nat) returns (a: Action)
    requires IsRun(w, ss, acts) && n < |ss| && ss[n].control == Joining
    ensures Enabled(w, ss[n], a) && !a.WakeUp? && (a.StopJoin? || ThreadStep(a))
  {
    TasksRun(w, ss, acts, n);
    NoLostQueueWakeup(w, ss, acts, n);
    a := JoinStep(w, ss[n]);
  }

  lemma JoinStep(w: World, s: State) returns (a: Action)
    requires AtStop(w, s) && s.control == Joining
    ensures Enabled(w, s, a) && !a.WakeUp? && (a.StopJoin? || ThreadStep(a))
  {
    if j: nat :| j < |s.workers| && s.workers[j].phase != Exited {
      assert MaySleep(s, s.workers[j]);
      a := WorkerStep(w, s, j);
      assert OwnStep(a, j);
    } else {
      a := LastSteps(w, s);
    }
  }

  lemma WorkerStep(w: World, s: State, j: nat) returns (a: Action)
    requires At(s, j) && s.workers[j].phase != Exited && s.workers[j].phase != Crashed
    ensures Enabled(w, s, a) && OwnStep(a, j) && (a.WakeUp? ==> s.workers[j].phase.Parked?)
  {
    a := match s.workers[j].phase
      case Seeking => Seek(j)
      case Parked(_) => WakeUp(j)
      case Taken(_) => Read(j)
      case Working(_, _, _) => Transfer(j, NoCurl)
      case Fetching(_, _, _, _) => Fetch(j, Downloads.Op(false, [], 0, ""))
      case Finished(_, _, _, _) => Conclude(j)
      case Retrying(_, _, _, _) => Requeue(j)
      case _ => Deliver(j);
  }

  lemma LastSteps(w: World, s: State) returns (a: Action)
    requires s.control == Joining && s.monitor != NoMonitor && Conserved(s) && QueuesEmpty(s.sh)
    requires forall j | 0 <= j < |s.workers| :: s.workers[j].phase == Exited
    ensures Enabled(w, s, a) && (a.StopJoin? || MonitorStep(a))
  {
    NoneSwept(s);
    a := match s.monitor
      case Polling(_) => Poll
      case Probing(_) => Probe(true, [])
      case Announcing(_, _) => Announce
      case Sleeping(_) => Rest
      case _ => StopJoin;
  }

  // ------------------------------------------------------------------ stop comes to an end

  /** The most steps all threads still make. */
  function TotalLeft(s: State): nat {
    Ranks(s.workers, StepsLeft) + ChecksLeft(s.monitor)
  }

  predicate ThreadStep(a: Action) {
    ByWorker(a) || MonitorStep(a)
  }

  lemma WorkersNearer(w: World, s: State, a: Action, s': State)
    requires Step(w, s, a, s') && s.sh.stopping && !a.StopJoin? && !a.Start?
    ensures Ranks(s'.workers, StepsLeft) + (if ByWorker(a) then 1 else 0) <= Ranks(s.workers, StepsLeft)
  {
    SameCrew(w, s, a, s');
    forall j | 0 <= j < |s.workers| ensures Nearer(s, a, s', j) {
      WorkerNearer(w, s, a, s', j);
    }
    if ByWorker(a) {
      WorkerKeeps(w, s, a, s');
    }
    AllNearer(s, a, s');
  }

  lemma AllNearer(s: State, a: Action, s': State)
    requires |s'.workers| == |s.workers| && forall j | 0 <= j < |s.workers| :: Nearer(s, a, s', j)
    requires ByWorker(a) ==> At(s, a.w)
    ensures Ranks(s'.workers, StepsLeft) + (if ByWorker(a) then 1 else 0) <= Ranks(s.workers, StepsLeft)
  {
    forall j | 0 <= j < |s.workers| ensures StepsLeft(s'.workers[j].phase) <= StepsLeft(s.workers[j].phase) {
      assert Nearer(s, a, s', j);
    }
    if ByWorker(a) {
      assert Nearer(s, a, s', a.w);
      RanksMoved(s.workers, s'.workers, StepsLeft, a.w);
    } else {
      RanksFall(s.workers, s'.workers, StepsLeft);
    }
  }

  lemma SameCrew(w: World, s: State, a: Action, s': State)
    requires Step(w, s, a, s') && !a.StopJoin? && !a.Start?
    ensures |s'.workers| == |s.workers|
  {
    if ByControl(a) {
      assert Inspect(0);
    } else {
      FlagsStep(w, s, a, s');
    }
  }

  /** While `stop` is at work, every step of a worker or of the monitor leaves fewer. */
  lemma TotalFalls(w: World, s: State, a: Action, s': State)
    requires Sound(w, s, a, s') && Step(w, s, a, s') && s.sh.stopping && !a.StopJoin? && !a.Start?
    ensures TotalLeft(s') + (if ThreadStep(a) then 1 else 0) <= TotalLeft(s)
  {
    WorkersNearer(w, s, a, s');
    assert Basic(w.config, s) by {
      assert Look(0);
    }
    MonitorNearer(w, s, a, s');
  }

  ghost function ThreadSteps(acts: seq<Action>, m: nat, n: nat): nat
    requires m <= n <= |acts|
  {
    if m == n then 0 else ThreadSteps(acts, m, n - 1) + if ThreadStep(acts[n - 1]) then 1 else 0
  }

  lemma TotalNext(w: World, ss: seq<State>, acts: seq<Action>, k: nat)
    requires IsRun(w, ss, acts) && k < |acts| && ss[k].control != Ready && ss[k + 1].control != Ready
    ensures TotalLeft(ss[k + 1]) + (if ThreadStep(acts[k]) then 1 else 0) <= TotalLeft(ss[k])
  {
    SoundRun(w, ss, acts, k);
    StoppingHere(w, ss[k], acts[k], ss[k + 1]);
    TotalFalls(w, ss[k], acts[k], ss[k + 1]);
  }

  /** From the locked part of `stop` to its return, all threads together make at
      most fifteen steps for each worker and those the monitor has left. */
  lemma {:induction false} StopIsBounded(w: World, ss: seq<State>, acts: seq<Action>, m: nat, n: nat)
    requires IsRun(w, ss, acts) && m <= n < |ss|
    requires forall k | m <= k <= n :: ss[k].control != Ready
    ensures ThreadSteps(acts, m, n) + TotalLeft(ss[n]) <= TotalLeft(ss[m])
    ensures TotalLeft(ss[m]) <= 15 * |ss[m].workers| + ChecksLeft(ss[m].monitor)
    decreases n - m
  {
    if m < n {
      StopIsBounded(w, ss, acts, m, n - 1);
      TotalNext(w, ss, acts, n - 1);
    } else {
      RanksAtMost(ss[m].workers, StepsLeft, 15);
    }
  }

  /** `stop` is at work, in a reachable state. */
  ghost predicate AtStop(w: World, s: State) {
    TasksOk(w, s) && AllMaySleep(s) && s.control != Ready
  }

  lemma AtStopStep(w: World, s: State, a: Action, s': State)
    requires AtStop(w, s) && Step(w, s, a, s') && s'.control != Ready
    ensures AtStop(w, s') && Sound(w, s, a, s')
  {
    SoundStep(w, s, a, s');
    AllSleepStep(w, s, a, s');
    assert TasksOk(w, s') by {
      assert Look(0);
    }
  }

  /** While `stop` waits for its threads, a step that brings its return nearer. */
  lemma NearerReturn(w: World, s: State) returns (a: Action, s': State)
    requires AtStop(w, s) && s.control == Joining
    ensures Step(w, s, a, s')
    ensures if a.StopJoin? then s'.control == Ready && !s'.sh.started
            else AtStop(w, s') && s'.control == Joining && TotalLeft(s') < TotalLeft(s)
  {
    a := JoinStep(w, s);
    s' := Apply(w, s, a);
    if !a.StopJoin? {
      FlagsStep(w, s, a, s');
      AtStopStep(w, s, a, s');
      TotalFalls(w, s, a, s');
    }
  }

  lemma {:induction false} Returns(w: World, s: State) returns (s': State, k: nat)
    requires AtStop(w, s) && s.control == Joining
    ensures Leads(w, s, s', k) && s'.control == Ready && !s'.sh.started
    decreases TotalLeft(s)
  {
    var a, next := NearerReturn(w, s);
    if a.StopJoin? {
      s', k := next, 0;
    } else {
      s', k := Returns(w, next);
    }
    Before(w, s, a, next, s', k);
    k := k + 1;
  }

  /** From every state in which `stop` is at work, some continuation lets it return. */
  lemma StopCanReturn(w: World, ss: seq<State>, acts: seq<Action>, n: nat) returns (s': State, k: nat)
    requires IsRun(w, ss, acts) && n < |ss| && ss[n].control != Ready
    ensures Leads(w, ss[n], s', k) && s'.control == Ready && !s'.sh.started
  {
    TasksRun(w, ss, acts, n);
    NoLostQueueWakeup(w, ss, acts, n);
    s', k := ReturnsFrom(w, ss[n]);
  }

  lemma ReturnsFrom(w: World, s: State) returns (s': State, k: nat)
    requires AtStop(w, s)
    ensures Leads(w, s, s', k) && s'.control == Ready && !s'.sh.started
    decreases if s.control == StopRequested then 2 else if s.control == StopAnnounced then 1 else 0
  {
    if s.control == Joining {
      s', k := Returns(w, s);
    } else {
      var a, next := Announces(w, s);
      s', k := ReturnsFrom(w, next);
      Before(w, s, a, next, s', k);
      k := k + 1;
    }
  }

  /** The controlling thread goes on to its joins. */
  lemma Announces(w: World, s: State) returns (a: Action, next: State)
    requires AtStop(w, s) && s.control != Joining
    ensures Step(w, s, a, next) && AtStop(w, next)
    ensures next.control == if s.control == StopRequested then StopAnnounced else Joining
  {
    a := if s.control == StopRequested then StopAnnounce else StopNotify;
    next := Apply(w, s, a);
    AtStopStep(w, s, a, next);
  }
}

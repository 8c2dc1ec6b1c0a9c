/** Absence of deadlock: while the service is connected, some worker can always
    bring a live task nearer to its end, without any spurious wake-up. */
module Liveness {
  import opened SyncTypes
  import opened SyncCore
  import opened Protocol
  import opened Effects
  import opened Conservation
  import opened TaskLife
  import opened Timing
  import opened Wakeups
  import opened Progress
  import Downloads

  // ------------------------------------------------------------------ workers stay

  /** Workers have left only because of `stop`. */
  ghost predicate NoneLeft(s: State) {
    !s.sh.stopping ==> forall i | 0 <= i < |s.workers| :: s.workers[i].phase != Exited
  }

  /** Exited workers of `s'` have left before. */
  ghost predicate LeftBefore(s: State, s': State, j: nat) {
    At(s', j) && s'.workers[j].phase == Exited ==> At(s, j) && s.workers[j].phase == Exited
  }

  lemma RetryStays(w: World, s: State, i: nat, j: nat)
    requires ConcludeEnabled(s, i) && GoesBack(w, s.workers[i].phase)
    ensures LeftBefore(s, ConcludeStep(w, s, i), j)
  {
  }

  lemma SettleStays(w: World, s: State, i: nat, j: nat)
    requires ConcludeEnabled(s, i) && !GoesBack(w, s.workers[i].phase)
    ensures LeftBefore(s, ConcludeStep(w, s, i), j)
  {
  }

  lemma WorkerExits(w: World, s: State, a: Action, s': State, j: nat)
    requires Step(w, s, a, s') && ByWorker(a) && (a.Seek? ==> s.sh.service != Error && !s.sh.stopping)
    ensures LeftBefore(s, s', j)
  {
    match a
    case Seek(i) => IsSeek(w, s, i, s');
    case WakeUp(i) => IsWakeUp(w, s, i, s');
    case Read(i) => IsRead(w, s, i, s');
    case Transfer(i, env) => IsTransfer(w, s, i, env, s');
    case Fetch(i, op) => IsFetch(w, s, i, op, s');
    case Conclude(i) =>
      IsConclude(w, s, i, s');
      if GoesBack(w, s.workers[i].phase) {
        RetryStays(w, s, i, j);
      } else {
        SettleStays(w, s, i, j);
      }
    case Requeue(i) => IsRequeue(w, s, i, s');
    case Deliver(i) => IsDeliver(w, s, i, s');
  }

  lemma OtherExits(w: World, s: State, a: Action, s': State, j: nat)
    requires Step(w, s, a, s') && !ByWorker(a)
    ensures LeftBefore(s, s', j)
  {
    assert Inspect(0);
  }

  lemma StoppingStep(w: World, s: State, a: Action, s': State)
    requires Step(w, s, a, s') && s.sh.stopping && !s'.sh.stopping
    ensures NoneLeft(s')
  {
    if ByControl(a) {
      assert Inspect(0);
    } else {
      FlagsStep(w, s, a, s');
    }
  }

  lemma StaysStep(w: World, s: State, a: Action, s': State)
    requires Step(w, s, a, s') && NoneLeft(s) && s.sh.service != Error
    ensures NoneLeft(s')
  {
    if s.sh.stopping {
      if !s'.sh.stopping {
        StoppingStep(w, s, a, s');
      }
    } else {
      forall j | 0 <= j < |s'.workers| ensures s'.workers[j].phase != Exited {
        if ByWorker(a) {
          WorkerExits(w, s, a, s', j);
        } else {
          OtherExits(w, s, a, s', j);
        }
        assert LeftBefore(s, s', j);
      }
    }
  }

  lemma {:induction false} StaysRun(w: World, ss: seq<State>, acts: seq<Action>, m: nat, n: nat)
    requires IsRun(w, ss, acts) && m < n < |ss| && acts[m].Start?
    requires forall k | m < k <= n :: ss[k].sh.service != Error
    ensures NoneLeft(ss[n]) && ValidConfig(w.config)
    decreases n
  {
    assert StepAt(w, ss, acts, n - 1);
    if m + 1 == n {
      assert Inspect(0);
    } else {
      StaysRun(w, ss, acts, m, n - 1);
      StaysStep(w, ss[n - 1], acts[n - 1], ss[n]);
    }
  }

  // ------------------------------------------------------------------ where a live task is

  lemma HeldPlace(s: State, id: string) returns (i: nat)
    requires Conserved(s) && id in s.sh.results && s.sh.results[id].state == InProgress
    ensures At(s, i) && Holding(s.workers[i].phase) && s.workers[i].phase.item.id == id
  {
    assert Of(id);
    var hands := Hands(s.workers);
    assert Some(id) in hands;
    i :| 0 <= i < |hands| && hands[i] == Some(id);
  }

  lemma QueuedPlace(s: State, id: string) returns (large: bool, k: nat)
    requires Conserved(s) && id in s.sh.results && Queueable(s.sh.results[id].state)
    ensures k < |Queue(s.sh, large)| && Queue(s.sh, large)[k].id == id
  {
    assert Of(id);
    large := id !in Ids(s.sh.small);
    var ids := Ids(Queue(s.sh, large));
    assert id in ids;
    k :| 0 <= k < |ids| && ids[k] == id;
  }

  // ------------------------------------------------------------------ steps that change no task

  /** A step that needs no task and nobody's decision: the clock, a notification
      that is owed, the end of a report, or a wait that is over. */
  ghost predicate Resting(s: State, a: Action) {
    || a.Tick? || a.EnqueueNotify? || a.Deliver?
    || (a.WakeUp? && At(s, a.w) && s.workers[a.w].phase.Parked?
        && s.workers[a.w].phase.wakeup.ForTime? && s.workers[a.w].phase.wakeup.time <= s.now)
  }

  /** Everything that `Resting` steps leave alone. */
  ghost predicate Calm(s: State, s': State) {
    && s'.sh == s.sh && s'.accepted == s.accepted && |s'.workers| == |s.workers| && s.now <= s'.now
    && (forall j | 0 <= j < |s.workers| ::
          && s'.workers[j].large == s.workers[j].large
          && Stage(s'.workers[j].phase) == Stage(s.workers[j].phase)
          && (s.workers[j].phase == Seeking ==> s'.workers[j].phase == Seeking))
  }

  lemma CalmStep(w: World, s: State, a: Action, s': State)
    requires Step(w, s, a, s') && Resting(s, a)
    ensures Calm(s, s')
  {
    assert Inspect(0);
  }

  lemma CalmFine(c: Config, s: State, s': State)
    requires Calm(s, s')
    ensures Fine(c, s') == Fine(c, s)
  {
    RanksFall(s.workers, s'.workers, Stage);
    RanksFall(s'.workers, s.workers, Stage);
  }

  // ------------------------------------------------------------------ rousing a worker

  /** The clock moves on to `t`, if it is not there yet. */
  lemma PassTime(w: World, s: State, t: int) returns (a: Action, s': State)
    ensures Step(w, s, a, s') && a.Tick? && s'.now >= t && s'.workers == s.workers && s' == s.(now := s'.now)
  {
    a := Tick(if s.now < t then t - s.now else 0);
    s' := Apply(w, s, a);
  }

  lemma Report(w: World, s: State, j: nat) returns (s': State)
    requires At(s, j) && s.workers[j].phase.Reporting?
    ensures Step(w, s, Deliver(j), s') && At(s', j) && s'.workers[j].phase == Seeking
    ensures s.workers[j].phase.notify ==>
              forall i | 0 <= i < |s.workers| && s.workers[i].phase.Parked? ::
                |s'.workers| == |s.workers| && s'.workers[i].phase == Seeking
  {
    s' := Apply(w, s, Deliver(j));
  }

  lemma Notify(w: World, s: State) returns (s': State)
    requires s.notifies > 0
    ensures Step(w, s, EnqueueNotify, s')
    ensures |s'.workers| == |s.workers|
    ensures forall i | 0 <= i < |s.workers| && s.workers[i].phase.Parked? :: s'.workers[i].phase == Seeking
  {
    s' := Apply(w, s, EnqueueNotify);
  }

  /** A worker that holds nothing seeks work after one step. */
  ghost predicate Rousable(s: State, i: nat, t: int) {
    && At(s, i)
    && var p := s.workers[i].phase;
       || p.Seeking? || p.Reporting?
       || (p.Parked? && (Owed(s) || (p.wakeup.ForTime? && p.wakeup.time <= t)))
  }

  lemma Wake(w: World, s: State, i: nat) returns (a: Action, s': State)
    requires Rousable(s, i, s.now) && !(s.workers[i].phase.Seeking?)
    ensures Step(w, s, a, s') && Resting(s, a) && At(s', i) && s'.workers[i].phase == Seeking
  {
    if s.workers[i].phase.Reporting? {
      a := Deliver(i);
      s' := Report(w, s, i);
    } else if s.workers[i].phase.wakeup.ForTime? && s.workers[i].phase.wakeup.time <= s.now {
      a := WakeUp(i);
      s' := Apply(w, s, a);
    } else if s.notifies > 0 {
      a := EnqueueNotify;
      s' := Notify(w, s);
    } else {
      var j: nat :| j < |s.workers| && OwesNotify(s.workers[j]);
      a := Deliver(j);
      s' := Report(w, s, j);
    }
  }

  /** By two steps, a worker that holds nothing seeks work, and it is `t` or later. */
  lemma Rouse(w: World, s: State, i: nat, t: int) returns (a1: Action, s1: State, a2: Action, s2: State)
    requires Rousable(s, i, t)
    ensures Step(w, s, a1, s1) && Step(w, s1, a2, s2) && Resting(s, a1) && Resting(s1, a2)
    ensures At(s2, i) && s2.workers[i].phase == Seeking && s2.now >= t
  {
    a1, s1 := PassTime(w, s, t);
    if s.workers[i].phase.Seeking? {
      a2, s2 := PassTime(w, s1, t);
    } else {
      assert Rousable(s1, i, s1.now);
      a2, s2 := Wake(w, s1, i);
      CalmStep(w, s1, a2, s2);
    }
  }

  // ------------------------------------------------------------------ no deadlock

  /** A worker that holds a task has a step of its own. */
  lemma HolderAdvances(w: World, s: State, i: nat) returns (a: Action, s': State)
    requires At(s, i) && Holding(s.workers[i].phase)
    ensures Step(w, s, a, s') && Advances(a, s') && ByWorker(a)
  {
    a := match s.workers[i].phase
      case Taken(_) => Read(i)
      case Working(_, _, _) => Transfer(i, NoCurl)
      case Fetching(_, _, _, _) => Fetch(i, Downloads.Op(false, [], 0, ""))
      case Finished(_, _, _, _) => Conclude(i)
      case _ => Requeue(i);
    s' := Apply(w, s, a);
  }

  /** A worker that seeks work where an item is ready takes one. */
  lemma SeekerTakes(w: World, s: State, i: nat, k: nat) returns (a: Action, s': State)
    requires Conserved(s) && SeekEnabled(s, i) && s.sh.service == Connected && !s.sh.stopping
    requires k < |Queue(s.sh, s.workers[i].large)| && Queue(s.sh, s.workers[i].large)[k].readyAt <= s.now
    ensures Step(w, s, a, s') && Advances(a, s') && ByWorker(a)
  {
    a := Seek(i);
    QueuedItem(s, s.workers[i].large, ReadyIndex(s, i));
    s' := SeekStep(s, i);
  }

  /** The worker that starts its class. */
  function FirstOf(c: Config, large: bool): nat {
    if large then c.smallFileWorkers else 0
  }

  /** A worker that has not left and holds nothing can be roused for any item of its queue. */
  lemma WorkerRousable(w: World, s: State, i: nat, k: nat)
    requires Basic(w.config, s) && AllMaySleep(s) && s.sh.started && s.sh.service == Connected
    requires At(s, i) && s.workers[i].phase != Exited && !Holding(s.workers[i].phase)
    requires k < |Queue(s.sh, s.workers[i].large)|
    ensures Rousable(s, i, Queue(s.sh, s.workers[i].large)[k].readyAt)
  {
    assert MaySleep(s, s.workers[i]);
  }

  /** The first worker of a class can be roused for any item of its queue. */
  lemma ClassRousable(w: World, s: State, large: bool, k: nat)
    requires Basic(w.config, s) && ValidConfig(w.config) && AllMaySleep(s) && NoneLeft(s)
    requires s.sh.started && s.sh.service == Connected && k < |Queue(s.sh, large)|
    requires forall i | 0 <= i < |s.workers| :: !Holding(s.workers[i].phase)
    ensures Rousable(s, FirstOf(w.config, large), Queue(s.sh, large)[k].readyAt)
    ensures s.workers[FirstOf(w.config, large)].large == large
  {
    WorkerRousable(w, s, FirstOf(w.config, large), k);
  }

  /** What the steps of `Resting` carry over. */
  lemma RestingStep(w: World, s: State, a: Action, s': State)
    requires TasksOk(w, s) && Listed(s) && Step(w, s, a, s') && Resting(s, a)
    ensures TasksOk(w, s') && Listed(s') && Calm(s, s')
  {
    SoundStep(w, s, a, s');
    ListedStep(w, s, a, s');
    CalmStep(w, s, a, s');
    assert TasksOk(w, s') by {
      assert Look(0);
    }
  }

  lemma AdvanceLowers(w: World, s: State, a: Action, s': State)
    requires BudgetFits(w.config) && TasksOk(w, s) && Listed(s) && Step(w, s, a, s') && Advances(a, s') && ByWorker(a)
    ensures Fine(w.config, s') < Fine(w.config, s)
  {
    SoundStep(w, s, a, s');
    FineStep(w, s, a, s');
  }

  lemma QueuedAdvances(w: World, s: State, large: bool, k: nat)
    returns (a1: Action, s1: State, a2: Action, s2: State, a3: Action, s3: State)
    requires TasksOk(w, s) && Listed(s) && k < |Queue(s.sh, large)|
    requires Rousable(s, FirstOf(w.config, large), Queue(s.sh, large)[k].readyAt)
    requires s.workers[FirstOf(w.config, large)].large == large && s.sh.service == Connected && !s.sh.stopping
    ensures Step(w, s, a1, s1) && Step(w, s1, a2, s2) && Step(w, s2, a3, s3)
    ensures Resting(s, a1) && Resting(s1, a2) && Advances(a3, s3) && ByWorker(a3)
  {
    var i := FirstOf(w.config, large);
    a1, s1, a2, s2 := Rouse(w, s, i, Queue(s.sh, large)[k].readyAt);
    RestingStep(w, s, a1, s1);
    RestingStep(w, s1, a2, s2);
    a3, s3 := SeekerTakes(w, s2, i, k);
  }

  /** Some schedule of two steps that change no task and one that advances one. */
  lemma SomeSchedule(w: World, s: State, id: string)
    returns (a1: Action, s1: State, a2: Action, s2: State, a3: Action, s3: State)
    requires TasksOk(w, s) && Listed(s) && AllMaySleep(s) && NoneLeft(s) && ValidConfig(w.config)
    requires s.sh.started && s.sh.service == Connected && id in s.sh.results && !Terminal(s.sh.results[id].state)
    ensures Step(w, s, a1, s1) && Step(w, s1, a2, s2) && Step(w, s2, a3, s3)
    ensures Resting(s, a1) && Resting(s1, a2) && Advances(a3, s3) && ByWorker(a3)
  {
    if i: nat :| i < |s.workers| && Holding(s.workers[i].phase) {
      a1, s1 := PassTime(w, s, s.now);
      a2, s2 := PassTime(w, s1, s1.now);
      a3, s3 := HolderAdvances(w, s2, i);
    } else {
      if s.sh.results[id].state == InProgress {
        var i := HeldPlace(s, id);
      }
      var large, k := QueuedPlace(s, id);
      ClassRousable(w, s, large, k);
      a1, s1, a2, s2, a3, s3 := QueuedAdvances(w, s, large, k);
    }
  }

  /** In a run without Error since the last start, whenever the manager is started,
      the service is connected and a task is live, two steps that change no task
      lead to a step of a worker that lowers the finer measure. */
  lemma NoDeadlock(w: World, ss: seq<State>, acts: seq<Action>, m: nat, n: nat, id: string)
    returns (a1: Action, s1: State, a2: Action, s2: State, a3: Action, s3: State)
    requires IsRun(w, ss, acts) && BudgetFits(w.config) && m < n < |ss| && acts[m].Start?
    requires forall k | m < k <= n :: ss[k].sh.service != Error
    requires ss[n].sh.started && ss[n].sh.service == Connected
    requires id in ss[n].sh.results && !Terminal(ss[n].sh.results[id].state)
    ensures Step(w, ss[n], a1, s1) && Step(w, s1, a2, s2) && Step(w, s2, a3, s3)
    ensures Resting(ss[n], a1) && Resting(s1, a2) && Advances(a3, s3) && ByWorker(a3)
    ensures Fine(w.config, s3) < Fine(w.config, ss[n])
  {
    TasksRun(w, ss, acts, n);
    ListedRun(w, ss, acts, n);
    NoLostQueueWakeup(w, ss, acts, n);
    StaysRun(w, ss, acts, m, n);
    a1, s1, a2, s2, a3, s3 := SomeSchedule(w, ss[n], id);
    ScheduleLowers(w, ss[n], a1, s1, a2, s2, a3, s3);
  }

  lemma ScheduleLowers(w: World, s: State, a1: Action, s1: State, a2: Action, s2: State, a3: Action, s3: State)
    requires BudgetFits(w.config) && TasksOk(w, s) && Listed(s)
    requires Step(w, s, a1, s1) && Step(w, s1, a2, s2) && Step(w, s2, a3, s3)
    requires Resting(s, a1) && Resting(s1, a2) && Advances(a3, s3) && ByWorker(a3)
    ensures Fine(w.config, s3) < Fine(w.config, s)
  {
    RestingStep(w, s, a1, s1);
    RestingStep(w, s1, a2, s2);
    CalmFine(w.config, s, s1);
    CalmFine(w.config, s1, s2);
    AdvanceLowers(w, s2, a3, s3);
  }
}

/** Exactly when a waiting task can still be brought to its end without a sweep:
    when some worker of its class has not left. */
module Attendance {
  import opened SyncTypes
  import opened SyncCore
  import opened Protocol
  import opened Effects
  import opened Conservation
  import opened TaskLife
  import opened Timing
  import opened Wakeups
  import opened FailureReasons
  import opened Liveness
  import opened Completion
  import opened Shutdown
  import opened Pools
  import opened AfterError
  import Downloads

  // ------------------------------------------------------------------ going on without a sweep

  /** `s'` can be reached from `s` in `k` steps, none of which sweeps the queues. */
  ghost predicate Continues(w: World, s: State, s': State, k: nat)
    decreases k
  {
    if k == 0 then s == s'
    else exists a: Action, next: State ::
           Step(w, s, a, next) && !Sweeps(w, s, a) && Continues(w, next, s', k - 1)
  }

  lemma Precede(w: World, s: State, a: Action, next: State, s': State, k: nat)
    requires Step(w, s, a, next) && !Sweeps(w, s, a) && Continues(w, next, s', k)
    ensures Continues(w, s, s', k + 1)
  {
  }

  /** A started manager in a reachable state, whatever it has gone through. */
  ghost predicate Running(w: World, s: State) {
    TasksOk(w, s) && AllMaySleep(s) && Watched(s) && s.sh.started
  }

  lemma RunningStep(w: World, s: State, a: Action, s': State)
    requires Running(w, s) && Step(w, s, a, s') && !ByControl(a)
    ensures Running(w, s') && Sound(w, s, a, s')
  {
    SoundStep(w, s, a, s');
    AllSleepStep(w, s, a, s');
    FlagsStep(w, s, a, s');
    WatchedStep(w, s, a, s');
    assert TasksOk(w, s') by {
      assert Look(0);
    }
  }

  // ------------------------------------------------------------------ a worker and an item

  /** Worker `i` has not left, and `item` is at position `p` of its queue. */
  ghost predicate Awaits(s: State, i: nat, item: QueueItem, p: nat) {
    && At(s, i) && s.workers[i].phase != Exited
    && p < |Queue(s.sh, s.workers[i].large)| && Queue(s.sh, s.workers[i].large)[p] == item
  }

  lemma PlaceKept(w: World, s: State, s': State, e: Effect, large: bool, p: nat)
    requires Shows(w, s, s', e) && !e.Crash? && !e.Take? && !e.CancelAll? && !e.FailAll?
    requires p < |Queue(s.sh, large)|
    ensures p < |Queue(s'.sh, large)| && Queue(s'.sh, large)[p] == Queue(s.sh, large)[p]
  {
  }

  lemma ClassKept(w: World, s: State, s': State, e: Effect, i: nat)
    requires Shows(w, s, s', e) && !e.Crash? && !e.Spawn? && !e.Join? && At(s, i)
    ensures At(s', i) && s'.workers[i].large == s.workers[i].large
  {
  }

  /** What a worker that holds a task, or has just released one, does next. */
  lemma OwnNext(w: World, s: State, i: nat) returns (a: Action, s': State)
    requires At(s, i) && (Holding(s.workers[i].phase) || s.workers[i].phase.Reporting?)
    ensures Step(w, s, a, s') && ByWorker(a) && a.w == i && !a.Seek? && !a.WakeUp?
  {
    a := match s.workers[i].phase
      case Taken(_) => Read(i)
      case Working(_, _, _) => Transfer(i, NoCurl)
      case Fetching(_, _, _, _) => Fetch(i, Downloads.Op(false, [], 0, ""))
      case Finished(_, _, _, _) => Conclude(i)
      case Retrying(_, _, _, _) => Requeue(i)
      case _ => Deliver(i);
    s' := Apply(w, s, a);
  }

  lemma OwnEffect(w: World, s: State, a: Action)
    requires ByWorker(a) && !a.Seek?
    ensures var e := EffectOf(w, s, a);
            !e.Take? && !e.CancelAll? && !e.FailAll? && !e.Spawn? && !e.Join? && !Sweeps(w, s, a)
  {
  }

  /** It brings the worker nearer to seeking work, and leaves the item in its place. */
  lemma OwnStepNearer(w: World, s: State, i: nat, item: QueueItem, p: nat) returns (a: Action, s': State)
    requires Running(w, s) && Awaits(s, i, item, p) && (Holding(s.workers[i].phase) || s.workers[i].phase.Reporting?)
    ensures Step(w, s, a, s') && !Sweeps(w, s, a) && Running(w, s') && Awaits(s', i, item, p)
    ensures StepsLeft(s'.workers[i].phase) < StepsLeft(s.workers[i].phase)
  {
    a, s' := OwnNext(w, s, i);
    RunningStep(w, s, a, s');
    OwnEffect(w, s, a);
    var e := EffectOf(w, s, a);
    assert Shows(w, s, s', e) && !e.Crash? by {
      assert Look(0);
    }
    PlaceKept(w, s, s', e, s.workers[i].large, p);
    ClassKept(w, s, s', e, i);
    WorkerNearer(w, s, a, s', i);
    WorkerExits(w, s, a, s', i);
    assert LeftBefore(s, s', i) && OwnStep(a, i);
  }

  /** The monitor brings the service nearer to Connected. */
  lemma MonitorStepNearer(w: World, s: State, i: nat, item: QueueItem, p: nat) returns (a: Action, s': State)
    requires Running(w, s) && Awaits(s, i, item, p) && s.sh.service != Connected
    requires s.workers[i].phase.Seeking? || s.workers[i].phase.Parked?
    ensures Step(w, s, a, s') && !Sweeps(w, s, a) && Running(w, s') && Awaits(s', i, item, p)
    ensures s'.workers[i].phase.Seeking? || s'.workers[i].phase.Parked?
    ensures StepsLeft(s'.workers[i].phase) <= StepsLeft(s.workers[i].phase) && Wait(s') < Wait(s)
  {
    a, s' := MonitorMoves(w, s);
    RunningStep(w, s, a, s');
  }

  // ------------------------------------------------------------------ the take

  lemma RestEffect(w: World, s: State, a: Action)
    requires Resting(s, a)
    ensures !Sweeps(w, s, a) && !ByControl(a)
  {
  }

  lemma CalmAwaits(s: State, s': State, i: nat, item: QueueItem, p: nat)
    requires Calm(s, s') && Awaits(s, i, item, p) && At(s', i) && s'.workers[i].phase != Exited
    ensures Awaits(s', i, item, p)
  {
  }

  /** Two steps after which worker `i` seeks work and the item is ready. */
  lemma RouseFor(w: World, s: State, i: nat, item: QueueItem, p: nat)
    returns (a1: Action, s1: State, a2: Action, s2: State)
    requires Running(w, s) && Awaits(s, i, item, p) && s.sh.service == Connected && !Holding(s.workers[i].phase)
    ensures Step(w, s, a1, s1) && Step(w, s1, a2, s2) && !Sweeps(w, s, a1) && !Sweeps(w, s1, a2)
    ensures Running(w, s2) && Awaits(s2, i, item, p) && s2.workers[i].phase == Seeking && item.readyAt <= s2.now
    ensures s2.sh.service == Connected
  {
    WorkerRousable(w, s, i, p);
    a1, s1, a2, s2 := Rouse(w, s, i, item.readyAt);
    RestEffect(w, s, a1);
    RestEffect(w, s1, a2);
    CalmStep(w, s, a1, s1);
    CalmStep(w, s1, a2, s2);
    RunningStep(w, s, a1, s1);
    RunningStep(w, s1, a2, s2);
  }

  /** It takes the item, or one before it. */
  lemma TakesIt(w: World, s: State, i: nat, item: QueueItem, p: nat) returns (s': State)
    requires Running(w, s) && Awaits(s, i, item, p) && s.workers[i].phase == Seeking && item.readyAt <= s.now
    requires s.sh.service == Connected
    ensures Step(w, s, Seek(i), s') && !Sweeps(w, s, Seek(i)) && Running(w, s')
    ensures At(s', i) && s'.workers[i].phase.Taken?
    ensures s'.workers[i].phase.item == item || (p > 0 && Awaits(s', i, item, p - 1))
  {
    s' := SeekTakes(w, s, i, p);
    RunningStep(w, s, Seek(i), s');
    TakeEffect(w, s, Seek(i), s');
    TakenOrNearer(s, s', i, EffectOf(w, s, Seek(i)).k, item, p);
  }

  lemma SeekTakes(w: World, s: State, i: nat, p: nat) returns (s': State)
    requires Running(w, s) && At(s, i) && s.workers[i].phase == Seeking && s.sh.service == Connected
    requires p < |Queue(s.sh, s.workers[i].large)| && Queue(s.sh, s.workers[i].large)[p].readyAt <= s.now
    ensures Step(w, s, Seek(i), s') && !Sweeps(w, s, Seek(i)) && At(s', i) && s'.workers[i].phase.Taken?
  {
    QueuedItem(s, s.workers[i].large, ReadyIndex(s, i));
    s' := SeekStep(s, i);
  }

  lemma TakenOrNearer(s: State, s': State, i: nat, k: nat, item: QueueItem, p: nat)
    requires TakeShown(s, s', i, k) && Awaits(s, i, item, p) && item.readyAt <= s.now
    ensures s'.workers[i].phase == Taken(Queue(s.sh, s.workers[i].large)[k])
    ensures s'.workers[i].phase.item == item || (p > 0 && Awaits(s', i, item, p - 1))
  {
    var q := Queue(s.sh, s.workers[i].large);
    FirstOrBefore(q, s.now, p);
    if k < p {
      MovesUp(q, k, p);
    }
  }

  // ------------------------------------------------------------------ the end

  /** A worker without a path for its task fails it. */
  lemma FailsIt(w: World, s: State, i: nat) returns (s': State, k: nat)
    requires Running(w, s) && At(s, i) && s.workers[i].phase.Taken?
    ensures Continues(w, s, s', k)
    ensures var id := s.workers[i].phase.item.id; id in s'.sh.results && Terminal(s'.sh.results[id].state)
  {
    HeldItem(s, i);
    var s1 := ReadStep(s, i);
    s', k := MissesPath(w, s1, i);
    OwnEffect(w, s, Read(i));
    Precede(w, s, Read(i), s1, s', k);
    k := k + 1;
  }

  lemma MissesPath(w: World, s: State, i: nat) returns (s': State, k: nat)
    requires At(s, i) && s.workers[i].phase.Working? && s.workers[i].phase.item.id in s.sh.results
    ensures Continues(w, s, s', k)
    ensures var id := s.workers[i].phase.item.id; id in s'.sh.results && Terminal(s'.sh.results[id].state)
  {
    var env := NoPath("?");
    var s1 := TransferStep(s, i, env);
    s', k := RecordsIt(w, s1, i);
    OwnEffect(w, s, Transfer(i, env));
    Precede(w, s, Transfer(i, env), s1, s', k);
    k := k + 1;
  }

  lemma RecordsIt(w: World, s: State, i: nat) returns (s': State, k: nat)
    requires ConcludeEnabled(s, i) && s.workers[i].phase.outcome.PathFailed?
    requires s.workers[i].phase.item.id in s.sh.results
    ensures Continues(w, s, s', k)
    ensures var id := s.workers[i].phase.item.id; id in s'.sh.results && Terminal(s'.sh.results[id].state)
  {
    s', k := ConcludeStep(w, s, i), 0;
    OwnEffect(w, s, Conclude(i));
    Precede(w, s, Conclude(i), s', s', k);
    k := k + 1;
  }

  /** The task can be brought to its end from `s` without a sweep. */
  ghost predicate CanEnd(w: World, s: State, id: string) {
    exists s': State, k: nat ::
      Continues(w, s, s', k) && id in s'.sh.results && Terminal(s'.sh.results[id].state)
  }

  lemma CanEndBefore(w: World, s: State, a: Action, next: State, id: string)
    requires Step(w, s, a, next) && !Sweeps(w, s, a) && CanEnd(w, next, id)
    ensures CanEnd(w, s, id)
  {
    var s': State, k: nat :| Continues(w, next, s', k) && id in s'.sh.results && Terminal(s'.sh.results[id].state);
    Precede(w, s, a, next, s', k);
  }

  /** By the position of the item, then by what the worker and the monitor have left
      to do before the worker can take. */
  lemma {:induction false} Attends(w: World, s: State, i: nat, item: QueueItem, p: nat)
    requires Running(w, s) && Awaits(s, i, item, p)
    ensures CanEnd(w, s, item.id)
    decreases p, StepsLeft(s.workers[i].phase), Wait(s), 1
  {
    if Holding(s.workers[i].phase) || s.workers[i].phase.Reporting? {
      var a, s1 := OwnStepNearer(w, s, i, item, p);
      Attends(w, s1, i, item, p);
      CanEndBefore(w, s, a, s1, item.id);
    } else {
      IdleWorker(w, s, i);
      if s.sh.service != Connected {
        var a, s1 := MonitorStepNearer(w, s, i, item, p);
        Attends(w, s1, i, item, p);
        CanEndBefore(w, s, a, s1, item.id);
      } else {
        AttendsNow(w, s, i, item, p);
      }
    }
  }

  /** A worker that has not left, holds nothing and reports nothing seeks or sleeps. */
  lemma IdleWorker(w: World, s: State, i: nat)
    requires Running(w, s) && At(s, i) && s.workers[i].phase != Exited
    requires !Holding(s.workers[i].phase) && !s.workers[i].phase.Reporting?
    ensures s.workers[i].phase.Seeking? || s.workers[i].phase.Parked?
  {
  }

  lemma {:induction false} AttendsNow(w: World, s: State, i: nat, item: QueueItem, p: nat)
    requires Running(w, s) && Awaits(s, i, item, p) && s.sh.service == Connected && !Holding(s.workers[i].phase)
    ensures CanEnd(w, s, item.id)
    decreases p, StepsLeft(s.workers[i].phase), Wait(s), 0
  {
    var a1, s1, a2, s2 := RouseFor(w, s, i, item, p);
    var s3 := TakesIt(w, s2, i, item, p);
    if s3.workers[i].phase.item == item {
      var s', k := FailsIt(w, s3, i);
    } else {
      Attends(w, s3, i, item, p - 1);
    }
    CanEndBefore(w, s2, Seek(i), s3, item.id);
    CanEndBefore(w, s1, a2, s2, item.id);
    CanEndBefore(w, s, a1, s1, item.id);
  }

  // ------------------------------------------------------------------ exactly when

  /** Without a sweep a stranded task stays where it is. */
  lemma {:induction false} StrandedContinues(w: World, s: State, s': State, k: nat, id: string, large: bool)
    requires TasksOk(w, s) && Stranded(s, id, large) && Continues(w, s, s', k)
    ensures Stranded(s', id, large)
    decreases k
  {
    if k > 0 {
      var a, next := FirstStep(w, s, s', k);
      StrandedOn(w, s, a, next, id, large);
      StrandedContinues(w, next, s', k - 1, id, large);
    }
  }

  lemma FirstStep(w: World, s: State, s': State, k: nat) returns (a: Action, next: State)
    requires Continues(w, s, s', k) && k > 0
    ensures Step(w, s, a, next) && !Sweeps(w, s, a) && Continues(w, next, s', k - 1)
  {
    a, next :| Step(w, s, a, next) && !Sweeps(w, s, a) && Continues(w, next, s', k - 1);
  }

  lemma StrandedOn(w: World, s: State, a: Action, next: State, id: string, large: bool)
    requires TasksOk(w, s) && Stranded(s, id, large) && Step(w, s, a, next) && !Sweeps(w, s, a)
    ensures TasksOk(w, next) && Stranded(next, id, large)
  {
    SoundStep(w, s, a, next);
    StrandedStep(w, s, a, next, id, large);
    assert TasksOk(w, next) by {
      assert Look(0);
    }
  }

  /** Some worker of the class has not left. */
  ghost predicate Attended(s: State, large: bool) {
    exists i: nat :: At(s, i) && s.workers[i].large == large && s.workers[i].phase != Exited
  }

  /** In every reachable state of a started manager, whatever the service has gone
      through, a waiting task can be brought to its end without a sweep iff some
      worker of its class has not left. */
  lemma EndsExactlyWhenAttended(w: World, ss: seq<State>, acts: seq<Action>, n: nat, id: string, large: bool)
    requires IsRun(w, ss, acts) && n < |ss| && ss[n].sh.started
    requires InClass(ss[n], id, large) && Queueable(ss[n].sh.results[id].state)
    ensures CanEnd(w, ss[n], id) <==> Attended(ss[n], large)
  {
    var s := ss[n];
    TasksRun(w, ss, acts, n);
    if Attended(s, large) {
      NoLostQueueWakeup(w, ss, acts, n);
      WatchedRun(w, ss, acts, n);
      var i: nat :| At(s, i) && s.workers[i].large == large && s.workers[i].phase != Exited;
      var l, p := QueuedPlace(s, id);
      Attends(w, s, i, Queue(s.sh, large)[p], p);
    } else {
      NotAttended(w, s, id, large);
    }
  }

  lemma NotAttended(w: World, s: State, id: string, large: bool)
    requires TasksOk(w, s) && s.sh.started && InClass(s, id, large) && Queueable(s.sh.results[id].state)
    requires !Attended(s, large)
    ensures !CanEnd(w, s, id)
  {
    assert Stranded(s, id, large) by {
      forall i | 0 <= i < |s.workers| && s.workers[i].large == large ensures s.workers[i].phase == Exited {
        assert At(s, i);
      }
    }
    forall s': State, k: nat | Continues(w, s, s', k)
      ensures id in s'.sh.results ==> !Terminal(s'.sh.results[id].state)
    {
      StrandedContinues(w, s, s', k, id, large);
    }
  }
}

/** No wake-up is lost: who still owes a notification on `idle_cv_` and on
    `queue_cv_`, and what a thread that waits on them may rely on. */
module Wakeups {
  import opened SyncTypes
  import opened SyncCore
  import opened Protocol
  import opened Effects
  import opened Conservation
  import opened TaskLife
  import opened Timing

  // ------------------------------------------------------------------ idle_cv_

  /** Nobody sleeps on `idle_cv_` while its predicate holds, but for the moment in
      which `stop` has set its flag and not yet notified. */
  ghost predicate IdleAwake(s: State) {
    s.sleepers > 0 && IdlePredicate(s.sh) ==> s.control == StopRequested
  }

  /** What a step does to the idle predicate and to those who sleep on it: a step
      that makes the predicate true wakes them all, or is the locked part of
      `stop`, whose thread wakes them next; and nobody falls asleep on a predicate
      that holds. */
  ghost predicate IdleMove(s: State, a: Action, s': State) {
    && (!IdlePredicate(s.sh) && IdlePredicate(s'.sh) ==>
          s'.sleepers == 0 || (a.StopLock? && s'.control == StopRequested))
    && (a.StopAnnounce? ==> s'.sleepers == 0)
    && (s.control == StopRequested && !a.StopAnnounce? ==> s'.control == StopRequested)
    && (s'.sleepers > s.sleepers ==> !IdlePredicate(s'.sh))
  }

  lemma ConcludeIdle(w: World, s: State, i: nat)
    requires ConcludeEnabled(s, i)
    ensures IdleMove(s, Conclude(i), ConcludeStep(w, s, i))
  {
  }

  lemma QueueingIdle(w: World, s: State, i: nat)
    requires At(s, i)
    ensures SeekEnabled(s, i) && SeekStep(s, i).workers[i].phase != Crashed ==> IdleMove(s, Seek(i), SeekStep(s, i))
    ensures RequeueEnabled(s, i) ==> IdleMove(s, Requeue(i), RequeueStep(w, s, i))
    ensures DeliverEnabled(s, i) ==> IdleMove(s, Deliver(i), DeliverStep(s, i))
  {
  }

  lemma IdleMoves(w: World, s: State, a: Action, s': State)
    requires Step(w, s, a, s')
    requires a.Seek? && At(s', a.w) ==> s'.workers[a.w].phase != Crashed
    requires a.Start? ==> IdlePredicate(s.sh)
    ensures IdleMove(s, a, s')
  {
    match a
    case Seek(i) => IsSeek(w, s, i, s'); QueueingIdle(w, s, i);
    case WakeUp(i) => IsWakeUp(w, s, i, s');
    case Read(i) => IsRead(w, s, i, s');
    case Transfer(i, env) => IsTransfer(w, s, i, env, s');
    case Fetch(i, op) => IsFetch(w, s, i, op, s');
    case Conclude(i) => IsConclude(w, s, i, s'); ConcludeIdle(w, s, i);
    case Requeue(i) => IsRequeue(w, s, i, s'); QueueingIdle(w, s, i);
    case Deliver(i) => IsDeliver(w, s, i, s'); QueueingIdle(w, s, i);
    case _ => OtherIdle(w, s, a, s');
  }

  lemma OtherIdle(w: World, s: State, a: Action, s': State)
    requires Step(w, s, a, s') && !ByWorker(a) && (a.Start? ==> IdlePredicate(s.sh))
    ensures IdleMove(s, a, s')
  {
    assert Inspect(0);
  }

  lemma NotStartedIdle(c: Config, s: State)
    requires Basic(c, s) && s.control == Ready && !s.sh.started
    ensures IdlePredicate(s.sh)
  {
  }

  lemma IdleStep(w: World, s: State, a: Action, s': State)
    requires Basic(w.config, s) && Step(w, s, a, s')
    ensures IdleMove(s, a, s')
  {
    BasicStep(w, s, a, s');
    if a.Start? {
      NotStartedIdle(w.config, s);
    }
    IdleMoves(w, s, a, s');
  }

  lemma {:induction false} NoLostIdleWakeup(w: World, ss: seq<State>, acts: seq<Action>, n: nat)
    requires IsRun(w, ss, acts) && n < |ss|
    ensures IdleAwake(ss[n])
  {
    if n > 0 {
      NoLostIdleWakeup(w, ss, acts, n - 1);
      BasicRun(w, ss, acts, n - 1);
      assert StepAt(w, ss, acts, n - 1);
      IdleStep(w, ss[n - 1], acts[n - 1], ss[n]);
    }
  }

  /** `wait_for_idle` goes to sleep exactly while there is work, the service is not in
      Error and nobody stops the manager. */
  lemma SleepsExactly(w: World, s: State, s': State)
    requires Step(w, s, WaitIdle, s')
    ensures s' == s.(sleepers := s'.sleepers)
    ensures s'.sleepers == s.sleepers +
              if || (s.sh.active == 0 && s.sh.small == [] && s.sh.large == [])
                 || s.sh.service == Error || s.sh.stopping then 0 else 1
  {
    assert Inspect(0);
  }

  // ------------------------------------------------------------------ what idle means

  lemma NothingLeft(s: State)
    requires Conserved(s) && s.sh.active == 0 && QueuesEmpty(s.sh)
    ensures forall i | 0 <= i < |s.workers| :: !Holding(s.workers[i].phase)
    ensures forall id | id in s.sh.results :: Terminal(s.sh.results[id].state)
  {
    forall i | 0 <= i < |s.workers| ensures !Holding(s.workers[i].phase) {
      if Holding(s.workers[i].phase) {
        HeldItem(s, i);
      }
    }
    HeldNone(s.workers);
    forall id | id in s.sh.results ensures Terminal(s.sh.results[id].state) {
      assert Of(id) && Ids([]) == [];
      assert Queued(s.sh)[id] == 0;
    }
  }

  /** When `wait_for_idle` returns true, no worker holds a task and every task ever
      accepted is Completed, Failed or Cancelled. */
  lemma IdleSound(w: World, ss: seq<State>, acts: seq<Action>, n: nat)
    requires IsRun(w, ss, acts) && n < |ss| && IdleVerdict(ss[n].sh)
    ensures forall i | 0 <= i < |ss[n].workers| :: !Holding(ss[n].workers[i].phase)
    ensures forall id | id in ss[n].accepted :: id in ss[n].sh.results && Terminal(ss[n].sh.results[id].state)
  {
    BasicRun(w, ss, acts, n);
    ListedRun(w, ss, acts, n);
    NothingLeft(ss[n]);
  }

  /** So what `main` reads of the results after that is final, however late it
      reads it. */
  lemma IdleVerdictStands(w: World, ss: seq<State>, acts: seq<Action>, m: nat, n: nat)
    requires IsRun(w, ss, acts) && m <= n < |ss| && IdleVerdict(ss[m].sh)
    ensures forall id | id in ss[m].accepted ::
              id in ss[m].sh.results && id in ss[n].sh.results && ss[n].sh.results[id] == ss[m].sh.results[id]
  {
    IdleSound(w, ss, acts, m);
    forall id | id in ss[m].accepted
      ensures id in ss[m].sh.results && id in ss[n].sh.results && ss[n].sh.results[id] == ss[m].sh.results[id]
    {
      TerminalForEver(w, ss, acts, m, n, id);
    }
  }

  // ------------------------------------------------------------------ queue_cv_

  predicate OwesNotify(worker: Worker) {
    worker.phase.Reporting? && worker.phase.notify
  }

  /** Some thread has changed a queue and has still to notify `queue_cv_`. */
  ghost predicate Owed(s: State) {
    s.notifies > 0 || exists j: nat | j < |s.workers| :: OwesNotify(s.workers[j])
  }

  /** Why a parked worker may sleep: the service is not there, or its queue holds
      nothing that will be ready before it wakes by itself; unless somebody still
      owes it a notification. */
  ghost predicate MaySleep(s: State, worker: Worker) {
    worker.phase.Parked? ==>
      && (s.sh.stopping ==> s.control == StopRequested)
      && match worker.phase.wakeup
         case ForService => s.sh.service != Connected && s.sh.service != Error
         case ForWork => s.sh.service == Connected && (Queue(s.sh, worker.large) == [] || Owed(s))
         case ForTime(t) =>
           && s.sh.service == Connected
           && forall k | 0 <= k < |Queue(s.sh, worker.large)| :: t <= Queue(s.sh, worker.large)[k].readyAt || Owed(s)
  }

  /** What a step leaves alone that leaves worker `j` parked. */
  ghost predicate Unwoken(s: State, a: Action, s': State, j: nat) {
    && At(s, j) && At(s', j) && s'.workers[j] == s.workers[j]
    && s'.sh.service == s.sh.service && s'.notifies >= s.notifies
    && (s'.sh.stopping == s.sh.stopping || a.StopLock?)
    && (s'.control == s.control || a.StopLock?)
    && (forall i: nat | i < |s.workers| :: OwesNotify(s.workers[i]) ==> i < |s'.workers| && OwesNotify(s'.workers[i]))
  }

  ghost predicate NoneParked(s: State) {
    forall j | 0 <= j < |s.workers| :: !s.workers[j].phase.Parked?
  }

  /** A step of worker `i` alone, which owed nothing. */
  lemma MovedUnwoken(s: State, a: Action, s': State, i: nat, j: nat)
    requires At(s, i) && At(s', i) && Moved(s, s', i, s'.workers[i].phase) && !OwesNotify(s.workers[i])
    requires s'.sh.service == s.sh.service && s'.notifies == s.notifies
    requires s'.sh.stopping == s.sh.stopping && s'.control == s.control && At(s, j) && j != i
    ensures Unwoken(s, a, s', j)
  {
  }

  /** Worker `i` moves alone, or wakes everybody. */
  ghost predicate MovesOrWakes(s: State, s': State, i: nat) {
    && s'.notifies == s.notifies && At(s', i) && !s'.workers[i].phase.Parked?
    && (NoneParked(s') || (s'.sh.service == s.sh.service && Moved(s, s', i, s'.workers[i].phase)))
  }

  lemma RetryMoves(w: World, s: State, i: nat)
    requires ConcludeEnabled(s, i) && GoesBack(w, s.workers[i].phase)
    ensures MovesOrWakes(s, ConcludeStep(w, s, i), i)
  {
  }

  lemma SettleMoves(w: World, s: State, i: nat)
    requires ConcludeEnabled(s, i) && !GoesBack(w, s.workers[i].phase)
    ensures MovesOrWakes(s, ConcludeStep(w, s, i), i)
  {
  }

  lemma ConcludeMoves(w: World, s: State, i: nat)
    requires ConcludeEnabled(s, i)
    ensures MovesOrWakes(s, ConcludeStep(w, s, i), i)
  {
    if GoesBack(w, s.workers[i].phase) {
      RetryMoves(w, s, i);
    } else {
      SettleMoves(w, s, i);
    }
  }

  lemma WorkerUnwoken(w: World, s: State, a: Action, s': State, j: nat)
    requires Step(w, s, a, s') && At(s', j) && s'.workers[j].phase.Parked? && a != Seek(j)
    requires a.Seek? || a.WakeUp? || a.Read? || a.Transfer? || a.Fetch? || a.Requeue?
    ensures Unwoken(s, a, s', j)
  {
    MovesAlone(w, s, a, s');
    WorkerKeeps(w, s, a, s');
    MovedUnwoken(s, a, s', a.w, j);
  }

  lemma ConcludeUnwoken(w: World, s: State, a: Action, s': State, j: nat)
    requires Step(w, s, a, s') && At(s', j) && s'.workers[j].phase.Parked? && a.Conclude?
    ensures Unwoken(s, a, s', j)
  {
    IsConclude(w, s, a.w, s');
    ConcludeMoves(w, s, a.w);
    ConcludeFrame(w, s, a.w);
    MovedUnwoken(s, a, s', a.w, j);
  }

  lemma StepUnwoken(w: World, s: State, a: Action, s': State, j: nat)
    requires Step(w, s, a, s') && At(s', j) && s'.workers[j].phase.Parked? && a != Seek(j)
    ensures Unwoken(s, a, s', j)
  {
    if a.Conclude? {
      ConcludeUnwoken(w, s, a, s', j);
    } else if a.Seek? || a.WakeUp? || a.Read? || a.Transfer? || a.Fetch? || a.Requeue? {
      WorkerUnwoken(w, s, a, s', j);
    } else {
      assert Inspect(0);
    }
  }

  lemma OwedStays(s: State, a: Action, s': State, j: nat)
    requires Unwoken(s, a, s', j) && Owed(s)
    ensures Owed(s')
  {
    if s.notifies == 0 {
      var i: nat :| i < |s.workers| && OwesNotify(s.workers[i]);
      assert OwesNotify(s'.workers[i]);
    }
  }

  lemma AcceptOwes(w: World, s: State, a: Action, s': State)
    requires Step(w, s, a, s') && EffectOf(w, s, a).Accept?
    ensures s'.notifies > 0
  {
    assert Inspect(0);
  }

  /** An item that is new in a queue comes with a notification still owed. */
  lemma NewItemsOwed(w: World, s: State, s': State, e: Effect, large: bool, k: nat)
    requires Shows(w, s, s', e) && !e.Crash? && k < |Queue(s'.sh, large)| && (e.Accept? ==> s'.notifies > 0)
    ensures Queue(s'.sh, large)[k] in Queue(s.sh, large) || Owed(s')
  {
    ItemsEffect(w, s, s', e, large, k);
    if e.PutBack? {
      assert OwesNotify(s'.workers[e.i]);
    }
  }

  lemma SeekSleeps(w: World, s: State, i: nat, s': State)
    requires Step(w, s, Seek(i), s')
    ensures At(s', i) && MaySleep(s', s'.workers[i])
  {
    assert Inspect(0);
  }

  lemma SleepsOn(w: World, s: State, a: Action, s': State, j: nat)
    requires Shows(w, s, s', EffectOf(w, s, a)) && !EffectOf(w, s, a).Crash?
    requires EffectOf(w, s, a).Accept? ==> s'.notifies > 0
    requires Unwoken(s, a, s', j) && MaySleep(s, s.workers[j])
    requires a.StopLock? ==> s'.control == StopRequested
    ensures MaySleep(s', s'.workers[j])
  {
    if Owed(s) {
      OwedStays(s, a, s', j);
    } else {
      var large := s.workers[j].large;
      forall k | 0 <= k < |Queue(s'.sh, large)|
        ensures Queue(s'.sh, large)[k] in Queue(s.sh, large) || Owed(s')
      {
        NewItemsOwed(w, s, s', EffectOf(w, s, a), large, k);
      }
      assert Queue(s'.sh, large) == [] || Queue(s'.sh, large)[0] in Queue(s.sh, large) || Owed(s');
    }
  }

  ghost predicate AllMaySleep(s: State) {
    forall j | 0 <= j < |s.workers| :: MaySleep(s, s.workers[j])
  }

  lemma SleepStep(w: World, s: State, a: Action, s': State, j: nat)
    requires Sound(w, s, a, s') && Step(w, s, a, s') && AllMaySleep(s) && At(s', j)
    ensures MaySleep(s', s'.workers[j])
  {
    if a == Seek(j) {
      SeekSleeps(w, s, j, s');
    } else if s'.workers[j].phase.Parked? {
      StepUnwoken(w, s, a, s', j);
      assert Look(0);
      if a.StopLock? {
        assert Inspect(0);
      }
      if EffectOf(w, s, a).Accept? {
        AcceptOwes(w, s, a, s');
      }
      SleepsOn(w, s, a, s', j);
    }
  }

  /** In every reachable state a worker parked on `queue_cv_` has no work to do
      and no flag to see, or some thread has still to notify it. */
  lemma {:induction false} NoLostQueueWakeup(w: World, ss: seq<State>, acts: seq<Action>, n: nat)
    requires IsRun(w, ss, acts) && n < |ss|
    ensures AllMaySleep(ss[n])
  {
    if n > 0 {
      NoLostQueueWakeup(w, ss, acts, n - 1);
      AllSleepNext(w, ss, acts, n - 1);
    }
  }

  lemma AllSleepNext(w: World, ss: seq<State>, acts: seq<Action>, k: nat)
    requires IsRun(w, ss, acts) && k < |acts| && AllMaySleep(ss[k])
    ensures AllMaySleep(ss[k + 1])
  {
    SoundRun(w, ss, acts, k);
    AllSleepStep(w, ss[k], acts[k], ss[k + 1]);
  }

  lemma AllSleepStep(w: World, s: State, a: Action, s': State)
    requires Sound(w, s, a, s') && Step(w, s, a, s') && AllMaySleep(s)
    ensures AllMaySleep(s')
  {
    forall j | 0 <= j < |s'.workers| ensures MaySleep(s', s'.workers[j]) {
      SleepStep(w, s, a, s', j);
    }
  }
}

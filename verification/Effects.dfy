/** What an action does to tasks, queues and hands: the view of a step on which
    the invariants are built. */
module Effects {
  import opened SyncTypes
  import opened SyncCore
  import opened Protocol
  import Downloads

  function HeldBy(worker: Worker): Option<string> {
    if Holding(worker.phase) then Some(worker.phase.item.id) else None
  }

  datatype Effect =
    | Quiet                                       // no task changes and no item moves
    | Accept(task: SyncTask, large: bool)
    | Take(i: nat, k: nat)                        // worker i takes item k of its queue
    | Settle(i: nat, r: SyncResult)               // worker i stores r as the last result of its task
    | PutBack(i: nat, r: SyncResult)              // worker i stores r, and its item is queued again if r is Retry
    | CancelAll | FailAll                         // both queues are swept
    | Spawn | Join                                // the workers are created, are joined
    | Crash(i: nat)

  function SettledAs(w: World, p: Phase, stored: SyncResult): SyncResult
    requires p.Finished?
  {
    match p.outcome
    case PathFailed(error) => stored.(state := Failed, error := error, httpStatus := 0)
    case Succeeded(status) => stored.(state := Completed, error := "", httpStatus := status)
    case FailedWith(status, error) => stored.(state := Failed, error := error, httpStatus := status)
  }

  function PutBackAs(sh: Shared, p: Phase, stored: SyncResult): SyncResult
    requires p.Retrying?
  {
    stored.(state := if sh.stopping then Cancelled else if sh.service == Error then Failed else Retry,
            error := p.error, httpStatus := p.status)
  }

  /** Whether the worker goes on to put its task back. */
  predicate GoesBack(w: World, p: Phase) {
    p.Finished? && p.outcome.FailedWith? && Retries(w, p.attempts, p.outcome.status, p.outcome.error)
  }

  /** The worker goes on to retry after an outcome that blames the service: no
      HTTP status at all, or one of 500 and above. */
  predicate BlamesService(w: World, p: Phase) {
    GoesBack(w, p) && (p.outcome.status == 0 || p.outcome.status >= 500)
  }

  predicate Known(s: State, i: nat) {
    At(s, i) && Holding(s.workers[i].phase) && s.workers[i].phase.item.id in s.sh.results
  }

  function ReadyIndex(s: State, i: nat): nat
    requires At(s, i)
  {
    FirstReady(Queue(s.sh, s.workers[i].large), s.now)
  }

  function EffectOf(w: World, s: State, a: Action): Effect {
    match a
    case Start => Spawn
    case StopJoin => Join
    case StopLock => CancelAll
    case Enqueue(task, large) => if Accepts(s.sh, task.id) then Accept(task, large) else Quiet
    case Seek(i) =>
      if !At(s, i) then Quiet
      else
        var pass := TakePass(s.sh, s.workers[i].large, s.now).1;
        if pass.Took? then Take(i, ReadyIndex(s, i)) else if pass.Threw? then Crash(i) else Quiet
    case Read(i) => if Known(s, i) then Quiet else Crash(i)
    case Conclude(i) =>
      if !ConcludeEnabled(s, i) || GoesBack(w, s.workers[i].phase) then Quiet
      else if !Known(s, i) then Crash(i)
      else Settle(i, SettledAs(w, s.workers[i].phase, s.sh.results[s.workers[i].phase.item.id]))
    case Requeue(i) =>
      if !RequeueEnabled(s, i) then Quiet
      else if !Known(s, i) then Crash(i)
      else PutBack(i, PutBackAs(s.sh, s.workers[i].phase, s.sh.results[s.workers[i].phase.item.id]))
    case Probe(connected, _) =>
      if s.monitor.Probing? && EntersError(s.sh, Verdict(w.config, connected, Failures(connected, s.monitor.failures)))
      then FailAll else Quiet
    case _ => Quiet
  }

  // ------------------------------------------------------------------ what the effects show

  ghost predicate SameQueues(s: State, s': State) {
    s'.sh.small == s.sh.small && s'.sh.large == s.sh.large
  }

  /** Every worker holds what it held, and is of the same class. */
  ghost predicate SameHands(s: State, s': State) {
    && |s'.workers| == |s.workers|
    && forall j | 0 <= j < |s.workers| ::
         && HeldBy(s'.workers[j]) == HeldBy(s.workers[j])
         && (Holding(s.workers[j].phase) ==> s'.workers[j].phase.item == s.workers[j].phase.item)
         && s'.workers[j].large == s.workers[j].large
         && (s'.workers[j].phase == Crashed ==> s.workers[j].phase == Crashed)
  }

  /** An item is appended to the queue of its class. */
  ghost predicate Pushed(s: State, s': State, item: QueueItem) {
    && Queue(s'.sh, item.large) == Queue(s.sh, item.large) + [item]
    && Queue(s'.sh, !item.large) == Queue(s.sh, !item.large)
  }

  ghost predicate Popped(s: State, s': State, large: bool, k: nat) {
    && k < |Queue(s.sh, large)|
    && Queue(s'.sh, large) == Without(Queue(s.sh, large), k)
    && Queue(s'.sh, !large) == Queue(s.sh, !large)
  }

  ghost predicate Stored(s: State, s': State, id: string, r: SyncResult) {
    s'.sh.results == s.sh.results[id := r]
  }

  /** Worker `i` is the only one to move, to `phase`. */
  ghost predicate Moved(s: State, s': State, i: nat, phase: Phase) {
    At(s, i) && s'.workers == s.workers[i := s.workers[i].(phase := phase)]
  }

  ghost predicate TakeShown(s: State, s': State, i: nat, k: nat) {
    && At(s, i) && s.workers[i].phase == Seeking
    && s.sh.service == Connected && !s.sh.stopping
    && k == ReadyIndex(s, i)
    && Popped(s, s', s.workers[i].large, k)
    && var item := Queue(s.sh, s.workers[i].large)[k];
       && item.id in s.sh.results && item.readyAt <= s.now
       && var r := s.sh.results[item.id];
          && Stored(s, s', item.id, r.(state := InProgress, attempts := Increment(r.attempts)))
          && Moved(s, s', i, Taken(item)) && s'.sh.active == s.sh.active + 1
  }

  ghost predicate SettleShown(w: World, s: State, s': State, i: nat, r: SyncResult) {
    && Known(s, i) && s.workers[i].phase.Finished? && !GoesBack(w, s.workers[i].phase)
    && var id := s.workers[i].phase.item.id;
       && r == SettledAs(w, s.workers[i].phase, s.sh.results[id])
       && Stored(s, s', id, r) && SameQueues(s, s')
       && Moved(s, s', i, Reporting(Snapshot(s'.sh, id), false))
       && s'.sh.active == Released(s.sh.active)
  }

  ghost predicate PutBackShown(w: World, s: State, s': State, i: nat, r: SyncResult) {
    && Known(s, i) && s.workers[i].phase.Retrying?
    && var p := s.workers[i].phase;
       && r == PutBackAs(s.sh, p, s.sh.results[p.item.id])
       && Stored(s, s', p.item.id, r)
       && (if r.state == Retry then Pushed(s, s', p.item.(readyAt := s.now + w.config.retryDelay))
           else SameQueues(s, s'))
       && Moved(s, s', i, Reporting(Snapshot(s'.sh, p.item.id), true))
       && s'.sh.active == Released(s.sh.active)
  }

  ghost predicate Shows(w: World, s: State, s': State, e: Effect) {
    match e
    case Quiet =>
      s'.sh.results == s.sh.results && SameQueues(s, s') && SameHands(s, s') && s'.sh.active == s.sh.active
    case Accept(task, large) =>
      && task.id !in s.sh.results && s.sh.started && !s.sh.stopping
      && Stored(s, s', task.id, Accepted(task)) && Pushed(s, s', QueueItem(task.id, large, s.now))
      && s'.workers == s.workers && s'.sh.active == s.sh.active
    case Take(i, k) => TakeShown(s, s', i, k)
    case Settle(i, r) => SettleShown(w, s, s', i, r)
    case PutBack(i, r) => PutBackShown(w, s, s', i, r)
    case CancelAll =>
      && s'.sh.results == Cancelling(s.sh.results) && QueuesEmpty(s'.sh)
      && SameHands(s, s') && s'.sh.active == s.sh.active
    case FailAll =>
      && s'.sh.results == Failing(s.sh.results, w.message) && QueuesEmpty(s'.sh)
      && SameHands(s, s') && s'.sh.active == s.sh.active
    case Spawn =>
      && s'.sh.results == s.sh.results && SameQueues(s, s') && s'.sh.active == s.sh.active
      && s.control == Ready && !s.sh.started && s'.workers == FreshWorkers(w.config)
    case Join =>
      && s'.sh.results == s.sh.results && SameQueues(s, s') && s'.sh.active == s.sh.active
      && (forall i | 0 <= i < |s.workers| :: s.workers[i].phase == Exited) && s'.workers == []
    case Crash(i) =>
      && At(s, i)
      && if Holding(s.workers[i].phase) then s.workers[i].phase.item.id !in s.sh.results
         else ReadyIndex(s, i) < |Queue(s.sh, s.workers[i].large)|
              && Queue(s.sh, s.workers[i].large)[ReadyIndex(s, i)].id !in s.sh.results
  }

  // ------------------------------------------------------------------ steps of one worker

  lemma IsSeek(w: World, s: State, i: nat, s': State)
    requires Step(w, s, Seek(i), s')
    ensures SeekEnabled(s, i) && s' == SeekStep(s, i)
  {
    assert Inspect(0);
  }

  lemma IsRead(w: World, s: State, i: nat, s': State)
    requires Step(w, s, Read(i), s')
    ensures ReadEnabled(s, i) && s' == ReadStep(s, i)
  {
    assert Inspect(0);
  }

  lemma IsTransfer(w: World, s: State, i: nat, env: Env, s': State)
    requires Step(w, s, Transfer(i, env), s')
    ensures TransferEnabled(s, i, env) && s' == TransferStep(s, i, env)
  {
    assert Inspect(0);
  }

  lemma IsFetch(w: World, s: State, i: nat, op: Downloads.Op, s': State)
    requires Step(w, s, Fetch(i, op), s')
    ensures FetchEnabled(s, i) && s' == FetchStep(w, s, i, op)
  {
    assert Inspect(0);
  }

  lemma IsConclude(w: World, s: State, i: nat, s': State)
    requires Step(w, s, Conclude(i), s')
    ensures ConcludeEnabled(s, i) && s' == ConcludeStep(w, s, i)
  {
    assert Inspect(0);
  }

  lemma IsRequeue(w: World, s: State, i: nat, s': State)
    requires Step(w, s, Requeue(i), s')
    ensures RequeueEnabled(s, i) && s' == RequeueStep(w, s, i)
  {
    assert Inspect(0);
  }

  lemma IsDeliver(w: World, s: State, i: nat, s': State)
    requires Step(w, s, Deliver(i), s')
    ensures DeliverEnabled(s, i) && s' == DeliverStep(s, i)
  {
    assert Inspect(0);
  }

  lemma IsWakeUp(w: World, s: State, i: nat, s': State)
    requires Step(w, s, WakeUp(i), s')
    ensures At(s, i) && s.workers[i].phase.Parked? && s' == WithPhase(s, i, Seeking)
  {
    assert Inspect(0);
  }

  predicate ByWorker(a: Action) {
    a.Seek? || a.WakeUp? || a.Read? || a.Transfer? || a.Fetch? || a.Conclude? || a.Requeue? || a.Deliver?
  }

  // ------------------------------------------------------------------ every step shows its effect

  lemma FirstListed(order: seq<string>, ids: set<string>)
    requires IsListing(order, ids)
    ensures order == [] || order[0] in ids
  {
  }

  lemma SeekShows(w: World, s: State, i: nat, s': State)
    requires Step(w, s, Seek(i), s')
    ensures Shows(w, s, s', EffectOf(w, s, Seek(i)))
  {
    IsSeek(w, s, i, s');
  }

  lemma ReadShows(w: World, s: State, i: nat, s': State)
    requires Step(w, s, Read(i), s')
    ensures Shows(w, s, s', EffectOf(w, s, Read(i)))
  {
    assert Inspect(0);
  }

  lemma TransferShows(w: World, s: State, i: nat, env: Env, s': State)
    requires Step(w, s, Transfer(i, env), s')
    ensures Shows(w, s, s', Quiet)
  {
    assert Inspect(0);
  }

  lemma FetchShows(w: World, s: State, i: nat, op: Downloads.Op, s': State)
    requires Step(w, s, Fetch(i, op), s')
    ensures Shows(w, s, s', Quiet)
  {
    assert Inspect(0);
  }

  lemma ConcludeShows(w: World, s: State, i: nat, s': State)
    requires Step(w, s, Conclude(i), s')
    ensures Shows(w, s, s', EffectOf(w, s, Conclude(i)))
  {
    assert Inspect(0);
    if GoesBack(w, s.workers[i].phase) {
      GoesBackShows(w, s, i);
    }
  }

  /** What the end of a transfer leaves alone, whichever way it goes. */
  ghost predicate ConcludeFramed(w: World, s: State, s': State, i: nat)
    requires At(s, i)
  {
    && s'.monitor == s.monitor && s'.control == s.control && s'.now == s.now && s'.files == s.files
    && s'.notifies == s.notifies && s'.accepted == s.accepted && |s'.workers| == |s.workers|
    && s'.sh.started == s.sh.started && s'.sh.stopping == s.sh.stopping && s'.sh.callback == s.sh.callback
    && s'.sh.service == if BlamesService(w, s.workers[i].phase) then Disconnected else s.sh.service
  }

  lemma SettleFrame(w: World, s: State, i: nat)
    requires ConcludeEnabled(s, i) && !GoesBack(w, s.workers[i].phase)
    ensures ConcludeFramed(w, s, ConcludeStep(w, s, i), i)
  {
  }

  lemma RetryFrame(w: World, s: State, i: nat)
    requires ConcludeEnabled(s, i) && GoesBack(w, s.workers[i].phase)
    ensures ConcludeFramed(w, s, ConcludeStep(w, s, i), i)
  {
  }

  lemma ConcludeFrame(w: World, s: State, i: nat)
    requires ConcludeEnabled(s, i)
    ensures ConcludeFramed(w, s, ConcludeStep(w, s, i), i)
  {
    if GoesBack(w, s.workers[i].phase) {
      RetryFrame(w, s, i);
    } else {
      SettleFrame(w, s, i);
    }
  }

  /** What the steps of workers leave alone. */
  ghost predicate WorkerFramed(w: World, s: State, a: Action, s': State)
    requires ByWorker(a)
  {
    && At(s, a.w) && s'.monitor == s.monitor && s'.control == s.control && s'.now == s.now
    && s'.notifies == s.notifies && s'.accepted == s.accepted && |s'.workers| == |s.workers|
    && s'.sh.started == s.sh.started && s'.sh.stopping == s.sh.stopping && s'.sh.callback == s.sh.callback
    && (!a.Fetch? ==> s'.files == s.files)
    && s'.sh.service == if a.Conclude? && BlamesService(w, s.workers[a.w].phase) then Disconnected else s.sh.service
  }

  lemma SeekFrame(w: World, s: State, i: nat)
    requires SeekEnabled(s, i)
    ensures WorkerFramed(w, s, Seek(i), SeekStep(s, i))
  {
  }

  lemma RequeueFrame(w: World, s: State, i: nat)
    requires RequeueEnabled(s, i)
    ensures WorkerFramed(w, s, Requeue(i), RequeueStep(w, s, i))
  {
  }

  lemma WorkerKeeps(w: World, s: State, a: Action, s': State)
    requires Step(w, s, a, s') && ByWorker(a)
    ensures WorkerFramed(w, s, a, s')
  {
    match a
    case Seek(i) => IsSeek(w, s, i, s'); SeekFrame(w, s, i);
    case WakeUp(i) => IsWakeUp(w, s, i, s');
    case Read(i) => IsRead(w, s, i, s');
    case Transfer(i, env) => IsTransfer(w, s, i, env, s');
    case Fetch(i, op) => IsFetch(w, s, i, op, s');
    case Conclude(i) => IsConclude(w, s, i, s'); ConcludeFrame(w, s, i);
    case Requeue(i) => IsRequeue(w, s, i, s'); RequeueFrame(w, s, i);
    case Deliver(i) => IsDeliver(w, s, i, s');
  }

  /** A worker moves alone; it owed nothing, and is parked after only if it sought work. */
  ghost predicate Alone(s: State, a: Action, s': State)
    requires ByWorker(a)
  {
    && At(s, a.w) && At(s', a.w) && Moved(s, s', a.w, s'.workers[a.w].phase)
    && !s.workers[a.w].phase.Reporting? && (s'.workers[a.w].phase.Parked? ==> a.Seek?)
    && (s'.workers[a.w].phase.Reporting? ==> a.Requeue?)
  }

  lemma SeekAlone(s: State, i: nat)
    requires SeekEnabled(s, i)
    ensures Alone(s, Seek(i), SeekStep(s, i))
  {
  }

  lemma RequeueAlone(w: World, s: State, i: nat)
    requires RequeueEnabled(s, i)
    ensures Alone(s, Requeue(i), RequeueStep(w, s, i))
  {
  }

  lemma MovesAlone(w: World, s: State, a: Action, s': State)
    requires Step(w, s, a, s') && ByWorker(a) && !a.Conclude? && !a.Deliver?
    ensures Alone(s, a, s')
  {
    match a
    case Seek(i) => IsSeek(w, s, i, s'); SeekAlone(s, i);
    case WakeUp(i) => IsWakeUp(w, s, i, s');
    case Read(i) => IsRead(w, s, i, s');
    case Transfer(i, env) => IsTransfer(w, s, i, env, s');
    case Fetch(i, op) => IsFetch(w, s, i, op, s');
    case Requeue(i) => IsRequeue(w, s, i, s'); RequeueAlone(w, s, i);
  }

  lemma GoesBackShows(w: World, s: State, i: nat)
    requires ConcludeEnabled(s, i) && GoesBack(w, s.workers[i].phase)
    ensures Shows(w, s, ConcludeStep(w, s, i), Quiet)
  {
  }

  lemma RequeueShows(w: World, s: State, i: nat, s': State)
    requires Step(w, s, Requeue(i), s')
    ensures Shows(w, s, s', EffectOf(w, s, Requeue(i)))
  {
    assert Inspect(0);
  }

  lemma DeliverShows(w: World, s: State, i: nat, s': State)
    requires Step(w, s, Deliver(i), s')
    ensures Shows(w, s, s', Quiet)
  {
    IsDeliver(w, s, i, s');
  }

  lemma EnqueueShows(w: World, s: State, task: SyncTask, large: bool, s': State)
    requires Step(w, s, Enqueue(task, large), s')
    ensures Shows(w, s, s', EffectOf(w, s, Enqueue(task, large)))
  {
    assert Inspect(0);
  }

  lemma ProbeShows(w: World, s: State, connected: bool, order: seq<string>, s': State)
    requires Step(w, s, Probe(connected, order), s')
    ensures Shows(w, s, s', EffectOf(w, s, Probe(connected, order)))
  {
    assert Inspect(0);
  }

  lemma OtherShows(w: World, s: State, a: Action, s': State)
    requires Step(w, s, a, s') && !ByWorker(a) && !a.Enqueue? && !a.Probe?
    ensures Shows(w, s, s', EffectOf(w, s, a))
  {
    assert Inspect(0);
  }

  lemma WakeUpShows(w: World, s: State, i: nat, s': State)
    requires Step(w, s, WakeUp(i), s')
    ensures Shows(w, s, s', Quiet)
  {
    IsWakeUp(w, s, i, s');
  }

  lemma StepShows(w: World, s: State, a: Action, s': State)
    requires Step(w, s, a, s')
    ensures Shows(w, s, s', EffectOf(w, s, a))
  {
    match a
    case Seek(i) => SeekShows(w, s, i, s');
    case WakeUp(i) => WakeUpShows(w, s, i, s');
    case Read(i) => ReadShows(w, s, i, s');
    case Transfer(i, env) => TransferShows(w, s, i, env, s');
    case Fetch(i, op) => FetchShows(w, s, i, op, s');
    case Conclude(i) => ConcludeShows(w, s, i, s');
    case Requeue(i) => RequeueShows(w, s, i, s');
    case Deliver(i) => DeliverShows(w, s, i, s');
    case Enqueue(task, large) => EnqueueShows(w, s, task, large, s');
    case Probe(connected, order) => ProbeShows(w, s, connected, order, s');
    case _ => OtherShows(w, s, a, s');
  }
}

/** The life of one task: its states, its attempts, and the copies workers keep. */
module TaskLife {
  import opened SyncTypes
  import opened SyncCore
  import opened Protocol
  import opened Effects
  import opened Conservation

  // ------------------------------------------------------------------ one task in one step

  /** Only a queued task is taken, and only a held one is released. */
  lemma EffectOnTask(w: World, s: State, s': State, e: Effect, id: string)
    requires Conserved(s) && Shows(w, s, s', e) && !e.Crash? && id in s.sh.results
    ensures id in s'.sh.results && s'.sh.results[id].task == s.sh.results[id].task
    ensures Terminal(s.sh.results[id].state) ==> s'.sh.results[id] == s.sh.results[id]
    ensures e.Take? && At(s, e.i) && id == Queue(s.sh, s.workers[e.i].large)[e.k].id ==>
              Queueable(s.sh.results[id].state)
    ensures (e.Settle? || e.PutBack?) && id == s.workers[e.i].phase.item.id ==> s.sh.results[id].state == InProgress
  {
    match e
    case Take(i, k) => QueuedItem(s, s.workers[i].large, k);
    case Settle(i, r) => HeldItem(s, i);
    case PutBack(i, r) => HeldItem(s, i);
    case _ =>
  }

  /** Completed, Failed and Cancelled are never left: the whole record stays as it is. */
  lemma {:induction false} TerminalForEver(w: World, ss: seq<State>, acts: seq<Action>, m: nat, n: nat, id: string)
    requires IsRun(w, ss, acts) && m <= n < |ss|
    requires id in ss[m].sh.results
    ensures id in ss[n].sh.results && ss[n].sh.results[id].task == ss[m].sh.results[id].task
    ensures Terminal(ss[m].sh.results[id].state) ==> ss[n].sh.results[id] == ss[m].sh.results[id]
    decreases n - m
  {
    if m < n {
      var s, a := ss[m], acts[m];
      BasicRun(w, ss, acts, m);
      assert StepAt(w, ss, acts, m);
      BasicStep(w, s, a, ss[m + 1]);
      EffectOnTask(w, s, ss[m + 1], EffectOf(w, s, a), id);
      TerminalForEver(w, ss, acts, m + 1, n, id);
    }
  }

  // ------------------------------------------------------------------ attempts

  /** How often a task in each state has been taken. */
  predicate AttemptsFit(c: Config, r: SyncResult) {
    match r.state
    case Pending => r.attempts == 0
    case Retry => 1 <= r.attempts <= c.maxRetries
    case InProgress => 1 <= r.attempts <= c.maxRetries + 1
    case Completed => 1 <= r.attempts <= c.maxRetries + 1
    case Failed => r.attempts <= c.maxRetries + 1
    case Cancelled => r.attempts <= c.maxRetries + 1
  }

  ghost predicate AttemptsOk(c: Config, s: State) {
    forall id | id in s.sh.results :: AttemptsFit(c, s.sh.results[id])
  }

  predicate Carries(p: Phase) {
    p.Working? || p.Fetching? || p.Finished? || p.Retrying?
  }

  /** A worker's copies of its task and of its attempts are those stored. */
  ghost predicate CopyFits(w: World, results: map<string, SyncResult>, p: Phase) {
    Carries(p) ==>
      && p.item.id in results && p.attempts == results[p.item.id].attempts
      && (!p.Retrying? ==> p.task == results[p.item.id].task)
      && (p.Fetching? ==> p.task.direction == Download)
      && (p.Retrying? ==> Retries(w, p.attempts, p.status, p.error))
  }

  ghost predicate CopiesFit(w: World, s: State) {
    forall i | 0 <= i < |s.workers| :: CopyFits(w, s.sh.results, s.workers[i].phase)
  }

  /** The transfer of the task goes on, or is finished. */
  predicate GoesOn(item: QueueItem, task: SyncTask, attempts: U32, p: Phase) {
    || (p.Fetching? && p == Fetching(item, task, attempts, p.place))
    || (p.Finished? && p == Finished(item, task, attempts, p.outcome))
  }

  /** Where a phase that carries copies came from. */
  ghost predicate CarriedFrom(w: World, s: State, a: Action, j: nat, p: Phase) {
    Carries(p) ==>
      && At(s, j)
      && var q := s.workers[j].phase;
         || p == q
         || (a == Read(j) && q.Taken? && Known(s, j)
             && p == Working(q.item, s.sh.results[q.item.id].task, s.sh.results[q.item.id].attempts))
         || (a.Transfer? && a.w == j && q.Working? && GoesOn(q.item, q.task, q.attempts, p)
             && (p.Fetching? ==> q.task.direction == Download))
         || (a.Fetch? && a.w == j && q.Fetching? && GoesOn(q.item, q.task, q.attempts, p))
         || (a == Conclude(j) && GoesBack(w, q)
             && p == Retrying(q.item, q.attempts, q.outcome.status, q.outcome.error))
  }

  lemma RetryCarries(w: World, s: State, i: nat, j: nat)
    requires ConcludeEnabled(s, i) && GoesBack(w, s.workers[i].phase) && j < |ConcludeStep(w, s, i).workers|
    ensures CarriedFrom(w, s, Conclude(i), j, ConcludeStep(w, s, i).workers[j].phase)
  {
  }

  lemma SettleCarries(w: World, s: State, i: nat, j: nat)
    requires ConcludeEnabled(s, i) && !GoesBack(w, s.workers[i].phase) && j < |ConcludeStep(w, s, i).workers|
    ensures CarriedFrom(w, s, Conclude(i), j, ConcludeStep(w, s, i).workers[j].phase)
  {
  }

  lemma ConcludeCarries(w: World, s: State, i: nat, j: nat)
    requires ConcludeEnabled(s, i) && j < |ConcludeStep(w, s, i).workers|
    ensures CarriedFrom(w, s, Conclude(i), j, ConcludeStep(w, s, i).workers[j].phase)
  {
    if GoesBack(w, s.workers[i].phase) {
      RetryCarries(w, s, i, j);
    } else {
      SettleCarries(w, s, i, j);
    }
  }

  lemma StepCarries(w: World, s: State, a: Action, s': State, j: nat)
    requires Step(w, s, a, s') && At(s', j)
    ensures CarriedFrom(w, s, a, j, s'.workers[j].phase)
  {
    match a
    case Seek(i) => IsSeek(w, s, i, s'); QueueingCarries(w, s, i, j);
    case WakeUp(i) => IsWakeUp(w, s, i, s');
    case Read(i) => IsRead(w, s, i, s');
    case Transfer(i, env) => IsTransfer(w, s, i, env, s');
    case Fetch(i, op) => IsFetch(w, s, i, op, s');
    case Conclude(i) => IsConclude(w, s, i, s'); ConcludeCarries(w, s, i, j);
    case Requeue(i) => IsRequeue(w, s, i, s'); QueueingCarries(w, s, i, j);
    case Deliver(i) => IsDeliver(w, s, i, s'); QueueingCarries(w, s, i, j);
    case _ => OtherCarries(w, s, a, s', j);
  }

  lemma OtherCarries(w: World, s: State, a: Action, s': State, j: nat)
    requires Step(w, s, a, s') && !ByWorker(a) && At(s', j)
    ensures CarriedFrom(w, s, a, j, s'.workers[j].phase)
  {
    assert Inspect(0);
  }

  lemma QueueingCarries(w: World, s: State, i: nat, j: nat)
    requires At(s, i) && At(s, j)
    ensures SeekEnabled(s, i) ==> CarriedFrom(w, s, Seek(i), j, SeekStep(s, i).workers[j].phase)
    ensures RequeueEnabled(s, i) ==> CarriedFrom(w, s, Requeue(i), j, RequeueStep(w, s, i).workers[j].phase)
    ensures DeliverEnabled(s, i) ==> CarriedFrom(w, s, Deliver(i), j, DeliverStep(s, i).workers[j].phase)
  {
  }

  /** A step changes neither the attempts nor the task of what another worker holds. */
  lemma HeldElsewhere(w: World, s: State, s': State, e: Effect, j: nat)
    requires Conserved(s) && Shows(w, s, s', e) && !e.Crash?
    requires At(s, j) && Holding(s.workers[j].phase)
    requires At(s', j) && Holding(s'.workers[j].phase) && s'.workers[j].phase.item == s.workers[j].phase.item
    ensures var id := s.workers[j].phase.item.id;
            && id in s.sh.results && id in s'.sh.results
            && s'.sh.results[id] == s.sh.results[id]
  {
    HeldItem(s, j);
    EffectOnTask(w, s, s', e, s.workers[j].phase.item.id);
    match e
    case Take(i, k) =>
    case Settle(i, r) => HeldOnce(s, i, j);
    case PutBack(i, r) => HeldOnce(s, i, j);
    case _ =>
  }

  lemma CopyStep(w: World, s: State, a: Action, s': State, j: nat)
    requires Basic(w.config, s) && CopiesFit(w, s) && Step(w, s, a, s') && At(s', j)
    requires Shows(w, s, s', EffectOf(w, s, a)) && !EffectOf(w, s, a).Crash?
    ensures CopyFits(w, s'.sh.results, s'.workers[j].phase)
  {
    StepCarries(w, s, a, s', j);
    if Carries(s'.workers[j].phase) {
      HeldElsewhere(w, s, s', EffectOf(w, s, a), j);
    }
  }

  lemma CopiesStep(w: World, s: State, a: Action, s': State)
    requires Basic(w.config, s) && CopiesFit(w, s) && Step(w, s, a, s')
    ensures CopiesFit(w, s')
  {
    BasicStep(w, s, a, s');
    forall j | 0 <= j < |s'.workers| ensures CopyFits(w, s'.sh.results, s'.workers[j].phase) {
      CopyStep(w, s, a, s', j);
    }
  }

  /** Without a budget of 2^32 - 1 retries the counter never wraps. */
  predicate BudgetFits(c: Config) {
    c.maxRetries + 1 < U32_LIMIT
  }

  lemma AttemptsEffect(w: World, s: State, s': State, e: Effect)
    requires BudgetFits(w.config) && Conserved(s) && CopiesFit(w, s) && AttemptsOk(w.config, s)
    requires Shows(w, s, s', e) && !e.Crash?
    ensures AttemptsOk(w.config, s')
  {
    forall id | id in s'.sh.results ensures AttemptsFit(w.config, s'.sh.results[id]) {
      if id in s.sh.results {
        AttemptsTaskEffect(w, s, s', e, id);
      }
    }
  }

  lemma AttemptsTaskEffect(w: World, s: State, s': State, e: Effect, id: string)
    requires BudgetFits(w.config) && Conserved(s) && CopiesFit(w, s)
    requires id in s.sh.results && AttemptsFit(w.config, s.sh.results[id])
    requires Shows(w, s, s', e) && !e.Crash?
    ensures id in s'.sh.results && AttemptsFit(w.config, s'.sh.results[id])
  {
    EffectOnTask(w, s, s', e, id);
  }

  ghost predicate TasksOk(w: World, s: State) {
    && Basic(w.config, s) && CopiesFit(w, s)
    && (BudgetFits(w.config) ==> AttemptsOk(w.config, s))
  }

  lemma TasksStep(w: World, s: State, a: Action, s': State)
    requires TasksOk(w, s) && Step(w, s, a, s')
    ensures TasksOk(w, s')
    ensures Shows(w, s, s', EffectOf(w, s, a)) && !EffectOf(w, s, a).Crash?
  {
    BasicStep(w, s, a, s');
    CopiesStep(w, s, a, s');
    if BudgetFits(w.config) {
      AttemptsEffect(w, s, s', EffectOf(w, s, a));
    }
  }

  /** In every reachable state: conservation, fitting copies, and, when the budget
      fits, fitting attempts. */
  lemma {:induction false} TasksRun(w: World, ss: seq<State>, acts: seq<Action>, n: nat)
    requires IsRun(w, ss, acts) && n < |ss|
    ensures TasksOk(w, ss[n])
  {
    if n == 0 {
      BasicInit(w.config, ss[0]);
    } else {
      TasksRun(w, ss, acts, n - 1);
      assert StepAt(w, ss, acts, n - 1);
      TasksStep(w, ss[n - 1], acts[n - 1], ss[n]);
    }
  }

  /** A task's attempts are within the bounds of its state, and a worker that has
      copied them, and the task, has what is stored. */
  lemma AttemptBounds(w: World, ss: seq<State>, acts: seq<Action>, n: nat)
    requires IsRun(w, ss, acts) && n < |ss| && BudgetFits(w.config)
    ensures forall id | id in ss[n].sh.results :: AttemptsFit(w.config, ss[n].sh.results[id])
    ensures forall i | 0 <= i < |ss[n].workers| :: CopyFits(w, ss[n].sh.results, ss[n].workers[i].phase)
  {
    TasksRun(w, ss, acts, n);
  }

  // ------------------------------------------------------------------ time

  lemma ClockStep(w: World, s: State, a: Action, s': State)
    requires Step(w, s, a, s')
    ensures s.now <= s'.now
    ensures !EffectOf(w, s, a).Quiet? ==> s'.now == s.now
  {
    if ByWorker(a) {
      WorkerKeeps(w, s, a, s');
    } else {
      assert Inspect(0);
    }
  }

  // ------------------------------------------------------------------ the steps of a run

  /** Marks a proof that looks at what the steps of a run have in common; it says nothing else. */
  ghost predicate Look(n: nat) {
    true
  }

  /** What is known of every step of every run. */
  ghost predicate Sound(w: World, s: State, a: Action, s': State) {
    forall n: nat {:trigger Look(n)} :: Look(n) ==>
      && TasksOk(w, s) && TasksOk(w, s')
      && Shows(w, s, s', EffectOf(w, s, a)) && !EffectOf(w, s, a).Crash?
      && s.now <= s'.now && (!EffectOf(w, s, a).Quiet? ==> s'.now == s.now)
      && (a.Seek? ==> SeekEnabled(s, a.w))
  }

  lemma SoundRun(w: World, ss: seq<State>, acts: seq<Action>, k: nat)
    requires IsRun(w, ss, acts) && k < |acts|
    ensures Sound(w, ss[k], acts[k], ss[k + 1]) && Step(w, ss[k], acts[k], ss[k + 1])
  {
    assert StepAt(w, ss, acts, k);
    TasksRun(w, ss, acts, k);
    SoundStep(w, ss[k], acts[k], ss[k + 1]);
  }

  lemma SoundStep(w: World, s: State, a: Action, s': State)
    requires TasksOk(w, s) && Step(w, s, a, s')
    ensures Sound(w, s, a, s')
  {
    TasksStep(w, s, a, s');
    ClockStep(w, s, a, s');
    assert a.Seek? ==> SeekEnabled(s, a.w) by {
      assert Inspect(0);
    }
  }

  // ------------------------------------------------------------------ the accepted tasks

  /** The accepted ids, in order and without repetition, are those with a result. */
  ghost predicate Listed(s: State) {
    && (forall i, j | 0 <= i < j < |s.accepted| :: s.accepted[i] != s.accepted[j])
    && (forall id :: id in s.accepted <==> id in s.sh.results)
  }

  lemma AcceptedStep(w: World, s: State, a: Action, s': State)
    requires Step(w, s, a, s')
    ensures var e := EffectOf(w, s, a);
            s'.accepted == if e.Accept? then s.accepted + [e.task.id] else s.accepted
  {
    if ByWorker(a) {
      WorkerKeeps(w, s, a, s');
    } else {
      assert Inspect(0);
    }
  }

  lemma ListedEffect(w: World, s: State, s': State, e: Effect)
    requires Conserved(s) && Shows(w, s, s', e) && !e.Crash? && Listed(s)
    requires s'.accepted == if e.Accept? then s.accepted + [e.task.id] else s.accepted
    ensures Listed(s')
  {
    assert s'.sh.results.Keys == s.sh.results.Keys + if e.Accept? then {e.task.id} else {} by {
      KeysEffect(w, s, s', e);
    }
  }

  lemma KeysEffect(w: World, s: State, s': State, e: Effect)
    requires Conserved(s) && Shows(w, s, s', e) && !e.Crash?
    ensures s'.sh.results.Keys == s.sh.results.Keys + if e.Accept? then {e.task.id} else {}
  {
    match e
    case Take(i, k) => QueuedItem(s, s.workers[i].large, k);
    case _ =>
  }

  lemma {:induction false} ListedRun(w: World, ss: seq<State>, acts: seq<Action>, n: nat)
    requires IsRun(w, ss, acts) && n < |ss|
    ensures Listed(ss[n])
  {
    if n > 0 {
      ListedRun(w, ss, acts, n - 1);
      ListedNext(w, ss, acts, n - 1);
    }
  }

  lemma ListedNext(w: World, ss: seq<State>, acts: seq<Action>, k: nat)
    requires IsRun(w, ss, acts) && k < |acts| && Listed(ss[k])
    ensures Listed(ss[k + 1])
  {
    SoundRun(w, ss, acts, k);
    ListedStep(w, ss[k], acts[k], ss[k + 1]);
  }

  lemma ListedStep(w: World, s: State, a: Action, s': State)
    requires Sound(w, s, a, s') && Step(w, s, a, s') && Listed(s)
    ensures Listed(s')
  {
    assert Look(0);
    AcceptedStep(w, s, a, s');
    ListedEffect(w, s, s', EffectOf(w, s, a));
  }
}

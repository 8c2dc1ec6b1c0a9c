/** Progress: a measure that every take, requeue and completion lowers, the bounds
    on work that follow from it, and a finer one that every step on a task lowers. */
module Progress {
  import opened SyncTypes
  import opened SyncCore
  import opened Protocol
  import opened Effects
  import opened Conservation
  import opened TaskLife
  import opened Timing
  import opened Wakeups
  import Downloads

  // ------------------------------------------------------------------ sums over accepted tasks

  function Total(ids: seq<string>, f: string -> nat): nat {
    if ids == [] then 0 else Total(ids[..|ids| - 1], f) + f(ids[|ids| - 1])
  }

  ghost predicate Distinct(ids: seq<string>) {
    forall i, j | 0 <= i < j < |ids| :: ids[i] != ids[j]
  }

  lemma {:induction false} TotalAtMost(ids: seq<string>, f: string -> nat, g: string -> nat)
    requires forall id | id in ids :: f(id) <= g(id)
    ensures Total(ids, f) <= Total(ids, g)
  {
    if ids != [] {
      TotalAtMost(ids[..|ids| - 1], f, g);
    }
  }

  lemma {:induction false} TotalBound(ids: seq<string>, f: string -> nat, bound: nat)
    requires forall id | id in ids :: f(id) <= bound
    ensures Total(ids, f) <= |ids| * bound
  {
    if ids != [] {
      TotalBound(ids[..|ids| - 1], f, bound);
      assert |ids| * bound == (|ids| - 1) * bound + bound;
    }
  }

  /** One term of a sum changes. */
  lemma {:induction false} TotalMoved(ids: seq<string>, f: string -> nat, g: string -> nat, id: string)
    requires Distinct(ids) && id in ids
    requires forall other | other in ids && other != id :: f(other) == g(other)
    ensures Total(ids, g) + f(id) == Total(ids, f) + g(id)
  {
    var n := |ids| - 1;
    if ids[n] == id {
      assert id !in ids[..n];
      TotalAtMost(ids[..n], f, g);
      TotalAtMost(ids[..n], g, f);
    } else {
      assert ids == ids[..n] + [ids[n]];
      TotalMoved(ids[..n], f, g, id);
    }
  }

  lemma TotalPush(ids: seq<string>, f: string -> nat, g: string -> nat, id: string)
    requires forall other | other in ids :: f(other) == g(other)
    ensures Total(ids + [id], g) == Total(ids, f) + g(id)
  {
    assert (ids + [id])[..|ids|] == ids;
    TotalAtMost(ids, f, g);
    TotalAtMost(ids, g, f);
  }

  // ------------------------------------------------------------------ the measure

  /** Twice the attempts a live task has left, and one more while it is held. */
  function Weight(c: Config, r: SyncResult): nat {
    if Terminal(r.state) || r.attempts > c.maxRetries + 1 then 0
    else 2 * (c.maxRetries + 1 - r.attempts) + if r.state == InProgress then 1 else 0
  }

  function Weights(c: Config, results: map<string, SyncResult>): string -> nat {
    id => if id in results then Weight(c, results[id]) else 0
  }

  function Measure(c: Config, s: State): nat {
    Total(s.accepted, Weights(c, s.sh.results))
  }

  /** The step takes, completes or requeues a task. */
  predicate Works(e: Effect) {
    e.Take? || e.Settle? || e.PutBack?
  }

  /** The task such a step works on. */
  ghost function WorkedOn(s: State, e: Effect): string
    requires Works(e) && At(s, e.i)
    requires e.Take? ==> e.k < |Queue(s.sh, s.workers[e.i].large)|
    requires !e.Take? ==> Holding(s.workers[e.i].phase)
  {
    if e.Take? then Queue(s.sh, s.workers[e.i].large)[e.k].id else s.workers[e.i].phase.item.id
  }

  lemma TakeLowers(w: World, s: State, s': State, i: nat, k: nat)
    requires BudgetFits(w.config) && Conserved(s) && AttemptsOk(w.config, s) && TakeShown(s, s', i, k)
    ensures var id := Queue(s.sh, s.workers[i].large)[k].id;
            Weight(w.config, s'.sh.results[id]) < Weight(w.config, s.sh.results[id])
  {
    QueuedItem(s, s.workers[i].large, k);
    assert AttemptsFit(w.config, s.sh.results[Queue(s.sh, s.workers[i].large)[k].id]);
  }

  lemma ReleaseLowers(w: World, s: State, s': State, i: nat, r: SyncResult)
    requires Conserved(s) && AttemptsOk(w.config, s)
    requires SettleShown(w, s, s', i, r) || PutBackShown(w, s, s', i, r)
    ensures Weight(w.config, r) < Weight(w.config, s.sh.results[s.workers[i].phase.item.id])
  {
    HeldItem(s, i);
    assert AttemptsFit(w.config, s.sh.results[s.workers[i].phase.item.id]);
  }

  lemma WorkLowers(w: World, s: State, s': State, e: Effect)
    requires BudgetFits(w.config) && Conserved(s) && AttemptsOk(w.config, s) && Shows(w, s, s', e) && Works(e)
    ensures var id := WorkedOn(s, e);
            && id in s.sh.results && id in s'.sh.results && s'.sh.results == s.sh.results[id := s'.sh.results[id]]
            && Weight(w.config, s'.sh.results[id]) < Weight(w.config, s.sh.results[id])
  {
    match e
    case Take(i, k) => TakeLowers(w, s, s', i, k);
    case Settle(i, r) => ReleaseLowers(w, s, s', i, r);
    case PutBack(i, r) => ReleaseLowers(w, s, s', i, r);
  }

  lemma MeasureWork(w: World, s: State, s': State, e: Effect)
    requires BudgetFits(w.config) && Conserved(s) && AttemptsOk(w.config, s) && Shows(w, s, s', e) && Works(e)
    requires Listed(s) && s'.accepted == s.accepted
    ensures Measure(w.config, s') < Measure(w.config, s)
  {
    WorkLowers(w, s, s', e);
    TotalMoved(s.accepted, Weights(w.config, s.sh.results), Weights(w.config, s'.sh.results), WorkedOn(s, e));
  }

  lemma MeasureAccept(w: World, s: State, s': State, e: Effect)
    requires Shows(w, s, s', e) && e.Accept? && Listed(s) && s'.accepted == s.accepted + [e.task.id]
    ensures Measure(w.config, s') == Measure(w.config, s) + 2 * (w.config.maxRetries + 1)
  {
    TotalPush(s.accepted, Weights(w.config, s.sh.results), Weights(w.config, s'.sh.results), e.task.id);
  }

  lemma MeasureOther(w: World, s: State, s': State, e: Effect)
    requires Shows(w, s, s', e) && !e.Accept? && !Works(e) && !e.Crash?
    requires Listed(s) && s'.accepted == s.accepted
    ensures Measure(w.config, s') <= Measure(w.config, s)
    ensures s'.sh.results == s.sh.results ==> Measure(w.config, s') == Measure(w.config, s)
  {
    TotalAtMost(s.accepted, Weights(w.config, s'.sh.results), Weights(w.config, s.sh.results));
  }

  /** Every take, completion and requeue lowers the measure, an acceptance adds
      2 (max_retries + 1) to it, and no other step raises it. */
  lemma MeasureStep(w: World, s: State, a: Action, s': State)
    requires BudgetFits(w.config) && Sound(w, s, a, s') && Step(w, s, a, s') && Listed(s)
    ensures var e := EffectOf(w, s, a);
            var gain := if e.Accept? then 2 * (w.config.maxRetries + 1) else 0;
            Measure(w.config, s') + (if Works(e) then 1 else 0) <= Measure(w.config, s) + gain
  {
    AcceptedStep(w, s, a, s');
    assert Look(0);
    var e := EffectOf(w, s, a);
    if Works(e) {
      MeasureWork(w, s, s', e);
    } else if e.Accept? {
      MeasureAccept(w, s, s', e);
    } else {
      MeasureOther(w, s, s', e);
    }
  }

  // ------------------------------------------------------------------ how much work a run can hold

  /** The step is a take, a completion or a requeue, as its action shows it. */
  ghost predicate WorkDone(a: Action, s': State) {
    || (a.Seek? && At(s', a.w) && s'.workers[a.w].phase.Taken?)
    || ((a.Conclude? || a.Requeue?) && At(s', a.w) && s'.workers[a.w].phase.Reporting?)
  }

  ghost function WorkSteps(ss: seq<State>, acts: seq<Action>, n: nat): nat
    requires n <= |acts| < |ss|
  {
    if n == 0 then 0 else WorkSteps(ss, acts, n - 1) + if WorkDone(acts[n - 1], ss[n]) then 1 else 0
  }

  lemma WorkEffect(w: World, s: State, a: Action, s': State)
    requires Sound(w, s, a, s') && Step(w, s, a, s') && WorkDone(a, s')
    ensures Works(EffectOf(w, s, a))
  {
    if a.Seek? {
      TakeEffect(w, s, a, s');
    } else {
      assert Inspect(0);
      assert Known(s, a.w) by {
        assert Look(0);
        HeldItem(s, a.w);
      }
      RetryMovesOn(w, s, a.w);
    }
  }

  lemma RetryMovesOn(w: World, s: State, i: nat)
    ensures ConcludeEnabled(s, i) && GoesBack(w, s.workers[i].phase) ==>
              At(ConcludeStep(w, s, i), i) && !ConcludeStep(w, s, i).workers[i].phase.Reporting?
  {
  }

  lemma WorkStep(w: World, s: State, a: Action, s': State)
    requires BudgetFits(w.config) && Sound(w, s, a, s') && Step(w, s, a, s') && Listed(s)
    ensures s'.accepted == s.accepted || |s'.accepted| == |s.accepted| + 1
    ensures Measure(w.config, s') + (if WorkDone(a, s') then 1 else 0)
         <= Measure(w.config, s) + if s'.accepted == s.accepted then 0 else 2 * (w.config.maxRetries + 1)
  {
    MeasureStep(w, s, a, s');
    AcceptedStep(w, s, a, s');
    if WorkDone(a, s') {
      WorkEffect(w, s, a, s');
    }
  }

  /** The takes, completions and requeues of a whole run, and what is left to do,
      never exceed 2 (max_retries + 1) for each accepted task. */
  lemma {:induction false} WorkBounded(w: World, ss: seq<State>, acts: seq<Action>, n: nat)
    requires IsRun(w, ss, acts) && n < |ss| && BudgetFits(w.config)
    ensures WorkSteps(ss, acts, n) + Measure(w.config, ss[n]) <= 2 * (w.config.maxRetries + 1) * |ss[n].accepted|
  {
    if n > 0 {
      WorkBounded(w, ss, acts, n - 1);
      WorkNext(w, ss, acts, n - 1, WorkSteps(ss, acts, n - 1));
    }
  }

  lemma WorkNext(w: World, ss: seq<State>, acts: seq<Action>, k: nat, done: nat)
    requires IsRun(w, ss, acts) && k < |acts| && BudgetFits(w.config)
    requires done + Measure(w.config, ss[k]) <= 2 * (w.config.maxRetries + 1) * |ss[k].accepted|
    ensures done + (if WorkDone(acts[k], ss[k + 1]) then 1 else 0) + Measure(w.config, ss[k + 1])
         <= 2 * (w.config.maxRetries + 1) * |ss[k + 1].accepted|
  {
    SoundRun(w, ss, acts, k);
    ListedRun(w, ss, acts, k);
    WorkStep(w, ss[k], acts[k], ss[k + 1]);
    OneTimes(2 * (w.config.maxRetries + 1), |ss[k].accepted|);
  }

  lemma OneTimes(k: nat, x: nat)
    ensures k * (x + 1) == k * x + k
  {
  }

  // ------------------------------------------------------------------ attempts are takes

  function AttemptsIn(results: map<string, SyncResult>): string -> nat {
    id => if id in results then results[id].attempts else 0
  }

  lemma AttemptsStep(w: World, s: State, a: Action, s': State, id: string)
    requires Sound(w, s, a, s')
    ensures AttemptsIn(s'.sh.results)(id)
         == (AttemptsIn(s.sh.results)(id) + if TakesTask(a, s', id) then 1 else 0) % U32_LIMIT
    ensures BudgetFits(w.config) ==>
              AttemptsIn(s'.sh.results)(id) == AttemptsIn(s.sh.results)(id) + if TakesTask(a, s', id) then 1 else 0
  {
    if TakesTask(a, s', id) {
      TakeFacts(w, s, a, s', id);
    } else {
      AttemptsKept(w, s, a, s', id);
    }
  }

  lemma AttemptsKept(w: World, s: State, a: Action, s': State, id: string)
    requires Sound(w, s, a, s') && !TakesTask(a, s', id)
    ensures AttemptsIn(s'.sh.results)(id) == AttemptsIn(s.sh.results)(id)
  {
    TakeEffect(w, s, a, s');
    assert Look(0);
    if id in s.sh.results {
      OtherFacts(w, s, s', EffectOf(w, s, a), id);
    } else {
      UnknownKept(w, s, s', EffectOf(w, s, a), id);
    }
  }

  lemma UnknownKept(w: World, s: State, s': State, e: Effect, id: string)
    requires Conserved(s) && Shows(w, s, s', e) && !e.Crash? && id !in s.sh.results
    ensures AttemptsIn(s'.sh.results)(id) == 0
  {
  }

  /** The attempts stored for a task are the times it was taken, modulo 2^32, and
      exactly so when the budget fits. */
  lemma {:induction false} AttemptsAreTakes(w: World, ss: seq<State>, acts: seq<Action>, id: string, n: nat)
    requires IsRun(w, ss, acts) && n < |ss|
    ensures AttemptsIn(ss[n].sh.results)(id) == TakesOf(ss, acts, id, 0, n) % U32_LIMIT
    ensures BudgetFits(w.config) ==> AttemptsIn(ss[n].sh.results)(id) == TakesOf(ss, acts, id, 0, n)
  {
    if n > 0 {
      AttemptsAreTakes(w, ss, acts, id, n - 1);
      AttemptsNext(w, ss, acts, id, n - 1, TakesOf(ss, acts, id, 0, n - 1));
    }
  }

  lemma AttemptsNext(w: World, ss: seq<State>, acts: seq<Action>, id: string, k: nat, takes: nat)
    requires IsRun(w, ss, acts) && k < |acts|
    requires AttemptsIn(ss[k].sh.results)(id) == takes % U32_LIMIT
    requires BudgetFits(w.config) ==> AttemptsIn(ss[k].sh.results)(id) == takes
    ensures var takes' := takes + if TakesTask(acts[k], ss[k + 1], id) then 1 else 0;
            && AttemptsIn(ss[k + 1].sh.results)(id) == takes' % U32_LIMIT
            && (BudgetFits(w.config) ==> AttemptsIn(ss[k + 1].sh.results)(id) == takes')
  {
    SoundRun(w, ss, acts, k);
    AttemptsStep(w, ss[k], acts[k], ss[k + 1], id);
    Wrapped(takes, if TakesTask(acts[k], ss[k + 1], id) then 1 else 0);
  }

  lemma Wrapped(x: nat, y: nat)
    ensures (x % U32_LIMIT + y) % U32_LIMIT == (x + y) % U32_LIMIT
  {
  }

  /** A task is taken at most max_retries + 1 times. */
  lemma TakesOfTask(w: World, ss: seq<State>, acts: seq<Action>, id: string, n: nat)
    requires IsRun(w, ss, acts) && n < |ss| && BudgetFits(w.config)
    ensures TakesOf(ss, acts, id, 0, n) <= w.config.maxRetries + 1
  {
    AttemptsAreTakes(w, ss, acts, id, n);
    TasksRun(w, ss, acts, n);
    if id in ss[n].sh.results {
      assert AttemptsFit(w.config, ss[n].sh.results[id]);
    }
  }

  lemma TotalAttemptsStep(w: World, s: State, a: Action, s': State)
    requires BudgetFits(w.config) && Sound(w, s, a, s') && Step(w, s, a, s') && Listed(s)
    ensures Total(s'.accepted, AttemptsIn(s'.sh.results))
         == Total(s.accepted, AttemptsIn(s.sh.results)) + TakenHere(a, s', false) + TakenHere(a, s', true)
  {
    AcceptedStep(w, s, a, s');
    forall id: string
      ensures AttemptsIn(s'.sh.results)(id) == AttemptsIn(s.sh.results)(id) + if TakesTask(a, s', id) then 1 else 0
    {
      AttemptsStep(w, s, a, s', id);
    }
    if TakesFrom(a, s', false) || TakesFrom(a, s', true) {
      TakeFacts(w, s, a, s', s'.workers[a.w].phase.item.id);
    } else if EffectOf(w, s, a).Accept? {
      NewHasNone(w, s, a, s');
    }
    TotalAttempts(s, a, s');
  }

  lemma TotalAttempts(s: State, a: Action, s': State)
    requires Distinct(s.accepted)
    requires forall id: string ::
               AttemptsIn(s'.sh.results)(id) == AttemptsIn(s.sh.results)(id) + if TakesTask(a, s', id) then 1 else 0
    requires if TakesFrom(a, s', false) || TakesFrom(a, s', true)
             then s'.accepted == s.accepted && s'.workers[a.w].phase.item.id in s.accepted
             else s'.accepted == s.accepted
                  || exists id :: s'.accepted == s.accepted + [id] && AttemptsIn(s'.sh.results)(id) == 0
    ensures Total(s'.accepted, AttemptsIn(s'.sh.results))
         == Total(s.accepted, AttemptsIn(s.sh.results)) + TakenHere(a, s', false) + TakenHere(a, s', true)
  {
    var f, g := AttemptsIn(s.sh.results), AttemptsIn(s'.sh.results);
    if TakesFrom(a, s', false) || TakesFrom(a, s', true) {
      TotalMoved(s.accepted, f, g, s'.workers[a.w].phase.item.id);
    } else if s'.accepted == s.accepted {
      TotalAtMost(s.accepted, f, g);
      TotalAtMost(s.accepted, g, f);
    } else {
      var id :| s'.accepted == s.accepted + [id] && AttemptsIn(s'.sh.results)(id) == 0;
      TotalPush(s.accepted, f, g, id);
    }
  }

  ghost function TakenHere(a: Action, s': State, large: bool): nat {
    if TakesFrom(a, s', large) then 1 else 0
  }

  lemma NewHasNone(w: World, s: State, a: Action, s': State)
    requires Sound(w, s, a, s') && EffectOf(w, s, a).Accept?
    ensures AttemptsIn(s'.sh.results)(EffectOf(w, s, a).task.id) == 0
  {
    assert Look(0);
  }

  /** All takes of a run, from both queues, are the attempts of its tasks. */
  lemma {:induction false} TakesAreAttempts(w: World, ss: seq<State>, acts: seq<Action>, n: nat)
    requires IsRun(w, ss, acts) && n < |ss| && BudgetFits(w.config)
    ensures Takes(ss, acts, false, 0, n) + Takes(ss, acts, true, 0, n)
         == Total(ss[n].accepted, AttemptsIn(ss[n].sh.results))
  {
    if n > 0 {
      TakesAreAttempts(w, ss, acts, n - 1);
      SoundRun(w, ss, acts, n - 1);
      ListedRun(w, ss, acts, n - 1);
      TotalAttemptsStep(w, ss[n - 1], acts[n - 1], ss[n]);
    }
  }

  /** n accepted tasks cause at most n (max_retries + 1) takes. */
  lemma TakesBounded(w: World, ss: seq<State>, acts: seq<Action>, n: nat)
    requires IsRun(w, ss, acts) && n < |ss| && BudgetFits(w.config)
    ensures Takes(ss, acts, false, 0, n) + Takes(ss, acts, true, 0, n) <= |ss[n].accepted| * (w.config.maxRetries + 1)
  {
    TakesAreAttempts(w, ss, acts, n);
    TasksRun(w, ss, acts, n);
    ListedRun(w, ss, acts, n);
    var s := ss[n];
    forall id | id in s.accepted ensures AttemptsIn(s.sh.results)(id) <= w.config.maxRetries + 1 {
      assert AttemptsFit(w.config, s.sh.results[id]);
    }
    TotalBound(s.accepted, AttemptsIn(s.sh.results), w.config.maxRetries + 1);
  }

  // ------------------------------------------------------------------ a finer measure

  /** How far a worker is from letting its task go. */
  function Stage(p: Phase): nat {
    match p
    case Taken(_) => 12
    case Working(_, _, _) => 11
    case Fetching(_, _, _, place) => 2 + Downloads.OpsLeft(place)
    case Finished(_, _, _, _) => 1
    case _ => 0
  }

  /** The sum of a rank over all workers. */
  function Ranks(workers: seq<Worker>, rank: Phase -> nat): nat {
    if workers == [] then 0
    else Ranks(workers[..|workers| - 1], rank) + rank(workers[|workers| - 1].phase)
  }

  lemma {:induction false} RanksMoved(before: seq<Worker>, after: seq<Worker>, rank: Phase -> nat, i: nat)
    requires |after| == |before| && i < |before|
    requires forall j | 0 <= j < |before| && j != i :: rank(after[j].phase) <= rank(before[j].phase)
    ensures Ranks(after, rank) + rank(before[i].phase) <= Ranks(before, rank) + rank(after[i].phase)
  {
    var n := |before| - 1;
    if i == n {
      RanksFall(before[..n], after[..n], rank);
    } else {
      RanksMoved(before[..n], after[..n], rank, i);
    }
  }

  lemma {:induction false} RanksFall(before: seq<Worker>, after: seq<Worker>, rank: Phase -> nat)
    requires |after| == |before|
    requires forall j | 0 <= j < |before| :: rank(after[j].phase) <= rank(before[j].phase)
    ensures Ranks(after, rank) <= Ranks(before, rank)
  {
    if before != [] {
      RanksFall(before[..|before| - 1], after[..|before| - 1], rank);
    }
  }

  lemma {:induction false} RanksAtMost(workers: seq<Worker>, rank: Phase -> nat, bound: nat)
    requires forall j | 0 <= j < |workers| :: rank(workers[j].phase) <= bound
    ensures Ranks(workers, rank) <= bound * |workers|
  {
    if workers != [] {
      RanksAtMost(workers[..|workers| - 1], rank, bound);
      OneTimes(bound, |workers| - 1);
    }
  }

  function Stages(workers: seq<Worker>): nat {
    Ranks(workers, Stage)
  }

  function Fine(c: Config, s: State): nat {
    13 * Measure(c, s) + Stages(s.workers)
  }

  /** The step brings a task nearer to its end: a take, or a step of a worker that holds a task. */
  ghost predicate Advances(a: Action, s': State) {
    || (a.Seek? && At(s', a.w) && s'.workers[a.w].phase.Taken?)
    || a.Read? || a.Transfer? || a.Fetch? || a.Conclude? || a.Requeue?
  }

  /** What a worker's own step does to its stage. */
  ghost predicate StageChange(a: Action, before: Phase, after: Phase) {
    match a
    case Seek(_) => Stage(before) == 0 && Stage(after) == if after.Taken? then 12 else 0
    case Read(_) => Stage(before) == 12 && Stage(after) == if after == Crashed then 0 else 11
    case Transfer(_, _) => Stage(before) == 11 && Stage(after) <= 10
    case Fetch(_, _) => Stage(after) < Stage(before)
    case Conclude(_) => Stage(before) == 1 && Stage(after) == 0
    case _ => Stage(before) == 0 && Stage(after) == 0
  }

  ghost predicate StagesChange(s: State, a: Action, s': State)
    requires ByWorker(a)
  {
    && |s'.workers| == |s.workers| && At(s, a.w)
    && (forall j | 0 <= j < |s.workers| && j != a.w :: Stage(s'.workers[j].phase) == Stage(s.workers[j].phase))
    && StageChange(a, s.workers[a.w].phase, s'.workers[a.w].phase)
  }

  lemma RetryStages(w: World, s: State, i: nat)
    requires ConcludeEnabled(s, i) && GoesBack(w, s.workers[i].phase)
    ensures StagesChange(s, Conclude(i), ConcludeStep(w, s, i))
  {
  }

  lemma SettleStages(w: World, s: State, i: nat)
    requires ConcludeEnabled(s, i) && !GoesBack(w, s.workers[i].phase)
    ensures StagesChange(s, Conclude(i), ConcludeStep(w, s, i))
  {
  }

  lemma SeekStages(s: State, i: nat)
    requires SeekEnabled(s, i)
    ensures StagesChange(s, Seek(i), SeekStep(s, i))
  {
  }

  lemma RequeueStages(w: World, s: State, i: nat)
    requires RequeueEnabled(s, i)
    ensures StagesChange(s, Requeue(i), RequeueStep(w, s, i))
  {
  }

  lemma DeliverStages(s: State, i: nat)
    requires DeliverEnabled(s, i)
    ensures StagesChange(s, Deliver(i), DeliverStep(s, i))
  {
  }

  lemma TransferStages(s: State, i: nat, env: Env)
    requires TransferEnabled(s, i, env)
    ensures StagesChange(s, Transfer(i, env), TransferStep(s, i, env))
  {
  }

  lemma FetchStages(w: World, s: State, i: nat, op: Downloads.Op)
    requires FetchEnabled(s, i)
    ensures StagesChange(s, Fetch(i, op), FetchStep(w, s, i, op))
  {
  }

  lemma StepStages(w: World, s: State, a: Action, s': State)
    requires Step(w, s, a, s') && ByWorker(a)
    ensures StagesChange(s, a, s')
  {
    match a
    case Seek(i) => IsSeek(w, s, i, s'); SeekStages(s, i);
    case WakeUp(i) => IsWakeUp(w, s, i, s');
    case Read(i) => IsRead(w, s, i, s');
    case Transfer(i, env) => IsTransfer(w, s, i, env, s'); TransferStages(s, i, env);
    case Fetch(i, op) => IsFetch(w, s, i, op, s'); FetchStages(w, s, i, op);
    case Conclude(i) =>
      IsConclude(w, s, i, s');
      if GoesBack(w, s.workers[i].phase) {
        RetryStages(w, s, i);
      } else {
        SettleStages(w, s, i);
      }
    case Requeue(i) => IsRequeue(w, s, i, s'); RequeueStages(w, s, i);
    case Deliver(i) => IsDeliver(w, s, i, s'); DeliverStages(s, i);
  }

  /** A requeue step always puts its task down. */
  lemma RequeueWorks(w: World, s: State, a: Action, s': State)
    requires Sound(w, s, a, s') && Step(w, s, a, s') && a.Requeue?
    ensures WorkDone(a, s')
  {
    assert Inspect(0);
    assert Known(s, a.w) by {
      assert Look(0);
      HeldItem(s, a.w);
    }
    RequeueShows(w, s, a.w, s');
  }

  lemma NoneCrashed(w: World, s: State, a: Action, s': State)
    requires Sound(w, s, a, s') && ByWorker(a) && At(s', a.w)
    ensures s'.workers[a.w].phase != Crashed
  {
    assert Staffed(w.config, s'.workers) by {
      assert Look(0);
    }
  }

  /** Every step on a held task, and every take, lowers the finer measure, and no
      step of a worker raises it. */
  lemma FineStep(w: World, s: State, a: Action, s': State)
    requires BudgetFits(w.config) && Sound(w, s, a, s') && Step(w, s, a, s') && Listed(s) && ByWorker(a)
    ensures Fine(w.config, s') <= Fine(w.config, s)
    ensures Advances(a, s') ==> Fine(w.config, s') < Fine(w.config, s)
  {
    MeasureFalls(w, s, a, s');
    StagesFall(w, s, a, s');
    if a.Requeue? {
      RequeueWorks(w, s, a, s');
    }
  }

  lemma MeasureFalls(w: World, s: State, a: Action, s': State)
    requires BudgetFits(w.config) && Sound(w, s, a, s') && Step(w, s, a, s') && Listed(s) && ByWorker(a)
    ensures Measure(w.config, s') + (if WorkDone(a, s') then 1 else 0) <= Measure(w.config, s)
  {
    MeasureStep(w, s, a, s');
    if WorkDone(a, s') {
      WorkEffect(w, s, a, s');
    }
  }

  lemma StagesFall(w: World, s: State, a: Action, s': State)
    requires Sound(w, s, a, s') && Step(w, s, a, s') && ByWorker(a)
    ensures Stages(s'.workers)
         <= Stages(s.workers) + if TakesFrom(a, s', false) || TakesFrom(a, s', true) then 12 else 0
    ensures a.Read? || a.Transfer? || a.Fetch? || a.Conclude? ==> Stages(s'.workers) < Stages(s.workers)
  {
    StepStages(w, s, a, s');
    NoneCrashed(w, s, a, s');
    RanksMoved(s.workers, s'.workers, Stage, a.w);
  }

  // ------------------------------------------------------------------ the finer measure over runs

  /** Steps of other threads do not raise the stages. */
  lemma StagesElsewhere(w: World, s: State, a: Action, s': State)
    requires Step(w, s, a, s') && !ByWorker(a) && Lifecycle(w.config, s)
    ensures Stages(s'.workers) <= Stages(s.workers)
  {
    if a.Start? || a.StopJoin? {
      NoStages(w, s, a, s');
      RanksAtMost(s'.workers, Stage, 0);
    } else {
      SameStages(w, s, a, s');
      RanksFall(s.workers, s'.workers, Stage);
    }
  }

  lemma NoStages(w: World, s: State, a: Action, s': State)
    requires Step(w, s, a, s') && (a.Start? || a.StopJoin?)
    ensures forall j | 0 <= j < |s'.workers| :: Stage(s'.workers[j].phase) == 0
  {
    assert Inspect(0);
  }

  lemma SameStages(w: World, s: State, a: Action, s': State)
    requires Step(w, s, a, s') && !ByWorker(a) && !a.Start? && !a.StopJoin?
    ensures |s'.workers| == |s.workers|
    ensures forall j | 0 <= j < |s.workers| :: Stage(s'.workers[j].phase) == Stage(s.workers[j].phase)
  {
    assert Inspect(0);
  }

  /** What one acceptance adds to the finer measure. */
  function PerTask(c: Config): nat {
    26 * (c.maxRetries + 1)
  }

  /** No step but an acceptance raises the finer measure, and every step that
      advances a task lowers it. */
  lemma FineAnyStep(w: World, s: State, a: Action, s': State)
    requires BudgetFits(w.config) && Sound(w, s, a, s') && Step(w, s, a, s') && Listed(s)
    ensures |s'.accepted| >= |s.accepted|
    ensures Fine(w.config, s') + (if Advances(a, s') then 1 else 0)
         <= Fine(w.config, s) + PerTask(w.config) * (|s'.accepted| - |s.accepted|)
  {
    WorkStep(w, s, a, s');
    OneTimes(PerTask(w.config), 0);
    if ByWorker(a) {
      FineStep(w, s, a, s');
      AcceptedStep(w, s, a, s');
    } else {
      assert Lifecycle(w.config, s) by {
        assert Look(0);
      }
      StagesElsewhere(w, s, a, s');
    }
  }

  ghost function AdvanceSteps(ss: seq<State>, acts: seq<Action>, m: nat, n: nat): nat
    requires m <= n <= |acts| < |ss|
  {
    if m == n then 0 else AdvanceSteps(ss, acts, m, n - 1) + if Advances(acts[n - 1], ss[n]) then 1 else 0
  }

  lemma FineNext(w: World, ss: seq<State>, acts: seq<Action>, k: nat)
    requires IsRun(w, ss, acts) && k < |acts| && BudgetFits(w.config)
    ensures |ss[k + 1].accepted| >= |ss[k].accepted|
    ensures Fine(w.config, ss[k + 1]) + (if Advances(acts[k], ss[k + 1]) then 1 else 0)
         <= Fine(w.config, ss[k]) + PerTask(w.config) * (|ss[k + 1].accepted| - |ss[k].accepted|)
  {
    SoundRun(w, ss, acts, k);
    ListedRun(w, ss, acts, k);
    FineAnyStep(w, ss[k], acts[k], ss[k + 1]);
  }

  /** Between two points of a run, the steps that advance tasks, and what is left,
      are no more than what was left, and a fixed amount for each task accepted
      meanwhile; without an acceptance, at most `Fine` of the first state. */
  lemma {:induction false} AdvancesBounded(w: World, ss: seq<State>, acts: seq<Action>, m: nat, n: nat)
    requires IsRun(w, ss, acts) && m <= n < |ss| && BudgetFits(w.config)
    ensures |ss[n].accepted| >= |ss[m].accepted|
    ensures AdvanceSteps(ss, acts, m, n) + Fine(w.config, ss[n])
         <= Fine(w.config, ss[m]) + PerTask(w.config) * (|ss[n].accepted| - |ss[m].accepted|)
    decreases n
  {
    if m < n {
      AdvancesBounded(w, ss, acts, m, n - 1);
      FineNext(w, ss, acts, n - 1);
      Telescope(PerTask(w.config), |ss[m].accepted|, |ss[n - 1].accepted|, |ss[n].accepted|);
    }
  }

  lemma Telescope(k: nat, x: nat, y: nat, z: nat)
    ensures k * (z - y) + k * (y - x) == k * (z - x)
  {
  }
}

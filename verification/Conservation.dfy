/** Conservation: in every reachable state each live task is in exactly one place. */
module Conservation {
  import opened SyncTypes
  import opened SyncCore
  import opened Protocol
  import opened Effects

  // ------------------------------------------------------------------ where ids are

  function Ids(q: seq<QueueItem>): seq<string> {
    seq(|q|, i requires 0 <= i < |q| => q[i].id)
  }

  /** The ids in the two queues, with multiplicity. */
  function Queued(sh: Shared): multiset<string> {
    multiset(Ids(sh.small)) + multiset(Ids(sh.large))
  }

  function Hands(workers: seq<Worker>): seq<Option<string>> {
    seq(|workers|, i requires 0 <= i < |workers| => HeldBy(workers[i]))
  }

  /** What the workers hold, with multiplicity. */
  function Held(workers: seq<Worker>): multiset<Option<string>> {
    multiset(Hands(workers))
  }

  function QueueSlot(r: SyncResult): nat {
    if Queueable(r.state) then 1 else 0
  }

  function WorkerSlot(r: SyncResult): nat {
    if r.state == InProgress then 1 else 0
  }

  /** Marks an id about which the balance is needed; it says nothing else. */
  ghost predicate Of(id: string) {
    true
  }

  ghost predicate Balanced(queued: multiset<string>, held: multiset<Option<string>>, results: map<string, SyncResult>) {
    forall id: string {:trigger Of(id)} ::
      Of(id) ==>
        && queued[id] == (if id in results then QueueSlot(results[id]) else 0)
        && held[Some(id)] == (if id in results then WorkerSlot(results[id]) else 0)
  }

  /** A task is Pending or Retry iff its id is in exactly one slot of the two
      queues, and InProgress iff exactly one worker holds it; ids that were never
      accepted are nowhere; and `active_tasks_` counts the workers that hold an item. */
  ghost predicate Conserved(s: State) {
    && Balanced(Queued(s.sh), Held(s.workers), s.sh.results)
    && s.sh.active + Held(s.workers)[None] == |s.workers|
  }

  /** Which threads there are, and what the flags say about them. */
  ghost predicate Lifecycle(c: Config, s: State) {
    && (s.sh.started ==> s.control == Ready && !s.sh.stopping)
    && (s.control != Ready ==> s.sh.stopping)
    && (!s.sh.started ==> QueuesEmpty(s.sh))
    && (s.control == Ready && !s.sh.started ==> s.workers == [] && s.monitor == NoMonitor)
    && (s.sh.started || s.control != Ready ==>
          |s.workers| == c.smallFileWorkers + c.largeFileWorkers && s.monitor != NoMonitor)
  }

  /** The first workers serve the small queue, the others the large one, and
      `results_.at` has never missed. */
  ghost predicate Staffed(c: Config, workers: seq<Worker>) {
    forall i | 0 <= i < |workers| ::
      workers[i].large == (i >= c.smallFileWorkers) && workers[i].phase != Crashed
  }

  ghost predicate Basic(c: Config, s: State) {
    Conserved(s) && Lifecycle(c, s) && Staffed(c, s.workers)
  }

  // ------------------------------------------------------------------ multisets of ids

  lemma BalancedUpdate(queued: multiset<string>, held: multiset<Option<string>>, results: map<string, SyncResult>,
                       queued': multiset<string>, held': multiset<Option<string>>, id: string, r: SyncResult)
    requires Balanced(queued, held, results)
    requires queued' == queued[id := QueueSlot(r)]
    requires forall other: string {:trigger Of(other)} :: Of(other) ==>
               held'[Some(other)] == if other == id then WorkerSlot(r) else held[Some(other)]
    ensures Balanced(queued', held', results[id := r])
  {
  }

  lemma PutOne(m: multiset<string>, id: string)
    requires m[id] == 0
    ensures m + multiset{id} == m[id := 1]
  {
  }

  lemma DropOne(m: multiset<string>, id: string)
    requires m[id] == 1
    ensures m - multiset{id} == m[id := 0]
  {
  }

  lemma IdsAppend(q: seq<QueueItem>, item: QueueItem)
    ensures multiset(Ids(q + [item])) == multiset(Ids(q)) + multiset{item.id}
  {
    assert Ids(q + [item]) == Ids(q) + [item.id];
  }

  lemma IdsWithout(q: seq<QueueItem>, k: nat)
    requires k < |q|
    ensures multiset(Ids(q)) == multiset(Ids(Without(q, k))) + multiset{q[k].id}
  {
    assert Ids(q) == Ids(q[..k]) + [q[k].id] + Ids(q[k + 1..]);
    assert Ids(Without(q, k)) == Ids(q[..k]) + Ids(q[k + 1..]);
  }

  lemma QueuedPush(s: State, s': State, item: QueueItem)
    requires Pushed(s, s', item)
    ensures Queued(s'.sh) == Queued(s.sh) + multiset{item.id}
  {
    IdsAppend(Queue(s.sh, item.large), item);
  }

  lemma QueuedPop(s: State, s': State, large: bool, k: nat)
    requires Popped(s, s', large, k)
    ensures Queued(s'.sh) == Queued(s.sh) - multiset{Queue(s.sh, large)[k].id}
  {
    var q, id := Queue(s.sh, large), Queue(s.sh, large)[k].id;
    IdsWithout(q, k);
    MoveMinus(multiset(Ids(Without(q, k))), multiset(Ids(Queue(s.sh, !large))), id);
  }

  lemma MoveMinus(m: multiset<string>, n: multiset<string>, id: string)
    ensures m + multiset{id} + n - multiset{id} == m + n
    ensures n + (m + multiset{id}) - multiset{id} == n + m
  {
  }

  lemma HeldUpdate(workers: seq<Worker>, i: nat, worker: Worker)
    requires i < |workers|
    ensures Held(workers)[HeldBy(workers[i])] > 0
    ensures Held(workers[i := worker]) == Held(workers) - multiset{HeldBy(workers[i])} + multiset{HeldBy(worker)}
  {
    var hands := Hands(workers);
    assert hands[i] == HeldBy(workers[i]);
    assert hands[i] in multiset(hands);
    assert Hands(workers[i := worker]) == hands[i := HeldBy(worker)];
  }

  lemma {:induction false} AllNone(hands: seq<Option<string>>)
    requires forall i | 0 <= i < |hands| :: hands[i] == None
    ensures multiset(hands)[None] == |hands|
    ensures forall id: string :: multiset(hands)[Some(id)] == 0
  {
    if hands != [] {
      var n := |hands| - 1;
      AllNone(hands[..n]);
      assert hands == hands[..n] + [hands[n]];
    }
  }

  lemma HeldNone(workers: seq<Worker>)
    requires forall i | 0 <= i < |workers| :: !Holding(workers[i].phase)
    ensures Held(workers)[None] == |workers|
    ensures forall id: string :: Held(workers)[Some(id)] == 0
  {
    AllNone(Hands(workers));
  }

  lemma TwoCounts(held: multiset<Option<string>>, id: string)
    ensures held[None] + held[Some(id)] <= |held|
  {
    var rest := held[None := 0][Some(id) := 0];
    assert |rest| + held[Some(id)] + held[None] == |held|;
  }

  // ------------------------------------------------------------------ what conservation says of a place

  lemma QueuedItem(s: State, large: bool, k: nat)
    requires Conserved(s) && k < |Queue(s.sh, large)|
    ensures var id := Queue(s.sh, large)[k].id;
            id in s.sh.results && Queueable(s.sh.results[id].state)
  {
    var q := Queue(s.sh, large);
    assert Of(q[k].id) && Ids(q)[k] == q[k].id;
    assert q[k].id in multiset(Ids(q));
    assert Queued(s.sh)[q[k].id] > 0;
  }

  /** So the guard `if (active_tasks_ > 0)` never skips, and `results_.at` never misses. */
  lemma HeldItem(s: State, i: nat)
    requires Conserved(s) && At(s, i) && Holding(s.workers[i].phase)
    ensures var id := s.workers[i].phase.item.id;
            id in s.sh.results && s.sh.results[id].state == InProgress && s.sh.active > 0
  {
    var id := s.workers[i].phase.item.id;
    HeldUpdate(s.workers, i, s.workers[i].(phase := Exited));
    assert Of(id) && HeldBy(s.workers[i]) == Some(id);
    TwoCounts(Held(s.workers), id);
  }

  lemma HeldOnce(s: State, i: nat, j: nat)
    requires Conserved(s) && At(s, i) && At(s, j) && i != j
    requires Holding(s.workers[i].phase) && Holding(s.workers[j].phase)
    ensures s.workers[i].phase.item.id != s.workers[j].phase.item.id
  {
    var id := s.workers[i].phase.item.id;
    assert Of(id);
    if s.workers[j].phase.item.id == id {
      var others := s.workers[i := s.workers[i].(phase := Exited)];
      HeldUpdate(s.workers, i, others[i]);
      HeldUpdate(others, j, others[j]);
      assert false;
    }
  }

  // ------------------------------------------------------------------ every effect conserves

  /** Worker `i`, which held nothing, now holds `id`. */
  lemma HandTakes(s: State, s': State, i: nat, item: QueueItem)
    requires At(s, i) && s.workers[i].phase == Seeking && Moved(s, s', i, Taken(item))
    ensures |s'.workers| == |s.workers| && Held(s'.workers)[None] + 1 == Held(s.workers)[None]
    ensures forall other: string {:trigger Of(other)} :: Of(other) ==>
              Held(s'.workers)[Some(other)] == Held(s.workers)[Some(other)] + if other == item.id then 1 else 0
  {
    HeldUpdate(s.workers, i, s'.workers[i]);
  }

  lemma ConservedTake(s: State, s': State, i: nat, k: nat)
    requires Conserved(s) && TakeShown(s, s', i, k)
    ensures Conserved(s')
  {
    var large := s.workers[i].large;
    var item := Queue(s.sh, large)[k];
    assert Of(item.id);
    QueuedItem(s, large, k);
    QueuedPop(s, s', large, k);
    DropOne(Queued(s.sh), item.id);
    HandTakes(s, s', i, item);
    BalancedUpdate(Queued(s.sh), Held(s.workers), s.sh.results, Queued(s'.sh), Held(s'.workers),
                   item.id, s'.sh.results[item.id]);
  }

  /** Worker `i` lets go of its item, which is queued if its task is to be retried. */
  lemma ConservedRelease(s: State, s': State, i: nat, p: Phase, r: SyncResult)
    requires Conserved(s) && Known(s, i) && Moved(s, s', i, p) && !Holding(p)
    requires var id := s.workers[i].phase.item.id;
             && Stored(s, s', id, r) && r.state != InProgress
             && s'.sh.active == Released(s.sh.active)
             && Queued(s'.sh) == Queued(s.sh) + if Queueable(r.state) then multiset{id} else multiset{}
    ensures Conserved(s')
  {
    var id := s.workers[i].phase.item.id;
    assert Of(id);
    HeldItem(s, i);
    HeldUpdate(s.workers, i, s'.workers[i]);
    PutOne(Queued(s.sh), id);
    assert Queued(s.sh) == Queued(s.sh)[id := 0];
    BalancedUpdate(Queued(s.sh), Held(s.workers), s.sh.results, Queued(s'.sh), Held(s'.workers), id, r);
  }

  lemma ConservedAccept(s: State, s': State, task: SyncTask, large: bool)
    requires Conserved(s) && task.id !in s.sh.results && s'.workers == s.workers && s'.sh.active == s.sh.active
    requires Stored(s, s', task.id, Accepted(task)) && Pushed(s, s', QueueItem(task.id, large, s.now))
    ensures Conserved(s')
  {
    QueuedPush(s, s', QueueItem(task.id, large, s.now));
    assert Of(task.id);
    PutOne(Queued(s.sh), task.id);
    BalancedUpdate(Queued(s.sh), Held(s.workers), s.sh.results, Queued(s'.sh), Held(s'.workers),
                   task.id, Accepted(task));
  }

  lemma ConservedSameHands(s: State, s': State)
    requires Conserved(s) && SameHands(s, s') && s'.sh.active == s.sh.active
    requires (s'.sh.results == s.sh.results && SameQueues(s, s'))
          || (QueuesEmpty(s'.sh) && s'.sh.results.Keys == s.sh.results.Keys
              && forall id | id in s.sh.results ::
                   if Queueable(s.sh.results[id].state) then Terminal(s'.sh.results[id].state)
                   else s'.sh.results[id] == s.sh.results[id])
    ensures Conserved(s')
  {
    assert Hands(s'.workers) == Hands(s.workers);
    assert Ids([]) == [];
  }

  lemma ConservedEffect(w: World, s: State, s': State, e: Effect)
    requires Basic(w.config, s) && Shows(w, s, s', e) && !e.Crash?
    ensures Conserved(s')
  {
    match e
    case Accept(task, large) => ConservedAccept(s, s', task, large);
    case Take(i, k) => ConservedTake(s, s', i, k);
    case Settle(i, r) => ConservedRelease(s, s', i, s'.workers[i].phase, r);
    case PutBack(i, r) => ConservedPutBack(w, s, s', i, r);
    case Spawn => ConservedNewWorkers(s, s');
    case Join => ConservedNewWorkers(s, s');
    case _ => ConservedSameHands(s, s');
  }

  lemma ConservedPutBack(w: World, s: State, s': State, i: nat, r: SyncResult)
    requires Conserved(s) && PutBackShown(w, s, s', i, r)
    ensures Conserved(s')
  {
    if r.state == Retry {
      QueuedPush(s, s', s.workers[i].phase.item.(readyAt := s.now + w.config.retryDelay));
    }
    ConservedRelease(s, s', i, s'.workers[i].phase, r);
  }

  lemma ConservedNewWorkers(s: State, s': State)
    requires Conserved(s) && s'.sh.results == s.sh.results && SameQueues(s, s') && s'.sh.active == s.sh.active
    requires forall i | 0 <= i < |s.workers| :: !Holding(s.workers[i].phase)
    requires forall i | 0 <= i < |s'.workers| :: !Holding(s'.workers[i].phase)
    ensures Conserved(s')
  {
    HeldNone(s.workers);
    HeldNone(s'.workers);
  }

  lemma NoCrash(w: World, s: State, s': State, e: Effect)
    requires Conserved(s) && Shows(w, s, s', e)
    ensures !e.Crash?
  {
    if e.Crash? {
      if Holding(s.workers[e.i].phase) {
        HeldItem(s, e.i);
      } else {
        QueuedItem(s, s.workers[e.i].large, ReadyIndex(s, e.i));
      }
    }
  }

  lemma StaffedEffect(w: World, s: State, s': State, e: Effect)
    requires Staffed(w.config, s.workers) && Shows(w, s, s', e) && !e.Crash?
    ensures Staffed(w.config, s'.workers)
  {
  }

  // ------------------------------------------------------------------ flags and threads

  predicate ByControl(a: Action) {
    a.Start? || a.StopLock? || a.StopAnnounce? || a.StopNotify? || a.StopJoin?
  }

  /** The flags, and where control is, change only by `start` and `stop`. */
  ghost predicate SameFlags(s: State, s': State) {
    && s'.sh.started == s.sh.started && s'.sh.stopping == s.sh.stopping && s'.control == s.control
    && |s'.workers| == |s.workers| && (s'.monitor == NoMonitor <==> s.monitor == NoMonitor)
  }

  lemma FlagsStep(w: World, s: State, a: Action, s': State)
    requires Step(w, s, a, s') && !ByControl(a)
    ensures SameFlags(s, s')
  {
    if ByWorker(a) {
      WorkerKeeps(w, s, a, s');
    } else {
      assert Inspect(0);
    }
  }

  lemma QueuesStayEmpty(w: World, s: State, s': State, e: Effect)
    requires Lifecycle(w.config, s) && Shows(w, s, s', e) && !e.Crash? && !s.sh.started
    ensures QueuesEmpty(s'.sh)
  {
  }

  lemma LifecycleStep(w: World, s: State, a: Action, s': State)
    requires Lifecycle(w.config, s) && Step(w, s, a, s')
    requires !s.sh.started ==> QueuesEmpty(s'.sh)
    ensures Lifecycle(w.config, s')
  {
    assert Inspect(0);
    if !ByControl(a) {
      FlagsStep(w, s, a, s');
    }
  }

  // ------------------------------------------------------------------ every step, every run

  lemma BasicStep(w: World, s: State, a: Action, s': State)
    requires Basic(w.config, s) && Step(w, s, a, s')
    ensures Basic(w.config, s')
    ensures Shows(w, s, s', EffectOf(w, s, a)) && !EffectOf(w, s, a).Crash?
  {
    var e := EffectOf(w, s, a);
    StepShows(w, s, a, s');
    NoCrash(w, s, s', e);
    ConservedEffect(w, s, s', e);
    StaffedEffect(w, s, s', e);
    if !s.sh.started {
      QueuesStayEmpty(w, s, s', e);
    }
    LifecycleStep(w, s, a, s');
  }

  lemma BasicInit(c: Config, s: State)
    requires Init(s)
    ensures Basic(c, s)
  {
    assert Ids([]) == [] && Hands([]) == [];
  }

  lemma {:induction false} BasicRun(w: World, ss: seq<State>, acts: seq<Action>, n: nat)
    requires IsRun(w, ss, acts) && n < |ss|
    ensures Basic(w.config, ss[n])
  {
    if n == 0 {
      BasicInit(w.config, ss[0]);
    } else {
      BasicRun(w, ss, acts, n - 1);
      assert StepAt(w, ss, acts, n - 1);
      BasicStep(w, ss[n - 1], acts[n - 1], ss[n]);
    }
  }

  // ------------------------------------------------------------------ conservation, task by task

  /** How many workers hold an item. */
  function HoldingCount(workers: seq<Worker>): nat {
    if workers == [] then 0
    else HoldingCount(workers[..|workers| - 1]) + if Holding(workers[|workers| - 1].phase) then 1 else 0
  }

  lemma {:induction false} HoldingCounted(workers: seq<Worker>)
    ensures HoldingCount(workers) + Held(workers)[None] == |workers|
  {
    if workers != [] {
      var n := |workers| - 1;
      HoldingCounted(workers[..n]);
      assert Hands(workers) == Hands(workers[..n]) + [HeldBy(workers[n])];
    }
  }

  /** In every reachable state a task is Pending or Retry iff its id is in exactly
      one slot of the two queues, and InProgress iff exactly one worker holds it;
      other ids are in no place at all; `active_tasks_` is the number of workers
      that hold an item, and never zero while one does; and no `results_.at` has
      missed. */
  lemma TasksConserved(w: World, ss: seq<State>, acts: seq<Action>, n: nat, id: string)
    requires IsRun(w, ss, acts) && n < |ss|
    ensures var s := ss[n];
            && Queued(s.sh)[id] == (if id in s.sh.results && Queueable(s.sh.results[id].state) then 1 else 0)
            && Held(s.workers)[Some(id)] ==
               (if id in s.sh.results && s.sh.results[id].state == InProgress then 1 else 0)
            && s.sh.active == HoldingCount(s.workers)
            && (forall i | 0 <= i < |s.workers| :: Holding(s.workers[i].phase) ==> s.sh.active > 0)
            && (forall i | 0 <= i < |s.workers| :: s.workers[i].phase != Crashed)
  {
    BasicRun(w, ss, acts, n);
    assert Of(id);
    HoldingCounted(ss[n].workers);
    forall i | 0 <= i < |ss[n].workers| && Holding(ss[n].workers[i].phase) ensures ss[n].sh.active > 0 {
      HeldItem(ss[n], i);
    }
  }
}

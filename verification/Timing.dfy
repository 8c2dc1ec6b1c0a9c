/** Retry spacing and bounded overtaking, over whole runs. */
module Timing {
  import opened SyncTypes
  import opened SyncCore
  import opened Protocol
  import opened Effects
  import opened Conservation
  import opened TaskLife

  // ------------------------------------------------------------------ places

  /** Where an item of a queue comes from: it was there before, or is the one pushed. */
  ghost predicate ItemFrom(w: World, s: State, e: Effect, large: bool, item: QueueItem) {
    || item in Queue(s.sh, large)
    || (e.Accept? && item == QueueItem(e.task.id, e.large, s.now) && e.large == large)
    || (e.PutBack? && e.r.state == Retry && Known(s, e.i) && item.large == large
        && item == s.workers[e.i].phase.item.(readyAt := s.now + w.config.retryDelay))
  }

  lemma PoppedItems(s: State, s': State, popped: bool, k: nat, large: bool, j: nat)
    requires Popped(s, s', popped, k) && j < |Queue(s'.sh, large)|
    ensures Queue(s'.sh, large)[j] in Queue(s.sh, large)
  {
    if large == popped && j >= k {
      assert Queue(s'.sh, large)[j] == Queue(s.sh, large)[j + 1];
    }
  }

  lemma PushedItems(s: State, s': State, item: QueueItem, large: bool, j: nat)
    requires Pushed(s, s', item) && j < |Queue(s'.sh, large)|
    ensures Queue(s'.sh, large)[j] in Queue(s.sh, large) || (Queue(s'.sh, large)[j] == item && item.large == large)
  {
  }

  lemma ItemsEffect(w: World, s: State, s': State, e: Effect, large: bool, k: nat)
    requires Shows(w, s, s', e) && !e.Crash? && k < |Queue(s'.sh, large)|
    ensures ItemFrom(w, s, e, large, Queue(s'.sh, large)[k])
  {
    match e
    case Accept(task, l) => PushedItems(s, s', QueueItem(task.id, l, s.now), large, k);
    case Take(i, taken) => PoppedItems(s, s', s.workers[i].large, taken, large, k);
    case PutBack(i, r) =>
      if r.state == Retry {
        PushedItems(s, s', s.workers[i].phase.item.(readyAt := s.now + w.config.retryDelay), large, k);
      }
    case _ =>
  }

  /** The step is a worker's take from the queue of a class. */
  ghost predicate TakesFrom(a: Action, s': State, large: bool) {
    a.Seek? && At(s', a.w) && s'.workers[a.w].large == large && s'.workers[a.w].phase.Taken?
  }

  /** The step is a worker's take of task `id`. */
  ghost predicate TakesTask(a: Action, s': State, id: string) {
    a.Seek? && At(s', a.w) && s'.workers[a.w].phase.Taken? && s'.workers[a.w].phase.item.id == id
  }

  /** A take, seen in the action and in the effect. */
  ghost predicate TakeSeen(s: State, a: Action, s': State, e: Effect) {
    && (e.Take? <==> a.Seek? && At(s', a.w) && s'.workers[a.w].phase.Taken?)
    && (e.Take? ==>
          && e.i == a.w && TakeShown(s, s', e.i, e.k) && s'.workers[e.i].large == s.workers[e.i].large
          && s'.workers[e.i].phase.item == Queue(s.sh, s.workers[e.i].large)[e.k])
  }

  lemma SeekSeen(w: World, s: State, i: nat, s': State)
    requires SeekEnabled(s, i) && Shows(w, s, s', EffectOf(w, s, Seek(i))) && !EffectOf(w, s, Seek(i)).Crash?
    ensures TakeSeen(s, Seek(i), s', EffectOf(w, s, Seek(i)))
  {
  }

  lemma TakeEffect(w: World, s: State, a: Action, s': State)
    requires Sound(w, s, a, s')
    ensures TakeSeen(s, a, s', EffectOf(w, s, a))
  {
    if a.Seek? {
      assert SeekEnabled(s, a.w) && Shows(w, s, s', EffectOf(w, s, a)) && !EffectOf(w, s, a).Crash? by {
        assert Look(0);
      }
      SeekSeen(w, s, a.w, s');
    }
  }

  // ------------------------------------------------------------------ retry spacing

  /** While queued, `id` is not ready before `ready`; while held, it is `since` or later. */
  ghost predicate NotBefore(s: State, id: string, ready: int, since: int) {
    && id in s.sh.results
    && (forall large: bool, k: nat | k < |Queue(s.sh, large)| ::
          Queue(s.sh, large)[k].id == id ==> ready <= Queue(s.sh, large)[k].readyAt)
    && (s.sh.results[id].state == InProgress ==> since <= s.now)
  }

  /** `id` has been taken `takes` times since `from`, and is a full delay later for
      each of them, or will be when it is ready. */
  ghost predicate Spaced(delay: nat, s: State, id: string, from: int, takes: nat) {
    NotBefore(s, id, from + takes * delay, from + (takes - 1) * delay)
  }

  lemma OneMore(takes: nat, delay: nat)
    ensures (takes - 1) * delay + delay == takes * delay
    ensures (takes + 1 - 1) * delay == takes * delay
  {
  }

  lemma NotQueuedOnceTaken(s: State, s': State, i: nat, k: nat, ready: int)
    requires Conserved(s') && TakeShown(s, s', i, k)
    ensures NotBefore(s', Queue(s.sh, s.workers[i].large)[k].id, ready, s'.now)
  {
    var id := Queue(s.sh, s.workers[i].large)[k].id;
    forall large: bool, m: nat | m < |Queue(s'.sh, large)|
      ensures Queue(s'.sh, large)[m].id != id
    {
      QueuedItem(s', large, m);
    }
  }

  lemma SpacedTake(w: World, s: State, s': State, i: nat, k: nat, id: string, from: int, takes: nat)
    requires Conserved(s') && Spaced(w.config.retryDelay, s, id, from, takes)
    requires TakeShown(s, s', i, k) && s'.now == s.now && Queue(s.sh, s.workers[i].large)[k].id == id
    ensures Spaced(w.config.retryDelay, s', id, from, takes + 1)
  {
    OneMore(takes, w.config.retryDelay);
    NotQueuedOnceTaken(s, s', i, k, from + (takes + 1) * w.config.retryDelay);
  }

  lemma NotBeforeOther(w: World, s: State, s': State, e: Effect, id: string, ready: int, since: int)
    requires Conserved(s) && Shows(w, s, s', e) && !e.Crash? && s.now <= s'.now
    requires NotBefore(s, id, ready, since) && ready == since + w.config.retryDelay
    requires e.Take? ==> Queue(s.sh, s.workers[e.i].large)[e.k].id != id
    requires s.sh.results[id].state != InProgress ==> s'.sh.results[id].state != InProgress
    requires e.PutBack? && HeldBy(s.workers[e.i]) == Some(id) ==> s.sh.results[id].state == InProgress
    ensures NotBefore(s', id, ready, since)
  {
    forall large: bool, k: nat | k < |Queue(s'.sh, large)|
      ensures Queue(s'.sh, large)[k].id == id ==> ready <= Queue(s'.sh, large)[k].readyAt
    {
      ItemsEffect(w, s, s', e, large, k);
    }
  }

  lemma OtherFacts(w: World, s: State, s': State, e: Effect, id: string)
    requires Conserved(s) && Shows(w, s, s', e) && !e.Crash? && id in s.sh.results
    requires e.Take? ==> Queue(s.sh, s.workers[e.i].large)[e.k].id != id
    ensures id in s'.sh.results && s'.sh.results[id].attempts == s.sh.results[id].attempts
    ensures s.sh.results[id].state != InProgress ==> s'.sh.results[id].state != InProgress
    ensures e.PutBack? && HeldBy(s.workers[e.i]) == Some(id) ==> s.sh.results[id].state == InProgress
  {
    EffectOnTask(w, s, s', e, id);
  }

  lemma SpacedOther(w: World, s: State, s': State, e: Effect, id: string, from: int, takes: nat)
    requires Conserved(s) && Shows(w, s, s', e) && !e.Crash? && s.now <= s'.now
    requires Spaced(w.config.retryDelay, s, id, from, takes)
    requires e.Take? ==> Queue(s.sh, s.workers[e.i].large)[e.k].id != id
    ensures Spaced(w.config.retryDelay, s', id, from, takes)
  {
    OtherFacts(w, s, s', e, id);
    OneMore(takes, w.config.retryDelay);
    NotBeforeOther(w, s, s', e, id, from + takes * w.config.retryDelay, from + (takes - 1) * w.config.retryDelay);
  }

  lemma SpacedTakeStep(w: World, s: State, a: Action, s': State, id: string, from: int, takes: nat)
    requires Sound(w, s, a, s') && TakesTask(a, s', id)
    requires Spaced(w.config.retryDelay, s, id, from, takes)
    ensures Spaced(w.config.retryDelay, s', id, from, takes + 1)
  {
    TakeFacts(w, s, a, s', id);
    var e := EffectOf(w, s, a);
    SpacedTake(w, s, s', e.i, e.k, id, from, takes);
  }

  /** A take finds its task queued and ready, with attempts left. */
  lemma TakeFacts(w: World, s: State, a: Action, s': State, id: string)
    requires Sound(w, s, a, s') && TakesTask(a, s', id)
    ensures var e := EffectOf(w, s, a);
            e.Take? && TakeShown(s, s', e.i, e.k) && Queue(s.sh, s.workers[e.i].large)[e.k].id == id
    ensures s'.now == s.now
    ensures Conserved(s')
    ensures id in s.sh.results && Queueable(s.sh.results[id].state)
    ensures BudgetFits(w.config) ==> s.sh.results[id].attempts + 1 < U32_LIMIT
  {
    assert Look(0);
    TakeEffect(w, s, a, s');
    var e := EffectOf(w, s, a);
    QueuedItem(s, s.workers[e.i].large, e.k);
    if BudgetFits(w.config) {
      assert AttemptsFit(w.config, s.sh.results[id]);
    }
  }

  lemma SpacedOtherStep(w: World, s: State, a: Action, s': State, id: string, from: int, takes: nat)
    requires Sound(w, s, a, s') && !TakesTask(a, s', id)
    requires Spaced(w.config.retryDelay, s, id, from, takes)
    ensures Spaced(w.config.retryDelay, s', id, from, takes)
  {
    assert Look(0);
    TakeEffect(w, s, a, s');
    SpacedOther(w, s, s', EffectOf(w, s, a), id, from, takes);
  }

  /** How many of the steps from `m` to `n` take task `id`. */
  ghost function TakesOf(ss: seq<State>, acts: seq<Action>, id: string, m: nat, n: nat): nat
    requires m <= n <= |acts| < |ss|
  {
    if m == n then 0
    else TakesOf(ss, acts, id, m, n - 1) + if TakesTask(acts[n - 1], ss[n], id) then 1 else 0
  }

  lemma SpacedNext(w: World, ss: seq<State>, acts: seq<Action>, k: nat, id: string, from: int, takes: nat)
    requires IsRun(w, ss, acts) && k < |acts| && Spaced(w.config.retryDelay, ss[k], id, from, takes)
    ensures Spaced(w.config.retryDelay, ss[k + 1], id, from, takes + if TakesTask(acts[k], ss[k + 1], id) then 1 else 0)
  {
    SoundRun(w, ss, acts, k);
    if TakesTask(acts[k], ss[k + 1], id) {
      SpacedTakeStep(w, ss[k], acts[k], ss[k + 1], id, from, takes);
    } else {
      SpacedOtherStep(w, ss[k], acts[k], ss[k + 1], id, from, takes);
    }
  }

  lemma {:induction false} SpacedRun(w: World, ss: seq<State>, acts: seq<Action>, m: nat, n: nat,
                                     id: string, from: int, takes: nat)
    requires IsRun(w, ss, acts) && m <= n < |ss|
    requires Spaced(w.config.retryDelay, ss[m], id, from, takes)
    ensures Spaced(w.config.retryDelay, ss[n], id, from, takes + TakesOf(ss, acts, id, m, n))
    decreases n
  {
    if m < n {
      SpacedRun(w, ss, acts, m, n - 1, id, from, takes);
      SpacedNext(w, ss, acts, n - 1, id, from, takes + TakesOf(ss, acts, id, m, n - 1));
    }
  }

  lemma TakenWhenReady(w: World, s: State, a: Action, s': State, id: string, from: int, takes: nat)
    requires Sound(w, s, a, s') && TakesTask(a, s', id)
    requires Spaced(w.config.retryDelay, s, id, from, takes)
    ensures from + takes * w.config.retryDelay <= s.now
  {
    TakeFacts(w, s, a, s', id);
  }

  /** The k-th take of a task comes no earlier than (k - 1) delays after the task
      was accepted. */
  lemma AttemptAfterAcceptance(w: World, ss: seq<State>, acts: seq<Action>, m: nat, n: nat, id: string)
    requires IsRun(w, ss, acts) && m < n < |acts|
    requires acts[m].Enqueue? && acts[m].task.id == id && Accepts(ss[m].sh, id)
    requires TakesTask(acts[n], ss[n + 1], id)
    ensures ss[m].now + TakesOf(ss, acts, id, m + 1, n) * w.config.retryDelay <= ss[n].now
  {
    SoundRun(w, ss, acts, m);
    AcceptedSpaced(w, ss[m], acts[m], ss[m + 1], id);
    SpacedRun(w, ss, acts, m + 1, n, id, ss[m].now, 0);
    SoundRun(w, ss, acts, n);
    TakenWhenReady(w, ss[n], acts[n], ss[n + 1], id, ss[m].now, TakesOf(ss, acts, id, m + 1, n));
  }

  lemma AcceptedSpaced(w: World, s: State, a: Action, s': State, id: string)
    requires Sound(w, s, a, s') && a.Enqueue? && a.task.id == id && Accepts(s.sh, id)
    ensures Spaced(w.config.retryDelay, s', id, s.now, 0)
  {
    assert Look(0);
    var e := EffectOf(w, s, a);
    forall large: bool, k: nat | k < |Queue(s'.sh, large)| && Queue(s'.sh, large)[k].id == id
      ensures s.now <= Queue(s'.sh, large)[k].readyAt
    {
      NewItem(w, s, s', e, large, k);
    }
  }

  /** The only item of a task just accepted is ready at once. */
  lemma NewItem(w: World, s: State, s': State, e: Effect, large: bool, k: nat)
    requires Conserved(s) && Shows(w, s, s', e) && e.Accept?
    requires k < |Queue(s'.sh, large)| && Queue(s'.sh, large)[k].id == e.task.id
    ensures Queue(s'.sh, large)[k].readyAt == s.now
  {
    if k < |Queue(s.sh, large)| {
      QueuedItem(s, large, k);
    }
  }

  /** Two takes of a task are at least one delay apart, and one more for each take
      between them. */
  lemma AttemptsSpaced(w: World, ss: seq<State>, acts: seq<Action>, m: nat, n: nat, id: string)
    requires IsRun(w, ss, acts) && m < n < |acts|
    requires TakesTask(acts[m], ss[m + 1], id) && TakesTask(acts[n], ss[n + 1], id)
    ensures ss[m].now + (1 + TakesOf(ss, acts, id, m + 1, n)) * w.config.retryDelay <= ss[n].now
  {
    SoundRun(w, ss, acts, m);
    TakenSpaced(w, ss[m], acts[m], ss[m + 1], id);
    SpacedRun(w, ss, acts, m + 1, n, id, ss[m].now, 1);
    SoundRun(w, ss, acts, n);
    TakenWhenReady(w, ss[n], acts[n], ss[n + 1], id, ss[m].now, 1 + TakesOf(ss, acts, id, m + 1, n));
  }

  lemma TakenSpaced(w: World, s: State, a: Action, s': State, id: string)
    requires Sound(w, s, a, s') && TakesTask(a, s', id)
    ensures Spaced(w.config.retryDelay, s', id, s.now, 1)
  {
    TakeFacts(w, s, a, s', id);
    var e := EffectOf(w, s, a);
    NotQueuedOnceTaken(s, s', e.i, e.k, s.now + 1 * w.config.retryDelay);
  }

  // ------------------------------------------------------------------ bounded overtaking

  /** How many of the steps from `m` to `n` take an item from a queue. */
  ghost function Takes(ss: seq<State>, acts: seq<Action>, large: bool, m: nat, n: nat): nat
    requires m <= n <= |acts| < |ss|
  {
    if m == n then 0
    else Takes(ss, acts, large, m, n - 1) + if TakesFrom(acts[n - 1], ss[n], large) then 1 else 0
  }

  /** `item` stands at position `p`, and is ready. */
  ghost predicate ReadyAt(s: State, large: bool, item: QueueItem, p: nat) {
    p < |Queue(s.sh, large)| && Queue(s.sh, large)[p] == item && item.readyAt <= s.now
  }

  /** The first ready item is not behind another. */
  lemma FirstOrBefore(q: seq<QueueItem>, now: int, p: nat)
    requires p < |q| && q[p].readyAt <= now
    ensures FirstReady(q, now) <= p
  {
  }

  lemma MovesUp(q: seq<QueueItem>, k: nat, p: nat)
    requires k < p < |q|
    ensures p - 1 < |Without(q, k)| && Without(q, k)[p - 1] == q[p]
  {
  }

  /** The item taken is not in its queue any more. */
  lemma TakenIsGone(s: State, s': State, i: nat, k: nat)
    requires Conserved(s') && TakeShown(s, s', i, k)
    ensures Queue(s.sh, s.workers[i].large)[k] !in Queue(s'.sh, s.workers[i].large)
  {
    var large := s.workers[i].large;
    var item := Queue(s.sh, large)[k];
    forall j: nat | j < |Queue(s'.sh, large)| ensures Queue(s'.sh, large)[j] != item {
      QueuedItem(s', large, j);
    }
  }

  /** A take moves up a ready item that stays in the queue. */
  lemma PlaceTake(s: State, s': State, i: nat, k: nat, item: QueueItem, p: nat)
    requires Conserved(s') && TakeShown(s, s', i, k) && s'.now == s.now
    requires ReadyAt(s, s.workers[i].large, item, p) && item in Queue(s'.sh, s.workers[i].large)
    ensures p > 0 && ReadyAt(s', s.workers[i].large, item, p - 1)
  {
    var q := Queue(s.sh, s.workers[i].large);
    FirstOrBefore(q, s.now, p);
    TakenIsGone(s, s', i, k);
    MovesUp(q, k, p);
  }

  lemma PlaceOther(w: World, s: State, s': State, e: Effect, large: bool, item: QueueItem, p: nat)
    requires Shows(w, s, s', e) && !e.Crash? && s.now <= s'.now
    requires e.Take? ==> s.workers[e.i].large != large
    requires ReadyAt(s, large, item, p) && item in Queue(s'.sh, large)
    ensures ReadyAt(s', large, item, p)
  {
  }

  /** A step keeps the place of a ready item that stays in its queue, but for a
      take, which must be of an item before it. */
  lemma PlaceStep(w: World, s: State, a: Action, s': State, large: bool, item: QueueItem, p: nat)
    requires Sound(w, s, a, s')
    requires ReadyAt(s, large, item, p) && item in Queue(s'.sh, large)
    ensures TakesFrom(a, s', large) ==> p > 0
    ensures ReadyAt(s', large, item, if TakesFrom(a, s', large) then p - 1 else p)
  {
    assert Look(0);
    TakeEffect(w, s, a, s');
    var e := EffectOf(w, s, a);
    if TakesFrom(a, s', large) {
      PlaceTake(s, s', e.i, e.k, item, p);
    } else {
      PlaceOther(w, s, s', e, large, item, p);
    }
  }

  /** A ready item that stays in its queue moves up by one place for each take
      from that queue, and by nothing else: an item at position p is overtaken by
      at most p others, whatever is enqueued or put back meanwhile. */
  lemma {:induction false} BoundedOvertaking(w: World, ss: seq<State>, acts: seq<Action>, large: bool,
                                             item: QueueItem, p: nat, m: nat, n: nat)
    requires IsRun(w, ss, acts) && m <= n < |ss|
    requires ReadyAt(ss[m], large, item, p)
    requires forall k | m <= k <= n :: item in Queue(ss[k].sh, large)
    ensures Takes(ss, acts, large, m, n) <= p
    ensures ReadyAt(ss[n], large, item, p - Takes(ss, acts, large, m, n))
    decreases n - m
  {
    if m < n {
      BoundedOvertaking(w, ss, acts, large, item, p, m, n - 1);
      PlaceNext(w, ss, acts, n - 1, large, item, p - Takes(ss, acts, large, m, n - 1));
    }
  }

  lemma PlaceNext(w: World, ss: seq<State>, acts: seq<Action>, k: nat, large: bool, item: QueueItem, p: nat)
    requires IsRun(w, ss, acts) && k < |acts|
    requires ReadyAt(ss[k], large, item, p) && item in Queue(ss[k + 1].sh, large)
    ensures TakesFrom(acts[k], ss[k + 1], large) ==> p > 0
    ensures ReadyAt(ss[k + 1], large, item, if TakesFrom(acts[k], ss[k + 1], large) then p - 1 else p)
  {
    SoundRun(w, ss, acts, k);
    PlaceStep(w, ss[k], acts[k], ss[k + 1], large, item, p);
  }

  lemma EffectKeeps(w: World, s: State, s': State, e: Effect, large: bool, p: nat)
    requires Shows(w, s, s', e) && !e.Crash? && !e.CancelAll? && !e.FailAll? && p < |Queue(s.sh, large)|
    requires !(e.Take? && s.workers[e.i].large == large && e.k == p)
    ensures Queue(s.sh, large)[p] in Queue(s'.sh, large)
  {
    if e.Take? && s.workers[e.i].large == large {
      assert Queue(s'.sh, large)[if p < e.k then p else p - 1] == Queue(s.sh, large)[p];
    } else {
      assert Queue(s'.sh, large)[p] == Queue(s.sh, large)[p];
    }
  }

  /** An item leaves its queue only by being taken, or when both queues are
      cleared by `stop` or by the step into Error. */
  lemma LeavesByTakeOrSweep(w: World, s: State, a: Action, s': State, large: bool, p: nat)
    requires Sound(w, s, a, s') && p < |Queue(s.sh, large)|
    ensures || Queue(s.sh, large)[p] in Queue(s'.sh, large)
            || (TakesFrom(a, s', large) && s'.workers[a.w].phase.item == Queue(s.sh, large)[p])
            || ((a.StopLock? || a.Probe?) && QueuesEmpty(s'.sh))
  {
    TakeEffect(w, s, a, s');
    var e := EffectOf(w, s, a);
    assert Shows(w, s, s', e) && !e.Crash? by {
      assert Look(0);
    }
    LeavesEffect(w, s, s', e, large, p);
  }

  lemma LeavesEffect(w: World, s: State, s': State, e: Effect, large: bool, p: nat)
    requires Shows(w, s, s', e) && !e.Crash? && p < |Queue(s.sh, large)|
    ensures || Queue(s.sh, large)[p] in Queue(s'.sh, large)
            || (e.Take? && s.workers[e.i].large == large && e.k == p)
            || ((e.CancelAll? || e.FailAll?) && QueuesEmpty(s'.sh))
  {
    if !e.CancelAll? && !e.FailAll? && !(e.Take? && s.workers[e.i].large == large && e.k == p) {
      EffectKeeps(w, s, s', e, large, p);
    }
  }
}

/** The snapshots handed to the result callback: their order per task, and their
    delivery. */
module Callbacks {
  import opened SyncTypes
  import opened SyncCore
  import opened Protocol
  import opened Effects
  import opened Conservation
  import opened TaskLife

  // ------------------------------------------------------------------ histories

  function SnapshotIn(p: Phase): seq<SyncResult> {
    if p.Reporting? && p.snapshot.Some? then [p.snapshot.value] else []
  }

  /** The snapshots copied under the lock by an action. */
  ghost function Emits(a: Action, s': State): seq<SyncResult> {
    match a
    case Conclude(i) => if At(s', i) then SnapshotIn(s'.workers[i].phase) else []
    case Requeue(i) => if At(s', i) then SnapshotIn(s'.workers[i].phase) else []
    case Probe(_, _) => if s'.monitor.Announcing? then s'.monitor.pending else []
    case _ => []
  }

  /** The snapshots passed to the callback by an action. */
  ghost function Delivers(s: State, a: Action): seq<SyncResult> {
    match a
    case Deliver(i) => if At(s, i) then SnapshotIn(s.workers[i].phase) else []
    case Announce => if s.monitor.Announcing? && s.monitor.pending != [] then [s.monitor.pending[0]] else []
    case _ => []
  }

  /** `parts(0)` to `parts(n - 1)` in a row. */
  ghost function Gather(parts: nat -> seq<SyncResult>, n: nat): seq<SyncResult> {
    if n == 0 then [] else Gather(parts, n - 1) + parts(n - 1)
  }

  ghost function EmitsAt(ss: seq<State>, acts: seq<Action>): nat -> seq<SyncResult> {
    (k: nat) => if k < |acts| < |ss| then Emits(acts[k], ss[k + 1]) else []
  }

  ghost function DeliversAt(ss: seq<State>, acts: seq<Action>): nat -> seq<SyncResult> {
    (k: nat) => if k < |acts| < |ss| then Delivers(ss[k], acts[k]) else []
  }

  /** The snapshots copied in the first `n` steps. */
  ghost function Emitted(ss: seq<State>, acts: seq<Action>, n: nat): seq<SyncResult> {
    Gather(EmitsAt(ss, acts), n)
  }

  /** Those passed to the callback. */
  ghost function Delivered(ss: seq<State>, acts: seq<Action>, n: nat): seq<SyncResult> {
    Gather(DeliversAt(ss, acts), n)
  }

  function OfTask(rs: seq<SyncResult>, id: string): seq<SyncResult> {
    if rs == [] then []
    else OfTask(rs[..|rs| - 1], id) + if rs[|rs| - 1].task.id == id then [rs[|rs| - 1]] else []
  }

  lemma {:induction false} OfTaskConcat(rs: seq<SyncResult>, more: seq<SyncResult>, id: string)
    ensures OfTask(rs + more, id) == OfTask(rs, id) + OfTask(more, id)
    decreases |more|
  {
    if more == [] {
      assert rs + more == rs;
    } else {
      var n := |more| - 1;
      assert (rs + more)[..|rs| + n] == rs + more[..n];
      OfTaskConcat(rs, more[..n], id);
    }
  }

  // ------------------------------------------------------------------ the snapshots of one task

  ghost predicate Keyed(s: State) {
    forall id | id in s.sh.results :: s.sh.results[id].task.id == id
  }

  lemma KeyedEffect(w: World, s: State, s': State, e: Effect)
    requires Conserved(s) && Keyed(s) && Shows(w, s, s', e) && !e.Crash?
    ensures Keyed(s')
  {
    forall id | id in s'.sh.results ensures s'.sh.results[id].task.id == id {
      if id in s.sh.results {
        EffectOnTask(w, s, s', e, id);
      }
    }
  }

  /** What a step tells about one task. */
  ghost function Told(s: State, e: Effect, s': State, id: string): seq<SyncResult> {
    if !s.sh.callback || id !in s.sh.results || id !in s'.sh.results then []
    else
      match e
      case Settle(i, _) => if At(s, i) && HeldBy(s.workers[i]) == Some(id) then [s'.sh.results[id]] else []
      case PutBack(i, _) => if At(s, i) && HeldBy(s.workers[i]) == Some(id) then [s'.sh.results[id]] else []
      case FailAll => if Queueable(s.sh.results[id].state) then [s'.sh.results[id]] else []
      case _ => []
  }

  lemma OfOne(r: SyncResult, id: string)
    ensures OfTask([r], id) == if r.task.id == id then [r] else []
  {
    assert [r][..0] == [];
  }

  ghost predicate Distinct(order: seq<string>) {
    forall i, j | 0 <= i < j < |order| :: order[i] != order[j]
  }

  lemma DistinctSnoc(order: seq<string>, last: string)
    requires Distinct(order + [last])
    ensures Distinct(order) && last !in order
  {
    var all := order + [last];
    forall i, j | 0 <= i < j < |order| ensures order[i] != order[j] {
      assert all[i] != all[j];
    }
    forall i | 0 <= i < |order| ensures order[i] != last {
      assert all[i] != all[|order|];
    }
  }

  lemma {:induction false} OfListing(results: map<string, SyncResult>, order: seq<string>, id: string)
    requires forall i | 0 <= i < |order| :: order[i] in results && results[order[i]].task.id == order[i]
    requires Distinct(order)
    ensures OfTask(SnapshotsOf(results, order), id) == if id in order then [results[id]] else []
  {
    if order == [] {
      assert SnapshotsOf(results, order) == [];
    } else {
      var front, last := order[..|order| - 1], order[|order| - 1];
      assert order == front + [last];
      assert results[last].task.id == last;
      DistinctSnoc(front, last);
      OfListing(results, front, id);
      ListingSnoc(results, front, last, id);
    }
  }

  lemma ListingSnoc(results: map<string, SyncResult>, order: seq<string>, last: string, id: string)
    requires last in results && forall i | 0 <= i < |order| :: order[i] in results
    ensures forall i | 0 <= i <= |order| :: (order + [last])[i] in results
    ensures OfTask(SnapshotsOf(results, order + [last]), id)
         == OfTask(SnapshotsOf(results, order), id) + if results[last].task.id == id then [results[last]] else []
  {
    assert SnapshotsOf(results, order + [last]) == SnapshotsOf(results, order) + [results[last]];
    OfTaskConcat(SnapshotsOf(results, order), [results[last]], id);
    OfOne(results[last], id);
  }

  lemma SnapshotOf(p: Phase, id: string)
    ensures OfTask(SnapshotIn(p), id)
         == if p.Reporting? && p.snapshot.Some? && p.snapshot.value.task.id == id then [p.snapshot.value] else []
  {
    if p.Reporting? && p.snapshot.Some? {
      OfOne(p.snapshot.value, id);
    }
  }

  /** What a worker holds for the callback once it has released its task. */
  lemma ReleasedSnapshot(w: World, s: State, s': State, i: nat, r: SyncResult)
    requires Keyed(s) && s'.sh.callback == s.sh.callback
    requires SettleShown(w, s, s', i, r) || PutBackShown(w, s, s', i, r)
    ensures At(s', i) && s'.workers[i].phase.Reporting?
    ensures s'.workers[i].phase.snapshot == if s.sh.callback then Some(r) else None
    ensures Known(s, i) && r.task.id == s.workers[i].phase.item.id
    ensures s'.sh.results == s.sh.results[s.workers[i].phase.item.id := r]
  {
  }

  lemma ReleaseEmits(w: World, s: State, s': State, i: nat, r: SyncResult, id: string)
    requires Keyed(s) && s'.sh.callback == s.sh.callback
    requires SettleShown(w, s, s', i, r) || PutBackShown(w, s, s', i, r)
    ensures At(s', i)
    ensures OfTask(SnapshotIn(s'.workers[i].phase), id)
         == if s.sh.callback && HeldBy(s.workers[i]) == Some(id) then [s'.sh.results[id]] else []
  {
    ReleasedSnapshot(w, s, s', i, r);
    SnapshotOf(s'.workers[i].phase, id);
  }

  /** What a health check leaves for the callback. */
  lemma ProbeLeaves(w: World, s: State, connected: bool, order: seq<string>, s': State)
    requires Step(w, s, Probe(connected, order), s')
    ensures s'.monitor.Announcing?
    ensures forall i | 0 <= i < |order| :: order[i] in s'.sh.results
    ensures s'.monitor.pending == if s.sh.callback then SnapshotsOf(s'.sh.results, order) else []
    ensures EffectOf(w, s, Probe(connected, order)).FailAll? || EffectOf(w, s, Probe(connected, order)).Quiet?
    ensures IsListing(order, if EffectOf(w, s, Probe(connected, order)).FailAll? then Swept(s.sh.results) else {})
    ensures EffectOf(w, s, Probe(connected, order)).FailAll? ==> s'.sh.results == Failing(s.sh.results, w.message)
  {
    assert Inspect(0);
  }

  lemma ProbeEmits(w: World, s: State, connected: bool, order: seq<string>, s': State, id: string)
    requires Keyed(s) && Step(w, s, Probe(connected, order), s')
    ensures OfTask(Emits(Probe(connected, order), s'), id)
         == Told(s, EffectOf(w, s, Probe(connected, order)), s', id)
  {
    ProbeLeaves(w, s, connected, order, s');
    if s.sh.callback {
      if EffectOf(w, s, Probe(connected, order)).FailAll? {
        SweepTells(w, s, s', order, id);
      } else {
        FirstListed(order, {});
      }
    }
  }

  lemma SweepTells(w: World, s: State, s': State, order: seq<string>, id: string)
    requires Keyed(s) && s'.sh.results == Failing(s.sh.results, w.message) && s.sh.callback
    requires IsListing(order, Swept(s.sh.results)) && forall i | 0 <= i < |order| :: order[i] in s'.sh.results
    ensures OfTask(SnapshotsOf(s'.sh.results, order), id) == Told(s, FailAll, s', id)
  {
    OfListing(s'.sh.results, order, id);
  }

  lemma ConcludeEmits(w: World, s: State, i: nat, s': State, id: string)
    requires Conserved(s) && Keyed(s) && Step(w, s, Conclude(i), s')
    ensures OfTask(Emits(Conclude(i), s'), id) == Told(s, EffectOf(w, s, Conclude(i)), s', id)
  {
    assert Inspect(0);
    HeldItem(s, i);
    ConcludeFrame(w, s, i);
    BackEmitsNothing(w, s, i);
    if !GoesBack(w, s.workers[i].phase) {
      ConcludeShows(w, s, i, s');
      ReleaseEmits(w, s, s', i, EffectOf(w, s, Conclude(i)).r, id);
    }
  }

  lemma BackEmitsNothing(w: World, s: State, i: nat)
    requires ConcludeEnabled(s, i)
    ensures GoesBack(w, s.workers[i].phase) && At(ConcludeStep(w, s, i), i) ==>
              SnapshotIn(ConcludeStep(w, s, i).workers[i].phase) == []
  {
  }

  lemma RequeueEmits(w: World, s: State, i: nat, s': State, id: string)
    requires Conserved(s) && Keyed(s) && Step(w, s, Requeue(i), s')
    ensures OfTask(Emits(Requeue(i), s'), id) == Told(s, EffectOf(w, s, Requeue(i)), s', id)
  {
    assert Inspect(0);
    HeldItem(s, i);
    RequeueShows(w, s, i, s');
    ReleaseEmits(w, s, s', i, EffectOf(w, s, Requeue(i)).r, id);
  }

  lemma StepEmits(w: World, s: State, a: Action, s': State, id: string)
    requires Conserved(s) && Keyed(s) && Step(w, s, a, s')
    ensures OfTask(Emits(a, s'), id) == Told(s, EffectOf(w, s, a), s', id)
  {
    match a
    case Conclude(i) => ConcludeEmits(w, s, i, s', id);
    case Requeue(i) => RequeueEmits(w, s, i, s', id);
    case Probe(connected, order) => ProbeEmits(w, s, connected, order, s', id);
    case _ =>
  }

  // ------------------------------------------------------------------ Retry*, then at most one terminal

  /** The k-th snapshot says Retry after k attempts. */
  ghost predicate AllRetries(h: seq<SyncResult>) {
    forall k | 0 <= k < |h| :: h[k].state == Retry && h[k].attempts == k + 1
  }

  ghost predicate EndsWith(h: seq<SyncResult>, r: SyncResult) {
    h != [] && AllRetries(h[..|h| - 1]) && h[|h| - 1] == r
  }

  /** What has been told about a task, by the state it is in. A task that fails
      after it was put back has one Retry more than one that fails in a worker's
      hands. A task that `stop` cancels in a queue (`swept`) is told nothing of it;
      one that is cancelled in a worker's hands is told so last. */
  ghost predicate ToldFits(r: SyncResult, h: seq<SyncResult>, swept: bool) {
    && (swept ==> r.state == Cancelled)
    && match r.state
       case Pending => h == []
       case Retry => AllRetries(h) && |h| == r.attempts
       case InProgress => AllRetries(h) && |h| + 1 == r.attempts
       case Completed => EndsWith(h, r) && |h| == r.attempts
       case Failed => EndsWith(h, r) && (|h| == r.attempts || |h| == r.attempts + 1)
       case Cancelled => |h| == r.attempts && if swept then AllRetries(h) else EndsWith(h, r)
  }

  lemma Append(h: seq<SyncResult>, r: SyncResult)
    requires AllRetries(h)
    ensures EndsWith(h + [r], r)
    ensures r.state == Retry && r.attempts == |h| + 1 ==> AllRetries(h + [r])
  {
    assert (h + [r])[..|h|] == h;
  }

  /** How a step changes one task, what it tells of it, and whether it is the one
      that cancels it in a queue. */
  ghost predicate TaskTold(r0: SyncResult, r: SyncResult, told: seq<SyncResult>, sweeps: bool) {
    if sweeps then Queueable(r0.state) && told == [] && r.attempts == r0.attempts && r.state == Cancelled
    else
      || (r == r0 && told == [])
      || (Queueable(r0.state) && told == [] && r == r0.(state := InProgress, attempts := Increment(r0.attempts)))
      || (r0.state == InProgress && told == [r] && r.attempts == r0.attempts && (Terminal(r.state) || r.state == Retry))
      || (Queueable(r0.state) && told == [r] && r.attempts == r0.attempts && r.state == Failed)
  }

  lemma TaskToldFits(c: Config, r0: SyncResult, r: SyncResult, told: seq<SyncResult>, h: seq<SyncResult>,
                     swept: bool, sweeps: bool)
    requires BudgetFits(c) && AttemptsFit(c, r0) && ToldFits(r0, h, swept) && TaskTold(r0, r, told, sweeps)
    ensures ToldFits(r, h + told, swept || sweeps)
  {
    if told == [] {
      assert h + told == h;
    } else {
      Append(h, r);
    }
  }

  /** The step is the locked part of `stop`, and finds the task in a queue. */
  ghost predicate SweepsTask(s: State, a: Action, id: string) {
    a.StopLock? && id in s.sh.results && Queueable(s.sh.results[id].state)
  }

  /** One of the first `n` steps is. */
  ghost predicate CancelledInQueue(ss: seq<State>, acts: seq<Action>, id: string, n: nat)
    requires n <= |acts| < |ss|
  {
    n > 0 && (CancelledInQueue(ss, acts, id, n - 1) || SweepsTask(ss[n - 1], acts[n - 1], id))
  }

  lemma ReleaseTold(w: World, s: State, s': State, e: Effect, id: string)
    requires Conserved(s) && Shows(w, s, s', e) && (e.Settle? || e.PutBack?) && id in s.sh.results && s.sh.callback
    ensures id in s'.sh.results && TaskTold(s.sh.results[id], s'.sh.results[id], Told(s, e, s', id),
                                                  e.CancelAll? && Queueable(s.sh.results[id].state))
  {
    HeldItem(s, e.i);
  }

  lemma EffectTold(w: World, s: State, s': State, e: Effect, id: string)
    requires Conserved(s) && Shows(w, s, s', e) && !e.Crash? && id in s.sh.results && s.sh.callback
    ensures id in s'.sh.results && TaskTold(s.sh.results[id], s'.sh.results[id], Told(s, e, s', id),
                                                  e.CancelAll? && Queueable(s.sh.results[id].state))
  {
    if e.Settle? || e.PutBack? {
      ReleaseTold(w, s, s', e, id);
    } else {
      EffectOnTask(w, s, s', e, id);
    }
  }

  ghost predicate CallbackSince(ss: seq<State>, id: string, n: nat)
    requires n < |ss|
  {
    forall k | 0 <= k <= n :: id in ss[k].sh.results ==> ss[k].sh.callback
  }

  lemma {:induction false} KeyedRun(w: World, ss: seq<State>, acts: seq<Action>, n: nat)
    requires IsRun(w, ss, acts) && n < |ss|
    ensures Keyed(ss[n])
  {
    if n > 0 {
      KeyedRun(w, ss, acts, n - 1);
      BasicRun(w, ss, acts, n - 1);
      assert StepAt(w, ss, acts, n - 1);
      BasicStep(w, ss[n - 1], acts[n - 1], ss[n]);
      KeyedEffect(w, ss[n - 1], ss[n], EffectOf(w, ss[n - 1], acts[n - 1]));
    }
  }

  lemma AcceptedPending(w: World, s: State, s': State, e: Effect, id: string)
    requires Conserved(s) && Shows(w, s, s', e) && !e.Crash? && id !in s.sh.results && id in s'.sh.results
    ensures s'.sh.results[id].state == Pending
  {
  }

  /** What has been told about a task fits its state, or there is no such task. */
  ghost predicate History(s: State, id: string, told: seq<SyncResult>, swept: bool) {
    if id in s.sh.results then ToldFits(s.sh.results[id], OfTask(told, id), swept)
    else OfTask(told, id) == [] && !swept
  }

  lemma ToldEffect(w: World, s: State, s': State, e: Effect, id: string, h: seq<SyncResult>, swept: bool)
    requires BudgetFits(w.config) && Conserved(s) && Shows(w, s, s', e) && !e.Crash?
    requires id in s.sh.results && s.sh.callback
    requires AttemptsFit(w.config, s.sh.results[id]) && ToldFits(s.sh.results[id], h, swept)
    ensures id in s'.sh.results
    ensures ToldFits(s'.sh.results[id], h + Told(s, e, s', id),
                     swept || (e.CancelAll? && Queueable(s.sh.results[id].state)))
  {
    EffectTold(w, s, s', e, id);
    TaskToldFits(w.config, s.sh.results[id], s'.sh.results[id], Told(s, e, s', id), h,
                 swept, e.CancelAll? && Queueable(s.sh.results[id].state));
  }

  lemma CancelIsStop(w: World, s: State, a: Action)
    ensures EffectOf(w, s, a).CancelAll? <==> a.StopLock?
  {
  }

  lemma ToldKnown(w: World, s: State, a: Action, s': State, id: string, told: seq<SyncResult>, swept: bool)
    requires BudgetFits(w.config) && Sound(w, s, a, s') && Step(w, s, a, s') && Keyed(s)
    requires id in s.sh.results && s.sh.callback && ToldFits(s.sh.results[id], OfTask(told, id), swept)
    ensures id in s'.sh.results
    ensures ToldFits(s'.sh.results[id], OfTask(told + Emits(a, s'), id), swept || SweepsTask(s, a, id))
  {
    var e := EffectOf(w, s, a);
    assert Conserved(s) && Shows(w, s, s', e) && !e.Crash? && AttemptsFit(w.config, s.sh.results[id]) by {
      assert Look(0);
    }
    OfTaskConcat(told, Emits(a, s'), id);
    StepEmits(w, s, a, s', id);
    CancelIsStop(w, s, a);
    ToldEffect(w, s, s', e, id, OfTask(told, id), swept);
  }

  lemma ToldNew(w: World, s: State, a: Action, s': State, id: string, told: seq<SyncResult>)
    requires Sound(w, s, a, s') && Step(w, s, a, s') && Keyed(s)
    requires id !in s.sh.results && OfTask(told, id) == []
    ensures OfTask(told + Emits(a, s'), id) == []
    ensures id in s'.sh.results ==> s'.sh.results[id].state == Pending
  {
    var e := EffectOf(w, s, a);
    assert Conserved(s) && Shows(w, s, s', e) && !e.Crash? by {
      assert Look(0);
    }
    OfTaskConcat(told, Emits(a, s'), id);
    StepEmits(w, s, a, s', id);
    if id in s'.sh.results {
      AcceptedPending(w, s, s', e, id);
    }
  }

  lemma ToldStep(w: World, s: State, a: Action, s': State, id: string, told: seq<SyncResult>, swept: bool)
    requires BudgetFits(w.config) && Sound(w, s, a, s') && Step(w, s, a, s') && Keyed(s)
    requires (id in s.sh.results ==> s.sh.callback) && History(s, id, told, swept)
    ensures History(s', id, told + Emits(a, s'), swept || SweepsTask(s, a, id))
  {
    if id in s.sh.results {
      ToldKnown(w, s, a, s', id, told, swept);
    } else {
      ToldNew(w, s, a, s', id, told);
    }
  }

  /** In every run with the callback installed, the snapshots of each task are
      Retry after the first, the second, ... attempt, then at most one terminal
      one: exactly one when the task is Completed, Failed, or Cancelled in a
      worker's hands, and none when `stop` cancelled it in a queue. */
  lemma {:induction false} SnapshotHistory(w: World, ss: seq<State>, acts: seq<Action>, id: string, n: nat)
    requires IsRun(w, ss, acts) && n < |ss| && BudgetFits(w.config) && CallbackSince(ss, id, n)
    ensures History(ss[n], id, Emitted(ss, acts, n), CancelledInQueue(ss, acts, id, n))
  {
    if n > 0 {
      SnapshotHistory(w, ss, acts, id, n - 1);
      HistoryNext(w, ss, acts, n - 1, id);
    }
  }

  lemma HistoryNext(w: World, ss: seq<State>, acts: seq<Action>, k: nat, id: string)
    requires IsRun(w, ss, acts) && k < |acts| && BudgetFits(w.config)
    requires id in ss[k].sh.results ==> ss[k].sh.callback
    requires History(ss[k], id, Emitted(ss, acts, k), CancelledInQueue(ss, acts, id, k))
    ensures History(ss[k + 1], id, Emitted(ss, acts, k + 1), CancelledInQueue(ss, acts, id, k + 1))
  {
    SoundRun(w, ss, acts, k);
    KeyedRun(w, ss, acts, k);
    assert EmitsAt(ss, acts)(k) == Emits(acts[k], ss[k + 1]);
    ToldStep(w, ss[k], acts[k], ss[k + 1], id, Emitted(ss, acts, k), CancelledInQueue(ss, acts, id, k));
  }

  // ------------------------------------------------------------------ delivery

  function LetterOf(worker: Worker): Option<SyncResult> {
    if worker.phase.Reporting? then worker.phase.snapshot else None
  }

  /** How many workers have still to deliver `r`. */
  function Letters(workers: seq<Worker>, r: SyncResult): nat {
    if workers == [] then 0
    else Letters(workers[..|workers| - 1], r) + if LetterOf(workers[|workers| - 1]) == Some(r) then 1 else 0
  }

  /** How often `r` occurs. */
  function Copies(rs: seq<SyncResult>, r: SyncResult): nat {
    if rs == [] then 0 else Copies(rs[..|rs| - 1], r) + if rs[|rs| - 1] == r then 1 else 0
  }

  function PendingOf(monitor: Monitor): seq<SyncResult> {
    if monitor.Announcing? then monitor.pending else []
  }

  /** How many copies of `r` are taken but not yet delivered. */
  ghost function Outstanding(s: State, r: SyncResult): nat {
    Letters(s.workers, r) + Copies(PendingOf(s.monitor), r)
  }

  ghost predicate SameLetters(s: State, s': State) {
    |s'.workers| == |s.workers| && forall j | 0 <= j < |s.workers| :: LetterOf(s'.workers[j]) == LetterOf(s.workers[j])
  }

  /** How letters move in a step. */
  ghost predicate Posted(s: State, a: Action, s': State) {
    match a
    case Start => s.workers == [] && PendingOf(s.monitor) == PendingOf(s'.monitor) == []
                  && forall j | 0 <= j < |s'.workers| :: LetterOf(s'.workers[j]) == None
    case StopJoin => (forall j | 0 <= j < |s.workers| :: LetterOf(s.workers[j]) == None) && s'.workers == []
                     && PendingOf(s.monitor) == PendingOf(s'.monitor) == []
    case Conclude(i) => OneLetter(s, s', i) && LetterOf(s.workers[i]) == None && s'.monitor == s.monitor
    case Requeue(i) => OneLetter(s, s', i) && LetterOf(s.workers[i]) == None && s'.monitor == s.monitor
    case Deliver(i) => OneLetter(s, s', i) && LetterOf(s'.workers[i]) == None && s'.monitor == s.monitor
    case Probe(_, _) => SameLetters(s, s') && PendingOf(s.monitor) == []
    case Announce => SameLetters(s, s') && s.monitor.Announcing?
                     && PendingOf(s'.monitor) == if s.monitor.pending == [] then [] else s.monitor.pending[1..]
    case _ => SameLetters(s, s') && PendingOf(s'.monitor) == PendingOf(s.monitor)
  }

  /** Only the letter of worker `i` changes. */
  ghost predicate OneLetter(s: State, s': State, i: nat) {
    && At(s, i) && |s'.workers| == |s.workers|
    && forall j | 0 <= j < |s.workers| && j != i :: LetterOf(s'.workers[j]) == LetterOf(s.workers[j])
  }

  lemma ConcludePosts(w: World, s: State, i: nat)
    requires ConcludeEnabled(s, i)
    ensures Posted(s, Conclude(i), ConcludeStep(w, s, i))
  {
  }

  lemma SeekPosts(s: State, i: nat)
    requires SeekEnabled(s, i)
    ensures Posted(s, Seek(i), SeekStep(s, i))
  {
  }

  lemma RequeuePosts(w: World, s: State, i: nat)
    requires RequeueEnabled(s, i)
    ensures Posted(s, Requeue(i), RequeueStep(w, s, i))
  {
  }

  lemma DeliverPosts(s: State, i: nat)
    requires DeliverEnabled(s, i)
    ensures Posted(s, Deliver(i), DeliverStep(s, i))
  {
  }

  lemma StepPosts(w: World, s: State, a: Action, s': State)
    requires Lifecycle(w.config, s) && Step(w, s, a, s')
    ensures Posted(s, a, s')
  {
    match a
    case Conclude(i) => IsConclude(w, s, i, s'); ConcludePosts(w, s, i);
    case Seek(i) => IsSeek(w, s, i, s'); SeekPosts(s, i);
    case Requeue(i) => IsRequeue(w, s, i, s'); RequeuePosts(w, s, i);
    case Deliver(i) => IsDeliver(w, s, i, s'); DeliverPosts(s, i);
    case Read(i) => ReadPosts(w, s, a, s');
    case WakeUp(i) => ReadPosts(w, s, a, s');
    case Transfer(i, env) => ReadPosts(w, s, a, s');
    case Fetch(i, op) => ReadPosts(w, s, a, s');
    case _ => OthersPost(w, s, a, s');
  }

  lemma ReadPosts(w: World, s: State, a: Action, s': State)
    requires (a.Read? || a.WakeUp? || a.Transfer? || a.Fetch?) && Step(w, s, a, s')
    ensures Posted(s, a, s')
  {
    MovesAlone(w, s, a, s');
    WorkerKeeps(w, s, a, s');
  }

  lemma OthersPost(w: World, s: State, a: Action, s': State)
    requires !ByWorker(a) && Lifecycle(w.config, s) && Step(w, s, a, s')
    ensures Posted(s, a, s')
  {
    assert Inspect(0);
  }

  lemma {:induction false} LettersSame(before: seq<Worker>, after: seq<Worker>, r: SyncResult)
    requires |after| == |before| && forall j | 0 <= j < |before| :: LetterOf(after[j]) == LetterOf(before[j])
    ensures Letters(after, r) == Letters(before, r)
  {
    if before != [] {
      LettersSame(before[..|before| - 1], after[..|before| - 1], r);
    }
  }

  lemma {:induction false} LettersMoved(before: seq<Worker>, after: seq<Worker>, i: nat, r: SyncResult)
    requires |after| == |before| && i < |before|
    requires forall j | 0 <= j < |before| && j != i :: LetterOf(after[j]) == LetterOf(before[j])
    ensures Letters(after, r) + (if LetterOf(before[i]) == Some(r) then 1 else 0)
         == Letters(before, r) + (if LetterOf(after[i]) == Some(r) then 1 else 0)
  {
    var n := |before| - 1;
    if i == n {
      LettersSame(before[..n], after[..n], r);
    } else {
      LettersMoved(before[..n], after[..n], i, r);
    }
  }

  lemma {:induction false} NoLetters(workers: seq<Worker>, r: SyncResult)
    requires forall j | 0 <= j < |workers| :: LetterOf(workers[j]) == None
    ensures Letters(workers, r) == 0
  {
    if workers != [] {
      NoLetters(workers[..|workers| - 1], r);
    }
  }

  lemma {:induction false} CopiesConcat(rs: seq<SyncResult>, more: seq<SyncResult>, r: SyncResult)
    ensures Copies(rs + more, r) == Copies(rs, r) + Copies(more, r)
    decreases |more|
  {
    if more == [] {
      assert rs + more == rs;
    } else {
      var n := |more| - 1;
      assert (rs + more)[..|rs| + n] == rs + more[..n];
      CopiesConcat(rs, more[..n], r);
    }
  }

  lemma {:induction false} CopiesCount(rs: seq<SyncResult>, r: SyncResult)
    ensures Copies(rs, r) == multiset(rs)[r]
  {
    if rs != [] {
      var n := |rs| - 1;
      CopiesCount(rs[..n], r);
      assert rs == rs[..n] + [rs[n]];
    }
  }

  lemma CopiesOfOne(x: SyncResult, r: SyncResult)
    ensures Copies([x], r) == if x == r then 1 else 0
  {
    assert [x][..0] == [];
  }

  /** A step delivers or leaves outstanding what was outstanding or is new. */
  ghost predicate Balances(s: State, a: Action, s': State, r: SyncResult) {
    Outstanding(s', r) + Copies(Delivers(s, a), r) == Outstanding(s, r) + Copies(Emits(a, s'), r)
  }

  lemma DeliveryByWorker(s: State, a: Action, s': State, r: SyncResult)
    requires Posted(s, a, s') && (a.Conclude? || a.Requeue? || a.Deliver?)
    ensures Balances(s, a, s', r)
  {
    LettersMoved(s.workers, s'.workers, a.w, r);
    SnapshotCopies(s.workers[a.w], r);
    SnapshotCopies(s'.workers[a.w], r);
  }

  lemma SnapshotCopies(worker: Worker, r: SyncResult)
    ensures Copies(SnapshotIn(worker.phase), r) == if LetterOf(worker) == Some(r) then 1 else 0
  {
    if LetterOf(worker).Some? {
      CopiesOfOne(LetterOf(worker).value, r);
    }
  }

  lemma DeliveryByMonitor(s: State, a: Action, s': State, r: SyncResult)
    requires Posted(s, a, s') && a.Announce?
    ensures Balances(s, a, s', r)
  {
    LettersSame(s.workers, s'.workers, r);
    var pending := s.monitor.pending;
    if pending != [] {
      assert pending == [pending[0]] + pending[1..];
      CopiesConcat([pending[0]], pending[1..], r);
    }
  }

  lemma DeliveryOf(s: State, a: Action, s': State, r: SyncResult)
    requires Posted(s, a, s')
    ensures Balances(s, a, s', r)
  {
    if a.Conclude? || a.Requeue? || a.Deliver? {
      DeliveryByWorker(s, a, s', r);
    } else if a.Start? || a.StopJoin? {
      NoLetters(s.workers, r);
      NoLetters(s'.workers, r);
    } else if a.Announce? {
      DeliveryByMonitor(s, a, s', r);
    } else {
      LettersSame(s.workers, s'.workers, r);
    }
  }

  lemma DeliveryStep(w: World, s: State, a: Action, s': State, r: SyncResult)
    requires Sound(w, s, a, s') && Step(w, s, a, s')
    ensures Balances(s, a, s', r)
  {
    assert Lifecycle(w.config, s) by {
      assert Look(0);
    }
    StepPosts(w, s, a, s');
    DeliveryOf(s, a, s', r);
  }

  lemma {:induction false} GatherCopies(parts: nat -> seq<SyncResult>, n: nat, r: SyncResult)
    ensures n > 0 ==> Copies(Gather(parts, n), r) == Copies(Gather(parts, n - 1), r) + Copies(parts(n - 1), r)
  {
    if n > 0 {
      CopiesConcat(Gather(parts, n - 1), parts(n - 1), r);
    }
  }

  /** What comes in, goes out or is left. */
  lemma {:induction false} InAndOut(ins: nat -> seq<SyncResult>, outs: nat -> seq<SyncResult>, left: nat -> nat,
                                    n: nat, r: SyncResult)
    requires left(0) == 0
    requires forall k: nat | k < n :: left(k + 1) + Copies(outs(k), r) == left(k) + Copies(ins(k), r)
    ensures Copies(Gather(ins, n), r) == Copies(Gather(outs, n), r) + left(n)
  {
    if n > 0 {
      InAndOut(ins, outs, left, n - 1, r);
      GatherCopies(ins, n, r);
      GatherCopies(outs, n, r);
      assert left(n - 1 + 1) == left(n);
    }
  }

  ghost function OutstandingAt(ss: seq<State>, r: SyncResult): nat -> nat {
    (k: nat) => if k < |ss| then Outstanding(ss[k], r) else 0
  }

  lemma AtStep(ss: seq<State>, acts: seq<Action>, k: nat, r: SyncResult)
    requires k < |acts| < |ss| && Balances(ss[k], acts[k], ss[k + 1], r)
    ensures OutstandingAt(ss, r)(k + 1) + Copies(DeliversAt(ss, acts)(k), r)
         == OutstandingAt(ss, r)(k) + Copies(EmitsAt(ss, acts)(k), r)
  {
    assert OutstandingAt(ss, r)(k) == Outstanding(ss[k], r) && OutstandingAt(ss, r)(k + 1) == Outstanding(ss[k + 1], r);
    assert DeliversAt(ss, acts)(k) == Delivers(ss[k], acts[k]) && EmitsAt(ss, acts)(k) == Emits(acts[k], ss[k + 1]);
  }

  lemma BalancesRun(w: World, ss: seq<State>, acts: seq<Action>, k: nat, r: SyncResult)
    requires IsRun(w, ss, acts) && k < |acts|
    ensures Balances(ss[k], acts[k], ss[k + 1], r)
  {
    SoundRun(w, ss, acts, k);
    DeliveryStep(w, ss[k], acts[k], ss[k + 1], r);
  }

  /** Every snapshot that was taken has been delivered once, or is still to be
      delivered by the thread that took it. */
  lemma DeliveredOnce(w: World, ss: seq<State>, acts: seq<Action>, n: nat, r: SyncResult)
    requires IsRun(w, ss, acts) && n < |ss|
    ensures Copies(Emitted(ss, acts, n), r) == Copies(Delivered(ss, acts, n), r) + Outstanding(ss[n], r)
  {
    NoLetters(ss[0].workers, r);
    forall k: nat | k < n
      ensures OutstandingAt(ss, r)(k + 1) + Copies(DeliversAt(ss, acts)(k), r)
           == OutstandingAt(ss, r)(k) + Copies(EmitsAt(ss, acts)(k), r)
    {
      BalancesRun(w, ss, acts, k, r);
      AtStep(ss, acts, k, r);
    }
    InAndOut(EmitsAt(ss, acts), DeliversAt(ss, acts), OutstandingAt(ss, r), n, r);
  }

  /** When `stop` has returned, exactly what was taken has been delivered. */
  lemma AllDelivered(w: World, ss: seq<State>, acts: seq<Action>, n: nat)
    requires IsRun(w, ss, acts) && n < |ss| && ss[n].control == Ready && !ss[n].sh.started
    ensures multiset(Delivered(ss, acts, n)) == multiset(Emitted(ss, acts, n))
  {
    BasicRun(w, ss, acts, n);
    forall r: SyncResult
      ensures multiset(Delivered(ss, acts, n))[r] == multiset(Emitted(ss, acts, n))[r]
    {
      DeliveredOnce(w, ss, acts, n, r);
      NoLetters(ss[n].workers, r);
      CopiesCount(Delivered(ss, acts, n), r);
      CopiesCount(Emitted(ss, acts, n), r);
    }
  }
}

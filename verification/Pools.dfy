/** The two pools: a task never leaves its size class, and no class has more
    tasks in progress than workers. */
module Pools {
  import opened SyncTypes
  import opened SyncCore
  import opened Protocol
  import opened Effects
  import opened Conservation
  import opened TaskLife
  import opened Timing
  import opened Liveness

  // ------------------------------------------------------------------ size classes

  /** Wherever `id` is, it is in the queue of its class or with a worker of it. */
  ghost predicate InClass(s: State, id: string, large: bool) {
    && id in s.sh.results
    && (forall l: bool, k: nat | k < |Queue(s.sh, l)| ::
          Queue(s.sh, l)[k].id == id ==> l == large && Queue(s.sh, l)[k].large == large)
    && (forall i | 0 <= i < |s.workers| ::
          HeldBy(s.workers[i]) == Some(id) ==> s.workers[i].large == large && s.workers[i].phase.item.large == large)
  }

  lemma QueuesInClass(w: World, s: State, s': State, e: Effect, id: string, large: bool, l: bool, k: nat)
    requires Conserved(s) && InClass(s, id, large) && Shows(w, s, s', e) && !e.Crash?
    requires k < |Queue(s'.sh, l)| && Queue(s'.sh, l)[k].id == id
    ensures l == large && Queue(s'.sh, l)[k].large == large
  {
    ItemsEffect(w, s, s', e, l, k);
  }

  lemma HandsInClass(w: World, s: State, s': State, e: Effect, id: string, large: bool, i: nat)
    requires InClass(s, id, large) && Shows(w, s, s', e) && !e.Crash?
    requires At(s', i) && HeldBy(s'.workers[i]) == Some(id)
    ensures s'.workers[i].large == large && s'.workers[i].phase.item.large == large
  {
  }

  lemma InClassStep(w: World, s: State, a: Action, s': State, id: string, large: bool)
    requires Sound(w, s, a, s') && InClass(s, id, large)
    ensures InClass(s', id, large)
  {
    assert Look(0);
    var e := EffectOf(w, s, a);
    KeysEffect(w, s, s', e);
    forall l: bool, k: nat | k < |Queue(s'.sh, l)| && Queue(s'.sh, l)[k].id == id
      ensures l == large && Queue(s'.sh, l)[k].large == large
    {
      QueuesInClass(w, s, s', e, id, large, l, k);
    }
    forall i | 0 <= i < |s'.workers| && HeldBy(s'.workers[i]) == Some(id)
      ensures s'.workers[i].large == large && s'.workers[i].phase.item.large == large
    {
      HandsInClass(w, s, s', e, id, large, i);
    }
  }

  lemma AcceptInClass(w: World, s: State, a: Action, s': State)
    requires Sound(w, s, a, s') && a.Enqueue? && Accepts(s.sh, a.task.id)
    ensures InClass(s', a.task.id, a.large)
  {
    assert Look(0);
    var id, e := a.task.id, EffectOf(w, s, a);
    forall l: bool, k: nat | k < |Queue(s'.sh, l)| && Queue(s'.sh, l)[k].id == id
      ensures l == a.large && Queue(s'.sh, l)[k].large == a.large
    {
      NewInClass(w, s, s', e, l, k);
    }
    forall i | 0 <= i < |s'.workers| ensures HeldBy(s'.workers[i]) != Some(id) {
      if Holding(s'.workers[i].phase) {
        HeldItem(s, i);
      }
    }
  }

  lemma NewInClass(w: World, s: State, s': State, e: Effect, l: bool, k: nat)
    requires Conserved(s) && Shows(w, s, s', e) && e.Accept?
    requires k < |Queue(s'.sh, l)| && Queue(s'.sh, l)[k].id == e.task.id
    ensures l == e.large && Queue(s'.sh, l)[k].large == e.large
  {
    if k < |Queue(s.sh, l)| {
      QueuedItem(s, l, k);
    }
  }

  /** A task stays in the class it was accepted in, through every retry. */
  lemma {:induction false} StaysInClass(w: World, ss: seq<State>, acts: seq<Action>, m: nat, n: nat)
    requires IsRun(w, ss, acts) && m < n < |ss| && acts[m].Enqueue? && Accepts(ss[m].sh, acts[m].task.id)
    ensures InClass(ss[n], acts[m].task.id, acts[m].large)
    decreases n
  {
    if m + 1 < n {
      StaysInClass(w, ss, acts, m, n - 1);
      InClassNext(w, ss, acts, n - 1, acts[m].task.id, acts[m].large);
    } else {
      AcceptNext(w, ss, acts, m);
    }
  }

  lemma InClassNext(w: World, ss: seq<State>, acts: seq<Action>, k: nat, id: string, large: bool)
    requires IsRun(w, ss, acts) && k < |acts| && InClass(ss[k], id, large)
    ensures InClass(ss[k + 1], id, large)
  {
    SoundRun(w, ss, acts, k);
    InClassStep(w, ss[k], acts[k], ss[k + 1], id, large);
  }

  lemma AcceptNext(w: World, ss: seq<State>, acts: seq<Action>, k: nat)
    requires IsRun(w, ss, acts) && k < |acts| && acts[k].Enqueue? && Accepts(ss[k].sh, acts[k].task.id)
    ensures InClass(ss[k + 1], acts[k].task.id, acts[k].large)
  {
    SoundRun(w, ss, acts, k);
    AcceptInClass(w, ss[k], acts[k], ss[k + 1]);
  }

  // ------------------------------------------------------------------ pool sizes

  function Range(lo: nat, n: nat): (r: set<nat>)
    ensures |r| == n
    ensures forall i: nat :: i in r <==> lo <= i < lo + n
  {
    if n == 0 then {} else Range(lo, n - 1) + {lo + n - 1}
  }

  function PoolSize(c: Config, large: bool): nat {
    if large then c.largeFileWorkers else c.smallFileWorkers
  }

  /** The places of the workers of a class. */
  function Places(c: Config, large: bool): (r: set<nat>)
    ensures |r| == PoolSize(c, large)
  {
    Range(FirstOf(c, large), PoolSize(c, large))
  }

  /** The workers that hold one of the ids. */
  function Holders(s: State, ids: seq<string>): set<nat> {
    set i: nat | i < |s.workers| && Holding(s.workers[i].phase) && s.workers[i].phase.item.id in ids
  }

  lemma {:induction false} HoldersSize(s: State, ids: seq<string>)
    requires Conserved(s)
    requires forall k | 0 <= k < |ids| :: ids[k] in s.sh.results && s.sh.results[ids[k]].state == InProgress
    requires forall k, l | 0 <= k < l < |ids| :: ids[k] != ids[l]
    ensures |ids| <= |Holders(s, ids)|
  {
    if ids != [] {
      var n := |ids| - 1;
      HoldersSize(s, ids[..n]);
      var i := HeldPlace(s, ids[n]);
      assert i !in Holders(s, ids[..n]);
      assert Holders(s, ids[..n]) + {i} <= Holders(s, ids);
      SubsetSize(Holders(s, ids[..n]) + {i}, Holders(s, ids));
    }
  }

  lemma {:induction false} SubsetSize(x: set<nat>, y: set<nat>)
    requires x <= y
    ensures |x| <= |y|
  {
    if x != {} {
      var i :| i in x;
      SubsetSize(x - {i}, y - {i});
    }
  }

  lemma HoldersInPool(c: Config, s: State, ids: seq<string>, large: bool)
    requires Basic(c, s) && forall k | 0 <= k < |ids| :: InClass(s, ids[k], large)
    ensures Holders(s, ids) <= Places(c, large)
  {
    forall i | i in Holders(s, ids) ensures i in Places(c, large) {
      var k :| 0 <= k < |ids| && ids[k] == s.workers[i].phase.item.id;
      assert InClass(s, ids[k], large);
    }
  }

  lemma PoolFits(c: Config, s: State, ids: seq<string>, large: bool)
    requires Basic(c, s)
    requires forall k, l | 0 <= k < l < |ids| :: ids[k] != ids[l]
    requires forall k | 0 <= k < |ids| :: ids[k] in s.sh.results && s.sh.results[ids[k]].state == InProgress
    requires forall k | 0 <= k < |ids| :: InClass(s, ids[k], large)
    ensures |ids| <= PoolSize(c, large)
  {
    HoldersSize(s, ids);
    HoldersInPool(c, s, ids, large);
    SubsetSize(Holders(s, ids), Places(c, large));
  }

  /** Step `k` accepts a task into a class. */
  ghost predicate AcceptsInto(ss: seq<State>, acts: seq<Action>, k: nat, large: bool)
    requires k < |acts| < |ss|
  {
    acts[k].Enqueue? && Accepts(ss[k].sh, acts[k].task.id) && acts[k].large == large
  }

  /** The task that `a` enqueues is in progress. */
  ghost predicate InProgressIn(s: State, a: Action) {
    a.Enqueue? && a.task.id in s.sh.results && s.sh.results[a.task.id].state == InProgress
  }

  /** No id is accepted twice. */
  lemma AcceptedOnce(w: World, ss: seq<State>, acts: seq<Action>, k: nat, l: nat)
    requires IsRun(w, ss, acts) && k < l < |acts|
    requires acts[k].Enqueue? && Accepts(ss[k].sh, acts[k].task.id)
    requires acts[l].Enqueue? && Accepts(ss[l].sh, acts[l].task.id)
    ensures acts[k].task.id != acts[l].task.id
  {
    StaysInClass(w, ss, acts, k, l);
  }

  /** Of the tasks accepted into a class, never more are in progress than the class
      has workers. */
  lemma PoolBound(w: World, ss: seq<State>, acts: seq<Action>, n: nat, accepted: seq<nat>, large: bool)
    requires IsRun(w, ss, acts) && n < |ss|
    requires forall k, l | 0 <= k < l < |accepted| :: accepted[k] < accepted[l]
    requires forall k | 0 <= k < |accepted| :: accepted[k] < n && AcceptsInto(ss, acts, accepted[k], large)
    requires forall k | 0 <= k < |accepted| :: InProgressIn(ss[n], acts[accepted[k]])
    ensures |accepted| <= PoolSize(w.config, large)
  {
    var ids := seq(|accepted|, k requires 0 <= k < |accepted| => acts[accepted[k]].task.id);
    forall k, l | 0 <= k < l < |ids| ensures ids[k] != ids[l] {
      AcceptedOnce(w, ss, acts, accepted[k], accepted[l]);
    }
    forall k | 0 <= k < |ids| ensures InClass(ss[n], ids[k], large) {
      StaysInClass(w, ss, acts, accepted[k], n);
    }
    BasicRun(w, ss, acts, n);
    PoolFits(w.config, ss[n], ids, large);
  }
}

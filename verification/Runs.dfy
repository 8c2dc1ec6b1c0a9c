/** Runs, one step at a time: building them, and going on from a state. */
module Runs {
  import opened SyncTypes
  import opened SyncCore
  import opened Protocol
  import opened TaskLife
  import opened Timing
  import opened Progress

  // ------------------------------------------------------------------ building runs

  lemma RunLonger(w: World, ss: seq<State>, acts: seq<Action>, a: Action, s: State)
    requires IsRun(w, ss, acts) && Step(w, ss[|acts|], a, s)
    ensures IsRun(w, ss + [s], acts + [a])
  {
    var ss', acts' := ss + [s], acts + [a];
    forall k: nat | k < |acts'| ensures StepAt(w, ss', acts', k) {
      if k < |acts| {
        assert StepAt(w, ss, acts, k);
      }
    }
  }

  /** A run with `takes` takes that ends in `s`. */
  ghost predicate EndsIn(w: World, ss: seq<State>, acts: seq<Action>, s: State, takes: nat) {
    && IsRun(w, ss, acts) && ss[|acts|] == s
    && Takes(ss, acts, false, 0, |acts|) + Takes(ss, acts, true, 0, |acts|) == takes
  }

  /** Some run with `takes` takes ends in `s`. */
  ghost predicate Reachable(w: World, s: State, takes: nat) {
    forall n: nat {:trigger Look(n)} :: Look(n) ==> exists ss, acts :: EndsIn(w, ss, acts, s, takes)
  }

  lemma {:induction false} TakesOfPrefix(ss: seq<State>, acts: seq<Action>, s: State, a: Action, large: bool, n: nat)
    requires n <= |acts| < |ss|
    ensures Takes(ss + [s], acts + [a], large, 0, n) == Takes(ss, acts, large, 0, n)
  {
    if n > 0 {
      TakesOfPrefix(ss, acts, s, a, large, n - 1);
      assert (ss + [s])[n] == ss[n] && (acts + [a])[n - 1] == acts[n - 1];
    }
  }

  lemma EndsLater(w: World, ss: seq<State>, acts: seq<Action>, s: State, takes: nat, a: Action, s': State)
    requires EndsIn(w, ss, acts, s, takes) && Step(w, s, a, s')
    ensures EndsIn(w, ss + [s'], acts + [a], s', takes + TakenHere(a, s', false) + TakenHere(a, s', true))
  {
    RunLonger(w, ss, acts, a, s');
    TakesOfPrefix(ss, acts, s', a, false, |acts|);
    TakesOfPrefix(ss, acts, s', a, true, |acts|);
  }

  lemma Further(w: World, s: State, takes: nat, a: Action, s': State)
    requires Reachable(w, s, takes) && Step(w, s, a, s')
    ensures Reachable(w, s', takes + TakenHere(a, s', false) + TakenHere(a, s', true))
  {
    assert Look(0);
    var ss, acts :| EndsIn(w, ss, acts, s, takes);
    EndsLater(w, ss, acts, s, takes, a, s');
  }

  lemma InitReachable(w: World, s: State)
    requires Init(s)
    ensures Reachable(w, s, 0)
  {
    assert EndsIn(w, [s], [], s, 0);
  }

  /** Some run ends in `s`. */
  ghost predicate Reached(w: World, s: State) {
    exists takes: nat :: Reachable(w, s, takes)
  }

  lemma Onward(w: World, s: State, a: Action, s': State)
    requires Reached(w, s) && Step(w, s, a, s')
    ensures Reached(w, s')
  {
    var takes: nat :| Reachable(w, s, takes);
    Further(w, s, takes, a, s');
  }

  lemma RunTo(w: World, s: State) returns (ss: seq<State>, acts: seq<Action>)
    requires Reached(w, s)
    ensures IsRun(w, ss, acts) && ss[|acts|] == s
  {
    var takes: nat :| Reachable(w, s, takes);
    assert Look(0);
    ss, acts :| EndsIn(w, ss, acts, s, takes);
  }

  // ------------------------------------------------------------------ from the start

  /** A started manager without tasks, whose workers have not begun. */
  ghost predicate Fresh(c: Config, s: State) {
    && s.sh.started && !s.sh.stopping && s.sh.results == map[] && QueuesEmpty(s.sh)
    && s.accepted == [] && s.workers == FreshWorkers(c)
  }

  lemma Launch(w: World) returns (s: State)
    requires ValidConfig(w.config)
    ensures Reachable(w, s, 0) && Fresh(w.config, s) && s.monitor == Polling(0) && s.sh.service == Connecting
  {
    var s0 := State(Initial(), [], NoMonitor, Ready, 0, 0, 0, [], map[]);
    InitReachable(w, s0);
    s := Apply(w, s0, Start);
    Further(w, s0, 0, Start, s);
  }

  lemma Connect(w: World) returns (s: State)
    requires ValidConfig(w.config)
    ensures Reachable(w, s, 0) && Fresh(w.config, s) && s.sh.service == Connected
  {
    var s1 := Launch(w);
    var s2 := Apply(w, s1, Poll);
    Further(w, s1, 0, Poll, s2);
    s := ProbeStep(w, s2, true, []);
    Further(w, s2, 0, Probe(true, []), s);
    assert s.workers == FreshWorkers(w.config);
  }

  // ------------------------------------------------------------------ going on

  /** `s'` can be reached from `s` in `k` steps. */
  ghost predicate Leads(w: World, s: State, s': State, k: nat)
    decreases k
  {
    if k == 0 then s == s'
    else exists a: Action, next: State :: Step(w, s, a, next) && Leads(w, next, s', k - 1)
  }

  lemma Before(w: World, s: State, a: Action, next: State, s': State, k: nat)
    requires Step(w, s, a, next) && Leads(w, next, s', k)
    ensures Leads(w, s, s', k + 1)
  {
  }

  lemma ThreeBefore(w: World, s: State, a1: Action, s1: State, a2: Action, s2: State, a3: Action, s3: State,
                    s': State, k: nat)
    requires Step(w, s, a1, s1) && Step(w, s1, a2, s2) && Step(w, s2, a3, s3) && Leads(w, s3, s', k)
    ensures Leads(w, s, s', k + 3)
  {
    Before(w, s2, a3, s3, s', k);
    Before(w, s1, a2, s2, s', k + 1);
    Before(w, s, a1, s1, s', k + 2);
  }
}

/** No unjustified failure: why a task is Failed, and why the service is in Error. */
module FailureReasons {
  import opened SyncTypes
  import opened SyncCore
  import opened Protocol
  import opened Effects
  import opened Conservation
  import opened TaskLife

  // ------------------------------------------------------------------ tasks

  /** The ways to fail that the source provides for. */
  ghost predicate GoodReason(w: World, s: State, e: Effect, id: string) {
    match e
    case Settle(i, _) =>
      && At(s, i) && s.workers[i].phase.Finished? && s.workers[i].phase.item.id == id
      && var p := s.workers[i].phase;
         || p.outcome.PathFailed?
         || (p.outcome.FailedWith? && !w.retryable(p.outcome.status, p.outcome.error))
         || (p.outcome.FailedWith? && id in s.sh.results && s.sh.results[id].attempts == w.config.maxRetries + 1)
    case PutBack(i, _) => At(s, i) && HeldBy(s.workers[i]) == Some(id) && s.sh.service == Error
    case FailAll => id in s.sh.results && Queueable(s.sh.results[id].state)
    case _ => false
  }

  lemma FailureStep(w: World, s: State, s': State, e: Effect, id: string)
    requires TasksOk(w, s) && Shows(w, s, s', e) && !e.Crash?
    requires id in s'.sh.results && s'.sh.results[id].state == Failed
    requires id in s.sh.results ==> s.sh.results[id].state != Failed
    ensures GoodReason(w, s, e, id)
  {
    if id in s.sh.results {
      EffectOnTask(w, s, s', e, id);
      if e.Settle? {
        assert CopyFits(w, s.sh.results, s.workers[e.i].phase);
        assert BudgetFits(w.config) ==> AttemptsFit(w.config, s.sh.results[id]);
      }
    }
  }

  /** Every failed task failed in some step of the run, for a good reason. */
  lemma {:induction false} FailedForAReason(w: World, ss: seq<State>, acts: seq<Action>, n: nat, id: string)
    returns (k: nat)
    requires IsRun(w, ss, acts) && n < |ss|
    requires id in ss[n].sh.results && ss[n].sh.results[id].state == Failed
    ensures k < n && id in ss[k + 1].sh.results
    ensures ss[k + 1].sh.results[id] == ss[n].sh.results[id]
    ensures id in ss[k].sh.results ==> ss[k].sh.results[id].state != Failed
    ensures GoodReason(w, ss[k], EffectOf(w, ss[k], acts[k]), id)
  {
    SoundRun(w, ss, acts, n - 1);
    FailureBefore(w, ss[n - 1], acts[n - 1], ss[n], id);
    if id in ss[n - 1].sh.results && ss[n - 1].sh.results[id].state == Failed {
      k := FailedForAReason(w, ss, acts, n - 1, id);
    } else {
      k := n - 1;
    }
  }

  lemma FailureBefore(w: World, s: State, a: Action, s': State, id: string)
    requires Sound(w, s, a, s')
    requires id in s'.sh.results && s'.sh.results[id].state == Failed
    ensures if id in s.sh.results && s.sh.results[id].state == Failed then s'.sh.results[id] == s.sh.results[id]
            else GoodReason(w, s, EffectOf(w, s, a), id)
  {
    assert Look(0);
    if id in s.sh.results && s.sh.results[id].state == Failed {
      EffectOnTask(w, s, s', EffectOf(w, s, a), id);
    } else {
      FailureStep(w, s, s', EffectOf(w, s, a), id);
    }
  }

  // ------------------------------------------------------------------ the service

  /** How many health checks have failed since the last that did not, or since
      the last start. */
  function FailedChecks(acts: seq<Action>, n: nat): nat
    requires n <= |acts|
  {
    if n == 0 then 0
    else
      match acts[n - 1]
      case Start => 0
      case Probe(connected, _) => if connected then 0 else FailedChecks(acts, n - 1) + 1
      case _ => FailedChecks(acts, n - 1)
  }

  predicate Counts(m: Monitor) {
    m.Polling? || m.Probing? || m.Announcing? || m.Sleeping?
  }

  /** How one step changes the monitor's count. */
  ghost predicate Counted(s: State, a: Action, s': State) {
    Counts(s'.monitor) ==>
      match a
      case Start => s'.monitor.failures == 0
      case Probe(connected, _) =>
        s.monitor.Probing? && s'.monitor.failures == Failures(connected, s.monitor.failures)
      case _ => Counts(s.monitor) && s'.monitor.failures == s.monitor.failures
  }

  lemma ServiceStep(w: World, s: State, a: Action, s': State)
    requires Step(w, s, a, s')
    ensures Counted(s, a, s')
    ensures s'.sh.service == Error && s.sh.service != Error ==>
              a.Probe? && !a.connected && s.monitor.Probing? && Increment(s.monitor.failures) > w.config.maxRetries
  {
    if ByWorker(a) {
      WorkerKeeps(w, s, a, s');
    } else {
      assert Inspect(0);
    }
  }

  lemma {:induction false} CountRun(w: World, ss: seq<State>, acts: seq<Action>, n: nat)
    requires IsRun(w, ss, acts) && n < |ss|
    ensures Counts(ss[n].monitor) ==> ss[n].monitor.failures <= FailedChecks(acts, n)
  {
    if n > 0 {
      CountRun(w, ss, acts, n - 1);
      assert StepAt(w, ss, acts, n - 1);
      ServiceStep(w, ss[n - 1], acts[n - 1], ss[n]);
    }
  }

  /** The service enters Error only by a failed health check, the last of at least
      max_retries + 1 in a row. */
  lemma ErrorForAReason(w: World, ss: seq<State>, acts: seq<Action>, n: nat)
    requires IsRun(w, ss, acts) && n < |acts|
    requires ss[n].sh.service != Error && ss[n + 1].sh.service == Error
    ensures acts[n].Probe? && !acts[n].connected
    ensures FailedChecks(acts, n + 1) >= w.config.maxRetries + 1
  {
    assert StepAt(w, ss, acts, n);
    ServiceStep(w, ss[n], acts[n], ss[n + 1]);
    CountRun(w, ss, acts, n);
  }

  // ------------------------------------------------------------------ the other service states

  /** What the service state is after each step: Connecting after a start, what
      the health check says after one, Disconnected when a worker blames the
      service, Stopping in `stop`, and otherwise what it was. */
  lemma ServiceAfter(w: World, s: State, a: Action, s': State)
    requires Step(w, s, a, s')
    ensures s'.sh.service ==
            match a
            case Start => Connecting
            case StopAnnounce => Stopping
            case Probe(connected, _) =>
              if connected then Connected
              else if s.monitor.Probing? && Increment(s.monitor.failures) > w.config.maxRetries then Error
              else Disconnected
            case Conclude(i) => if At(s, i) && BlamesService(w, s.workers[i].phase) then Disconnected else s.sh.service
            case _ => s.sh.service
  {
    if ByWorker(a) {
      WorkerKeeps(w, s, a, s');
    } else {
      assert Inspect(0);
    }
  }
}

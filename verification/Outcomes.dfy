/** What the last record of a task says of its transfer: Completed only after a
    transfer that succeeded, and an upload is recorded as its transfer went. */
module Outcomes {
  import opened SyncTypes
  import opened SyncCore
  import opened Protocol
  import opened Effects
  import opened Conservation
  import opened TaskLife

  // ------------------------------------------------------------------ where an outcome comes from

  /** What a worker makes of what the environment did, if no download begins. */
  ghost predicate Reports(env: Env, outcome: Outcome) {
    match env
    case NoPath(error) => outcome == PathFailed(error)
    case NoCurl => outcome == FailedWith(0, "")
    case Uploaded(true, status, _) => outcome == Succeeded(status)
    case Uploaded(false, status, error) => outcome == FailedWith(status, error)
    case Started(_) => false
  }

  lemma ConcludeBefore(w: World, s: State, j: nat, i: nat)
    requires ConcludeEnabled(s, j) && i != j && At(s, i)
    ensures var s' := ConcludeStep(w, s, j);
            At(s', i) && (s'.workers[i].phase.Finished? ==> s'.workers[i] == s.workers[i])
  {
  }

  lemma OthersBefore(w: World, s: State, a: Action, s': State, i: nat)
    requires Step(w, s, a, s') && !ByWorker(a) && At(s', i) && s'.workers[i].phase.Finished?
    ensures At(s, i) && s.workers[i].phase == s'.workers[i].phase
  {
    assert Inspect(0);
  }

  lemma ConcludeKeepsCount(w: World, s: State, j: nat)
    requires ConcludeEnabled(s, j)
    ensures |ConcludeStep(w, s, j).workers| == |s.workers|
  {
  }

  /** A finished worker was as it is before any step but its own. */
  lemma FinishedBefore(w: World, s: State, a: Action, s': State, i: nat)
    requires Step(w, s, a, s') && At(s', i) && s'.workers[i].phase.Finished? && !(ByWorker(a) && a.w == i)
    ensures At(s, i) && s.workers[i].phase == s'.workers[i].phase
  {
    if !ByWorker(a) {
      OthersBefore(w, s, a, s', i);
    } else if a.Conclude? {
      IsConclude(w, s, a.w, s');
      ConcludeKeepsCount(w, s, a.w);
      ConcludeBefore(w, s, a.w, i);
    } else if a.Deliver? {
      IsDeliver(w, s, a.w, s');
    } else {
      MovesAlone(w, s, a, s');
    }
  }

  /** Only a transfer, or the last file operation of a download, finishes. */
  lemma FinishesBy(w: World, s: State, a: Action, s': State, i: nat)
    requires Step(w, s, a, s') && ByWorker(a) && a.w == i && At(s', i) && s'.workers[i].phase.Finished?
    ensures At(s, i) && (a.Transfer? || a.Fetch?)
    ensures a.Transfer? ==> && s.workers[i].phase.Working? && s.workers[i].phase.item == s'.workers[i].phase.item
                            && s.workers[i].phase.task == s'.workers[i].phase.task
                            && Reports(a.env, s'.workers[i].phase.outcome)
    ensures a.Fetch? ==> s.workers[i].phase.Fetching? && s.workers[i].phase.task == s'.workers[i].phase.task
  {
    match a
    case Seek(_) => IsSeek(w, s, i, s');
    case WakeUp(_) => IsWakeUp(w, s, i, s');
    case Read(_) => IsRead(w, s, i, s');
    case Transfer(_, env) => IsTransfer(w, s, i, env, s');
    case Fetch(_, op) => IsFetch(w, s, i, op, s');
    case Conclude(_) => IsConclude(w, s, i, s'); ConcludeUnfinishes(w, s, i);
    case Requeue(_) => IsRequeue(w, s, i, s');
    case Deliver(_) => IsDeliver(w, s, i, s');
  }

  lemma ConcludeUnfinishes(w: World, s: State, i: nat)
    requires ConcludeEnabled(s, i)
    ensures At(ConcludeStep(w, s, i), i) ==> !ConcludeStep(w, s, i).workers[i].phase.Finished?
  {
  }

  /** The transfer that a finished upload goes back to. */
  lemma {:induction false} UploadTransfer(w: World, ss: seq<State>, acts: seq<Action>, n: nat, i: nat)
    returns (j: nat)
    requires IsRun(w, ss, acts) && n < |ss|
    requires At(ss[n], i) && ss[n].workers[i].phase.Finished? && ss[n].workers[i].phase.task.direction == Upload
    ensures j < n && acts[j].Transfer? && acts[j].w == i && At(ss[j], i) && ss[j].workers[i].phase.Working?
    ensures ss[j].workers[i].phase.item == ss[n].workers[i].phase.item
    ensures Reports(acts[j].env, ss[n].workers[i].phase.outcome)
  {
    var k := n - 1;
    assert StepAt(w, ss, acts, k);
    if ByWorker(acts[k]) && acts[k].w == i {
      FinishesBy(w, ss[k], acts[k], ss[n], i);
      TasksRun(w, ss, acts, k);
      FetchesDownloads(w, ss[k], i);
      j := k;
    } else {
      FinishedBefore(w, ss[k], acts[k], ss[n], i);
      j := UploadTransfer(w, ss, acts, k, i);
    }
  }

  lemma FetchesDownloads(w: World, s: State, i: nat)
    requires TasksOk(w, s) && At(s, i)
    ensures s.workers[i].phase.Fetching? ==> s.workers[i].phase.task.direction == Download
  {
    assert CopyFits(w, s.sh.results, s.workers[i].phase);
  }

  /** The status that worker `i` has from a transfer into its part file, if it has one. */
  function TransferStatus(p: Phase): Option<int> {
    if p.Finished? && p.task.direction == Download && p.outcome.Succeeded? then Some(p.outcome.status)
    else if p.Fetching? && !p.place.Starting? && !p.place.Opening? && !p.place.Writing? then Some(p.place.status)
    else None
  }

  /** Step `k` is the transfer of worker `i`, with this status. */
  ghost predicate Transfers(ss: seq<State>, acts: seq<Action>, k: nat, i: nat, status: int)
    requires |ss| == |acts| + 1 && k < |acts|
  {
    && acts[k].Fetch? && acts[k].w == i && acts[k].op.status == status
    && At(ss[k], i) && ss[k].workers[i].phase.Fetching? && ss[k].workers[i].phase.place.Writing?
  }

  lemma ConcludeStatus(w: World, s: State, j: nat, i: nat)
    requires ConcludeEnabled(s, j) && At(s, i)
    ensures var s' := ConcludeStep(w, s, j);
            At(s', i) && (TransferStatus(s'.workers[i].phase).Some? ==> i != j && s'.workers[i] == s.workers[i])
  {
  }

  lemma OthersStatus(w: World, s: State, a: Action, s': State, i: nat)
    requires Step(w, s, a, s') && !ByWorker(a) && At(s', i) && TransferStatus(s'.workers[i].phase).Some?
    ensures At(s, i) && s.workers[i].phase == s'.workers[i].phase
  {
    assert Inspect(0);
  }

  lemma StatusBefore(w: World, s: State, a: Action, s': State, i: nat)
    requires Step(w, s, a, s') && At(s', i) && TransferStatus(s'.workers[i].phase).Some? && !(ByWorker(a) && a.w == i)
    ensures At(s, i) && s.workers[i].phase == s'.workers[i].phase
  {
    if !ByWorker(a) {
      OthersStatus(w, s, a, s', i);
    } else if a.Conclude? {
      IsConclude(w, s, a.w, s');
      ConcludeKeepsCount(w, s, a.w);
      ConcludeStatus(w, s, a.w, i);
    } else if a.Deliver? {
      IsDeliver(w, s, a.w, s');
    } else {
      MovesAlone(w, s, a, s');
    }
  }

  /** A worker has a status from its own transfer, or had it before. */
  lemma StatusBy(w: World, s: State, a: Action, s': State, i: nat)
    requires Step(w, s, a, s') && ByWorker(a) && a.w == i && At(s', i) && TransferStatus(s'.workers[i].phase).Some?
    requires At(s, i) ==> CopyFits(w, s.sh.results, s.workers[i].phase)
    ensures At(s, i) && a.Fetch? && s.workers[i].phase.Fetching?
    ensures s'.workers[i].phase.item == s.workers[i].phase.item
    ensures s.workers[i].phase.place.Writing? ==> TransferStatus(s'.workers[i].phase) == Some(a.op.status)
    ensures !s.workers[i].phase.place.Writing? ==>
              TransferStatus(s'.workers[i].phase) == TransferStatus(s.workers[i].phase)
  {
    match a
    case Seek(_) => IsSeek(w, s, i, s');
    case WakeUp(_) => IsWakeUp(w, s, i, s');
    case Read(_) => IsRead(w, s, i, s');
    case Transfer(_, env) => IsTransfer(w, s, i, env, s');
    case Fetch(_, op) => IsFetch(w, s, i, op, s');
    case Conclude(_) => IsConclude(w, s, i, s'); ConcludeStatus(w, s, i, i);
    case Requeue(_) => IsRequeue(w, s, i, s');
    case Deliver(_) => IsDeliver(w, s, i, s');
  }

  /** The transfer that the status of a worker comes from. */
  lemma {:induction false} StatusTransfer(w: World, ss: seq<State>, acts: seq<Action>, n: nat, i: nat) returns (k: nat)
    requires IsRun(w, ss, acts) && n < |ss| && At(ss[n], i) && TransferStatus(ss[n].workers[i].phase).Some?
    ensures k < n && Transfers(ss, acts, k, i, TransferStatus(ss[n].workers[i].phase).value)
    ensures ss[k].workers[i].phase.item == ss[n].workers[i].phase.item
  {
    k := n - 1;
    assert StepAt(w, ss, acts, k);
    if ByWorker(acts[k]) && acts[k].w == i {
      TasksRun(w, ss, acts, k);
      StatusBy(w, ss[k], acts[k], ss[n], i);
      if !ss[k].workers[i].phase.place.Writing? {
        k := StatusTransfer(w, ss, acts, k, i);
      }
    } else {
      StatusBefore(w, ss[k], acts[k], ss[n], i);
      k := StatusTransfer(w, ss, acts, k, i);
    }
  }

  // ------------------------------------------------------------------ the record

  lemma CompletionEffect(w: World, s: State, s': State, e: Effect, id: string)
    requires TasksOk(w, s) && Shows(w, s, s', e) && !e.Crash?
    requires id in s'.sh.results && s'.sh.results[id].state == Completed
    requires id in s.sh.results ==> s.sh.results[id].state != Completed
    ensures e.Settle? && At(s, e.i) && s.workers[e.i].phase.Finished? && s.workers[e.i].phase.item.id == id
    ensures var p, r := s.workers[e.i].phase, s'.sh.results[id];
            p.task == r.task && p.outcome == Succeeded(r.httpStatus) && r.error == ""
  {
    if id in s.sh.results {
      EffectOnTask(w, s, s', e, id);
      if e.Settle? {
        assert CopyFits(w, s.sh.results, s.workers[e.i].phase);
      }
    }
  }

  lemma SettlesByConclude(w: World, s: State, a: Action)
    requires EffectOf(w, s, a).Settle?
    ensures a == Conclude(EffectOf(w, s, a).i)
  {
  }

  /** Step `a` records the success of worker `i`. */
  ghost predicate RecordsSuccess(s: State, a: Action, s': State, id: string) {
    && a.Conclude? && At(s, a.w) && s.workers[a.w].phase.Finished? && s.workers[a.w].phase.item.id == id
    && id in s'.sh.results
    && var p, r := s.workers[a.w].phase, s'.sh.results[id];
       p.task == r.task && p.outcome == Succeeded(r.httpStatus) && r.error == "" && r.state == Completed
  }

  lemma CompletionStep(w: World, s: State, a: Action, s': State, id: string)
    requires Sound(w, s, a, s')
    requires id in s'.sh.results && s'.sh.results[id].state == Completed
    ensures if id in s.sh.results && s.sh.results[id].state == Completed then s'.sh.results[id] == s.sh.results[id]
            else RecordsSuccess(s, a, s', id)
  {
    var e := EffectOf(w, s, a);
    assert TasksOk(w, s) && Shows(w, s, s', e) && !e.Crash? by {
      assert Look(0);
    }
    if id in s.sh.results && s.sh.results[id].state == Completed {
      EffectOnTask(w, s, s', e, id);
    } else {
      CompletionEffect(w, s, s', e, id);
      SettlesByConclude(w, s, a);
    }
  }

  /** Every Completed task was recorded by a worker whose transfer had succeeded, with
      the status of that transfer and no error. */
  lemma {:induction false} CompletedForAReason(w: World, ss: seq<State>, acts: seq<Action>, n: nat, id: string)
    returns (k: nat, i: nat)
    requires IsRun(w, ss, acts) && n < |ss|
    requires id in ss[n].sh.results && ss[n].sh.results[id].state == Completed
    ensures k < n && acts[k] == Conclude(i) && RecordsSuccess(ss[k], acts[k], ss[k + 1], id)
    ensures ss[k + 1].sh.results[id] == ss[n].sh.results[id]
  {
    SoundRun(w, ss, acts, n - 1);
    CompletionStep(w, ss[n - 1], acts[n - 1], ss[n], id);
    if id in ss[n - 1].sh.results && ss[n - 1].sh.results[id].state == Completed {
      k, i := CompletedForAReason(w, ss, acts, n - 1, id);
    } else {
      k, i := n - 1, acts[n - 1].w;
    }
  }

  /** A Completed upload was uploaded: the worker that recorded it had a transfer that
      succeeded, with the status that is recorded. */
  lemma CompletedUpload(w: World, ss: seq<State>, acts: seq<Action>, n: nat, id: string)
    returns (j: nat, i: nat, message: string)
    requires IsRun(w, ss, acts) && n < |ss|
    requires id in ss[n].sh.results && ss[n].sh.results[id].state == Completed
    requires ss[n].sh.results[id].task.direction == Upload
    ensures j < n && acts[j] == Transfer(i, Uploaded(true, ss[n].sh.results[id].httpStatus, message))
    ensures At(ss[j], i) && Holding(ss[j].workers[i].phase) && ss[j].workers[i].phase.item.id == id
  {
    var k;
    k, i := CompletedForAReason(w, ss, acts, n, id);
    j := UploadTransfer(w, ss, acts, k, i);
    message := acts[j].env.error;
  }

  /** A Completed download was transferred with the status that is recorded. */
  lemma CompletedTransfer(w: World, ss: seq<State>, acts: seq<Action>, n: nat, id: string) returns (j: nat, i: nat)
    requires IsRun(w, ss, acts) && n < |ss|
    requires id in ss[n].sh.results && ss[n].sh.results[id].state == Completed
    requires ss[n].sh.results[id].task.direction == Download
    ensures j < n && Transfers(ss, acts, j, i, ss[n].sh.results[id].httpStatus)
    ensures ss[j].workers[i].phase.item.id == id
  {
    var k;
    k, i := CompletedForAReason(w, ss, acts, n, id);
    j := StatusTransfer(w, ss, acts, k, i);
  }
}

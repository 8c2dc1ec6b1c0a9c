/** Which downloads are retried, from the file operation that fails to the end of
    the attempt: a size or digest mismatch always is while attempts are left, a
    part file that cannot be opened never, and otherwise the status decides. */
module RetryRules {
  import opened SyncTypes
  import opened SyncCore
  import opened Protocol
  import opened Effects
  import opened Conservation
  import opened TaskLife
  import opened Publishing
  import Downloads
  import Admission
  import Fips180

  // ------------------------------------------------------------------ a worker keeps what it holds

  ghost predicate KeepsPhase(s: State, s': State, i: nat) {
    At(s, i) && At(s', i) && s'.workers[i] == s.workers[i]
  }

  lemma ConcludeKeeps(w: World, s: State, j: nat, i: nat)
    requires ConcludeEnabled(s, j) && At(s, i) && i != j && Holding(s.workers[i].phase)
    ensures KeepsPhase(s, ConcludeStep(w, s, j), i)
  {
  }

  lemma OthersKeep(w: World, s: State, a: Action, s': State, i: nat)
    requires Step(w, s, a, s') && !ByWorker(a) && Lifecycle(w.config, s) && At(s, i) && Holding(s.workers[i].phase)
    ensures KeepsPhase(s, s', i)
  {
    assert Inspect(0);
  }

  /** Only its own steps change the phase of a worker that holds a task. */
  lemma HolderKeeps(w: World, s: State, a: Action, s': State, i: nat)
    requires Step(w, s, a, s') && Lifecycle(w.config, s) && At(s, i) && Holding(s.workers[i].phase)
    requires !(ByWorker(a) && a.w == i)
    ensures KeepsPhase(s, s', i)
  {
    if !ByWorker(a) {
      OthersKeep(w, s, a, s', i);
    } else if a.Conclude? {
      IsConclude(w, s, a.w, s');
      ConcludeKeeps(w, s, a.w, i);
    } else if a.Deliver? {
      IsDeliver(w, s, a.w, s');
    } else {
      MovesAlone(w, s, a, s');
    }
  }

  // ------------------------------------------------------------------ the reason is carried to the end

  /** Worker `i` has failed for `reason`, with this status, and has not recorded it yet. */
  ghost predicate FailedFor(w: World, s: State, i: nat, status: int, reason: Downloads.Response) {
    && At(s, i)
    && var p := s.workers[i].phase;
       || (p.Fetching? && p.place == Downloads.Discarding(status, reason))
       || (p.Finished? && p.outcome == FailedWith(status, w.text(reason)))
  }

  /** The status when the operation at `place` has failed. */
  function StatusAt(place: Downloads.Place, op: Downloads.Op): int {
    match place
    case Starting(prior) => prior
    case Opening(prior) => prior
    case Writing => op.status
    case _ => place.status
  }

  /** The operation at which a download fails for `reason`. */
  lemma FailsFor(w: World, s: State, a: Action, s': State, reason: Downloads.Response)
    requires Step(w, s, a, s') && a.Fetch? && At(s, a.w) && s.workers[a.w].phase.Fetching?
    requires var p := s.workers[a.w].phase;
             && (p.place.Opening? || p.place.Writing? || p.place.Sizing? || p.place.Hashing? || p.place.Renaming?)
             && w.problem(s.files, p.task, p.place, a.op) == Some(reason)
    ensures FailedFor(w, s', a.w, StatusAt(s.workers[a.w].phase.place, a.op), reason)
  {
    IsFetch(w, s, a.w, a.op, s');
  }

  lemma FailedForStep(w: World, s: State, a: Action, s': State, i: nat, status: int, reason: Downloads.Response)
    requires Step(w, s, a, s') && Lifecycle(w.config, s) && FailedFor(w, s, i, status, reason) && a != Conclude(i)
    ensures FailedFor(w, s', i, status, reason)
  {
    if ByWorker(a) && a.w == i {
      OwnStepCarries(w, s, a, s', status, reason);
    } else {
      HolderKeeps(w, s, a, s', i);
    }
  }

  lemma OwnStepCarries(w: World, s: State, a: Action, s': State, status: int, reason: Downloads.Response)
    requires Step(w, s, a, s') && ByWorker(a) && FailedFor(w, s, a.w, status, reason) && !a.Conclude?
    ensures FailedFor(w, s', a.w, status, reason)
  {
    match a
    case Seek(i) => IsSeek(w, s, i, s');
    case WakeUp(i) => IsWakeUp(w, s, i, s');
    case Read(i) => IsRead(w, s, i, s');
    case Transfer(i, env) => IsTransfer(w, s, i, env, s');
    case Fetch(i, op) => IsFetch(w, s, i, op, s');
    case Requeue(i) => IsRequeue(w, s, i, s');
    case Deliver(i) => IsDeliver(w, s, i, s');
  }

  lemma FailedForNext(w: World, ss: seq<State>, acts: seq<Action>, k: nat, i: nat, status: int,
                      reason: Downloads.Response)
    requires IsRun(w, ss, acts) && k < |acts| && FailedFor(w, ss[k], i, status, reason) && acts[k] != Conclude(i)
    ensures FailedFor(w, ss[k + 1], i, status, reason)
  {
    BasicRun(w, ss, acts, k);
    assert StepAt(w, ss, acts, k);
    FailedForStep(w, ss[k], acts[k], ss[k + 1], i, status, reason);
  }

  lemma {:induction false} FailedForRun(w: World, ss: seq<State>, acts: seq<Action>, m: nat, n: nat, i: nat,
                                        status: int, reason: Downloads.Response)
    requires IsRun(w, ss, acts) && m <= n < |ss| && FailedFor(w, ss[m], i, status, reason)
    requires forall k | m <= k < n :: acts[k] != Conclude(i)
    ensures FailedFor(w, ss[n], i, status, reason)
    decreases n
  {
    if m < n {
      FailedForRun(w, ss, acts, m, n - 1, i, status, reason);
      FailedForNext(w, ss, acts, n - 1, i, status, reason);
    }
  }

  // ------------------------------------------------------------------ what is retried

  /** The worker goes on to put its task back; without an answer, or with one that
      blames the server, the service is taken to be disconnected. */
  ghost predicate PutsBack(s: State, s': State, i: nat, status: int) {
    && At(s, i) && Holding(s.workers[i].phase)
    && At(s', i) && s'.workers[i].phase.Retrying? && s'.workers[i].phase.item == s.workers[i].phase.item
    && s'.sh.service == if status == 0 || status >= 500 then Disconnected else s.sh.service
  }

  /** The task of the worker has become Failed, with this status and text. */
  ghost predicate Fails(s: State, s': State, i: nat, status: int, text: string) {
    && At(s, i) && Holding(s.workers[i].phase)
    && var id := s.workers[i].phase.item.id;
       && id in s'.sh.results && s'.sh.results[id].state == Failed
       && s'.sh.results[id].httpStatus == status && s'.sh.results[id].error == text
  }

  /** At the end of an attempt `is_retryable` and the budget decide. */
  lemma DecidedAtEnd(w: World, s: State, i: nat, s': State, status: int, reason: Downloads.Response)
    requires Step(w, s, Conclude(i), s') && FailedFor(w, s, i, status, reason) && Known(s, i)
    ensures s.workers[i].phase.Finished?
    ensures if w.retryable(status, w.text(reason)) && s.workers[i].phase.attempts <= w.config.maxRetries
            then PutsBack(s, s', i, status)
            else Fails(s, s', i, status, w.text(reason))
  {
    IsConclude(w, s, i, s');
  }

  /** The next end of the attempt after `ss[m]`. */
  ghost predicate EndsAt(acts: seq<Action>, m: nat, n: nat, i: nat) {
    m <= n < |acts| && acts[n] == Conclude(i) && forall k | m <= k < n :: acts[k] != Conclude(i)
  }

  lemma DecidedInRun(w: World, ss: seq<State>, acts: seq<Action>, m: nat, n: nat, i: nat, status: int,
                     reason: Downloads.Response)
    requires IsRun(w, ss, acts) && EndsAt(acts, m, n, i) && FailedFor(w, ss[m], i, status, reason)
    ensures At(ss[n], i) && ss[n].workers[i].phase.Finished?
    ensures if w.retryable(status, w.text(reason)) && ss[n].workers[i].phase.attempts <= w.config.maxRetries
            then PutsBack(ss[n], ss[n + 1], i, status)
            else Fails(ss[n], ss[n + 1], i, status, w.text(reason))
  {
    FailedForRun(w, ss, acts, m, n, i, status, reason);
    BasicRun(w, ss, acts, n);
    assert StepAt(w, ss, acts, n);
    HeldItem(ss[n], i);
    DecidedAtEnd(w, ss[n], i, ss[n + 1], status, reason);
  }

  /** The next end of an attempt after a mismatch is a retry exactly while attempts
      are left: the worker goes on to put the task back. */
  lemma MismatchPutBack(c: Config, resolve: string -> string, message: string, ss: seq<State>, acts: seq<Action>,
                        m: nat, n: nat, i: nat, status: int, reason: Downloads.Response)
    requires IsRun(SourceWorld(c, resolve, message), ss, acts) && EndsAt(acts, m, n, i)
    requires FailedFor(SourceWorld(c, resolve, message), ss[m], i, status, reason)
    requires reason.WrongSize? || reason.WrongHash?
    ensures At(ss[n], i) && ss[n].workers[i].phase.Finished?
    ensures if ss[n].workers[i].phase.attempts <= c.maxRetries then PutsBack(ss[n], ss[n + 1], i, status)
            else Fails(ss[n], ss[n + 1], i, status, Downloads.Text(reason))
  {
    DecidedInRun(SourceWorld(c, resolve, message), ss, acts, m, n, i, status, reason);
    Admission.MismatchIsRetried(status, reason);
  }

  /** The next end of an attempt whose part file could not be opened is a failure,
      however many attempts are left. */
  lemma UnopenedFails(c: Config, resolve: string -> string, message: string, ss: seq<State>, acts: seq<Action>,
                      m: nat, n: nat, i: nat, status: int)
    requires IsRun(SourceWorld(c, resolve, message), ss, acts) && EndsAt(acts, m, n, i)
    requires FailedFor(SourceWorld(c, resolve, message), ss[m], i, status, Downloads.CannotOpen)
    ensures Fails(ss[n], ss[n + 1], i, status, "Failed to open file for writing.")
  {
    DecidedInRun(SourceWorld(c, resolve, message), ss, acts, m, n, i, status, Downloads.CannotOpen);
    Admission.UnopenedIsNotRetried(status);
  }

  lemma DecidedByStatus(c: Config, resolve: string -> string, message: string, ss: seq<State>, acts: seq<Action>,
                      m: nat, n: nat, i: nat, status: int, reason: Downloads.Response)
    requires IsRun(SourceWorld(c, resolve, message), ss, acts) && EndsAt(acts, m, n, i)
    requires FailedFor(SourceWorld(c, resolve, message), ss[m], i, status, reason)
    requires reason == Downloads.BadStatus(status) || Admission.Plain(Downloads.Text(reason))
    ensures At(ss[n], i) && ss[n].workers[i].phase.Finished?
    ensures if && (status == 0 || status == 408 || status == 425 || status == 429 || status >= 500)
               && ss[n].workers[i].phase.attempts <= c.maxRetries
            then PutsBack(ss[n], ss[n + 1], i, status)
            else Fails(ss[n], ss[n + 1], i, status, Downloads.Text(reason))
  {
    DecidedInRun(SourceWorld(c, resolve, message), ss, acts, m, n, i, status, reason);
    if reason == Downloads.BadStatus(status) {
      Admission.StatusRetriedExactly(status);
    } else {
      Admission.PlainDecidedByStatus(status, Downloads.Text(reason));
    }
  }

  /** What a transfer fails for that is answered with an unexpected status, or that
      the library reports as an error. */
  function TransferReason(op: Downloads.Op): Downloads.Response {
    if op.ok then Downloads.BadStatus(op.status) else Downloads.SystemError(op.message)
  }

  lemma TransferProblem(c: Config, resolve: string -> string, message: string, files: Downloads.Files, task: SyncTask,
                        op: Downloads.Op)
    requires op.ok ==> op.status != 0 && !(200 <= op.status < 300)
    ensures SourceWorld(c, resolve, message).problem(files, task, Downloads.Writing, op) == Some(TransferReason(op))
  {
    assert SourceWorld(c, resolve, message).problem(files, task, Downloads.Writing, op)
        == Downloads.Problem(files, resolve(task.localPath), Fips180.DigestText, task.validation,
                             Downloads.Writing, op);
  }

  /** A download whose transfer is answered with an unexpected status, or ends in an
      error of the transfer whose text holds none of the phrases that decide by
      themselves, is put back exactly for these statuses while attempts are left. */
  lemma StatusDecides(c: Config, resolve: string -> string, message: string, ss: seq<State>, acts: seq<Action>,
                      m: nat, n: nat, i: nat, op: Downloads.Op)
    requires IsRun(SourceWorld(c, resolve, message), ss, acts) && m < |acts| && acts[m] == Fetch(i, op)
    requires At(ss[m], i) && ss[m].workers[i].phase.Fetching? && ss[m].workers[i].phase.place.Writing?
    requires if op.ok then op.status != 0 && !(200 <= op.status < 300) else Admission.Plain(op.message)
    requires EndsAt(acts, m + 1, n, i)
    ensures At(ss[n], i) && ss[n].workers[i].phase.Finished?
    ensures if && (op.status == 0 || op.status == 408 || op.status == 425 || op.status == 429 || op.status >= 500)
               && ss[n].workers[i].phase.attempts <= c.maxRetries
            then PutsBack(ss[n], ss[n + 1], i, op.status)
            else Fails(ss[n], ss[n + 1], i, op.status, Downloads.Text(TransferReason(op)))
  {
    var w := SourceWorld(c, resolve, message);
    assert StepAt(w, ss, acts, m);
    TransferProblem(c, resolve, message, ss[m].files, ss[m].workers[i].phase.task, op);
    FailsFor(w, ss[m], acts[m], ss[m + 1], TransferReason(op));
    DecidedByStatus(c, resolve, message, ss, acts, m + 1, n, i, op.status, TransferReason(op));
  }
}

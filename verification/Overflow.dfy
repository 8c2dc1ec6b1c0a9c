/** Why the bound on takes needs max_retries < 2^32 - 1: with a larger budget the
    attempt counter wraps, and one task can be taken without end. */
module Overflow {
  import opened SyncTypes
  import opened SyncCore
  import opened Protocol
  import opened TaskLife
  import opened Timing
  import opened Progress
  import opened Runs
  import opened Publishing
  import SyncManagers

  // ------------------------------------------------------------------ a task that goes round

  /** One accepted task, an upload, and a connected service; the first large worker,
      at place `x`, is in phase `p`. */
  ghost predicate Going(s: State, x: nat, id: string, p: Phase) {
    && s.sh.service == Connected && !s.sh.stopping && |s.accepted| == 1
    && id in s.sh.results && s.sh.results[id].task.direction == Upload
    && At(s, x) && s.workers[x].large && s.workers[x].phase == p
  }

  /** It waits in the large queue. */
  ghost predicate Waiting(s: State, x: nat, id: string) {
    Going(s, x, id, Seeking) && |s.sh.large| == 1 && s.sh.large[0].id == id && s.sh.large[0].large
  }

  /** The outcome that is retried and leaves the service connected. */
  predicate Busy(w: World, status: int, error: string) {
    0 < status < 500 && w.retryable(status, error)
  }

  lemma PassTime(w: World, s: State, x: nat, id: string) returns (a: Action, s': State)
    requires Waiting(s, x, id)
    ensures Step(w, s, a, s') && a.Tick? && Waiting(s', x, id) && s'.sh.large[0].readyAt <= s'.now
  {
    var t := s.sh.large[0].readyAt;
    a := Tick(if s.now < t then t - s.now else 0);
    s' := Apply(w, s, a);
  }

  lemma TakeIt(w: World, s: State, x: nat, id: string) returns (s': State, item: QueueItem)
    requires Waiting(s, x, id) && s.sh.large[0].readyAt <= s.now
    ensures Step(w, s, Seek(x), s') && Going(s', x, id, Taken(item)) && item.id == id && item.large && s'.sh.large == []
  {
    item := s.sh.large[0];
    assert FirstReady(s.sh.large, s.now) == 0;
    assert Without(s.sh.large, 0) == [];
    s' := SeekStep(s, x);
  }

  lemma ReadIt(w: World, s: State, x: nat, id: string, item: QueueItem) returns (s': State)
    requires Going(s, x, id, Taken(item)) && item.id == id && s.sh.large == []
    ensures Step(w, s, Read(x), s')
    ensures Going(s', x, id, Working(item, s.sh.results[id].task, s.sh.results[id].attempts)) && s'.sh.large == []
  {
    s' := ReadStep(s, x);
  }

  lemma TransferIt(w: World, s: State, x: nat, id: string, p: Phase, status: int, error: string) returns (s': State)
    requires Going(s, x, id, p) && p.Working? && p.task.direction == Upload && s.sh.large == []
    ensures Step(w, s, Transfer(x, Uploaded(false, status, error)), s')
    ensures Going(s', x, id, Finished(p.item, p.task, p.attempts, FailedWith(status, error))) && s'.sh.large == []
  {
    s' := TransferStep(s, x, Uploaded(false, status, error));
  }

  lemma ConcludeIt(w: World, s: State, x: nat, id: string, p: Phase, status: int, error: string) returns (s': State)
    requires Going(s, x, id, p) && p.Finished? && p.outcome == FailedWith(status, error) && s.sh.large == []
    requires Busy(w, status, error) && w.config.maxRetries + 1 == U32_LIMIT
    ensures Step(w, s, Conclude(x), s')
    ensures Going(s', x, id, Retrying(p.item, p.attempts, status, error)) && s'.sh.large == []
  {
    s' := ConcludeStep(w, s, x);
  }

  lemma RequeueIt(w: World, s: State, x: nat, id: string, p: Phase) returns (s': State, q: Phase)
    requires Going(s, x, id, p) && p.Retrying? && s.sh.large == [] && p.item.id == id && p.item.large
    ensures Step(w, s, Requeue(x), s') && Going(s', x, id, q) && q.Reporting?
    ensures |s'.sh.large| == 1 && s'.sh.large[0].id == id && s'.sh.large[0].large
  {
    s' := RequeueStep(w, s, x);
    q := s'.workers[x].phase;
  }

  lemma DeliverIt(w: World, s: State, x: nat, id: string, p: Phase) returns (s': State)
    requires Going(s, x, id, p) && p.Reporting? && |s.sh.large| == 1 && s.sh.large[0].id == id && s.sh.large[0].large
    ensures Step(w, s, Deliver(x), s') && Waiting(s', x, id)
  {
    s' := DeliverStep(s, x);
  }

  /** The worker is about to upload. */
  ghost predicate Uploading(s: State, x: nat, id: string) {
    && At(s, x) && s.workers[x].phase.Working? && Going(s, x, id, s.workers[x].phase) && s.sh.large == []
    && s.workers[x].phase.item.id == id && s.workers[x].phase.item.large
    && s.workers[x].phase.task.direction == Upload
  }

  /** From waiting to the transfer. */
  lemma HalfRound(w: World, s: State, x: nat, id: string, takes: nat) returns (s': State)
    requires Reachable(w, s, takes) && Waiting(s, x, id)
    ensures Reachable(w, s', takes + 1) && Uploading(s', x, id)
  {
    var a, s1 := PassTime(w, s, x, id);
    Further(w, s, takes, a, s1);
    var s2, item := TakeIt(w, s1, x, id);
    Further(w, s1, takes, Seek(x), s2);
    s' := ReadIt(w, s2, x, id, item);
    Further(w, s2, takes + 1, Read(x), s');
  }

  /** From the transfer to waiting. */
  lemma RoundEnds(w: World, s: State, x: nat, id: string, takes: nat, status: int, error: string) returns (s': State)
    requires Reachable(w, s, takes) && Uploading(s, x, id)
    requires Busy(w, status, error) && w.config.maxRetries + 1 == U32_LIMIT
    ensures Reachable(w, s', takes) && Waiting(s', x, id)
  {
    var s1 := TransferIt(w, s, x, id, s.workers[x].phase, status, error);
    Further(w, s, takes, Transfer(x, Uploaded(false, status, error)), s1);
    var s2 := ConcludeIt(w, s1, x, id, s1.workers[x].phase, status, error);
    Further(w, s1, takes, Conclude(x), s2);
    var s3, p := RequeueIt(w, s2, x, id, s2.workers[x].phase);
    Further(w, s2, takes, Requeue(x), s3);
    s' := DeliverIt(w, s3, x, id, p);
    Further(w, s3, takes, Deliver(x), s');
  }

  /** Seven steps, one of them a take, lead back. */
  lemma Round(w: World, s: State, x: nat, id: string, takes: nat, status: int, error: string) returns (s': State)
    requires Reachable(w, s, takes) && Waiting(s, x, id)
    requires Busy(w, status, error) && w.config.maxRetries + 1 == U32_LIMIT
    ensures Reachable(w, s', takes + 1) && Waiting(s', x, id)
  {
    var middle := HalfRound(w, s, x, id, takes);
    s' := RoundEnds(w, middle, x, id, takes + 1, status, error);
  }

  lemma Begin(w: World, task: SyncTask) returns (s: State)
    requires ValidConfig(w.config) && w.admits(task, true) && task.direction == Upload
    ensures Reachable(w, s, 0) && Waiting(s, w.config.smallFileWorkers, task.id)
  {
    var s1 := Connect(w);
    s := EnqueueStep(s1, task, true);
    Further(w, s1, 0, Enqueue(task, true), s);
  }

  lemma {:induction false} Rounds(w: World, task: SyncTask, status: int, error: string, n: nat) returns (s: State)
    requires ValidConfig(w.config) && w.admits(task, true) && task.direction == Upload
    requires Busy(w, status, error) && w.config.maxRetries + 1 == U32_LIMIT
    ensures Reachable(w, s, n) && Waiting(s, w.config.smallFileWorkers, task.id)
  {
    if n == 0 {
      s := Begin(w, task);
    } else {
      var s0 := Rounds(w, task, status, error, n - 1);
      s := Round(w, s0, w.config.smallFileWorkers, task.id, n - 1, status, error);
    }
  }

  // ------------------------------------------------------------------ the bound, exactly

  /** Every run keeps the bound on takes. */
  ghost predicate TakesAreBounded(w: World) {
    forall ss, acts, s, takes: nat | EndsIn(w, ss, acts, s, takes) ::
      takes <= |s.accepted| * (w.config.maxRetries + 1)
  }

  /** n accepted tasks cause at most n (max_retries + 1) takes in every run exactly
      when max_retries < 2^32 - 1. */
  lemma TakesBoundedExactly(w: World, task: SyncTask, status: int, error: string)
    requires ValidConfig(w.config) && w.admits(task, true) && task.direction == Upload && Busy(w, status, error)
    ensures TakesAreBounded(w) <==> BudgetFits(w.config)
  {
    if BudgetFits(w.config) {
      forall ss, acts, s, takes: nat | EndsIn(w, ss, acts, s, takes)
        ensures takes <= |s.accepted| * (w.config.maxRetries + 1)
      {
        TakesBounded(w, ss, acts, |acts|);
      }
    } else {
      var s := Rounds(w, task, status, error, U32_LIMIT + 1);
      assert Look(0);
      var ss, acts :| EndsIn(w, ss, acts, s, U32_LIMIT + 1);
    }
  }

  /** In the source's world, whatever paths resolve to. */
  lemma SourceTakesBounded(c: Config, resolve: string -> string, message: string)
    requires ValidConfig(c)
    ensures TakesAreBounded(SourceWorld(c, resolve, message)) <==> c.maxRetries < 4294967295
  {
    var task := SyncTask("a", Upload, "http", "a", Validation(None, ""));
    assert IsRetryable(408, "");
    PlainTaskIsWellFormed(task);
    SyncManagers.AdmissibleClasses(c, task, true);
    TakesBoundedExactly(SourceWorld(c, resolve, message), task, 408, "");
  }
}

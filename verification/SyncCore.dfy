/** What each `mutex_` critical section of net/sync_manager.cpp computes, as a
    function of the fields it guards. The class `SyncManager` is proved against
    these functions and the transition system in `Protocol` steps by them. */
module SyncCore {
  import opened SyncTypes

  /** The fields guarded by `mutex_`; `callback` says whether one is installed. */
  datatype Shared = Shared(
    started: bool, stopping: bool, service: ServiceState,
    small: seq<QueueItem>, large: seq<QueueItem>,
    results: map<string, SyncResult>, active: nat, callback: bool)

  function Initial(): Shared {
    Shared(false, false, Disconnected, [], [], map[], 0, false)
  }

  function Queue(sh: Shared, large: bool): seq<QueueItem> {
    if large then sh.large else sh.small
  }

  function WithQueue(sh: Shared, large: bool, q: seq<QueueItem>): Shared {
    if large then sh.(large := q) else sh.(small := q)
  }

  predicate QueuesEmpty(sh: Shared) {
    sh.small == [] && sh.large == []
  }

  /** The predicate waited for on `idle_cv_`. */
  predicate IdlePredicate(sh: Shared) {
    (sh.active == 0 && QueuesEmpty(sh)) || sh.service == Error || sh.stopping
  }

  /** What `wait_for_idle` returns when it stops waiting. */
  predicate IdleVerdict(sh: Shared) {
    IdlePredicate(sh) && sh.service != Error && !sh.stopping
  }

  // ------------------------------------------------------------------ start, stop

  predicate ValidConfig(c: Config) {
    && c.localRoot != "" && c.healthUrl != ""
    && c.smallFileWorkers != 0 && c.largeFileWorkers != 0 && c.networkTimeoutMs > 0
  }

  function StartLocked(sh: Shared): Shared {
    sh.(stopping := false, started := true, service := Connecting)
  }

  function Cancelling(results: map<string, SyncResult>): map<string, SyncResult> {
    map id | id in results ::
      if Queueable(results[id].state) then results[id].(state := Cancelled) else results[id]
  }

  function StopLocked(sh: Shared): Shared {
    sh.(stopping := true, started := false, results := Cancelling(sh.results), small := [], large := [])
  }

  // ------------------------------------------------------------------ enqueue

  function Accepted(task: SyncTask): SyncResult {
    SyncResult(task, Pending, 0, 0, "")
  }

  predicate Accepts(sh: Shared, id: string) {
    sh.started && !sh.stopping && id !in sh.results
  }

  function EnqueueLocked(sh: Shared, task: SyncTask, large: bool, now: int): Shared {
    if !Accepts(sh, task.id) then sh
    else
      var stored := sh.(results := sh.results[task.id := Accepted(task)]);
      WithQueue(stored, large, Queue(stored, large) + [QueueItem(task.id, large, now)])
  }

  // ------------------------------------------------------------------ take

  /** How one pass through the loop of `take_task` ends. `Threw` is the
      exception of `results_.at`. */
  datatype Pass = Leave | AwaitService | AwaitWork | AwaitUntil(time: int) | Took(item: QueueItem) | Threw

  /** The index of the first item that is ready, or the length of the queue. */
  function FirstReady(q: seq<QueueItem>, now: int): (k: nat)
    ensures k <= |q|
    ensures forall j | 0 <= j < k :: now < q[j].readyAt
    ensures k < |q| ==> q[k].readyAt <= now
  {
    if q == [] then 0
    else if q[0].readyAt <= now then 0
    else 1 + FirstReady(q[1..], now)
  }

  function MinReadyAt(q: seq<QueueItem>): (t: int)
    requires q != []
    ensures exists j | 0 <= j < |q| :: q[j].readyAt == t
    ensures forall j | 0 <= j < |q| :: t <= q[j].readyAt
  {
    if |q| == 1 then q[0].readyAt
    else
      var rest := MinReadyAt(q[1..]);
      if rest < q[0].readyAt then rest else q[0].readyAt
  }

  function Without(q: seq<QueueItem>, k: nat): seq<QueueItem>
    requires k < |q|
  {
    q[..k] + q[k + 1..]
  }

  /** `++result.attempts` on an `unsigned int`. */
  function Increment(attempts: U32): U32 {
    (attempts + 1) % U32_LIMIT
  }

  function TakePass(sh: Shared, large: bool, now: int): (Shared, Pass) {
    if sh.stopping || sh.service == Error then (sh, Leave)
    else if sh.service != Connected then (sh, AwaitService)
    else
      var q := Queue(sh, large);
      var k := FirstReady(q, now);
      if k < |q| then
        var item := q[k];
        var popped := WithQueue(sh, large, Without(q, k));
        if item.id !in sh.results then (popped, Threw)
        else
          var r := sh.results[item.id];
          (popped.(results := sh.results[item.id := r.(state := InProgress, attempts := Increment(r.attempts))],
                   active := sh.active + 1),
           Took(item))
      else if q == [] then (sh, AwaitWork)
      else (sh, AwaitUntil(MinReadyAt(q)))
  }

  // ------------------------------------------------------------------ complete, requeue

  function Released(active: nat): nat {
    if active > 0 then active - 1 else active
  }

  function CompleteLocked(sh: Shared, id: string, state: TaskState, error: string, status: int): Shared
    requires id in sh.results
  {
    sh.(results := sh.results[id := sh.results[id].(state := state, error := error, httpStatus := status)],
        active := Released(sh.active))
  }

  function RequeueLocked(sh: Shared, item: QueueItem, error: string, status: int,
                         now: int, retryDelay: nat): Shared
    requires item.id in sh.results
  {
    var state := if sh.stopping then Cancelled else if sh.service == Error then Failed else Retry;
    var stored := sh.(
      results := sh.results[item.id := sh.results[item.id].(state := state, error := error, httpStatus := status)],
      active := Released(sh.active));
    if sh.stopping || sh.service == Error then stored
    else WithQueue(stored, item.large, Queue(stored, item.large) + [item.(readyAt := now + retryDelay)])
  }

  /** Both sections notify `idle_cv_` exactly under this test of the new state. */
  predicate NotifiesIdle(after: Shared) {
    after.active == 0 && QueuesEmpty(after)
  }

  // ------------------------------------------------------------------ service state

  /** `message` is the text given to a task that has no error of its own. */
  function FailedByService(r: SyncResult, message: string): SyncResult {
    r.(state := Failed, error := if r.error == "" then message else r.error)
  }

  function Failing(results: map<string, SyncResult>, message: string): map<string, SyncResult> {
    map id | id in results ::
      if Queueable(results[id].state) then FailedByService(results[id], message) else results[id]
  }

  /** Whether storing `state` sweeps the queues. */
  predicate EntersError(sh: Shared, state: ServiceState) {
    sh.service != state && state == Error
  }

  function SetServiceLocked(sh: Shared, state: ServiceState, message: string): Shared {
    if EntersError(sh, state) then
      sh.(service := state, results := Failing(sh.results, message), small := [], large := [])
    else sh.(service := state)
  }

  // ------------------------------------------------------------------ retry decision

  predicate OccursAt(s: string, pattern: string, i: nat) {
    i + |pattern| <= |s| && s[i..i + |pattern|] == pattern
  }

  predicate Contains(s: string, pattern: string) {
    exists i: nat | i <= |s| :: OccursAt(s, pattern, i)
  }

  predicate IsRetryable(status: int, error: string) {
    && !Contains(error, "File does not exist")
    && !Contains(error, "Failed to open file")
    && !Contains(error, "Cannot read")
    && !Contains(error, "Cannot create")
    && (status == 0 || status == 408 || status == 425 || status == 429 ||
        status >= 500 || Contains(error, "validation failed"))
  }
}

/** The scheduler of net/sync_manager.cpp as a transition system. Each action is
    one critical section of one thread, or a step a thread makes on its own
    between two of them; any enabled action may come next. */
module Protocol {
  import opened SyncTypes
  import opened SyncCore
  import Downloads

  /** What the protocol is open in: the configuration, which tasks the checks of
      `enqueue` let into which class, `is_retryable`, what a file operation of a
      download does and what stands in its way, the text of a download's response,
      and the message of a swept task. */
  datatype World = World(config: Config,
                         admits: (SyncTask, bool) -> bool,
                         retryable: (int, string) -> bool,
                         touched: (Downloads.Files, SyncTask, Downloads.Place, Downloads.Op) -> Downloads.Files,
                         problem: (Downloads.Files, SyncTask, Downloads.Place, Downloads.Op)
                                  -> Option<Downloads.Response>,
                         text: Downloads.Response -> string,
                         message: string)

  // ------------------------------------------------------------------ threads

  /** What a worker parked on `queue_cv_` waits for. */
  datatype Wakeup = ForService | ForWork | ForTime(time: int)

  datatype Outcome = PathFailed(error: string) | Succeeded(status: int) | FailedWith(status: int, error: string)

  datatype Phase =
    | Seeking                                             // at the head of the loop of take_task
    | Parked(wakeup: Wakeup)                              // waiting on queue_cv_
    | Taken(item: QueueItem)                              // take_task returned
    | Working(item: QueueItem, task: SyncTask, attempts: U32)
    | Fetching(item: QueueItem, task: SyncTask, attempts: U32, place: Downloads.Place)
    | Finished(item: QueueItem, task: SyncTask, attempts: U32, outcome: Outcome)
    | Retrying(item: QueueItem, attempts: U32, status: int, error: string)
    | Reporting(snapshot: Option<SyncResult>, notify: bool)  // lock released, callback not yet called
    | Exited
    | Crashed                                             // results_.at threw

  datatype Worker = Worker(large: bool, phase: Phase)

  datatype Monitor =
    | NoMonitor
    | Polling(failures: U32)
    | Probing(failures: U32)
    | Announcing(failures: U32, pending: seq<SyncResult>)
    | Sleeping(failures: U32)
    | Ended

  /** Where the thread that calls `start` and `stop` is. */
  datatype Control = Ready | StopRequested | StopAnnounced | Joining

  datatype State = State(
    sh: Shared, workers: seq<Worker>, monitor: Monitor, control: Control,
    now: int,
    notifies: nat,          // enqueue calls that still owe their notify on queue_cv_
    sleepers: nat,          // threads asleep on idle_cv_
    accepted: seq<string>,  // ids in the order of acceptance
    files: Downloads.Files)

  /** What the environment decides about a transfer. */
  datatype Env =
    | NoPath(error: string)
    | NoCurl                                              // there is no handle to make a request with
    | Started(prior: int)                                 // a download begins, after a request with this status
    | Uploaded(ok: bool, status: int, error: string)

  datatype Action =
    | Start | StopLock | StopAnnounce | StopNotify | StopJoin
    | Enqueue(task: SyncTask, large: bool) | EnqueueNotify
    | Seek(w: nat) | WakeUp(w: nat) | Read(w: nat) | Transfer(w: nat, env: Env)
    | Fetch(w: nat, op: Downloads.Op)
    | Conclude(w: nat) | Requeue(w: nat) | Deliver(w: nat)
    | Poll | Probe(connected: bool, order: seq<string>) | Announce | Rest
    | WaitIdle | StopWaiting | SetCallback(installed: bool) | Tick(delta: nat)

  // ------------------------------------------------------------------ helpers

  predicate Holding(p: Phase) {
    p.Taken? || p.Working? || p.Fetching? || p.Finished? || p.Retrying?
  }

  predicate At(s: State, w: nat) {
    w < |s.workers|
  }

  function WithPhase(s: State, w: nat, p: Phase): State
    requires At(s, w)
  {
    s.(workers := s.workers[w := s.workers[w].(phase := p)])
  }

  function Woken(worker: Worker): Worker {
    if worker.phase.Parked? then worker.(phase := Seeking) else worker
  }

  /** `queue_cv_.notify_all()` */
  function WakeAll(workers: seq<Worker>): (r: seq<Worker>)
    ensures |r| == |workers|
  {
    seq(|workers|, i requires 0 <= i < |workers| => Woken(workers[i]))
  }

  function FreshWorkers(c: Config): (r: seq<Worker>)
    ensures |r| == c.smallFileWorkers + c.largeFileWorkers
  {
    seq(c.smallFileWorkers, _ => Worker(false, Seeking)) + seq(c.largeFileWorkers, _ => Worker(true, Seeking))
  }

  /** `set_service_state`: it notifies both condition variables. */
  function SetService(w: World, s: State, state: ServiceState): State {
    s.(sh := SetServiceLocked(s.sh, state, w.message), workers := WakeAll(s.workers), sleepers := 0)
  }

  function Snapshot(sh: Shared, id: string): Option<SyncResult> {
    if sh.callback && id in sh.results then Some(sh.results[id]) else None
  }

  /** Worker `i` stores `sh`, releases its task and is about to call back. */
  function Release(s: State, i: nat, id: string, sh: Shared, notify: bool): State
    requires At(s, i)
  {
    WithPhase(s, i, Reporting(Snapshot(sh, id), notify))
      .(sh := sh, sleepers := if NotifiesIdle(sh) then 0 else s.sleepers)
  }

  /** `complete_task` by worker `i`. */
  function Complete(s: State, i: nat, id: string, state: TaskState, error: string, status: int): State
    requires At(s, i)
  {
    if id !in s.sh.results then WithPhase(s, i, Crashed)
    else Release(s, i, id, CompleteLocked(s.sh, id, state, error, status), false)
  }

  predicate Retries(w: World, attempts: U32, status: int, error: string) {
    w.retryable(status, error) && attempts <= w.config.maxRetries
  }

  /** The ids a sweep takes. */
  function Swept(results: map<string, SyncResult>): set<string> {
    set id | id in results && Queueable(results[id].state)
  }

  function SnapshotsOf(results: map<string, SyncResult>, order: seq<string>): seq<SyncResult>
    requires forall i | 0 <= i < |order| :: order[i] in results
  {
    seq(|order|, i requires 0 <= i < |order| => results[order[i]])
  }

  predicate IsListing(order: seq<string>, ids: set<string>) {
    && (forall i, j | 0 <= i < j < |order| :: order[i] != order[j])
    && (forall i | 0 <= i < |order| :: order[i] in ids)
    && (forall id | id in ids :: id in order)
  }

  /** What the monitor stores after a health check, with `failures` counted. */
  function Verdict(c: Config, connected: bool, failures: U32): ServiceState {
    if connected then Connected else if failures > c.maxRetries then Error else Disconnected
  }

  function Failures(connected: bool, failures: U32): U32 {
    if connected then 0 else Increment(failures)
  }

  // ------------------------------------------------------------------ worker steps

  predicate SeekEnabled(s: State, i: nat) {
    At(s, i) && s.workers[i].phase == Seeking
  }

  function SeekStep(s: State, i: nat): State
    requires SeekEnabled(s, i)
  {
    var (sh, pass) := TakePass(s.sh, s.workers[i].large, s.now);
    var phase := match pass
      case Leave => Exited
      case AwaitService => Parked(ForService)
      case AwaitWork => Parked(ForWork)
      case AwaitUntil(t) => Parked(ForTime(t))
      case Took(item) => Taken(item)
      case Threw => Crashed;
    WithPhase(s, i, phase).(sh := sh)
  }

  predicate ReadEnabled(s: State, i: nat) {
    At(s, i) && s.workers[i].phase.Taken?
  }

  function ReadStep(s: State, i: nat): State
    requires ReadEnabled(s, i)
  {
    var item := s.workers[i].phase.item;
    if item.id !in s.sh.results then WithPhase(s, i, Crashed)
    else
      var r := s.sh.results[item.id];
      WithPhase(s, i, Working(item, r.task, r.attempts))
  }

  predicate TransferEnabled(s: State, i: nat, env: Env) {
    && At(s, i) && s.workers[i].phase.Working?
    && (env.Started? ==> s.workers[i].phase.task.direction == Download)
    && (env.Uploaded? ==> s.workers[i].phase.task.direction == Upload)
  }

  function TransferStep(s: State, i: nat, env: Env): State
    requires TransferEnabled(s, i, env)
  {
    var p := s.workers[i].phase;
    match env
    case NoPath(error) => WithPhase(s, i, Finished(p.item, p.task, p.attempts, PathFailed(error)))
    case NoCurl => WithPhase(s, i, Finished(p.item, p.task, p.attempts, FailedWith(0, "")))
    case Uploaded(ok, status, error) =>
      WithPhase(s, i, Finished(p.item, p.task, p.attempts,
                               if ok then Succeeded(status) else FailedWith(status, error)))
    case Started(prior) => WithPhase(s, i, Fetching(p.item, p.task, p.attempts, Downloads.Starting(prior)))
  }

  predicate FetchEnabled(s: State, i: nat) {
    At(s, i) && s.workers[i].phase.Fetching?
  }

  /** How a download is left. */
  function OutcomeOf(w: World, place: Downloads.Place): Outcome
    requires place.Done?
  {
    if place.ok then Succeeded(place.status) else FailedWith(place.status, w.text(place.response))
  }

  /** One file operation of `http_download_file`. */
  function FetchStep(w: World, s: State, i: nat, op: Downloads.Op): State
    requires FetchEnabled(s, i)
  {
    var p := s.workers[i].phase;
    var place := Downloads.NextPlace(p.place, w.problem(s.files, p.task, p.place, op), op);
    var phase := if place.Done? then Finished(p.item, p.task, p.attempts, OutcomeOf(w, place))
                 else Fetching(p.item, p.task, p.attempts, place);
    WithPhase(s, i, phase).(files := w.touched(s.files, p.task, p.place, op))
  }

  predicate ConcludeEnabled(s: State, i: nat) {
    At(s, i) && s.workers[i].phase.Finished?
  }

  function ConcludeStep(w: World, s: State, i: nat): State
    requires ConcludeEnabled(s, i)
  {
    var p := s.workers[i].phase;
    match p.outcome
    case PathFailed(error) => Complete(s, i, p.item.id, Failed, error, 0)
    case Succeeded(status) => Complete(s, i, p.item.id, Completed, "", status)
    case FailedWith(status, error) =>
      if Retries(w, p.attempts, status, error) then
        var retrying := WithPhase(s, i, Retrying(p.item, p.attempts, status, error));
        if status == 0 || status >= 500 then SetService(w, retrying, Disconnected) else retrying
      else Complete(s, i, p.item.id, Failed, error, status)
  }

  predicate RequeueEnabled(s: State, i: nat) {
    At(s, i) && s.workers[i].phase.Retrying?
  }

  function RequeueStep(w: World, s: State, i: nat): State
    requires RequeueEnabled(s, i)
  {
    var p := s.workers[i].phase;
    if p.item.id !in s.sh.results then WithPhase(s, i, Crashed)
    else Release(s, i, p.item.id,
                 RequeueLocked(s.sh, p.item, p.error, p.status, s.now, w.config.retryDelay), true)
  }

  predicate DeliverEnabled(s: State, i: nat) {
    At(s, i) && s.workers[i].phase.Reporting?
  }

  function DeliverStep(s: State, i: nat): State
    requires DeliverEnabled(s, i)
  {
    var next := WithPhase(s, i, Seeking);
    if s.workers[i].phase.notify then next.(workers := WakeAll(next.workers)) else next
  }

  // ------------------------------------------------------------------ monitor

  predicate ProbeEnabled(w: World, s: State, connected: bool, order: seq<string>) {
    && s.monitor.Probing?
    && IsListing(order, if EntersError(s.sh, Verdict(w.config, connected, Failures(connected, s.monitor.failures)))
                        then Swept(s.sh.results) else {})
  }

  function ProbeStep(w: World, s: State, connected: bool, order: seq<string>): State
    requires ProbeEnabled(w, s, connected, order)
  {
    var failures := Failures(connected, s.monitor.failures);
    var next := SetService(w, s, Verdict(w.config, connected, failures));
    var pending := if s.sh.callback then SnapshotsOf(next.sh.results, order) else [];
    next.(monitor := Announcing(failures, pending))
  }

  // ------------------------------------------------------------------ steps

  predicate Enabled(w: World, s: State, a: Action) {
    match a
    case Start => s.control == Ready && !s.sh.started && ValidConfig(w.config)
    case StopLock => s.control == Ready && s.sh.started
    case StopAnnounce => s.control == StopRequested
    case StopNotify => s.control == StopAnnounced
    case StopJoin => s.control == Joining && s.monitor == Ended
                     && forall i | 0 <= i < |s.workers| :: s.workers[i].phase == Exited
    case Enqueue(task, large) => w.admits(task, large)
    case EnqueueNotify => s.notifies > 0
    case Seek(i) => SeekEnabled(s, i)
    case WakeUp(i) => At(s, i) && s.workers[i].phase.Parked?
    case Read(i) => ReadEnabled(s, i)
    case Transfer(i, env) => TransferEnabled(s, i, env)
    case Fetch(i, _) => FetchEnabled(s, i)
    case Conclude(i) => ConcludeEnabled(s, i)
    case Requeue(i) => RequeueEnabled(s, i)
    case Deliver(i) => DeliverEnabled(s, i)
    case Poll => s.monitor.Polling?
    case Probe(connected, order) => ProbeEnabled(w, s, connected, order)
    case Announce => s.monitor.Announcing?
    case Rest => s.monitor.Sleeping?
    case WaitIdle => true
    case StopWaiting => s.sleepers > 0
    case SetCallback(_) => true
    case Tick(_) => true
  }

  function EnqueueStep(s: State, task: SyncTask, large: bool): State {
    if !Accepts(s.sh, task.id) then s
    else
      s.(sh := EnqueueLocked(s.sh, task, large, s.now), accepted := s.accepted + [task.id],
         notifies := s.notifies + 1)
  }

  function Apply(w: World, s: State, a: Action): State
    requires Enabled(w, s, a)
  {
    match a
    case Start => s.(sh := StartLocked(s.sh), workers := FreshWorkers(w.config), monitor := Polling(0))
    case StopLock => s.(sh := StopLocked(s.sh), control := StopRequested)
    case StopAnnounce => SetService(w, s, Stopping).(control := StopAnnounced)
    case StopNotify => s.(workers := WakeAll(s.workers), sleepers := 0, control := Joining)
    case StopJoin => s.(workers := [], monitor := NoMonitor, control := Ready)
    case Enqueue(task, large) => EnqueueStep(s, task, large)
    case EnqueueNotify => s.(workers := WakeAll(s.workers), notifies := s.notifies - 1)
    case Seek(i) => SeekStep(s, i)
    case WakeUp(i) => WithPhase(s, i, Seeking)
    case Read(i) => ReadStep(s, i)
    case Transfer(i, env) => TransferStep(s, i, env)
    case Fetch(i, op) => FetchStep(w, s, i, op)
    case Conclude(i) => ConcludeStep(w, s, i)
    case Requeue(i) => RequeueStep(w, s, i)
    case Deliver(i) => DeliverStep(s, i)
    case Poll => s.(monitor := if s.sh.stopping then Ended else Probing(s.monitor.failures))
    case Probe(connected, order) => ProbeStep(w, s, connected, order)
    case Announce =>
      s.(monitor := if s.monitor.pending == [] then Sleeping(s.monitor.failures)
                    else Announcing(s.monitor.failures, s.monitor.pending[1..]))
    case Rest => s.(monitor := if s.sh.stopping then Ended else Polling(s.monitor.failures))
    case WaitIdle => if IdlePredicate(s.sh) then s else s.(sleepers := s.sleepers + 1)
    case StopWaiting => s.(sleepers := s.sleepers - 1)
    case SetCallback(installed) => s.(sh := s.sh.(callback := installed))
    case Tick(delta) => s.(now := s.now + delta)
  }

  /** Marks a proof that looks into a step; it says nothing else. */
  ghost predicate Inspect(n: nat) {
    true
  }

  /** `a` is enabled in `s` and leads to `s'`. */
  ghost predicate Step(w: World, s: State, a: Action, s': State) {
    forall n: nat {:trigger Inspect(n)} :: Inspect(n) ==> Enabled(w, s, a) && s' == Apply(w, s, a)
  }

  ghost predicate Init(s: State) {
    && s.sh == Initial() && s.workers == [] && s.monitor == NoMonitor && s.control == Ready
    && s.notifies == 0 && s.sleepers == 0 && s.accepted == []
  }

  ghost predicate StepAt(w: World, ss: seq<State>, acts: seq<Action>, k: nat)
    requires k < |acts| < |ss|
  {
    Step(w, ss[k], acts[k], ss[k + 1])
  }

  /** `ss[k]` is the state after the first k actions. */
  ghost predicate IsRun(w: World, ss: seq<State>, acts: seq<Action>) {
    && |ss| == |acts| + 1
    && Init(ss[0])
    && forall k: nat | k < |acts| :: StepAt(w, ss, acts, k)
  }
}

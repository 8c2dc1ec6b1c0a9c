/** The class of net/sync_manager.cpp. Each method is one locked section, or what
    a call does when no other thread comes between its sections; threads,
    condition variables and the file system are left to `Protocol`. */
module SyncManagers {
  import opened SyncTypes
  import opened SyncCore
  import Protocol
  import Downloads
  import IpcCommand

  // ------------------------------------------------------------------ validation of tasks

  predicate IsHexDigit(ch: char) {
    '0' <= ch <= '9' || 'a' <= ch <= 'f' || 'A' <= ch <= 'F'
  }

  predicate ValidChecksum(value: string) {
    value == "" || (|value| == 64 && forall i | 0 <= i < |value| :: IsHexDigit(value[i]))
  }

  /** The index of the first colon, or the length. */
  function FirstColon(value: string): (k: nat)
    ensures k <= |value| && ':' !in value[..k] && (k < |value| ==> value[k] == ':')
  {
    if value == "" || value[0] == ':' then 0
    else
      var k := FirstColon(value[1..]);
      assert value[..k + 1] == [value[0]] + value[1..][..k];
      k + 1
  }

  predicate IsHttpUrl(value: string) {
    var scheme := Downloads.Lower(value[..FirstColon(value)]);
    scheme == "http" || scheme == "https"
  }

  predicate WellFormed(task: SyncTask) {
    task.id != "" && IsHttpUrl(task.url) && task.localPath != "" && ValidChecksum(task.validation.expectedSha256)
  }

  /** The text of an error is never empty. */
  type Message = s: string | s != "" witness "?"

  /** What the file system says of a local path: it does not resolve, it resolves
      but has no readable size, or it has a size. */
  datatype Lookup = Unresolved(reason: Message) | Unsized(message: string) | Sized(size: U64)

  /** `is_large_task`: the class of a task, and the error it leaves behind. */
  function IsLargeTask(c: Config, task: SyncTask, lookup: Lookup, error: string): (bool, string) {
    match lookup
    case Unresolved(reason) => (false, reason)
    case Unsized(message) =>
      if task.direction == Upload then (false, "Cannot read upload file size: " + message)
      else (DeclaredLarge(c, task), error)
    case Sized(size) =>
      (if task.direction == Upload then size >= c.largeFileThreshold else DeclaredLarge(c, task), error)
  }

  predicate DeclaredLarge(c: Config, task: SyncTask) {
    task.validation.expectedSize.Some? && task.validation.expectedSize.value >= c.largeFileThreshold
  }

  /** `enqueue` can let the task through, into this class. */
  ghost predicate Admissible(c: Config, task: SyncTask, large: bool) {
    WellFormed(task) && exists lookup: Lookup :: IsLargeTask(c, task, lookup, "") == (large, "")
  }

  /** A download is classed by its declared size, an upload by the size of its file. */
  lemma AdmissibleClasses(c: Config, task: SyncTask, large: bool)
    requires WellFormed(task)
    ensures Admissible(c, task, large) <==>
            if task.direction == Download then large == DeclaredLarge(c, task) else large || c.largeFileThreshold > 0
  {
    var size: U64 := if large then c.largeFileThreshold else 0;
    assert task.direction == Download ==> IsLargeTask(c, task, Sized(size), "") == (DeclaredLarge(c, task), "");
    assert task.direction == Upload ==> IsLargeTask(c, task, Sized(size), "") == (size >= c.largeFileThreshold, "");
  }

  const MALFORMED_TASK := "Task requires id, HTTP(S) URL, relative local path, and a valid optional SHA-256."
  const UNREADABLE_SIZE := "Cannot read upload file size: "
  const NOT_RUNNING := "Sync manager is not running."
  const DUPLICATE := "Task id already exists."

  /** Why `start` fails; `rootError` is the message of `create_directories`, if it does. */
  function StartRefusal(c: Config, rootError: Option<string>): Option<string> {
    if c.localRoot == "" || c.healthUrl == "" then Some("local_root and health_url are required.")
    else if c.smallFileWorkers == 0 || c.largeFileWorkers == 0 || c.networkTimeoutMs <= 0 then
      Some("worker counts and network timeout must be positive.")
    else if rootError.Some? then Some("Cannot create local root: " + rootError.value)
    else None
  }

  /** The class of an accepted task: a download's by its declared size, an upload's by
      the size of its file. */
  ghost predicate ClassIs(c: Config, task: SyncTask, lookup: Lookup, large: bool) {
    match task.direction
    case Upload => lookup.Sized? && (large <==> lookup.size >= c.largeFileThreshold)
    case Download => large <==> task.validation.expectedSize.Some?
                                && task.validation.expectedSize.value >= c.largeFileThreshold
  }

  /** The task is new, Pending, and the last item of the queue of one class. */
  ghost predicate Added(before: Shared, after: Shared, task: SyncTask, large: bool, now: int) {
    && after == before.(results := after.results, small := after.small, large := after.large)
    && after.results == before.results[task.id := SyncResult(task, Pending, 0, 0, "")]
    && after.small == before.small + (if large then [] else [QueueItem(task.id, false, now)])
    && after.large == before.large + (if large then [QueueItem(task.id, true, now)] else [])
  }

  /** Why `enqueue` refuses a task, in the order in which it looks; empty if it does not. */
  function Refusal(before: Shared, task: SyncTask, lookup: Lookup, errorBefore: string): string {
    if || task.id == "" || task.localPath == "" || !IsHttpUrl(task.url)
       || (task.validation.expectedSha256 != "" && |task.validation.expectedSha256| != 64)
       || (exists i | 0 <= i < |task.validation.expectedSha256| ::
             var ch := task.validation.expectedSha256[i];
             !('0' <= ch <= '9' || 'a' <= ch <= 'f' || 'A' <= ch <= 'F')) then MALFORMED_TASK
    else if lookup.Unresolved? then lookup.reason
    else if task.direction == Upload && lookup.Unsized? then UNREADABLE_SIZE + lookup.message
    else if errorBefore != "" then errorBefore
    else if !before.started || before.stopping then NOT_RUNNING
    else if task.id in before.results then DUPLICATE
    else ""
  }

  lemma TextsAreThere()
    ensures MALFORMED_TASK != "" && NOT_RUNNING != "" && DUPLICATE != ""
    ensures forall message: string :: UNREADABLE_SIZE + message != ""
  {
    assert |UNREADABLE_SIZE| > 0;
  }

  // ------------------------------------------------------------------ searches in a queue

  /** `std::find_if` for a ready item. */
  method FindReady(q: seq<QueueItem>, now: int) returns (k: nat)
    ensures k == FirstReady(q, now)
  {
    k := 0;
    while k < |q| && q[k].readyAt > now
      invariant k <= |q| && forall j | 0 <= j < k :: now < q[j].readyAt
    {
      k := k + 1;
    }
  }

  /** `std::min_element` by `ready_at`. */
  method FindEarliest(q: seq<QueueItem>) returns (k: nat)
    requires q != []
    ensures k < |q| && q[k].readyAt == MinReadyAt(q)
  {
    k := 0;
    for i := 1 to |q|
      invariant k < i && forall j | 0 <= j < i :: q[k].readyAt <= q[j].readyAt
    {
      if q[i].readyAt < q[k].readyAt {
        k := i;
      }
    }
  }

  // ------------------------------------------------------------------ loops over the results

  /** The entries outside `todo` are those of `after`, the others still those of `before`. */
  ghost predicate Partly(before: map<string, SyncResult>, results: map<string, SyncResult>,
                         after: map<string, SyncResult>, todo: set<string>) {
    && results.Keys == before.Keys == after.Keys && todo <= before.Keys
    && forall id | id in before :: results[id] == if id in todo then before[id] else after[id]
  }

  lemma PartlyStep(before: map<string, SyncResult>, results: map<string, SyncResult>, after: map<string, SyncResult>,
                   todo: set<string>, id: string)
    requires Partly(before, results, after, todo) && id in todo
    ensures Partly(before, results[id := after[id]], after, todo - {id})
    ensures after[id] == before[id] ==> Partly(before, results, after, todo - {id})
  {
  }

  lemma PartlyDone(before: map<string, SyncResult>, results: map<string, SyncResult>, after: map<string, SyncResult>)
    requires Partly(before, results, after, {})
    ensures results == after
  {
  }

  lemma ListingStep(order: seq<string>, ids: set<string>, id: string)
    requires Protocol.IsListing(order, ids) && id !in ids
    ensures Protocol.IsListing(order + [id], ids + {id})
  {
  }

  lemma SnapshotsStep(results: map<string, SyncResult>, order: seq<string>, id: string, r: SyncResult)
    requires id !in order && forall i | 0 <= i < |order| :: order[i] in results
    ensures Protocol.SnapshotsOf(results[id := r], order + [id]) == Protocol.SnapshotsOf(results, order) + [r]
  {
  }

  /** Exactly the tasks that wait become Cancelled; nothing else about them changes. */
  ghost predicate CancelsWaiting(before: map<string, SyncResult>, after: map<string, SyncResult>) {
    && after.Keys == before.Keys
    && forall id | id in before ::
         if before[id].state == Pending || before[id].state == Retry
         then after[id] == SyncResult(before[id].task, Cancelled, before[id].attempts, before[id].httpStatus,
                                      before[id].error)
         else after[id] == before[id]
  }

  /** Exactly the tasks that wait become Failed, and an error of their own stays. */
  ghost predicate FailsWaiting(before: map<string, SyncResult>, after: map<string, SyncResult>, message: string) {
    && after.Keys == before.Keys
    && forall id | id in before ::
         if before[id].state == Pending || before[id].state == Retry
         then after[id] == SyncResult(before[id].task, Failed, before[id].attempts, before[id].httpStatus,
                                      if before[id].error == "" then message else before[id].error)
         else after[id] == before[id]
  }

  /** The task of `item` waits again, to be taken from `readyAt` on; or it is Cancelled
      while stopping, or Failed in Error. */
  ghost predicate Requeued(before: Shared, after: Shared, item: QueueItem, error: string, status: int, readyAt: int) {
    && item.id in before.results
    && var state := if before.stopping then Cancelled else if before.service == Error then Failed else Retry;
       var r := before.results[item.id];
       && after.results == before.results[item.id := SyncResult(r.task, state, r.attempts, status, error)]
       && Queue(after, !item.large) == Queue(before, !item.large)
       && Queue(after, item.large) == Queue(before, item.large) +
          if state == Retry then [QueueItem(item.id, item.large, readyAt)] else []
  }

  lemma RequeueMeans(sh: Shared, item: QueueItem, error: string, status: int, now: int, retryDelay: nat)
    requires item.id in sh.results
    ensures Requeued(sh, RequeueLocked(sh, item, error, status, now, retryDelay), item, error, status, now + retryDelay)
  {
  }

  /** Where the loop of `set_service_state` is. */
  ghost predicate Sweeping(before: map<string, SyncResult>, results: map<string, SyncResult>, message: string,
                           todo: set<string>, order: seq<string>, pending: seq<SyncResult>, callback: bool) {
    && Partly(before, results, Failing(before, message), todo)
    && Protocol.IsListing(order, Protocol.Swept(before) - todo)
    && pending == if callback then Protocol.SnapshotsOf(results, order) else []
  }

  lemma SweepFails(before: map<string, SyncResult>, results: map<string, SyncResult>, message: string,
                   todo: set<string>, order: seq<string>, pending: seq<SyncResult>, callback: bool, id: string)
    requires Sweeping(before, results, message, todo, order, pending, callback)
    requires id in todo && Queueable(results[id].state)
    ensures var r := FailedByService(results[id], message);
            Sweeping(before, results[id := r], message, todo - {id}, order + [id],
                     if callback then pending + [r] else pending, callback)
  {
    var swept := Protocol.Swept(before);
    PartlyStep(before, results, Failing(before, message), todo, id);
    ListingStep(order, swept - todo, id);
    SnapshotsStep(results, order, id, FailedByService(results[id], message));
    assert swept - todo + {id} == swept - (todo - {id});
  }

  lemma SweepSkips(before: map<string, SyncResult>, results: map<string, SyncResult>, message: string,
                   todo: set<string>, order: seq<string>, pending: seq<SyncResult>, callback: bool, id: string)
    requires Sweeping(before, results, message, todo, order, pending, callback)
    requires id in todo && !Queueable(results[id].state)
    ensures Sweeping(before, results, message, todo - {id}, order, pending, callback)
  {
    PartlyStep(before, results, Failing(before, message), todo, id);
    assert Protocol.Swept(before) - todo == Protocol.Swept(before) - (todo - {id});
  }

  lemma SweepDone(before: map<string, SyncResult>, results: map<string, SyncResult>, message: string,
                  order: seq<string>, pending: seq<SyncResult>, callback: bool)
    requires Sweeping(before, results, message, {}, order, pending, callback)
    ensures results == Failing(before, message) && FailsWaiting(before, results, message)
    ensures Protocol.IsListing(order, Protocol.Swept(before))
  {
    PartlyDone(before, results, Failing(before, message));
    assert Protocol.Swept(before) - {} == Protocol.Swept(before);
  }

  // ------------------------------------------------------------------ the manager

  const HEALTH_FAILED := "Service health check failed permanently."

  class SyncManager {
    const config: Config
    var started: bool
    var stopping: bool
    var serviceState: ServiceState
    var smallQueue: seq<QueueItem>
    var largeQueue: seq<QueueItem>
    var results: map<string, SyncResult>
    var activeTasks: nat
    var hasCallback: bool

    constructor (config: Config)
      ensures this.config == config && View() == Initial()
    {
      this.config := config;
      started, stopping, serviceState := false, false, Disconnected;
      smallQueue, largeQueue, results, activeTasks, hasCallback := [], [], map[], 0, false;
    }

    function View(): Shared
      reads this
    {
      Shared(started, stopping, serviceState, smallQueue, largeQueue, results, activeTasks, hasCallback)
    }

    // ---------------------------------------------------------------- start, stop

    method Start(rootError: Option<string>) returns (ok: bool, error: Option<string>)
      modifies this
      ensures ok <==> || old(started)
                      || (&& config.localRoot != "" && config.healthUrl != "" && config.networkTimeoutMs > 0
                          && config.smallFileWorkers > 0 && config.largeFileWorkers > 0 && rootError == None)
      ensures error == if old(started) then None else StartRefusal(config, rootError)
      ensures View() == if ok && !old(started)
                        then old(View()).(started := true, stopping := false, service := Connecting)
                        else old(View())
      ensures ok && !old(started) ==> ValidConfig(config) && View() == StartLocked(old(View()))
    {
      if started {
        return true, None;
      }
      if config.localRoot == "" || config.healthUrl == "" {
        return false, Some("local_root and health_url are required.");
      }
      if config.smallFileWorkers == 0 || config.largeFileWorkers == 0 || config.networkTimeoutMs <= 0 {
        return false, Some("worker counts and network timeout must be positive.");
      }
      if rootError.Some? {
        return false, Some("Cannot create local root: " + rootError.value);
      }
      stopping, started, serviceState := false, true, Connecting;
      return true, None;
    }

    /** The locked part of `stop`. */
    method LockedStop() returns (stopped: bool)
      modifies this
      ensures stopped == old(started)
      ensures View() == if stopped then StopLocked(old(View())) else old(View())
      ensures stopped ==> && stopping && !started && smallQueue == [] && largeQueue == []
                          && CancelsWaiting(old(results), results)
    {
      if !started {
        return false;
      }
      stopping, started := true, false;
      CancelWaiting();
      smallQueue, largeQueue := [], [];
      return true;
    }

    /** The loop of `stop` over the results. */
    method CancelWaiting()
      modifies this`results
      ensures results == Cancelling(old(results)) && CancelsWaiting(old(results), results)
    {
      ghost var before, after := results, Cancelling(results);
      var todo := results.Keys;
      while todo != {}
        invariant Partly(before, results, after, todo)
        decreases |todo|
      {
        var id :| id in todo;
        PartlyStep(before, results, after, todo, id);
        if results[id].state == Pending || results[id].state == Retry {
          results := results[id := results[id].(state := Cancelled)];
        }
        todo := todo - {id};
      }
      PartlyDone(before, results, after);
    }

    /** `stop` up to its joins. */
    method Stop() returns (stopped: bool)
      modifies this
      ensures stopped == old(started)
      ensures View() == if stopped then SetServiceLocked(StopLocked(old(View())), Stopping, HEALTH_FAILED)
                        else old(View())
    {
      stopped := LockedStop();
      if stopped {
        var _, _ := SetServiceState(Stopping);
      }
    }

    // ---------------------------------------------------------------- enqueue

    /** `error` is the string passed by reference, before and after the call: a
        call that comes with an error left over from before is refused. */
    method Enqueue(task: SyncTask, lookup: Lookup, now: int, errorBefore: string)
      returns (ok: bool, error: string, ghost large: bool)
      modifies this
      ensures error == Refusal(old(View()), task, lookup, errorBefore) && (ok <==> error == "")
      ensures !ok ==> View() == old(View())
      ensures ok ==> ClassIs(config, task, lookup, large) && Added(old(View()), View(), task, large, now)
      ensures ok ==> Admissible(config, task, large) && View() == EnqueueLocked(old(View()), task, large, now)
    {
      TextsAreThere();
      if || task.id == "" || !IsHttpUrl(task.url) || task.localPath == ""
         || !ValidChecksum(task.validation.expectedSha256)
      {
        return false, MALFORMED_TASK, false;
      }
      var (inLarge, left) := IsLargeTask(config, task, lookup, errorBefore);
      if left != "" {
        return false, left, false;
      }
      large := inLarge;
      ok, error := Admit(task, inLarge, now);
    }

    /** The locked part of `enqueue`. */
    method Admit(task: SyncTask, large: bool, now: int) returns (ok: bool, error: string)
      modifies this
      ensures error == if !old(started) || old(stopping) then NOT_RUNNING
                       else if task.id in old(results) then DUPLICATE else ""
      ensures ok <==> error == ""
      ensures if ok then Added(old(View()), View(), task, large, now) else View() == old(View())
      ensures View() == EnqueueLocked(old(View()), task, large, now)
    {
      TextsAreThere();
      if !started || stopping {
        return false, NOT_RUNNING;
      }
      if task.id in results {
        return false, DUPLICATE;
      }
      results := results[task.id := SyncResult(task, Pending, 0, 0, "")];
      var item := QueueItem(task.id, large, now);
      if large {
        largeQueue := largeQueue + [item];
      } else {
        smallQueue := smallQueue + [item];
      }
      return true, "";
    }

    method EnqueueIpcCommand(command: string, lookup: Lookup, now: int, errorBefore: string)
      returns (ok: bool, error: string)
      modifies this
      ensures var decoded := IpcCommand.Decode(IpcCommand.Tokens(command));
              match decoded
              case Rejected(message) => !ok && error == message && View() == old(View())
              case StopRequest =>
                && ok && error == errorBefore
                && View() == if old(started) then SetServiceLocked(StopLocked(old(View())), Stopping, HEALTH_FAILED)
                             else old(View())
              case Submit(task) =>
                && error == Refusal(old(View()), task, lookup, errorBefore) && (ok <==> error == "")
                && (!ok ==> View() == old(View()))
                && (ok ==> exists large :: ClassIs(config, task, lookup, large)
                                           && Added(old(View()), View(), task, large, now))
    {
      var tokens := IpcCommand.ParseTokens(command);
      match IpcCommand.Decode(tokens)
      case Rejected(message) =>
        return false, message;
      case StopRequest =>
        var _ := Stop();
        return true, errorBefore;
      case Submit(task) =>
        ghost var large;
        ok, error, large := Enqueue(task, lookup, now, errorBefore);
    }

    // ---------------------------------------------------------------- workers

    /** One pass through the loop of `take_task`. */
    method TakeTask(large: bool, now: int) returns (pass: Pass)
      modifies this
      ensures (View(), pass) == TakePass(old(View()), large, now)
    {
      if stopping || serviceState == Error {
        return Leave;
      }
      if serviceState != Connected {
        return AwaitService;
      }
      var queue := if large then largeQueue else smallQueue;
      var available := FindReady(queue, now);
      if available < |queue| {
        var item := queue[available];
        Erase(large, available);
        if item.id !in results {
          return Threw;
        }
        var result := results[item.id];
        results := results[item.id := result.(state := InProgress, attempts := (result.attempts + 1) % U32_LIMIT)];
        activeTasks := activeTasks + 1;
        return Took(item);
      }
      if queue == [] {
        return AwaitWork;
      }
      var next := FindEarliest(queue);
      return AwaitUntil(queue[next].readyAt);
    }

    method Erase(large: bool, k: nat)
      requires k < |Queue(View(), large)|
      modifies this
      ensures View() == WithQueue(old(View()), large, Without(Queue(old(View()), large), k))
    {
      if large {
        largeQueue := largeQueue[..k] + largeQueue[k + 1..];
      } else {
        smallQueue := smallQueue[..k] + smallQueue[k + 1..];
      }
    }

    /** The first section of `process_task`; nothing where `results_.at` throws. */
    method ReadForProcess(id: string) returns (copy: Option<(SyncTask, U32)>)
      ensures copy.Some? <==> id in results
      ensures copy.Some? ==> copy.value == (results[id].task, results[id].attempts)
    {
      if id !in results {
        return None;
      }
      return Some((results[id].task, results[id].attempts));
    }

    /** The section of `complete_task`: the snapshot for the callback, and whether
        `idle_cv_` is notified. */
    method CompleteTask(id: string, state: TaskState, error: string, status: int)
      returns (threw: bool, snapshot: Option<SyncResult>, notified: bool)
      modifies this
      ensures threw <==> id !in old(results)
      ensures threw ==> View() == old(View()) && snapshot == None && !notified
      ensures !threw ==> View() == CompleteLocked(old(View()), id, state, error, status)
      ensures !threw ==> var r := old(results)[id];
                         && results == old(results)[id := SyncResult(r.task, state, r.attempts, status, error)]
                         && smallQueue == old(smallQueue) && largeQueue == old(largeQueue)
      ensures !threw ==> snapshot == Protocol.Snapshot(View(), id) && notified == NotifiesIdle(View())
    {
      if id !in results {
        return true, None, false;
      }
      results := results[id := results[id].(state := state, error := error, httpStatus := status)];
      snapshot := if hasCallback then Some(results[id]) else None;
      if activeTasks > 0 {
        activeTasks := activeTasks - 1;
      }
      return false, snapshot, activeTasks == 0 && smallQueue == [] && largeQueue == [];
    }

    /** The section of `requeue_task`. */
    method RequeueTask(item: QueueItem, error: string, status: int, now: int)
      returns (threw: bool, snapshot: Option<SyncResult>, notified: bool)
      modifies this
      ensures threw <==> item.id !in old(results)
      ensures threw ==> View() == old(View()) && snapshot == None && !notified
      ensures !threw ==> View() == RequeueLocked(old(View()), item, error, status, now, config.retryDelay)
      ensures !threw ==> Requeued(old(View()), View(), item, error, status, now + config.retryDelay)
      ensures !threw ==> snapshot == Protocol.Snapshot(View(), item.id) && notified == NotifiesIdle(View())
    {
      if item.id !in results {
        return true, None, false;
      }
      var stored := results[item.id].(state := Retry, error := error, httpStatus := status);
      if stopping || serviceState == Error {
        stored := stored.(state := if stopping then Cancelled else Failed);
      } else {
        var again := item.(readyAt := now + config.retryDelay);
        if item.large {
          largeQueue := largeQueue + [again];
        } else {
          smallQueue := smallQueue + [again];
        }
      }
      results := results[item.id := stored];
      snapshot := if hasCallback then Some(stored) else None;
      if activeTasks > 0 {
        activeTasks := activeTasks - 1;
      }
      RequeueMeans(old(View()), item, error, status, now, config.retryDelay);
      return false, snapshot, activeTasks == 0 && smallQueue == [] && largeQueue == [];
    }

    // ---------------------------------------------------------------- waiting, service state

    /** The predicate of `wait_for_idle`, and what it returns. */
    method CheckIdle() returns (wake: bool, verdict: bool)
      ensures wake == IdlePredicate(View()) && verdict == IdleVerdict(View())
      ensures wake <==> (activeTasks == 0 && smallQueue == [] && largeQueue == []) || serviceState == Error || stopping
      ensures verdict <==> && activeTasks == 0 && smallQueue == [] && largeQueue == []
                           && serviceState != Error && !stopping
    {
      wake := (activeTasks == 0 && smallQueue == [] && largeQueue == []) || serviceState == Error || stopping;
      verdict := wake && serviceState != Error && !stopping;
    }

    method SetResultCallback(installed: bool)
      modifies this
      ensures View() == old(View()).(callback := installed)
    {
      hasCallback := installed;
    }

    /** `set_service_state`. `order` is the order in which the table is gone through. */
    method SetServiceState(state: ServiceState) returns (pending: seq<SyncResult>, ghost order: seq<string>)
      modifies this
      ensures View() == SetServiceLocked(old(View()), state, HEALTH_FAILED)
      ensures serviceState == state
      ensures if state == Error && old(serviceState) != Error
              then FailsWaiting(old(results), results, HEALTH_FAILED) && smallQueue == [] && largeQueue == []
              else View() == old(View()).(service := state)
      ensures Protocol.IsListing(order, if EntersError(old(View()), state) then Protocol.Swept(old(results)) else {})
      ensures pending == if hasCallback then Protocol.SnapshotsOf(results, order) else []
    {
      var previous := serviceState;
      serviceState := state;
      pending, order := [], [];
      if previous != state && state == Error {
        pending, order := FailWaiting(HEALTH_FAILED);
        smallQueue, largeQueue := [], [];
      }
    }

    /** The loop of `set_service_state` over the results. */
    method FailWaiting(message: string) returns (pending: seq<SyncResult>, ghost order: seq<string>)
      modifies this`results
      ensures results == Failing(old(results), message) && FailsWaiting(old(results), results, message)
      ensures Protocol.IsListing(order, Protocol.Swept(old(results)))
      ensures pending == if hasCallback then Protocol.SnapshotsOf(results, order) else []
    {
      ghost var before := results;
      pending, order := [], [];
      var todo := results.Keys;
      while todo != {}
        invariant Sweeping(before, results, message, todo, order, pending, hasCallback)
        decreases |todo|
      {
        var id :| id in todo;
        var result := results[id];
        if result.state == Pending || result.state == Retry {
          SweepFails(before, results, message, todo, order, pending, hasCallback, id);
          result := result.(state := Failed, error := if result.error == "" then message else result.error);
          results := results[id := result];
          order := order + [id];
          if hasCallback {
            pending := pending + [result];
          }
        } else {
          SweepSkips(before, results, message, todo, order, pending, hasCallback, id);
        }
        todo := todo - {id};
      }
      SweepDone(before, results, message, order, pending, hasCallback);
    }
  }
}

/** The records of net/sync_manager.h and net/network.h. */
module SyncTypes {
  const U32_LIMIT: nat := 0x1_0000_0000
  const U64_LIMIT: nat := 0x1_0000_0000_0000_0000

  type U32 = x: nat | x < U32_LIMIT
  type U64 = x: nat | x < U64_LIMIT
  newtype Byte = x: int | 0 <= x < 256

  datatype Option<+T> = None | Some(value: T)

  datatype Direction = Download | Upload
  datatype TaskState = Pending | InProgress | Completed | Failed | Retry | Cancelled
  datatype ServiceState = Connecting | Connected | Disconnected | Error | Stopping

  /** An absent checksum is the empty string, as in the source. */
  datatype Validation = Validation(expectedSize: Option<U64>, expectedSha256: string)

  datatype SyncTask = SyncTask(id: string, direction: Direction, url: string,
                               localPath: string, validation: Validation)

  datatype SyncResult = SyncResult(task: SyncTask, state: TaskState, attempts: U32,
                                   httpStatus: int, error: string)

  /** `readyAt` is a point of the monotone clock. */
  datatype QueueItem = QueueItem(id: string, large: bool, readyAt: int)

  datatype Config = Config(
    localRoot: string, healthUrl: string, largeFileThreshold: U64,
    smallFileWorkers: nat, largeFileWorkers: nat, maxRetries: U32,
    networkTimeoutMs: int, retryDelay: nat)

  /** Waiting in a queue for a worker. */
  predicate Queueable(state: TaskState) {
    state == Pending || state == Retry
  }

  predicate Terminal(state: TaskState) {
    state == Completed || state == Failed || state == Cancelled
  }
}

/** Why publishing needs its writers apart: for any two local paths that are not,
    some run completes a download whose target does not hold its bytes. */
module Conflicts {
  import opened SyncTypes
  import opened SyncCore
  import opened Protocol
  import opened TaskLife
  import opened Runs
  import opened Publishing
  import Downloads
  import Fips180
  import SyncManagers

  // ------------------------------------------------------------------ operations of one worker

  /** Worker `i` is at `place` in the download of `task`. */
  ghost predicate Fetcher(s: State, i: nat, task: SyncTask, place: Downloads.Place) {
    && At(s, i) && s.workers[i].phase.Fetching?
    && s.workers[i].phase.task == task && s.workers[i].phase.place == place
  }

  /** Only worker `i`, and the files, differ. */
  ghost predicate OnlyWorker(s: State, s': State, i: nat) {
    && s'.sh == s.sh && |s'.workers| == |s.workers|
    && (forall j | 0 <= j < |s.workers| && j != i :: s'.workers[j] == s.workers[j])
    && (At(s, i) && Holding(s.workers[i].phase) ==>
          Holding(s'.workers[i].phase) && s'.workers[i].phase.item == s.workers[i].phase.item)
  }

  lemma Operate(w: World, s: State, i: nat, task: SyncTask, place: Downloads.Place, op: Downloads.Op,
                resolve: string -> string, digest: Downloads.Digest) returns (s': State)
    requires Fetches(w, resolve, digest) && Reached(w, s) && Fetcher(s, i, task, place)
    ensures Reached(w, s') && OnlyWorker(s, s', i)
    ensures s'.files == Downloads.Touched(s.files, resolve(task.localPath), place, op)
    ensures var problem := Downloads.Problem(s.files, resolve(task.localPath), digest, task.validation, place, op);
            var next := Downloads.NextPlace(place, problem, op);
            if next.Done? then
              At(s', i) && s'.workers[i].phase.Finished? && s'.workers[i].phase.outcome == OutcomeOf(w, next)
            else Fetcher(s', i, task, next)
  {
    s' := FetchStep(w, s, i, op);
    Onward(w, s, Fetch(i, op), s');
  }

  /** A transfer of `bytes`, up to the end of the request. */
  lemma Receive(w: World, s: State, i: nat, task: SyncTask, bytes: seq<Byte>,
                resolve: string -> string, digest: Downloads.Digest) returns (s': State)
    requires Fetches(w, resolve, digest) && Reached(w, s) && Fetcher(s, i, task, Downloads.Starting(0))
    ensures Reached(w, s') && OnlyWorker(s, s', i) && Fetcher(s', i, task, Downloads.Sizing(200))
    ensures s'.files == s.files[Downloads.PartOf(resolve(task.localPath)) := bytes]
  {
    var op := Downloads.Op(true, bytes, 200, "");
    var s1 := Operate(w, s, i, task, Downloads.Starting(0), op, resolve, digest);
    var s2 := Operate(w, s1, i, task, Downloads.Opening(0), op, resolve, digest);
    s' := Operate(w, s2, i, task, Downloads.Writing, op, resolve, digest);
    assert [] + bytes == bytes;
  }

  /** Up to the removal of the target, for a task that expects no digest. */
  lemma Fill(w: World, s: State, i: nat, task: SyncTask, bytes: seq<Byte>,
             resolve: string -> string, digest: Downloads.Digest) returns (s': State)
    requires Fetches(w, resolve, digest) && Reached(w, s) && Fetcher(s, i, task, Downloads.Starting(0))
    requires task.validation.expectedSha256 == "" && Downloads.SizeMatches(task.validation, bytes)
    ensures Reached(w, s') && OnlyWorker(s, s', i) && Fetcher(s', i, task, Downloads.Clearing(200))
    ensures s'.files == s.files[Downloads.PartOf(resolve(task.localPath)) := bytes]
  {
    var op := Downloads.Op(true, bytes, 200, "");
    var s1 := Receive(w, s, i, task, bytes, resolve, digest);
    var s2 := Operate(w, s1, i, task, Downloads.Sizing(200), op, resolve, digest);
    s' := Operate(w, s2, i, task, Downloads.Hashing(200), op, resolve, digest);
  }

  /** The removal of the target, and the rename. */
  lemma Put(w: World, s: State, i: nat, task: SyncTask,
            resolve: string -> string, digest: Downloads.Digest) returns (s': State)
    requires Fetches(w, resolve, digest) && Reached(w, s) && Fetcher(s, i, task, Downloads.Clearing(200))
    requires Downloads.PartOf(resolve(task.localPath)) in s.files
    ensures Reached(w, s') && OnlyWorker(s, s', i)
    ensures At(s', i) && s'.workers[i].phase.Finished? && s'.workers[i].phase.outcome == Succeeded(200)
    ensures var path := resolve(task.localPath);
            s'.files == (s.files - {path, Downloads.PartOf(path)})[path := s.files[Downloads.PartOf(path)]]
  {
    var op := Downloads.Op(true, [], 200, "");
    Downloads.PartDiffers(resolve(task.localPath));
    var s1 := Operate(w, s, i, task, Downloads.Clearing(200), op, resolve, digest);
    s' := Operate(w, s1, i, task, Downloads.Renaming(200), op, resolve, digest);
  }

  // ------------------------------------------------------------------ two downloads at once

  /** The first large worker fetches `a`, the first small one `b`, and there is no
      other task. */
  ghost predicate Racing(c: Config, s: State, a: SyncTask, b: SyncTask) {
    && 0 < c.smallFileWorkers < |s.workers|
    && s.sh.results.Keys == {a.id, b.id} && s.sh.results[a.id].task == a && s.sh.results[b.id].task == b
    && Holding(s.workers[c.smallFileWorkers].phase) && s.workers[c.smallFileWorkers].phase.item.id == a.id
  }

  /** `a` expects some bytes, `b` takes anything. */
  predicate Rivals(a: SyncTask, b: SyncTask) {
    && a.id != b.id && a.direction == Download && b.direction == Download
    && a.validation.expectedSize.Some? && a.validation.expectedSize.value > 0 && a.validation.expectedSha256 == ""
    && b.validation == Validation(None, "")
  }

  /** As many bytes as `a` expects. */
  function Expected(a: SyncTask): (bytes: seq<Byte>)
    requires a.validation.expectedSize.Some?
    ensures |bytes| == a.validation.expectedSize.value
  {
    seq(a.validation.expectedSize.value, _ => 0)
  }

  lemma RacingStill(c: Config, s: State, s': State, i: nat, a: SyncTask, b: SyncTask)
    requires Racing(c, s, a, b) && OnlyWorker(s, s', i)
    ensures Racing(c, s', a, b)
  {
  }

  /** The worker that fetched `a` has succeeded. */
  ghost predicate Fetched(c: Config, s: State, a: SyncTask, b: SyncTask) {
    && Racing(c, s, a, b) && s.workers[c.smallFileWorkers].phase.Finished?
    && s.workers[c.smallFileWorkers].phase.outcome == Succeeded(200)
  }

  /** It records its success. */
  lemma Record(w: World, s: State, a: SyncTask, b: SyncTask) returns (s': State)
    requires Reached(w, s) && Fetched(w.config, s, a, b)
    ensures Reached(w, s') && s'.files == s.files
    ensures s'.sh.results.Keys == {a.id, b.id} && s'.sh.results[a.id].task == a && s'.sh.results[b.id].task == b
    ensures s'.sh.results[a.id].state == Completed
  {
    s' := ConcludeStep(w, s, w.config.smallFileWorkers);
    Onward(w, s, Conclude(w.config.smallFileWorkers), s');
  }

  // ------------------------------------------------------------------ the bad orders

  /** Both downloads are about to begin. */
  ghost predicate Starting(c: Config, s: State, a: SyncTask, b: SyncTask) {
    && Rivals(a, b) && Racing(c, s, a, b)
    && Fetcher(s, c.smallFileWorkers, a, Downloads.Starting(0)) && Fetcher(s, 0, b, Downloads.Starting(0))
  }

  /** `b` writes to the target of `a`, or to a part file that is it, after `a`. */
  lemma Overwritten(w: World, s: State, a: SyncTask, b: SyncTask,
                    resolve: string -> string, digest: Downloads.Digest) returns (s': State)
    requires Fetches(w, resolve, digest) && Reached(w, s) && Starting(w.config, s, a, b)
    requires var p, q := resolve(a.localPath), resolve(b.localPath); p == q || p == Downloads.PartOf(q)
    ensures Reached(w, s') && Fetched(w.config, s', a, b) && !TargetHolds(s', resolve, digest, a)
  {
    var p, q, x := resolve(a.localPath), resolve(b.localPath), w.config.smallFileWorkers;
    var s1 := Fill(w, s, x, a, Expected(a), resolve, digest);
    var s2 := Put(w, s1, x, a, resolve, digest);
    var s3 := Fill(w, s2, 0, b, [], resolve, digest);
    RacingStill(w.config, s, s1, x, a, b);
    RacingStill(w.config, s1, s2, x, a, b);
    RacingStill(w.config, s2, s3, 0, a, b);
    if p == q {
      s' := Put(w, s3, 0, b, resolve, digest);
      RacingStill(w.config, s3, s', 0, a, b);
    } else {
      s' := s3;
    }
  }

  /** `b` replaces the checked part file of `a`, which `a` then renames. */
  lemma Swapped(w: World, s: State, a: SyncTask, b: SyncTask,
                resolve: string -> string, digest: Downloads.Digest) returns (s': State)
    requires Fetches(w, resolve, digest) && Reached(w, s) && Starting(w.config, s, a, b)
    requires Downloads.PartOf(resolve(a.localPath)) == resolve(b.localPath)
    ensures Reached(w, s') && Fetched(w.config, s', a, b) && !TargetHolds(s', resolve, digest, a)
  {
    var x := w.config.smallFileWorkers;
    var s1 := Fill(w, s, x, a, Expected(a), resolve, digest);
    var s2 := Fill(w, s1, 0, b, [], resolve, digest);
    var s3 := Put(w, s2, 0, b, resolve, digest);
    RacingStill(w.config, s, s1, x, a, b);
    RacingStill(w.config, s1, s2, 0, a, b);
    RacingStill(w.config, s2, s3, 0, a, b);
    s' := Put(w, s3, x, a, resolve, digest);
    RacingStill(w.config, s3, s', x, a, b);
  }

  // ------------------------------------------------------------------ from the start to the race

  /** The manager is connected, both tasks are known, and the two workers are in
      these phases. */
  ghost predicate Set(c: Config, s: State, a: SyncTask, b: SyncTask, pa: Phase, pb: Phase) {
    && s.sh.service == Connected && !s.sh.stopping
    && 0 < c.smallFileWorkers < |s.workers|
    && s.workers[c.smallFileWorkers] == Worker(true, pa) && s.workers[0] == Worker(false, pb)
    && s.sh.results.Keys == {a.id, b.id} && s.sh.results[a.id].task == a && s.sh.results[b.id].task == b
  }

  lemma Submit(w: World, a: SyncTask, b: SyncTask) returns (s: State)
    requires ValidConfig(w.config) && a.id != b.id && w.admits(a, true) && w.admits(b, false)
    ensures Reached(w, s) && Set(w.config, s, a, b, Seeking, Seeking)
    ensures s.sh.large == [QueueItem(a.id, true, s.now)] && s.sh.small == [QueueItem(b.id, false, s.now)]
  {
    var s0 := Connect(w);
    var s1 := EnqueueStep(s0, a, true);
    Onward(w, s0, Enqueue(a, true), s1);
    s := EnqueueStep(s1, b, false);
    Onward(w, s1, Enqueue(b, false), s);
  }

  lemma TakeOne(w: World, s: State, i: nat, item: QueueItem) returns (s': State)
    requires Reached(w, s) && SeekEnabled(s, i) && s.sh.service == Connected && !s.sh.stopping
    requires Queue(s.sh, s.workers[i].large) == [item] && item.readyAt <= s.now && item.id in s.sh.results
    ensures Reached(w, s') && s'.workers == s.workers[i := s.workers[i].(phase := Taken(item))]
    ensures s'.sh.service == Connected && !s'.sh.stopping && s'.now == s.now
    ensures Queue(s'.sh, !s.workers[i].large) == Queue(s.sh, !s.workers[i].large)
    ensures s'.sh.results.Keys == s.sh.results.Keys
    ensures forall id | id in s.sh.results :: s'.sh.results[id].task == s.sh.results[id].task
  {
    assert FirstReady(Queue(s.sh, s.workers[i].large), s.now) == 0;
    s' := SeekStep(s, i);
    Onward(w, s, Seek(i), s');
  }

  lemma TakeBoth(w: World, a: SyncTask, b: SyncTask) returns (s: State, ia: QueueItem, ib: QueueItem)
    requires ValidConfig(w.config) && a.id != b.id && w.admits(a, true) && w.admits(b, false)
    ensures Reached(w, s) && Set(w.config, s, a, b, Taken(ia), Taken(ib)) && ia.id == a.id && ib.id == b.id
  {
    var s0 := Submit(w, a, b);
    ia, ib := s0.sh.large[0], s0.sh.small[0];
    var s1 := TakeOne(w, s0, w.config.smallFileWorkers, ia);
    s := TakeOne(w, s1, 0, ib);
  }

  /** A worker reads its task and begins its download. */
  lemma BeginOne(w: World, s: State, i: nat, task: SyncTask) returns (s': State)
    requires Reached(w, s) && ReadEnabled(s, i) && s.workers[i].phase.item.id in s.sh.results
    requires s.sh.results[s.workers[i].phase.item.id].task == task && task.direction == Download
    ensures Reached(w, s') && OnlyWorker(s, s', i) && Fetcher(s', i, task, Downloads.Starting(0))
  {
    var s1 := ReadStep(s, i);
    Onward(w, s, Read(i), s1);
    s' := TransferStep(s1, i, Started(0));
    Onward(w, s1, Transfer(i, Started(0)), s');
  }

  lemma BeginBoth(w: World, a: SyncTask, b: SyncTask) returns (s: State)
    requires ValidConfig(w.config) && Rivals(a, b) && w.admits(a, true) && w.admits(b, false)
    ensures Reached(w, s) && Starting(w.config, s, a, b)
  {
    var s0, ia, ib := TakeBoth(w, a, b);
    var s1 := BeginOne(w, s0, w.config.smallFileWorkers, a);
    s := BeginOne(w, s1, 0, b);
    RacingStill(w.config, s0, s1, w.config.smallFileWorkers, a, b);
    RacingStill(w.config, s1, s, 0, a, b);
  }

  /** A run that completes `a` with the wrong bytes, or none, under its path. */
  lemma Collide(w: World, resolve: string -> string, digest: Downloads.Digest, a: SyncTask, b: SyncTask)
    returns (s: State)
    requires ValidConfig(w.config) && Fetches(w, resolve, digest) && Rivals(a, b)
    requires w.admits(a, true) && w.admits(b, false) && !Apart(resolve(a.localPath), resolve(b.localPath))
    ensures Reached(w, s) && !TargetHolds(s, resolve, digest, a)
    ensures s.sh.results.Keys == {a.id, b.id} && s.sh.results[a.id].task == a && s.sh.results[b.id].task == b
    ensures s.sh.results[a.id].state == Completed
  {
    var s0 := BeginBoth(w, a, b);
    var s1;
    if Downloads.PartOf(resolve(a.localPath)) == resolve(b.localPath) {
      s1 := Swapped(w, s0, a, b, resolve, digest);
    } else {
      s1 := Overwritten(w, s0, a, b, resolve, digest);
    }
    s := Record(w, s1, a, b);
  }

  // ------------------------------------------------------------------ exactly when publishing is safe

  ghost predicate Both(s: State, a: SyncTask, b: SyncTask, la: string, lb: string) {
    && a.localPath == la && b.localPath == lb && a.direction == Download && b.direction == Download && a.id != b.id
    && s.sh.results.Keys == {a.id, b.id} && s.sh.results[a.id].task == a && s.sh.results[b.id].task == b
  }

  /** In no run that accepts two downloads with these local paths, and no other
      task, does the first complete without its bytes under its path. */
  ghost predicate SafeTogether(w: World, resolve: string -> string, digest: Downloads.Digest, la: string, lb: string) {
    forall s, a: SyncTask, b: SyncTask | Reached(w, s) && Both(s, a, b, la, lb) ::
      s.sh.results[a.id].state == Completed ==> TargetHolds(s, resolve, digest, a)
  }

  /** In the source's world two downloads publish safely in all runs iff their paths
      are apart: each of the three conditions of `Apart` is needed. Empty local
      paths are refused by `enqueue`. */
  lemma SafeExactlyApart(c: Config, resolve: string -> string, message: string, la: string, lb: string)
    requires ValidConfig(c) && la != "" && lb != ""
    ensures SafeTogether(SourceWorld(c, resolve, message), resolve, Fips180.DigestText, la, lb)
       <==> Apart(resolve(la), resolve(lb))
  {
    var w := SourceWorld(c, resolve, message);
    SourceFetches(c, resolve, message);
    if Apart(resolve(la), resolve(lb)) {
      forall s, a: SyncTask, b: SyncTask | Reached(w, s) && Both(s, a, b, la, lb)
        ensures s.sh.results[a.id].state == Completed ==> TargetHolds(s, resolve, Fips180.DigestText, a)
      {
        var ss, acts := RunTo(w, s);
        PublishedSafely(w, ss, acts, |acts|, resolve, Fips180.DigestText, a);
      }
    } else {
      Conflict(c, resolve, message, la, lb);
    }
  }

  lemma Conflict(c: Config, resolve: string -> string, message: string, la: string, lb: string)
    requires ValidConfig(c) && la != "" && lb != "" && !Apart(resolve(la), resolve(lb))
    ensures !SafeTogether(SourceWorld(c, resolve, message), resolve, Fips180.DigestText, la, lb)
  {
    var w := SourceWorld(c, resolve, message);
    var size: U64 := if c.largeFileThreshold > 0 then c.largeFileThreshold else 1;
    var a := SyncTask("a", Download, "http", la, Validation(Some(size), ""));
    var b := SyncTask("b", Download, "http", lb, Validation(None, ""));
    PlainTaskIsWellFormed(a);
    PlainTaskIsWellFormed(b);
    SyncManagers.AdmissibleClasses(c, a, true);
    SyncManagers.AdmissibleClasses(c, b, false);
    SourceFetches(c, resolve, message);
    var s := Collide(w, resolve, Fips180.DigestText, a, b);
    assert Both(s, a, b, la, lb);
  }

  /** For instance a file and the same name with `.part` appended, when paths resolve
      to themselves. */
  lemma PartNameConflicts(c: Config, message: string)
    requires ValidConfig(c)
    ensures !SafeTogether(SourceWorld(c, path => path, message), path => path, Fips180.DigestText, "f", "f.part")
  {
    SafeExactlyApart(c, path => path, message, "f", "f.part");
  }
}

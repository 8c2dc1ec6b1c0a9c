/** From the scheduler to the files: a Completed download task has its bytes,
    validated, under its path, however the file operations of all workers
    interleave. */
module Publishing {
  import opened SyncTypes
  import opened SyncCore
  import opened Protocol
  import opened Effects
  import opened Conservation
  import opened TaskLife
  import opened Wakeups
  import opened Callbacks
  import Downloads
  import Fips180
  import SyncManagers

  // ------------------------------------------------------------------ the source's world

  /** The file operations are those of `http_download_file`, on the path to which
      the local path of the task resolves. */
  ghost predicate Fetches(w: World, resolve: string -> string, digest: Downloads.Digest) {
    && (forall files: Downloads.Files, task: SyncTask, place: Downloads.Place, op: Downloads.Op
          {:trigger w.touched(files, task, place, op)} ::
          w.touched(files, task, place, op) == Downloads.Touched(files, resolve(task.localPath), place, op))
    && (forall files: Downloads.Files, task: SyncTask, place: Downloads.Place, op: Downloads.Op
          {:trigger w.problem(files, task, place, op)} ::
          w.problem(files, task, place, op)
          == Downloads.Problem(files, resolve(task.localPath), digest, task.validation, place, op))
  }

  /** What the source fixes: the checks of `enqueue`, `is_retryable`, the file
      operations with their texts, and SHA-256. */
  ghost function SourceWorld(c: Config, resolve: string -> string, message: string): World {
    World(c,
          (task, large) => SyncManagers.Admissible(c, task, large),
          IsRetryable,
          (files, task: SyncTask, place, op) => Downloads.Touched(files, resolve(task.localPath), place, op),
          (files, task: SyncTask, place, op) =>
            Downloads.Problem(files, resolve(task.localPath), Fips180.DigestText, task.validation, place, op),
          Downloads.Text,
          message)
  }

  lemma PlainTaskIsWellFormed(task: SyncTask)
    requires task.id != "" && task.url == "http" && task.localPath != "" && task.validation.expectedSha256 == ""
    ensures SyncManagers.WellFormed(task)
  {
    assert SyncManagers.FirstColon("http") == 4;
    assert task.url[..4] == "http" && Downloads.Lower("http") == "http";
  }

  // ------------------------------------------------------------------ one writer per path

  /** `p` and its part file are neither `q` nor its part file. */
  predicate Apart(p: string, q: string) {
    p != q && p != Downloads.PartOf(q) && Downloads.PartOf(p) != q
  }

  /** Among the accepted tasks, only `task` writes where it does; uploads write nothing. */
  ghost predicate SoleWriter(results: map<string, SyncResult>, resolve: string -> string, task: SyncTask) {
    forall id | id in results ::
      if id == task.id then results[id].task == task
      else results[id].task.direction == Download ==>
             Apart(resolve(task.localPath), resolve(results[id].task.localPath))
  }

  lemma KeptAt(before: Downloads.Files, files: Downloads.Files, p: string, q: string)
    requires Downloads.OthersKept(before, files, q) && p != q && p != Downloads.PartOf(q)
    ensures Downloads.SameTarget(before, files, p)
  {
    var own := {q, Downloads.PartOf(q)};
    assert p in before <==> p in before - own;
    assert p in files <==> p in files - own;
    if p in before {
      assert (before - own)[p] == before[p];
    }
  }

  /** A task that is apart touches neither the target nor the part file. */
  lemma TouchedElsewhere(files: Downloads.Files, p: string, q: string, place: Downloads.Place, op: Downloads.Op)
    requires Apart(p, q)
    ensures var after := Downloads.Touched(files, q, place, op);
            Downloads.SameTarget(files, after, p) && Downloads.SameTarget(files, after, Downloads.PartOf(p))
  {
    var after := Downloads.Touched(files, q, place, op);
    Downloads.TouchesOnly(files, q, place, op);
    KeptAt(files, after, p, q);
    assert Downloads.PartOf(p) != Downloads.PartOf(q) by {
      assert Downloads.PartOf(p)[..|p|] == p && Downloads.PartOf(q)[..|q|] == q;
    }
    KeptAt(files, after, Downloads.PartOf(p), q);
  }

  // ------------------------------------------------------------------ how files change

  lemma FilesStep(w: World, s: State, a: Action, s': State)
    requires Step(w, s, a, s') && !a.Fetch?
    ensures s'.files == s.files
  {
    if ByWorker(a) {
      WorkerKeeps(w, s, a, s');
    } else {
      assert Inspect(0);
    }
  }

  /** What a file operation leaves. */
  ghost predicate Fetched(w: World, s: State, a: Action, s': State)
    requires a.Fetch?
  {
    && At(s, a.w) && At(s', a.w) && s.workers[a.w].phase.Fetching?
    && var p, p' := s.workers[a.w].phase, s'.workers[a.w].phase;
       var place := Downloads.NextPlace(p.place, w.problem(s.files, p.task, p.place, a.op), a.op);
       && s'.sh == s.sh && s'.workers == s.workers[a.w := s.workers[a.w].(phase := p')]
       && s'.files == w.touched(s.files, p.task, p.place, a.op)
       && p' == if place.Done? then Finished(p.item, p.task, p.attempts, OutcomeOf(w, place))
                else Fetching(p.item, p.task, p.attempts, place)
  }

  lemma FetchedStep(w: World, s: State, a: Action, s': State)
    requires Step(w, s, a, s') && a.Fetch?
    ensures Fetched(w, s, a, s')
  {
    assert Inspect(0);
  }

  /** A transfer that does not download begins one, fails or uploads. */
  lemma TransferBegins(w: World, s: State, a: Action, s': State)
    requires Step(w, s, a, s') && a.Transfer?
    ensures At(s, a.w) && At(s', a.w) && s.workers[a.w].phase.Working?
    ensures var p, p' := s.workers[a.w].phase, s'.workers[a.w].phase;
            && s'.sh == s.sh && s'.workers == s.workers[a.w := s.workers[a.w].(phase := p')]
            && (p'.Fetching? ==> p'.place.Starting?)
            && (p'.Finished? && p'.outcome.Succeeded? ==> p.task.direction == Upload)
            && GoesOn(p.item, p.task, p.attempts, p')
  {
    assert Inspect(0);
  }

  // ------------------------------------------------------------------ what has arrived

  ghost predicate FetchingAt(s: State, i: nat, id: string) {
    At(s, i) && s.workers[i].phase.Fetching? && s.workers[i].phase.item.id == id
  }

  ghost predicate SucceededAt(s: State, i: nat, id: string) {
    && At(s, i) && s.workers[i].phase.Finished?
    && s.workers[i].phase.outcome.Succeeded? && s.workers[i].phase.item.id == id
  }

  /** The transfer of `id` has succeeded, and maybe been recorded. */
  ghost predicate Arrived(s: State, id: string) {
    (id in s.sh.results && s.sh.results[id].state == Completed) || exists i: nat :: SucceededAt(s, i, id)
  }

  ghost predicate TargetHolds(s: State, resolve: string -> string, digest: Downloads.Digest, task: SyncTask) {
    var path := resolve(task.localPath);
    path in s.files && Downloads.Validated(digest, task.validation, s.files[path])
  }

  /** The target holds what it held in `before`, nothing, or validated bytes; while
      the task is fetched, its part file holds what has been checked; and once it
      has arrived, the target holds validated bytes. */
  ghost predicate Kept(before: Downloads.Files, s: State, resolve: string -> string, digest: Downloads.Digest,
                       task: SyncTask) {
    var path := resolve(task.localPath);
    && Downloads.TargetSafe(before, s.files, path, digest, task.validation)
    && (forall i: nat :: FetchingAt(s, i, task.id) ==>
          Downloads.Checked(s.files, path, digest, task.validation, s.workers[i].phase.place))
    && (task.id in s.sh.results && task.direction == Download && Arrived(s, task.id) ==>
          TargetHolds(s, resolve, digest, task))
  }

  lemma CompletedFrom(w: World, s: State, s': State, e: Effect, id: string)
    requires Conserved(s) && Shows(w, s, s', e) && !e.Crash?
    requires id in s'.sh.results && s'.sh.results[id].state == Completed
    ensures id in s.sh.results && Arrived(s, id)
  {
    if id in s.sh.results {
      EffectOnTask(w, s, s', e, id);
      if s.sh.results[id].state != Completed {
        assert SucceededAt(s, e.i, id);
      }
    }
  }

  /** What the worker that makes a step on a transfer holds. */
  lemma HolderFacts(w: World, s: State, a: Action, s': State)
    requires Sound(w, s, a, s') && (a.Transfer? || a.Fetch?) && At(s, a.w) && Carries(s.workers[a.w].phase)
    requires !s.workers[a.w].phase.Retrying?
    ensures var p := s.workers[a.w].phase;
            && p.item.id in s.sh.results && s.sh.results[p.item.id].state == InProgress
            && s.sh.results[p.item.id].task == p.task && (p.Fetching? ==> p.task.direction == Download)
    ensures forall i: nat | SucceededAt(s, i, s.workers[a.w].phase.item.id) :: i == a.w
    ensures forall i: nat | FetchingAt(s, i, s.workers[a.w].phase.item.id) :: i == a.w
  {
    assert Look(0);
    HeldItem(s, a.w);
    assert CopyFits(w, s.sh.results, s.workers[a.w].phase);
    var id := s.workers[a.w].phase.item.id;
    forall i: nat | SucceededAt(s, i, id) || FetchingAt(s, i, id) ensures i == a.w {
      if i != a.w {
        HeldOnce(s, i, a.w);
      }
    }
  }

  // ------------------------------------------------------------------ steps that touch no file

  lemma ArrivedFrom(w: World, s: State, a: Action, s': State, id: string)
    requires Sound(w, s, a, s') && Step(w, s, a, s') && !a.Transfer? && !a.Fetch?
    requires Arrived(s', id) && id in s'.sh.results
    ensures Arrived(s, id) && id in s.sh.results
  {
    assert Look(0);
    if s'.sh.results[id].state == Completed {
      CompletedFrom(w, s, s', EffectOf(w, s, a), id);
    } else {
      var i: nat :| SucceededAt(s', i, id);
      StepCarries(w, s, a, s', i);
      assert SucceededAt(s, i, id);
      HeldItem(s, i);
    }
  }

  lemma FetchingFrom(w: World, s: State, a: Action, s': State, i: nat, id: string)
    requires Step(w, s, a, s') && !a.Transfer? && !a.Fetch? && FetchingAt(s', i, id)
    ensures FetchingAt(s, i, id) && s'.workers[i].phase == s.workers[i].phase
  {
    StepCarries(w, s, a, s', i);
  }

  lemma KeptOther(w: World, before: Downloads.Files, s: State, a: Action, s': State,
                  resolve: string -> string, digest: Downloads.Digest, task: SyncTask)
    requires Sound(w, s, a, s') && Step(w, s, a, s') && !a.Transfer? && !a.Fetch?
    requires Kept(before, s, resolve, digest, task)
    ensures Kept(before, s', resolve, digest, task)
  {
    FilesStep(w, s, a, s');
    forall i: nat | FetchingAt(s', i, task.id)
      ensures FetchingAt(s, i, task.id) && s'.workers[i].phase == s.workers[i].phase
    {
      FetchingFrom(w, s, a, s', i, task.id);
    }
    if task.id in s'.sh.results && Arrived(s', task.id) {
      ArrivedFrom(w, s, a, s', task.id);
    }
  }

  lemma KeptTransfer(w: World, before: Downloads.Files, s: State, a: Action, s': State,
                     resolve: string -> string, digest: Downloads.Digest, task: SyncTask)
    requires Sound(w, s, a, s') && Step(w, s, a, s') && a.Transfer?
    requires SoleWriter(s.sh.results, resolve, task) && Kept(before, s, resolve, digest, task)
    ensures Kept(before, s', resolve, digest, task)
  {
    FilesStep(w, s, a, s');
    TransferBegins(w, s, a, s');
    HolderFacts(w, s, a, s');
    forall i: nat | FetchingAt(s', i, task.id)
      ensures Downloads.Checked(s'.files, resolve(task.localPath), digest, task.validation, s'.workers[i].phase.place)
    {
      assert i != a.w ==> FetchingAt(s, i, task.id);
    }
    if i: nat :| SucceededAt(s', i, task.id) {
      assert i != a.w ==> SucceededAt(s, i, task.id);
    }
  }

  // ------------------------------------------------------------------ file operations

  /** An operation of the task itself. */
  lemma KeptOwn(w: World, before: Downloads.Files, s: State, a: Action, s': State,
                resolve: string -> string, digest: Downloads.Digest, task: SyncTask)
    requires Sound(w, s, a, s') && a.Fetch? && Fetched(w, s, a, s') && Fetches(w, resolve, digest)
    requires s.workers[a.w].phase.item.id == task.id
    requires SoleWriter(s.sh.results, resolve, task) && Kept(before, s, resolve, digest, task)
    ensures Kept(before, s', resolve, digest, task)
  {
    HolderFacts(w, s, a, s');
    var p := s.workers[a.w].phase;
    assert FetchingAt(s, a.w, task.id);
    Downloads.OperationIsSafe(before, s.files, resolve(task.localPath), digest, task.validation, p.place, a.op);
    forall i: nat | FetchingAt(s', i, task.id) || SucceededAt(s', i, task.id) ensures i == a.w {
      assert i != a.w ==> FetchingAt(s, i, task.id) || SucceededAt(s, i, task.id);
    }
  }

  /** An operation of another task. */
  lemma KeptElsewhere(w: World, before: Downloads.Files, s: State, a: Action, s': State,
                      resolve: string -> string, digest: Downloads.Digest, task: SyncTask)
    requires Sound(w, s, a, s') && a.Fetch? && Fetched(w, s, a, s') && Fetches(w, resolve, digest)
    requires s.workers[a.w].phase.item.id != task.id
    requires SoleWriter(s.sh.results, resolve, task) && Kept(before, s, resolve, digest, task)
    ensures Kept(before, s', resolve, digest, task)
  {
    HolderFacts(w, s, a, s');
    var p := s.workers[a.w].phase;
    var path := resolve(task.localPath);
    TouchedElsewhere(s.files, path, resolve(p.task.localPath), p.place, a.op);
    forall i: nat | FetchingAt(s', i, task.id)
      ensures Downloads.Checked(s'.files, path, digest, task.validation, s'.workers[i].phase.place)
    {
      assert FetchingAt(s, i, task.id);
      SameChecked(s.files, s'.files, path, digest, task.validation, s.workers[i].phase.place);
    }
    if i: nat :| SucceededAt(s', i, task.id) {
      assert SucceededAt(s, i, task.id);
    }
  }

  lemma SameChecked(before: Downloads.Files, files: Downloads.Files, path: string, digest: Downloads.Digest,
                    validation: Validation, place: Downloads.Place)
    requires Downloads.SameTarget(before, files, path) && Downloads.SameTarget(before, files, Downloads.PartOf(path))
    requires Downloads.Checked(before, path, digest, validation, place)
    ensures Downloads.Checked(files, path, digest, validation, place)
  {
  }

  lemma KeptStep(w: World, before: Downloads.Files, s: State, a: Action, s': State,
                 resolve: string -> string, digest: Downloads.Digest, task: SyncTask)
    requires Sound(w, s, a, s') && Step(w, s, a, s') && Fetches(w, resolve, digest)
    requires SoleWriter(s.sh.results, resolve, task) && Kept(before, s, resolve, digest, task)
    ensures Kept(before, s', resolve, digest, task)
  {
    if a.Transfer? {
      KeptTransfer(w, before, s, a, s', resolve, digest, task);
    } else if !a.Fetch? {
      KeptOther(w, before, s, a, s', resolve, digest, task);
    } else {
      FetchedStep(w, s, a, s');
      if s.workers[a.w].phase.item.id == task.id {
        KeptOwn(w, before, s, a, s', resolve, digest, task);
      } else {
        KeptElsewhere(w, before, s, a, s', resolve, digest, task);
      }
    }
  }

  // ------------------------------------------------------------------ whole runs

  lemma SoleStep(w: World, s: State, a: Action, s': State, resolve: string -> string, task: SyncTask)
    requires Sound(w, s, a, s') && SoleWriter(s'.sh.results, resolve, task)
    ensures SoleWriter(s.sh.results, resolve, task)
  {
    assert Look(0);
    forall id | id in s.sh.results
      ensures id in s'.sh.results && s'.sh.results[id].task == s.sh.results[id].task
    {
      EffectOnTask(w, s, s', EffectOf(w, s, a), id);
    }
  }

  lemma KeptNext(w: World, ss: seq<State>, acts: seq<Action>, k: nat,
                 resolve: string -> string, digest: Downloads.Digest, task: SyncTask)
    requires IsRun(w, ss, acts) && k < |acts| && Fetches(w, resolve, digest)
    requires SoleWriter(ss[k].sh.results, resolve, task) && Kept(ss[0].files, ss[k], resolve, digest, task)
    ensures Kept(ss[0].files, ss[k + 1], resolve, digest, task)
  {
    SoundRun(w, ss, acts, k);
    KeptStep(w, ss[0].files, ss[k], acts[k], ss[k + 1], resolve, digest, task);
  }

  lemma SoleBefore(w: World, ss: seq<State>, acts: seq<Action>, k: nat, resolve: string -> string, task: SyncTask)
    requires IsRun(w, ss, acts) && k < |acts| && SoleWriter(ss[k + 1].sh.results, resolve, task)
    ensures SoleWriter(ss[k].sh.results, resolve, task)
  {
    SoundRun(w, ss, acts, k);
    SoleStep(w, ss[k], acts[k], ss[k + 1], resolve, task);
  }

  /** In every run, after every file operation of every worker, the path of a task
      that is its sole writer holds what it held at first, nothing, or bytes
      validated for that task; and validated bytes when the task is Completed. */
  lemma {:induction false} PublishedSafely(w: World, ss: seq<State>, acts: seq<Action>, n: nat,
                                           resolve: string -> string, digest: Downloads.Digest, task: SyncTask)
    requires IsRun(w, ss, acts) && n < |ss| && Fetches(w, resolve, digest)
    requires SoleWriter(ss[n].sh.results, resolve, task)
    ensures Kept(ss[0].files, ss[n], resolve, digest, task)
  {
    if n > 0 {
      SoleBefore(w, ss, acts, n - 1, resolve, task);
      PublishedSafely(w, ss, acts, n - 1, resolve, digest, task);
      KeptNext(w, ss, acts, n - 1, resolve, digest, task);
    }
  }

  lemma SourceFetches(c: Config, resolve: string -> string, message: string)
    ensures Fetches(SourceWorld(c, resolve, message), resolve, Fips180.DigestText)
  {
  }

  /** A Completed download has, under its path, bytes of the expected size whose
      FIPS 180-4 digest is the expected one, letter case aside. */
  lemma CompletedDownload(c: Config, resolve: string -> string, message: string, ss: seq<State>, acts: seq<Action>,
                          n: nat, task: SyncTask)
    requires IsRun(SourceWorld(c, resolve, message), ss, acts) && n < |ss|
    requires SoleWriter(ss[n].sh.results, resolve, task) && task.direction == Download
    requires task.id in ss[n].sh.results && ss[n].sh.results[task.id].state == Completed
    ensures var path := resolve(task.localPath);
            && path in ss[n].files
            && (task.validation.expectedSize.Some? ==> |ss[n].files[path]| == task.validation.expectedSize.value)
            && (task.validation.expectedSha256 != "" && Fips180.InDomain(ss[n].files[path]) ==>
                  Fips180.HexDigest(ss[n].files[path]) == Downloads.Lower(task.validation.expectedSha256))
  {
    SourceFetches(c, resolve, message);
    PublishedSafely(SourceWorld(c, resolve, message), ss, acts, n, resolve, Fips180.DigestText, task);
    assert Arrived(ss[n], task.id);
  }

  // ------------------------------------------------------------------ the exit status

  /** What `main` reports as success: a true idle verdict, and then every result
      Completed. Nothing was being worked on, and every accepted download that is the
      sole writer of its path has its validated bytes there. */
  lemma SuccessMeansPublished(c: Config, resolve: string -> string, message: string, ss: seq<State>, acts: seq<Action>,
                              m: nat, n: nat, id: string)
    requires IsRun(SourceWorld(c, resolve, message), ss, acts) && m <= n < |ss| && IdleVerdict(ss[m].sh)
    requires forall other | other in ss[n].sh.results :: ss[n].sh.results[other].state == Completed
    requires id in ss[n].accepted
    ensures forall i | 0 <= i < |ss[m].workers| :: !Holding(ss[m].workers[i].phase)
    ensures id in ss[n].sh.results
    ensures var task := ss[n].sh.results[id].task;
            task.direction == Download && SoleWriter(ss[n].sh.results, resolve, task) ==>
              TargetHolds(ss[n], resolve, Fips180.DigestText, task)
  {
    var w := SourceWorld(c, resolve, message);
    IdleSound(w, ss, acts, m);
    ListedRun(w, ss, acts, n);
    KeyedRun(w, ss, acts, n);
    SourceFetches(c, resolve, message);
    var task := ss[n].sh.results[id].task;
    if SoleWriter(ss[n].sh.results, resolve, task) {
      PublishedSafely(w, ss, acts, n, resolve, Fips180.DigestText, task);
      assert Arrived(ss[n], id);
    }
  }
}

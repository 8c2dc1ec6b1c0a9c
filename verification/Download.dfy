/** `Network::http_download_file` (net/network.cpp): a retry loop over the target
    and its `.part` file. Files are a map from path to bytes; what the transfer
    and the file system do in an attempt is given by an `Attempt`. */
module Downloads {
  import opened SyncTypes
  import IpcCommand

  type Files = map<string, seq<Byte>>

  /** The text `sha256_file` gives for a readable file with these bytes. */
  type Digest = seq<Byte> -> string

  /** What the environment does in one attempt. `written` is what the `.part` file
      holds when it is closed. */
  datatype Attempt = Attempt(
    partRemovable: bool, opens: bool, written: seq<Byte>,
    transferred: bool, status: int, transferError: string,
    sizeReadable: bool, hashReadable: bool,
    targetRemovable: bool, renames: bool, renameError: string)

  function PartOf(path: string): string {
    path + ".part"
  }

  lemma PartDiffers(path: string)
    ensures PartOf(path) != path
  {
    assert |PartOf(path)| == |path| + 5;
  }

  // ------------------------------------------------------------------ validation

  function LowerChar(ch: char): char {
    if 'A' <= ch <= 'Z' then (ch as int + 32) as char else ch
  }

  function Lower(s: string): (r: string)
    ensures |r| == |s| && forall i | 0 <= i < |s| :: r[i] == LowerChar(s[i])
  {
    seq(|s|, i requires 0 <= i < |s| => LowerChar(s[i]))
  }

  predicate SizeMatches(validation: Validation, bytes: seq<Byte>) {
    validation.expectedSize.Some? ==> |bytes| == validation.expectedSize.value
  }

  predicate HashMatches(digest: Digest, validation: Validation, bytes: seq<Byte>) {
    validation.expectedSha256 != "" ==> digest(bytes) == Lower(validation.expectedSha256)
  }

  /** The bytes are what the task asked for. */
  predicate Validated(digest: Digest, validation: Validation, bytes: seq<Byte>) {
    SizeMatches(validation, bytes) && HashMatches(digest, validation, bytes)
  }

  predicate Delivered(a: Attempt) {
    a.transferred && (a.status == 0 || 200 <= a.status < 300)
  }

  predicate SizeAccepted(validation: Validation, a: Attempt) {
    a.sizeReadable && SizeMatches(validation, a.written)
  }

  predicate HashAccepted(digest: Digest, validation: Validation, a: Attempt) {
    validation.expectedSha256 != "" ==> a.hashReadable && digest(a.written) == Lower(validation.expectedSha256)
  }

  /** The attempt gets as far as replacing the target. */
  predicate Publishes(digest: Digest, validation: Validation, a: Attempt) {
    a.opens && Delivered(a) && SizeAccepted(validation, a) && HashAccepted(digest, validation, a)
  }

  // ------------------------------------------------------------------ file operations

  function Removed(files: Files, path: string, removable: bool): Files {
    if removable then files - {path} else files
  }

  function Renamed(files: Files, from: string, to: string): Files
    requires from in files
  {
    (files - {from})[to := files[from]]
  }

  // ------------------------------------------------------------------ specification

  /** What `response` says. */
  datatype Response = NoResponse | Success | CannotOpen | WrongSize(expected: Option<U64>, actual: Option<nat>)
                    | WrongHash | SystemError(message: string) | BadStatus(status: int)

  datatype Result = Result(files: Files, ok: bool, status: int, response: Response)

  function IntText(n: int): string {
    if n < 0 then ['-'] + IpcCommand.Decimal(-n) else IpcCommand.Decimal(n)
  }

  /** The text of `response`. */
  function Text(response: Response): string {
    match response
    case NoResponse => ""
    case Success => "Success"
    case CannotOpen => "Failed to open file for writing."
    case WrongSize(expected, actual) =>
      "File validation failed: expected_size=" +
      (if expected.Some? then IpcCommand.Decimal(expected.value) else "unknown") +
      " actual_size=" + (if actual.Some? then IpcCommand.Decimal(actual.value) else "unavailable")
    case WrongHash => "File validation failed: SHA-256 mismatch."
    case SystemError(message) => message
    case BadStatus(status) => "Unexpected HTTP status: " + IntText(status)
  }

  /** Why an attempt that opened its file did not succeed. */
  function Reason(digest: Digest, validation: Validation, a: Attempt): Response {
    if Delivered(a) then
      if !SizeAccepted(validation, a) then
        WrongSize(validation.expectedSize, if a.sizeReadable then Some(|a.written|) else None)
      else if !HashAccepted(digest, validation, a) then WrongHash
      else SystemError(a.renameError)
    else if !a.transferred then SystemError(a.transferError)
    else BadStatus(a.status)
  }

  /** The files when the `.part` file has been written and closed. */
  function Written(files: Files, path: string, a: Attempt): Files {
    Removed(files, PartOf(path), a.partRemovable)[PartOf(path) := a.written]
  }

  /** The files after an attempt that opened its file. */
  function Attempted(files: Files, path: string, digest: Digest, validation: Validation, a: Attempt): Files {
    var written := Written(files, path, a);
    if !Publishes(digest, validation, a) then written
    else
      PartDiffers(path);
      var cleared := Removed(written, path, a.targetRemovable);
      if a.renames then Renamed(cleared, PartOf(path), path) else cleared
  }

  /** The attempts still to be made, then the last removal of the `.part` file. */
  function Fetch(files: Files, status: int, response: Response, path: string, digest: Digest,
                 validation: Validation, attempts: seq<Attempt>, lastRemovable: bool): Result
    decreases |attempts|
  {
    if attempts == [] then Result(Removed(files, PartOf(path), lastRemovable), false, status, response)
    else
      var a := attempts[0];
      if !a.opens then
        Result(Removed(files, PartOf(path), a.partRemovable), false, status, CannotOpen)
      else
        var after := Attempted(files, path, digest, validation, a);
        if Publishes(digest, validation, a) && a.renames then Result(after, true, a.status, Success)
        else
          Fetch(after, a.status, Reason(digest, validation, a), path, digest, validation, attempts[1..], lastRemovable)
  }

  // ------------------------------------------------------------------ what a download guarantees

  /** The target holds what it held before, nothing, or validated bytes. */
  predicate TargetSafe(before: Files, files: Files, path: string, digest: Digest, validation: Validation) {
    || path !in files
    || (path in before && files[path] == before[path])
    || Validated(digest, validation, files[path])
  }

  /** Nothing but the target and its `.part` file is touched. */
  ghost predicate OthersKept(before: Files, files: Files, path: string) {
    before - {path, PartOf(path)} == files - {path, PartOf(path)}
  }

  predicate SameTarget(before: Files, files: Files, path: string) {
    (path in before <==> path in files) && (path in before ==> files[path] == before[path])
  }

  ghost predicate Safe(before: Files, files: Files, path: string, digest: Digest, validation: Validation) {
    TargetSafe(before, files, path, digest, validation) && OthersKept(before, files, path)
  }

  /** What happens to the part file alone is safe. */
  lemma PartOnly(before: Files, files: Files, next: Files, path: string, digest: Digest, validation: Validation)
    requires Safe(before, files, path, digest, validation) && next - {PartOf(path)} == files - {PartOf(path)}
    ensures Safe(before, next, path, digest, validation)
  {
    PartDiffers(path);
    var part := PartOf(path);
    assert path in next <==> path in next - {part};
    assert path in next ==> next[path] == (next - {part})[path];
    assert path in files <==> path in files - {part};
    assert path in files ==> files[path] == (files - {part})[path];
    assert next - {path, part} == (next - {part}) - {path};
    assert files - {path, part} == (files - {part}) - {path};
  }

  /** The files of a successful download: validated bytes under the target's name,
      and no `.part` file. A failed one leaves none either, if every attempt could
      open it and the last removal succeeds. */
  lemma {:induction false} DownloadGuarantee(files: Files, status: int, response: Response, path: string,
                                             digest: Digest, validation: Validation,
                                             attempts: seq<Attempt>, lastRemovable: bool)
    ensures var r := Fetch(files, status, response, path, digest, validation, attempts, lastRemovable);
            && Safe(files, r.files, path, digest, validation)
            && (r.ok ==> path in r.files && Validated(digest, validation, r.files[path])
                         && PartOf(path) !in r.files && (r.status == 0 || 200 <= r.status < 300))
            && (lastRemovable && (forall i | 0 <= i < |attempts| :: attempts[i].opens) ==> PartOf(path) !in r.files)
    decreases |attempts|
  {
    PartDiffers(path);
    if attempts != [] && attempts[0].opens {
      var a := attempts[0];
      var after := Attempted(files, path, digest, validation, a);
      assert OthersKept(files, after, path);
      DownloadGuarantee(after, a.status, Reason(digest, validation, a), path, digest, validation,
                        attempts[1..], lastRemovable);
    }
  }

  // ------------------------------------------------------------------ what a failed download may lose

  /** Attempt `i` is made, removes the target and then cannot rename onto it. */
  ghost predicate LosesTarget(digest: Digest, validation: Validation, attempts: seq<Attempt>, i: nat) {
    && i < |attempts|
    && (forall j | 0 <= j <= i :: attempts[j].opens)
    && Publishes(digest, validation, attempts[i]) && attempts[i].targetRemovable && !attempts[i].renames
  }

  /** A failed download leaves the target as it was, unless an attempt got as far
      as removing it and the rename failed: then the old content is gone. */
  lemma {:induction false} FailureKeepsTarget(files: Files, status: int, response: Response, path: string,
                                              digest: Digest, validation: Validation,
                                              attempts: seq<Attempt>, lastRemovable: bool)
    requires path in files
    requires !Fetch(files, status, response, path, digest, validation, attempts, lastRemovable).ok
    ensures SameTarget(files,
                       Fetch(files, status, response, path, digest, validation, attempts, lastRemovable).files, path)
       <==> !exists i :: LosesTarget(digest, validation, attempts, i)
    decreases |attempts|
  {
    PartDiffers(path);
    if attempts == [] || !attempts[0].opens {
      return;
    }
    var a, rest := attempts[0], attempts[1..];
    var after := Attempted(files, path, digest, validation, a);
    var reason := Reason(digest, validation, a);
    if Publishes(digest, validation, a) && a.targetRemovable {
      assert LosesTarget(digest, validation, attempts, 0);
      AbsentStaysAbsent(after, a.status, reason, path, digest, validation, rest, lastRemovable);
    } else {
      assert SameTarget(files, after, path);
      FailureKeepsTarget(after, a.status, reason, path, digest, validation, rest, lastRemovable);
      LosesLater(digest, validation, attempts);
    }
  }

  lemma LosesLater(digest: Digest, validation: Validation, attempts: seq<Attempt>)
    requires attempts != [] && attempts[0].opens && !LosesTarget(digest, validation, attempts, 0)
    ensures (exists i :: LosesTarget(digest, validation, attempts, i))
       <==> (exists i :: LosesTarget(digest, validation, attempts[1..], i))
  {
    var rest := attempts[1..];
    if i: nat :| LosesTarget(digest, validation, attempts, i) {
      forall j | 0 <= j <= i - 1 ensures rest[j].opens {
        assert rest[j] == attempts[j + 1];
      }
      assert LosesTarget(digest, validation, rest, i - 1);
    }
    if i: nat :| LosesTarget(digest, validation, rest, i) {
      forall j | 0 <= j <= i + 1 ensures attempts[j].opens {
        assert j > 0 ==> attempts[j] == rest[j - 1];
      }
      assert LosesTarget(digest, validation, attempts, i + 1);
    }
  }

  lemma {:induction false} AbsentStaysAbsent(files: Files, status: int, response: Response, path: string,
                                             digest: Digest, validation: Validation,
                                             attempts: seq<Attempt>, lastRemovable: bool)
    requires path !in files
    requires !Fetch(files, status, response, path, digest, validation, attempts, lastRemovable).ok
    ensures path !in Fetch(files, status, response, path, digest, validation, attempts, lastRemovable).files
    decreases |attempts|
  {
    PartDiffers(path);
    if attempts != [] && attempts[0].opens {
      var a := attempts[0];
      AbsentStaysAbsent(Attempted(files, path, digest, validation, a), a.status, Reason(digest, validation, a),
                        path, digest, validation, attempts[1..], lastRemovable);
    }
  }

  // ------------------------------------------------------------------ one attempt, operation by operation

  /** Where one attempt is, by the file operation that comes next. Before the
      transfer it carries the status of an earlier request, after it its own. */
  datatype Place =
    | Starting(prior: int)      // remove the part file
    | Opening(prior: int)       // open and truncate it
    | Writing                   // transfer into it, and close it
    | Sizing(status: int)       // compare its size
    | Hashing(status: int)      // compare its digest, if one is expected
    | Clearing(status: int)     // remove the target
    | Renaming(status: int)     // rename the part file onto the target
    | Discarding(status: int, response: Response)   // remove the part file
    | Done(ok: bool, status: int, response: Response)

  /** What the environment decides about one operation: whether it succeeds, the
      system's message if it does not, and for the transfer the bytes and the status. */
  datatype Op = Op(ok: bool, bytes: seq<Byte>, status: int, message: string)

  /** What stands in the way after the operation at `place`, if anything. */
  function Problem(files: Files, path: string, digest: Digest, validation: Validation, place: Place, op: Op)
    : Option<Response>
  {
    var part := PartOf(path);
    match place
    case Opening(_) => if op.ok then None else Some(CannotOpen)
    case Writing =>
      if !op.ok then Some(SystemError(op.message))
      else if op.status == 0 || 200 <= op.status < 300 then None
      else Some(BadStatus(op.status))
    case Sizing(_) =>
      if !op.ok || part !in files then Some(WrongSize(validation.expectedSize, None))
      else if SizeMatches(validation, files[part]) then None
      else Some(WrongSize(validation.expectedSize, Some(|files[part]|)))
    case Hashing(_) =>
      if validation.expectedSha256 == "" then None
      else if op.ok && part in files && digest(files[part]) == Lower(validation.expectedSha256) then None
      else Some(WrongHash)
    case Renaming(_) => if op.ok && part in files then None else Some(SystemError(op.message))
    case _ => None
  }

  /** The files after the operation at `place`. */
  function Touched(files: Files, path: string, place: Place, op: Op): Files {
    var part := PartOf(path);
    match place
    case Starting(_) => Removed(files, part, op.ok)
    case Opening(_) => if op.ok then files[part := []] else files
    case Writing => if part in files then files[part := files[part] + op.bytes] else files
    case Clearing(_) => Removed(files, path, op.ok)
    case Renaming(_) => if op.ok && part in files then Renamed(files, part, path) else files
    case Discarding(_, _) => Removed(files, part, op.ok)
    case _ => files
  }

  /** Where the attempt is after the operation at `place`. */
  function NextPlace(place: Place, problem: Option<Response>, op: Op): Place {
    match place
    case Starting(prior) => Opening(prior)
    case Opening(prior) => if problem.None? then Writing else Done(false, prior, problem.value)
    case Writing => if problem.None? then Sizing(op.status) else Discarding(op.status, problem.value)
    case Sizing(status) => if problem.None? then Hashing(status) else Discarding(status, problem.value)
    case Hashing(status) => if problem.None? then Clearing(status) else Discarding(status, problem.value)
    case Clearing(status) => Renaming(status)
    case Renaming(status) => if problem.None? then Done(true, status, Success) else Discarding(status, problem.value)
    case Discarding(status, response) => Done(false, status, response)
    case Done(_, _, _) => place
  }

  /** The most operations still to come. */
  function OpsLeft(place: Place): nat {
    match place
    case Starting(_) => 8
    case Opening(_) => 7
    case Writing => 6
    case Sizing(_) => 5
    case Hashing(_) => 4
    case Clearing(_) => 3
    case Renaming(_) => 2
    case Discarding(_, _) => 1
    case Done(_, _, _) => 0
  }

  /** What an attempt decides about the operation at `place`. */
  function OpOf(a: Attempt, lastRemovable: bool, place: Place): Op {
    var ok := match place
      case Starting(_) => a.partRemovable
      case Opening(_) => a.opens
      case Writing => a.transferred
      case Sizing(_) => a.sizeReadable
      case Hashing(_) => a.hashReadable
      case Clearing(_) => a.targetRemovable
      case Renaming(_) => a.renames
      case _ => lastRemovable;
    Op(ok, a.written, a.status, if place.Writing? then a.transferError else a.renameError)
  }

  /** The rest of an attempt when nobody else touches the files. */
  function Play(files: Files, path: string, digest: Digest, validation: Validation, a: Attempt, lastRemovable: bool,
                place: Place): (Files, Place)
    decreases OpsLeft(place)
  {
    if place.Done? then (files, place)
    else
      var op := OpOf(a, lastRemovable, place);
      Play(Touched(files, path, place, op), path, digest, validation, a, lastRemovable,
           NextPlace(place, Problem(files, path, digest, validation, place, op), op))
  }

  /** The part file holds what has been checked so far. */
  predicate Checked(files: Files, path: string, digest: Digest, validation: Validation, place: Place) {
    && (place.Hashing? ==> PartOf(path) in files && SizeMatches(validation, files[PartOf(path)]))
    && (place.Clearing? || place.Renaming? ==>
          PartOf(path) in files && Validated(digest, validation, files[PartOf(path)]))
    && (place.Done? && place.ok ==> path in files && Validated(digest, validation, files[path]))
  }

  /** An operation touches only the target and its part file. */
  lemma TouchesOnly(files: Files, path: string, place: Place, op: Op)
    ensures OthersKept(files, Touched(files, path, place, op), path)
  {
  }

  /** An operation on checked files leaves the target as it was, absent or
      validated, and leads to checked files. */
  lemma OperationIsSafe(before: Files, files: Files, path: string, digest: Digest, validation: Validation,
                        place: Place, op: Op)
    requires TargetSafe(before, files, path, digest, validation) && Checked(files, path, digest, validation, place)
    ensures var after := Touched(files, path, place, op);
            && TargetSafe(before, after, path, digest, validation)
            && Checked(after, path, digest, validation,
                       NextPlace(place, Problem(files, path, digest, validation, place, op), op))
  {
    PartDiffers(path);
  }

  lemma PlayDiscards(files: Files, path: string, digest: Digest, validation: Validation, a: Attempt,
                     lastRemovable: bool, status: int, response: Response)
    ensures Play(files, path, digest, validation, a, lastRemovable, Discarding(status, response))
         == (Removed(files, PartOf(path), lastRemovable), Done(false, status, response))
  {
  }

  /** From the removal of the target on. */
  lemma PlayPublishes(files: Files, path: string, digest: Digest, validation: Validation, a: Attempt,
                      lastRemovable: bool, status: int)
    requires PartOf(path) in files
    ensures var cleared := Removed(files, path, a.targetRemovable);
            && PartOf(path) in cleared
            && Play(files, path, digest, validation, a, lastRemovable, Clearing(status))
            == if a.renames then (Renamed(cleared, PartOf(path), path), Done(true, status, Success))
               else (Removed(cleared, PartOf(path), lastRemovable), Done(false, status, SystemError(a.renameError)))
  {
    PartDiffers(path);
    var cleared := Removed(files, path, a.targetRemovable);
    PlayDiscards(cleared, path, digest, validation, a, lastRemovable, status, SystemError(a.renameError));
    assert Play(files, path, digest, validation, a, lastRemovable, Clearing(status))
        == Play(cleared, path, digest, validation, a, lastRemovable, Renaming(status));
    if a.renames {
      assert Play(cleared, path, digest, validation, a, lastRemovable, Renaming(status))
          == Play(Renamed(cleared, PartOf(path), path), path, digest, validation, a, lastRemovable,
                  Done(true, status, Success));
    } else {
      assert Play(cleared, path, digest, validation, a, lastRemovable, Renaming(status))
          == Play(cleared, path, digest, validation, a, lastRemovable,
                  Discarding(status, SystemError(a.renameError)));
    }
  }

  /** From the end of the transfer on. */
  lemma PlayChecks(files: Files, path: string, digest: Digest, validation: Validation, a: Attempt,
                   lastRemovable: bool, status: int)
    requires PartOf(path) in files && files[PartOf(path)] == a.written && Delivered(a)
    ensures Play(files, path, digest, validation, a, lastRemovable, Sizing(status))
         == if SizeAccepted(validation, a) && HashAccepted(digest, validation, a)
            then Play(files, path, digest, validation, a, lastRemovable, Clearing(status))
            else (Removed(files, PartOf(path), lastRemovable), Done(false, status, Reason(digest, validation, a)))
  {
    PlayDiscards(files, path, digest, validation, a, lastRemovable, status, Reason(digest, validation, a));
    if SizeAccepted(validation, a) {
      assert Play(files, path, digest, validation, a, lastRemovable, Sizing(status))
          == Play(files, path, digest, validation, a, lastRemovable, Hashing(status));
    }
  }

  /** Up to the end of the transfer. */
  lemma PlayWrites(files: Files, prior: int, path: string, digest: Digest, validation: Validation, a: Attempt,
                   lastRemovable: bool)
    requires a.opens
    ensures Play(files, path, digest, validation, a, lastRemovable, Starting(prior))
         == Play(Written(files, path, a), path, digest, validation, a, lastRemovable,
                 if Delivered(a) then Sizing(a.status) else Discarding(a.status, Reason(digest, validation, a)))
  {
    var part := PartOf(path);
    var removed := Removed(files, part, a.partRemovable);
    var truncated := removed[part := []];
    assert [] + a.written == a.written;
    assert truncated[part := [] + a.written] == Written(files, path, a);
    assert Play(files, path, digest, validation, a, lastRemovable, Starting(prior))
        == Play(removed, path, digest, validation, a, lastRemovable, Opening(prior))
        == Play(truncated, path, digest, validation, a, lastRemovable, Writing);
  }

  /** Played without interruption, the operations are one attempt of the loop: the
      same files, status and response. */
  lemma PlayIsFetch(files: Files, prior: int, path: string, digest: Digest, validation: Validation,
                    a: Attempt, lastRemovable: bool)
    ensures var r := Fetch(files, prior, NoResponse, path, digest, validation, [a], lastRemovable);
            Play(files, path, digest, validation, a, lastRemovable, Starting(prior)) ==
            (r.files, Done(r.ok, r.status, r.response))
  {
    assert [a][1..] == [];
    if a.opens {
      var written := Written(files, path, a);
      PlayWrites(files, prior, path, digest, validation, a, lastRemovable);
      PlayDiscards(written, path, digest, validation, a, lastRemovable, a.status, Reason(digest, validation, a));
      if Delivered(a) {
        PlayChecks(written, path, digest, validation, a, lastRemovable, a.status);
        PlayPublishes(written, path, digest, validation, a, lastRemovable, a.status);
      }
    } else {
      var removed := Removed(files, PartOf(path), a.partRemovable);
      assert Play(files, path, digest, validation, a, lastRemovable, Starting(prior))
          == Play(removed, path, digest, validation, a, lastRemovable, Opening(prior))
          == Play(removed, path, digest, validation, a, lastRemovable, Done(false, prior, CannotOpen));
    }
  }
}

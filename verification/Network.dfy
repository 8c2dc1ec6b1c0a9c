/** The class of net/network.cpp, as far as it downloads: `http_download_file`
    over files that are a map from path to bytes, hashed by `sha256_file`. */
module Networks {
  import opened SyncTypes
  import opened Downloads
  import Fips180
  import StreamingSha256

  /** The attempt is the last: it cannot open its file, or it publishes. */
  predicate Ends(digest: Digest, validation: Validation, a: Attempt) {
    !a.opens || (Publishes(digest, validation, a) && a.renames)
  }

  /** What the environment does in all attempts that are made. The attempts are
      counted in an `unsigned int`, so with 2^32 - 1 retries the counter wraps and
      the loop is left only by an attempt that ends it. */
  ghost predicate Suffice(digest: Digest, validation: Validation, retries: U32, attempts: seq<Attempt>) {
    if retries + 1 < U32_LIMIT then |attempts| == retries + 1
    else exists i :: 0 <= i < |attempts| && Ends(digest, validation, attempts[i])
  }

  /** None of the first `k` attempts ends the loop. */
  ghost predicate NoneEnds(digest: Digest, validation: Validation, attempts: seq<Attempt>, k: nat)
    requires k <= |attempts|
  {
    k == 0 || (!Ends(digest, validation, attempts[k - 1]) && NoneEnds(digest, validation, attempts, k - 1))
  }

  /** Marks the bytes at which the digest is needed; it says nothing else. */
  ghost predicate Of(bytes: seq<Byte>) {
    true
  }

  /** `digest` is SHA-256 as `sha256_file` gives it. */
  ghost predicate IsSha256(digest: Digest) {
    forall bytes: seq<Byte> {:trigger Of(bytes)} :: Of(bytes) ==> digest(bytes) == Fips180.DigestText(bytes)
  }

  class Network {
    const hasCurl: bool
    const retries: U32
    ghost const digest: Digest
    var lastHttpStatus: int
    var files: Files
    /** Every content the files have had. */
    ghost var history: seq<Files>

    /** The history leads to the files as they are. */
    ghost predicate Valid()
      reads this
    {
      history != [] && files == history[|history| - 1] && IsSha256(digest)
    }

    constructor (hasCurl: bool, retries: U32, files: Files)
      ensures Valid() && this.hasCurl == hasCurl && this.retries == retries && digest == Fips180.DigestText
      ensures this.files == files && lastHttpStatus == 0 && history == [files]
    {
      this.hasCurl, this.retries := hasCurl, retries;
      this.files, lastHttpStatus := files, 0;
      digest, history := Fips180.DigestText, [files];
    }

    method SetFiles(next: Files, ghost past: seq<Files>, path: string, validation: Validation)
      requires Valid() && SafeSince(past, path, validation)
      requires Safe(past[|past| - 1], next, path, digest, validation)
      modifies this`files, this`history
      ensures Valid() && files == next && history == old(history) + [next]
      ensures SafeSince(past, path, validation)
    {
      files := next;
      history := history + [next];
    }

    /** All that the files have gone through since `past` is safe. */
    ghost predicate SafeSince(past: seq<Files>, path: string, validation: Validation)
      reads this
    {
      && past != [] && past <= history
      && forall i | |past| <= i < |history| :: Safe(past[|past| - 1], history[i], path, digest, validation)
    }

    lemma NowSafe(past: seq<Files>, path: string, validation: Validation)
      requires Valid() && SafeSince(past, path, validation)
      ensures Safe(past[|past| - 1], files, path, digest, validation)
    {
    }

    /** `sha256_file` on a file with this content. */
    method HashFile(content: seq<Byte>, readable: bool) returns (text: Option<string>)
      requires Valid()
      ensures text.Some? <==> readable
      ensures text.Some? ==> text.value == digest(content)
    {
      text := StreamingSha256.Sha256File(StreamingSha256.Readable(content, !readable));
      assert Of(content);
    }

    method DownloadFile(path: string, validation: Validation, attempts: seq<Attempt>, lastRemovable: bool)
      returns (ok: bool, response: Response)
      requires Valid() && Suffice(digest, validation, retries, attempts)
      modifies this
      ensures Valid()
      ensures hasCurl ==>
                Result(files, ok, lastHttpStatus, response) ==
                Fetch(old(files), old(lastHttpStatus), NoResponse, path, digest, validation, attempts, lastRemovable)
      ensures !hasCurl ==> !ok && response == NoResponse && unchanged(this)
      ensures old(history) <= history && SafeSince(old(history), path, validation)
    {
      ghost var past := history;
      ghost var result := Fetch(files, lastHttpStatus, NoResponse, path, digest, validation, attempts, lastRemovable);
      response := NoResponse;
      if !hasCurl {
        return false, response;
      }
      var attempt: U32 := 0;
      var k := 0;
      while attempt <= retries
        invariant Valid() && SafeSince(past, path, validation)
        invariant k <= |attempts| && attempt == k % U32_LIMIT && NoneEnds(digest, validation, attempts, k)
        invariant result ==
                  Fetch(files, lastHttpStatus, response, path, digest, validation, attempts[k..], lastRemovable)
        decreases |attempts| - k
      {
        MoreAttempts(digest, validation, retries, attempts, k);
        var a := attempts[k];
        FetchFrom(files, lastHttpStatus, response, path, digest, validation, attempts, lastRemovable, k);
        if !a.opens {
          RemovePart(a.partRemovable, past, path, validation);
          return false, CannotOpen;
        }
        ok, response := MakeAttempt(path, validation, a, past);
        if ok {
          return;
        }
        Counted(k);
        attempt, k := (attempt + 1) % U32_LIMIT, k + 1;
      }
      AllMade(retries, attempts, k);
      RemovePart(lastRemovable, past, path, validation);
      ok := false;
    }

    /** An attempt whose `.part` file opens. */
    method MakeAttempt(path: string, validation: Validation, a: Attempt, ghost past: seq<Files>)
      returns (ok: bool, response: Response)
      requires Valid() && a.opens
      requires SafeSince(past, path, validation)
      modifies this
      ensures Valid()
      ensures files == Attempted(old(files), path, digest, validation, a)
      ensures ok <==> Publishes(digest, validation, a) && a.renames
      ensures response == (if ok then Success else Reason(digest, validation, a))
      ensures lastHttpStatus == a.status
      ensures SafeSince(past, path, validation)
    {
      FillPart(path, validation, a, past);
      lastHttpStatus := a.status;
      if a.transferred && (a.status == 0 || 200 <= a.status < 300) {
        var mismatch := Validate(files[PartOf(path)], validation, a);
        if mismatch.Some? {
          return false, mismatch.value;
        }
        Publish(path, validation, a, past);
        return a.renames, if a.renames then Success else SystemError(a.renameError);
      } else if !a.transferred {
        return false, SystemError(a.transferError);
      } else {
        return false, BadStatus(a.status);
      }
    }

    /** The comparisons of size and digest with what is expected. */
    method Validate(part: seq<Byte>, validation: Validation, a: Attempt) returns (mismatch: Option<Response>)
      requires Valid() && part == a.written && Delivered(a)
      ensures mismatch.None? <==> SizeAccepted(validation, a) && HashAccepted(digest, validation, a)
      ensures mismatch.Some? ==> mismatch.value == Reason(digest, validation, a)
      ensures mismatch.None? ==> Validated(digest, validation, part)
    {
      if !a.sizeReadable || (validation.expectedSize.Some? && |part| != validation.expectedSize.value) {
        return Some(WrongSize(validation.expectedSize, if a.sizeReadable then Some(|part|) else None));
      }
      if validation.expectedSha256 != "" {
        var actual := HashFile(part, a.hashReadable);
        if actual.None? || actual.value != Lower(validation.expectedSha256) {
          return Some(WrongHash);
        }
      }
      return None;
    }

    /** Remove the target and rename the `.part` file onto it. */
    method Publish(path: string, validation: Validation, a: Attempt, ghost past: seq<Files>)
      requires Valid() && PartOf(path) in files && Validated(digest, validation, files[PartOf(path)])
      requires SafeSince(past, path, validation)
      modifies this`files, this`history
      ensures Valid()
      ensures PartOf(path) in Removed(old(files), path, a.targetRemovable)
      ensures files == var cleared := Removed(old(files), path, a.targetRemovable);
                       if a.renames then Renamed(cleared, PartOf(path), path) else cleared
      ensures SafeSince(past, path, validation)
    {
      PartDiffers(path);
      NowSafe(past, path, validation);
      SetFiles(Removed(files, path, a.targetRemovable), past, path, validation);
      if a.renames {
        SetFiles(Renamed(files, PartOf(path), path), past, path, validation);
      }
    }

    /** Remove, open, transfer and close the `.part` file. */
    method FillPart(path: string, validation: Validation, a: Attempt, ghost past: seq<Files>)
      requires Valid()
      requires SafeSince(past, path, validation)
      modifies this
      ensures Valid()
      ensures files == Written(old(files), path, a) && lastHttpStatus == 0
      ensures SafeSince(past, path, validation)
    {
      RemovePart(a.partRemovable, past, path, validation);
      WritePart([], past, path, validation);
      lastHttpStatus := 0;
      WritePart(a.written, past, path, validation);
    }

    method RemovePart(removable: bool, ghost past: seq<Files>, path: string, validation: Validation)
      requires Valid() && SafeSince(past, path, validation)
      modifies this`files, this`history
      ensures Valid() && files == Removed(old(files), PartOf(path), removable) && SafeSince(past, path, validation)
    {
      TouchPart(Removed(files, PartOf(path), removable), past, path, validation);
    }

    /** After it, the part file holds exactly these bytes. */
    method WritePart(bytes: seq<Byte>, ghost past: seq<Files>, path: string, validation: Validation)
      requires Valid() && SafeSince(past, path, validation)
      modifies this`files, this`history
      ensures Valid() && files == old(files)[PartOf(path) := bytes] && SafeSince(past, path, validation)
    {
      TouchPart(files[PartOf(path) := bytes], past, path, validation);
    }

    /** A change of the `.part` file alone. */
    method TouchPart(next: Files, ghost past: seq<Files>, path: string, validation: Validation)
      requires Valid() && SafeSince(past, path, validation)
      requires next - {PartOf(path)} == files - {PartOf(path)}
      modifies this`files, this`history
      ensures Valid() && files == next && SafeSince(past, path, validation)
    {
      NowSafe(past, path, validation);
      PartOnly(past[|past| - 1], files, next, path, digest, validation);
      SetFiles(next, past, path, validation);
    }
  }

  // ------------------------------------------------------------------ the attempt counter

  /** Where the loop goes on there is an attempt to make. */
  lemma MoreAttempts(digest: Digest, validation: Validation, retries: U32, attempts: seq<Attempt>, k: nat)
    requires Suffice(digest, validation, retries, attempts) && k <= |attempts| && k % U32_LIMIT <= retries
    requires NoneEnds(digest, validation, attempts, k)
    ensures k < |attempts|
  {
    NoneEnded(digest, validation, attempts, k);
  }

  lemma {:induction false} NoneEnded(digest: Digest, validation: Validation, attempts: seq<Attempt>, k: nat)
    requires k <= |attempts| && NoneEnds(digest, validation, attempts, k)
    ensures forall j | 0 <= j < k :: !Ends(digest, validation, attempts[j])
  {
    if k > 0 {
      NoneEnded(digest, validation, attempts, k - 1);
    }
  }

  /** Where it does not, all have been made. */
  lemma AllMade(retries: U32, attempts: seq<Attempt>, k: nat)
    requires k <= |attempts| && k % U32_LIMIT > retries && (retries + 1 < U32_LIMIT ==> |attempts| == retries + 1)
    ensures attempts[k..] == []
  {
  }

  /** What is left of the download, by its next attempt. */
  lemma FetchFrom(files: Files, status: int, response: Response, path: string, digest: Digest,
                  validation: Validation, attempts: seq<Attempt>, lastRemovable: bool, k: nat)
    requires k < |attempts|
    ensures var a := attempts[k];
            var after := Attempted(files, path, digest, validation, a);
            Fetch(files, status, response, path, digest, validation, attempts[k..], lastRemovable) ==
            if !a.opens then Result(Removed(files, PartOf(path), a.partRemovable), false, status, CannotOpen)
            else if Publishes(digest, validation, a) && a.renames then Result(after, true, a.status, Success)
            else Fetch(after, a.status, Reason(digest, validation, a), path, digest, validation,
                       attempts[k + 1..], lastRemovable)
  {
    assert attempts[k..][0] == attempts[k] && attempts[k..][1..] == attempts[k + 1..];
  }

  lemma Counted(k: nat)
    ensures (k % U32_LIMIT + 1) % U32_LIMIT == (k + 1) % U32_LIMIT
  {
  }

  /** The guard of the loop after `k` attempts. */
  predicate TriesAgain(retries: U32, k: nat) {
    k % U32_LIMIT <= retries
  }

  /** The counter never ends the loop iff there are 2^32 - 1 retries. */
  lemma EndlessExactly(retries: U32)
    ensures (forall k: nat :: TriesAgain(retries, k)) <==> retries == 4294967295
  {
    if retries + 1 < U32_LIMIT {
      assert !TriesAgain(retries, retries + 1);
    }
  }
}

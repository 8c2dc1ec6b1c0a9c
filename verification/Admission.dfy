/** How the checks made on a task when it is submitted, and on an error when it is
    retried, fit what a download later does. */
module Admission {
  import opened SyncTypes
  import opened SyncCore
  import opened SyncManagers
  import Downloads
  import IpcCommand
  import Fips180

  // ------------------------------------------------------------------ checksums

  predicate LowerHex(s: string) {
    forall i | 0 <= i < |s| :: '0' <= s[i] <= '9' || 'a' <= s[i] <= 'f'
  }

  lemma {:induction false} NumberIsLowerHex(n: nat, digits: nat)
    ensures LowerHex(Fips180.HexNumber(n, digits))
    decreases digits
  {
    if digits > 0 {
      NumberIsLowerHex(n / 16, digits - 1);
    }
  }

  lemma {:induction false} HexIsLowerHex(words: seq<Fips180.Word>)
    ensures LowerHex(Fips180.Hex(words))
  {
    if words != [] {
      HexIsLowerHex(words[..|words| - 1]);
      NumberIsLowerHex(words[|words| - 1].bits as nat, 8);
    }
  }

  /** A to Z become a to z, and every other character stays. */
  lemma LowerByLetter(ch: char)
    ensures var c := Downloads.LowerChar;
            && c('A') == 'a' && c('B') == 'b' && c('C') == 'c' && c('D') == 'd' && c('E') == 'e' && c('F') == 'f'
            && c('G') == 'g' && c('H') == 'h' && c('I') == 'i' && c('J') == 'j' && c('K') == 'k' && c('L') == 'l'
            && c('M') == 'm' && c('N') == 'n' && c('O') == 'o' && c('P') == 'p' && c('Q') == 'q' && c('R') == 'r'
            && c('S') == 's' && c('T') == 't' && c('U') == 'u' && c('V') == 'v' && c('W') == 'w' && c('X') == 'x'
            && c('Y') == 'y' && c('Z') == 'z'
    ensures ch < 'A' || 'Z' < ch ==> Downloads.LowerChar(ch) == ch
  {
  }

  /** `text` is `s`, with some of its letters a to f as capitals. */
  ghost predicate InAnyCase(text: string, s: string) {
    && |text| == |s|
    && forall i | 0 <= i < |s| ::
         text[i] == s[i] || (s[i] == 'a' && text[i] == 'A') || (s[i] == 'b' && text[i] == 'B')
         || (s[i] == 'c' && text[i] == 'C') || (s[i] == 'd' && text[i] == 'D')
         || (s[i] == 'e' && text[i] == 'E') || (s[i] == 'f' && text[i] == 'F')
  }

  /** A checksum matches a digest iff it is the digest's text in any letter case. */
  lemma MatchesInAnyCase(expected: string, text: string)
    requires LowerHex(text)
    ensures text == Downloads.Lower(expected) <==> InAnyCase(expected, text)
  {
    if InAnyCase(expected, text) {
      forall i | 0 <= i < |text| ensures text[i] == Downloads.Lower(expected)[i] {
        LowerByLetter(expected[i]);
      }
    }
  }

  /** The text of a digest, written in any letter case, is never refused by
      `enqueue`; so a download that is refused for its checksum could not have
      succeeded. */
  lemma MatchingChecksumIsValid(expected: string, digest: Fips180.HashValue)
    requires InAnyCase(expected, Fips180.Hex(digest))
    ensures ValidChecksum(expected)
  {
    HexIsLowerHex(digest);
    MatchesInAnyCase(expected, Fips180.Hex(digest));
    HexInAnyCase(expected);
  }

  lemma HexInAnyCase(s: string)
    requires LowerHex(Downloads.Lower(s))
    ensures forall i | 0 <= i < |s| :: IsHexDigit(s[i])
  {
    forall i | 0 <= i < |s| ensures IsHexDigit(s[i]) {
      assert Downloads.Lower(s)[i] == Downloads.LowerChar(s[i]);
    }
  }

  /** A checksum is compared as if it were lower case, as digests are. */
  lemma DigestMatchesItself(digest: Fips180.HashValue)
    ensures ValidChecksum(Fips180.Hex(digest)) && Downloads.Lower(Fips180.Hex(digest)) == Fips180.Hex(digest)
  {
    HexIsLowerHex(digest);
    LowerKeeps(Fips180.Hex(digest));
  }

  lemma LowerKeeps(s: string)
    requires LowerHex(s)
    ensures Downloads.Lower(s) == s
  {
  }

  /** Exactly which attempts publish what they transferred. */
  lemma PublishesExactly(files: Downloads.Files, prior: int, path: string, validation: Validation,
                         a: Downloads.Attempt, lastRemovable: bool)
    ensures var r := Downloads.Fetch(files, prior, Downloads.NoResponse, path, Fips180.DigestText, validation, [a],
                                     lastRemovable);
            && (r.ok <==> && a.opens && a.transferred && (a.status == 0 || 200 <= a.status < 300)
                          && a.sizeReadable
                          && (validation.expectedSize.Some? ==> |a.written| == validation.expectedSize.value)
                          && (validation.expectedSha256 != "" ==>
                                a.hashReadable && InAnyCase(validation.expectedSha256, Fips180.DigestText(a.written)))
                          && a.renames)
            && (r.ok ==> path in r.files && r.files[path] == a.written)
  {
    OneAttempt(files, prior, path, Fips180.DigestText, validation, a, lastRemovable);
    DigestIsLowerHex(a.written);
    MatchesInAnyCase(validation.expectedSha256, Fips180.DigestText(a.written));
  }

  /** What the response of a single attempt says. */
  lemma ResponseExactly(files: Downloads.Files, prior: int, path: string, validation: Validation,
                        a: Downloads.Attempt, lastRemovable: bool)
    ensures var r := Downloads.Fetch(files, prior, Downloads.NoResponse, path, Fips180.DigestText, validation, [a],
                                     lastRemovable);
            r.response ==
            if !a.opens then Downloads.CannotOpen
            else if !a.transferred then Downloads.SystemError(a.transferError)
            else if a.status != 0 && (a.status < 200 || 300 <= a.status) then Downloads.BadStatus(a.status)
            else if !a.sizeReadable then Downloads.WrongSize(validation.expectedSize, None)
            else if validation.expectedSize.Some? && |a.written| != validation.expectedSize.value then
              Downloads.WrongSize(validation.expectedSize, Some(|a.written|))
            else if && validation.expectedSha256 != ""
                    && !(a.hashReadable && InAnyCase(validation.expectedSha256, Fips180.DigestText(a.written))) then
              Downloads.WrongHash
            else if a.renames then Downloads.Success else Downloads.SystemError(a.renameError)
  {
    OneResponse(files, prior, path, Fips180.DigestText, validation, a, lastRemovable);
    DigestIsLowerHex(a.written);
    MatchesInAnyCase(validation.expectedSha256, Fips180.DigestText(a.written));
  }

  lemma OneResponse(files: Downloads.Files, prior: int, path: string, digest: Downloads.Digest, validation: Validation,
                    a: Downloads.Attempt, lastRemovable: bool)
    ensures var r := Downloads.Fetch(files, prior, Downloads.NoResponse, path, digest, validation, [a], lastRemovable);
            r.response ==
            if !a.opens then Downloads.CannotOpen
            else if Downloads.Publishes(digest, validation, a) && a.renames then Downloads.Success
            else Downloads.Reason(digest, validation, a)
  {
    assert [a][1..] == [];
  }

  lemma OneAttempt(files: Downloads.Files, prior: int, path: string, digest: Downloads.Digest, validation: Validation,
                   a: Downloads.Attempt, lastRemovable: bool)
    ensures var r := Downloads.Fetch(files, prior, Downloads.NoResponse, path, digest, validation, [a], lastRemovable);
            && (r.ok <==> Downloads.Publishes(digest, validation, a) && a.renames)
            && (r.ok ==> path in r.files && r.files[path] == a.written)
  {
    Downloads.PartDiffers(path);
    assert [a][1..] == [];
  }

  lemma DigestIsLowerHex(message: seq<Byte>)
    ensures LowerHex(Fips180.DigestText(message))
  {
    Fips180.PadLength(message);
    HexIsLowerHex(Fips180.HashBlocks(Fips180.Sha256Compress, Fips180.Pad(message)));
  }

  // ------------------------------------------------------------------ URLs

  /** `http` or `https`, each letter in either case. */
  predicate SpellsHttp(scheme: string) {
    && (|scheme| == 4 || |scheme| == 5)
    && (scheme[0] == 'h' || scheme[0] == 'H') && (scheme[1] == 't' || scheme[1] == 'T')
    && (scheme[2] == 't' || scheme[2] == 'T') && (scheme[3] == 'p' || scheme[3] == 'P')
    && (|scheme| == 5 ==> scheme[4] == 's' || scheme[4] == 'S')
  }

  lemma LowersToHttp(scheme: string)
    ensures Downloads.Lower(scheme) == "http" || Downloads.Lower(scheme) == "https" <==> SpellsHttp(scheme)
  {
    var lower := Downloads.Lower(scheme);
    if |scheme| == 4 {
      assert lower == "http" <==> lower[0] == 'h' && lower[1] == 't' && lower[2] == 't' && lower[3] == 'p';
    } else if |scheme| == 5 {
      assert lower == "https" <==>
             lower[0] == 'h' && lower[1] == 't' && lower[2] == 't' && lower[3] == 'p' && lower[4] == 's';
    }
  }

  ghost predicate HttpForm(value: string, scheme: string, rest: string) {
    value == scheme + rest && SpellsHttp(scheme) && (rest == "" || rest[0] == ':')
  }

  /** A URL is accepted iff it is, letter case aside, `http` or `https`, alone or
      before a colon. */
  lemma HttpUrlForm(value: string)
    ensures IsHttpUrl(value) <==> exists scheme, rest :: HttpForm(value, scheme, rest)
  {
    var k := FirstColon(value);
    LowersToHttp(value[..k]);
    if IsHttpUrl(value) {
      assert HttpForm(value, value[..k], value[k..]);
    }
    if scheme, rest :| HttpForm(value, scheme, rest) {
      assert ':' !in scheme;
      SchemeEnds(value, scheme, rest);
    }
  }

  lemma SchemeEnds(value: string, scheme: string, rest: string)
    requires value == scheme + rest && ':' !in scheme && (rest == "" || rest[0] == ':')
    ensures scheme == value[..FirstColon(value)]
  {
    var k := FirstColon(value);
    if k > |scheme| {
      AfterScheme(scheme, rest, k);
    }
  }

  lemma AfterScheme(scheme: string, rest: string, k: nat)
    requires |scheme| < k <= |scheme + rest|
    ensures rest != "" && rest[0] in (scheme + rest)[..k]
  {
    assert (scheme + rest)[..k][|scheme|] == rest[0];
  }

  // ------------------------------------------------------------------ what is retried

  lemma OccursMeans(text: string, pattern: string, i: nat, k: nat)
    requires OccursAt(text, pattern, i) && k < |pattern|
    ensures text[i + k] == pattern[k]
  {
    assert text[i..i + |pattern|][k] == text[i + k];
  }

  lemma NoSuchText(text: string, pattern: string, k: nat)
    requires k < |pattern| && pattern[k] !in text
    ensures !Contains(text, pattern)
  {
    if i: nat :| i <= |text| && OccursAt(text, pattern, i) {
      OccursMeans(text, pattern, i, k);
    }
  }

  /** A pattern whose first character occurs in the text only at the front does
      not occur, if it differs there. */
  lemma NotAtFront(text: string, pattern: string, k: nat)
    requires 0 < |pattern| && k < |pattern| && k < |text| && text[k] != pattern[k]
    requires forall i | 0 < i < |text| :: text[i] != pattern[0]
    ensures !Contains(text, pattern)
  {
    if i: nat :| i <= |text| && OccursAt(text, pattern, i) {
      OccursMeans(text, pattern, i, 0);
      OccursMeans(text, pattern, i, k);
    }
  }

  lemma FoundAt(text: string, pattern: string, i: nat)
    requires OccursAt(text, pattern, i)
    ensures Contains(text, pattern)
  {
  }

  /** The text of every failed validation starts like this. */
  const FAILED := "File validation failed: "

  lemma ValidationTextRetried(status: int, tail: string)
    requires 'F' !in tail && 'C' !in tail
    ensures IsRetryable(status, FAILED + tail)
  {
    var text := FAILED + tail;
    assert text[0] == 'F' && text[2] == 'l' && text[5] == 'v';
    forall i | 0 < i < |text| ensures text[i] != 'F' && text[i] != 'C' {
      assert i < |FAILED| || text[i] == tail[i - |FAILED|];
    }
    NotAtFront(text, "File does not exist", 5);
    NotAtFront(text, "Failed to open file", 2);
    NoSuchText(text, "Cannot read", 0);
    NoSuchText(text, "Cannot create", 0);
    FailedHolds();
    assert text[5..5 + 17] == FAILED[5..5 + 17];
    FoundAt(text, "validation failed", 5);
  }

  lemma FailedHolds()
    ensures |FAILED| == 24 && FAILED[5..5 + 17] == "validation failed"
  {
  }

  lemma DecimalIsPlain(n: nat)
    ensures 'F' !in IpcCommand.Decimal(n) && 'C' !in IpcCommand.Decimal(n)
  {
    var s := IpcCommand.Decimal(n);
    assert IpcCommand.AllDigits(s);
  }

  /** A size or digest mismatch is retried whatever the status: the download's
      text is one that `is_retryable` looks for, and none that it refuses. */
  lemma MismatchIsRetried(status: int, response: Downloads.Response)
    requires response.WrongSize? || response.WrongHash?
    ensures IsRetryable(status, Downloads.Text(response))
  {
    match response
    case WrongHash => HashTextRetried(status);
    case WrongSize(expected, actual) => SizeMismatchIsRetried(status, expected, actual);
  }

  lemma HashTextRetried(status: int)
    ensures IsRetryable(status, Downloads.Text(Downloads.WrongHash))
  {
    var tail := "SHA-256 mismatch.";
    assert FAILED + tail == Downloads.Text(Downloads.WrongHash);
    ValidationTextRetried(status, tail);
  }

  lemma SizeMismatchIsRetried(status: int, expected: Option<U64>, actual: Option<nat>)
    ensures IsRetryable(status, Downloads.Text(Downloads.WrongSize(expected, actual)))
  {
    var x := if expected.Some? then IpcCommand.Decimal(expected.value) else "unknown";
    var y := if actual.Some? then IpcCommand.Decimal(actual.value) else "unavailable";
    if expected.Some? {
      DecimalIsPlain(expected.value);
    }
    if actual.Some? {
      DecimalIsPlain(actual.value);
    }
    SizeTextRetried(status, x, y);
  }

  lemma SizeTextRetried(status: int, x: string, y: string)
    requires 'F' !in x && 'C' !in x && 'F' !in y && 'C' !in y
    ensures IsRetryable(status, "File validation failed: expected_size=" + x + " actual_size=" + y)
  {
    var tail := "expected_size=" + x + " actual_size=" + y;
    assert FAILED + tail == "File validation failed: expected_size=" + x + " actual_size=" + y;
    ValidationTextRetried(status, tail);
  }

  /** A `.part` file that cannot be opened is never retried. */
  lemma UnopenedIsNotRetried(status: int)
    ensures !IsRetryable(status, Downloads.Text(Downloads.CannotOpen))
  {
    var text, pattern := Downloads.Text(Downloads.CannotOpen), "Failed to open file";
    assert text[0..0 + |pattern|] == pattern;
    FoundAt(text, pattern, 0);
  }

  // ------------------------------------------------------------------ which statuses are retried

  /** A text that holds none of the phrases `is_retryable` looks for. */
  ghost predicate Plain(text: string) {
    && !Contains(text, "File does not exist") && !Contains(text, "Failed to open file")
    && !Contains(text, "Cannot read") && !Contains(text, "Cannot create") && !Contains(text, "validation failed")
  }

  /** Timeouts, requests that came too early or too often, faults of the server, and
      no answer at all. */
  predicate PassingStatus(status: int) {
    status == 0 || status == 408 || status == 425 || status == 429 || status >= 500
  }

  lemma PlainDecidedByStatus(status: int, text: string)
    requires Plain(text)
    ensures IsRetryable(status, text) <==> PassingStatus(status)
  {
  }

  lemma IntTextIsPlain(n: int)
    ensures forall i | 0 <= i < |Downloads.IntText(n)| ::
              Downloads.IntText(n)[i] == '-' || IpcCommand.IsDigit(Downloads.IntText(n)[i])
  {
    var digits := IpcCommand.Decimal(if n < 0 then -n else n);
    assert IpcCommand.AllDigits(digits);
  }

  const UNEXPECTED := "Unexpected HTTP status: "

  lemma StatusTextIsPlain(status: int)
    ensures Plain(Downloads.Text(Downloads.BadStatus(status)))
  {
    IntTextIsPlain(status);
    var number := Downloads.IntText(status);
    PlainAfterUnexpected(number);
    assert Downloads.Text(Downloads.BadStatus(status)) == UNEXPECTED + number;
  }

  lemma PlainAfterUnexpected(number: string)
    requires forall i | 0 <= i < |number| :: number[i] == '-' || IpcCommand.IsDigit(number[i])
    ensures Plain(UNEXPECTED + number)
  {
    var text := UNEXPECTED + number;
    forall i | 0 <= i < |text| ensures text[i] != 'F' && text[i] != 'C' && text[i] != 'v' {
      assert i < |UNEXPECTED| || text[i] == number[i - |UNEXPECTED|];
    }
    NoSuchText(text, "File does not exist", 0);
    NoSuchText(text, "Failed to open file", 0);
    NoSuchText(text, "Cannot read", 0);
    NoSuchText(text, "Cannot create", 0);
    NoSuchText(text, "validation failed", 0);
  }

  /** An answer with an unexpected status is retried for these statuses and no others. */
  lemma StatusRetriedExactly(status: int)
    ensures IsRetryable(status, Downloads.Text(Downloads.BadStatus(status))) <==>
            status == 0 || status == 408 || status == 425 || status == 429 || status >= 500
  {
    StatusTextIsPlain(status);
    PlainDecidedByStatus(status, Downloads.Text(Downloads.BadStatus(status)));
  }

  lemma PhraseFound(before: string, phrase: string, after: string)
    ensures Contains(before + phrase + after, phrase)
  {
    var text := before + phrase + after;
    assert text[|before|..|before| + |phrase|] == phrase;
    FoundAt(text, phrase, |before|);
  }

  /** An error of the local file system is not retried, whatever else the text says
      and whatever the status. */
  lemma RefusedPhrases(status: int, before: string, after: string)
    ensures !IsRetryable(status, before + "File does not exist" + after)
    ensures !IsRetryable(status, before + "Failed to open file" + after)
    ensures !IsRetryable(status, before + "Cannot read" + after)
    ensures !IsRetryable(status, before + "Cannot create" + after)
  {
    PhraseFound(before, "File does not exist", after);
    PhraseFound(before, "Failed to open file", after);
    PhraseFound(before, "Cannot read", after);
    PhraseFound(before, "Cannot create", after);
  }
}

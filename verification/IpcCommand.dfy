/** The command language of `enqueue_ipc_command` (net/sync_manager.cpp): its
    tokenizer, its decoder, and a printer that both invert. */
module IpcCommand {
  import opened SyncTypes

  // ------------------------------------------------------------------ tokenizer

  /** `std::isspace` in the C locale. */
  predicate IsSpace(ch: char) {
    ch == ' ' || '\t' <= ch <= '\r'
  }

  predicate IsQuote(ch: char) {
    ch == '"' || ch == '\''
  }

  /** Outside quotes, or inside the quotes that `quote` opened. */
  datatype Mode = Outside | Inside(quote: char)

  /** A token is kept when it is not empty, or when its quotes were never closed. */
  function Flush(current: string, mode: Mode): seq<string> {
    if current != "" || mode.Inside? then [current] else []
  }

  /** The tokens of `s`, when `current` has been collected in `mode` so far. */
  function Lex(s: string, current: string, mode: Mode): seq<string>
    decreases |s|
  {
    if s == "" then Flush(current, mode)
    else
      var ch := s[0];
      match mode
      case Inside(q) =>
        if ch == q then Lex(s[1..], current, Outside)
        else if ch == '\\' && |s| > 1 then Lex(s[2..], current + [s[1]], mode)
        else Lex(s[1..], current + [ch], mode)
      case Outside =>
        if IsQuote(ch) then Lex(s[1..], current, Inside(ch))
        else if IsSpace(ch) then Flush(current, Outside) + Lex(s[1..], "", Outside)
        else Lex(s[1..], current + [ch], Outside)
  }

  function Tokens(command: string): seq<string> {
    Lex(command, "", Outside)
  }

  /** `parse_tokens`. */
  method ParseTokens(command: string) returns (tokens: seq<string>)
    ensures tokens == Tokens(command)
  {
    tokens := [];
    var current := "";
    var inQuotes, quoteChar := false, '\0';
    var i := 0;
    while i < |command|
      invariant i <= |command|
      invariant tokens + Lex(command[i..], current, if inQuotes then Inside(quoteChar) else Outside) == Tokens(command)
    {
      var ch := command[i];
      ghost var rest := command[i..];
      assert rest[1..] == command[i + 1..] && (|rest| > 1 ==> rest[2..] == command[i + 2..]);
      if inQuotes {
        if ch == quoteChar {
          inQuotes := false;
        } else if ch == '\\' && i + 1 < |command| {
          i := i + 1;
          current := current + [command[i]];
        } else {
          current := current + [ch];
        }
      } else {
        if ch == '"' || ch == '\'' {
          inQuotes, quoteChar := true, ch;
        } else if IsSpace(ch) {
          if current != "" {
            tokens := tokens + [current];
            current := "";
          }
        } else {
          current := current + [ch];
        }
      }
      i := i + 1;
    }
    if current != "" || inQuotes {
      tokens := tokens + [current];
    }
  }

  // ------------------------------------------------------------------ composition

  /** The mode after all of `s`. */
  function EndMode(s: string, mode: Mode): Mode
    decreases |s|
  {
    if s == "" then mode
    else
      var ch := s[0];
      match mode
      case Inside(q) =>
        if ch == q then EndMode(s[1..], Outside)
        else if ch == '\\' && |s| > 1 then EndMode(s[2..], mode)
        else EndMode(s[1..], mode)
      case Outside => EndMode(s[1..], if IsQuote(ch) then Inside(ch) else Outside)
  }

  /** Reading on after a prefix that ends outside quotes and is followed by a
      space is reading the two parts apart. */
  lemma {:induction false} LexCompose(s: string, space: char, rest: string, current: string, mode: Mode)
    requires EndMode(s, mode) == Outside && IsSpace(space)
    ensures Lex(s + [space] + rest, current, mode) == Lex(s, current, mode) + Tokens(rest)
    decreases |s|
  {
    var all := s + [space] + rest;
    if s == "" {
      assert all[1..] == rest;
    } else {
      var ch := s[0];
      assert all[0] == ch && all[1..] == s[1..] + [space] + rest;
      match mode
      case Inside(q) =>
        if ch == q {
          LexCompose(s[1..], space, rest, current, Outside);
        } else if ch == '\\' && |s| > 1 {
          assert all[1] == s[1] && all[2..] == s[2..] + [space] + rest;
          LexCompose(s[2..], space, rest, current + [s[1]], mode);
        } else {
          assert s[1..] != "";
          LexCompose(s[1..], space, rest, current + [ch], mode);
        }
      case Outside =>
        if IsQuote(ch) {
          LexCompose(s[1..], space, rest, current, Inside(ch));
        } else if IsSpace(ch) {
          LexCompose(s[1..], space, rest, "", Outside);
          assert Lex(all, current, mode) == Flush(current, Outside) + (Lex(s[1..], "", Outside) + Tokens(rest));
        } else {
          LexCompose(s[1..], space, rest, current + [ch], Outside);
        }
    }
  }

  lemma TokensCompose(s: string, space: char, rest: string)
    requires EndMode(s, Outside) == Outside && IsSpace(space)
    ensures Tokens(s + [space] + rest) == Tokens(s) + Tokens(rest)
  {
    LexCompose(s, space, rest, "", Outside);
  }

  // ------------------------------------------------------------------ quoting

  function Escape(token: string): string {
    if token == "" then ""
    else (if token[0] == '"' || token[0] == '\\' then ['\\', token[0]] else [token[0]]) + Escape(token[1..])
  }

  function Quote(token: string): string {
    "\"" + Escape(token) + "\""
  }

  function Join(tokens: seq<string>): string {
    if tokens == [] then ""
    else if |tokens| == 1 then Quote(tokens[0])
    else Quote(tokens[0]) + " " + Join(tokens[1..])
  }

  function NonEmpty(tokens: seq<string>): seq<string> {
    if tokens == [] then []
    else (if tokens[0] == "" then [] else [tokens[0]]) + NonEmpty(tokens[1..])
  }

  lemma {:induction false} EscapeReadBack(token: string, rest: string, current: string)
    ensures Lex(Escape(token) + "\"" + rest, current, Inside('"')) == Lex(rest, current + token, Outside)
    decreases |token|
  {
    var all := Escape(token) + "\"" + rest;
    if token == "" {
      assert all[1..] == rest && current + token == current;
    } else {
      var ch, more := token[0], Escape(token[1..]) + "\"" + rest;
      if ch == '"' || ch == '\\' {
        assert all[0] == '\\' && all[1] == ch && all[2..] == more;
      } else {
        assert all[0] == ch && all[1..] == more;
      }
      EscapeReadBack(token[1..], rest, current + [ch]);
      assert current + [ch] + token[1..] == current + token;
    }
  }

  lemma QuoteReadBack(token: string, rest: string)
    ensures Lex(Quote(token) + rest, "", Outside) == Lex(rest, token, Outside)
  {
    var all := Quote(token) + rest;
    assert all[1..] == Escape(token) + "\"" + rest;
    EscapeReadBack(token, rest, "");
    assert "" + token == token;
  }

  /** Every list of strings survives quoting, joining and parsing, except that
      closed empty quotes yield no token. */
  lemma {:induction false} JoinReadBack(tokens: seq<string>)
    ensures Tokens(Join(tokens)) == NonEmpty(tokens)
  {
    if tokens == [] {
    } else if |tokens| == 1 {
      QuoteReadBack(tokens[0], "");
      assert Quote(tokens[0]) + "" == Quote(tokens[0]);
      assert NonEmpty(tokens[1..]) == [];
    } else {
      var rest := " " + Join(tokens[1..]);
      assert Join(tokens) == Quote(tokens[0]) + rest;
      QuoteReadBack(tokens[0], rest);
      assert rest[1..] == Join(tokens[1..]);
      JoinReadBack(tokens[1..]);
    }
  }

  // ------------------------------------------------------------------ decimal numbers

  predicate IsDigit(ch: char) {
    '0' <= ch <= '9'
  }

  predicate AllDigits(s: string) {
    forall i | 0 <= i < |s| :: IsDigit(s[i])
  }

  function Value(digits: string): nat
    requires AllDigits(digits)
  {
    if digits == "" then 0
    else 10 * Value(digits[..|digits| - 1]) + (digits[|digits| - 1] - '0') as nat
  }

  function Decimal(n: nat): (s: string)
    ensures s != "" && AllDigits(s)
  {
    var last := [('0' as int + n % 10) as char];
    if n < 10 then last else Decimal(n / 10) + last
  }

  lemma {:induction false} DecimalReadBack(n: nat)
    ensures Value(Decimal(n)) == n
  {
    var s := Decimal(n);
    if n < 10 {
      assert s[..0] == "";
    } else {
      assert s[..|s| - 1] == Decimal(n / 10);
      DecimalReadBack(n / 10);
    }
  }

  // ------------------------------------------------------------------ std::stoull

  function SkipSpaces(s: string): (n: nat)
    ensures n <= |s|
    ensures forall i | 0 <= i < n :: IsSpace(s[i])
    ensures n < |s| ==> !IsSpace(s[n])
  {
    if s == "" || !IsSpace(s[0]) then 0 else 1 + SkipSpaces(s[1..])
  }

  function DigitRun(s: string): (n: nat)
    ensures n <= |s|
    ensures AllDigits(s[..n])
    ensures n < |s| ==> !IsDigit(s[n])
  {
    if s == "" || !IsDigit(s[0]) then 0
    else
      var n := DigitRun(s[1..]);
      assert s[..n + 1] == [s[0]] + s[1..][..n];
      n + 1
  }

  function Negate(n: U64): U64 {
    (U64_LIMIT - n) % U64_LIMIT
  }

  /** The longest run of digits: its value and its length. */
  function ReadDigits(s: string): Option<(U64, nat)> {
    var run := DigitRun(s);
    if run == 0 || Value(s[..run]) >= U64_LIMIT then None
    else Some((Value(s[..run]), run))
  }

  datatype Sign = NoSign | Plus | Minus

  function SignOf(s: string): Sign {
    if s == "" then NoSign else if s[0] == '+' then Plus else if s[0] == '-' then Minus else NoSign
  }

  function SignText(sign: Sign): string {
    match sign case NoSign => [] case Plus => ['+'] case Minus => ['-']
  }

  function Signed(sign: Sign, n: U64): U64 {
    if sign == Minus then Negate(n) else n
  }

  function ReadSigned(s: string): Option<(U64, nat)> {
    if SignOf(s) == NoSign then ReadDigits(s)
    else
      match ReadDigits(s[1..])
      case Some((n, used)) => Some((Signed(SignOf(s), n), used + 1))
      case None => None
  }

  /** The value and the number of characters read, or nothing where the source
      throws: leading spaces, an optional sign, then the longest run of digits. A
      minus sign negates modulo 2^64, as `strtoull` does. */
  function Stoull(s: string): Option<(U64, nat)> {
    var spaces := SkipSpaces(s);
    match ReadSigned(s[spaces..])
    case Some((n, used)) => Some((n, spaces + used))
    case None => None
  }

  /** A size argument is accepted when all of it was read. */
  function ParseSize(s: string): Option<U64> {
    match Stoull(s)
    case Some((n, used)) => if used == |s| then Some(n) else None
    case None => None
  }

  predicate AllSpaces(s: string) {
    forall i | 0 <= i < |s| :: IsSpace(s[i])
  }

  /** The texts accepted as a size, and what each of them means. */
  ghost predicate IsSizeText(s: string, spaces: string, sign: Sign, digits: string) {
    && s == spaces + (SignText(sign) + digits)
    && AllSpaces(spaces)
    && digits != "" && AllDigits(digits) && Value(digits) < U64_LIMIT
  }

  lemma SizeTextAccepted(s: string, spaces: string, sign: Sign, digits: string)
    requires IsSizeText(s, spaces, sign, digits)
    ensures ParseSize(s) == Some(Signed(sign, Value(digits)))
  {
    var body := SignText(sign) + digits;
    SignedReadBack(sign, digits);
    SignedStartsBody(sign, digits);
    StoullSkips(spaces, body);
  }

  lemma SignedStartsBody(sign: Sign, digits: string)
    requires digits != "" && AllDigits(digits)
    ensures !IsSpace((SignText(sign) + digits)[0])
  {
  }

  lemma StoullSkips(spaces: string, body: string)
    requires AllSpaces(spaces) && body != "" && !IsSpace(body[0])
    ensures Stoull(spaces + body) == match ReadSigned(body)
                                     case Some((n, used)) => Some((n, |spaces| + used))
                                     case None => None
  {
    SkipSpacesStops(spaces, body);
    assert (spaces + body)[|spaces|..] == body;
  }

  lemma SignedReadBack(sign: Sign, digits: string)
    requires digits != "" && AllDigits(digits) && Value(digits) < U64_LIMIT
    ensures ReadSigned(SignText(sign) + digits)
         == Some((Signed(sign, Value(digits)), |SignText(sign)| + |digits|))
  {
    var s := SignText(sign) + digits;
    assert digits[..DigitRun(digits)] == digits;
    if sign == NoSign {
      assert s == digits;
      assert IsDigit(s[0]);
    } else {
      assert s[1..] == digits;
    }
  }

  lemma {:induction false} SkipSpacesStops(spaces: string, body: string)
    requires AllSpaces(spaces) && body != "" && !IsSpace(body[0])
    ensures SkipSpaces(spaces + body) == |spaces|
  {
    if spaces == "" {
      assert spaces + body == body;
    } else {
      assert (spaces + body)[1..] == spaces[1..] + body;
      SkipSpacesStops(spaces[1..], body);
    }
  }

  lemma SizeTextComplete(s: string) returns (spaces: string, sign: Sign, digits: string)
    requires ParseSize(s).Some?
    ensures IsSizeText(s, spaces, sign, digits) && ParseSize(s).value == Signed(sign, Value(digits))
  {
    var n := SkipSpaces(s);
    var body := s[n..];
    spaces := s[..n];
    sign, digits := SignedComplete(body);
    assert s == spaces + body;
  }

  lemma SignedComplete(body: string) returns (sign: Sign, digits: string)
    requires ReadSigned(body).Some? && ReadSigned(body).value.1 == |body|
    ensures body == SignText(sign) + digits
    ensures digits != "" && AllDigits(digits) && Value(digits) < U64_LIMIT
    ensures ReadSigned(body).value.0 == Signed(sign, Value(digits))
  {
    sign := SignOf(body);
    digits := if sign == NoSign then body else body[1..];
    assert digits[..DigitRun(digits)] == digits;
  }

  lemma NegateIs(n: U64)
    requires n > 0
    ensures Negate(n) == U64_LIMIT - n
  {
  }

  /** A negative size is not refused: minus n means 2^64 - n. */
  lemma NegativeSizeIsAccepted(s: string, spaces: string, digits: string)
    requires IsSizeText(s, spaces, Minus, digits) && Value(digits) > 0
    ensures ParseSize(s) == Some(U64_LIMIT - Value(digits))
  {
    var n: U64 := Value(digits);
    NegateIs(n);
    assert ParseSize(s) == Some(Signed(Minus, n)) by {
      SizeTextAccepted(s, spaces, Minus, digits);
    }
  }

  /** Sizes are decimal, and below 2^64. */
  lemma SizeExamples()
    ensures ParseSize("1024") == Some(1024) && ParseSize("-1") == Some(18446744073709551615)
  {
    assert "1024"[..3] == "102" && "102"[..2] == "10" && "10"[..1] == "1" && "1"[..0] == "";
    assert Value("1") == 1 && Value("10") == 10 && Value("102") == 102 && Value("1024") == 1024;
    assert "1024" == "" + (SignText(NoSign) + "1024") && "-1" == "" + (SignText(Minus) + "1");
    SizeTextAccepted("1024", "", NoSign, "1024");
    NegativeSizeIsAccepted("-1", "", "1");
  }

  // ------------------------------------------------------------------ decoder

  datatype Decoded = Rejected(error: string) | StopRequest | Submit(task: SyncTask)

  const MALFORMED := "Malformed IPC command."

  function DecodeSum(token: string): string {
    if token == "-" then "" else token
  }

  /** `enqueue_ipc_command` up to the call of `enqueue` or `stop`. */
  function Decode(tokens: seq<string>): Decoded {
    if tokens == [] then Rejected("Empty IPC command.")
    else if tokens[0] == "STOP" then
      if |tokens| != 1 then Rejected(MALFORMED) else StopRequest
    else if tokens[0] == "DOWNLOAD" then
      if |tokens| != 6 then Rejected(MALFORMED)
      else
        var task := SyncTask(tokens[1], Download, tokens[2], tokens[3],
                             Validation(None, DecodeSum(tokens[5])));
        if tokens[4] == "-" || tokens[4] == "" then Submit(task)
        else
          match ParseSize(tokens[4])
          case Some(n) => Submit(task.(validation := task.validation.(expectedSize := Some(n))))
          case None => Rejected("Invalid expected size.")
    else if tokens[0] == "UPLOAD" then
      if |tokens| != 4 then Rejected(MALFORMED)
      else Submit(SyncTask(tokens[1], Upload, tokens[2], tokens[3], Validation(None, "")))
    else Rejected("Unsupported IPC command.")
  }

  /** The task of a DOWNLOAD with these six tokens. */
  ghost predicate IsDownload(tokens: seq<string>, task: SyncTask) {
    && |tokens| == 6 && tokens[0] == "DOWNLOAD"
    && task.direction == Download && task.id == tokens[1] && task.url == tokens[2] && task.localPath == tokens[3]
    && (if tokens[4] == "-" || tokens[4] == "" then task.validation.expectedSize == None
        else ParseSize(tokens[4]).Some? && task.validation.expectedSize == ParseSize(tokens[4]))
    && task.validation.expectedSha256 == (if tokens[5] == "-" then "" else tokens[5])
  }

  /** The task of an UPLOAD with these four tokens. */
  ghost predicate IsUpload(tokens: seq<string>, task: SyncTask) {
    && |tokens| == 4 && tokens[0] == "UPLOAD"
    && task == SyncTask(tokens[1], Upload, tokens[2], tokens[3], Validation(None, ""))
  }

  /** Which token lists stop the manager, and which submit which task. */
  lemma DecodedExactly(tokens: seq<string>, task: SyncTask)
    ensures Decode(tokens) == StopRequest <==> tokens == ["STOP"]
    ensures Decode(tokens) == Submit(task) <==> IsDownload(tokens, task) || IsUpload(tokens, task)
  {
  }

  /** Why the others are refused. */
  lemma RejectedExactly(tokens: seq<string>)
    ensures Decode(tokens) == Rejected("Empty IPC command.") <==> tokens == []
    ensures Decode(tokens) == Rejected("Unsupported IPC command.") <==>
            tokens != [] && tokens[0] != "STOP" && tokens[0] != "DOWNLOAD" && tokens[0] != "UPLOAD"
    ensures Decode(tokens) == Rejected("Malformed IPC command.") <==>
            tokens != [] && (|| (tokens[0] == "STOP" && |tokens| != 1) || (tokens[0] == "DOWNLOAD" && |tokens| != 6)
                             || (tokens[0] == "UPLOAD" && |tokens| != 4))
    ensures Decode(tokens) == Rejected("Invalid expected size.") <==>
            && |tokens| == 6 && tokens[0] == "DOWNLOAD" && tokens[4] != "-" && tokens[4] != ""
            && ParseSize(tokens[4]) == None
  {
  }

  // ------------------------------------------------------------------ printer and round trip

  function PrintTokens(task: SyncTask): seq<string> {
    match task.direction
    case Download =>
      ["DOWNLOAD", task.id, task.url, task.localPath,
       if task.validation.expectedSize.Some? then Decimal(task.validation.expectedSize.value) else "-",
       if task.validation.expectedSha256 == "" then "-" else task.validation.expectedSha256]
    case Upload => ["UPLOAD", task.id, task.url, task.localPath]
  }

  function Print(task: SyncTask): string {
    Join(PrintTokens(task))
  }

  /** The tasks the command language can express. */
  predicate Expressible(task: SyncTask) {
    && task.id != "" && task.url != "" && task.localPath != ""
    && task.validation.expectedSha256 != "-"
    && (task.direction == Upload ==> task.validation == Validation(None, ""))
  }

  lemma {:induction false} NonEmptyLength(tokens: seq<string>)
    ensures |NonEmpty(tokens)| <= |tokens|
    ensures |NonEmpty(tokens)| == |tokens| <==> "" !in tokens
    ensures "" !in tokens ==> NonEmpty(tokens) == tokens
    ensures tokens != [] && tokens[0] != "" ==> NonEmpty(tokens) != [] && NonEmpty(tokens)[0] == tokens[0]
  {
    if tokens != [] {
      NonEmptyLength(tokens[1..]);
    }
  }

  lemma SizeReadBack(n: U64)
    ensures Decimal(n) != "-" && Decimal(n) != "" && ParseSize(Decimal(n)) == Some(n)
  {
    DecimalReadBack(n);
    var s := Decimal(n);
    assert s == "" + (SignText(NoSign) + s);
    SizeTextAccepted(s, "", NoSign, s);
    assert IsDigit(s[0]);
  }

  lemma DownloadRoundTrip(task: SyncTask)
    requires task.direction == Download
    ensures Decode(NonEmpty(PrintTokens(task))) == Submit(task) <==> Expressible(task)
  {
    var tokens := PrintTokens(task);
    NonEmptyLength(tokens);
    if task.validation.expectedSize.Some? {
      SizeReadBack(task.validation.expectedSize.value);
    }
    assert tokens[4] != "" && tokens[5] != "";
    assert "" in tokens <==> tokens[1] == "" || tokens[2] == "" || tokens[3] == "";
  }

  lemma UploadRoundTrip(task: SyncTask)
    requires task.direction == Upload
    ensures Decode(NonEmpty(PrintTokens(task))) == Submit(task) <==> Expressible(task)
  {
    var tokens := PrintTokens(task);
    NonEmptyLength(tokens);
    assert "" in tokens <==> tokens[1] == "" || tokens[2] == "" || tokens[3] == "";
  }

  /** Printing a task and running `parse_tokens` and the decoder gives it back,
      exactly when the task is expressible. */
  lemma CommandRoundTrip(task: SyncTask)
    ensures Decode(Tokens(Print(task))) == Submit(task) <==> Expressible(task)
  {
    JoinReadBack(PrintTokens(task));
    match task.direction
    case Download => DownloadRoundTrip(task);
    case Upload => UploadRoundTrip(task);
  }
}

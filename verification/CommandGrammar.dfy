/** What a command line means, said as a grammar: words and blanks, with bare and
    quoted pieces. Every text is one of its sentences, and `parse_tokens` reads
    each of them as the grammar means it. */
module CommandGrammar {
  import opened SyncTypes
  import opened IpcCommand

  // ------------------------------------------------------------------ the grammar

  /** A character inside quotes: as it is, or after a backslash. */
  datatype Unit = Plain(ch: char) | Escaped(ch: char)

  /** A piece of a word. */
  datatype Piece = Bare(ch: char) | Quoted(quote: char, units: seq<Unit>)

  type Word = seq<Piece>

  /** A word and the blank after it. */
  datatype Entry = Entry(word: Word, blank: char)

  /** Quotes that are never closed, and whether a single backslash ends the text. */
  datatype Open = Closed | Open(quote: char, units: seq<Unit>, backslash: bool)

  datatype Line = Line(entries: seq<Entry>, last: Word, open: Open)

  predicate Blank(ch: char) {
    ch == ' ' || ch == '\t' || ch == '\n' || ch == '\r' || ch as int == 11 || ch as int == 12
  }

  predicate UnitFits(u: Unit, quote: char) {
    u.Plain? ==> u.ch != quote && u.ch != '\\'
  }

  predicate UnitsFit(units: seq<Unit>, quote: char) {
    (quote == '"' || quote == '\'') && forall i | 0 <= i < |units| :: UnitFits(units[i], quote)
  }

  predicate PieceFits(p: Piece) {
    match p
    case Bare(ch) => !Blank(ch) && ch != '"' && ch != '\''
    case Quoted(quote, units) => UnitsFit(units, quote)
  }

  predicate WordFits(word: Word) {
    forall i | 0 <= i < |word| :: PieceFits(word[i])
  }

  predicate LineFits(line: Line) {
    && (forall i | 0 <= i < |line.entries| :: WordFits(line.entries[i].word) && Blank(line.entries[i].blank))
    && WordFits(line.last)
    && (line.open.Open? ==> UnitsFit(line.open.units, line.open.quote))
  }

  // ------------------------------------------------------------------ how it is written, and what it means

  function WrittenUnits(units: seq<Unit>): string {
    if units == [] then ""
    else (if units[0].Escaped? then ['\\', units[0].ch] else [units[0].ch]) + WrittenUnits(units[1..])
  }

  function MeantUnits(units: seq<Unit>): string {
    seq(|units|, i requires 0 <= i < |units| => units[i].ch)
  }

  function WrittenPiece(p: Piece): string {
    match p
    case Bare(ch) => [ch]
    case Quoted(quote, units) => [quote] + WrittenUnits(units) + [quote]
  }

  function MeantPiece(p: Piece): string {
    match p
    case Bare(ch) => [ch]
    case Quoted(_, units) => MeantUnits(units)
  }

  function WrittenWord(word: Word): string {
    if word == [] then "" else WrittenPiece(word[0]) + WrittenWord(word[1..])
  }

  function MeantWord(word: Word): string {
    if word == [] then "" else MeantPiece(word[0]) + MeantWord(word[1..])
  }

  function WrittenEntries(entries: seq<Entry>): string {
    if entries == [] then ""
    else WrittenWord(entries[0].word) + ([entries[0].blank] + WrittenEntries(entries[1..]))
  }

  /** A word that means nothing is no token. */
  function MeantEntries(entries: seq<Entry>): seq<string> {
    if entries == [] then [] else Token(MeantWord(entries[0].word)) + MeantEntries(entries[1..])
  }

  function Token(text: string): seq<string> {
    if text == "" then [] else [text]
  }

  function WrittenOpen(open: Open): string {
    match open
    case Closed => ""
    case Open(quote, units, backslash) => [quote] + (WrittenUnits(units) + if backslash then "\\" else "")
  }

  function Written(line: Line): string {
    WrittenEntries(line.entries) + (WrittenWord(line.last) + WrittenOpen(line.open))
  }

  /** The last word counts even when it is empty, if its quotes are open. */
  function Meant(line: Line): seq<string> {
    MeantEntries(line.entries) +
    match line.open
    case Closed => Token(MeantWord(line.last))
    case Open(_, units, backslash) => [MeantWord(line.last) + MeantUnits(units) + if backslash then "\\" else ""]
  }

  // ------------------------------------------------------------------ the tokenizer reads it so

  lemma Assoc(a: string, b: string, c: string)
    ensures a + b + c == a + (b + c)
  {
  }

  lemma Blanks(ch: char)
    ensures IsSpace(ch) <==> Blank(ch)
  {
  }

  lemma MeantUnitsFirst(units: seq<Unit>)
    requires units != []
    ensures MeantUnits(units) == [units[0].ch] + MeantUnits(units[1..])
  {
  }

  lemma {:induction false} UnitsRead(units: seq<Unit>, quote: char, rest: string, current: string)
    requires UnitsFit(units, quote)
    ensures Lex(WrittenUnits(units) + rest, current, Inside(quote)) ==
            Lex(rest, current + MeantUnits(units), Inside(quote))
    decreases |units|
  {
    var all := WrittenUnits(units) + rest;
    if units == [] {
      assert all == rest && current + MeantUnits(units) == current;
    } else {
      var u, more := units[0], WrittenUnits(units[1..]) + rest;
      if u.Escaped? {
        assert all[0] == '\\' && all[1] == u.ch && all[2..] == more;
      } else {
        assert all[0] == u.ch && all[1..] == more;
      }
      UnitsRead(units[1..], quote, rest, current + [u.ch]);
      MeantUnitsFirst(units);
      assert current + [u.ch] + MeantUnits(units[1..]) == current + MeantUnits(units);
    }
  }

  lemma QuotesRead(quote: char, units: seq<Unit>, rest: string, current: string)
    requires UnitsFit(units, quote)
    ensures Lex([quote] + WrittenUnits(units) + [quote] + rest, current, Outside) ==
            Lex(rest, current + MeantUnits(units), Outside)
  {
    var all := [quote] + WrittenUnits(units) + [quote] + rest;
    assert all[1..] == WrittenUnits(units) + ([quote] + rest);
    UnitsRead(units, quote, [quote] + rest, current);
    assert ([quote] + rest)[1..] == rest;
  }

  lemma BareRead(ch: char, rest: string, current: string)
    requires PieceFits(Bare(ch))
    ensures Lex([ch] + rest, current, Outside) == Lex(rest, current + [ch], Outside)
  {
    assert ([ch] + rest)[1..] == rest;
    Blanks(ch);
  }

  lemma PieceRead(p: Piece, rest: string, current: string)
    requires PieceFits(p)
    ensures Lex(WrittenPiece(p) + rest, current, Outside) == Lex(rest, current + MeantPiece(p), Outside)
  {
    match p
    case Bare(ch) => BareRead(ch, rest, current);
    case Quoted(quote, units) => QuotesRead(quote, units, rest, current);
  }

  lemma {:induction false} WordRead(word: Word, rest: string, current: string)
    requires WordFits(word)
    ensures Lex(WrittenWord(word) + rest, current, Outside) == Lex(rest, current + MeantWord(word), Outside)
    decreases |word|
  {
    if word == [] {
      assert WrittenWord(word) + rest == rest && current + MeantWord(word) == current;
    } else {
      WordRead(word[1..], rest, current + MeantPiece(word[0]));
      PieceRead(word[0], WrittenWord(word[1..]) + rest, current);
      Assoc(WrittenPiece(word[0]), WrittenWord(word[1..]), rest);
      Assoc(current, MeantPiece(word[0]), MeantWord(word[1..]));
    }
  }

  lemma BlankRead(blank: char, rest: string, current: string)
    requires Blank(blank)
    ensures Lex([blank] + rest, current, Outside) == Token(current) + Tokens(rest)
  {
    assert ([blank] + rest)[1..] == rest;
    Blanks(blank);
  }

  lemma EntryRead(word: Word, blank: char, rest: string)
    requires WordFits(word) && Blank(blank)
    ensures Tokens(WrittenWord(word) + ([blank] + rest)) == Token(MeantWord(word)) + Tokens(rest)
  {
    WordRead(word, [blank] + rest, "");
    assert "" + MeantWord(word) == MeantWord(word);
    BlankRead(blank, rest, MeantWord(word));
  }

  lemma {:induction false} EntriesRead(entries: seq<Entry>, rest: string)
    requires forall i | 0 <= i < |entries| :: WordFits(entries[i].word) && Blank(entries[i].blank)
    ensures Tokens(WrittenEntries(entries) + rest) == MeantEntries(entries) + Tokens(rest)
    decreases |entries|
  {
    if entries == [] {
      assert WrittenEntries(entries) + rest == rest;
    } else {
      EntriesRead(entries[1..], rest);
      FirstEntryRead(entries[0], WrittenEntries(entries[1..]), rest, MeantEntries(entries[1..]));
    }
  }

  lemma FirstEntryRead(e: Entry, others: string, rest: string, meant: seq<string>)
    requires WordFits(e.word) && Blank(e.blank) && Tokens(others + rest) == meant + Tokens(rest)
    ensures Tokens(WrittenWord(e.word) + ([e.blank] + others) + rest) == Token(MeantWord(e.word)) + meant + Tokens(rest)
  {
    EntryRead(e.word, e.blank, others + rest);
    Assoc(WrittenWord(e.word), [e.blank] + others, rest);
    Assoc([e.blank], others, rest);
  }

  lemma OpenRead(quote: char, units: seq<Unit>, backslash: bool, current: string)
    requires UnitsFit(units, quote)
    ensures Lex(WrittenOpen(Open(quote, units, backslash)), current, Outside) ==
            [current + MeantUnits(units) + if backslash then "\\" else ""]
  {
    var end := if backslash then "\\" else "";
    var all := [quote] + (WrittenUnits(units) + end);
    assert all[1..] == WrittenUnits(units) + end;
    UnitsRead(units, quote, end, current);
    if backslash {
      assert end[1..] == "";
    } else {
      assert current + MeantUnits(units) + end == current + MeantUnits(units);
    }
  }

  /** `parse_tokens` reads a line as the grammar means it. */
  lemma LineRead(line: Line)
    requires LineFits(line)
    ensures Tokens(Written(line)) == Meant(line)
  {
    EntriesRead(line.entries, WrittenWord(line.last) + WrittenOpen(line.open));
    WordRead(line.last, WrittenOpen(line.open), "");
    assert "" + MeantWord(line.last) == MeantWord(line.last);
    if line.open.Open? {
      OpenRead(line.open.quote, line.open.units, line.open.backslash, MeantWord(line.last));
    }
  }

  // ------------------------------------------------------------------ every text is a line

  /** The units up to the closing quote, or to the end of the text. */
  lemma {:induction false} UnitsOf(s: string, quote: char)
    returns (units: seq<Unit>, closed: bool, backslash: bool, rest: string)
    requires quote == '"' || quote == '\''
    ensures UnitsFit(units, quote)
    ensures closed ==> s == WrittenUnits(units) + [quote] + rest
    ensures !closed ==> s == WrittenUnits(units) + if backslash then "\\" else ""
    decreases |s|
  {
    if s == "" {
      units, closed, backslash, rest := [], false, false, "";
    } else if s[0] == quote {
      units, closed, backslash, rest := [], true, false, s[1..];
    } else if s == "\\" {
      units, closed, backslash, rest := [], false, true, "";
    } else {
      var u, used := if s[0] == '\\' then Escaped(s[1]) else Plain(s[0]), if s[0] == '\\' then 2 else 1;
      var more: seq<Unit>;
      more, closed, backslash, rest := UnitsOf(s[used..], quote);
      units := [u] + more;
      assert units[1..] == more;
      assert s == (if u.Escaped? then ['\\', u.ch] else [u.ch]) + s[used..];
    }
  }

  function Prepend(p: Piece, line: Line): Line {
    if line.entries == [] then line.(last := [p] + line.last)
    else line.(entries := [line.entries[0].(word := [p] + line.entries[0].word)] + line.entries[1..])
  }

  lemma PrependedWord(p: Piece, word: Word)
    requires WordFits(word) && PieceFits(p)
    ensures WordFits([p] + word) && WrittenWord([p] + word) == WrittenPiece(p) + WrittenWord(word)
  {
    assert ([p] + word)[1..] == word;
  }

  lemma PrependedEntry(p: Piece, first: Entry, others: seq<Entry>)
    requires WordFits(first.word) && PieceFits(p)
    ensures WordFits([p] + first.word)
    ensures WrittenEntries([Entry([p] + first.word, first.blank)] + others) ==
            WrittenPiece(p) + WrittenEntries([first] + others)
  {
    PrependedWord(p, first.word);
    EntriesFrom(first, others);
    EntriesFrom(Entry([p] + first.word, first.blank), others);
    Assoc(WrittenPiece(p), WrittenWord(first.word), [first.blank] + WrittenEntries(others));
  }

  lemma EntriesFrom(first: Entry, others: seq<Entry>)
    ensures WrittenEntries([first] + others) == WrittenWord(first.word) + ([first.blank] + WrittenEntries(others))
  {
    assert ([first] + others)[1..] == others;
  }

  lemma PrependedFits(p: Piece, line: Line)
    requires LineFits(line) && PieceFits(p)
    ensures LineFits(Prepend(p, line))
  {
    if line.entries == [] {
      PrependedWord(p, line.last);
    } else {
      PrependedWord(p, line.entries[0].word);
    }
  }

  lemma PrependedWritten(p: Piece, entries: seq<Entry>, last: Word, open: Open)
    requires entries == [] ==> WordFits(last)
    requires entries != [] ==> WordFits(entries[0].word)
    requires PieceFits(p)
    ensures Written(Prepend(p, Line(entries, last, open))) == WrittenPiece(p) + Written(Line(entries, last, open))
  {
    if entries == [] {
      PrependedWord(p, last);
      Assoc(WrittenPiece(p), WrittenWord(last), WrittenOpen(open));
    } else {
      PrependedEntry(p, entries[0], entries[1..]);
      assert entries == [entries[0]] + entries[1..];
      Assoc(WrittenPiece(p), WrittenEntries(entries), WrittenWord(last) + WrittenOpen(open));
    }
  }

  lemma Prepended(p: Piece, line: Line, s: string)
    requires LineFits(line) && PieceFits(p) && Written(line) == s
    ensures LineFits(Prepend(p, line)) && Written(Prepend(p, line)) == WrittenPiece(p) + s
  {
    PrependedFits(p, line);
    PrependedWritten(p, line.entries, line.last, line.open);
  }

  lemma StartWithBlank(blank: char, line: Line, s: string) returns (r: Line)
    requires LineFits(line) && Blank(blank) && Written(line) == s
    ensures LineFits(r) && Written(r) == [blank] + s
  {
    r := Line([Entry([], blank)] + line.entries, line.last, line.open);
    BlankWritten(blank, line.entries, line.last, line.open);
  }

  lemma BlankWritten(blank: char, entries: seq<Entry>, last: Word, open: Open)
    ensures Written(Line([Entry([], blank)] + entries, last, open)) == [blank] + Written(Line(entries, last, open))
  {
    EntriesFrom(Entry([], blank), entries);
    assert WrittenWord([]) + ([blank] + WrittenEntries(entries)) == [blank] + WrittenEntries(entries);
    Assoc([blank], WrittenEntries(entries), WrittenWord(last) + WrittenOpen(open));
  }

  lemma {:induction false} LineOf(s: string) returns (line: Line)
    ensures LineFits(line) && Written(line) == s
    decreases |s|
  {
    if s == "" {
      line := Line([], [], Closed);
    } else if Blank(s[0]) {
      line := LineOf(s[1..]);
      line := StartWithBlank(s[0], line, s[1..]);
    } else if s[0] == '"' || s[0] == '\'' {
      line := QuotedLineOf(s);
    } else {
      var more := LineOf(s[1..]);
      Prepended(Bare(s[0]), more, s[1..]);
      line := Prepend(Bare(s[0]), more);
    }
  }

  lemma {:induction false} QuotedLineOf(s: string) returns (line: Line)
    requires s != "" && (s[0] == '"' || s[0] == '\'')
    ensures LineFits(line) && Written(line) == s
    decreases |s|, 0
  {
    var units, closed, backslash, rest := UnitsOf(s[1..], s[0]);
    if closed {
      var more := LineOf(rest);
      line := Prepend(Quoted(s[0], units), more);
      Prepended(Quoted(s[0], units), more, rest);
      Assoc([s[0]], WrittenUnits(units) + [s[0]], rest);
      Assoc([s[0]], WrittenUnits(units), [s[0]]);
    } else {
      line := OpenLine(s[0], units, backslash);
    }
  }

  lemma OpenLine(quote: char, units: seq<Unit>, backslash: bool) returns (line: Line)
    requires UnitsFit(units, quote)
    ensures LineFits(line) && Written(line) == [quote] + (WrittenUnits(units) + if backslash then "\\" else "")
  {
    line := Line([], [], Open(quote, units, backslash));
  }

  /** Every command is a line of the grammar, and means what the line means. */
  lemma EveryCommand(command: string) returns (line: Line)
    ensures LineFits(line) && Written(line) == command && Tokens(command) == Meant(line)
  {
    line := LineOf(command);
    LineRead(line);
  }

  // ------------------------------------------------------------------ plain words

  /** A word without blanks and quotes; a backslash is a character like others. */
  predicate BareWord(text: string) {
    text != "" && forall i | 0 <= i < |text| :: !Blank(text[i]) && text[i] != '"' && text[i] != '\''
  }

  function Spaced(words: seq<string>): string {
    if words == [] then ""
    else if |words| == 1 then words[0]
    else words[0] + ([' '] + Spaced(words[1..]))
  }

  lemma {:induction false} BareWordRead(text: string, rest: string, current: string)
    requires forall i | 0 <= i < |text| :: PieceFits(Bare(text[i]))
    ensures Lex(text + rest, current, Outside) == Lex(rest, current + text, Outside)
    decreases |text|
  {
    if text == "" {
      assert text + rest == rest && current + text == current;
    } else {
      assert text + rest == [text[0]] + (text[1..] + rest);
      BareRead(text[0], text[1..] + rest, current);
      BareWordRead(text[1..], rest, current + [text[0]]);
      assert current + [text[0]] + text[1..] == current + text;
    }
  }

  lemma LastWordRead(text: string)
    requires BareWord(text)
    ensures Tokens(text) == [text]
  {
    BareWordRead(text, "", "");
    assert text + "" == text && "" + text == text;
  }

  lemma FirstWordRead(text: string, rest: string)
    requires BareWord(text)
    ensures Tokens(text + ([' '] + rest)) == [text] + Tokens(rest)
  {
    BareWordRead(text, [' '] + rest, "");
    assert "" + text == text;
    BlankRead(' ', rest, text);
  }

  /** Words without blanks and quotes, with spaces between them, are the tokens. */
  lemma {:induction false} BareWordsRead(words: seq<string>)
    requires forall i | 0 <= i < |words| :: BareWord(words[i])
    ensures Tokens(Spaced(words)) == words
  {
    if words == [] {
    } else if |words| == 1 {
      LastWordRead(words[0]);
    } else {
      BareWordsRead(words[1..]);
      FirstWordRead(words[0], Spaced(words[1..]));
      assert words == [words[0]] + words[1..];
    }
  }

  /** A bare part and a quoted part make one word. */
  lemma MixedWordRead(bare: string, quote: char, inside: string)
    requires forall i | 0 <= i < |bare| :: PieceFits(Bare(bare[i]))
    requires quote == '"' || quote == '\''
    requires forall i | 0 <= i < |inside| :: inside[i] != quote && inside[i] != '\\'
    ensures Tokens(bare + ([quote] + inside + [quote])) == Token(bare + inside)
  {
    PlainUnits(inside);
    BareWordRead(bare, [quote] + inside + [quote], "");
    assert "" + bare == bare;
    QuotesRead(quote, Plains(inside), "", bare);
    assert [quote] + inside + [quote] + "" == [quote] + inside + [quote];
  }

  /** A quote left open yields its text, even an empty one. */
  lemma OpenWordRead(bare: string, quote: char, inside: string)
    requires forall i | 0 <= i < |bare| :: PieceFits(Bare(bare[i]))
    requires quote == '"' || quote == '\''
    requires forall i | 0 <= i < |inside| :: inside[i] != quote && inside[i] != '\\'
    ensures Tokens(bare + ([quote] + inside)) == [bare + inside]
  {
    PlainUnits(inside);
    BareWordRead(bare, [quote] + inside, "");
    assert "" + bare == bare;
    OpenRead(quote, Plains(inside), false, bare);
    assert inside + "" == inside && bare + inside + "" == bare + inside;
  }

  function Plains(inside: string): seq<Unit> {
    seq(|inside|, i requires 0 <= i < |inside| => Plain(inside[i]))
  }

  lemma {:induction false} PlainUnits(inside: string)
    ensures WrittenUnits(Plains(inside)) == inside && MeantUnits(Plains(inside)) == inside
  {
    if inside != "" {
      PlainUnits(inside[1..]);
      assert Plains(inside)[1..] == Plains(inside[1..]);
      assert [inside[0]] + inside[1..] == inside;
    }
  }

  /** The shortest command. */
  lemma StopIsRead()
    ensures Decode(Tokens("STOP")) == StopRequest
  {
    BareWordsRead(["STOP"]);
    DecodedExactly(["STOP"], SyncTask("", Upload, "", "", Validation(None, "")));
  }
}

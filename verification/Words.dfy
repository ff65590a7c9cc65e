/** Splitting an editor command into words (porthmos-core/src/edit/mod.rs, split_command) against
    quoting a word for a shell (porthmos-ssh/src/quote/mod.rs, shell_quote). */
module Words {
  import opened Ordered

  datatype SplitError = EndsWithBackslash | UnterminatedQuote

  datatype SplitResult = Ok(words: seq<string>) | Err(error: SplitError)

  /** The characters with the Unicode property White_Space. */
  predicate IsWhitespace(c: char) {
    var code := c as int;
    0x09 <= code <= 0x0D || code == 0x20 || code == 0x85 || code == 0xA0 || code == 0x1680
    || 0x2000 <= code <= 0x200A || code == 0x2028 || code == 0x2029 || code == 0x202F || code == 0x205F
    || code == 0x3000
  }

  /** Where the splitter stands: the word being built, whether one was begun, the open quote, and the
      words that are complete. */
  datatype Scan = Scan(current: string, inWord: bool, quote: Option<char>, words: seq<string>)

  const FRESH := Scan("", false, None, [])

  /** What reading on from a state gives. */
  ghost function Splits(text: string, s: Scan): SplitResult
    decreases |text|
  {
    if text == "" then
      if s.quote.Some? then Err(UnterminatedQuote)
      else Ok(if s.inWord then s.words + [s.current] else s.words)
    else
      var c, rest := text[0], text[1..];
      if s.quote.Some? then
        if c == s.quote.value then Splits(rest, s.(quote := None))
        else if s.quote.value == '"' && c == '\\' then
          if rest == "" then Err(EndsWithBackslash)
          else if rest[0] == '"' || rest[0] == '\\' then
            Splits(rest[1..], s.(current := s.current + [rest[0]]))
          else Splits(rest[1..], s.(current := s.current + ['\\', rest[0]]))
        else Splits(rest, s.(current := s.current + [c]))
      else if c == '\'' || c == '"' then Splits(rest, s.(quote := Some(c), inWord := true))
      else if c == '\\' then
        if rest == "" then Err(EndsWithBackslash)
        else Splits(rest[1..], s.(current := s.current + [rest[0]], inWord := true))
      else if IsWhitespace(c) then
        Splits(rest, if s.inWord then Scan("", false, None, s.words + [s.current]) else s)
      else Splits(rest, s.(current := s.current + [c], inWord := true))
  }

  /** The loop over the characters, with its four variables. */
  method SplitCommand(text: string) returns (result: SplitResult)
    ensures result == Splits(text, FRESH)
  {
    var words, current, inWord := [], "", false;
    var quote: Option<char> := None;
    var i := 0;
    assert text[0..] == text;
    while i < |text|
      invariant 0 <= i <= |text|
      invariant Splits(text[i..], Scan(current, inWord, quote, words)) == Splits(text, FRESH)
    {
      var c := text[i];
      assert text[i..][1..] == text[i + 1..];
      assert i + 1 < |text| ==> text[i + 1..][1..] == text[i + 2..];
      i := i + 1;
      if quote == Some(c) {
        quote := None;
      } else if quote == Some('"') && c == '\\' {
        if i == |text| {
          return Err(EndsWithBackslash);
        }
        var next := text[i];
        i := i + 1;
        current := current + (if next == '"' || next == '\\' then [next] else ['\\', next]);
      } else if quote.Some? {
        current := current + [c];
      } else if c == '\'' || c == '"' {
        quote := Some(c);
        inWord := true;
      } else if c == '\\' {
        if i == |text| {
          return Err(EndsWithBackslash);
        }
        current := current + [text[i]];
        i := i + 1;
        inWord := true;
      } else if IsWhitespace(c) {
        if inWord {
          words := words + [current];
          current := "";
          inWord := false;
        }
      } else {
        current := current + [c];
        inWord := true;
      }
    }
    if quote.Some? {
      return Err(UnterminatedQuote);
    }
    if inWord {
      words := words + [current];
    }
    return Ok(words);
  }

  // ----- quoting -----

  /** Every single quote replaced by `'\''`. */
  function EscapeQuotes(value: string): string {
    if value == "" then ""
    else (if value[0] == '\'' then "'\\''" else [value[0]]) + EscapeQuotes(value[1..])
  }

  function ShellQuote(value: string): string {
    "'" + EscapeQuotes(value) + "'"
  }

  function QuotedLine(words: seq<string>): string {
    if words == [] then ""
    else if |words| == 1 then ShellQuote(words[0])
    else ShellQuote(words[0]) + " " + QuotedLine(words[1..])
  }

  // ----- one gives back what the other was given -----

  /** Inside single quotes, the escaped text adds exactly the value to the current word. */
  lemma {:induction false} ReadsEscaped(value: string, rest: string, s: Scan)
    requires s.quote == Some('\'') && s.inWord
    ensures Splits(EscapeQuotes(value) + rest, s) == Splits(rest, s.(current := s.current + value))
    decreases |value|
  {
    if value == "" {
      assert EscapeQuotes(value) + rest == rest;
      assert s.current + value == s.current;
    } else {
      var tail := EscapeQuotes(value[1..]) + rest;
      var after := s.(current := s.current + [value[0]]);
      ReadsEscaped(value[1..], rest, after);
      Regroup(s.current, [value[0]], value[1..]);
      assert [value[0]] + value[1..] == value;
      if value[0] == '\'' {
        assert EscapeQuotes(value) + rest == "'\\''" + tail;
        ReadsQuoteMark(tail, s);
      } else {
        assert EscapeQuotes(value) + rest == [value[0]] + tail;
        assert ([value[0]] + tail)[1..] == tail;
      }
    }
  }

  /** Closing the quote, an escaped quote mark, and opening it again add one quote mark. */
  lemma ReadsQuoteMark(tail: string, s: Scan)
    requires s.quote == Some('\'') && s.inWord
    ensures Splits("'\\''" + tail, s) == Splits(tail, s.(current := s.current + ['\'']))
  {
    var text := "'\\''" + tail;
    assert text[0] == '\'' && text[1..] == "\\''" + tail;
    var open := s.(quote := None);
    assert ("\\''" + tail)[1..] == "''" + tail;
    assert ("''" + tail)[1..] == "'" + tail;
    assert ("'" + tail)[1..] == tail;
    var marked := open.(current := s.current + ['\''], inWord := true);
    assert Splits("\\''" + tail, open) == Splits("'" + tail, marked);
    assert Splits("'" + tail, marked) == Splits(tail, marked.(quote := Some('\'')));
  }

  /** A quoted word at the start of a word adds exactly that word. */
  lemma ReadsQuoted(value: string, rest: string, words: seq<string>)
    ensures Splits(ShellQuote(value) + rest, Scan("", false, None, words)) ==
      Splits(rest, Scan(value, true, None, words))
  {
    var start := Scan("", false, None, words);
    var text := ShellQuote(value) + rest;
    assert text[0] == '\'' && text[1..] == EscapeQuotes(value) + ("'" + rest);
    var open := start.(quote := Some('\''), inWord := true);
    assert Splits(text, start) == Splits(EscapeQuotes(value) + ("'" + rest), open);
    ReadsEscaped(value, "'" + rest, open);
    assert open.current + value == value;
    assert ("'" + rest)[1..] == rest;
  }

  ghost function Prefixed(earlier: seq<string>, result: SplitResult): SplitResult {
    if result.Ok? then Ok(earlier + result.words) else result
  }

  /** Words already collected stay in front of whatever is read later. */
  lemma {:induction false} WordsComeFirst(text: string, s: Scan, earlier: seq<string>)
    ensures Splits(text, s.(words := earlier + s.words)) == Prefixed(earlier, Splits(text, s))
    decreases |text|
  {
    var more := s.(words := earlier + s.words);
    if text == "" {
      assert earlier + s.words + [s.current] == earlier + (s.words + [s.current]);
    } else {
      var c, rest := text[0], text[1..];
      if s.quote.Some? {
        if c == s.quote.value {
          WordsComeFirst(rest, s.(quote := None), earlier);
        } else if s.quote.value == '"' && c == '\\' {
          if rest != "" {
            var added := if rest[0] == '"' || rest[0] == '\\' then [rest[0]] else ['\\', rest[0]];
            WordsComeFirst(rest[1..], s.(current := s.current + added), earlier);
          }
        } else {
          WordsComeFirst(rest, s.(current := s.current + [c]), earlier);
        }
      } else if c == '\'' || c == '"' {
        WordsComeFirst(rest, s.(quote := Some(c), inWord := true), earlier);
      } else if c == '\\' {
        if rest != "" {
          WordsComeFirst(rest[1..], s.(current := s.current + [rest[0]], inWord := true), earlier);
        }
      } else if IsWhitespace(c) {
        if s.inWord {
          var done := Scan("", false, None, s.words + [s.current]);
          WordsComeFirst(rest, done, earlier);
          assert earlier + s.words + [s.current] == earlier + (s.words + [s.current]);
        } else {
          WordsComeFirst(rest, s, earlier);
        }
      } else {
        WordsComeFirst(rest, s.(current := s.current + [c], inWord := true), earlier);
      }
    }
  }

  lemma QuotedWordSplitsOff(word: string, rest: string)
    ensures Splits(ShellQuote(word) + (" " + rest), FRESH) == Prefixed([word], Splits(rest, FRESH))
  {
    ReadsQuoted(word, " " + rest, []);
    assert (" " + rest)[1..] == rest;
    var next := Scan("", false, None, [word]);
    assert [] + [word] == [word];
    assert Splits(" " + rest, Scan(word, true, None, [])) == Splits(rest, next);
    WordsComeFirst(rest, FRESH, [word]);
    assert FRESH.(words := [word] + FRESH.words) == next;
  }

  /** Quoted words in front of any text are split off as they were, and the text is split as it
      would be alone. */
  lemma {:induction false} QuotedWordsSplitOff(words: seq<string>, text: string)
    requires words != []
    ensures Splits(QuotedLine(words) + " " + text, FRESH) == Prefixed(words, Splits(text, FRESH))
    decreases |words|
  {
    hide Splits, ShellQuote;
    var rest := if |words| == 1 then text else QuotedLine(words[1..]) + " " + text;
    assert QuotedLine(words) + " " + text == ShellQuote(words[0]) + (" " + rest);
    QuotedWordSplitsOff(words[0], rest);
    assert [words[0]] + words[1..] == words;
    if |words| > 1 {
      QuotedWordsSplitOff(words[1..], text);
      if Splits(text, FRESH).Ok? {
        var later := Splits(text, FRESH).words;
        assert [words[0]] + (words[1..] + later) == words + later;
      }
    } else {
      assert [words[0]] == words;
    }
  }

  lemma QuotedWordIsSplit(word: string)
    ensures Splits(ShellQuote(word), FRESH) == Ok([word])
  {
    ReadsQuoted(word, "", []);
    assert ShellQuote(word) + "" == ShellQuote(word);
  }

  /** Splitting the space-joined quoted words of any list gives back the list. */
  lemma {:induction false} SplitUndoesQuote(words: seq<string>)
    ensures Splits(QuotedLine(words), FRESH) == Ok(words)
    decreases |words|
  {
    if words != [] {
      var init, last := words[..|words| - 1], words[|words| - 1];
      QuotedWordIsSplit(last);
      hide Splits, ShellQuote;
      if init == [] {
        assert words == [last];
      } else {
        QuotedWordsSplitOff(init, ShellQuote(last));
        LineEndsWith(words);
        assert init + [last] == words;
      }
    }
  }

  lemma {:induction false} LineEndsWith(words: seq<string>)
    requires |words| > 1
    ensures QuotedLine(words) == QuotedLine(words[..|words| - 1]) + " " + ShellQuote(words[|words| - 1])
    decreases |words|
  {
    var init := words[..|words| - 1];
    if |words| > 2 {
      LineEndsWith(words[1..]);
      assert words[1..][..|words| - 2] == init[1..];
      assert words[1..][|words| - 2] == words[|words| - 1];
    } else {
      assert words[1..] == [words[1]];
    }
  }

  /** So quoting is injective: two lists that print alike are the same list. */
  lemma QuotedLineIsInjective(a: seq<string>, b: seq<string>)
    requires QuotedLine(a) == QuotedLine(b)
    ensures a == b
  {
    SplitUndoesQuote(a);
    SplitUndoesQuote(b);
  }

  // ----- the command line as a person reads it -----

  /** Between double quotes: a character that stands for itself, or one behind a backslash. */
  datatype Part = Plain(c: char) | Slashed(c: char)

  /** A piece of a word. */
  datatype Piece = Bare(c: char) | Escaped(c: char) | Single(text: string) | Double(parts: seq<Part>)

  /** Words with blanks before, between and after them. */
  datatype Line = Blanks(gap: string) | Word(gap: string, pieces: seq<Piece>, rest: Line)

  /** How a text breaks off: not at all, inside a quote, or behind a backslash that nothing follows. */
  datatype Tail = Complete | InSingle(text: string) | InDouble(parts: seq<Part>) | OnSlash | OnSlashInDouble(parts: seq<Part>)

  ghost predicate ArePlain(parts: seq<Part>) {
    forall i :: 0 <= i < |parts| && parts[i].Plain? ==> parts[i].c != '"' && parts[i].c != '\\'
  }

  ghost predicate IsPiece(piece: Piece) {
    match piece
    case Bare(c) => !IsWhitespace(c) && c != '\'' && c != '"' && c != '\\'
    case Escaped(_) => true
    case Single(text) => '\'' !in text
    case Double(parts) => ArePlain(parts)
  }

  ghost predicate AreBlanks(gap: string) {
    forall i :: 0 <= i < |gap| ==> IsWhitespace(gap[i])
  }

  /** At least one blank stands between two words. */
  ghost predicate IsLine(line: Line) {
    AreBlanks(line.gap) &&
    (line.Word? ==>
      && line.pieces != [] && (forall i :: 0 <= i < |line.pieces| ==> IsPiece(line.pieces[i]))
      && (line.rest.Word? ==> line.rest.gap != "") && IsLine(line.rest))
  }

  ghost predicate IsTail(tail: Tail) {
    match tail
    case InSingle(text) => '\'' !in text
    case InDouble(parts) => ArePlain(parts)
    case OnSlashInDouble(parts) => ArePlain(parts)
    case _ => true
  }

  ghost function PartText(part: Part): string {
    if part.Plain? then [part.c] else ['\\', part.c]
  }

  /** A backslash escapes a double quote and a backslash, and otherwise stands for itself. */
  ghost function PartContents(part: Part): string {
    if part.Plain? || part.c == '"' || part.c == '\\' then [part.c] else ['\\', part.c]
  }

  ghost function PartsText(parts: seq<Part>): string {
    if parts == [] then "" else PartText(parts[0]) + PartsText(parts[1..])
  }

  ghost function PartsContents(parts: seq<Part>): string {
    if parts == [] then "" else PartContents(parts[0]) + PartsContents(parts[1..])
  }

  ghost function PieceText(piece: Piece): string {
    match piece
    case Bare(c) => [c]
    case Escaped(c) => ['\\', c]
    case Single(text) => "'" + text + "'"
    case Double(parts) => "\"" + PartsText(parts) + "\""
  }

  ghost function PieceContents(piece: Piece): string {
    match piece
    case Bare(c) => [c]
    case Escaped(c) => [c]
    case Single(text) => text
    case Double(parts) => PartsContents(parts)
  }

  ghost function PiecesText(pieces: seq<Piece>): string {
    if pieces == [] then "" else PieceText(pieces[0]) + PiecesText(pieces[1..])
  }

  ghost function PiecesContents(pieces: seq<Piece>): string {
    if pieces == [] then "" else PieceContents(pieces[0]) + PiecesContents(pieces[1..])
  }

  ghost function LineText(line: Line): string {
    if line.Blanks? then line.gap else line.gap + PiecesText(line.pieces) + LineText(line.rest)
  }

  ghost function LineWords(line: Line): seq<string> {
    if line.Blanks? then [] else [PiecesContents(line.pieces)] + LineWords(line.rest)
  }

  ghost function TailText(tail: Tail): string {
    match tail
    case Complete => ""
    case InSingle(text) => "'" + text
    case InDouble(parts) => "\"" + PartsText(parts)
    case OnSlash => "\\"
    case OnSlashInDouble(parts) => "\"" + PartsText(parts) + "\\"
  }

  ghost function Reading(line: Line, tail: Tail): SplitResult {
    if tail.Complete? then Ok(LineWords(line))
    else if tail.OnSlash? || tail.OnSlashInDouble? then Err(EndsWithBackslash)
    else Err(UnterminatedQuote)
  }

  lemma {:induction false} ReadsBlanks(gap: string, rest: string, words: seq<string>)
    requires AreBlanks(gap)
    ensures Splits(gap + rest, Scan("", false, None, words)) == Splits(rest, Scan("", false, None, words))
    decreases |gap|
  {
    if gap == "" {
      assert gap + rest == rest;
    } else {
      assert (gap + rest)[1..] == gap[1..] + rest;
      ReadsBlanks(gap[1..], rest, words);
    }
  }

  lemma {:induction false} ReadsSingle(text: string, rest: string, s: Scan)
    requires s.quote == Some('\'') && '\'' !in text
    ensures Splits(text + rest, s) == Splits(rest, s.(current := s.current + text))
    decreases |text|
  {
    if text == "" {
      assert text + rest == rest;
      assert s.current + text == s.current;
    } else {
      assert (text + rest)[1..] == text[1..] + rest;
      var after := s.(current := s.current + [text[0]]);
      ReadsSingle(text[1..], rest, after);
      assert after.current + text[1..] == s.current + text;
    }
  }

  lemma {:induction false} ReadsParts(parts: seq<Part>, rest: string, s: Scan)
    requires s.quote == Some('"') && ArePlain(parts)
    ensures Splits(PartsText(parts) + rest, s) == Splits(rest, s.(current := s.current + PartsContents(parts)))
    decreases |parts|
  {
    if parts == [] {
      assert PartsText(parts) + rest == rest;
      assert s.current + PartsContents(parts) == s.current;
    } else {
      var more := PartsText(parts[1..]) + rest;
      ReadsPart(parts[0], more, s);
      hide Splits, PartText, PartContents;
      var after := s.(current := s.current + PartContents(parts[0]));
      ReadsParts(parts[1..], rest, after);
      Regroup(s.current, PartContents(parts[0]), PartsContents(parts[1..]));
      Regroup(PartText(parts[0]), PartsText(parts[1..]), rest);
    }
  }

  lemma Regroup(a: string, b: string, c: string)
    ensures (a + b) + c == a + (b + c)
  {
  }

  lemma ReadsPart(part: Part, more: string, s: Scan)
    requires s.quote == Some('"') && (part.Plain? ==> part.c != '"' && part.c != '\\')
    ensures Splits(PartText(part) + more, s) == Splits(more, s.(current := s.current + PartContents(part)))
  {
    if part.Plain? {
      assert ([part.c] + more)[1..] == more;
    } else {
      assert (['\\', part.c] + more)[1..] == [part.c] + more;
      assert ([part.c] + more)[1..] == more;
    }
  }

  /** A piece adds its contents to the word. */
  lemma ReadsPiece(piece: Piece, rest: string, s: Scan)
    requires s.quote == None && IsPiece(piece)
    ensures Splits(PieceText(piece) + rest, s) ==
      Splits(rest, s.(current := s.current + PieceContents(piece), inWord := true))
  {
    match piece {
      case Bare(c) => assert ([c] + rest)[1..] == rest;
      case Escaped(c) =>
        assert (['\\', c] + rest)[1..] == [c] + rest;
        assert ([c] + rest)[1..] == rest;
      case Single(text) =>
        var inner := s.(quote := Some('\''), inWord := true);
        assert ("'" + text + "'" + rest)[1..] == text + ("'" + rest);
        ReadsSingle(text, "'" + rest, inner);
        assert ("'" + rest)[1..] == rest;
      case Double(parts) =>
        var inner := s.(quote := Some('"'), inWord := true);
        assert ("\"" + PartsText(parts) + "\"" + rest)[1..] == PartsText(parts) + ("\"" + rest);
        ReadsParts(parts, "\"" + rest, inner);
        assert ("\"" + rest)[1..] == rest;
    }
  }

  lemma {:induction false} ReadsPieces(pieces: seq<Piece>, rest: string, s: Scan)
    requires s.quote == None && forall i :: 0 <= i < |pieces| ==> IsPiece(pieces[i])
    ensures Splits(PiecesText(pieces) + rest, s) ==
      Splits(rest, s.(current := s.current + PiecesContents(pieces), inWord := s.inWord || pieces != []))
    decreases |pieces|
  {
    hide Splits, PieceText, PieceContents, IsPiece;
    if pieces == [] {
      assert PiecesText(pieces) + rest == rest;
      assert s.current + PiecesContents(pieces) == s.current;
    } else {
      var more := PiecesText(pieces[1..]) + rest;
      Regroup(PieceText(pieces[0]), PiecesText(pieces[1..]), rest);
      Regroup(s.current, PieceContents(pieces[0]), PiecesContents(pieces[1..]));
      ReadsPiece(pieces[0], more, s);
      var after := s.(current := s.current + PieceContents(pieces[0]), inWord := true);
      ReadsPieces(pieces[1..], rest, after);
    }
  }

  /** Where a text breaks off decides the error; where it does not, the word at hand is the last. */
  lemma ReadsTail(tail: Tail, s: Scan)
    requires s.quote == None && IsTail(tail)
    ensures Splits(TailText(tail), s) ==
      if tail.Complete? then Ok(if s.inWord then s.words + [s.current] else s.words) else Reading(Blanks(""), tail)
  {
    match tail {
      case Complete =>
      case OnSlash =>
      case InSingle(text) =>
        assert TailText(tail)[1..] == text;
        assert text + "" == text;
        ReadsSingle(text, "", s.(quote := Some('\''), inWord := true));
      case InDouble(parts) =>
        assert TailText(tail)[1..] == PartsText(parts);
        assert PartsText(parts) + "" == PartsText(parts);
        ReadsParts(parts, "", s.(quote := Some('"'), inWord := true));
      case OnSlashInDouble(parts) =>
        assert TailText(tail)[1..] == PartsText(parts) + "\\";
        ReadsParts(parts, "\\", s.(quote := Some('"'), inWord := true));
    }
  }

  /** The next word is complete once a blank or the end follows. */
  lemma WordEnds(line: Line, tail: Tail, word: string, words: seq<string>)
    requires IsLine(line) && IsTail(tail) && (line.Word? ==> line.gap != "")
    ensures var text := LineText(line) + TailText(tail);
      Splits(text, Scan(word, true, None, words)) == Splits(text, Scan("", false, None, words + [word]))
      || (tail != Complete && LineText(line) == "")
  {
    var text := LineText(line) + TailText(tail);
    if line.gap == "" {
      assert text == TailText(tail);
    } else {
      assert text[0] == line.gap[0];
    }
  }

  /** A command line of words and blanks is split into the contents of its words, and one that breaks off
      is refused for the way it does. */
  lemma {:induction false} LineIsSplit(line: Line, tail: Tail, words: seq<string>)
    requires IsLine(line) && IsTail(tail)
    ensures Splits(LineText(line) + TailText(tail), Scan("", false, None, words)) == Prefixed(words, Reading(line, tail))
    decreases line
  {
    hide Splits, IsTail, PiecesText, PiecesContents, IsPiece;
    var start := Scan("", false, None, words);
    if line.Blanks? {
      ReadsBlanks(line.gap, TailText(tail), words);
      ReadsTail(tail, start);
    } else {
      var more := LineText(line.rest) + TailText(tail);
      assert LineText(line) + TailText(tail) == line.gap + (PiecesText(line.pieces) + more);
      ReadsBlanks(line.gap, PiecesText(line.pieces) + more, words);
      ReadsPieces(line.pieces, more, start);
      var word := PiecesContents(line.pieces);
      assert "" + word == word;
      WordEnds(line.rest, tail, word, words);
      LineIsSplit(line.rest, tail, words + [word]);
      if tail != Complete && LineText(line.rest) == "" {
        assert more == TailText(tail);
        ReadsTail(tail, Scan(word, true, None, words));
      }
      assert (words + [word]) + LineWords(line.rest) == words + ([word] + LineWords(line.rest));
    }
  }

  // ----- and every text is such a line -----

  lemma {:induction false} SingleCloses(text: string) returns (inner: string, closes: bool, rest: string)
    ensures '\'' !in inner && text == inner + (if closes then "'" + rest else "") && (!closes ==> rest == "")
    decreases |text|
  {
    if text == "" {
      return "", false, "";
    } else if text[0] == '\'' {
      return "", true, text[1..];
    }
    inner, closes, rest := SingleCloses(text[1..]);
    inner := [text[0]] + inner;
  }

  /** What follows an opening double quote: up to the closing one, to the end, or to a backslash there. */
  lemma {:induction false} DoubleCloses(text: string) returns (parts: seq<Part>, after: string)
    ensures ArePlain(parts) && text == PartsText(parts) + after
    ensures after == "" || after == "\\" || after[0] == '"'
    decreases |text|
  {
    if text == "" || text == "\\" || text[0] == '"' {
      return [], text;
    }
    var part, rest;
    if text[0] == '\\' {
      part, rest := Slashed(text[1]), text[2..];
    } else {
      part, rest := Plain(text[0]), text[1..];
    }
    parts, after := DoubleCloses(rest);
    assert ([part] + parts)[1..] == parts;
    parts := [part] + parts;
  }

  ghost function WithBlank(c: char, line: Line): Line {
    line.(gap := [c] + line.gap)
  }

  ghost function WithPiece(piece: Piece, line: Line): Line {
    if line.Word? && line.gap == "" then line.(pieces := [piece] + line.pieces) else Word("", [piece], line)
  }

  lemma BlankInFront(c: char, line: Line)
    requires IsWhitespace(c) && IsLine(line)
    ensures IsLine(WithBlank(c, line)) && LineText(WithBlank(c, line)) == [c] + LineText(line)
  {
  }

  lemma PieceInFront(piece: Piece, line: Line)
    requires IsPiece(piece) && IsLine(line)
    ensures IsLine(WithPiece(piece, line)) && LineText(WithPiece(piece, line)) == PieceText(piece) + LineText(line)
  {
    hide IsPiece, PieceText;
    var pieces := if line.Word? && line.gap == "" then line.pieces else [];
    assert ([piece] + pieces)[1..] == pieces;
    if line.Word? && line.gap == "" {
      WordText(line);
      WordText(WithPiece(piece, line));
      Regroup(PieceText(piece), PiecesText(pieces), LineText(line.rest));
    } else {
      WordText(WithPiece(piece, line));
    }
  }

  lemma WordText(line: Line)
    requires line.Word? && line.gap == ""
    ensures LineText(line) == PiecesText(line.pieces) + LineText(line.rest)
  {
    hide PiecesText;
  }

  lemma {:induction false} EveryTextIsALine(text: string) returns (line: Line, tail: Tail)
    ensures IsLine(line) && IsTail(tail) && text == LineText(line) + TailText(tail)
    decreases |text|
  {
    hide IsLine, IsPiece, LineText, PieceText, IsTail, TailText, PartsText;
    line, tail := NothingYet();
    if text == "" {
    } else if IsWhitespace(text[0]) {
      line, tail := EveryTextIsALine(text[1..]);
      BlankInFront(text[0], line);
      line := WithBlank(text[0], line);
    } else {
      var piece, rest, last := FirstPiece(text);
      if piece.None? {
        tail := last;
      } else {
        line, tail := EveryTextIsALine(rest);
        PieceInFront(piece.value, line);
        line := WithPiece(piece.value, line);
      }
    }
  }

  lemma NothingYet() returns (line: Line, tail: Tail)
    ensures IsLine(line) && IsTail(tail) && LineText(line) == "" && TailText(tail) == ""
  {
    line, tail := Blanks(""), Complete;
  }

  /** A text that does not begin with a blank begins with a piece, or breaks off before one is complete. */
  lemma FirstPiece(text: string) returns (piece: Option<Piece>, rest: string, tail: Tail)
    requires text != "" && !IsWhitespace(text[0])
    ensures piece.Some? ==> IsPiece(piece.value) && text == PieceText(piece.value) + rest && |rest| < |text|
    ensures piece.None? ==> IsTail(tail) && text == TailText(tail)
  {
    piece, rest, tail := None, "", OnSlash;
    if text[0] == '\'' {
      piece, rest, tail := FirstSingle(text);
    } else if text[0] == '"' {
      piece, rest, tail := FirstDouble(text);
    } else if text[0] != '\\' {
      piece, rest := Some(Bare(text[0])), text[1..];
    } else if |text| > 1 {
      piece, rest := Some(Escaped(text[1])), text[2..];
    }
  }

  lemma FirstSingle(text: string) returns (piece: Option<Piece>, rest: string, tail: Tail)
    requires text != "" && text[0] == '\''
    ensures piece.Some? ==> IsPiece(piece.value) && text == PieceText(piece.value) + rest && |rest| < |text|
    ensures piece.None? ==> IsTail(tail) && text == TailText(tail)
  {
    var inner, closes, after := SingleCloses(text[1..]);
    assert text == "'" + text[1..];
    if closes {
      piece, rest, tail := Some(Single(inner)), after, Complete;
      Regroup("'" + inner, "'", after);
      Regroup("'", inner, "'" + after);
    } else {
      piece, rest, tail := None, "", InSingle(inner);
    }
  }

  lemma FirstDouble(text: string) returns (piece: Option<Piece>, rest: string, tail: Tail)
    requires text != "" && text[0] == '"'
    ensures piece.Some? ==> IsPiece(piece.value) && text == PieceText(piece.value) + rest && |rest| < |text|
    ensures piece.None? ==> IsTail(tail) && text == TailText(tail)
  {
    hide ArePlain, PartsText;
    var parts, after := DoubleCloses(text[1..]);
    assert text == "\"" + text[1..];
    Regroup("\"", PartsText(parts), after);
    piece, rest := None, "";
    if after == "" {
      tail := InDouble(parts);
    } else if after == "\\" {
      tail := OnSlashInDouble(parts);
    } else {
      piece, rest, tail := Some(Double(parts)), after[1..], Complete;
      Regroup("\"" + PartsText(parts), "\"", rest);
    }
  }

  /** The text is this line, broken off like this. */
  ghost predicate Reads(text: string, line: Line, tail: Tail) {
    IsLine(line) && IsTail(tail) && text == LineText(line) + TailText(tail)
  }

  /** Splitting gives words exactly for the texts that are lines of words, and then their contents; and
      each error exactly for the texts that break off in its way. */
  lemma SplitsAsRead(text: string, words: seq<string>)
    ensures Splits(text, FRESH) == Ok(words) <==> exists line :: Reads(text, line, Complete) && LineWords(line) == words
    ensures Splits(text, FRESH) == Err(EndsWithBackslash) <==>
      exists line, tail :: Reads(text, line, tail) && (tail.OnSlash? || tail.OnSlashInDouble?)
    ensures Splits(text, FRESH) == Err(UnterminatedQuote) <==>
      exists line, tail :: Reads(text, line, tail) && (tail.InSingle? || tail.InDouble?)
  {
    hide Splits, IsLine, IsTail, LineText, TailText, LineWords;
    var line, tail := EveryTextIsALine(text);
    assert Reads(text, line, tail);
    forall line, tail | Reads(text, line, tail) ensures Splits(text, FRESH) == Reading(line, tail) {
      LineIsSplit(line, tail, []);
      assert [] + LineWords(line) == LineWords(line);
    }
  }
}

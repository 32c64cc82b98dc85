// The grammar of the command field: every input has exactly this form, and what parsing makes of it.
module CommandGrammar {
  import opened CommandLine

  /** A piece of an argument. */
  datatype Segment = Bare(text: string) | InSingle(text: string) | InDouble(text: string)

  /** Bare text has no spaces and no quotes, quoted text just not its own quote. */
  predicate IsSegment(g: Segment) {
    match g
    case Bare(text) => ' ' !in text && '\'' !in text && '\"' !in text
    case InSingle(text) => '\'' !in text
    case InDouble(text) => '\"' !in text
  }

  /** The quote that opens the segment, and what is typed up to the quote that closes it. */
  function Opening(g: Segment): string {
    match g
    case Bare(text) => text
    case InSingle(text) => "'" + text
    case InDouble(text) => "\"" + text
  }

  function Typed(g: Segment): string {
    match g
    case Bare(text) => text
    case InSingle(text) => "'" + text + "'"
    case InDouble(text) => "\"" + text + "\""
  }

  predicate AreSegments(gs: seq<Segment>) {
    forall k :: 0 <= k < |gs| ==> IsSegment(gs[k])
  }

  function TypedAll(gs: seq<Segment>): string {
    if gs == [] then "" else TypedAll(gs[..|gs| - 1]) + Typed(gs[|gs| - 1])
  }

  /** What the segments stand for: their texts, one after the other. */
  function Content(gs: seq<Segment>): string {
    if gs == [] then "" else Content(gs[..|gs| - 1]) + gs[|gs| - 1].text
  }

  /** An argument and the number of spaces before it. */
  datatype Word = Word(gap: nat, segments: seq<Segment>)

  function Spaces(n: nat): string {
    seq(n, _ => ' ')
  }

  /** Any spaces before the first argument, at least one before every other. */
  predicate AreWords(words: seq<Word>) {
    && (forall k :: 0 <= k < |words| ==> AreSegments(words[k].segments))
    && forall k :: 1 <= k < |words| ==> words[k].gap >= 1
  }

  function TypedWords(words: seq<Word>): string {
    if words == [] then ""
    else
      var last := words[|words| - 1];
      TypedWords(words[..|words| - 1]) + Spaces(last.gap) + TypedAll(last.segments)
  }

  /** The contents of the arguments, without the empty ones. */
  function Contents(words: seq<Word>): seq<string> {
    if words == [] then []
    else AddNonEmpty(Contents(words[..|words| - 1]), Content(words[|words| - 1].segments))
  }

  function AddNonEmpty(args: seq<string>, arg: string): seq<string> {
    if arg == "" then args else args + [arg]
  }

  // ---------- Scanning what was typed ----------

  lemma Assoc<T>(a: seq<T>, b: seq<T>, c: seq<T>)
    ensures a + b + c == a + (b + c)
  {
  }

  predicate Outside(s: Scan) {
    !s.inSingle && !s.inDouble
  }

  lemma {:induction false} ScanInSingle(s: Scan, text: string)
    requires s.inSingle && !s.inDouble && '\'' !in text
    ensures ScanAll(s, text) == s.(current := s.current + text)
  {
    if text == "" {
      assert s.current + text == s.current;
    } else {
      var n := |text| - 1;
      ScanInSingle(s, text[..n]);
      assert text == text[..n] + [text[n]];
      assert s.current + text == (s.current + text[..n]) + [text[n]];
    }
  }

  lemma {:induction false} ScanInDouble(s: Scan, text: string)
    requires s.inDouble && !s.inSingle && '\"' !in text
    ensures ScanAll(s, text) == s.(current := s.current + text)
  {
    if text == "" {
      assert s.current + text == s.current;
    } else {
      var n := |text| - 1;
      ScanInDouble(s, text[..n]);
      assert text == text[..n] + [text[n]];
      assert s.current + text == (s.current + text[..n]) + [text[n]];
    }
  }

  lemma ScanOpening(s: Scan, g: Segment)
    requires Outside(s) && IsSegment(g)
    ensures ScanAll(s, Opening(g)) ==
            s.(current := s.current + g.text, inSingle := g.InSingle?, inDouble := g.InDouble?)
  {
    match g
    case Bare(text) => ScanPlain(s, text);
    case InSingle(text) =>
      ScanConcat(s, "'", text);
      ScanOne(s, '\'');
      ScanInSingle(s.(inSingle := true), text);
    case InDouble(text) =>
      ScanConcat(s, "\"", text);
      ScanOne(s, '\"');
      ScanInDouble(s.(inDouble := true), text);
  }

  lemma ScanSegment(s: Scan, g: Segment)
    requires Outside(s) && IsSegment(g)
    ensures ScanAll(s, Typed(g)) == s.(current := s.current + g.text)
  {
    ScanOpening(s, g);
    match g
    case Bare(text) =>
    case InSingle(text) =>
      ScanConcat(s, Opening(g), "'");
      ScanOne(ScanAll(s, Opening(g)), '\'');
    case InDouble(text) =>
      ScanConcat(s, Opening(g), "\"");
      ScanOne(ScanAll(s, Opening(g)), '\"');
  }

  lemma {:induction false} ScanSegments(s: Scan, gs: seq<Segment>)
    requires Outside(s) && AreSegments(gs)
    ensures ScanAll(s, TypedAll(gs)) == s.(current := s.current + Content(gs))
  {
    if gs == [] {
      assert s.current + Content(gs) == s.current;
    } else {
      var n := |gs| - 1;
      ScanSegments(s, gs[..n]);
      ScanConcat(s, TypedAll(gs[..n]), Typed(gs[n]));
      ScanSegment(s.(current := s.current + Content(gs[..n])), gs[n]);
      Assoc(s.current, Content(gs[..n]), gs[n].text);
    }
  }

  /** Spaces end the current argument, however many they are. */
  lemma {:induction false} ScanSpaces(s: Scan, n: nat)
    requires Outside(s)
    ensures ScanAll(s, Spaces(n)) == if n == 0 then s else Scan(Finish(s), "", false, false)
  {
    if n > 0 {
      ScanSpaces(s, n - 1);
      assert Spaces(n)[..n - 1] == Spaces(n - 1);
    }
  }

  lemma ScanWord(s: Scan, w: Word)
    requires Outside(s) && AreSegments(w.segments) && (w.gap >= 1 || s == START)
    ensures ScanAll(s, Spaces(w.gap) + TypedAll(w.segments)) == Scan(Finish(s), Content(w.segments), false, false)
  {
    ScanConcat(s, Spaces(w.gap), TypedAll(w.segments));
    ScanSpaces(s, w.gap);
    ScanSegments(Scan(Finish(s), "", false, false), w.segments);
    assert "" + Content(w.segments) == Content(w.segments);
  }

  lemma {:induction false} ScanWords(words: seq<Word>)
    requires AreWords(words)
    ensures var s := ScanAll(START, TypedWords(words));
            Outside(s) && Finish(s) == Contents(words) && (words == [] ==> s == START)
  {
    if words != [] {
      var n := |words| - 1;
      var s := ScanAll(START, TypedWords(words[..n]));
      ScanWords(words[..n]);
      ScanConcat(START, TypedWords(words[..n]), Spaces(words[n].gap) + TypedAll(words[n].segments));
      ScanWord(s, words[n]);
      Assoc(TypedWords(words[..n]), Spaces(words[n].gap), TypedAll(words[n].segments));
    }
  }

  // ---------- What parsing yields ----------

  /** Words with any spaces around them parse to their contents: quoted text of any length, spaces and
      the other quote included, stays in one argument, and empty arguments vanish. */
  lemma WordsParse(words: seq<Word>, trailing: nat)
    requires AreWords(words)
    ensures Parse(TypedWords(words) + Spaces(trailing)) == Contents(words)
  {
    ScanWords(words);
    ScanConcat(START, TypedWords(words), Spaces(trailing));
    ScanSpaces(ScanAll(START, TypedWords(words)), trailing);
  }

  /** A quote that is never closed takes everything up to the end of the input into the last argument. */
  lemma UnclosedQuoteParses(words: seq<Word>, last: Word, open: Segment)
    requires AreWords(words + [last]) && IsSegment(open) && !open.Bare?
    ensures Parse(TypedWords(words + [last]) + Opening(open)) ==
            AddNonEmpty(Contents(words), Content(last.segments) + open.text)
  {
    var all := words + [last];
    assert all[..|words|] == words && all[|words|] == last;
    assert AreWords(words) by {
      forall k | 0 <= k < |words| ensures AreSegments(words[k].segments) && (k >= 1 ==> words[k].gap >= 1) {
        assert words[k] == all[k];
      }
    }
    ScanWords(words);
    var s := ScanAll(START, TypedWords(words));
    var typed := Spaces(last.gap) + TypedAll(last.segments);
    ScanConcat(START, TypedWords(words), typed);
    ScanWord(s, last);
    Assoc(TypedWords(words), Spaces(last.gap), TypedAll(last.segments));
    ScanConcat(START, TypedWords(all), Opening(open));
    ScanOpening(Scan(Finish(s), Content(last.segments), false, false), open);
  }

  // ---------- Every input has this form ----------

  /** Words followed by spaces, or words of which the last ends in a quote that is not closed. */
  datatype Line = Closed(words: seq<Word>, trailing: nat) | Unclosed(words: seq<Word>, last: Word, open: Segment)

  predicate IsLine(line: Line) {
    match line
    case Closed(words, _) => AreWords(words)
    case Unclosed(words, last, open) => AreWords(words + [last]) && IsSegment(open) && !open.Bare?
  }

  function TypedLine(line: Line): string {
    match line
    case Closed(words, trailing) => TypedWords(words) + Spaces(trailing)
    case Unclosed(words, last, open) => TypedWords(words + [last]) + Opening(open)
  }

  function Arguments(line: Line): seq<string> {
    match line
    case Closed(words, _) => Contents(words)
    case Unclosed(words, last, open) => AddNonEmpty(Contents(words), Content(last.segments) + open.text)
  }

  lemma LineParses(line: Line)
    requires IsLine(line)
    ensures Parse(TypedLine(line)) == Arguments(line)
  {
    match line
    case Closed(words, trailing) => WordsParse(words, trailing);
    case Unclosed(words, last, open) => UnclosedQuoteParses(words, last, open);
  }

  lemma TypedSnoc(words: seq<Word>, last: Word)
    ensures TypedWords(words + [last]) == TypedWords(words) + Spaces(last.gap) + TypedAll(last.segments)
  {
    assert (words + [last])[..|words|] == words;
  }

  lemma SegmentSnoc(gs: seq<Segment>, g: Segment)
    ensures TypedAll(gs + [g]) == TypedAll(gs) + Typed(g)
  {
    assert (gs + [g])[..|gs|] == gs;
  }

  lemma WordsSnoc(words: seq<Word>, last: Word)
    requires AreWords(words) && AreSegments(last.segments) && (words == [] || last.gap >= 1)
    ensures AreWords(words + [last])
  {
  }

  /** One more segment at the end of the last word. */
  lemma MoreSegments(words: seq<Word>, last: Word, g: Segment) returns (more: Word)
    requires AreWords(words + [last]) && IsSegment(g)
    ensures AreWords(words + [more])
    ensures TypedWords(words + [more]) == TypedWords(words + [last]) + Typed(g)
  {
    more := Word(last.gap, last.segments + [g]);
    var all, longer := words + [last], words + [more];
    assert all[|words|] == last && longer[|words|] == more;
    forall k | 0 <= k < |longer| ensures AreSegments(longer[k].segments) && longer[k].gap == all[k].gap {
      assert AreSegments(all[k].segments);
    }
    SegmentSnoc(last.segments, g);
    TypedSnoc(words, last);
    TypedSnoc(words, more);
    Assoc(TypedWords(words) + Spaces(last.gap), TypedAll(last.segments), Typed(g));
  }

  /** A character after an open quote. */
  lemma ExtendUnclosed(line: Line, ch: char) returns (longer: Line)
    requires line.Unclosed? && IsLine(line)
    ensures IsLine(longer) && TypedLine(longer) == TypedLine(line) + [ch]
  {
    var Unclosed(words, last, open) := line;
    var typed := TypedWords(words + [last]);
    Assoc(typed, Opening(open), [ch]);
    if (open.InSingle? && ch == '\'') || (open.InDouble? && ch == '\"') {
      var closed := MoreSegments(words, last, open);
      longer := Closed(words + [closed], 0);
      assert Typed(open) == Opening(open) + [ch];
    } else {
      var more := if open.InSingle? then InSingle(open.text + [ch]) else InDouble(open.text + [ch]);
      longer := Unclosed(words, last, more);
      assert Opening(more) == Opening(open) + [ch];
    }
  }

  /** The word a character that is not a space goes to: the last one, or a new one after the spaces. */
  lemma LastWord(line: Line) returns (words: seq<Word>, last: Word)
    requires line.Closed? && IsLine(line)
    ensures AreWords(words + [last]) && TypedWords(words + [last]) == TypedLine(line)
  {
    if line.trailing > 0 || line.words == [] {
      words, last := line.words, Word(line.trailing, []);
      WordsSnoc(words, last);
      TypedSnoc(words, last);
    } else {
      var n := |line.words| - 1;
      words, last := line.words[..n], line.words[n];
      assert line.words == words + [last];
      assert Spaces(0) == "";
    }
  }

  lemma ExtendClosed(line: Line, ch: char) returns (longer: Line)
    requires line.Closed? && IsLine(line)
    ensures IsLine(longer) && TypedLine(longer) == TypedLine(line) + [ch]
  {
    if ch == ' ' {
      longer := Closed(line.words, line.trailing + 1);
      assert Spaces(line.trailing + 1) == Spaces(line.trailing) + [' '];
      Assoc(TypedWords(line.words), Spaces(line.trailing), [' ']);
    } else {
      var words, last := LastWord(line);
      if ch == '\'' || ch == '\"' {
        var open := if ch == '\'' then InSingle("") else InDouble("");
        longer := Unclosed(words, last, open);
        assert Opening(open) == [ch];
      } else {
        var longest := MoreSegments(words, last, Bare([ch]));
        longer := Closed(words + [longest], 0);
        assert Typed(Bare([ch])) + Spaces(0) == [ch];
      }
    }
  }

  /** This line is a way to read the input. */
  predicate Reads(line: Line, input: string) {
    IsLine(line) && TypedLine(line) == input
  }

  lemma Extend(line: Line, front: string, ch: char) returns (longer: Line)
    requires Reads(line, front)
    ensures Reads(longer, front + [ch])
  {
    if line.Closed? {
      longer := ExtendClosed(line, ch);
    } else {
      longer := ExtendUnclosed(line, ch);
    }
  }

  lemma EmptyLine()
    ensures Reads(Closed([], 0), "")
  {
  }

  lemma SplitLast(input: string) returns (front: string, ch: char)
    requires input != ""
    ensures front + [ch] == input && |front| < |input|
  {
    var n := |input| - 1;
    front, ch := input[..n], input[n];
  }

  lemma {:induction false} LineOf(input: string) returns (line: Line)
    ensures Reads(line, input)
    decreases |input|
  {
    if input == "" {
      EmptyLine();
      line := Closed([], 0);
    } else {
      var front, ch := SplitLast(input);
      var shorter := LineOf(front);
      line := Extend(shorter, front, ch);
    }
  }

  /** Whatever is typed is such a line, so this says what parsing yields on every input. */
  lemma EveryInputIsALine(input: string) returns (line: Line)
    ensures IsLine(line) && TypedLine(line) == input
    ensures Parse(input) == Arguments(line)
  {
    line := LineOf(input);
    LineParses(line);
  }

  // ---------- What the form is filled with ----------

  /** The arguments as words, one space between them. */
  function WordsOf(args: seq<string>): seq<Word> {
    seq(|args|, k requires 0 <= k < |args| => Word(if k == 0 then 0 else 1, [Bare(args[k])]))
  }

  lemma TypedBare(text: string)
    ensures TypedAll([Bare(text)]) == text
  {
    assert [Bare(text)][..0] == [];
    assert TypedAll([]) + text == text;
  }

  lemma FewSpaces()
    ensures Spaces(0) == "" && Spaces(1) == [SPACE]
  {
  }

  /** Filling the field types the arguments with exactly one space between them and nothing else. */
  lemma {:induction false} JoinTypesWords(args: seq<string>)
    ensures Join(args) == TypedWords(WordsOf(args))
  {
    FewSpaces();
    if args != [] {
      var n := |args| - 1;
      assert WordsOf(args)[..n] == WordsOf(args[..n]);
      TypedBare(args[n]);
      JoinTypesWords(args[..n]);
      if n == 0 {
        assert TypedWords(WordsOf(args)) == "" + "" + args[0];
      }
    }
  }
}

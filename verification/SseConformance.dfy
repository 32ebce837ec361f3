/** What the event-stream reader owes the HTML Living Standard: it undoes the
    serialiser of section 9.2.5, and it agrees with the line-by-line
    interpretation of section 9.2.6 on exactly the lines it reads alike. */
module SseConformance {
  import opened Wrappers
  import opened Text
  import opened SseStream

  // ---------------------------------------------------- lines instead of blocks

  datatype LineState<J> = LineState(fields: Fields, out: Delivery<J>)

  /** One line: a blank one dispatches what is pending, any other is a field. */
  function Line<J>(st: LineState<J>, line: string, read: (Fields, string) -> Fields, parse: string -> Option<J>)
    : LineState<J>
  {
    if line == "" then LineState(NO_FIELDS, After(st.out, Dispatch(st.fields, parse)))
    else st.(fields := read(st.fields, line))
  }

  function Interpret<J>(lines: seq<string>, read: (Fields, string) -> Fields, parse: string -> Option<J>): LineState<J>
  {
    if lines == [] then LineState(NO_FIELDS, Delivery([], true))
    else Line(Interpret(Init(lines), read, parse), Last(lines), read, parse)
  }

  lemma InterpretNext<J>(lines: seq<string>, line: string, read: (Fields, string) -> Fields, parse: string -> Option<J>)
    ensures Interpret(lines + [line], read, parse) == Line(Interpret(lines, read, parse), line, read, parse)
  {
    assert Init(lines + [line]) == lines;
  }

  /** Blank lines can only open a block: the blank line that ends it is cut off. */
  predicate BlockShaped(lines: seq<string>) {
    forall k :: 0 < k < |lines| ==> lines[k] != ""
  }

  /** A block read line by line dispatches nothing and gathers what `ReadLines` gathers. */
  lemma {:induction false} InterpretBlock<J>(before: seq<string>, lines: seq<string>, parse: string -> Option<J>)
    requires Interpret(before, ReadLine, parse).fields == NO_FIELDS
    requires BlockShaped(lines)
    ensures Interpret(before + lines, ReadLine, parse)
         == LineState(ReadLines(lines), Interpret(before, ReadLine, parse).out)
  {
    if lines == [] {
      assert before + lines == before;
    } else {
      InterpretBlock(before, Init(lines), parse);
      assert before + lines == before + Init(lines) + [Last(lines)];
      InterpretNext(before + Init(lines), Last(lines), ReadLine, parse);
      if Last(lines) == "" {
        assert Init(lines) == [] && ReadLines(lines) == NO_FIELDS;
      }
    }
  }

  /** The lines of a sequence of blocks, each closed by a blank line. */
  function BlockLines(parts: seq<string>): seq<string> {
    if parts == [] then [] else Split(parts[0], LF) + [""] + BlockLines(parts[1..])
  }

  lemma {:induction false} BlockLinesNext(parts: seq<string>, part: string)
    ensures BlockLines(parts + [part]) == BlockLines(parts) + Split(part, LF) + [""]
  {
    hide Split;
    if parts == [] {
      assert [part][1..] == [];
    } else {
      assert (parts + [part])[1..] == parts[1..] + [part];
      BlockLinesNext(parts[1..], part);
    }
  }

  lemma {:induction false} InterpretBlocks<J>(parts: seq<string>, parse: string -> Option<J>)
    requires forall p <- parts :: BlockShaped(Split(p, LF))
    ensures Interpret(BlockLines(parts), ReadLine, parse) == LineState(NO_FIELDS, Deliver(parts, parse))
  {
    if parts != [] {
      hide Split, ReadLine, Dispatch;
      var before, lines := BlockLines(Init(parts)), Split(Last(parts), LF);
      InterpretBlocks(Init(parts), parse);
      InterpretBlock(before, lines, parse);
      InterpretNext(before + lines, "", ReadLine, parse);
      assert parts == Init(parts) + [Last(parts)];
      BlockLinesNext(Init(parts), Last(parts));
    }
  }

  // -------------------------------------- cutting at blank lines gives such blocks

  lemma {:induction false} SplitAtChar(a: string, c: char, b: string)
    ensures Split(a + [c] + b, [c]) == Split(a, [c]) + Split(b, [c])
    decreases |a|
  {
    hide Split, IndexOf;
    SplitPiecesLack(a, c);
    JoinSplit(a, [c]);
    if Contains(a, [c]) {
      SplitStep(a, [c]);
      var i := IndexOf(a, [c]);
      var head, rest := a[..i], a[i + 1..];
      SplitAtChar(rest, c, b);
      assert head in Split(a, [c]);
      SplitFirstChar(head, c, rest + [c] + b);
      assert a + [c] + b == head + [c] + (rest + [c] + b);
    } else {
      SplitWhole(a, [c]);
      assert a in Split(a, [c]);
      SplitFirstChar(a, c, b);
    }
  }

  lemma {:induction false} SplitNonEmptyPieces(s: string, k: int)
    requires 0 < k < |Split(s, LF)| && Split(s, LF)[k] == ""
    ensures exists j :: 0 <= j < |s| && s[j] == '\n' && (j == |s| - 1 || s[j + 1] == '\n')
    decreases |s|
  {
    if !Contains(s, LF) {
      SplitWhole(s, LF);
    }
    SplitStep(s, LF);
    hide Split, IndexOf;
    var i := IndexOf(s, LF);
    var rest := s[i + 1..];
    assert s[i] == '\n';
    if k > 1 {
      SplitNonEmptyPieces(rest, k - 1);
      var j :| 0 <= j < |rest| && rest[j] == '\n' && (j == |rest| - 1 || rest[j + 1] == '\n');
      assert s[j + i + 1] == '\n';
    } else if Contains(rest, LF) {
      SplitStep(rest, LF);
      assert rest[0] == '\n';
    } else {
      SplitWhole(rest, LF);
    }
  }

  predicate SoloNewlines(s: string) {
    forall j :: 0 <= j < |s| && s[j] == '\n' ==> j < |s| - 1 && s[j + 1] != '\n'
  }

  lemma SoloIsBlockShaped(s: string)
    requires SoloNewlines(s)
    ensures BlockShaped(Split(s, LF))
  {
    hide Split;
    forall k | 0 < k < |Split(s, LF)| ensures Split(s, LF)[k] != "" {
      if Split(s, LF)[k] == "" {
        SplitNonEmptyPieces(s, k);
      }
    }
  }

  lemma OccursBlank(s: string, i: int)
    ensures OccursAt(s, BLANK, i) <==> 0 <= i < |s| - 1 && s[i] == '\n' && s[i + 1] == '\n'
  {
    if 0 <= i < |s| - 1 {
      assert s[i..i + 2] == [s[i], s[i + 1]];
    }
  }

  lemma SoloBeforeBlank(s: string)
    requires Contains(s, BLANK)
    ensures SoloNewlines(s[..IndexOf(s, BLANK)])
  {
    IndexOfFirst(s, BLANK);
    hide IndexOf;
    var i := IndexOf(s, BLANK);
    OccursBlank(s, i);
    forall j | 0 <= j < i && s[j] == '\n' ensures j < i - 1 && s[j + 1] != '\n' {
      OccursBlank(s, j);
    }
  }

  lemma {:induction false} BlocksAreLines(text: string)
    ensures var parts := Split(text, BLANK);
            && Split(text, LF) == BlockLines(Init(parts)) + Split(Last(parts), LF)
            && (forall p <- Init(parts) :: SoloNewlines(p))
            && !Contains(Last(parts), BLANK)
    decreases |text|
  {
    hide Split, IndexOf;
    if Contains(text, BLANK) {
      SplitStep(text, BLANK);
      SoloBeforeBlank(text);
      var i := IndexOf(text, BLANK);
      var head, rest := text[..i], text[i + 2..];
      BlocksAreLines(rest);
      SplitAtChar(head, '\n', LF + rest);
      SplitAtChar("", '\n', rest);
      SplitNone("", '\n');
      assert text == head + LF + (LF + rest);
      assert "" + LF + rest == LF + rest;
      var parts, tail := Split(text, BLANK), Split(rest, BLANK);
      assert Init(parts) == [head] + Init(tail);
      assert Init(parts)[1..] == Init(tail);
      calc {
        Split(text, LF);
        Split(head, LF) + ([""] + (BlockLines(Init(tail)) + Split(Last(tail), LF)));
        (Split(head, LF) + [""] + BlockLines(Init(tail))) + Split(Last(tail), LF);
        BlockLines(Init(parts)) + Split(Last(parts), LF);
      }
    } else {
      SplitWhole(text, BLANK);
      assert Init([text]) == [];
    }
  }

  /** The text before the last line feed holds all but the last line. */
  lemma {:induction false} JoinInit(s: string) returns (cut: string)
    requires |Split(s, LF)| > 1
    ensures |cut| < |s| && cut == s[..|cut|] && s[|cut|] == '\n'
    ensures Split(cut, LF) == Init(Split(s, LF))
    decreases |s|
  {
    hide Split, IndexOf;
    if !Contains(s, LF) {
      SplitWhole(s, LF);
    }
    SplitStep(s, LF);
    SplitPiecesLack(s, '\n');
    var i := IndexOf(s, LF);
    var head, rest := s[..i], s[i + 1..];
    assert head == Split(s, LF)[0] && s[i] == '\n';
    if |Split(rest, LF)| > 1 {
      var inner := JoinInit(rest);
      cut := head + LF + inner;
      SplitFirstChar(head, '\n', inner);
      assert s == head + LF + rest && head in Split(s, LF);
    } else {
      cut := head;
      SplitNone(head, '\n');
    }
  }

  /** The complete lines of a text without a blank line dispatch nothing. */
  lemma TailIsBlockShaped(tail: string)
    requires !Contains(tail, BLANK)
    ensures BlockShaped(Init(Split(tail, LF)))
  {
    hide Split, IndexOf;
    var lines := Split(tail, LF);
    if lines != [] && |lines| > 1 {
      var cut := JoinInit(tail);
      IndexOfFirst(tail, BLANK);
      forall j | 0 <= j < |cut| && cut[j] == '\n' ensures j < |cut| - 1 && cut[j + 1] != '\n' {
        OccursBlank(tail, j);
      }
      SoloIsBlockShaped(cut);
    }
  }

  /** Cutting the text at blank lines and reading it line by line are the same. */
  lemma LinesAgreeWithBlocks<J>(text: string, parse: string -> Option<J>)
    ensures Interpret(Init(Split(text, LF)), ReadLine, parse).out == WholeText(text, parse)
  {
    hide Split, Interpret, Deliver;
    BlocksAreLines(text);
    var parts := Split(text, BLANK);
    var closed, tail := Init(parts), Split(Last(parts), LF);
    forall p <- closed ensures BlockShaped(Split(p, LF)) {
      SoloIsBlockShaped(p);
    }
    InterpretBlocks(closed, parse);
    TailIsBlockShaped(Last(parts));
    InterpretBlock(BlockLines(closed), Init(tail), parse);
    assert Init(BlockLines(closed) + tail) == BlockLines(closed) + Init(tail);
  }

  // --------------------------------------------- HTML Living Standard, section 9.2.6

  function DropOneSpace(s: string): string {
    if s != "" && s[0] == ' ' then s[1..] else s
  }

  /** Field name and value as the standard reads them; a line without a colon is
      all name. A leading colon, an empty name, marks a comment. */
  function FieldName(line: string): string {
    var colon := IndexOf(line, ":");
    if colon == -1 then line else line[..colon]
  }

  function FieldValue(line: string): string {
    var colon := IndexOf(line, ":");
    if colon == -1 then "" else DropOneSpace(line[colon + 1..])
  }

  /** The standard's field processing. An empty event type dispatches as `message`. */
  function StandardReadLine(f: Fields, line: string): Fields {
    if FieldName(line) == "event" then
      f.(name := if FieldValue(line) == "" then "message" else FieldValue(line))
    else if FieldName(line) == "data" then f.(data := f.data + [FieldValue(line)])
    else f
  }

  /** The lines of a text that are ended by CRLF, LF or CR; `current` is the line so far. */
  function CompleteLines(text: string, current: string): seq<string> {
    if text == "" then []
    else if text[0] == '\r' then
      [current] + CompleteLines(if |text| > 1 && text[1] == '\n' then text[2..] else text[1..], "")
    else if text[0] == '\n' then [current] + CompleteLines(text[1..], "")
    else CompleteLines(text[1..], current + [text[0]])
  }

  function StandardParse<J>(text: string, parse: string -> Option<J>): Delivery<J> {
    Interpret(CompleteLines(text, ""), StandardReadLine, parse).out
  }

  /** A line both readers take alike: its value has no other surrounding space
      than the one after the colon, and an event or data field has its colon. */
  predicate Plain(line: string) {
    && (FieldName(line) == "event" ==> Contains(line, ":") && Trimmed(FieldValue(line)) && FieldValue(line) != "")
    && (FieldName(line) == "data" ==> Contains(line, ":") && Trimmed(FieldValue(line)))
  }

  lemma PrefixGivesField(line: string, name: string)
    requires ':' !in name && name + ":" <= line
    ensures IndexOf(line, ":") == |name| && line[..|name|] == name
  {
    hide IndexOf;
    OccursChar(line, ':', |name|);
    forall j | 0 <= j < |name| ensures !OccursAt(line, ":", j) {
      OccursChar(line, ':', j);
      assert line[j] == name[j] && name[j] in name;
    }
    FirstOccurrence(line, ":", |name|);
  }

  lemma FieldPrefix(line: string, name: string)
    requires ':' !in name
    ensures name + ":" <= line <==> FieldName(line) == name && Contains(line, ":")
    ensures name + ":" <= line ==> FieldValue(line) == DropOneSpace(line[|name| + 1..])
  {
    IndexOfFirst(line, ":");
    hide IndexOf;
    if name + ":" <= line {
      PrefixGivesField(line, name);
    }
    if FieldName(line) == name && Contains(line, ":") {
      OccursChar(line, ':', |name|);
      assert line[..|name| + 1] == name + ":";
    }
  }

  lemma TrimVersusOneSpace(s: string)
    ensures Trim(s) == DropOneSpace(s) <==> Trimmed(DropOneSpace(s))
  {
    TrimIsTrimmed(s, IsJsSpace);
    if Trimmed(DropOneSpace(s)) {
      TrimOfTrimmed(DropOneSpace(s), IsJsSpace);
      assert Trim(s) == Trim(DropOneSpace(s));
    }
  }

  /** The reader follows the standard on a line exactly when the line is plain. */
  lemma LineConforms(line: string)
    ensures (forall f: Fields :: ReadLine(f, line) == StandardReadLine(f, line)) <==> Plain(line)
  {
    FieldPrefix(line, "event");
    FieldPrefix(line, "data");
    assert "event" + ":" == "event:" && "data" + ":" == "data:";
    hide IndexOf, Trim, Contains;
    if "event:" <= line {
      TrimVersusOneSpace(line[6..]);
    }
    if "data:" <= line {
      TrimVersusOneSpace(line[5..]);
    }
    var probe := Fields("", []);
    if !Plain(line) {
      var here, there := ReadLine(probe, line), StandardReadLine(probe, line);
      if FieldName(line) == "data" {
        assert there.data[0] == FieldValue(line);
        assert here.data == [] || here.data[0] == Trim(line[5..]);
      }
      assert here != there;
    }
  }

  lemma {:induction false} CompleteLinesSplit(text: string, current: string)
    requires '\r' !in text && '\n' !in current
    ensures CompleteLines(text, current) == Init(Split(current + text, LF))
  {
    hide Split;
    if text == "" {
      SplitNone(current, '\n');
      assert current + text == current;
    } else if text[0] == '\n' {
      CompleteLinesSplit(text[1..], "");
      SplitFirstChar(current, '\n', text[1..]);
      assert current + text == current + LF + text[1..];
      assert "" + text[1..] == text[1..];
    } else {
      CompleteLinesSplit(text[1..], current + [text[0]]);
      assert current + text == current + [text[0]] + text[1..];
    }
  }

  lemma {:induction false} SameReading<J>(lines: seq<string>, parse: string -> Option<J>)
    requires forall line <- lines :: Plain(line)
    ensures Interpret(lines, StandardReadLine, parse) == Interpret(lines, ReadLine, parse)
  {
    hide Plain, ReadLine, StandardReadLine;
    if lines != [] {
      SameReading(Init(lines), parse);
      LineConforms(Last(lines));
    }
  }

  /** For a stream of LF-ended plain lines the reader is the standard's. */
  lemma ConformsToStandard<J>(text: string, parse: string -> Option<J>)
    requires '\r' !in text
    requires forall line <- CompleteLines(text, "") :: Plain(line)
    ensures WholeText(text, parse) == StandardParse(text, parse)
  {
    hide Split, Interpret, Plain;
    CompleteLinesSplit(text, "");
    assert "" + text == text;
    SameReading(CompleteLines(text, ""), parse);
    LinesAgreeWithBlocks(text, parse);
  }

  /** The text with its LF line ends written CRLF. */
  function Crlf(text: string): string {
    if text == "" then ""
    else (if text[0] == '\n' then "\r\n" else [text[0]]) + Crlf(text[1..])
  }

  lemma {:induction false} CrlfLineEnds(text: string, k: int)
    requires 0 <= k < |Crlf(text)| && Crlf(text)[k] == '\n'
    ensures k > 0 && Crlf(text)[k - 1] == '\r'
  {
    if text[0] == '\n' {
      if k > 1 {
        CrlfLineEnds(text[1..], k - 2);
      }
    } else if k > 0 {
      CrlfLineEnds(text[1..], k - 1);
    }
  }

  lemma {:induction false} CrlfCompleteLines(text: string, current: string)
    requires '\r' !in text
    ensures CompleteLines(Crlf(text), current) == CompleteLines(text, current)
  {
    if text != "" {
      var rest := Crlf(text[1..]);
      if text[0] == '\n' {
        assert Crlf(text)[2..] == rest;
        CrlfCompleteLines(text[1..], "");
      } else {
        assert Crlf(text)[1..] == rest;
        CrlfCompleteLines(text[1..], current + [text[0]]);
      }
    }
  }

  /** The standard reads CRLF line ends as it reads LF; the reader delivers nothing
      at all of such a stream. So on a stream with CRLF line ends the two agree
      exactly when the standard has nothing to deliver either. */
  lemma CrlfStreamDeliversNothing<J>(text: string, parse: string -> Option<J>)
    requires '\r' !in text
    ensures WholeText(Crlf(text), parse) == Delivery([], true)
    ensures StandardParse(Crlf(text), parse) == StandardParse(text, parse)
    ensures WholeText(Crlf(text), parse) == StandardParse(Crlf(text), parse) <==>
              StandardParse(text, parse) == Delivery([], true)
  {
    CrlfCompleteLines(text, "");
    var crlf := Crlf(text);
    IndexOfFirst(crlf, BLANK);
    hide IndexOf, Crlf, CompleteLines, Interpret;
    forall i ensures !OccursAt(crlf, BLANK, i) {
      OccursBlank(crlf, i);
      if 0 <= i < |crlf| - 1 && crlf[i + 1] == '\n' {
        CrlfLineEnds(text, i + 1);
      }
    }
    SplitWhole(crlf, BLANK);
    assert Init([crlf]) == [];
  }

  // --------------------------------------------- HTML Living Standard, section 9.2.5

  /** An event to send: its name, if it has one, and the lines of its data. */
  datatype Outgoing = Outgoing(name: Option<string>, data: seq<string>)

  /** Without a name an event is a `message`. */
  function NameOf(e: Outgoing): string {
    if e.name.Some? then e.name.value else "message"
  }

  function Header(name: Option<string>): seq<string> {
    if name.Some? then ["event: " + name.value] else []
  }

  predicate OneTrimmedLine(s: string) {
    '\n' !in s && Trimmed(s)
  }

  predicate Sendable(e: Outgoing) {
    (e.name.Some? ==> OneTrimmedLine(e.name.value)) && e.data != [] && forall d <- e.data :: OneTrimmedLine(d)
  }

  function DataLines(data: seq<string>): seq<string> {
    if data == [] then [] else DataLines(Init(data)) + ["data: " + Last(data)]
  }

  function Serialise(e: Outgoing): string {
    Join(Header(e.name) + DataLines(e.data), LF) + BLANK
  }

  function SerialiseAll(events: seq<Outgoing>): string {
    if events == [] then "" else Serialise(events[0]) + SerialiseAll(events[1..])
  }

  /** What the caller should see: every event once, in order, its data rejoined. */
  function Sent<J>(events: seq<Outgoing>, parse: string -> Option<J>): Delivery<J> {
    if events == [] then Delivery([], true)
    else After(Sent(Init(events), parse),
               Dispatch(Fields(NameOf(Last(events)), Last(events).data), parse))
  }

  /** These are the first of the events sent, as the caller should see them. */
  predicate Arrived<J(==)>(events: seq<Event<J>>, sent: seq<Outgoing>, parse: string -> Option<J>) {
    && |events| <= |sent|
    && forall i :: 0 <= i < |events| ==>
         && events[i].name == (if sent[i].name.Some? then sent[i].name.value else "message")
         && parse(Join(sent[i].data, "\n")) == Some(events[i].data)
  }

  predicate AllParse<J>(sent: seq<Outgoing>, parse: string -> Option<J>) {
    forall e <- sent :: parse(Join(e.data, "\n")).Some?
  }

  predicate Faithful<J(==)>(d: Delivery<J>, sent: seq<Outgoing>, parse: string -> Option<J>) {
    && Arrived(d.events, sent, parse)
    && (d.ok <==> AllParse(sent, parse))
    && (if d.ok then |d.events| == |sent|
        else |d.events| < |sent| && parse(Join(sent[|d.events|].data, "\n")) == None)
  }

  lemma FaithfulNext<J>(d: Delivery<J>, sent: seq<Outgoing>, e: Outgoing, parse: string -> Option<J>)
    requires Faithful(d, sent, parse) && e.data != []
    ensures Faithful(After(d, Dispatch(Fields(NameOf(e), e.data), parse)), sent + [e], parse)
  {
    hide Join;
    assert e in sent + [e];
    assert AllParse(sent + [e], parse) <==> AllParse(sent, parse) && parse(Join(e.data, "\n")).Some?;
  }

  lemma {:induction false} SentArrives<J>(sent: seq<Outgoing>, parse: string -> Option<J>)
    requires forall e <- sent :: Sendable(e)
    ensures Faithful(Sent(sent, parse), sent, parse)
  {
    if sent != [] {
      hide Faithful, Dispatch, After, OneTrimmedLine;
      SentArrives(Init(sent), parse);
      assert sent == Init(sent) + [Last(sent)];
      assert Sendable(Last(sent));
      FaithfulNext(Sent(Init(sent), parse), Init(sent), Last(sent), parse);
    }
  }

  lemma ReadPrefixed(f: Fields, s: string)
    requires Trimmed(s)
    ensures ReadLine(f, "event: " + s) == f.(name := s)
    ensures ReadLine(f, "data: " + s) == f.(data := f.data + [s])
  {
    assert ("event: " + s)[6..] == " " + s && ("data: " + s)[5..] == " " + s;
    assert ("event: " + s)[0] == 'e' && ("data: " + s)[0] == 'd';
    TrimOfTrimmed(s, IsJsSpace);
    assert Trim(" " + s) == Trim((" " + s)[1..]);
  }

  lemma {:induction false} ReadSerialised(e: Outgoing, data: seq<string>)
    requires (e.name.Some? ==> Trimmed(e.name.value)) && forall d <- data :: Trimmed(d)
    ensures ReadLines(Header(e.name) + DataLines(data)) == Fields(NameOf(e), data)
  {
    hide Trim, ReadLine;
    var header := Header(e.name);
    if data == [] {
      assert header + DataLines(data) == header;
      if e.name.Some? {
        ReadPrefixed(NO_FIELDS, e.name.value);
        assert Init(header) == [];
        assert ReadLines(Init(header)) == NO_FIELDS;
      }
    } else {
      ReadSerialised(e, Init(data));
      ReadPrefixed(Fields(NameOf(e), Init(data)), Last(data));
      assert Init(header + DataLines(data)) == header + DataLines(Init(data));
      assert data == Init(data) + [Last(data)];
    }
  }

  lemma {:induction false} DataLinesLackNewlines(data: seq<string>)
    requires forall d <- data :: '\n' !in d
    ensures forall line <- DataLines(data) :: '\n' !in line && line != ""
  {
    if data != [] {
      DataLinesLackNewlines(Init(data));
    }
  }

  lemma {:induction false} JoinIsSolo(lines: seq<string>)
    requires lines != [] && forall line <- lines :: '\n' !in line && line != ""
    ensures SoloNewlines(Join(lines, LF)) && Join(lines, LF) != "" && Join(lines, LF)[0] != '\n'
  {
    assert lines[0] in lines;
    if |lines| > 1 {
      assert forall line <- lines[1..] :: line in lines;
      JoinIsSolo(lines[1..]);
    }
  }

  lemma SplitFirstBlock(block: string, rest: string)
    requires SoloNewlines(block)
    ensures Split(block + BLANK + rest, BLANK) == [block] + Split(rest, BLANK)
  {
    hide Split;
    var s := block + BLANK + rest;
    OccursBlank(s, |block|);
    forall j | 0 <= j < |block| ensures !OccursAt(s, BLANK, j) {
      OccursBlank(s, j);
    }
    SplitFirst(block, BLANK, rest);
  }

  /** The blocks of the events, as the reader will cut them off. */
  function Blocks(events: seq<Outgoing>): seq<string> {
    if events == [] then []
    else [Join(Header(events[0].name) + DataLines(events[0].data), LF)] + Blocks(events[1..])
  }

  lemma {:induction false} BlocksNext(events: seq<Outgoing>, e: Outgoing)
    ensures Blocks(events + [e]) == Blocks(events) + [Join(Header(e.name) + DataLines(e.data), LF)]
  {
    hide Join;
    if events == [] {
      assert [e][1..] == [];
    } else {
      assert (events + [e])[1..] == events[1..] + [e];
      BlocksNext(events[1..], e);
    }
  }

  lemma {:induction false} SerialisedBlocks(events: seq<Outgoing>, tail: string)
    requires forall e <- events :: Sendable(e)
    requires !Contains(tail, BLANK)
    ensures Split(SerialiseAll(events) + tail, BLANK) == Blocks(events) + [tail]
  {
    hide Split, IndexOf, Join;
    if events == [] {
      assert SerialiseAll(events) + tail == tail;
      SplitWhole(tail, BLANK);
    } else {
      var e := events[0];
      assert e in events && Sendable(e);
      var lines := Header(e.name) + DataLines(e.data);
      DataLinesLackNewlines(e.data);
      JoinIsSolo(lines);
      SplitFirstBlock(Join(lines, LF), SerialiseAll(events[1..]) + tail);
      assert SerialiseAll(events) + tail == Join(lines, LF) + BLANK + (SerialiseAll(events[1..]) + tail);
      SerialisedBlocks(events[1..], tail);
    }
  }

  lemma {:induction false} DeliverBlocks<J>(events: seq<Outgoing>, parse: string -> Option<J>)
    requires forall e <- events :: Sendable(e)
    ensures Deliver(Blocks(events), parse) == Sent(events, parse)
  {
    hide Split, Join, Dispatch;
    if events != [] {
      var e := Last(events);
      assert e in events && Sendable(e);
      var lines := Header(e.name) + DataLines(e.data);
      DeliverBlocks(Init(events), parse);
      assert events == Init(events) + [e];
      BlocksNext(Init(events), e);
      DeliverNext(Blocks(Init(events)), Join(lines, LF), parse);
      DataLinesLackNewlines(e.data);
      SplitJoin(lines, '\n');
      ReadSerialised(e, e.data);
    }
  }

  /** Parser and printer undo each other: every event arrives exactly once, in
      order, with its data lines rejoined; an unterminated tail adds nothing. */
  lemma RoundTrip<J>(events: seq<Outgoing>, tail: string, parse: string -> Option<J>)
    requires forall e <- events :: Sendable(e)
    requires !Contains(tail, BLANK)
    ensures WholeText(SerialiseAll(events) + tail, parse) == Sent(events, parse)
  {
    hide Split, Deliver;
    SerialisedBlocks(events, tail);
    DeliverBlocks(events, parse);
    assert Init(Blocks(events) + [tail]) == Blocks(events);
  }

  // ------------------------------------------ the standard reads what is serialised

  lemma {:induction false} SplitLines(lines: seq<string>, rest: string)
    requires lines != [] && forall line <- lines :: '\n' !in line
    ensures Split(Join(lines, LF) + BLANK + rest, LF) == lines + [""] + Split(rest, LF)
  {
    hide Split;
    assert lines[0] in lines;
    if |lines| == 1 {
      assert Join(lines, LF) == lines[0];
      assert lines[0] + BLANK + rest == lines[0] + "\n" + ("" + "\n" + rest);
      SplitFirstChar(lines[0], '\n', "" + "\n" + rest);
      SplitFirstChar("", '\n', rest);
    } else {
      var more := Join(lines[1..], LF) + BLANK + rest;
      assert forall line <- lines[1..] :: line in lines;
      assert Join(lines, LF) + BLANK + rest == lines[0] + "\n" + more;
      SplitFirstChar(lines[0], '\n', more);
      SplitLines(lines[1..], rest);
      assert lines == [lines[0]] + lines[1..];
    }
  }

  /** The lines of the events, each with the blank line that ends it. */
  function EventLines(events: seq<Outgoing>): seq<string> {
    if events == [] then [] else Header(events[0].name) + DataLines(events[0].data) + [""] + EventLines(events[1..])
  }

  lemma {:induction false} LinesOfSerialised(events: seq<Outgoing>)
    requires forall e <- events :: Sendable(e)
    ensures Split(SerialiseAll(events), LF) == EventLines(events) + [""]
  {
    hide Split, Join;
    if events == [] {
      SplitNone("", '\n');
    } else {
      var e := events[0];
      assert e in events && Sendable(e);
      DataLinesLackNewlines(e.data);
      var lines := Header(e.name) + DataLines(e.data);
      assert lines != [];
      SplitLines(lines, SerialiseAll(events[1..]));
      LinesOfSerialised(events[1..]);
    }
  }

  /** A line as it is serialised, one space after the colon, is plain. */
  lemma SerialisedLineIsPlain(s: string)
    requires OneTrimmedLine(s)
    ensures Plain("data: " + s) && (s != "" ==> Plain("event: " + s)) && Plain("")
  {
    FieldPrefix("data: " + s, "data");
    FieldPrefix("event: " + s, "event");
    FieldPrefix("data: " + s, "event");
    FieldPrefix("event: " + s, "data");
    FieldPrefix("", "data");
    assert ("data: " + s)[5..] == " " + s && ("event: " + s)[6..] == " " + s;
    assert (" " + s)[1..] == s;
    assert ("data: " + s)[0] == 'd' && ("event: " + s)[0] == 'e';
  }

  lemma {:induction false} DataLinesArePlain(data: seq<string>)
    requires forall d <- data :: OneTrimmedLine(d)
    ensures forall line <- DataLines(data) :: Plain(line)
  {
    if data != [] {
      hide Plain, OneTrimmedLine;
      DataLinesArePlain(Init(data));
      SerialisedLineIsPlain(Last(data));
    }
  }

  lemma {:induction false} EventLinesArePlain(events: seq<Outgoing>)
    requires forall e <- events :: Sendable(e) && e.name != Some("")
    ensures forall line <- EventLines(events) :: Plain(line)
  {
    if events != [] {
      var e := events[0];
      assert e in events && Sendable(e);
      hide Plain, OneTrimmedLine;
      DataLinesArePlain(e.data);
      SerialisedLineIsPlain(if e.name.Some? then e.name.value else "");
      EventLinesArePlain(events[1..]);
    }
  }

  lemma NoBlankInNothing()
    ensures !Contains("", BLANK)
  {
  }

  /** So a reader that follows the standard gets of the serialised events exactly what
      was sent, and both readers the same. */
  lemma StandardReadsSerialised<J>(events: seq<Outgoing>, parse: string -> Option<J>)
    requires forall e <- events :: Sendable(e) && e.name != Some("")
    requires '\r' !in SerialiseAll(events)
    ensures StandardParse(SerialiseAll(events), parse) == Sent(events, parse)
  {
    var text := SerialiseAll(events);
    hide Split, Plain, Interpret, Deliver, SerialiseAll, Sendable;
    CompleteLinesSplit(text, "");
    assert "" + text == text;
    LinesOfSerialised(events);
    EventLinesArePlain(events);
    assert Init(EventLines(events) + [""]) == EventLines(events);
    ConformsToStandard(text, parse);
    NoBlankInNothing();
    RoundTrip(events, "", parse);
    assert text + "" == text;
  }

  /** The same through the chunked reader, however the wire cuts the text. */
  method ReceiveSerialised<J>(chunks: seq<string>, ghost sent: seq<Outgoing>, ghost tail: string,
                              parse: string -> Option<J>, empty: J)
    returns (events: seq<Event<J>>, result: Option<J>)
    requires forall e <- sent :: Sendable(e)
    requires !Contains(tail, BLANK)
    requires Concat(chunks) == SerialiseAll(sent) + tail
    ensures events == Sent(sent, parse).events
    // Each event has its own name, or `message`, and its data lines rejoined and parsed.
    ensures Arrived(events, sent, parse)
    // The call succeeds exactly when every payload parses; else it stops at the first that does not.
    ensures result.Some? <==> AllParse(sent, parse)
    ensures if result.Some? then |events| == |sent|
            else |events| < |sent| && parse(Join(sent[|events|].data, "\n")) == None
    // The last event named `done` decides the result.
    ensures result.Some? ==>
              forall i :: 0 <= i < |sent| && sent[i].name == Some("done")
                  && (forall j :: i < j < |sent| ==> sent[j].name != Some("done"))
                ==> result == parse(Join(sent[i].data, "\n"))
    ensures result.Some? && (forall e <- sent :: e.name != Some("done")) ==> result == Some(empty)
  {
    events, result := ReadStream(chunks, parse, empty);
    RoundTrip(sent, tail, parse);
    SentArrives(sent, parse);
    hide Sent, WholeText, SerialiseAll;
    if result.Some? {
      forall i | 0 <= i < |sent| ensures events[i].name == "done" <==> sent[i].name == Some("done") {
        assert events[i].name == NameOf(sent[i]);
      }
    }
  }
}

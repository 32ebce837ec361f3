/** The incremental server-sent-event reader of `requestStream` and the parse of the
    whole text it must agree with, however the text is cut into chunks. */
module SseStream {
  import opened Wrappers
  import opened Text

  datatype Event<J> = Event(name: string, data: J)

  /** What one block, the text between two blank lines, turns into. */
  datatype Block<J> = Ignored | Dispatched(event: Event<J>) | Malformed

  /** The event name and data lines gathered so far inside one block. */
  datatype Fields = Fields(name: string, data: seq<string>)

  /** The events handed to the caller, and whether every payload parsed. The
      reader stops at the first payload that does not. */
  datatype Delivery<J> = Delivery(events: seq<Event<J>>, ok: bool)

  const LF := "\n"
  const BLANK := "\n\n"
  const NO_FIELDS := Fields("message", [])

  function ReadLine(f: Fields, line: string): Fields {
    var f := if "event:" <= line then f.(name := Trim(line[6..])) else f;
    if "data:" <= line then f.(data := f.data + [Trim(line[5..])]) else f
  }

  function Dispatch<J>(f: Fields, parse: string -> Option<J>): Block<J> {
    if f.data == [] then Ignored
    else match parse(Join(f.data, LF))
      case None => Malformed
      case Some(data) => Dispatched(Event(f.name, data))
  }

  function After<J>(d: Delivery<J>, b: Block<J>): Delivery<J> {
    if !d.ok then d
    else match b
      case Ignored => d
      case Malformed => d.(ok := false)
      case Dispatched(e) => d.(events := d.events + [e])
  }

  // ------------------------------------------------------- the whole-text parse

  function ReadLines(lines: seq<string>): Fields {
    if lines == [] then NO_FIELDS else ReadLine(ReadLines(Init(lines)), Last(lines))
  }

  function ReadBlock<J>(part: string, parse: string -> Option<J>): Block<J> {
    Dispatch(ReadLines(Split(part, LF)), parse)
  }

  function Deliver<J>(parts: seq<string>, parse: string -> Option<J>): Delivery<J> {
    if parts == [] then Delivery([], true)
    else After(Deliver(Init(parts), parse), ReadBlock(Last(parts), parse))
  }

  /** Split the whole text once at blank lines and drop the unterminated tail. */
  function WholeText<J>(text: string, parse: string -> Option<J>): Delivery<J> {
    Deliver(Init(Split(text, BLANK)), parse)
  }

  predicate NoDoneAfter<J>(events: seq<Event<J>>, i: int) {
    forall j :: i < j < |events| && 0 <= j ==> events[j].name != "done"
  }

  /** The payload of the last `done` event. */
  function FinalPayload<J>(events: seq<Event<J>>, empty: J): J {
    if events == [] then empty
    else if Last(events).name == "done" then Last(events).data
    else FinalPayload(Init(events), empty)
  }

  /** The last event named `done` decides the payload; without one it is `empty`. */
  lemma {:induction false} LastDoneDecides<J>(events: seq<Event<J>>, empty: J)
    ensures forall i :: 0 <= i < |events| && events[i].name == "done" && NoDoneAfter(events, i)
              ==> FinalPayload(events, empty) == events[i].data
    ensures (forall e <- events :: e.name != "done") ==> FinalPayload(events, empty) == empty
  {
    if events != [] {
      var rest := Init(events);
      LastDoneDecides(rest, empty);
      forall i | 0 <= i < |events| && events[i].name == "done" && NoDoneAfter(events, i)
        ensures FinalPayload(events, empty) == events[i].data
      {
        if i < |rest| {
          assert rest[i] == events[i] && NoDoneAfter(rest, i);
        }
      }
    }
  }

  lemma {:induction false} DeliverStops<J>(a: seq<string>, b: seq<string>, parse: string -> Option<J>)
    requires !Deliver(a, parse).ok
    ensures Deliver(a + b, parse) == Deliver(a, parse)
  {
    if b == [] {
      assert a + b == a;
    } else {
      assert Init(a + b) == a + Init(b);
      DeliverStops(a, Init(b), parse);
    }
  }

  lemma DeliverNext<J>(parts: seq<string>, part: string, parse: string -> Option<J>)
    ensures Deliver(parts + [part], parse) == After(Deliver(parts, parse), ReadBlock(part, parse))
  {
    assert Init(parts + [part]) == parts;
  }

  lemma DeliverNothing<J>(parse: string -> Option<J>)
    ensures Split("", BLANK) == [""]
    ensures Deliver([], parse) == Delivery([], true)
  {
  }

  // --------------------------------------------------------- the chunked reader

  method ParseBlock<J>(part: string, parse: string -> Option<J>) returns (b: Block<J>)
    ensures b == ReadBlock(part, parse)
  {
    var name := "message";
    var dataLines := [];
    var lines := Split(part, LF);
    for i := 0 to |lines|
      invariant Fields(name, dataLines) == ReadLines(lines[..i])
    {
      assert Init(lines[..i + 1]) == lines[..i];
      if "event:" <= lines[i] { name := Trim(lines[i][6..]); }
      if "data:" <= lines[i] { dataLines := dataLines + [Trim(lines[i][5..])]; }
    }
    assert lines[..|lines|] == lines;
    if dataLines == [] {
      return Ignored;
    }
    var data := parse(Join(dataLines, LF));
    b := if data.None? then Malformed else Dispatched(Event(name, data.value));
  }

  /** The inner loop: hand over the blocks that one chunk completed. */
  method DeliverParts<J>(parts: seq<string>, parse: string -> Option<J>, empty: J,
                         ghost before: seq<string>, given: seq<Event<J>>, payload: J)
    returns (events: seq<Event<J>>, donePayload: J, ok: bool)
    requires Deliver(before, parse) == Delivery(given, true)
    requires payload == FinalPayload(given, empty)
    ensures Deliver(before + parts, parse) == Delivery(events, ok)
    ensures ok ==> donePayload == FinalPayload(events, empty)
  {
    hide Deliver;
    events, donePayload := given, payload;
    assert before + parts[..0] == before;
    for p := 0 to |parts|
      invariant Deliver(before + parts[..p], parse) == Delivery(events, true)
      invariant donePayload == FinalPayload(events, empty)
    {
      var block := ParseBlock(parts[p], parse);
      DeliverNext(before + parts[..p], parts[p], parse);
      assert before + parts[..p + 1] == before + parts[..p] + [parts[p]];
      match block
      case Ignored =>
      case Malformed =>
        DeliverStops(before + parts[..p + 1], parts[p + 1..], parse);
        assert before + parts == before + parts[..p + 1] + parts[p + 1..];
        return events, donePayload, false;
      case Dispatched(e) =>
        if e.name == "done" { donePayload := e.data; }
        assert Init(events + [e]) == events;
        events := events + [e];
    }
    assert parts[..|parts|] == parts;
    ok := true;
  }

  lemma NextChunk(chunks: seq<string>, i: nat, cut: seq<string>, buffer: string)
    requires i < |chunks|
    requires Split(Concat(chunks[..i]), BLANK) == cut + [buffer]
    ensures var parts := Split(buffer + chunks[i], BLANK);
            Split(Concat(chunks[..i + 1]), BLANK) == cut + Init(parts) + [Last(parts)]
  {
    hide Split;
    assert chunks[..i + 1] == chunks[..i] + [chunks[i]];
    ConcatSnoc(chunks[..i], chunks[i]);
    SplitAppend(Concat(chunks[..i]), chunks[i], BLANK);
    assert Init(cut + [buffer]) == cut;
  }

  lemma {:induction false} ConcatCut(chunks: seq<string>, i: nat)
    requires i <= |chunks|
    ensures Concat(chunks) == Concat(chunks[..i]) + Concat(chunks[i..])
  {
    if i == 0 {
      assert chunks[0..] == chunks;
    } else {
      assert chunks[..i][1..] == chunks[1..][..i - 1] && chunks[1..][i - 1..] == chunks[i..];
      ConcatCut(chunks[1..], i - 1);
    }
  }

  /** Whatever the later chunks hold, a reader that stopped stopped where the
      parse of the whole text stops. */
  lemma StopEarly<J>(chunks: seq<string>, i: nat, parts: seq<string>, buffer: string, parse: string -> Option<J>)
    requires i <= |chunks|
    requires Split(Concat(chunks[..i]), BLANK) == parts + [buffer]
    requires !Deliver(parts, parse).ok
    ensures WholeText(Concat(chunks), parse) == Deliver(parts, parse)
  {
    hide Split, Deliver;
    ConcatCut(chunks, i);
    var rest := Concat(chunks[i..]);
    SplitAppend(Concat(chunks[..i]), rest, BLANK);
    assert Init(parts + [buffer]) == parts;
    var later := Split(buffer + rest, BLANK);
    assert Init(parts + later) == parts + Init(later);
    DeliverStops(parts, Init(later), parse);
  }

  /** Reads a stream cut into chunks anywhere. However it is cut, the events and
      the final payload are those of the whole text. `result` is `None` when a
      payload failed to parse, which rejects the call. */
  method ReadStream<J>(chunks: seq<string>, parse: string -> Option<J>, empty: J)
    returns (events: seq<Event<J>>, result: Option<J>)
    ensures var whole := WholeText(Concat(chunks), parse);
            && events == whole.events
            && result == if whole.ok then Some(FinalPayload(whole.events, empty)) else None
    // What is returned is the payload of the last event named `done`, if there is one.
    ensures result.Some? ==>
              forall i :: 0 <= i < |events| && events[i].name == "done" && NoDoneAfter(events, i)
                ==> result.value == events[i].data
    ensures result.Some? && (forall e <- events :: e.name != "done") ==> result.value == empty
  {
    hide Split, Deliver;
    events := [];
    var buffer, donePayload := "", empty;
    ghost var cut: seq<string> := [];
    DeliverNothing(parse);
    for i := 0 to |chunks|
      invariant Split(Concat(chunks[..i]), BLANK) == cut + [buffer]
      invariant Deliver(cut, parse) == Delivery(events, true)
      invariant donePayload == FinalPayload(events, empty)
    {
      NextChunk(chunks, i, cut, buffer);
      buffer := buffer + chunks[i];
      var parts := Split(buffer, BLANK);
      buffer := Last(parts);
      parts := Init(parts);
      var ok;
      events, donePayload, ok := DeliverParts(parts, parse, empty, cut, events, donePayload);
      cut := cut + parts;
      if !ok {
        StopEarly(chunks, i + 1, cut, buffer, parse);
        return events, None;
      }
    }
    assert chunks[..|chunks|] == chunks;
    assert Init(cut + [buffer]) == cut;
    LastDoneDecides(events, empty);
    result := Some(donePayload);
  }
}

/**
 Server-sent events: the printer of the API and the chunked parser of the chat page, on decoded
 text. Payloads are single-line JSON texts; parsing them as JSON is left to the reader of `data`.
 */
module Sse {
  import opened Options

  datatype SseEvent = SseEvent(event: string, data: string)

  // ---------- The printer ----------

  datatype Item = Emit(event: SseEvent) | KeepAlive

  function FormatEvent(e: SseEvent): string {
    "event: " + e.event + "\n" + "data: " + e.data + "\n\n"
  }

  function Format(item: Item): string {
    if item.KeepAlive? then ": keep-alive\n\n" else FormatEvent(item.event)
  }

  function Printed(items: seq<Item>): string {
    if items == [] then "" else Format(items[0]) + Printed(items[1..])
  }

  /** No raw CR or LF, as in an event name or a JSON text. */
  predicate OneLine(s: string) { forall k | 0 <= k < |s| :: s[k] != '\r' && s[k] != '\n' }

  predicate Printable(item: Item) { item.Emit? ==> OneLine(item.event.event) && OneLine(item.event.data) }

  function EventsOf(items: seq<Item>): seq<SseEvent> {
    if items == [] then [] else (if items[0].Emit? then [items[0].event] else []) + EventsOf(items[1..])
  }

  /** What waiting for the queue can bring. */
  datatype Waited = Timeout | Got(event: SseEvent) | Closed

  /** The items that `stream_turn` sends after its first event. */
  function Sent(waits: seq<Waited>): seq<Item> {
    if waits == [] || waits[0].Closed? then []
    else [if waits[0].Timeout? then KeepAlive else Emit(waits[0].event)] + Sent(waits[1..])
  }

  function Chunks(items: seq<Item>): seq<string> { seq(|items|, k requires 0 <= k < |items| => Format(items[k])) }

  /** `stream_turn`: it yields the first event and then everything from the queue, one chunk per item. */
  method StreamOut(started: SseEvent, waits: seq<Waited>) returns (chunks: seq<string>)
    ensures chunks == Chunks([Emit(started)] + Sent(waits))
  {
    hide Sent, FormatEvent;
    chunks := [FormatEvent(started)];
    var n := 0;
    SentFirst(started, waits);
    while n < |waits| && !waits[n].Closed?
      invariant n <= |waits|
      invariant chunks + Chunks(Sent(waits[n..])) == Chunks([Emit(started)] + Sent(waits))
    {
      SentNext(waits, n);
      chunks := chunks + [if waits[n].Timeout? then ": keep-alive\n\n" else FormatEvent(waits[n].event)];
      n := n + 1;
    }
    SentLast(waits, n);
  }

  lemma SentFirst(started: SseEvent, waits: seq<Waited>)
    ensures [FormatEvent(started)] + Chunks(Sent(waits[0..])) == Chunks([Emit(started)] + Sent(waits))
  {
    hide Sent, FormatEvent;
    assert waits[0..] == waits;
  }

  lemma SentNext(waits: seq<Waited>, n: nat)
    requires n < |waits| && !waits[n].Closed?
    ensures Chunks(Sent(waits[n..])) ==
            [if waits[n].Timeout? then ": keep-alive\n\n"
             else FormatEvent(waits[n].event)] + Chunks(Sent(waits[n + 1..]))
  {
    hide FormatEvent;
    var rest := Sent(waits[n + 1..]);
    assert waits[n..][0] == waits[n] && waits[n..][1..] == waits[n + 1..];
    var item := if waits[n].Timeout? then KeepAlive else Emit(waits[n].event);
    assert Sent(waits[n..]) == [item] + rest;
    ChunksCons(item, rest);
  }

  lemma ChunksCons(item: Item, rest: seq<Item>)
    ensures Chunks([item] + rest) == [Format(item)] + Chunks(rest)
  {
    hide Format;
  }

  lemma SentLast(waits: seq<Waited>, n: nat)
    requires n == |waits| || (n < |waits| && waits[n].Closed?)
    ensures Chunks(Sent(waits[n..])) == []
  {
  }

  lemma {:induction false} ChunksPrint(items: seq<Item>)
    ensures Concat(Chunks(items)) == Printed(items)
    decreases |items|
  {
    if items != [] {
      assert Chunks(items)[0] == Format(items[0]) && Chunks(items)[1..] == Chunks(items[1..]);
      ChunksPrint(items[1..]);
    }
  }

  function Concat(chunks: seq<string>): string {
    if chunks == [] then "" else chunks[0] + Concat(chunks[1..])
  }

  lemma {:induction false} ConcatAppend(chunks: seq<string>, chunk: string)
    ensures Concat(chunks + [chunk]) == Concat(chunks) + chunk
    decreases |chunks|
  {
    var all := chunks + [chunk];
    if chunks == [] {
      assert all[1..] == [];
    } else {
      assert all[0] == chunks[0] && all[1..] == chunks[1..] + [chunk];
      ConcatAppend(chunks[1..], chunk);
    }
  }

  // ---------- The parser of one block ----------

  /** The index of the first `c`, or the length. */
  function Find(s: string, c: char): (k: nat)
    ensures k <= |s| && (forall j | 0 <= j < k :: s[j] != c) && (k < |s| ==> s[k] == c)
  {
    if s == "" || s[0] == c then 0 else 1 + Find(s[1..], c)
  }

  function Lines(s: string): seq<string>
    decreases |s|
  {
    var k := Find(s, '\n');
    if k == |s| then [s] else [s[..k]] + Lines(s[k + 1..])
  }

  function Field(line: string): string { line[..Find(line, ':')] }

  function Value(line: string): string {
    var colon := Find(line, ':');
    if colon == |line| then ""
    else if colon + 1 < |line| && line[colon + 1] == ' ' then line[colon + 2..]
    else line[colon + 1..]
  }

  predicate Ignored(line: string) { line == "" || line[0] == ':' }

  /** The event name and data lines after some lines. */
  datatype Partial = Partial(event: string, data: seq<string>)

  function Fold(p: Partial, line: string): Partial {
    if Ignored(line) then p
    else if Field(line) == "event" then p.(event := Value(line))
    else if Field(line) == "data" then p.(data := p.data + [Value(line)])
    else p
  }

  function FoldLines(lines: seq<string>): Partial {
    if lines == [] then Partial("message", []) else Fold(FoldLines(lines[..|lines| - 1]), lines[|lines| - 1])
  }

  function Join(parts: seq<string>): string {
    if parts == [] then "" else if |parts| == 1 then parts[0] else parts[0] + "\n" + Join(parts[1..])
  }

  function Parsed(block: string): Option<SseEvent> {
    var p := FoldLines(Lines(block));
    if p.data == [] then None else Some(SseEvent(p.event, Join(p.data)))
  }

  method ParseBlock(block: string) returns (parsed: Option<SseEvent>)
    ensures parsed == Parsed(block)
  {
    var event, data := "message", [];
    var lines := Lines(block);
    for n := 0 to |lines|
      invariant FoldLines(lines[..n]) == Partial(event, data)
    {
      var line := lines[n];
      assert lines[..n + 1][..n] == lines[..n];
      if !Ignored(line) {
        if Field(line) == "event" { event := Value(line); }
        if Field(line) == "data" { data := data + [Value(line)]; }
      }
    }
    assert lines[..|lines|] == lines;
    return if data == [] then None else Some(SseEvent(event, Join(data)));
  }

  // ---------- The parser of a chunked stream ----------

  /** `replaceAll("\r\n", "\n")`. */
  function Normalize(s: string): string {
    if s == "" then ""
    else if |s| >= 2 && s[0] == '\r' && s[1] == '\n' then "\n" + Normalize(s[2..])
    else [s[0]] + Normalize(s[1..])
  }

  /** `indexOf("\n\n")`, with the length for -1. */
  function Boundary(s: string): (k: nat)
    ensures k == |s| || (k + 1 < |s| && s[k] == '\n' && s[k + 1] == '\n')
    ensures forall j | 0 <= j < k && j + 1 < |s| :: !(s[j] == '\n' && s[j + 1] == '\n')
  {
    if s == "" then 0
    else if |s| >= 2 && s[0] == '\n' && s[1] == '\n' then 0
    else 1 + Boundary(s[1..])
  }

  function Emitted(block: string): seq<SseEvent> {
    var parsed := Parsed(block);
    if parsed.Some? then [parsed.value] else []
  }

  /** The events of all complete blocks of a text. */
  function Drained(s: string): seq<SseEvent>
    decreases |s|
  {
    var k := Boundary(s);
    if k == |s| then [] else Emitted(s[..k]) + Drained(s[k + 2..])
  }

  /** What is left after all complete blocks. */
  function Rest(s: string): string
    decreases |s|
  {
    var k := Boundary(s);
    if k == |s| then s else Rest(s[k + 2..])
  }

  datatype Progress = Progress(events: seq<SseEvent>, buffer: string)

  /** One round of the reading loop. */
  function Feed(p: Progress, chunk: string): Progress {
    var buffer := Normalize(p.buffer + chunk);
    Progress(p.events + Drained(buffer), Rest(buffer))
  }

  function FeedAll(chunks: seq<string>): Progress {
    if chunks == [] then Progress([], "") else Feed(FeedAll(chunks[..|chunks| - 1]), chunks[|chunks| - 1])
  }

  predicate Whitespace(c: char) {
    c == ' ' || '\t' <= c <= '\r' || c == '\U{00A0}' || c == '\U{1680}' || '\U{2000}' <= c <= '\U{200A}'
    || c == '\U{2028}' || c == '\U{2029}' || c == '\U{202F}' || c == '\U{205F}' || c == '\U{3000}' || c == '\U{FEFF}'
  }

  predicate Blank(s: string) { forall k | 0 <= k < |s| :: Whitespace(s[k]) }

  /** All rounds of the loop: one for each chunk that was read, and one when the reader is done. */
  function Rounds(chunks: seq<string>): seq<string> { chunks + [""] }

  /** What the page has received once the stream ended. */
  function Received(chunks: seq<string>): seq<SseEvent> {
    var p := FeedAll(Rounds(chunks));
    if Blank(p.buffer) then p.events else p.events + Emitted(p.buffer)
  }

  lemma DrainNext(s: string)
    ensures var k := Boundary(s);
            if k == |s| then Drained(s) == [] && Rest(s) == s
            else k + 2 <= |s| && Drained(s) == Emitted(s[..k]) + Drained(s[k + 2..]) && Rest(s) == Rest(s[k + 2..])
  {
    hide Boundary, Drained, Rest, Emitted, Parsed;
    DrainedNext(s);
    RestNext(s);
  }

  lemma DrainedNext(s: string)
    ensures var k := Boundary(s);
            if k == |s| then Drained(s) == [] else k + 2 <= |s| && Drained(s) == Emitted(s[..k]) + Drained(s[k + 2..])
  {
    hide Boundary, Parsed, Emitted;
  }

  lemma RestNext(s: string)
    ensures var k := Boundary(s);
            if k == |s| then Rest(s) == s else k + 2 <= |s| && Rest(s) == Rest(s[k + 2..])
  {
    hide Boundary;
  }

  /** The inner loop: cuts off and reports every complete block. */
  method DrainBuffer(events: seq<SseEvent>, buffer: string) returns (events': seq<SseEvent>, buffer': string)
    ensures events' == events + Drained(buffer) && buffer' == Rest(buffer)
  {
    hide Drained, Rest, Boundary, Parsed;
    events', buffer' := events, buffer;
    var boundary := Boundary(buffer');
    DrainNext(buffer');
    while boundary != |buffer'|
      invariant boundary == Boundary(buffer')
      invariant events' + Drained(buffer') == events + Drained(buffer) && Rest(buffer') == Rest(buffer)
      invariant boundary == |buffer'| ==> Drained(buffer') == [] && Rest(buffer') == buffer'
      decreases |buffer'|
    {
      DrainNext(buffer');
      ghost var before := events' + Drained(buffer');
      var parsed := ParseBlock(buffer'[..boundary]);
      ghost var emitted := Emitted(buffer'[..boundary]);
      buffer' := buffer'[boundary + 2..];
      assert before == (events' + emitted) + Drained(buffer');
      if parsed.Some? { events' := events' + [parsed.value]; }
      boundary := Boundary(buffer');
      DrainNext(buffer');
    }
  }

  /** `streamTurn` after the response arrived; when the reader is done it makes one more round. */
  method StreamTurn(chunks: seq<string>) returns (events: seq<SseEvent>, buffer: string)
    ensures events == Received(chunks) && buffer == FeedAll(Rounds(chunks)).buffer
  {
    events, buffer := [], "";
    var n, done := 0, false;
    while !done
      invariant n <= |chunks| + 1 && (done <==> n == |chunks| + 1)
      invariant Progress(events, buffer) == FeedAll(Rounds(chunks)[..n])
      decreases |chunks| + 1 - n
    {
      done := n == |chunks|;
      var value := if done then "" else chunks[n];
      assert Rounds(chunks)[..n + 1][..n] == Rounds(chunks)[..n];
      buffer := Normalize(buffer + value);
      events, buffer := DrainBuffer(events, buffer);
      n := n + 1;
    }
    assert Rounds(chunks)[..n] == Rounds(chunks);
    if !Blank(buffer) {
      var parsed := ParseBlock(buffer);
      if parsed.Some? { events := events + [parsed.value]; }
    }
  }
}

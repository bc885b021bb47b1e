/** However a stream is cut into chunks, the page receives exactly the events that were sent. */
module SseTheorems {
  import opened Options
  import opened Sse

  // ---------- Cutting complete blocks off a growing buffer ----------

  lemma {:induction false} BoundaryStays(a: string, b: string)
    requires Boundary(a) < |a|
    ensures Boundary(a + b) == Boundary(a)
    decreases |a|
  {
    if !(a[0] == '\n' && |a| >= 2 && a[1] == '\n') {
      assert (a + b)[1..] == a[1..] + b;
      BoundaryStays(a[1..], b);
    }
  }

  /** Draining now and later is draining once. */
  lemma {:induction false} DrainAppend(a: string, b: string)
    ensures Drained(a + b) == Drained(a) + Drained(Rest(a) + b)
    ensures Rest(a + b) == Rest(Rest(a) + b)
    decreases |a|
  {
    hide Boundary, Parsed, Drained, Rest;
    var k := Boundary(a);
    DrainNext(a);
    if k < |a| {
      BoundaryStays(a, b);
      DrainNext(a + b);
      assert (a + b)[..k] == a[..k] && (a + b)[k + 2..] == a[k + 2..] + b;
      DrainAppend(a[k + 2..], b);
    }
  }

  // ---------- Line ends ----------

  predicate HasNoCrLf(s: string) { forall k | 0 <= k && k + 1 < |s| :: !(s[k] == '\r' && s[k + 1] == '\n') }

  /** No CR CR LF, the one sequence on which replacing line ends chunk by chunk is not stable. */
  predicate Stable(s: string) {
    forall k | 0 <= k && k + 2 < |s| :: !(s[k] == '\r' && s[k + 1] == '\r' && s[k + 2] == '\n')
  }

  lemma StableTail(s: string, k: nat)
    requires Stable(s) && k <= |s|
    ensures Stable(s[k..])
  {
    var t := s[k..];
    assert forall j | 0 <= j < |t| :: t[j] == s[k + j];
  }

  /** A text that does not start with LF or CR LF does not after normalization, unless it is empty. */
  lemma NormalizeHead(s: string)
    requires s != ""
    ensures Normalize(s) != ""
    ensures Normalize(s)[0] == if |s| >= 2 && s[0] == '\r' && s[1] == '\n' then '\n' else s[0]
  {
  }

  /** Normalizing what was normalized plus new text is normalizing everything. */
  lemma {:induction false} NormalizeAppend(a: string, b: string)
    requires Stable(a + b)
    ensures Normalize(Normalize(a) + b) == Normalize(a + b)
    decreases |a|, 1
  {
    hide Normalize;
    if a == "" {
      EmptyText();
    } else if |a| >= 2 && a[0] == '\r' && a[1] == '\n' {
      var t := a[2..];
      assert a == "\r\n" + t && a + b == "\r\n" + (t + b) && (a + b)[2..] == t + b;
      StableTail(a + b, 2);
      NormalizeAppend(t, b);
      NormalizeCrLf(t);
      NormalizeCrLf(t + b);
      assert Normalize(a) + b == ['\n'] + (Normalize(t) + b);
      NormalizeCons('\n', Normalize(t) + b);
    } else {
      assert a == [a[0]] + a[1..];
      NormalizeAppendCons(a[0], a[1..], b);
    }
  }

  lemma {:induction false} NormalizeAppendCons(c: char, t: string, b: string)
    requires Stable([c] + t + b) && (c == '\r' && t != "" ==> t[0] != '\n')
    ensures Normalize(Normalize([c] + t) + b) == Normalize([c] + t + b)
    decreases |t| + 1, 0
  {
    hide Normalize;
    var a := [c] + t;
    assert a + b == [c] + (t + b) && (a + b)[1..] == t + b;
    NormalizeCons(c, t);
    if t == "" {
      EmptyText();
    } else {
      StableTail(a + b, 1);
      NormalizeAppend(t, b);
      NormalizeHead(t);
      assert forall k | 0 <= k < |a| :: (a + b)[k] == a[k];
      if |t| >= 2 { assert !((a + b)[0] == '\r' && (a + b)[1] == '\r' && (a + b)[2] == '\n'); }
      assert Normalize(a) + b == [c] + (Normalize(t) + b);
      NormalizeCons(c, Normalize(t) + b);
      NormalizeCons(c, t + b);
    }
  }

  lemma NormalizeCrLf(t: string)
    ensures Normalize("\r\n" + t) == ['\n'] + Normalize(t)
  {
    assert ("\r\n" + t)[2..] == t;
  }

  lemma NormalizeCons(c: char, s: string)
    requires c != '\r' || s == "" || s[0] != '\n'
    ensures Normalize([c] + s) == [c] + Normalize(s)
  {
    assert ([c] + s)[1..] == s;
  }

  /** Nothing is left to replace after one replacement, in a stable text. */
  lemma {:induction false} NormalizeLeavesNone(s: string)
    requires Stable(s)
    ensures HasNoCrLf(Normalize(s))
    decreases |s|
  {
    if s != "" {
      var cut := if |s| >= 2 && s[0] == '\r' && s[1] == '\n' then 2 else 1;
      StableTail(s, cut);
      NormalizeLeavesNone(s[cut..]);
      var head, tail := Normalize(s)[0], Normalize(s[cut..]);
      assert Normalize(s) == [head] + tail;
      if s[cut..] != "" {
        NormalizeHead(s[cut..]);
        assert s[cut..][0] == s[cut];
      }
      assert forall k | 0 < k < |Normalize(s)| :: Normalize(s)[k] == tail[k - 1];
    }
  }

  lemma {:induction false} NormalizeSplit(a: string, b: string)
    requires HasNoCrLf(a) && (a == "" || a[|a| - 1] != '\r')
    ensures Normalize(a + b) == a + Normalize(b)
    decreases |a|
  {
    hide Normalize, HasNoCrLf;
    if a == "" {
      assert a + b == b;
    } else {
      NoCrLfTail(a);
      NormalizeSplit(a[1..], b);
      assert a + b == [a[0]] + (a[1..] + b) && a + Normalize(b) == [a[0]] + (a[1..] + Normalize(b));
      if |a| >= 2 { assert (a[1..] + b)[0] == a[1] && a[1..][|a| - 2] == a[|a| - 1]; }
      NormalizeCons(a[0], a[1..] + b);
    }
  }

  lemma NoCrLfTail(s: string)
    requires HasNoCrLf(s) && s != ""
    ensures HasNoCrLf(s[1..]) && (|s| >= 2 && s[0] == '\r' ==> s[1] != '\n')
  {
    assert forall k | 0 <= k < |s| - 1 :: s[1..][k] == s[k + 1];
  }

  /** The drained part of a buffer: a prefix that ends in LF and has nothing left to drain. */
  lemma {:induction false} DrainedPrefix(s: string)
    ensures exists a :: s == a + Rest(s) && (a == "" || a[|a| - 1] == '\n') && Drained(a) == Drained(s) && Rest(a) == ""
    decreases |s|
  {
    hide Boundary, Parsed, Drained, Rest;
    var k := Boundary(s);
    DrainNext(s);
    DrainNext("");
    if k == |s| {
      assert s == "" + Rest(s);
    } else {
      DrainedPrefix(s[k + 2..]);
      var a :| s[k + 2..] == a + Rest(s[k + 2..]) && (a == "" || a[|a| - 1] == '\n')
          && Drained(a) == Drained(s[k + 2..]) && Rest(a) == "";
      PrefixGrows(s, k, a);
    }
  }

  lemma PrefixGrows(s: string, k: nat, a: string)
    requires k == Boundary(s) < |s| && s[k + 2..] == a + Rest(s[k + 2..]) && (a == "" || a[|a| - 1] == '\n')
    requires Drained(a) == Drained(s[k + 2..]) && Rest(a) == ""
    ensures var p := s[..k + 2] + a;
            s == p + Rest(s) && p[|p| - 1] == '\n' && Drained(p) == Drained(s) && Rest(p) == ""
  {
    hide Parsed, Drained, Rest;
    var p := s[..k + 2] + a;
    DrainNext(s);
    assert p[..k + 2] == s[..k + 2];
    BoundaryOfPrefix(s, k, a);
    DrainNext(p);
    assert p[k + 2..] == a && p[..k] == s[..k];
  }

  lemma {:induction false} BoundaryOfPrefix(s: string, k: nat, a: string)
    requires k == Boundary(s) < |s|
    ensures Boundary(s[..k + 2] + a) == k
    decreases |s|
  {
    var p := s[..k + 2] + a;
    if k > 0 {
      assert Boundary(s[1..]) == k - 1;
      BoundaryOfPrefix(s[1..], k - 1, a);
      assert p[1..] == s[1..][..k + 1] + a;
      assert p[0] == s[0] && p[1] == s[1];
    }
  }

  // ---------- Chunk invariance ----------

  lemma {:induction false} PrefixIsStable(a: string, b: string)
    requires Stable(a + b)
    ensures Stable(a)
  {
    assert forall k | 0 <= k < |a| :: (a + b)[k] == a[k];
  }

  /** What is cut off a text as complete blocks. */
  function Cut(s: string): string { if |Rest(s)| <= |s| then s[..|s| - |Rest(s)|] else "" }

  lemma CutAndRest(s: string)
    ensures s == Cut(s) + Rest(s) && (Cut(s) == "" || Cut(s)[|Cut(s)| - 1] == '\n')
    ensures Drained(Cut(s)) == Drained(s) && Rest(Cut(s)) == ""
  {
    hide Drained, Rest;
    DrainedPrefix(s);
    var a :| s == a + Rest(s) && (a == "" || a[|a| - 1] == '\n') && Drained(a) == Drained(s) && Rest(a) == "";
    assert Cut(s) == a;
  }

  /** Replacing the line ends of a longer text leaves what was cut off before as it is. */
  lemma NormalSplits(text: string, chunk: string)
    requires Stable(text + chunk)
    ensures var before := Normalize(text);
            Normalize(text + chunk) == Cut(before) + Normalize(Rest(before) + chunk)
  {
    hide Drained, Rest, Normalize, Cut;
    var before := Normalize(text);
    PrefixIsStable(text, chunk);
    NormalizeAppend(text, chunk);
    NormalizeLeavesNone(text);
    CutAndRest(before);
    assert forall k | 0 <= k < |Cut(before)| :: before[k] == Cut(before)[k];
    NormalizeSplit(Cut(before), Rest(before) + chunk);
    assert before + chunk == Cut(before) + (Rest(before) + chunk);
  }

  /** One round continues where draining the whole text so far had stopped. */
  lemma FeedContinues(text: string, chunk: string)
    requires Stable(text + chunk)
    ensures var before, after := Normalize(text), Normalize(text + chunk);
            && Drained(after) == Drained(before) + Drained(Normalize(Rest(before) + chunk))
            && Rest(after) == Rest(Normalize(Rest(before) + chunk))
  {
    hide Drained, Rest, Normalize, Cut;
    var before := Normalize(text);
    NormalSplits(text, chunk);
    CutAndRest(before);
    DrainAppend(Cut(before), Normalize(Rest(before) + chunk));
    assert "" + Normalize(Rest(before) + chunk) == Normalize(Rest(before) + chunk);
  }

  /** Only the text matters, not how it is cut: every chunking of a stable text gives the same progress. */
  lemma {:induction false} ChunkingIsInvisible(chunks: seq<string>)
    requires Stable(Concat(chunks))
    ensures FeedAll(chunks) == Progress(Drained(Normalize(Concat(chunks))), Rest(Normalize(Concat(chunks))))
    decreases |chunks|
  {
    hide Drained, Rest, Normalize;
    if chunks == [] {
      EmptyText();
    } else {
      var front, last := chunks[..|chunks| - 1], chunks[|chunks| - 1];
      assert chunks == front + [last];
      ConcatAppend(front, last);
      PrefixIsStable(Concat(front), last);
      ChunkingIsInvisible(front);
      FeedContinues(Concat(front), last);
    }
  }

  /** What the page receives of a stable text does not depend on the chunks it came in. */
  lemma ReceivedIgnoresChunking(chunks: seq<string>, others: seq<string>)
    requires Concat(chunks) == Concat(others) && Stable(Concat(chunks))
    ensures Received(chunks) == Received(others)
  {
    hide Drained, Rest, Normalize, FeedAll;
    ConcatAppend(chunks, "");
    ConcatAppend(others, "");
    ChunkingIsInvisible(Rounds(chunks));
    ChunkingIsInvisible(Rounds(others));
  }

  lemma EmptyText()
    ensures Normalize("") == "" && Drained("") == [] && Rest("") == ""
  {
  }

  // ---------- Printed streams ----------

  lemma {:induction false} FindSkips(a: string, b: string, c: char)
    requires forall k | 0 <= k < |a| :: a[k] != c
    ensures Find(a + b, c) == |a| + Find(b, c)
    decreases |a|
  {
    if a == "" {
      assert a + b == b;
    } else {
      assert (a + b)[1..] == a[1..] + b;
      FindSkips(a[1..], b, c);
    }
  }

  lemma LinesOfOne(s: string)
    requires OneLine(s)
    ensures Lines(s) == [s]
  {
    FindSkips(s, "", '\n');
    assert s + "" == s;
  }

  lemma LinesOfTwo(a: string, b: string)
    requires OneLine(a) && OneLine(b)
    ensures Lines(a + "\n" + b) == [a, b]
  {
    var s := a + "\n" + b;
    assert s == a + ("\n" + b);
    FindSkips(a, "\n" + b, '\n');
    assert s[..|a|] == a && s[|a| + 1..] == b;
    LinesOfOne(b);
  }

  lemma FieldLine(name: string, value: string)
    requires forall k | 0 <= k < |name| :: name[k] != ':'
    requires name != ""
    ensures Field(name + ": " + value) == name && Value(name + ": " + value) == value && !Ignored(name + ": " + value)
  {
    var line := name + ": " + value;
    assert line == name + (": " + value);
    FindSkips(name, ": " + value, ':');
    assert line[|name| + 2..] == value;
  }

  lemma EventBlockParses(e: SseEvent)
    requires OneLine(e.event) && OneLine(e.data)
    ensures Parsed("event: " + e.event + "\n" + ("data: " + e.data)) == Some(e)
  {
    hide Lines, Field, Value;
    var first, second := "event" + ": " + e.event, "data" + ": " + e.data;
    assert "event: " + e.event == first && "data: " + e.data == second;
    LinesOfTwo(first, second);
    FieldLine("event", e.event);
    FieldLine("data", e.data);
    var lines := [first, second];
    assert lines[..1] == [first] && [first][..0] == [];
    assert FoldLines([first]) == Partial(e.event, []);
  }

  lemma KeepAliveParses()
    ensures Parsed(": keep-alive") == None
  {
    hide Lines, Field, Value, Join;
    var line := ": keep-alive";
    LinesOfOne(line);
    assert Ignored(line);
    assert [line][..0] == [];
    assert FoldLines([line]) == Fold(FoldLines([]), line);
  }

  lemma LineThenBoundary(a: string, b: string)
    requires OneLine(a)
    ensures Boundary(a + "\n\n" + b) == |a|
    decreases |a|
  {
    var s := a + "\n\n" + b;
    if a == "" {
      assert s[0] == '\n' && s[1] == '\n';
    } else {
      assert s[1..] == a[1..] + "\n\n" + b;
      LineThenBoundary(a[1..], b);
      assert s[0] == a[0];
    }
  }

  lemma TwoLinesThenBoundary(a: string, c: string, b: string)
    requires OneLine(a) && OneLine(c) && c != ""
    ensures Boundary(a + "\n" + c + "\n\n" + b) == |a| + 1 + |c|
    decreases |a|
  {
    var s := a + "\n" + c + "\n\n" + b;
    if a == "" {
      assert s[1..] == c + "\n\n" + b;
      assert s[1] == c[0];
      LineThenBoundary(c, b);
    } else {
      assert s[1..] == a[1..] + "\n" + c + "\n\n" + b;
      assert s[0] == a[0];
      TwoLinesThenBoundary(a[1..], c, b);
    }
  }

  lemma KeepAliveDrains(tail: string)
    ensures Drained(Format(KeepAlive) + tail) == Drained(tail) && Rest(Format(KeepAlive) + tail) == Rest(tail)
  {
    hide Boundary, Parsed, Drained, Rest;
    var s := ": keep-alive" + "\n\n" + tail;
    DrainNext(s);
    LineThenBoundary(": keep-alive", tail);
    assert s[..12] == ": keep-alive" && s[14..] == tail;
    KeepAliveParses();
    assert Format(KeepAlive) + tail == s;
  }

  lemma EventDrains(e: SseEvent, tail: string)
    requires OneLine(e.event) && OneLine(e.data)
    ensures Drained(FormatEvent(e) + tail) == [e] + Drained(tail) && Rest(FormatEvent(e) + tail) == Rest(tail)
  {
    hide Boundary, Parsed, Drained, Rest, OneLine, FormatEvent;
    var block := Block(e);
    var s := FormatEvent(e) + tail;
    EventLayout(e, tail);
    DrainNext(s);
    EventBlockParses(e);
  }

  function Block(e: SseEvent): string { "event: " + e.event + "\n" + ("data: " + e.data) }

  /** A printed event is one block, ended by the first blank line of the text. */
  lemma EventLayout(e: SseEvent, tail: string)
    requires OneLine(e.event) && OneLine(e.data)
    ensures var s, block := FormatEvent(e) + tail, Block(e);
            Boundary(s) == |block| && |block| + 2 <= |s| && s[..|block|] == block && s[|block| + 2..] == tail
  {
    hide OneLine, Boundary;
    var first, second := "event: " + e.event, "data: " + e.data;
    PrefixedLines(e);
    TwoLinesThenBoundary(first, second, tail);
    assert FormatEvent(e) + tail == first + "\n" + second + "\n\n" + tail;
    assert first + "\n" + second + "\n\n" + tail == Block(e) + ("\n\n" + tail);
  }

  lemma PrefixedLines(e: SseEvent)
    requires OneLine(e.event) && OneLine(e.data)
    ensures OneLine("event: " + e.event) && OneLine("data: " + e.data)
  {
  }

  /** One printed item in front of a text is cut off as one block and reported as itself. */
  lemma ItemDrains(item: Item, tail: string)
    requires Printable(item)
    ensures Drained(Format(item) + tail) == (if item.Emit? then [item.event] else []) + Drained(tail)
    ensures Rest(Format(item) + tail) == Rest(tail)
  {
    hide Drained, Rest, FormatEvent;
    if item.KeepAlive? { KeepAliveDrains(tail); } else { EventDrains(item.event, tail); }
  }

  lemma {:induction false} PrintedDrains(items: seq<Item>)
    requires forall item | item in items :: Printable(item)
    ensures Drained(Printed(items)) == EventsOf(items) && Rest(Printed(items)) == ""
    decreases |items|
  {
    hide Boundary, Parsed, Drained, Rest, Format;
    DrainNext("");
    EmptyBoundary();
    if items != [] {
      ItemDrains(items[0], Printed(items[1..]));
      PrintedDrains(items[1..]);
    }
  }

  lemma EmptyBoundary()
    ensures Boundary("") == 0
  {
  }

  predicate NoCr(s: string) { forall k | 0 <= k < |s| :: s[k] != '\r' }

  lemma {:induction false} PrintedHasNoCr(items: seq<Item>)
    requires forall item | item in items :: Printable(item)
    ensures NoCr(Printed(items))
    decreases |items|
  {
    if items != [] {
      FormatHasNoCr(items[0]);
      PrintedHasNoCr(items[1..]);
    }
  }

  lemma FormatHasNoCr(item: Item)
    requires Printable(item)
    ensures NoCr(Format(item))
  {
  }

  lemma NoCrNormal(s: string)
    requires NoCr(s)
    ensures Normalize(s) == s && Stable(s)
  {
    NormalizeSplit(s, "");
    assert s + "" == s;
  }

  /**
   For any stream of events and keep-alives and any way of cutting it into chunks, the page receives
   exactly the original events, in order, and its buffer ends empty.
   */
  lemma StreamRoundTrip(items: seq<Item>, chunks: seq<string>)
    requires forall item | item in items :: Printable(item)
    requires Concat(chunks) == Printed(items)
    ensures Received(chunks) == EventsOf(items) && FeedAll(Rounds(chunks)).buffer == ""
  {
    hide Drained, Rest, Normalize, Printed, FeedAll, Stable, Concat, EventsOf;
    PrintedHasNoCr(items);
    NoCrNormal(Printed(items));
    ConcatAppend(chunks, "");
    assert Printed(items) + "" == Printed(items);
    ChunkingIsInvisible(Rounds(chunks));
    PrintedDrains(items);
  }

  /** End to end: what `stream_turn` yields, re-cut by the network, arrives as started plus the queue. */
  lemma TurnArrives(started: SseEvent, waits: seq<Waited>, chunks: seq<string>)
    requires forall item | item in [Emit(started)] + Sent(waits) :: Printable(item)
    requires Concat(chunks) == Concat(Chunks([Emit(started)] + Sent(waits)))
    ensures Received(chunks) == EventsOf([Emit(started)] + Sent(waits))
  {
    ChunksPrint([Emit(started)] + Sent(waits));
    StreamRoundTrip([Emit(started)] + Sent(waits), chunks);
  }
}

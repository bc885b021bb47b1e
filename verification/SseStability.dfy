/** Exactly for which texts replacing line ends in two steps is the same as replacing them once. */
module SseStability {
  import opened Sse
  import opened SseTheorems

  // ---------- Lengths ----------

  /** Replacing line ends does not lengthen, and a text in front gains nothing by it. */
  lemma {:induction false} NormalizeShortens(a: string, b: string)
    ensures |Normalize(a + b)| <= |a| + |Normalize(b)|
    decreases |a|, 1
  {
    if a == "" {
      assert a + b == b;
    } else if |a| >= 2 && a[0] == '\r' && a[1] == '\n' {
      assert a + b == "\r\n" + (a[2..] + b);
      NormalizeCrLf(a[2..] + b);
      NormalizeShortens(a[2..], b);
    } else {
      assert a == [a[0]] + a[1..];
      OneMoreChar(a[0], a[1..], b);
    }
  }

  lemma {:induction false} OneMoreChar(c: char, t: string, b: string)
    requires t == "" || !(c == '\r' && t[0] == '\n')
    ensures |Normalize([c] + t + b)| <= 1 + |t| + |Normalize(b)|
    decreases |t| + 1, 0
  {
    hide Normalize;
    NormalizeShortens(t, b);
    assert [c] + t + b == [c] + (t + b);
    if t == "" && c == '\r' && b != "" && b[0] == '\n' {
      assert [c] + (t + b) == "\r\n" + b[1..] && b == ['\n'] + b[1..];
      NormalizeCrLf(b[1..]);
      NormalizeCons('\n', b[1..]);
    } else {
      NormalizeCons(c, t + b);
    }
  }

  /** A cut that does not come between CR and LF is invisible. */
  lemma {:induction false} NormalizeConcat(a: string, b: string)
    requires a == "" || b == "" || a[|a| - 1] != '\r' || b[0] != '\n'
    ensures Normalize(a + b) == Normalize(a) + Normalize(b)
    decreases |a|
  {
    hide Normalize;
    if a == "" {
      EmptyText();
      assert a + b == b;
    } else if |a| >= 2 && a[0] == '\r' && a[1] == '\n' {
      var t := a[2..];
      assert a == "\r\n" + t && a + b == "\r\n" + (t + b);
      NormalizeCrLf(t);
      NormalizeCrLf(t + b);
      NormalizeConcat(t, b);
      assert ['\n'] + Normalize(t) + Normalize(b) == ['\n'] + (Normalize(t) + Normalize(b));
    } else {
      var c, t := a[0], a[1..];
      assert a == [c] + t && a + b == [c] + (t + b);
      NormalizeCons(c, t);
      NormalizeCons(c, t + b);
      NormalizeConcat(t, b);
      assert [c] + Normalize(t) + Normalize(b) == [c] + (Normalize(t) + Normalize(b));
    }
  }

  lemma CrCrLf(b: string)
    ensures Normalize("\r\r\n" + b) == "\r\n" + Normalize(b)
    ensures Normalize("\r\n" + b) == "\n" + Normalize(b)
  {
    hide Normalize;
    NormalizeCrLf(b);
    assert "\r\r\n" + b == ['\r'] + ("\r\n" + b);
    NormalizeCons('\r', "\r\n" + b);
  }

  // ---------- CR CR LF breaks it ----------

  /** A CR CR LF at `k`: the text up to and including it, and the rest. */
  predicate BreaksAt(s: string, k: nat) { k + 2 < |s| && s[k] == '\r' && s[k + 1] == '\r' && s[k + 2] == '\n' }

  lemma FirstBreak(s: string) returns (k: nat)
    requires !Stable(s)
    ensures BreaksAt(s, k)
  {
    k :| 0 <= k && k + 2 < |s| && s[k] == '\r' && s[k + 1] == '\r' && s[k + 2] == '\n';
  }

  lemma BrokenParts(s: string, k: nat)
    requires BreaksAt(s, k)
    ensures var p, b := Normalize(s[..k]), s[k + 3..];
            && Normalize(s) == p + ("\r\n" + Normalize(b))
            && Normalize(s[..k + 3]) == p + "\r\n"
  {
    hide Normalize;
    var a, b := s[..k], s[k + 3..];
    assert s == a + ("\r\r\n" + b) && s[..k + 3] == a + "\r\r\n";
    NormalizeConcat(a, "\r\r\n" + b);
    NormalizeConcat(a, "\r\r\n");
    CrCrLf(b);
    CrCrLf("");
    EmptyText();
    assert "\r\r\n" + "" == "\r\r\n" && "\r\n" + "" == "\r\n";
  }

  lemma BrokenStep(s: string, k: nat)
    requires BreaksAt(s, k)
    ensures Normalize(Normalize(s[..k + 3]) + s[k + 3..]) != Normalize(s)
  {
    hide Normalize;
    var p, b := Normalize(s[..k]), s[k + 3..];
    BrokenParts(s, k);
    NormalizeShortens(p, "\r\n" + b);
    CrCrLf(b);
    assert (p + "\r\n") + b == p + ("\r\n" + b);
  }

  /** Replacing line ends of a beginning and then of everything is as replacing once, for every cut,
   * iff it is stable. */
  lemma NormalizeInStepsIff(s: string)
    ensures (forall a, b | a + b == s :: Normalize(Normalize(a) + b) == Normalize(s)) <==> Stable(s)
  {
    hide Normalize;
    if Stable(s) {
      forall a, b | a + b == s ensures Normalize(Normalize(a) + b) == Normalize(s) { NormalizeAppend(a, b); }
    } else {
      var k := FirstBreak(s);
      BrokenStep(s, k);
      assert s[..k + 3] + s[k + 3..] == s;
    }
  }

  lemma TwoChunks(a: string, b: string)
    ensures Concat([a, b]) == a + b
  {
    assert [a, b] == [a] + [b] && [a][1..] == [];
    ConcatAppend([a], b);
    assert Concat([a]) == a + Concat([]);
  }

  lemma OneChunk(a: string)
    ensures Concat([a]) == a
  {
    assert [a][1..] == [];
    assert a + Concat([]) == a;
  }

  // ---------- What the page receives then ----------

  const HEAD := "data: x"

  /** With CR CR LF the page itself receives different data for the same text in different chunks. */
  lemma CrCrLfShows()
    ensures Concat([HEAD + "\r\r\n\n\n"]) == Concat([HEAD + "\r\r\n", "\n\n"])
    ensures Received([HEAD + "\r\r\n\n\n"]) == [SseEvent("message", "x\r")]
    ensures Received([HEAD + "\r\r\n", "\n\n"]) == [SseEvent("message", "x")]
  {
    hide Normalize, FeedAll, Drained, Rest, Concat;
    OneChunk(HEAD + "\r\r\n\n\n");
    TwoChunks(HEAD + "\r\r\n", "\n\n");
    assert HEAD + "\r\r\n" + "\n\n" == HEAD + "\r\r\n\n\n";
    UncutReceived();
    CutReceived();
  }

  lemma UncutReceived()
    ensures Received([HEAD + "\r\r\n\n\n"]) == [SseEvent("message", "x\r")]
  {
    hide Normalize, Drained, Rest, Parsed, FeedAll;
    var text, once := HEAD + "\r\r\n\n\n", HEAD + "\r\n\n\n";
    HeadNormalizes("\r\r\n\n\n");
    assert "\r\r\n\n\n" == "\r\r\n" + "\n\n";
    CrCrLf("\n\n");
    NoCrNormal("\n\n");
    assert "\r\n" + "\n\n" == "\r\n\n\n";
    BlockDrains(HEAD + "\r", "\n");
    assert HEAD + "\r" + "\n\n" + "\n" == once;
    DataLine("x\r");
    assert HEAD + "\r" == "data" + ": " + "x\r";
    LastRound([text], once, [SseEvent("message", "x\r")]);
  }

  lemma CutReceived()
    ensures Received([HEAD + "\r\r\n", "\n\n"]) == [SseEvent("message", "x")]
  {
    hide Normalize, Drained, Rest, Parsed, FeedAll;
    var first := HEAD + "\r\r\n";
    HeadNormalizes("\r\r\n");
    assert "\r\r\n" == "\r\r\n" + "";
    CrCrLf("");
    EmptyText();
    assert "\r\n" + "" == "\r\n";
    NothingDrains(HEAD + "\r\n");
    FirstRound(first, HEAD + "\r\n");
    HeadNormalizes("\r\n\n\n");
    CrCrLf("\n\n");
    NoCrNormal("\n\n");
    assert "\r\n" + "\n\n" == "\r\n\n\n" && "\n" + "\n\n" == "\n\n\n";
    assert HEAD + "\r\n" + "\n\n" == HEAD + "\r\n\n\n";
    BlockDrains(HEAD, "\n");
    assert HEAD + "\n\n" + "\n" == HEAD + "\n\n\n";
    DataLine("x");
    assert HEAD == "data" + ": " + "x";
    SecondRound(first, "\n\n", HEAD + "\r\n", HEAD + "\n\n\n", [SseEvent("message", "x")]);
  }

  lemma HeadNormalizes(t: string)
    requires t != "" && t[0] != '\n'
    ensures Normalize(HEAD + t) == HEAD + Normalize(t)
  {
    hide Normalize;
    NormalizeConcat(HEAD, t);
    NoCrNormal(HEAD);
  }

  /** One line, a blank line and a last LF: one block, and the LF is left. */
  lemma BlockDrains(line: string, tail: string)
    requires (forall k | 0 <= k < |line| :: line[k] != '\n') && tail == "\n"
    ensures Drained(line + "\n\n" + tail) == Emitted(line) && Rest(line + "\n\n" + tail) == "\n"
  {
    hide Drained, Rest, Parsed, Boundary;
    var s := line + "\n\n" + tail;
    LfOnlyBoundary(line, tail);
    DrainNext(s);
    assert s[..|line|] == line && s[|line| + 2..] == tail;
    DrainNext("\n");
    SingleLf();
  }

  lemma SingleLf()
    ensures Boundary("\n") == 1
  {
  }

  lemma {:induction false} LfOnlyBoundary(line: string, tail: string)
    requires forall k | 0 <= k < |line| :: line[k] != '\n'
    ensures Boundary(line + "\n\n" + tail) == |line|
    decreases |line|
  {
    var s := line + "\n\n" + tail;
    if line == "" {
      assert s[0] == '\n' && s[1] == '\n';
    } else {
      assert s[1..] == line[1..] + "\n\n" + tail && s[0] == line[0];
      LfOnlyBoundary(line[1..], tail);
    }
  }

  lemma NothingDrains(s: string)
    requires forall j | 0 <= j && j + 1 < |s| :: !(s[j] == '\n' && s[j + 1] == '\n')
    ensures Drained(s) == [] && Rest(s) == s
  {
    hide Drained, Rest, Parsed;
    DrainNext(s);
  }

  lemma DataLine(value: string)
    requires forall k | 0 <= k < |value| :: value[k] != '\n'
    ensures Emitted("data" + ": " + value) == [SseEvent("message", value)]
  {
    hide Lines, Field, Value, Ignored;
    var line := "data" + ": " + value;
    FindSkips(line, "", '\n');
    assert line + "" == line;
    OneLineOnly(line);
    FieldLine("data", value);
    assert [line][..0] == [];
    assert FoldLines([line]) == Fold(FoldLines([]), line);
  }

  lemma OneLineOnly(line: string)
    requires Find(line, '\n') == |line|
    ensures Lines(line) == [line]
  {
  }

  lemma FirstRound(first: string, once: string)
    requires Normalize(first) == once && Drained(once) == [] && Rest(once) == once
    ensures FeedAll([first]) == Progress([], once)
  {
    hide Normalize, Drained, Rest;
    assert [first][..0] == [] && "" + first == first;
    assert FeedAll([first]) == Feed(FeedAll([]), first);
  }

  /** A round that drains everything but a last LF, and the round after it, which finds nothing more. */
  lemma LastRound(chunks: seq<string>, once: string, events: seq<SseEvent>)
    requires |chunks| == 1 && Normalize(chunks[0]) == once && Drained(once) == events && Rest(once) == "\n"
    ensures Received(chunks) == events
  {
    hide Normalize, Drained, Rest, Parsed;
    assert chunks == [chunks[0]] && Rounds(chunks)[..1] == chunks && chunks[..0] == [] && "" + chunks[0] == chunks[0];
    assert FeedAll(chunks) == Feed(FeedAll([]), chunks[0]);
    DoneRound(chunks, events);
  }

  lemma SecondRound(first: string, second: string, held: string, once: string, events: seq<SseEvent>)
    requires FeedAll([first]) == Progress([], held) && Normalize(held + second) == once
    requires Drained(once) == events && Rest(once) == "\n"
    ensures Received([first, second]) == events
  {
    hide Normalize, Drained, Rest, Parsed;
    assert [first, second][..1] == [first];
    assert FeedAll([first, second]) == Feed(FeedAll([first]), second);
    DoneRound([first, second], events);
  }

  lemma DoneRound(chunks: seq<string>, events: seq<SseEvent>)
    requires FeedAll(chunks) == Progress(events, "\n")
    ensures Received(chunks) == events
  {
    hide Normalize, Drained, Rest, Parsed;
    assert Rounds(chunks)[..|chunks|] == chunks;
    assert FeedAll(Rounds(chunks)) == Feed(FeedAll(chunks), "");
    assert "\n" + "" == "\n";
    NoCrNormal("\n");
    NothingDrains("\n");
  }
}

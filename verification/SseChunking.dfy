/** Exactly for which texts the finished loop cuts its blocks from the same text, however it is chunked. */
module SseChunking {
  import opened Sse
  import opened SseTheorems
  import opened SseStability

  // ---------- What the loop works on ----------

  /** The text of all blocks cut off so far, with the blank lines that ended them. */
  function CutAll(chunks: seq<string>): string {
    if chunks == [] then ""
    else
      var front := chunks[..|chunks| - 1];
      CutAll(front) + Cut(Normalize(FeedAll(front).buffer + chunks[|chunks| - 1]))
  }

  /** The text that the loop has seen: what it cut into blocks and what is in its buffer. */
  function Seen(chunks: seq<string>): string { CutAll(chunks) + FeedAll(chunks).buffer }

  lemma SeenNext(front: seq<string>, last: string)
    ensures var text := Normalize(FeedAll(front).buffer + last);
            && Seen(front + [last]) == CutAll(front) + text
            && CutAll(front + [last]) == CutAll(front) + Cut(text)
            && FeedAll(front + [last]) == Progress(FeedAll(front).events + Drained(text), Rest(text))
  {
    hide Drained, Rest, Normalize, Cut;
    assert (front + [last])[..|front|] == front;
    CutAndRest(Normalize(FeedAll(front).buffer + last));
  }

  predicate HasBlank(s: string) { exists j :: 0 <= j && j + 1 < |s| && s[j] == '\n' && s[j + 1] == '\n' }

  lemma {:induction false} RestHasNoBlank(s: string)
    ensures !HasBlank(Rest(s))
    decreases |s|
  {
    hide Drained, Rest, Parsed;
    DrainNext(s);
    var k := Boundary(s);
    if k < |s| { RestHasNoBlank(s[k + 2..]); }
  }

  lemma CutIs(s: string, a: string)
    requires s == a + Rest(s)
    ensures Cut(s) == a
  {
    hide Rest;
    assert (a + Rest(s))[..|a|] == a;
  }

  lemma Regroup(a: string, b: string, c: string)
    ensures a + (b + c) == (a + b) + c
  {
  }

  lemma CutNext(s: string)
    ensures var k := Boundary(s);
            if k == |s| then Cut(s) == "" else k + 2 <= |s| && Cut(s) == s[..k + 2] + Cut(s[k + 2..])
  {
    hide Drained, Rest, Parsed, Boundary, Cut;
    RestNext(s);
    var k := Boundary(s);
    if k < |s| {
      var p, t := s[..k + 2], s[k + 2..];
      CutAndRest(t);
      Regroup(p, Cut(t), Rest(t));
      assert s == p + t;
      CutIs(s, p + Cut(t));
    } else {
      CutIs(s, "");
    }
  }

  predicate EndsBlank(s: string) { |s| >= 2 && s[|s| - 2] == '\n' && s[|s| - 1] == '\n' }

  /** What was cut off is empty or ends in a blank line. */
  lemma {:induction false} CutEnds(s: string)
    ensures Cut(s) == "" || EndsBlank(Cut(s))
    decreases |s|
  {
    hide Drained, Rest, Parsed, Cut;
    CutNext(s);
    var k := Boundary(s);
    if k < |s| { CutEnds(s[k + 2..]); }
  }

  lemma {:induction false} CutAllEnds(chunks: seq<string>)
    ensures CutAll(chunks) == "" || EndsBlank(CutAll(chunks))
    decreases |chunks|
  {
    hide Normalize, Cut, FeedAll;
    if chunks != [] {
      var front, last := chunks[..|chunks| - 1], chunks[|chunks| - 1];
      CutAllEnds(front);
      CutEnds(Normalize(FeedAll(front).buffer + last));
    }
  }

  /** The text that the loop has seen decides what it reported and what it holds. */
  lemma {:induction false} SeenDecides(chunks: seq<string>)
    ensures FeedAll(chunks) == Progress(Drained(Seen(chunks)), Rest(Seen(chunks)))
    ensures Drained(CutAll(chunks)) == FeedAll(chunks).events && Rest(CutAll(chunks)) == ""
    ensures !HasBlank(FeedAll(chunks).buffer)
    decreases |chunks|
  {
    hide Drained, Rest, Normalize, Cut, FeedAll;
    var d, b := CutAll(chunks), FeedAll(chunks).buffer;
    if chunks == [] {
      EmptyText();
      NoChunks();
    } else {
      var front, last := chunks[..|chunks| - 1], chunks[|chunks| - 1];
      assert chunks == front + [last];
      SeenDecides(front);
      SeenNext(front, last);
      var text := Normalize(FeedAll(front).buffer + last);
      CutAndRest(text);
      RestHasNoBlank(text);
      DrainAppend(CutAll(front), Cut(text));
      assert "" + Cut(text) == Cut(text);
    }
    DrainAppend(d, b);
    assert "" + b == b;
    NoBlankStays(b);
  }

  lemma NoChunks()
    ensures FeedAll([]) == Progress([], "") && CutAll([]) == "" && Seen([]) == "" && Concat([]) == ""
  {
  }

  lemma NoBlankStays(s: string)
    requires !HasBlank(s)
    ensures Drained(s) == [] && Rest(s) == s && Cut(s) == ""
  {
    hide Drained, Rest, Parsed;
    NothingDrains(s);
  }

  // ---------- Line ends with any number of CR ----------

  function Prepend(c: char, t: string): string { if c == '\r' && t != "" && t[0] == '\n' then t else [c] + t }

  /** The text in which every LF lost all the CR before it. */
  function Settled(s: string): string { if s == "" then "" else Prepend(s[0], Settled(s[1..])) }

  lemma {:induction false} SettledFixed(s: string)
    requires HasNoCrLf(s)
    ensures Settled(s) == s
    decreases |s|
  {
    if s != "" {
      NoCrLfTail(s);
      SettledFixed(s[1..]);
    }
  }

  lemma {:induction false} SettledLeft(a: string, c: string)
    ensures Settled(Settled(a) + c) == Settled(a + c)
    decreases |a|
  {
    if a == "" {
      assert "" + c == c && a + c == c;
    } else {
      var h, t := a[0], a[1..];
      SettledLeft(t, c);
      assert (a + c)[1..] == t + c;
      var st := Settled(t);
      if h == '\r' && st != "" && st[0] == '\n' {
        assert (st + c)[0] == '\n';
        assert Settled(st + c) == ['\n'] + Settled((st + c)[1..]);
      } else {
        assert ([h] + st + c)[1..] == st + c;
      }
    }
  }

  lemma {:induction false} SettledRight(a: string, b: string, c: string)
    requires Settled(b) == Settled(c)
    ensures Settled(a + b) == Settled(a + c)
    decreases |a|
  {
    if a == "" {
      assert a + b == b && a + c == c;
    } else {
      assert (a + b)[1..] == a[1..] + b && (a + c)[1..] == a[1..] + c;
      SettledRight(a[1..], b, c);
    }
  }

  lemma {:induction false} SettledNormal(s: string)
    ensures Settled(Normalize(s)) == Settled(s)
    decreases |s|
  {
    if |s| >= 2 && s[0] == '\r' && s[1] == '\n' {
      var t := s[2..];
      SettledNormal(t);
      assert s[1..] == ['\n'] + t && s[1..][1..] == t;
      assert Normalize(s) == ['\n'] + Normalize(t) && (['\n'] + Normalize(t))[1..] == Normalize(t);
    } else if s != "" {
      SettledNormal(s[1..]);
      assert Normalize(s)[1..] == Normalize(s[1..]);
    }
  }

  /** The loop never does anything else to a text than to take CR before LF out of it. */
  lemma {:induction false} SeenSettles(chunks: seq<string>)
    ensures Settled(Seen(chunks)) == Settled(Concat(chunks))
    decreases |chunks|
  {
    hide Settled, Normalize, FeedAll, Cut, CutAll, Concat;
    NoChunks();
    if chunks != [] {
      var front, last := chunks[..|chunks| - 1], chunks[|chunks| - 1];
      assert chunks == front + [last];
      SeenSettles(front);
      SeenNext(front, last);
      ConcatAppend(front, last);
      var d, b := CutAll(front), FeedAll(front).buffer;
      SettledNormal(b + last);
      SettledRight(d, Normalize(b + last), b + last);
      assert d + (b + last) == Seen(front) + last;
      SettledLeft(Seen(front), last);
      SettledLeft(Concat(front), last);
    }
  }

  // ---------- A chunking that leaves nothing to replace ----------

  lemma {:induction false} NoCrLfNormal(s: string)
    requires HasNoCrLf(s)
    ensures Normalize(s) == s
    decreases |s|
  {
    if s != "" {
      NoCrLfTail(s);
      NoCrLfNormal(s[1..]);
    }
  }

  lemma NoCrLfPart(a: string, b: string)
    requires HasNoCrLf(a + b)
    ensures HasNoCrLf(a) && HasNoCrLf(b)
  {
    assert forall k | 0 <= k < |a| :: (a + b)[k] == a[k];
    assert forall k | 0 <= k < |b| :: (a + b)[|a| + k] == b[k];
  }

  lemma NoCrLfJoin(a: string, b: string)
    requires HasNoCrLf(a) && HasNoCrLf(b) && (a == "" || a[|a| - 1] != '\r' || b == "" || b[0] != '\n')
    ensures HasNoCrLf(a + b)
  {
  }

  /** Empty rounds take out one CR after the other in front of a last LF. */
  lemma {:induction false} Settle(chunks: seq<string>, u: string) returns (more: seq<string>)
    requires Seen(chunks) == u + "\n" && HasNoCrLf(u)
    ensures Concat(more) == Concat(chunks) && HasNoCrLf(Seen(more))
    decreases |u|
  {
    hide Normalize, FeedAll, Cut, CutAll, Concat, HasNoCrLf;
    if u == "" || u[|u| - 1] != '\r' {
      NoCrLfJoinLf(u);
      return chunks;
    }
    var v := u[..|u| - 1];
    var d, b := CutAll(chunks), FeedAll(chunks).buffer;
    CutAllEnds(chunks);
    assert u == v + "\r" && d + b == v + "\r\n";
    SameEnd(d, b, v);
    var b0 := b[..|b| - 2];
    NoCrLfPart(v, "\r");
    NoCrLfPart(d, b0);
    NoCrLfNormal(b0);
    assert b + "" == b0 + "\r\n";
    NormalizeConcat(b0, "\r\n");
    CrLfAlone();
    SeenNext(chunks, "");
    ConcatAppend(chunks, "");
    assert Concat(chunks) + "" == Concat(chunks);
    assert Seen(chunks + [""]) == v + "\n";
    more := Settle(chunks + [""], v);
  }

  lemma CrLfAlone()
    ensures Normalize("\r\n") == "\n"
  {
    NormalizeCrLf("");
    assert "\r\n" + "" == "\r\n";
  }

  lemma NoCrLfJoinLf(u: string)
    requires HasNoCrLf(u) && (u == "" || u[|u| - 1] != '\r')
    ensures HasNoCrLf(u + "\n")
  {
  }

  lemma SameEnd(d: string, b: string, v: string)
    requires d + b == v + "\r\n" && (d == "" || EndsBlank(d))
    ensures |b| >= 2 && b == b[..|b| - 2] + "\r\n" && v == d + b[..|b| - 2]
  {
    var t := d + b;
    assert t[|t| - 2] == '\r' && t[|t| - 1] == '\n';
    assert b[|b| - 2] == t[|t| - 2] && b[|b| - 1] == t[|t| - 1];
    assert t[..|v|] == v && t[..|v|] == d + b[..|b| - 2];
  }

  /** Character by character, with as many empty rounds as it takes. */
  lemma {:induction false} FineChunking(s: string) returns (chunks: seq<string>)
    ensures Concat(chunks) == s && HasNoCrLf(Seen(chunks))
    decreases |s|
  {
    hide Normalize, FeedAll, Cut, CutAll, Concat;
    NoChunks();
    if s == "" { return []; }
    var c := s[|s| - 1];
    var front := FineChunking(s[..|s| - 1]);
    chunks := front + [[c]];
    SeenNext(front, [c]);
    ConcatAppend(front, [c]);
    assert s == s[..|s| - 1] + [c];
    var d, b := CutAll(front), FeedAll(front).buffer;
    CutAllEnds(front);
    NoCrLfPart(d, b);
    if c == '\n' && b != "" && b[|b| - 1] == '\r' {
      var b0 := b[..|b| - 1];
      assert b == b0 + "\r" && d + b == (d + b0) + "\r";
      NoCrLfPart(d + b0, "\r");
      NoCrLfPart(d, b0);
      NoCrLfNormal(b0);
      assert b + [c] == b0 + "\r\n";
      NormalizeConcat(b0, "\r\n");
      CrLfAlone();
      chunks := Settle(chunks, d + b0);
    } else {
      NoCrLfJoin(b, [c]);
      NoCrLfNormal(b + [c]);
      NoCrLfJoin(d, b + [c]);
    }
  }

  // ---------- Texts that are settled in any chunking ----------

  /** No blank line comes after a CR LF. */
  predicate Late(s: string) {
    forall i, j | 0 <= i < j && j + 1 < |s| :: !(s[i] == '\r' && s[i + 1] == '\n' && s[j] == '\n' && s[j + 1] == '\n')
  }

  /** What is in the way after one round: a CR LF that is cut off, or a CR CR LF. */
  predicate Clear(once: string) { Stable(once) && Late(once) }

  /** The text after the first and the last round, uncut, has no CR LF. */
  predicate Settles(s: string) { HasNoCrLf(Cut(Normalize(s)) + Normalize(Rest(Normalize(s)))) }

  lemma SettlesIffClear(s: string)
    ensures Settles(s) <==> Clear(Normalize(s))
  {
    hide Normalize, Rest, Cut, Stable, Late, HasNoCrLf;
    var y := Normalize(s);
    var c, r := Cut(y), Rest(y);
    CutAndRest(y);
    CutEnds(y);
    if Clear(y) {
      LateCutIsClean(c, r);
      StableTail(y, |c|);
      assert y[|c|..] == r;
      NormalizeLeavesNone(r);
      CleanJoin(c, Normalize(r));
    }
    if Settles(s) {
      NoCrLfPart(c, Normalize(r));
      NormalClean(r);
      RestHasNoBlank(y);
      StableJoin(c, r);
      LateJoin(c, r);
    }
  }

  lemma LateCutIsClean(c: string, r: string)
    requires Late(c + r) && (c == "" || EndsBlank(c))
    ensures HasNoCrLf(c)
  {
    var y := c + r;
    forall i | 0 <= i && i + 1 < |c| ensures !(c[i] == '\r' && c[i + 1] == '\n') {
      var j := |c| - 2;
      assert y[i] == c[i] && y[i + 1] == c[i + 1] && y[j] == '\n' && y[j + 1] == '\n';
    }
  }

  lemma CleanJoin(c: string, n: string)
    requires HasNoCrLf(c) && HasNoCrLf(n) && (c == "" || c[|c| - 1] == '\n')
    ensures HasNoCrLf(c + n)
  {
  }

  lemma NormalClean(r: string)
    ensures !Stable(r) ==> !HasNoCrLf(Normalize(r))
  {
    hide Normalize;
    if !Stable(r) {
      var k := FirstBreak(r);
      BrokenParts(r, k);
      var p := Normalize(r[..k]);
      assert Normalize(r)[|p|] == '\r' && Normalize(r)[|p| + 1] == '\n';
    }
  }

  lemma StableJoin(c: string, r: string)
    requires HasNoCrLf(c) && Stable(r) && (c == "" || c[|c| - 1] == '\n')
    ensures Stable(c + r)
  {
    var y := c + r;
    forall k | 0 <= k && k + 2 < |y| ensures !(y[k] == '\r' && y[k + 1] == '\r' && y[k + 2] == '\n') {
      if k >= |c| { assert y[k] == r[k - |c|] && y[k + 1] == r[k + 1 - |c|] && y[k + 2] == r[k + 2 - |c|]; }
    }
  }

  lemma LateJoin(c: string, r: string)
    requires HasNoCrLf(c) && !HasBlank(r)
    ensures Late(c + r)
  {
    var y := c + r;
    forall i, j | 0 <= i < j && j + 1 < |y|
      ensures !(y[i] == '\r' && y[i + 1] == '\n' && y[j] == '\n' && y[j + 1] == '\n')
    {
      if j >= |c| { assert y[j] == r[j - |c|] && y[j + 1] == r[j + 1 - |c|]; }
    }
  }

  // ---------- One round of a text that settles ----------

  /** A CR at the end is there before and after. */
  lemma EndKept(r: string)
    requires Normalize(r) != "" && Normalize(r)[|Normalize(r)| - 1] == '\r'
    ensures r != "" && r[|r| - 1] == '\r' && Normalize(r) == Normalize(r[..|r| - 1]) + "\r"
  {
    hide Normalize;
    EmptyText();
    var r0, c := r[..|r| - 1], r[|r| - 1];
    assert r == r0 + [c];
    NoCrLfNormal([c]);
    if c == '\n' && r0 != "" && r0[|r0| - 1] == '\r' {
      var r1 := r0[..|r0| - 1];
      assert r == r1 + "\r\n";
      NormalizeConcat(r1, "\r\n");
      CrLfAlone();
    } else {
      NormalizeConcat(r0, [c]);
    }
  }

  /** Whatever `n` and `r` end in, `n` has no more CR at its end than `r`. */
  predicate EndsLike(n: string, r: string) {
    && (|n| >= 1 && n[|n| - 1] == '\r' ==> |r| >= 1 && r[|r| - 1] == '\r')
    && (|n| >= 2 && n[|n| - 1] == '\r' && n[|n| - 2] == '\r' ==>
          |r| >= 2 && r[|r| - 1] == '\r' && r[|r| - 2] == '\r')
  }

  /** The last two characters too. */
  lemma EndsKept(r: string)
    ensures EndsLike(Normalize(r), r)
  {
    hide Normalize;
    var n := Normalize(r);
    if |n| >= 1 && n[|n| - 1] == '\r' {
      EndKept(r);
      var r0 := r[..|r| - 1];
      if |n| >= 2 && n[|n| - 2] == '\r' { EndKept(r0); }
    }
  }

  /** Replacing in what a round left keeps the rest `w` of the text clear. */
  lemma RestStaysClear(t: string, w: string)
    requires Clear(t + w)
    ensures HasNoCrLf(Cut(t)) && Clear(Normalize(Rest(t)) + w)
  {
    hide Normalize, Rest, Cut, Stable, Late, HasNoCrLf, EndsLike;
    var c, r := Cut(t), Rest(t);
    CutAndRest(t);
    CutEnds(t);
    Regroup(c, r, w);
    LateCutIsClean(c, r + w);
    StableTail(t + w, |c|);
    assert (t + w)[|c|..] == r + w;
    PrefixIsStable(r, w);
    NormalizeLeavesNone(r);
    EndsKept(r);
    LateTail(c, r + w);
    ShiftedStable(r, Normalize(r), w);
    ShiftedLate(r, Normalize(r), w);
  }

  lemma LateTail(c: string, s: string)
    requires Late(c + s)
    ensures Late(s)
  {
    var y := c + s;
    forall i, j | 0 <= i < j && j + 1 < |s|
      ensures !(s[i] == '\r' && s[i + 1] == '\n' && s[j] == '\n' && s[j + 1] == '\n')
    {
      var m := |c|;
      assert y[m + i] == s[i] && y[m + i + 1] == s[i + 1] && y[m + j] == s[j] && y[m + j + 1] == s[j + 1];
    }
  }

  lemma ShiftedStable(r: string, n: string, w: string)
    requires Stable(r + w) && HasNoCrLf(n) && EndsLike(n, r)
    ensures Stable(n + w)
  {
    var y, z, d := r + w, n + w, |r| - |n|;
    forall k | 0 <= k && k + 2 < |z| ensures !(z[k] == '\r' && z[k + 1] == '\r' && z[k + 2] == '\n') {
      if k + 2 < |n| {
        assert z[k + 1] == n[k + 1] && z[k + 2] == n[k + 2];
      } else {
        assert z[k + 2] == y[k + 2 + d];
        assert k + 1 >= |n| ==> z[k + 1] == y[k + 1 + d];
        assert k >= |n| ==> z[k] == y[k + d];
        if EndsWithCr(n) && k == |n| - 2 && |r| >= 2 { assert y[k + d] == r[|r| - 2] && y[k + 1 + d] == r[|r| - 1]; }
        if EndsWithCr(n) && k == |n| - 1 { assert y[k + d] == r[|r| - 1]; }
      }
    }
  }

  predicate EndsWithCr(s: string) { s != "" && s[|s| - 1] == '\r' }

  lemma ShiftedLate(r: string, n: string, w: string)
    requires Late(r + w) && HasNoCrLf(n) && EndsLike(n, r)
    ensures Late(n + w)
  {
    var y, z, d := r + w, n + w, |r| - |n|;
    forall i, j | 0 <= i < j && j + 1 < |z|
      ensures !(z[i] == '\r' && z[i + 1] == '\n' && z[j] == '\n' && z[j + 1] == '\n')
    {
      if i + 1 < |n| {
        assert z[i] == n[i] && z[i + 1] == n[i + 1];
      } else {
        assert z[i + 1] == y[i + 1 + d] && z[j] == y[j + d] && z[j + 1] == y[j + 1 + d];
        assert i >= |n| ==> z[i] == y[i + d];
        if EndsWithCr(n) && i == |n| - 1 { assert y[i + d] == r[|r| - 1]; }
      }
    }
  }

  /** A CR at the end of a text is never cut off. */
  lemma CutWithoutCr(t: string)
    ensures Cut(t + "\r") == Cut(t) && Rest(t + "\r") == Rest(t) + "\r"
  {
    hide Normalize, Rest, Drained, Cut;
    DrainAppend(t, "\r");
    RestHasNoBlank(t);
    var r := Rest(t) + "\r";
    NoBlankBeforeCr(Rest(t));
    NoBlankStays(r);
    CutAndRest(t);
    CutAndRest(t + "\r");
    assert Cut(t + "\r") + r == Cut(t) + r;
    SameSuffix(Cut(t + "\r"), Cut(t), r);
  }

  lemma NoBlankBeforeCr(s: string)
    requires !HasBlank(s)
    ensures !HasBlank(s + "\r")
  {
  }

  lemma SameSuffix(a: string, b: string, c: string)
    requires a + c == b + c
    ensures a == b
  {
    assert |a| == |b|;
    assert a == (a + c)[..|a|] && b == (b + c)[..|a|];
  }

  /** One round on `x`, with `q` still to come. */
  lemma RoundStaysClear(x: string, q: string)
    requires Clear(Normalize(x + q))
    ensures var text := Normalize(x);
            HasNoCrLf(Cut(text)) && Stable(text) && Clear(Normalize(Rest(text) + q))
  {
    hide Normalize, Rest, Cut, Stable, Late, HasNoCrLf;
    var text := Normalize(x);
    if x != "" && q != "" && x[|x| - 1] == '\r' && q[0] == '\n' {
      SplitRound(x, q);
    } else {
      NormalizeConcat(x, q);
      RestStaysClear(text, Normalize(q));
      PrefixIsStable(text, Normalize(q));
      CutAndRest(text);
      if text != "" && text[|text| - 1] == '\r' { EndKept(x); }
      NormalizeConcat(Rest(text), q);
    }
  }

  /** The round that ends between CR and LF. */
  lemma SplitRound(x: string, q: string)
    requires Clear(Normalize(x + q)) && x != "" && q != "" && x[|x| - 1] == '\r' && q[0] == '\n'
    ensures var text := Normalize(x);
            HasNoCrLf(Cut(text)) && Stable(text) && Clear(Normalize(Rest(text) + q))
  {
    hide Normalize, Rest, Cut, Stable, Late, HasNoCrLf;
    var x0, q0 := x[..|x| - 1], q[1..];
    var t, w := Normalize(x0), "\n" + Normalize(q0);
    assert x == x0 + "\r" && x + q == x0 + ("\r\n" + q0);
    NormalizeConcat(x0, "\r\n" + q0);
    CrCrLf(q0);
    assert Normalize(x) == t + "\r" by {
      NormalizeConcat(x0, "\r");
      OneCr();
    }
    RestStaysClear(t, w);
    CutWithoutCr(t);
    StablePrefixCr(t, w);
    var r := Rest(t);
    assert Rest(t + "\r") + q == r + ("\r\n" + q0);
    NormalizeConcat(r, "\r\n" + q0);
  }

  lemma OneCr()
    ensures Normalize("\r") == "\r"
  {
  }

  lemma StablePrefixCr(t: string, w: string)
    requires Stable(t + w)
    ensures Stable(t + "\r")
  {
    PrefixIsStable(t, w);
  }

  // ---------- Every chunking ----------

  lemma {:induction false} RunStaysClear(chunks: seq<string>, q: string)
    requires Clear(Normalize(Concat(chunks) + q))
    ensures HasNoCrLf(CutAll(chunks)) && Stable(FeedAll(chunks).buffer)
    ensures Clear(Normalize(FeedAll(chunks).buffer + q))
    decreases |chunks|
  {
    hide Normalize, Rest, Cut, CutAll, FeedAll, Clear, Concat, Stable, HasNoCrLf;
    NoChunks();
    if chunks == [] {
      NothingIsStable();
    } else {
      var front, last := chunks[..|chunks| - 1], chunks[|chunks| - 1];
      assert chunks == front + [last];
      ConcatAppend(front, last);
      assert Concat(front) + last + q == Concat(front) + (last + q);
      RunStaysClear(front, last + q);
      NextStaysClear(front, last, q);
    }
  }

  lemma NothingIsStable()
    ensures HasNoCrLf("") && Stable("")
  {
  }

  lemma NextStaysClear(front: seq<string>, last: string, q: string)
    requires HasNoCrLf(CutAll(front)) && Clear(Normalize(FeedAll(front).buffer + (last + q)))
    ensures var all := front + [last];
            && HasNoCrLf(CutAll(all)) && Stable(FeedAll(all).buffer) && Clear(Normalize(FeedAll(all).buffer + q))
  {
    hide Normalize, Rest, Cut, CutAll, FeedAll, Clear, Stable, HasNoCrLf;
    var b := FeedAll(front).buffer;
    assert b + (last + q) == (b + last) + q;
    RoundStaysClear(b + last, q);
    SeenNext(front, last);
    var text := Normalize(b + last);
    CutAndRest(text);
    StableTail(text, |Cut(text)|);
    assert text[|Cut(text)|..] == Rest(text);
    CutAllEnds(front);
    CleanJoin(CutAll(front), Cut(text));
  }

  /** Where nothing is in the way, the finished loop has seen the text with every line end replaced. */
  lemma FinishedSettled(chunks: seq<string>)
    requires Settles(Concat(chunks))
    ensures Seen(Rounds(chunks)) == Settled(Concat(chunks))
  {
    hide Normalize, CutAll, FeedAll, Clear, Concat, Settled, Settles, HasNoCrLf;
    var s := Concat(chunks);
    SettlesIffClear(s);
    assert s + "" == s;
    RunStaysClear(chunks, "");
    SeenNext(chunks, "");
    var b := FeedAll(chunks).buffer;
    assert b + "" == b;
    NormalizeLeavesNone(b);
    CutAllEnds(chunks);
    CleanJoin(CutAll(chunks), Normalize(b));
    SettledFixed(Seen(Rounds(chunks)));
    SeenSettles(Rounds(chunks));
    ConcatAppend(chunks, "");
  }

  lemma UncutSeen(s: string)
    ensures Seen(Rounds([s])) == Cut(Normalize(s)) + Normalize(Rest(Normalize(s)))
  {
    hide Normalize, Rest, Cut, FeedAll, CutAll;
    NoChunks();
    SeenNext([], s);
    assert [] + [s] == [s] && "" + s == s;
    SeenNext([s], "");
    assert Rest(Normalize(s)) + "" == Rest(Normalize(s));
  }

  /**
   The text on which the finished loop cuts its blocks is the same for every chunking iff the uncut text
   has no CR LF after its first and its last round.
   */
  lemma ChunkingSeenIff(s: string)
    ensures (forall chunks | Concat(chunks) == s :: Seen(Rounds(chunks)) == Seen(Rounds([s])))
       <==> HasNoCrLf(Cut(Normalize(s)) + Normalize(Rest(Normalize(s))))
  {
    hide Normalize, Rest, Cut, Seen, Concat, HasNoCrLf, Settled;
    OneChunk(s);
    UncutSeen(s);
    if Settles(s) {
      forall chunks | Concat(chunks) == s ensures Seen(Rounds(chunks)) == Seen(Rounds([s])) {
        FinishedSettled(chunks);
        FinishedSettled([s]);
      }
    } else {
      var fine := FineChunking(s);
      LastRoundKeeps(fine);
    }
  }

  lemma LastRoundKeeps(chunks: seq<string>)
    requires HasNoCrLf(Seen(chunks))
    ensures Seen(Rounds(chunks)) == Seen(chunks)
  {
    hide Normalize, FeedAll, CutAll;
    SeenNext(chunks, "");
    var b := FeedAll(chunks).buffer;
    NoCrLfPart(CutAll(chunks), b);
    NoCrLfNormal(b);
    assert b + "" == b;
  }

  /** So what the page receives of such a text does not depend on its chunks. */
  lemma SettledIsReceivedAlike(chunks: seq<string>, others: seq<string>)
    requires Concat(chunks) == Concat(others) && Settles(Concat(chunks))
    ensures Received(chunks) == Received(others)
  {
    hide FeedAll, Seen, Settles, Settled, Drained, Rest;
    FinishedSettled(chunks);
    FinishedSettled(others);
    SeenDecides(Rounds(chunks));
    SeenDecides(Rounds(others));
  }

  /** Every text without CR CR LF is such a text, and so are others. */
  lemma StableSettles(s: string)
    ensures Stable(s) ==> Settles(s)
    ensures !Stable("\r\r\n") && Settles("\r\r\n")
  {
    hide Normalize, Rest, Cut, Stable, HasNoCrLf;
    if Stable(s) {
      var y := Normalize(s);
      NormalizeLeavesNone(s);
      CutAndRest(y);
      NoCrLfPart(Cut(y), Rest(y));
      NoCrLfNormal(Rest(y));
    }
    var y := Normalize("\r\r\n");
    CrCrLf("");
    EmptyText();
    assert "\r\r\n" + "" == "\r\r\n" && "\r\n" + "" == "\r\n";
    NoBlankStays("\r\n");
    CrLfAlone();
    assert "" + "\n" == "\n";
    TwoFacts();
  }

  lemma TwoFacts()
    ensures !Stable("\r\r\n") && HasNoCrLf("\n")
  {
    var s := "\r\r\n";
    assert s[0] == '\r' && s[1] == '\r' && s[2] == '\n';
  }
}

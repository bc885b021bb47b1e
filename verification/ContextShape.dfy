/** Compaction preserves the view: partition, order, boundaries, size, and when a turn is left out. */
module ContextShape {
  import opened Options
  import opened Context
  import opened ContextSafety

  // ---------- The rebuilt context is the size-checked candidate ----------

  lemma {:induction false} CountAppend(a: seq<Entry>, b: seq<Entry>)
    ensures CountNotices(a + b) == CountNotices(a) + CountNotices(b)
    decreases |a|
  {
    if a == [] {
      assert a + b == b;
    } else {
      assert (a + b)[0] == a[0] && (a + b)[1..] == a[1..] + b;
      CountAppend(a[1..], b);
    }
  }

  lemma {:induction false} NoNotices(entries: seq<Entry>)
    requires forall e | e in entries :: !e.Notice?
    ensures CountNotices(entries) == 0
    decreases |entries|
  {
    if entries != [] { NoNotices(entries[1..]); }
  }

  lemma RebuiltIsCandidate(c: Checkpoint, rows: seq<Row>, r: Read)
    ensures Entries(Some(c), rows, r) == EntriesFromSummary(c.summary, c.through, c.sources, rows, r)
  {
    var rest := ItemEntries(r.quarantined, rows) + [ItemEntry(r.quarantined, r.current)];
    var plain := Entries(None, rows, r);
    assert plain == Notices(r.notices) + rest;
    CountAppend(Notices(r.notices), rest);
    NoticeLeaves(r.notices);
    NoNotices(rest);
    assert plain[..|r.notices|] == Notices(r.notices) && plain[|r.notices|..] == rest;
  }

  /** Every returned context is reported with its own size, and that size is within the hard limit. */
  lemma ContextWithinLimit(h: History, r: Read, limits: Limits, compaction: Compaction, now: Time)
    ensures var built := Commit(h, r, limits, compaction, now).0;
            built.Context? ==> built.estimate == limits.size(built.entries) && built.estimate <= limits.hard
  {
    hide Entries, EntriesFromSummary, CreateCheckpoint;
    if compaction.Summarised? && Compactable(r.rows) != [] {
      var c := NewCheckpoint(r, compaction.nonce, now);
      RebuiltIsCandidate(c, Since(r.rows, c.through), r);
    }
  }

  // ---------- Partition of the view ----------

  predicate ReadOf(h: History, turn: nat, r: Read) {
    CanBuild(h, turn) && r == ReadFor(h, turn, r.notices)
  }

  /** The turn after which the rows of this read start. */
  function Floor(r: Read): nat { if r.checkpoint.Some? then r.checkpoint.value.through else 0 }

  lemma RowsOfRead(h: History, turn: nat, r: Read, row: Row)
    requires ReadOf(h, turn, r)
    ensures row in r.rows
            <==> Floor(r) < row.turn < turn && CompletedTurn(h.turns, row.turn)
                 && row.item in h.turns[row.turn - 1].items
    ensures Sorted(r.rows)
  {
    CompletedRowsHas(h.turns, Floor(r), turn, row);
    CompletedRowsSorted(h.turns, Floor(r), turn);
  }

  /** Nothing lies strictly between the last compacted turn and the newest completed one. */
  lemma BoundaryFacts(h: History, turn: nat, r: Read)
    requires ReadOf(h, turn, r) && Compactable(r.rows) != []
    ensures Floor(r) < MaxTurn(Compactable(r.rows)) < MaxTurn(r.rows) < turn
    ensures CompletedTurn(h.turns, MaxTurn(Compactable(r.rows)))
    ensures forall row | row in r.rows :: row.turn <= MaxTurn(Compactable(r.rows)) || row.turn == MaxTurn(r.rows)
    ensures forall row :: row in Compactable(r.rows) <==> row in r.rows && row.turn <= MaxTurn(Compactable(r.rows))
  {
    var newest := MaxTurn(r.rows);
    UntilHas(r.rows, newest);
    var boundary := MaxTurn(Compactable(r.rows));
    var last :| last in Compactable(r.rows) && last.turn == boundary;
    RowsOfRead(h, turn, r, last);
    var top :| top in r.rows && top.turn == newest;
    RowsOfRead(h, turn, r, top);
  }

  /** Compacted rows, then recent rows, are the rows read, in order; the newest completed turn is recent. */
  lemma CompactionKeepsOrder(h: History, turn: nat, r: Read)
    requires ReadOf(h, turn, r) && Compactable(r.rows) != []
    ensures var boundary := MaxTurn(Compactable(r.rows));
            Compactable(r.rows) + Since(r.rows, boundary) == r.rows
    ensures forall row | row in r.rows && row.turn == MaxTurn(r.rows) ::
              row in Since(r.rows, MaxTurn(Compactable(r.rows)))
  {
    var boundary, newest := MaxTurn(Compactable(r.rows)), MaxTurn(r.rows);
    BoundaryFacts(h, turn, r);
    RowsOfRead(h, turn, r, r.rows[0]);
    CutsInTwo(r.rows, newest, boundary);
    SinceHas(r.rows, boundary);
  }

  /** Old sources plus read rows are new sources plus recent rows, as a disjoint partition. */
  lemma CompactionPartitions(h: History, turn: nat, r: Read, nonce: nat, now: Time)
    requires SafeInv(h) && ReadOf(h, turn, r) && Compactable(r.rows) != []
    ensures var c := NewCheckpoint(r, nonce, now);
            var recent := Since(r.rows, c.through);
            && c.sources + Items(recent) == SourcesOf(r.checkpoint) + Items(r.rows)
            && c.sources !! Items(recent) && SourcesOf(r.checkpoint) !! Items(r.rows)
            && c.through > Floor(r)
  {
    hide SafeInv, ReadOf, Compactable, Since, MaxTurn, Items;
    BoundaryFacts(h, turn, r);
    ItemsSplit(h, turn, r);
    SourcesBelowFloor(h, turn, r);
  }

  lemma ItemsSplit(h: History, turn: nat, r: Read)
    requires SafeInv(h) && ReadOf(h, turn, r) && Compactable(r.rows) != []
    ensures var recent := Since(r.rows, MaxTurn(Compactable(r.rows)));
            Items(Compactable(r.rows)) + Items(recent) == Items(r.rows) && Items(Compactable(r.rows)) !! Items(recent)
  {
    hide TaintInv, ReadOf, Compactable, Since, MaxTurn;
    var boundary := MaxTurn(Compactable(r.rows));
    BoundaryFacts(h, turn, r);
    SinceHas(r.rows, boundary);
    forall x, y | x in Compactable(r.rows) && y in Since(r.rows, boundary) ensures x.item != y.item {
      RowsOfRead(h, turn, r, x);
      RowsOfRead(h, turn, r, y);
    }
  }

  lemma SourcesBelowFloor(h: History, turn: nat, r: Read)
    requires SafeInv(h) && ReadOf(h, turn, r)
    ensures SourcesOf(r.checkpoint) !! Items(r.rows)
    ensures r.checkpoint.Some? ==> CheckpointSourced(h.turns, r.checkpoint.value)
  {
    hide TaintInv;
    if r.checkpoint.Some? {
      assert CheckpointSourced(h.turns, r.checkpoint.value);
      forall item | item in r.checkpoint.value.sources ensures item !in Items(r.rows) {
        var n: nat :| n <= r.checkpoint.value.through && CompletedTurn(h.turns, n) && item in h.turns[n - 1].items;
        forall row | row in r.rows ensures row.item != item { RowsOfRead(h, turn, r, row); }
      }
    }
  }

  // ---------- Boundaries and clocks ----------

  /** Creation times do not decrease, active boundaries strictly increase, all below any running chat turn. */
  ghost predicate OrderInv(h: History, clock: Time) {
    && BoundariesIncrease(h.checkpoints, clock)
    && (forall n, c | ChatRunning(h.turns, n) && c in h.checkpoints :: c.through < n)
    && (forall n, m | ChatRunning(h.turns, n) && ChatRunning(h.turns, m) :: n == m)
  }

  ghost predicate BoundariesIncrease(cs: seq<Checkpoint>, clock: Time) {
    && (forall i, j | 0 <= i < j < |cs| :: cs[i].createdAt <= cs[j].createdAt)
    && (forall i, j | 0 <= i < j < |cs| :: cs[i].active && cs[j].active ==> cs[i].through < cs[j].through)
    && (forall c | c in cs :: c.createdAt <= clock)
  }

  lemma {:induction false} LatestIsHighest(cs: seq<Checkpoint>, before: nat, clock: Time)
    requires BoundariesIncrease(cs, clock)
    ensures var found := LatestCheckpoint(cs, before);
            forall c | c in cs && Eligible(c, before) :: found.Some? && c.through <= found.value.through
    decreases |cs|
  {
    if cs != [] {
      hide BoundariesIncrease;
      var front, last := cs[..|cs| - 1], cs[|cs| - 1];
      var earlier, found := LatestCheckpoint(front, before), LatestCheckpoint(cs, before);
      ShorterIncreases(cs, clock);
      LatestIsHighest(front, before, clock);
      assert cs == front + [last];
      forall c | c in cs && Eligible(c, before) ensures found.Some? && c.through <= found.value.through {
        if c in front { assert earlier.Some? && earlier.value in front; } else { assert c == last; }
      }
    }
  }

  lemma ShorterIncreases(cs: seq<Checkpoint>, clock: Time)
    requires BoundariesIncrease(cs, clock) && cs != []
    ensures BoundariesIncrease(cs[..|cs| - 1], clock)
    ensures forall c | c in cs[..|cs| - 1] ::
              c.createdAt <= cs[|cs| - 1].createdAt
                && (c.active && cs[|cs| - 1].active ==> c.through < cs[|cs| - 1].through)
  {
  }

  /** With clocks that do not run backwards, saving a compaction is never refused by any check or index. */
  lemma SaveNeverRefused(h: History, turn: nat, r: Read, nonce: nat, now: Time, clock: Time)
    requires SafeInv(h) && OrderInv(h, clock) && ReadOf(h, turn, r) && Compactable(r.rows) != []
    ensures CreateCheckpoint(h, NewCheckpoint(r, nonce, now))
            == Some(h.(checkpoints := h.checkpoints + [NewCheckpoint(r, nonce, now)]))
    ensures forall d | d in h.checkpoints && d.active :: d.through < NewCheckpoint(r, nonce, now).through
  {
    hide TaintInv, ReadFor;
    var c := NewCheckpoint(r, nonce, now);
    BoundaryFacts(h, turn, r);
    ActiveBelowFloor(h, turn, r, clock);
    NewSourcesCompleted(h, turn, r);
    var some :| some in Compactable(r.rows);
    assert some.item in c.sources;
  }

  lemma ActiveBelowFloor(h: History, turn: nat, r: Read, clock: Time)
    requires OrderInv(h, clock) && ReadOf(h, turn, r)
    ensures forall d | d in h.checkpoints && d.active :: d.through <= Floor(r)
  {
    assert ChatRunning(h.turns, turn);
    LatestIsHighest(h.checkpoints, turn, clock);
    forall d | d in h.checkpoints && d.active ensures d.through <= Floor(r) { assert Eligible(d, turn); }
  }

  lemma NewSourcesCompleted(h: History, turn: nat, r: Read)
    requires SafeInv(h) && ReadOf(h, turn, r) && Compactable(r.rows) != []
    ensures forall item | item in SourcesOf(r.checkpoint) + Items(Compactable(r.rows)) ::
              CompletedItem(h.turns, item, MaxTurn(Compactable(r.rows)))
  {
    hide SafeInv, ReadOf, Compactable, MaxTurn, CompletedItem, CompletedTurn;
    var boundary := MaxTurn(Compactable(r.rows));
    BoundaryFacts(h, turn, r);
    SourcesBelowFloor(h, turn, r);
    forall item | item in SourcesOf(r.checkpoint) ensures CompletedItem(h.turns, item, boundary) {
      Further(h.turns, item, Floor(r), boundary);
    }
    forall row | row in Compactable(r.rows) ensures CompletedItem(h.turns, row.item, boundary) {
      RowsOfRead(h, turn, r, row);
      CompletedRow(h.turns, row, boundary);
    }
  }

  lemma Further(turns: seq<TurnRecord>, item: ItemId, through: nat, further: nat)
    requires CompletedItem(turns, item, through) && through <= further
    ensures CompletedItem(turns, item, further)
  {
  }

  lemma CompletedRow(turns: seq<TurnRecord>, row: Row, through: nat)
    requires CompletedTurn(turns, row.turn) && row.item in turns[row.turn - 1].items && row.turn <= through
    ensures CompletedItem(turns, row.item, through)
  {
  }

  function ClockOf(e: SessionEvent, clock: Time): Time { if e.BuildContext? then e.now else clock }

  lemma TurnsKeepOrder(h: History, t: History, clock: Time)
    requires OrderInv(h, clock) && SourcesInv(h) && t.checkpoints == h.checkpoints
             && |h.turns| <= |t.turns| <= |h.turns| + 1
    requires forall n | ChatRunning(t.turns, n) ::
               ChatRunning(h.turns, n) || (n == |h.turns| + 1 && forall m :: !ChatRunning(h.turns, m))
    ensures OrderInv(t, clock)
  {
    hide BoundariesIncrease;
    forall n, c | ChatRunning(t.turns, n) && c in t.checkpoints ensures c.through < n {
      assert CheckpointSourced(h.turns, c);
    }
  }

  lemma QuarantineKeepsOrder(h: History, item: ItemId, clock: Time)
    requires OrderInv(h, clock)
    ensures OrderInv(QuarantineItem(h, item), clock)
  {
    var t := QuarantineItem(h, item);
    assert forall k | 0 <= k < |t.checkpoints| :: h.checkpoints[k] in h.checkpoints;
  }

  lemma BuildKeepsOrder(h: History, turn: nat, notices: seq<nat>, limits: Limits, compaction: Compaction, now: Time,
                        clock: Time)
    requires SafeInv(h) && OrderInv(h, clock) && clock <= now && CanBuild(h, turn)
    ensures OrderInv(Build(h, turn, notices, limits, compaction, now).1, now)
  {
    hide TaintInv, SourcesInv, Commit, Compactable, CreateCheckpoint, ReadFor, ReadOf, OrderInv, NewCheckpoint;
    var r := ReadFor(h, turn, notices);
    ReadBack(h, turn, notices);
    CommitSaves(h, r, limits, compaction, now);
    if Build(h, turn, notices, limits, compaction, now).1 == h {
      LaterClock(h, clock, now);
    } else {
      SavedKeepsOrder(h, turn, r, compaction.nonce, now, clock);
    }
  }

  /** A build leaves the tables alone or adds the checkpoint that it compacted. */
  lemma CommitSaves(h: History, r: Read, limits: Limits, compaction: Compaction, now: Time)
    ensures var t := Commit(h, r, limits, compaction, now).1;
            t == h || (compaction.Summarised? && Compactable(r.rows) != []
                       && CreateCheckpoint(h, NewCheckpoint(r, compaction.nonce, now)) == Some(t))
  {
    hide Entries, EntriesFromSummary, CreateCheckpoint, Compactable;
  }

  lemma SavedKeepsOrder(h: History, turn: nat, r: Read, nonce: nat, now: Time, clock: Time)
    requires SafeInv(h) && OrderInv(h, clock) && clock <= now && ReadOf(h, turn, r) && Compactable(r.rows) != []
    requires ChatRunning(h.turns, turn)
    ensures CreateCheckpoint(h, NewCheckpoint(r, nonce, now)).Some?
            && OrderInv(CreateCheckpoint(h, NewCheckpoint(r, nonce, now)).value, now)
  {
    hide SafeInv, OrderInv, ReadOf, Compactable, CreateCheckpoint;
    SaveNeverRefused(h, turn, r, nonce, now, clock);
    BoundaryFacts(h, turn, r);
    OneMoreBoundary(h, turn, NewCheckpoint(r, nonce, now), clock, now);
  }

  lemma ReadBack(h: History, turn: nat, notices: seq<nat>)
    requires CanBuild(h, turn)
    ensures ReadOf(h, turn, ReadFor(h, turn, notices))
  {
  }

  lemma OneMoreBoundary(h: History, turn: nat, c: Checkpoint, clock: Time, now: Time)
    requires OrderInv(h, clock) && clock <= now && c.createdAt == now && c.through < turn && ChatRunning(h.turns, turn)
    requires forall d | d in h.checkpoints && d.active :: d.through < c.through
    ensures OrderInv(h.(checkpoints := h.checkpoints + [c]), now)
  {
    var cs := h.checkpoints + [c];
    assert forall k | 0 <= k < |h.checkpoints| :: cs[k] == h.checkpoints[k] && h.checkpoints[k] in h.checkpoints;
  }

  /** Clock readings of builds do not run backwards along a run. */
  predicate Monotone(events: seq<SessionEvent>, clock: Time)
    decreases |events|
  {
    events == [] || (clock <= ClockOf(events[0], clock) && Monotone(events[1..], ClockOf(events[0], clock)))
  }

  lemma StepKeepsOrder(h: History, e: SessionEvent, clock: Time)
    requires SafeInv(h) && OrderInv(h, clock) && clock <= ClockOf(e, clock)
    ensures OrderInv(SessionStep(h, e), ClockOf(e, clock))
  {
    hide TaintInv, BoundariesIncrease, Build, CanBuild;
    match e
    case BuildContext(turn, notices, limits, compaction, now) =>
      if CanBuild(h, turn) { BuildKeepsOrder(h, turn, notices, limits, compaction, now, clock); }
      else { LaterClock(h, clock, now); }
    case Quarantine(item) => QuarantineKeepsOrder(h, item, clock);
    case _ =>
      var t := SessionStep(h, e);
      forall n | ChatRunning(t.turns, n)
        ensures ChatRunning(h.turns, n) || (n == |h.turns| + 1 && forall m :: !ChatRunning(h.turns, m))
      {
      }
      TurnsKeepOrder(h, t, clock);
  }

  lemma LaterClock(h: History, clock: Time, now: Time)
    requires OrderInv(h, clock) && clock <= now
    ensures OrderInv(h, now)
  {
  }

  function EndClock(events: seq<SessionEvent>, clock: Time): Time
    decreases |events|
  {
    if events == [] then clock else EndClock(events[1..], ClockOf(events[0], clock))
  }

  lemma {:induction false} BoundariesIncreaseAlongRuns(h: History, events: seq<SessionEvent>, clock: Time)
    requires SafeInv(h) && OrderInv(h, clock) && Monotone(events, clock)
    ensures OrderInv(SessionRun(h, events), EndClock(events, clock))
    decreases |events|
  {
    hide SafeInv, OrderInv, SessionStep, ClockOf;
    if events != [] {
      SessionStepKeeps(h, events[0]);
      StepKeepsOrder(h, events[0], clock);
      BoundariesIncreaseAlongRuns(SessionStep(h, events[0]), events[1..], ClockOf(events[0], clock));
    }
  }

  // ---------- What the view covers ----------

  /** Every active checkpoint stands for all items of completed turns up to its boundary. */
  ghost predicate FullCoverage(h: History) {
    forall c, item | c in h.checkpoints && c.active && CompletedItem(h.turns, item, c.through) :: item in c.sources
  }

  /** Sources and rows of a build are then exactly the items of the completed turns before it. */
  lemma ViewIsComplete(h: History, turn: nat, r: Read, item: ItemId)
    requires SafeInv(h) && FullCoverage(h) && ReadOf(h, turn, r)
    ensures item in SourcesOf(r.checkpoint) + Items(r.rows) <==> CompletedItem(h.turns, item, turn - 1)
  {
    hide TaintInv, SourcesInv;
    SourcesBelowFloor(h, turn, r);
    if CompletedItem(h.turns, item, turn - 1) {
      var n: nat :| n <= turn - 1 && CompletedTurn(h.turns, n) && item in h.turns[n - 1].items;
      if n <= Floor(r) {
        assert CompletedItem(h.turns, item, r.checkpoint.value.through);
      } else {
        RowsOfRead(h, turn, r, Row(n, item));
        assert Row(n, item) in r.rows;
      }
    }
    if item in Items(r.rows) {
      var row :| row in r.rows && row.item == item;
      RowsOfRead(h, turn, r, row);
    } else if item in SourcesOf(r.checkpoint) {
      var n: nat :| n <= r.checkpoint.value.through && CompletedTurn(h.turns, n) && item in h.turns[n - 1].items;
      assert n <= turn - 1;
    }
  }

  lemma NewCheckpointIsFull(h: History, turn: nat, r: Read, nonce: nat, now: Time, item: ItemId)
    requires SafeInv(h) && FullCoverage(h) && ReadOf(h, turn, r) && Compactable(r.rows) != []
    requires CompletedItem(h.turns, item, NewCheckpoint(r, nonce, now).through)
    ensures item in NewCheckpoint(r, nonce, now).sources
  {
    hide SafeInv, FullCoverage, ReadOf, Compactable, MaxTurn;
    var through := MaxTurn(Compactable(r.rows));
    BoundaryFacts(h, turn, r);
    var n: nat :| n <= through && CompletedTurn(h.turns, n) && item in h.turns[n - 1].items;
    RowsOfRead(h, turn, r, Row(n, item));
    if n <= Floor(r) { CoveredBelowFloor(h, turn, r, item, n); }
    else { assert Row(n, item) in Compactable(r.rows); }
  }

  lemma CoveredBelowFloor(h: History, turn: nat, r: Read, item: ItemId, n: nat)
    requires FullCoverage(h) && ReadOf(h, turn, r)
    requires n <= Floor(r) && CompletedTurn(h.turns, n) && item in h.turns[n - 1].items
    ensures item in SourcesOf(r.checkpoint)
  {
    assert CompletedItem(h.turns, item, r.checkpoint.value.through);
  }

  /** A turn completes at or below the boundary of an active checkpoint: its items were never compacted. */
  predicate LateEnd(h: History, e: SessionEvent) {
    e.End? && e.completed && 1 <= e.turn <= |h.turns| && h.turns[e.turn - 1].status == Running
    && h.turns[e.turn - 1].items != [] && exists c | c in h.checkpoints :: c.active && c.through >= e.turn
  }

  lemma EndCoverage(h: History, e: SessionEvent)
    requires SafeInv(h) && FullCoverage(h) && e.End?
    ensures FullCoverage(SessionStep(h, e)) <==> !LateEnd(h, e)
  {
    hide TaintInv, Leaves, LeavesOf;
    var t := SessionStep(h, e);
    if LateEnd(h, e) {
      var c :| c in h.checkpoints && c.active && c.through >= e.turn;
      var item := h.turns[e.turn - 1].items[0];
      assert CompletedTurn(t.turns, e.turn) && CompletedItem(t.turns, item, c.through);
      RunningItemIsNoSource(h, c, e.turn, item);
    } else {
      forall c, item | c in t.checkpoints && c.active && CompletedItem(t.turns, item, c.through)
        ensures item in c.sources
      {
        var n: nat :| n <= c.through && CompletedTurn(t.turns, n) && item in t.turns[n - 1].items;
        assert CompletedTurn(h.turns, n) && CompletedItem(h.turns, item, c.through);
      }
    }
  }

  lemma RunningItemIsNoSource(h: History, c: Checkpoint, turn: nat, item: ItemId)
    requires SourcesInv(h) && c in h.checkpoints && 1 <= turn <= |h.turns|
    requires h.turns[turn - 1].status == Running && item in h.turns[turn - 1].items
    ensures item !in c.sources
  {
    assert CheckpointSourced(h.turns, c);
    forall source | source in c.sources ensures source != item {
      var n: nat :| n <= c.through && CompletedTurn(h.turns, n) && source in h.turns[n - 1].items;
      assert 0 <= turn - 1 < |h.turns| && n != turn;
    }
  }

  lemma GrowthKeepsCoverage(h: History, e: SessionEvent)
    requires SafeInv(h) && FullCoverage(h) && (e.Begin? || e.Append?)
    ensures FullCoverage(SessionStep(h, e))
  {
    hide TaintInv, SourcesInv;
    var t := SessionStep(h, e);
    forall c, item | c in t.checkpoints && c.active && CompletedItem(t.turns, item, c.through)
      ensures item in c.sources
    {
      var n: nat :| n <= c.through && CompletedTurn(t.turns, n) && item in t.turns[n - 1].items;
      assert CompletedTurn(h.turns, n) && h.turns[n - 1] == t.turns[n - 1];
      assert CompletedItem(h.turns, item, c.through);
    }
  }

  lemma QuarantineKeepsCoverage(h: History, item: ItemId)
    requires FullCoverage(h)
    ensures FullCoverage(QuarantineItem(h, item))
  {
    var t := QuarantineItem(h, item);
    forall c, i | c in t.checkpoints && c.active && CompletedItem(t.turns, i, c.through) ensures i in c.sources {
      var k :| 0 <= k < |t.checkpoints| && t.checkpoints[k] == c;
      assert h.checkpoints[k] in h.checkpoints && h.checkpoints[k] == c;
    }
  }

  lemma BuildKeepsCoverage(h: History, turn: nat, notices: seq<nat>, limits: Limits, compaction: Compaction, now: Time)
    requires SafeInv(h) && FullCoverage(h) && CanBuild(h, turn)
    ensures FullCoverage(Build(h, turn, notices, limits, compaction, now).1)
  {
    hide SafeInv, Entries, EntriesFromSummary, ReadFor, NewCheckpoint;
    var r := ReadFor(h, turn, notices);
    ReadBack(h, turn, notices);
    if compaction.Summarised? && Compactable(r.rows) != [] {
      var c := NewCheckpoint(r, compaction.nonce, now);
      forall item | CompletedItem(h.turns, item, c.through) ensures item in c.sources {
        NewCheckpointIsFull(h, turn, r, compaction.nonce, now, item);
      }
    }
  }

  /** A step loses part of the view exactly when a turn completes below an active boundary. */
  lemma CoverageLostIff(h: History, e: SessionEvent)
    requires SafeInv(h) && FullCoverage(h)
    ensures FullCoverage(SessionStep(h, e)) <==> !LateEnd(h, e)
  {
    hide SafeInv, FullCoverage;
    match e
    case End(_, _) => EndCoverage(h, e);
    case Quarantine(item) => QuarantineKeepsCoverage(h, item);
    case BuildContext(turn, notices, limits, compaction, now) =>
      if CanBuild(h, turn) { BuildKeepsCoverage(h, turn, notices, limits, compaction, now); }
    case _ => GrowthKeepsCoverage(h, e);
  }

  /** Only an approval turn can be late: a running chat turn is above every boundary. */
  lemma OnlyApprovalTurnsAreLate(h: History, e: SessionEvent, clock: Time)
    requires OrderInv(h, clock) && LateEnd(h, e)
    ensures !h.turns[e.turn - 1].chat
  {
    if h.turns[e.turn - 1].chat { assert ChatRunning(h.turns, e.turn); }
  }
}

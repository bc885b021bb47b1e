/** Runs of a session in which the limits of coverage and of cleanliness show, and what follows from them. */
module ContextRuns {
  import opened Options
  import opened Context
  import opened ContextSafety
  import opened ContextShape

  // ---------- A turn that completes late ----------

  /** An item of a turn at or below the boundary of checkpoint `j` that the checkpoint did not take in. */
  predicate Missed(h: History, j: nat, n: nat, item: ItemId) {
    && j < |h.checkpoints| && 1 <= n <= |h.turns| && item in h.turns[n - 1].items
    && n <= h.checkpoints[j].through && item !in h.checkpoints[j].sources
  }

  /** A late end leaves every item of its turn behind every active checkpoint at or above it. */
  lemma LateItemsAreMissed(h: History, e: SessionEvent, j: nat, item: ItemId)
    requires SafeInv(h) && e.End? && 1 <= e.turn <= |h.turns| && h.turns[e.turn - 1].status == Running
    requires j < |h.checkpoints| && e.turn <= h.checkpoints[j].through && item in h.turns[e.turn - 1].items
    ensures Missed(SessionStep(h, e), j, e.turn, item)
  {
    hide TaintInv, Leaves, LeavesOf;
    RunningItemIsNoSource(h, h.checkpoints[j], e.turn, item);
  }

  /** Checkpoints keep their boundary and sources, and turns keep their items. */
  lemma MissedStays(h: History, e: SessionEvent, j: nat, n: nat, item: ItemId)
    requires Missed(h, j, n, item)
    ensures Missed(SessionStep(h, e), j, n, item)
  {
    hide Entries, EntriesFromSummary, NewCheckpoint, Compactable, Since, ReadFor;
  }

  lemma {:induction false} MissedForever(h: History, later: seq<SessionEvent>, j: nat, n: nat, item: ItemId)
    requires Missed(h, j, n, item)
    ensures Missed(SessionRun(h, later), j, n, item)
    decreases |later|
  {
    hide Missed, SessionStep;
    if later != [] {
      MissedStays(h, later[0], j, n, item);
      MissedForever(SessionStep(h, later[0]), later[1..], j, n, item);
    }
  }

  /**
   A read on that checkpoint has the item neither among its sources nor among its rows, and neither has
   the checkpoint that would be compacted from it.
   */
  lemma MissedIsNotRead(h: History, turn: nat, r: Read, j: nat, n: nat, item: ItemId)
    requires SafeInv(h) && ReadOf(h, turn, r) && Missed(h, j, n, item) && r.checkpoint == Some(h.checkpoints[j])
    ensures item !in SourcesOf(r.checkpoint) + Items(r.rows)
    ensures Compactable(r.rows) != [] ==>
              forall nonce, now ::
                  item !in NewCheckpoint(r, nonce, now).sources && n <= NewCheckpoint(r, nonce, now).through
  {
    hide TaintInv, ReadOf;
    forall row | row in r.rows ensures row.item != item {
      RowsOfRead(h, turn, r, row);
      assert 0 <= n - 1 < |h.turns|;
    }
    if Compactable(r.rows) != [] {
      BoundaryFacts(h, turn, r);
      CompactableAreRows(r);
    }
  }

  lemma CompactableAreRows(r: Read)
    ensures forall row | row in Compactable(r.rows) :: row in r.rows
  {
    if r.rows != [] { UntilHas(r.rows, MaxTurn(r.rows)); }
  }

  /** So its content is in no context built on that checkpoint. */
  lemma MissedIsInNoContext(h: History, turn: nat, notices: seq<nat>, limits: Limits, compaction: Compaction, now: Time,
                            j: nat, n: nat, item: ItemId)
    requires SafeInv(h) && CanBuild(h, turn) && Missed(h, j, n, item) && n != turn
    requires LatestCheckpoint(h.checkpoints, turn) == Some(h.checkpoints[j])
    ensures var built := Build(h, turn, notices, limits, compaction, now).0;
            built.Context? ==> item !in LeavesOf(built.entries)
  {
    hide SourcesInv, Leaves, LeavesOf, CompletedRows, Entries, EntriesFromSummary, CreateCheckpoint, Since, Compactable;
    var r := ReadFor(h, turn, notices);
    ReadBack(h, turn, notices);
    MissedIsNotRead(h, turn, r, j, n, item);
    CurrentIsOther(h, turn, n, item);
    var c := h.checkpoints[j];
    assert SourcesCover(c);
    EntriesLeaves(r.checkpoint, r.rows, r);
    if compaction.Summarised? && Compactable(r.rows) != [] {
      var d := NewCheckpoint(r, compaction.nonce, now);
      NewCheckpointCovers(r, compaction.nonce, now);
      SinceHas(r.rows, d.through);
      EntriesLeaves(Some(d), Since(r.rows, d.through), r);
    }
  }

  lemma CurrentIsOther(h: History, turn: nat, n: nat, item: ItemId)
    requires SafeInv(h) && CanBuild(h, turn) && 1 <= n <= |h.turns| && item in h.turns[n - 1].items && n != turn
    ensures h.turns[turn - 1].items[0] != item
  {
    hide TaintInv;
    assert h.turns[turn - 1].items[0] in h.turns[turn - 1].items;
  }

  // ---------- A session ----------

  /** An approval turn that takes its time, two completed chat turns and a third one that is running. */
  function Session(): seq<SessionEvent> {
    [Begin(false, 1), Begin(true, 2), End(2, true), Begin(true, 3), End(3, true), Begin(true, 4)]
  }

  const TURNS: seq<TurnRecord> := [
    TurnRecord(Running, false, [1]), TurnRecord(Completed, true, [2]),
    TurnRecord(Completed, true, [3]), TurnRecord(Running, true, [4])]

  /** Everything is over the threshold and within the hard limit. */
  const TIGHT: Limits := Limits(0, 1, true, (entries: seq<Entry>) => 1)

  lemma SixSteps(h: History, e: seq<SessionEvent>)
    requires |e| == 6
    ensures SessionRun(h, e) ==
            SessionStep(SessionStep(SessionStep(SessionStep(SessionStep(SessionStep(h, e[0]), e[1]), e[2]), e[3]),
                                    e[4]), e[5])
  {
    hide SessionStep;
    var h1 := SessionStep(h, e[0]);
    var h2 := SessionStep(h1, e[1]);
    var h3 := SessionStep(h2, e[2]);
    var h4 := SessionStep(h3, e[3]);
    var h5 := SessionStep(h4, e[4]);
    var h6 := SessionStep(h5, e[5]);
    var e1 := e[1..];
    var e2 := e1[1..];
    var e3 := e2[1..];
    var e4 := e3[1..];
    var e5 := e4[1..];
    assert SessionRun(h6, e5[1..]) == h6;
    assert SessionRun(h5, e5) == h6;
    assert SessionRun(h4, e4) == h6;
    assert SessionRun(h3, e3) == h6;
    assert SessionRun(h2, e2) == h6;
    assert SessionRun(h1, e1) == h6;
  }

  lemma AfterSession()
    ensures SessionRun(NEW_SESSION, Session()) == History(TURNS, {}, [])
  {
    hide SessionStep;
    SixSteps(NEW_SESSION, Session());
    FirstChat();
    SecondChat(History([TurnRecord(Running, false, [1]), TurnRecord(Completed, true, [2])], {}, []));
  }

  lemma FirstChat()
    ensures SessionStep(SessionStep(SessionStep(NEW_SESSION, Begin(false, 1)), Begin(true, 2)), End(2, true))
         == History([TurnRecord(Running, false, [1]), TurnRecord(Completed, true, [2])], {}, [])
  {
    var h1 := SessionStep(NEW_SESSION, Begin(false, 1));
    assert h1 == History([TurnRecord(Running, false, [1])], {}, []);
    assert !exists n | 1 <= n <= |h1.turns| :: ChatRunning(h1.turns, n);
    var h2 := SessionStep(h1, Begin(true, 2));
    assert h2 == History([TurnRecord(Running, false, [1]), TurnRecord(Running, true, [2])], {}, []);
  }

  lemma SecondChat(h3: History)
    requires h3 == History([TurnRecord(Running, false, [1]), TurnRecord(Completed, true, [2])], {}, [])
    ensures SessionStep(SessionStep(SessionStep(h3, Begin(true, 3)), End(3, true)), Begin(true, 4))
            == History(TURNS, {}, [])
  {
    assert !exists n | 1 <= n <= |h3.turns| :: ChatRunning(h3.turns, n);
    var h4 := SessionStep(h3, Begin(true, 3));
    assert h4 == History(
      [TurnRecord(Running, false, [1]), TurnRecord(Completed, true, [2]), TurnRecord(Running, true, [3])], {}, []);
    var h5 := SessionStep(h4, End(3, true));
    assert h5 == History(
      [TurnRecord(Running, false, [1]), TurnRecord(Completed, true, [2]), TurnRecord(Completed, true, [3])], {}, []);
    assert !exists n | 1 <= n <= |h5.turns| :: ChatRunning(h5.turns, n);
  }

  /** What turn 4 reads: both completed turns; the older one can be compacted. */
  lemma SessionRead()
    ensures CanBuild(History(TURNS, {}, []), 4)
    ensures var r := ReadFor(History(TURNS, {}, []), 4, []);
            r.rows == [Row(2, 2), Row(3, 3)] && r.checkpoint.None? && r.quarantined == {}
            && Compactable(r.rows) == [Row(2, 2)] && MaxTurn(Compactable(r.rows)) == 2
  {
    SessionRows();
    var rows := [Row(2, 2), Row(3, 3)];
    assert rows[1..] == [Row(3, 3)] && MaxTurn([Row(3, 3)]) == 3;
    assert MaxTurn(rows) == 3;
    assert rows[..1] == [Row(2, 2)] && [Row(2, 2)][..0] == [];
    assert Until([Row(2, 2)], 3) == Until([], 3) + [Row(2, 2)];
    assert Until(rows, 3) == [Row(2, 2)];
  }

  lemma SessionRows()
    ensures CompletedRows(TURNS, 0, 4) == [Row(2, 2), Row(3, 3)]
  {
    assert CompletedRows(TURNS, 3, 4) == [];
    assert RowsOfTurn(3, TURNS[2].items) == [Row(3, 3)];
    assert CompletedRows(TURNS, 2, 4) == [Row(3, 3)];
    assert RowsOfTurn(2, TURNS[1].items) == [Row(2, 2)];
    assert CompletedRows(TURNS, 1, 4) == [Row(2, 2), Row(3, 3)];
    assert CompletedRows(TURNS, 0, 4) == CompletedRows(TURNS, 1, 4);
  }

  function Compacted(now: Time): Checkpoint { Checkpoint(2, Summary([Original(2, 2)], 0), {2}, now, true) }

  lemma NewIsCompacted(now: Time)
    ensures var r := ReadFor(History(TURNS, {}, []), 4, []);
            Compactable(r.rows) != [] && NewCheckpoint(r, 0, now) == Compacted(now)
  {
    SessionRead();
    var r := ReadFor(History(TURNS, {}, []), 4, []);
    assert CompactEntries(r) == [Original(2, 2)];
    assert Items([Row(2, 2)]) == {2};
  }

  lemma SavedCompaction(h: History, now: Time)
    requires h.turns == TURNS && h.checkpoints == []
    ensures CreateCheckpoint(h, Compacted(now)) == Some(h.(checkpoints := [Compacted(now)]))
  {
    var n: nat := 2;
    assert n <= 2 && CompletedTurn(h.turns, n) && 2 in h.turns[n - 1].items;
    assert CompletedItem(h.turns, 2, 2);
    assert 2 in Compacted(now).sources && forall item | item in Compacted(now).sources :: item == 2;
    assert h.checkpoints + [Compacted(now)] == [Compacted(now)];
  }

  lemma CommitsCompaction(h: History, now: Time)
    requires h.turns == TURNS && h.checkpoints == []
    ensures Commit(h, ReadFor(History(TURNS, {}, []), 4, []), TIGHT, Summarised(0), now).1
            == h.(checkpoints := [Compacted(now)])
  {
    hide Entries, EntriesFromSummary, CreateCheckpoint, Since, NewCheckpoint, ReadFor, Compactable;
    NewIsCompacted(now);
    SavedCompaction(h, now);
  }

  /** The approval turn ends after turn 4 compacted past it: a run in which an end is late. */
  lemma LateEndInSomeRun(now: Time)
    ensures var h := SessionRun(NEW_SESSION, Session() + [BuildContext(4, [], TIGHT, Summarised(0), now)]);
            LateEnd(h, End(1, true)) && Missed(SessionStep(h, End(1, true)), 0, 1, 1)
  {
    hide SessionStep, LateEnd, Missed;
    AfterSession();
    var build := BuildContext(4, [], TIGHT, Summarised(0), now);
    SessionConcat(NEW_SESSION, Session(), [build]);
    var h := History(TURNS, {}, []);
    assert [build][1..] == [];
    assert SessionRun(h, [build]) == SessionRun(SessionStep(h, build), []);
    CompactingBuild(now);
    EndIsLate(now);
  }

  lemma CompactingBuild(now: Time)
    ensures SessionStep(History(TURNS, {}, []), BuildContext(4, [], TIGHT, Summarised(0), now))
         == History(TURNS, {}, [Compacted(now)])
  {
    hide Commit, ReadFor;
    SessionRead();
    CommitsCompaction(History(TURNS, {}, []), now);
  }

  lemma EndIsLate(now: Time)
    ensures var h := History(TURNS, {}, [Compacted(now)]);
            LateEnd(h, End(1, true)) && Missed(SessionStep(h, End(1, true)), 0, 1, 1)
  {
    var h := History(TURNS, {}, [Compacted(now)]);
    assert Compacted(now) in h.checkpoints && Compacted(now).through >= 1;
    var t := SessionStep(h, End(1, true));
    assert t.turns[0] == TurnRecord(Completed, false, [1]);
  }

  lemma {:induction false} SessionConcat(h: History, a: seq<SessionEvent>, b: seq<SessionEvent>)
    ensures SessionRun(h, a + b) == SessionRun(SessionRun(h, a), b)
    decreases |a|
  {
    hide SessionStep;
    if a == [] {
      assert a + b == b;
    } else {
      assert (a + b)[0] == a[0] && (a + b)[1..] == a[1..] + b;
      SessionConcat(SessionStep(h, a[0]), a[1..], b);
    }
  }

  // ---------- A quarantine between read and save ----------

  /**
   Turn 4 reads, item 2 is quarantined, turn 4 saves what it compacted: the saved summary is active and
   depends on the quarantined item.
   */
  lemma TaintedSaveInSomeRun(now: Time)
    ensures var before := SessionRun(NEW_SESSION, Session());
            && CanBuild(before, 4)
            && var r := ReadFor(before, 4, []);
               var saved := Commit(SessionStep(before, Quarantine(2)), r, TIGHT, Summarised(0), now).1;
               && 2 in saved.quarantined && !TaintInv(saved)
               && exists c :: c in saved.checkpoints && c.active && 2 in LeavesOf(c.summary.of)
  {
    hide Commit, ReadFor, LeavesOf, CanBuild, TaintInv;
    AfterSession();
    SessionRead();
    var h := History(TURNS, {}, []);
    QuarantinedSession();
    CommitsCompaction(History(TURNS, {2}, []), now);
    var saved := History(TURNS, {2}, [Compacted(now)]);
    CompactedLeaf(now);
    assert Compacted(now) in saved.checkpoints;
    TaintedHistory(saved, Compacted(now), 2);
  }

  lemma QuarantinedSession()
    ensures SessionStep(History(TURNS, {}, []), Quarantine(2)) == History(TURNS, {2}, [])
  {
    assert 2 in TURNS[1].items;
    assert ItemExists(TURNS, 2);
    assert QuarantineItem(History(TURNS, {}, []), 2).checkpoints == [];
  }

  lemma CompactedLeaf(now: Time)
    ensures LeavesOf(Compacted(now).summary.of) == {2}
  {
    OneLeaf(Original(2, 2));
  }

  lemma TaintedHistory(h: History, c: Checkpoint, item: ItemId)
    requires c in h.checkpoints && c.active && item in LeavesOf(c.summary.of) && item in h.quarantined
    ensures !TaintInv(h)
  {
    hide Leaves, LeavesOf;
  }
}

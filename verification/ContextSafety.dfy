/** Taint, coverage and size of every context that a session builds. */
module ContextSafety {
  import opened Options
  import opened Context

  // ---------- Sequences of rows ----------

  lemma {:induction false} UntilHas(rows: seq<Row>, n: nat)
    ensures forall r :: r in Until(rows, n) <==> r in rows && r.turn < n
    decreases |rows|
  {
    if rows != [] {
      UntilHas(rows[..|rows| - 1], n);
      assert rows == rows[..|rows| - 1] + [rows[|rows| - 1]];
    }
  }

  lemma {:induction false} SinceHas(rows: seq<Row>, n: nat)
    ensures forall r :: r in Since(rows, n) <==> r in rows && r.turn > n
    decreases |rows|
  {
    if rows != [] {
      SinceHas(rows[..|rows| - 1], n);
      assert rows == rows[..|rows| - 1] + [rows[|rows| - 1]];
    }
  }

  lemma {:induction false} CompletedRowsHas(turns: seq<TurnRecord>, after: nat, before: nat, r: Row)
    requires before <= |turns| + 1
    ensures r in CompletedRows(turns, after, before)
       <==> after < r.turn < before && turns[r.turn - 1].status == Completed && r.item in turns[r.turn - 1].items
    decreases before - after
  {
    hide RowsOfTurn;
    if after + 1 < before {
      CompletedRowsHas(turns, after + 1, before, r);
      RowsOfTurnHas(after + 1, turns[after].items, r);
    }
  }

  lemma RowsOfTurnHas(n: nat, items: seq<ItemId>, r: Row)
    ensures r in RowsOfTurn(n, items) <==> r.turn == n && r.item in items
  {
    var mine := RowsOfTurn(n, items);
    if r.turn == n && r.item in items {
      var k :| 0 <= k < |items| && items[k] == r.item;
      assert mine[k] == r;
    }
  }

  predicate Sorted(rows: seq<Row>) { forall i, j | 0 <= i < j < |rows| :: rows[i].turn <= rows[j].turn }

  lemma {:induction false} CompletedRowsSorted(turns: seq<TurnRecord>, after: nat, before: nat)
    requires before <= |turns| + 1
    ensures Sorted(CompletedRows(turns, after, before))
    decreases before - after
  {
    if after + 1 < before {
      var rest := CompletedRows(turns, after + 1, before);
      CompletedRowsSorted(turns, after + 1, before);
      forall r | r in rest ensures r.turn > after { CompletedRowsHas(turns, after + 1, before, r); }
      assert forall k | 0 <= k < |rest| :: rest[k] in rest;
    }
  }

  lemma {:induction false} NothingSince(rows: seq<Row>, n: nat)
    requires forall r | r in rows :: r.turn <= n
    ensures Since(rows, n) == []
    decreases |rows|
  {
    if rows != [] { NothingSince(rows[..|rows| - 1], n); }
  }

  /** Cutting sorted rows at the newest compacted turn loses and repeats nothing and keeps the order. */
  lemma {:induction false} CutsInTwo(rows: seq<Row>, n: nat, m: nat)
    requires Sorted(rows) && m < n
    requires forall r | r in rows :: r.turn <= m || r.turn >= n
    ensures Until(rows, n) + Since(rows, m) == rows
    decreases |rows|
  {
    if rows != [] {
      var front, last := rows[..|rows| - 1], rows[|rows| - 1];
      assert rows == front + [last];
      CutsInTwo(front, n, m);
      if last.turn < n {
        forall r | r in front
          ensures r.turn <= m
        {
          assert exists k :: 0 <= k < |front| && front[k] == r && r.turn <= last.turn;
        }
        NothingSince(front, m);
      }
    }
  }

  // ---------- Leaves of what a build reads ----------

  lemma {:induction false} ItemLeaves(quarantined: set<ItemId>, rows: seq<Row>)
    ensures LeavesOf(ItemEntries(quarantined, rows)) == Items(rows) - quarantined
    decreases |rows|
  {
    if rows != [] {
      var all := ItemEntries(quarantined, rows);
      assert all[0] == ItemEntry(quarantined, rows[0]);
      assert all[1..] == ItemEntries(quarantined, rows[1..]);
      ItemLeaves(quarantined, rows[1..]);
      assert Items(rows) == {rows[0].item} + Items(rows[1..]) by {
        assert rows == [rows[0]] + rows[1..];
      }
    }
  }

  lemma {:induction false} NoticeLeaves(kinds: seq<nat>)
    ensures LeavesOf(Notices(kinds)) == {} && CountNotices(Notices(kinds)) == |kinds|
    decreases |kinds|
  {
    if kinds != [] {
      assert Notices(kinds)[0] == Notice(kinds[0]) && Notices(kinds)[1..] == Notices(kinds[1..]);
      NoticeLeaves(kinds[1..]);
    }
  }

  lemma CheckpointLeaves(c: Option<Checkpoint>)
    ensures LeavesOf(CheckpointEntries(c)) == if c.Some? then LeavesOf(c.value.summary.of) else {}
  {
    if c.Some? { assert CheckpointEntries(c)[1..] == []; }
  }

  lemma OneLeaf(e: Entry)
    ensures LeavesOf([e]) == Leaves(e)
  {
    assert [e][1..] == [];
  }

  /** A context's leaves: those of the summary, and the original content of every item not quarantined. */
  lemma EntriesLeaves(c: Option<Checkpoint>, rows: seq<Row>, r: Read)
    ensures LeavesOf(Entries(c, rows, r))
         == (if c.Some? then LeavesOf(c.value.summary.of)
             else {}) + (Items(rows) - r.quarantined) + ({r.current.item} - r.quarantined)
  {
    var items, current := ItemEntries(r.quarantined, rows), [ItemEntry(r.quarantined, r.current)];
    LeavesOfAppend(Notices(r.notices) + CheckpointEntries(c) + items, current);
    LeavesOfAppend(Notices(r.notices) + CheckpointEntries(c), items);
    LeavesOfAppend(Notices(r.notices), CheckpointEntries(c));
    NoticeLeaves(r.notices);
    CheckpointLeaves(c);
    ItemLeaves(r.quarantined, rows);
    OneLeaf(ItemEntry(r.quarantined, r.current));
  }

  lemma CompactedLeaves(r: Read)
    ensures LeavesOf(CompactEntries(r))
         == (if r.checkpoint.Some? then LeavesOf(r.checkpoint.value.summary.of)
             else {}) + (Items(Compactable(r.rows)) - r.quarantined)
  {
    LeavesOfAppend(CheckpointEntries(r.checkpoint), ItemEntries(r.quarantined, Compactable(r.rows)));
    CheckpointLeaves(r.checkpoint);
    ItemLeaves(r.quarantined, Compactable(r.rows));
  }

  // ---------- The taint invariant ----------

  /** Everything that flowed into the summary is among the recorded sources. */
  predicate SourcesCover(c: Checkpoint) { LeavesOf(c.summary.of) <= c.sources }

  /** An active summary depends on no quarantined item's original content. */
  predicate Clean(c: Checkpoint, quarantined: set<ItemId>) { c.active ==> LeavesOf(c.summary.of) !! quarantined }

  ghost predicate TaintInv(h: History) {
    forall c | c in h.checkpoints :: SourcesCover(c) && Clean(c, h.quarantined)
  }

  lemma ReadIsClean(h: History, turn: nat, notices: seq<nat>)
    requires TaintInv(h) && CanBuild(h, turn)
    ensures var r := ReadFor(h, turn, notices);
            r.checkpoint.Some? ==>
                SourcesCover(r.checkpoint.value) && LeavesOf(r.checkpoint.value.summary.of) !! h.quarantined
  {
  }

  lemma NewCheckpointCovers(r: Read, nonce: nat, now: Time)
    requires Compactable(r.rows) != [] && (r.checkpoint.Some? ==> SourcesCover(r.checkpoint.value))
    ensures SourcesCover(NewCheckpoint(r, nonce, now))
    ensures LeavesOf(NewCheckpoint(r, nonce, now).summary.of) == LeavesOf(CompactEntries(r))
  {
    CompactedLeaves(r);
  }

  /** What the read brings into a summary. */
  function Tainted(r: Read): set<ItemId> { LeavesOf(CompactEntries(r)) }

  /** A build's read and save as one step keep every active summary clean. */
  lemma BuildKeepsTaintInv(h: History, turn: nat, notices: seq<nat>, limits: Limits, compaction: Compaction, now: Time)
    requires TaintInv(h) && CanBuild(h, turn)
    ensures TaintInv(Build(h, turn, notices, limits, compaction, now).1)
  {
    hide LatestCheckpoint, CompletedRows, Entries, EntriesFromSummary, NewCheckpoint, ReadFor;
    var r := ReadFor(h, turn, notices);
    ReadIsClean(h, turn, notices);
    ReadQuarantined(h, turn, notices);
    CompactedLeaves(r);
    if compaction.Summarised? && Compactable(r.rows) != [] {
      NewCheckpointCovers(r, compaction.nonce, now);
    }
  }

  lemma ReadQuarantined(h: History, turn: nat, notices: seq<nat>)
    requires CanBuild(h, turn)
    ensures ReadFor(h, turn, notices).quarantined == h.quarantined
  {
  }

  /**
   With the read and the save apart, the saved summary is clean exactly when nothing that flowed into
   it was quarantined in between.
   */
  lemma SplitSaveCleanIff(h: History, r: Read, nonce: nat, now: Time)
    requires Compactable(r.rows) != [] && CreateCheckpoint(h, NewCheckpoint(r, nonce, now)).Some?
    requires TaintInv(h) && (r.checkpoint.Some? ==> SourcesCover(r.checkpoint.value))
    ensures TaintInv(CreateCheckpoint(h, NewCheckpoint(r, nonce, now)).value) <==> Tainted(r) !! h.quarantined
  {
    hide NewCheckpoint, CreateCheckpoint;
    var c := NewCheckpoint(r, nonce, now);
    NewCheckpointCovers(r, nonce, now);
    SavedCheckpoints(h, r, nonce, now);
    assert c in h.checkpoints + [c];
  }

  lemma SavedCheckpoints(h: History, r: Read, nonce: nat, now: Time)
    requires Compactable(r.rows) != [] && CreateCheckpoint(h, NewCheckpoint(r, nonce, now)).Some?
    ensures CreateCheckpoint(h, NewCheckpoint(r, nonce, now)).value
            == h.(checkpoints := h.checkpoints + [NewCheckpoint(r, nonce, now)])
    ensures NewCheckpoint(r, nonce, now).active
  {
  }

  lemma QuarantineKeepsTaintInv(h: History, item: ItemId)
    requires TaintInv(h)
    ensures TaintInv(QuarantineItem(h, item))
  {
    var t := QuarantineItem(h, item);
    forall c | c in t.checkpoints ensures SourcesCover(c) && Clean(c, t.quarantined) {
      var k :| 0 <= k < |t.checkpoints| && t.checkpoints[k] == c;
      assert h.checkpoints[k] in h.checkpoints;
    }
  }

  // ---------- Which items and turns exist ----------

  /** Items belong to one turn; the sources of a checkpoint are items of completed turns up to its boundary. */
  ghost predicate SourcesInv(h: History) {
    && (forall n, m, item | 0 <= n < |h.turns| && 0 <= m < |h.turns| && item in h.turns[n].items
        && item in h.turns[m].items :: n == m)
    && (forall c | c in h.checkpoints :: CheckpointSourced(h.turns, c))
  }

  ghost predicate CheckpointSourced(turns: seq<TurnRecord>, c: Checkpoint) {
    CompletedTurn(turns, c.through) && forall item | item in c.sources :: CompletedItem(turns, item, c.through)
  }

  /** Completed turns stay as they are; turns are only added. */
  predicate CompletedStay(turns: seq<TurnRecord>, turns': seq<TurnRecord>) {
    |turns| <= |turns'| && forall n | 0 <= n < |turns| :: turns[n].status == Completed ==> turns'[n] == turns[n]
  }

  lemma SourcedStays(turns: seq<TurnRecord>, turns': seq<TurnRecord>, c: Checkpoint)
    requires CheckpointSourced(turns, c) && CompletedStay(turns, turns')
    ensures CheckpointSourced(turns', c)
  {
    forall item | item in c.sources ensures CompletedItem(turns', item, c.through) {
      var n: nat :| n <= c.through && CompletedTurn(turns, n) && item in turns[n - 1].items;
      assert CompletedTurn(turns', n) && item in turns'[n - 1].items;
    }
  }

  /** A new item in an existing or new turn is in no other turn, hence in no checkpoint. */
  lemma TurnsChangeKeepsSources(h: History, t: History, n: nat)
    requires SourcesInv(h) && CompletedStay(h.turns, t.turns) && t.checkpoints == h.checkpoints
    requires |t.turns| == |h.turns| || (|t.turns| == |h.turns| + 1 && n == |h.turns|)
    requires forall m | 0 <= m < |h.turns| && m != n :: t.turns[m] == h.turns[m]
    requires n < |t.turns| && forall item | item in t.turns[n].items ::
               (n < |h.turns| && item in h.turns[n].items) || !ItemExists(h.turns, item)
    ensures SourcesInv(t)
  {
    forall c | c in t.checkpoints ensures CheckpointSourced(t.turns, c) { SourcedStays(h.turns, t.turns, c); }
  }

  lemma QuarantineKeepsSources(h: History, item: ItemId)
    requires SourcesInv(h)
    ensures SourcesInv(QuarantineItem(h, item))
  {
    var t := QuarantineItem(h, item);
    forall c | c in t.checkpoints ensures CheckpointSourced(t.turns, c) {
      var k :| 0 <= k < |t.checkpoints| && t.checkpoints[k] == c;
      assert h.checkpoints[k] in h.checkpoints;
    }
  }

  lemma CommitKeepsSources(h: History, r: Read, limits: Limits, compaction: Compaction, now: Time)
    requires SourcesInv(h)
    ensures SourcesInv(Commit(h, r, limits, compaction, now).1)
    ensures Commit(h, r, limits, compaction, now).1
            == h.(checkpoints := Commit(h, r, limits, compaction, now).1.checkpoints)
  {
    hide Entries, EntriesFromSummary, NewCheckpoint, Compactable, Since;
  }

  // ---------- Every step and every run ----------

  ghost predicate SafeInv(h: History) { TaintInv(h) && SourcesInv(h) }

  /** Items of the session's tables and quarantine marks are never taken back. */
  predicate Grows(h: History, t: History) { h.quarantined <= t.quarantined && CompletedStay(h.turns, t.turns) }

  lemma AppendKeeps(h: History, turn: nat, item: ItemId, isQuarantined: bool)
    requires SafeInv(h)
    ensures var t := SessionStep(h, Append(turn, item, isQuarantined)); SafeInv(t) && Grows(h, t)
  {
    hide Leaves, LeavesOf;
    var t := SessionStep(h, Append(turn, item, isQuarantined));
    if t != h {
      TurnsChangeKeepsSources(h, t, turn - 1);
      forall c | c in t.checkpoints ensures Clean(c, t.quarantined) {
        if item in c.sources { SourcesExist(h, c, item); }
        assert SourcesCover(c) && Clean(c, h.quarantined);
      }
    }
  }

  lemma SourcesExist(h: History, c: Checkpoint, item: ItemId)
    requires SourcesInv(h) && c in h.checkpoints && item in c.sources
    ensures ItemExists(h.turns, item)
  {
    assert CheckpointSourced(h.turns, c);
    var n: nat :| n <= c.through && CompletedTurn(h.turns, n) && item in h.turns[n - 1].items;
    assert 0 <= n - 1 < |h.turns| && item in h.turns[n - 1].items;
  }

  lemma BeginEndKeep(h: History, e: SessionEvent)
    requires SafeInv(h) && (e.Begin? || e.End?)
    ensures SafeInv(SessionStep(h, e)) && Grows(h, SessionStep(h, e))
  {
    hide Leaves, LeavesOf;
    var t := SessionStep(h, e);
    if t != h { TurnsChangeKeepsSources(h, t, if e.Begin? then |h.turns| else e.turn - 1); }
  }

  lemma SessionStepKeeps(h: History, e: SessionEvent)
    requires SafeInv(h)
    ensures SafeInv(SessionStep(h, e)) && Grows(h, SessionStep(h, e))
  {
    hide TaintInv, SourcesInv, Commit, ReadFor;
    match e
    case Append(turn, item, isQuarantined) => AppendKeeps(h, turn, item, isQuarantined);
    case Quarantine(item) =>
      QuarantineKeepsTaintInv(h, item);
      QuarantineKeepsSources(h, item);
    case BuildContext(turn, notices, limits, compaction, now) =>
      if CanBuild(h, turn) {
        BuildKeepsTaintInv(h, turn, notices, limits, compaction, now);
        CommitKeepsSources(h, ReadFor(h, turn, notices), limits, compaction, now);
      }
    case _ => BeginEndKeep(h, e);
  }

  lemma {:induction false} SessionRunKeeps(h: History, events: seq<SessionEvent>)
    requires SafeInv(h)
    ensures SafeInv(SessionRun(h, events)) && Grows(h, SessionRun(h, events))
    decreases |events|
  {
    hide SafeInv, SessionStep;
    if events != [] {
      var next := SessionStep(h, events[0]);
      SessionStepKeeps(h, events[0]);
      SessionRunKeeps(next, events[1..]);
      var last := SessionRun(next, events[1..]);
      forall n | 0 <= n < |h.turns| && h.turns[n].status == Completed ensures last.turns[n] == h.turns[n] {
        assert next.turns[n] == h.turns[n];
      }
    }
  }

  lemma ContextLeaves(h: History, turn: nat, notices: seq<nat>, limits: Limits, compaction: Compaction, now: Time)
    requires TaintInv(h) && CanBuild(h, turn)
    ensures var built := Build(h, turn, notices, limits, compaction, now).0;
            built.Context? ==> LeavesOf(built.entries) !! h.quarantined
  {
    hide LatestCheckpoint, CompletedRows, Entries, EntriesFromSummary, NewCheckpoint, CreateCheckpoint, ReadFor, Since;
    var r := ReadFor(h, turn, notices);
    ReadIsClean(h, turn, notices);
    ReadQuarantined(h, turn, notices);
    EntriesLeaves(r.checkpoint, r.rows, r);
    if compaction.Summarised? && Compactable(r.rows) != [] {
      var c := NewCheckpoint(r, compaction.nonce, now);
      NewCheckpointCovers(r, compaction.nonce, now);
      CompactedLeaves(r);
      EntriesLeaves(Some(c), Since(r.rows, c.through), r);
    }
  }

  /**
   Once an item is quarantined, no context built at any later time depends on its original content,
   through any number of compactions and fallbacks, whatever the clock shows.
   */
  lemma QuarantineIsForever(before: seq<SessionEvent>, later: seq<SessionEvent>, item: ItemId,
                            turn: nat, notices: seq<nat>, limits: Limits, compaction: Compaction, now: Time,
                            r: Reading, q: Reading)
    requires item in SessionRun(NEW_SESSION, before).quarantined && DifferOnlyAt(r, q, item)
    requires CanBuild(SessionRun(SessionRun(NEW_SESSION, before), later), turn)
    ensures var h := SessionRun(SessionRun(NEW_SESSION, before), later);
            var built := Build(h, turn, notices, limits, compaction, now).0;
            built.Context? ==>
              item !in LeavesOf(built.entries) && RenderAll(built.entries, r) == RenderAll(built.entries, q)
  {
    hide TaintInv, SourcesInv, Build;
    NewSessionSafe();
    SessionRunKeeps(NEW_SESSION, before);
    SessionRunKeeps(SessionRun(NEW_SESSION, before), later);
    var h := SessionRun(SessionRun(NEW_SESSION, before), later);
    ContextLeaves(h, turn, notices, limits, compaction, now);
    var built := Build(h, turn, notices, limits, compaction, now).0;
    if built.Context? { NotALeafNoInfluence(built.entries, r, q, item); }
  }

  lemma NewSessionSafe()
    ensures SafeInv(NEW_SESSION)
  {
  }

  /** An item that is stored quarantined is never shown in any later context, in its own turn or a later one. */
  lemma StoredQuarantined(h: History, turn: nat, item: ItemId, later: seq<SessionEvent>)
    requires SafeInv(h) && 1 <= turn <= |h.turns| && h.turns[turn - 1].status == Running
    requires !ItemExists(h.turns, item) && item !in h.quarantined
    ensures var t := SessionStep(h, Append(turn, item, true));
            && item in t.quarantined && item in t.turns[turn - 1].items
            && item in SessionRun(t, later).quarantined
    ensures var t := SessionStep(h, Append(turn, item, false));
            item !in t.quarantined && item in t.turns[turn - 1].items
  {
    hide TaintInv, SourcesInv;
    SessionStepKeeps(h, Append(turn, item, true));
    SessionRunKeeps(SessionStep(h, Append(turn, item, true)), later);
  }
}

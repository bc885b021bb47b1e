/**
 What a context shows and in which order, stated from the history alone: notices, at most one checkpoint,
 the items of the completed turns after its boundary, and last the input of the running turn.
 */
module ContextOrder {
  import opened Options
  import opened Context
  import opened ContextSafety
  import opened ContextShape

  /** The number of items in completed turns strictly between two turns. */
  function CountBetween(turns: seq<TurnRecord>, after: nat, before: nat): nat
    decreases before
  {
    if before <= after + 1 || before > |turns| + 1 then 0
    else
      CountBetween(turns, after, before - 1)
      + if turns[before - 2].status == Completed then |turns[before - 2].items| else 0
  }

  /** An item as it is shown: its content, or what stands for it once it is quarantined. */
  predicate Shows(e: Entry, quarantined: set<ItemId>, turn: nat, item: ItemId) {
    if item in quarantined then e == Override(turn, item) else e == Original(turn, item)
  }

  /** Turn `t` is completed and strictly between, and has an item at position `k`. */
  predicate Lists(turns: seq<TurnRecord>, after: nat, before: nat, t: nat, k: nat) {
    after < t < before && t <= |turns| && turns[t - 1].status == Completed && k < |turns[t - 1].items|
  }

  /**
   The entries are the items of the completed turns strictly between two turns: turn by turn, in each turn by
   position, each exactly once, and nothing else.
   */
  ghost predicate InOrder(entries: seq<Entry>, turns: seq<TurnRecord>, quarantined: set<ItemId>, after: nat,
                          before: nat) {
    && |entries| == CountBetween(turns, after, before)
    && (forall t: nat, k: nat | Lists(turns, after, before, t, k) ::
          var at := CountBetween(turns, after, t) + k;
          at < |entries| && Shows(entries[at], quarantined, t, turns[t - 1].items[k]))
  }

  // ---------- Rows are in that order ----------

  /** The rows of one turn, if it is completed. */
  function RowsAt(turns: seq<TurnRecord>, n: nat): seq<Row>
    requires 1 <= n <= |turns|
  {
    if turns[n - 1].status == Completed then RowsOfTurn(n, turns[n - 1].items) else []
  }

  lemma NextRows(turns: seq<TurnRecord>, after: nat, before: nat)
    requires after + 1 < before <= |turns| + 1
    ensures CompletedRows(turns, after, before) == RowsAt(turns, after + 1) + CompletedRows(turns, after + 1, before)
    ensures forall r | r in RowsAt(turns, after + 1) :: r.turn == after + 1
    ensures |RowsAt(turns, after + 1)| == if turns[after].status == Completed then |turns[after].items| else 0
    ensures turns[after].status == Completed ==> forall k | 0 <= k < |turns[after].items| ::
              RowsAt(turns, after + 1)[k] == Row(after + 1, turns[after].items[k])
  {
  }

  lemma {:induction false} RowCount(turns: seq<TurnRecord>, after: nat, before: nat)
    requires before <= |turns| + 1
    ensures |CompletedRows(turns, after, before)| == CountBetween(turns, after, before)
    decreases before - after
  {
    hide CompletedRows, CountBetween;
    if after + 1 < before {
      RowCount(turns, after + 1, before);
      CountFrom(turns, after, before);
      NextRows(turns, after, before);
    } else {
      NoRows(turns, after, before);
    }
  }

  lemma {:induction false} RowSlot(turns: seq<TurnRecord>, after: nat, before: nat, t: nat, k: nat)
    requires before <= |turns| + 1 && Lists(turns, after, before, t, k)
    ensures var at := CountBetween(turns, after, t) + k;
            at < |CompletedRows(turns, after, before)|
            && CompletedRows(turns, after, before)[at] == Row(t, turns[t - 1].items[k])
    decreases before - after
  {
    hide CompletedRows, CountBetween;
    NextRows(turns, after, before);
    if t == after + 1 {
      NoRows(turns, after, t);
    } else {
      CountFrom(turns, after, t);
      RowSlot(turns, after + 1, before, t, k);
    }
  }

  lemma NoRows(turns: seq<TurnRecord>, after: nat, before: nat)
    requires before <= after + 1
    ensures CompletedRows(turns, after, before) == [] && CountBetween(turns, after, before) == 0
  {
  }

  lemma {:induction false} CountFrom(turns: seq<TurnRecord>, after: nat, before: nat)
    requires after + 1 < before <= |turns| + 1
    ensures CountBetween(turns, after, before)
         == (if turns[after].status == Completed then |turns[after].items| else 0)
            + CountBetween(turns, after + 1, before)
    decreases before
  {
    if after + 2 < before {
      CountFrom(turns, after, before - 1);
    } else {
      assert CountBetween(turns, after, before - 1) == 0 && CountBetween(turns, after + 1, before) == 0;
    }
  }

  lemma EntriesInOrder(turns: seq<TurnRecord>, quarantined: set<ItemId>, after: nat, before: nat)
    requires before <= |turns| + 1
    ensures InOrder(ItemEntries(quarantined, CompletedRows(turns, after, before)), turns, quarantined, after, before)
  {
    hide CompletedRows, CountBetween;
    RowCount(turns, after, before);
    forall t: nat, k: nat | Lists(turns, after, before, t, k)
      ensures var at := CountBetween(turns, after, t) + k;
              at < |CompletedRows(turns, after, before)|
              && CompletedRows(turns, after, before)[at] == Row(t, turns[t - 1].items[k])
    {
      RowSlot(turns, after, before, t, k);
    }
  }

  /** Every slot belongs to exactly one item: the order has no room for another reading. */
  lemma {:induction false} EverySlotIsAnItem(turns: seq<TurnRecord>, after: nat, before: nat, at: nat)
    returns (t: nat, k: nat)
    requires before <= |turns| + 1 && at < CountBetween(turns, after, before)
    ensures Lists(turns, after, before, t, k) && at == CountBetween(turns, after, t) + k
    decreases before
  {
    if at < CountBetween(turns, after, before - 1) {
      t, k := EverySlotIsAnItem(turns, after, before - 1, at);
    } else {
      t, k := before - 1, at - CountBetween(turns, after, before - 1);
    }
  }

  // ---------- Cutting at a boundary ----------

  /** Rows after a boundary are the rows read from that boundary on. */
  lemma {:induction false} SinceIsLater(turns: seq<TurnRecord>, after: nat, boundary: nat, before: nat)
    requires after <= boundary && before <= |turns| + 1
    ensures Since(CompletedRows(turns, after, before), boundary) == CompletedRows(turns, boundary, before)
    decreases before - after
  {
    if after + 1 < before {
      hide CompletedRows, Since, RowsAt;
      var mine := RowsAt(turns, after + 1);
      var rest := CompletedRows(turns, after + 1, before);
      NextRows(turns, after, before);
      SinceAppend(mine, rest, boundary);
      if after < boundary {
        SinceIsLater(turns, after + 1, boundary, before);
        NothingSince(mine, boundary);
        assert [] + Since(rest, boundary) == Since(rest, boundary);
      } else {
        AllSince(turns, after, before);
      }
    } else if boundary == after {
      assert Since([], boundary) == [];
    }
  }

  lemma {:induction false} SinceAppend(a: seq<Row>, b: seq<Row>, n: nat)
    ensures Since(a + b, n) == Since(a, n) + Since(b, n)
    decreases |b|
  {
    if b == [] {
      assert a + b == a && Since(a, n) + [] == Since(a, n);
    } else {
      assert (a + b)[..|a + b| - 1] == a + b[..|b| - 1];
      SinceAppend(a, b[..|b| - 1], n);
    }
  }

  lemma AllSince(turns: seq<TurnRecord>, after: nat, before: nat)
    requires before <= |turns| + 1
    ensures Since(CompletedRows(turns, after, before), after) == CompletedRows(turns, after, before)
  {
    var rows := CompletedRows(turns, after, before);
    forall r | r in rows ensures r.turn > after { CompletedRowsHas(turns, after, before, r); }
    KeepsAll(rows, after);
  }

  lemma {:induction false} KeepsAll(rows: seq<Row>, n: nat)
    requires forall r | r in rows :: r.turn > n
    ensures Since(rows, n) == rows
    decreases |rows|
  {
    if rows != [] {
      assert rows == rows[..|rows| - 1] + [rows[|rows| - 1]];
      KeepsAll(rows[..|rows| - 1], n);
    }
  }

  /** Rows below the newest completed turn are the rows read up to it. */
  lemma {:induction false} UntilIsEarlier(turns: seq<TurnRecord>, after: nat, newest: nat, before: nat)
    requires after < newest < before <= |turns| + 1
    ensures Until(CompletedRows(turns, after, before), newest) == CompletedRows(turns, after, newest)
    decreases before - after
  {
    hide CompletedRows, Until, RowsAt;
    var mine := RowsAt(turns, after + 1);
    var rest := CompletedRows(turns, after + 1, before);
    NextRows(turns, after, before);
    UntilAppend(mine, rest, newest);
    if after + 1 < newest {
      UntilIsEarlier(turns, after + 1, newest, before);
      TakesAll(mine, newest);
      NextRows(turns, after, newest);
    } else {
      forall r: Row | r in mine + rest ensures r.turn >= newest {
        if r in rest { CompletedRowsHas(turns, after + 1, before, r); }
      }
      TakesNone(mine, newest);
      TakesNone(rest, newest);
      NoRows(turns, after, newest);
    }
  }

  lemma {:induction false} UntilAppend(a: seq<Row>, b: seq<Row>, n: nat)
    ensures Until(a + b, n) == Until(a, n) + Until(b, n)
    decreases |b|
  {
    if b == [] {
      assert a + b == a && Until(a, n) + [] == Until(a, n);
    } else {
      assert (a + b)[..|a + b| - 1] == a + b[..|b| - 1];
      UntilAppend(a, b[..|b| - 1], n);
    }
  }

  lemma {:induction false} TakesAll(rows: seq<Row>, n: nat)
    requires forall r | r in rows :: r.turn < n
    ensures Until(rows, n) == rows
    decreases |rows|
  {
    if rows != [] {
      assert rows == rows[..|rows| - 1] + [rows[|rows| - 1]];
      TakesAll(rows[..|rows| - 1], n);
    }
  }

  lemma {:induction false} TakesNone(rows: seq<Row>, n: nat)
    requires forall r | r in rows :: r.turn >= n
    ensures Until(rows, n) == []
    decreases |rows|
  {
    if rows != [] { TakesNone(rows[..|rows| - 1], n); }
  }

  // ---------- The context ----------

  /** The checkpoint as an entry, if there is one. */
  predicate ShowsCheckpoint(entries: seq<Entry>, c: Option<Checkpoint>) {
    if c.None? then entries == []
    else entries == [Checkpointed(c.value.through, c.value.sources, c.value.summary)]
  }

  /**
   First the notices, then the checkpoint if there is one, then the items of the completed turns after its
   boundary in order, and last the input of the running turn.
   */
  ghost predicate ShowsHistory(entries: seq<Entry>, h: History, turn: nat, notices: seq<nat>, c: Option<Checkpoint>)
    requires CanBuild(h, turn)
  {
    exists first: seq<Entry>, second: seq<Entry>, third: seq<Entry>, last: Entry ::
      && entries == first + second + third + [last]
      && |first| == |notices| && (forall k | 0 <= k < |notices| :: first[k] == Notice(notices[k]))
      && ShowsCheckpoint(second, c)
      && InOrder(third, h.turns, h.quarantined, if c.Some? then c.value.through else 0, turn)
      && Shows(last, h.quarantined, turn, h.turns[turn - 1].items[0])
  }

  lemma PlainShowsHistory(h: History, turn: nat, notices: seq<nat>, c: Option<Checkpoint>, rows: seq<Row>, r: Read)
    requires CanBuild(h, turn) && r.notices == notices && r.quarantined == h.quarantined
    requires r.current == Row(turn, h.turns[turn - 1].items[0])
    requires rows == CompletedRows(h.turns, if c.Some? then c.value.through else 0, turn)
    ensures ShowsHistory(Entries(c, rows, r), h, turn, notices, c)
  {
    hide CompletedRows, InOrder;
    var floor := if c.Some? then c.value.through else 0;
    EntriesInOrder(h.turns, h.quarantined, floor, turn);
    var first, second := Notices(r.notices), CheckpointEntries(c);
    var third, last := ItemEntries(r.quarantined, rows), ItemEntry(r.quarantined, r.current);
    assert Entries(c, rows, r) == first + second + third + [last];
    assert ShowsCheckpoint(second, c);
  }

  /** The last turn before `turn`, after `after`, that is completed and has items. */
  ghost predicate Newest(turns: seq<TurnRecord>, after: nat, turn: nat, n: nat) {
    Lists(turns, after, turn, n, 0) && forall m: nat | n < m :: !Lists(turns, after, turn, m, 0)
  }

  /**
   Every context that a build returns shows the history in order, on the checkpoint that was read or on the one
   that this build saved. The saved one was summarised from the checkpoint that was read and the items in order
   of the turns after it, up to but without the newest completed turn.
   */
  lemma ContextShowsHistory(h: History, turn: nat, notices: seq<nat>, limits: Limits, compaction: Compaction,
                            now: Time)
    requires CanBuild(h, turn)
    ensures var (built, saved) := Build(h, turn, notices, limits, compaction, now);
            var read := LatestCheckpoint(h.checkpoints, turn);
            built.Context? ==>
              if saved == h then ShowsHistory(built.entries, h, turn, notices, read)
              else
                exists c :: saved == h.(checkpoints := h.checkpoints + [c])
                            && ShowsHistory(built.entries, h, turn, notices, Some(c))
                            && Summarises(c, h, turn, read)
  {
    hide LatestCheckpoint, CompletedRows, Entries, EntriesFromSummary, NewCheckpoint, Compactable, Since, ShowsHistory,
      Summarises;
    var r := ReadFor(h, turn, notices);
    ReadBack(h, turn, notices);
    PlainShowsHistory(h, turn, notices, r.checkpoint, r.rows, r);
    if compaction.Summarised? && Compactable(r.rows) != [] {
      var c := NewCheckpoint(r, compaction.nonce, now);
      NewShowsHistory(h, turn, r, compaction.nonce, now);
      SavedIsNew(h, r, compaction.nonce, now);
    }
  }

  /**
   The size of the uncompacted context decides: nothing is compacted up to the threshold or in a child session, a
   build fails on size only if the uncompacted context is over the hard limit, and only a compaction can abort it.
   */
  lemma SizeDecides(h: History, turn: nat, notices: seq<nat>, limits: Limits, compaction: Compaction, now: Time)
    returns (plain: seq<Entry>)
    requires CanBuild(h, turn)
    ensures ShowsHistory(plain, h, turn, notices, LatestCheckpoint(h.checkpoints, turn))
    ensures var (built, saved) := Build(h, turn, notices, limits, compaction, now);
            var size := limits.size(plain);
            && (size <= limits.threshold || !limits.parent ==>
                  saved == h && built == if size > limits.hard then CompactionError else Context(plain, size))
            && (built.CompactionError? ==> size > limits.hard)
            && (built.AgentRunError? ==> size > limits.threshold && limits.parent && compaction.RunAborted?)
            && (built.Context? && saved == h ==> built.entries == plain)
            && (!compaction.Summarised? ==> saved == h)
  {
    hide LatestCheckpoint, CompletedRows, Entries, EntriesFromSummary, NewCheckpoint, Compactable, Since, ShowsHistory;
    var r := ReadFor(h, turn, notices);
    plain := Entries(r.checkpoint, r.rows, r);
    PlainShowsHistory(h, turn, notices, r.checkpoint, r.rows, r);
    if compaction.Summarised? && Compactable(r.rows) != [] { SavedIsNew(h, r, compaction.nonce, now); }
  }

  lemma SavedIsNew(h: History, r: Read, nonce: nat, now: Time)
    requires Compactable(r.rows) != []
    ensures var c := NewCheckpoint(r, nonce, now);
            CreateCheckpoint(h, c).Some? ==>
              CreateCheckpoint(h, c).value == h.(checkpoints := h.checkpoints + [c])
              && h.(checkpoints := h.checkpoints + [c]) != h
  {
    var c := NewCheckpoint(r, nonce, now);
    assert |h.checkpoints + [c]| == |h.checkpoints| + 1;
  }

  /** The summary was made of the checkpoint before it and the items of the turns up to its boundary, in order. */
  ghost predicate Summarises(c: Checkpoint, h: History, turn: nat, read: Option<Checkpoint>) {
    var floor := if read.Some? then read.value.through else 0;
    exists newest: nat, first: seq<Entry>, second: seq<Entry> ::
      && Newest(h.turns, floor, turn, newest) && Newest(h.turns, floor, newest, c.through)
      && c.summary.of == first + second && ShowsCheckpoint(first, read)
      && InOrder(second, h.turns, h.quarantined, floor, newest) && c.active
  }

  lemma SummarisedSo(c: Checkpoint, h: History, turn: nat, read: Option<Checkpoint>, floor: nat, newest: nat,
                     first: seq<Entry>, second: seq<Entry>)
    requires floor == if read.Some? then read.value.through else 0
    requires Newest(h.turns, floor, turn, newest) && Newest(h.turns, floor, newest, c.through)
    requires c.summary.of == first + second && ShowsCheckpoint(first, read)
    requires InOrder(second, h.turns, h.quarantined, floor, newest) && c.active
    ensures Summarises(c, h, turn, read)
  {
  }

  lemma NewShowsHistory(h: History, turn: nat, r: Read, nonce: nat, now: Time)
    requires ReadOf(h, turn, r) && Compactable(r.rows) != []
    ensures var c := NewCheckpoint(r, nonce, now);
            && ShowsHistory(Entries(Some(c), Since(r.rows, c.through), r), h, turn, r.notices, Some(c))
            && Summarises(c, h, turn, LatestCheckpoint(h.checkpoints, turn))
  {
    hide LatestCheckpoint, CompletedRows, Entries, ShowsHistory, InOrder, Newest, Since, Until;
    var c := NewCheckpoint(r, nonce, now);
    BoundaryFacts(h, turn, r);
    var floor, newest := Floor(r), MaxTurn(r.rows);
    SinceIsLater(h.turns, floor, c.through, turn);
    PlainShowsHistory(h, turn, r.notices, Some(c), Since(r.rows, c.through), r);
    NewestOfRead(h, turn, r);
    UntilIsEarlier(h.turns, floor, newest, turn);
    EntriesInOrder(h.turns, h.quarantined, floor, newest);
    assert ShowsCheckpoint(CheckpointEntries(r.checkpoint), r.checkpoint);
    assert c.summary.of == CheckpointEntries(r.checkpoint) + ItemEntries(h.quarantined, Compactable(r.rows));
    var first, second := CheckpointEntries(r.checkpoint), ItemEntries(h.quarantined, Compactable(r.rows));
    assert Compactable(r.rows) == CompletedRows(h.turns, floor, newest);
    assert InOrder(second, h.turns, h.quarantined, floor, newest) && c.summary.of == first + second && c.active;
    assert Newest(h.turns, floor, turn, newest) && Newest(h.turns, floor, newest, c.through);
    SummarisedSo(c, h, turn, r.checkpoint, floor, newest, first, second);
  }

  lemma NewestOfRead(h: History, turn: nat, r: Read)
    requires ReadOf(h, turn, r) && Compactable(r.rows) != []
    ensures Newest(h.turns, Floor(r), turn, MaxTurn(r.rows))
    ensures Newest(h.turns, Floor(r), MaxTurn(r.rows), MaxTurn(Compactable(r.rows)))
  {
    hide ReadOf, MaxTurn, Lists, Until;
    var newest, boundary := MaxTurn(r.rows), MaxTurn(Compactable(r.rows));
    BoundaryFacts(h, turn, r);
    IsNewest(h, turn, r, r.rows, newest);
    IsNewest(h, turn, r, Compactable(r.rows), boundary);
    HasFirst(h.turns, Floor(r), turn, newest);
    HasFirst(h.turns, Floor(r), newest, boundary);
    forall m: nat | newest < m ensures !Lists(h.turns, Floor(r), turn, m, 0) { FirstIsRead(h, turn, r, m); }
    forall m: nat | boundary < m ensures !Lists(h.turns, Floor(r), newest, m, 0) {
      FirstIsRead(h, turn, r, m);
      Narrower(h.turns, Floor(r), newest, turn, m);
    }
  }

  lemma HasFirst(turns: seq<TurnRecord>, after: nat, before: nat, n: nat)
    requires after < n < before && CompletedTurn(turns, n) && turns[n - 1].items != []
    ensures Lists(turns, after, before, n, 0)
  {
  }

  lemma Narrower(turns: seq<TurnRecord>, after: nat, before: nat, later: nat, m: nat)
    requires before <= later
    ensures Lists(turns, after, before, m, 0) ==> Lists(turns, after, later, m, 0) && m < before
  {
  }

  lemma FirstIsRead(h: History, turn: nat, r: Read, m: nat)
    requires ReadOf(h, turn, r) && r.rows != []
    ensures Lists(h.turns, Floor(r), turn, m, 0) ==> exists row :: row in r.rows && row.turn == m
    ensures Lists(h.turns, Floor(r), turn, m, 0) ==> m <= MaxTurn(r.rows)
  {
    hide ReadOf, MaxTurn;
    if Lists(h.turns, Floor(r), turn, m, 0) {
      var row := Row(m, h.turns[m - 1].items[0]);
      RowsOfRead(h, turn, r, row);
      assert row in r.rows;
    }
  }

  lemma IsNewest(h: History, turn: nat, r: Read, rows: seq<Row>, n: nat)
    requires ReadOf(h, turn, r) && rows != [] && n == MaxTurn(rows) && forall row | row in rows :: row in r.rows
    ensures Floor(r) < n < turn && CompletedTurn(h.turns, n) && h.turns[n - 1].items != []
  {
    var top :| top in rows && top.turn == n;
    RowsOfRead(h, turn, r, top);
  }

  // ---------- Which checkpoint is read ----------

  /** Checkpoint `i` can be read below the turn, and none that can is newer, by time and then by id. */
  predicate IsNewestCheckpoint(cs: seq<Checkpoint>, before: nat, i: nat) {
    && i < |cs| && cs[i].active && cs[i].through < before
    && forall j: nat | j < |cs| && cs[j].active && cs[j].through < before ::
         cs[j].createdAt < cs[i].createdAt || (cs[j].createdAt == cs[i].createdAt && j <= i)
  }

  /** The checkpoint that is read is the newest active one below the turn. */
  lemma {:induction false} LatestIsNewest(cs: seq<Checkpoint>, before: nat)
    ensures var found := LatestCheckpoint(cs, before);
            if found.None? then forall c | c in cs :: !(c.active && c.through < before)
            else exists i: nat :: IsNewestCheckpoint(cs, before, i) && cs[i] == found.value
    decreases |cs|
  {
    if cs != [] {
      hide IsNewestCheckpoint;
      var front, last := cs[..|cs| - 1], cs[|cs| - 1];
      assert cs == front + [last];
      LatestIsNewest(front, before);
      var earlier := LatestCheckpoint(front, before);
      if earlier.None? {
        if Eligible(last, before) { OnlyOne(cs, before); }
      } else {
        var i: nat :| IsNewestCheckpoint(front, before, i) && front[i] == earlier.value;
        OneMore(cs, before, i);
      }
    }
  }

  lemma OnlyOne(cs: seq<Checkpoint>, before: nat)
    requires cs != [] && Eligible(cs[|cs| - 1], before)
    requires forall c | c in cs[..|cs| - 1] :: !Eligible(c, before)
    ensures IsNewestCheckpoint(cs, before, |cs| - 1)
  {
    var front := cs[..|cs| - 1];
    forall j: nat | j < |front| ensures !(cs[j].active && cs[j].through < before) {
      assert front[j] == cs[j] && front[j] in front && !Eligible(front[j], before);
    }
  }

  lemma OneMore(cs: seq<Checkpoint>, before: nat, i: nat)
    requires cs != [] && IsNewestCheckpoint(cs[..|cs| - 1], before, i)
    ensures i < |cs| - 1 && cs[..|cs| - 1][i] == cs[i]
    ensures var last := cs[|cs| - 1];
            if Eligible(last, before) && cs[i].createdAt <= last.createdAt
            then IsNewestCheckpoint(cs, before, |cs| - 1) else IsNewestCheckpoint(cs, before, i)
  {
    var front := cs[..|cs| - 1];
    assert forall j: nat | j < |front| :: front[j] == cs[j];
  }
}

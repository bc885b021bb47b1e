/**
 The context of one parent session: completed turns, cumulative checkpoints and quarantine.

 A summary is a free term over the entries it was compacted from, so that nothing is assumed about
 what a summary retains; `Leaves` are the items whose original content went into an entry, directly
 or through earlier summaries. Turns are numbered 1.. in creation order; turn n is `turns[n - 1]`.
 The byte estimate is a parameter. Several approval turns may run beside the one chat turn.
 */
module Context {
  import opened Options

  type ItemId = nat
  type Time = int

  datatype TurnStatus = Running | Completed | Abandoned

  datatype TurnRecord = TurnRecord(status: TurnStatus, chat: bool, items: seq<ItemId>)

  datatype Summary = Summary(of: seq<Entry>, nonce: nat)

  datatype Entry =
    | Notice(kind: nat)
    | Original(turn: nat, item: ItemId)
    | Override(turn: nat, item: ItemId)
    | Checkpointed(through: nat, sources: set<ItemId>, summary: Summary)

  datatype Checkpoint = Checkpoint(through: nat, summary: Summary, sources: set<ItemId>, createdAt: Time, active: bool)

  /** The id of a checkpoint is its index. */
  datatype History = History(turns: seq<TurnRecord>, quarantined: set<ItemId>, checkpoints: seq<Checkpoint>)

  const NEW_SESSION := History([], {}, [])

  // ---------- What an entry depends on ----------

  function Leaves(e: Entry): set<ItemId>
    decreases e
  {
    match e
    case Original(_, item) => {item}
    case Checkpointed(_, _, summary) => LeavesOf(summary.of)
    case _ => {}
  }

  function LeavesOf(entries: seq<Entry>): set<ItemId>
    decreases entries
  {
    if entries == [] then {} else Leaves(entries[0]) + LeavesOf(entries[1..])
  }

  lemma {:induction false} LeavesOfAppend(a: seq<Entry>, b: seq<Entry>)
    ensures LeavesOf(a + b) == LeavesOf(a) + LeavesOf(b)
    decreases |a|
  {
    if a == [] {
      assert a + b == b;
    } else {
      assert (a + b)[0] == a[0] && (a + b)[1..] == a[1..] + b;
      LeavesOfAppend(a[1..], b);
    }
  }

  /** Any reading of contexts as text: item contents, overrides, notices and a summarising model. */
  datatype Reading = Reading(
    content: ItemId -> string, override: ItemId -> string, notice: nat -> string,
      summarise: (seq<string>, nat) -> string)

  function Render(e: Entry, r: Reading): string
    decreases e
  {
    match e
    case Notice(kind) => r.notice(kind)
    case Original(_, item) => r.content(item)
    case Override(_, item) => r.override(item)
    case Checkpointed(_, _, summary) => r.summarise(RenderAll(summary.of, r), summary.nonce)
  }

  function RenderAll(entries: seq<Entry>, r: Reading): seq<string>
    decreases entries
  {
    if entries == [] then [] else [Render(entries[0], r)] + RenderAll(entries[1..], r)
  }

  /** The readings differ at most in the original content of `item`. */
  ghost predicate DifferOnlyAt(r: Reading, q: Reading, item: ItemId) {
    && q == r.(content := q.content)
    && forall i | i != item :: q.content(i) == r.content(i)
  }

  /** Noninterference: what is not a leaf has no influence on the text, under any reading. */
  lemma {:induction false} NotALeafNoInfluence(entries: seq<Entry>, r: Reading, q: Reading, item: ItemId)
    requires item !in LeavesOf(entries) && DifferOnlyAt(r, q, item)
    ensures RenderAll(entries, r) == RenderAll(entries, q)
    decreases entries
  {
    if entries != [] {
      EntryNoInfluence(entries[0], r, q, item);
      NotALeafNoInfluence(entries[1..], r, q, item);
    }
  }

  lemma {:induction false} EntryNoInfluence(e: Entry, r: Reading, q: Reading, item: ItemId)
    requires item !in Leaves(e) && DifferOnlyAt(r, q, item)
    ensures Render(e, r) == Render(e, q)
    decreases e
  {
    if e.Checkpointed? { NotALeafNoInfluence(e.summary.of, r, q, item); }
  }

  // ---------- Reading the tables ----------

  datatype Row = Row(turn: nat, item: ItemId)

  function RowsOfTurn(n: nat, items: seq<ItemId>): seq<Row> {
    seq(|items|, k requires 0 <= k < |items| => Row(n, items[k]))
  }

  /** `completed_context_items`: completed turns strictly between the two numbers, in conversation order. */
  function CompletedRows(turns: seq<TurnRecord>, after: nat, before: nat): seq<Row>
    decreases before - after
  {
    if after + 1 >= before || after >= |turns| then []
    else (if turns[after].status == Completed then RowsOfTurn(after + 1, turns[after].items) else [])
         + CompletedRows(turns, after + 1, before)
  }

  predicate Eligible(c: Checkpoint, before: nat) { c.active && c.through < before }

  /** `latest_checkpoint`: the newest eligible one by (created_at, id). */
  function LatestCheckpoint(cs: seq<Checkpoint>, before: nat): (found: Option<Checkpoint>)
    ensures found.Some? ==> found.value in cs && Eligible(found.value, before)
    ensures found.None? ==> forall c | c in cs :: !Eligible(c, before)
  {
    if cs == [] then None
    else
      var earlier := LatestCheckpoint(cs[..|cs| - 1], before);
      var c := cs[|cs| - 1];
      if Eligible(c, before) && (earlier.None? || earlier.value.createdAt <= c.createdAt) then Some(c) else earlier
  }

  function ItemEntry(quarantined: set<ItemId>, row: Row): Entry {
    if row.item in quarantined then Override(row.turn, row.item) else Original(row.turn, row.item)
  }

  function ItemEntries(quarantined: set<ItemId>, rows: seq<Row>): seq<Entry> {
    seq(|rows|, k requires 0 <= k < |rows| => ItemEntry(quarantined, rows[k]))
  }

  function CheckpointEntry(c: Checkpoint): Entry { Checkpointed(c.through, c.sources, c.summary) }

  function CheckpointEntries(c: Option<Checkpoint>): seq<Entry> {
    if c.Some? then [CheckpointEntry(c.value)] else []
  }

  function Notices(kinds: seq<nat>): seq<Entry> { seq(|kinds|, k requires 0 <= k < |kinds| => Notice(kinds[k])) }

  // ---------- Building a context ----------

  /** What one build read from the tables; statuses are those at the time of the read. */
  datatype Read = Read(checkpoint: Option<Checkpoint>, rows: seq<Row>, current: Row, notices: seq<nat>,
                       quarantined: set<ItemId>)

  function Entries(checkpoint: Option<Checkpoint>, rows: seq<Row>, r: Read): seq<Entry> {
    Notices(r.notices) + CheckpointEntries(checkpoint) + ItemEntries(r.quarantined, rows)
    + [ItemEntry(r.quarantined, r.current)]
  }

  function CountNotices(entries: seq<Entry>): nat {
    if entries == [] then 0 else (if entries[0].Notice? then 1 else 0) + CountNotices(entries[1..])
  }

  function EntriesFromSummary(summary: Summary, through: nat, sources: set<ItemId>, rows: seq<Row>,
                              r: Read): seq<Entry> {
    var entries := Entries(None, rows, r);
    var n := CountNotices(entries);
    if n <= |entries| then entries[..n] + [Checkpointed(through, sources, summary)] + entries[n..] else entries
  }

  function MaxTurn(rows: seq<Row>): (m: nat)
    requires rows != []
    ensures forall r | r in rows :: r.turn <= m
    ensures exists r :: r in rows && r.turn == m
  {
    if |rows| == 1 then rows[0].turn
    else
      var rest := MaxTurn(rows[1..]);
      assert rows[0] in rows && forall r | r in rows[1..] :: r in rows;
      assert forall r | r in rows :: r == rows[0] || r in rows[1..];
      if rest <= rows[0].turn then rows[0].turn else rest
  }

  function Until(rows: seq<Row>, n: nat): seq<Row> {
    if rows == [] then []
    else if rows[|rows| - 1].turn < n then Until(rows[..|rows| - 1], n) + [rows[|rows| - 1]]
    else Until(rows[..|rows| - 1], n)
  }

  function Since(rows: seq<Row>, n: nat): seq<Row> {
    if rows == [] then []
    else if rows[|rows| - 1].turn > n then Since(rows[..|rows| - 1], n) + [rows[|rows| - 1]]
    else Since(rows[..|rows| - 1], n)
  }

  function Compactable(rows: seq<Row>): seq<Row> { if rows == [] then [] else Until(rows, MaxTurn(rows)) }

  function Items(rows: seq<Row>): set<ItemId> { set r | r in rows :: r.item }

  function SourcesOf(c: Option<Checkpoint>): set<ItemId> { if c.Some? then c.value.sources else {} }

  /** Where the current turn's user input is; the first item of a turn is its user message. */
  predicate CanBuild(h: History, turn: nat) {
    1 <= turn <= |h.turns| && h.turns[turn - 1].status == Running && h.turns[turn - 1].chat
      && h.turns[turn - 1].items != []
  }

  function ReadFor(h: History, turn: nat, notices: seq<nat>): Read
    requires CanBuild(h, turn)
  {
    var checkpoint := LatestCheckpoint(h.checkpoints, turn);
    var after := if checkpoint.Some? then checkpoint.value.through else 0;
    Read(checkpoint, CompletedRows(h.turns, after, turn), Row(turn, h.turns[turn - 1].items[0]), notices, h.quarantined)
  }

  datatype Compaction = Summarised(nonce: nat) | CompactorFailed | RunAborted

  datatype Built = Context(entries: seq<Entry>, estimate: nat) | CompactionError | AgentRunError

  datatype Limits = Limits(threshold: nat, hard: nat, parent: bool, size: seq<Entry> -> nat)

  function OrTooLarge(entries: seq<Entry>, limits: Limits): Built {
    if limits.size(entries) > limits.hard then CompactionError else Context(entries, limits.size(entries))
  }

  function CompactEntries(r: Read): seq<Entry> {
    CheckpointEntries(r.checkpoint) + ItemEntries(r.quarantined, Compactable(r.rows))
  }

  /** `_save_checkpoint`'s argument: the checkpoint that this read would be compacted into. */
  function NewCheckpoint(r: Read, nonce: nat, now: Time): Checkpoint
    requires Compactable(r.rows) != []
  {
    Checkpoint(MaxTurn(Compactable(r.rows)), Summary(CompactEntries(r), nonce),
               SourcesOf(r.checkpoint) + Items(Compactable(r.rows)), now, true)
  }

  predicate CompletedTurn(turns: seq<TurnRecord>, n: nat) { 1 <= n <= |turns| && turns[n - 1].status == Completed }

  predicate CompletedItem(turns: seq<TurnRecord>, item: ItemId, through: nat) {
    exists n: nat :: n <= through && CompletedTurn(turns, n) && item in turns[n - 1].items
  }

  /** `create_checkpoint` and the unique index on active boundaries; None when it raises. */
  function CreateCheckpoint(h: History, c: Checkpoint): Option<History> {
    if !CompletedTurn(h.turns, c.through) || c.sources == {}
       || (exists item | item in c.sources :: !CompletedItem(h.turns, item, c.through))
       || (exists d | d in h.checkpoints :: d.active && d.through == c.through)
    then None
    else Some(h.(checkpoints := h.checkpoints + [c]))
  }

  /** The part of `build` after its read; it writes to the tables of `h`, which may have moved on since. */
  function Commit(h: History, r: Read, limits: Limits, compaction: Compaction, now: Time): (Built, History) {
    var entries := Entries(r.checkpoint, r.rows, r);
    if limits.size(entries) <= limits.threshold || !limits.parent || Compactable(r.rows) == []
    then (OrTooLarge(entries, limits), h)
    else
      match compaction
      case RunAborted => (AgentRunError, h)
      case CompactorFailed => (OrTooLarge(entries, limits), h)
      case Summarised(nonce) =>
        var c := NewCheckpoint(r, nonce, now);
        var recent := Since(r.rows, c.through);
        var candidate := EntriesFromSummary(c.summary, c.through, c.sources, recent, r);
        if limits.size(candidate) > limits.hard then (OrTooLarge(entries, limits), h)
        else
          match CreateCheckpoint(h, c)
          case None => (OrTooLarge(entries, limits), h)
          case Some(saved) =>
            var rebuilt := Entries(Some(c), recent, r);
            (Context(rebuilt, limits.size(rebuilt)), saved)
  }

  /** `build` of the running turn: one step of its session. */
  function Build(h: History, turn: nat, notices: seq<nat>, limits: Limits, compaction: Compaction, now: Time)
    : (Built, History)
    requires CanBuild(h, turn)
  {
    Commit(h, ReadFor(h, turn, notices), limits, compaction, now)
  }

  // ---------- The other steps of the session ----------

  predicate ItemExists(turns: seq<TurnRecord>, item: ItemId) { exists n | 0 <= n < |turns| :: item in turns[n].items }

  predicate ChatRunning(turns: seq<TurnRecord>, n: nat) {
    1 <= n <= |turns| && turns[n - 1].status == Running && turns[n - 1].chat
  }

  datatype SessionEvent =
    | Begin(chat: bool, input: ItemId)
    | Append(turn: nat, item: ItemId, isQuarantined: bool)
    | End(turn: nat, completed: bool)
    | Quarantine(item: ItemId)
    | BuildContext(turn: nat, notices: seq<nat>, limits: Limits, compaction: Compaction, now: Time)

  /** `quarantine_item`. */
  function QuarantineItem(h: History, item: ItemId): History {
    if item in h.quarantined || !ItemExists(h.turns, item) then h
    else h.(quarantined := h.quarantined + {item},
            checkpoints := seq(|h.checkpoints|, k requires 0 <= k < |h.checkpoints| =>
              if item in h.checkpoints[k].sources then h.checkpoints[k].(active := false) else h.checkpoints[k]))
  }

  function SessionStep(h: History, e: SessionEvent): History {
    match e
    case Begin(chat, input) =>
      if ItemExists(h.turns, input) || input in h.quarantined
         || (chat && exists n | 1 <= n <= |h.turns| :: ChatRunning(h.turns, n)) then h
      else h.(turns := h.turns + [TurnRecord(Running, chat, [input])])
    case Append(turn, item, isQuarantined) =>
      if !(1 <= turn <= |h.turns|) || h.turns[turn - 1].status != Running || ItemExists(h.turns, item)
         || item in h.quarantined then h
      else h.(turns := h.turns[turn - 1 := h.turns[turn - 1].(items := h.turns[turn - 1].items + [item])],
              quarantined := if isQuarantined then h.quarantined + {item} else h.quarantined)
    case End(turn, completed) =>
      if !(1 <= turn <= |h.turns|) || h.turns[turn - 1].status != Running then h
      else h.(turns := h.turns[turn - 1 := h.turns[turn - 1].(status := if completed then Completed else Abandoned)])
    case Quarantine(item) => QuarantineItem(h, item)
    case BuildContext(turn, notices, limits, compaction, now) =>
      if CanBuild(h, turn) then Build(h, turn, notices, limits, compaction, now).1 else h
  }

  function SessionRun(h: History, events: seq<SessionEvent>): History
    decreases |events|
  {
    if events == [] then h else SessionRun(SessionStep(h, events[0]), events[1..])
  }
}

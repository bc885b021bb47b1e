/**
 The turn, item and tool-execution tables and the committed transactions over them.

 Every function below is one transaction: it maps the tables before to the tables after. A row is
 identified by its unique key in the schema: an item by (turn, idempotency key), a tool execution
 by the tool-call item it belongs to.
 */
module Turns {
  import opened Options

  type TurnId = nat
  type SessionId = nat
  type Time = int

  datatype TurnStatus =
    | TurnPending | TurnRunning | TurnCompleted | TurnFailed | TurnCancelled | TurnBlocked

  datatype Turn = Turn(session: SessionId, number: nat, status: TurnStatus, nextItem: nat, startedAt: Time)

  /** The prefixes of the idempotency keys that the source writes into one text column. */
  datatype ItemKey =
    | PlainKey(name: string)
    | ApprovalRequestKey(approval: nat)
    | ApprovalResultKey(approval: nat)
    | ToolCallKey(stable: string)
    | ToolResultKey(call: ItemKey)

  datatype ItemRef = ItemRef(turn: TurnId, key: ItemKey)

  datatype ItemType = UserMessage | AssistantMessage | ToolCall | ToolResult

  datatype Item = Item(number: nat, kind: ItemType, content: string, origin: Option<nat>)

  datatype ExecStatus = ExecPending | ExecRunning | ExecCompleted | ExecFailed | ExecCancelled | ExecBlocked

  datatype Exec = Exec(status: ExecStatus, attempts: nat)

  datatype Tables = Tables(turns: map<TurnId, Turn>, items: map<ItemRef, Item>, execs: map<ItemRef, Exec>)

  const EMPTY := Tables(map[], map[], map[])

  predicate Active(status: TurnStatus) { status.TurnPending? || status.TurnRunning? }

  predicate Live(status: ExecStatus) { status.ExecPending? || status.ExecRunning? }

  predicate Running(turns: map<TurnId, Turn>, turn: TurnId) {
    turn in turns && turns[turn].status == TurnRunning
  }

  /** The key under which the single result of a tool call is stored. */
  function ResultRef(call: ItemRef): ItemRef { ItemRef(call.turn, ToolResultKey(call.key)) }

  /** A key written by `append_item`: neither a tool call nor a tool result. */
  predicate Appendable(key: ItemKey) { !key.ToolCallKey? && !key.ToolResultKey? }

  // ---------- Numbering ----------

  /** The numbers 1..n. */
  function UpTo(n: nat): (s: set<nat>)
    ensures forall k :: k in s <==> 1 <= k <= n
  {
    if n == 0 then {} else UpTo(n - 1) + {n}
  }

  function TurnNumbers(turns: map<TurnId, Turn>, session: SessionId): set<nat> {
    set t | t in turns && turns[t].session == session :: turns[t].number
  }

  function ItemNumbers(items: map<ItemRef, Item>, turn: TurnId): set<nat> {
    set r | r in items && r.turn == turn :: items[r].number
  }

  lemma {:induction false} HasMaximum(s: set<nat>)
    requires s != {}
    ensures exists m :: m in s && forall x | x in s :: x <= m
    decreases |s|
  {
    var y :| y in s;
    if s == {y} {
      assert y in s && forall x | x in s :: x <= y;
    } else {
      var rest := s - {y};
      HasMaximum(rest);
      var m :| m in rest && forall x | x in rest :: x <= m;
      var top := if m <= y then y else m;
      assert top in s && forall x | x in s :: x <= top by {
        forall x | x in s ensures x <= top { assert x == y || x in rest; }
      }
    }
  }

  /** `coalesce(max(...), 0)`. */
  function Maximum(s: set<nat>): (m: nat)
    ensures s == {} ==> m == 0
    ensures s != {} ==> m in s
    ensures forall x | x in s :: x <= m
  {
    if s == {} then 0 else
      HasMaximum(s);
      var m :| m in s && forall x | x in s :: x <= m;
      m
  }

  lemma MaximumUpTo(n: nat)
    ensures Maximum(UpTo(n)) == n
  {
    if n > 0 { assert n in UpTo(n); }
  }

  // ---------- Transactions on turns and items ----------

  function CreateTurn(a: Tables, turn: TurnId, session: SessionId, now: Time): Tables {
    a.(turns := a.turns[turn := Turn(session, Maximum(TurnNumbers(a.turns, session)) + 1, TurnRunning, 1, now)])
  }

  datatype AppendResult = Appended(tables: Tables) | AlreadyThere | TurnNotRunning

  /** `append_item` and `append_item_if_running`: they differ only in how the caller treats the last case. */
  function AppendItem(a: Tables, ref: ItemRef, kind: ItemType, content: string): AppendResult {
    if !Running(a.turns, ref.turn) then TurnNotRunning
    else if ref in a.items then AlreadyThere
    else Appended(Insert(a, ref, kind, content, None))
  }

  /** Takes the turn's next item number and stores the item under it. */
  function Insert(a: Tables, ref: ItemRef, kind: ItemType, content: string, origin: Option<nat>): Tables
    requires ref.turn in a.turns
  {
    var turn := a.turns[ref.turn];
    a.(turns := a.turns[ref.turn := turn.(nextItem := turn.nextItem + 1)],
       items := a.items[ref := Item(turn.nextItem, kind, content, origin)])
  }

  function Cancel(execs: map<ItemRef, Exec>, gone: set<TurnId>): map<ItemRef, Exec> {
    map c | c in execs ::
      if c.turn in gone && Live(execs[c].status) then execs[c].(status := ExecCancelled) else execs[c]
  }

  function End(turns: map<TurnId, Turn>, gone: set<TurnId>, status: TurnStatus): map<TurnId, Turn> {
    map t | t in turns :: if t in gone then turns[t].(status := status) else turns[t]
  }

  function EndTurns(a: Tables, gone: set<TurnId>, status: TurnStatus): Tables {
    a.(turns := End(a.turns, gone, status), execs := Cancel(a.execs, gone))
  }

  /** `finish_turn`: conditional on the turn still running. */
  function FinishTurn(a: Tables, turn: TurnId, status: TurnStatus): Tables {
    if Running(a.turns, turn) then EndTurns(a, {turn}, status) else a
  }

  /** The turns that `_recover_stale` selects; `api` are the turns referenced by an idempotency row. */
  function Stale(turns: map<TurnId, Turn>, scope: Option<SessionId>, threshold: Time, api: set<TurnId>): set<TurnId> {
    set t | t in turns && Active(turns[t].status) && turns[t].startedAt < threshold && t !in api
            && (scope == None || scope == Some(turns[t].session))
  }

  function RecoverStale(a: Tables, scope: Option<SessionId>, threshold: Time, api: set<TurnId>): Tables {
    EndTurns(a, Stale(a.turns, scope, threshold, api), TurnFailed)
  }

  // ---------- Transactions on tool executions ----------

  datatype PrepareResult =
    | Prepared(tables: Tables, status: ExecStatus, result: Option<Item>)
    | TurnEnded
    | CallConflict

  /** `prepare`: get or create the tool-call item and its execution, only in a running turn. */
  function Prepare(a: Tables, call: ItemRef, content: string, origin: Option<nat>): PrepareResult {
    if !Running(a.turns, call.turn) then TurnEnded
    else if call in a.items && a.items[call].kind != ToolCall then TurnEnded
    else if call in a.items
            && (a.items[call].content != content || (origin.Some? && a.items[call].origin != origin)) then CallConflict
    else
      var b := if call in a.items then a else Insert(a, call, ToolCall, content, origin);
      var c := if call in b.execs then b else b.(execs := b.execs[call := Exec(ExecPending, 0)]);
      Prepared(c, c.execs[call].status, if ResultRef(call) in c.items then Some(c.items[ResultRef(call)]) else None)
  }

  predicate Claimable(a: Tables, call: ItemRef) {
    call in a.execs && a.execs[call].status == ExecPending && Running(a.turns, call.turn)
  }

  function Claim(a: Tables, call: ItemRef): Tables {
    if Claimable(a, call) then a.(execs := a.execs[call := a.execs[call].(status := ExecRunning)]) else a
  }

  predicate Attemptable(a: Tables, call: ItemRef) {
    call in a.execs && a.execs[call].status == ExecRunning && Running(a.turns, call.turn)
  }

  function IncrementAttempt(a: Tables, call: ItemRef): Tables {
    if Attemptable(a, call)
    then a.(execs := a.execs[call := a.execs[call].(attempts := a.execs[call].attempts + 1)])
    else a
  }

  datatype FinishResult = Stored(tables: Tables) | AlreadyStored(item: Item) | Refused

  /** `finish`: store the result item and end the execution in one transaction. */
  function Finish(a: Tables, call: ItemRef, content: string, status: ExecStatus): FinishResult {
    if !Running(a.turns, call.turn) then Refused
    else if ResultRef(call) in a.items then AlreadyStored(a.items[ResultRef(call)])
    else if call !in a.items || a.items[call].kind != ToolCall then Refused
    else if call !in a.execs || !Live(a.execs[call].status) then Refused
    else
      var b := Insert(a, ResultRef(call), ToolResult, content, None);
      Stored(b.(execs := b.execs[call := b.execs[call].(status := status)]))
  }

  // ---------- Invariant ----------

  /** Turn numbers of every session are exactly 1..n. */
  ghost predicate GaplessTurns(turns: map<TurnId, Turn>) {
    && (forall s :: TurnNumbers(turns, s) == UpTo(Maximum(TurnNumbers(turns, s))))
    && (forall t, u | t in turns && u in turns ::
          turns[t].session == turns[u].session && turns[t].number == turns[u].number ==> t == u)
  }

  /** Item numbers of every turn are exactly 1..next-1. */
  ghost predicate GaplessItems(turns: map<TurnId, Turn>, items: map<ItemRef, Item>) {
    && (forall r | r in items :: r.turn in turns)
    && (forall t | t in turns :: turns[t].nextItem >= 1 && ItemNumbers(items, t) == UpTo(turns[t].nextItem - 1))
    && (forall r, q | r in items && q in items ::
          r.turn == q.turn && items[r].number == items[q].number ==> r == q)
  }

  /** A turn that has ended owns no pending or running execution. */
  ghost predicate NoOrphanExecs(a: Tables) {
    forall c | c in a.execs ::
      && c.key.ToolCallKey?
      && c in a.items
      && a.items[c].kind == ToolCall
      && (Live(a.execs[c].status) ==> Running(a.turns, c.turn))
  }

  /** A result item exists only for an ended execution; completed, failed and blocked ones have exactly one. */
  ghost predicate ResultsMatch(a: Tables) {
    && (forall r | r in a.items :: r.key.ToolResultKey? <==> a.items[r].kind == ToolResult)
    && (forall r | r in a.items && r.key.ToolResultKey? ::
          var call := ItemRef(r.turn, r.key.call);
          call in a.execs && !Live(a.execs[call].status))
    && (forall c | c in a.execs ::
          a.execs[c].status in {ExecCompleted, ExecFailed, ExecBlocked} ==> ResultRef(c) in a.items)
  }

  ghost predicate TablesInv(a: Tables) {
    && GaplessTurns(a.turns)
    && GaplessItems(a.turns, a.items)
    && NoOrphanExecs(a)
    && ResultsMatch(a)
  }

  // ---------- Preservation ----------

  lemma EmptyInv()
    ensures TablesInv(EMPTY)
  {
    forall s ensures TurnNumbers(EMPTY.turns, s) == UpTo(Maximum(TurnNumbers(EMPTY.turns, s))) {
      assert TurnNumbers(EMPTY.turns, s) == {};
    }
  }

  /** Numbering only depends on which turns exist, their session and their number. */
  lemma SameNumbers(turns: map<TurnId, Turn>, turns': map<TurnId, Turn>)
    requires GaplessTurns(turns) && turns.Keys == turns'.Keys
    requires forall t | t in turns :: turns'[t].session == turns[t].session && turns'[t].number == turns[t].number
    ensures GaplessTurns(turns')
  {
    forall s ensures TurnNumbers(turns', s) == TurnNumbers(turns, s) {
      forall n ensures n in TurnNumbers(turns', s) <==> n in TurnNumbers(turns, s) {
        if n in TurnNumbers(turns, s) {
          var t :| t in turns && turns[t].session == s && turns[t].number == n;
          assert t in turns' && turns'[t].session == s && turns'[t].number == n;
        }
        if n in TurnNumbers(turns', s) {
          var t :| t in turns' && turns'[t].session == s && turns'[t].number == n;
          assert t in turns && turns[t].session == s && turns[t].number == n;
        }
      }
    }
  }

  lemma CreateTurnNumbers(turns: map<TurnId, Turn>, turn: TurnId, new_: Turn)
    requires GaplessTurns(turns) && turn !in turns
    requires new_.number == Maximum(TurnNumbers(turns, new_.session)) + 1
    ensures GaplessTurns(turns[turn := new_])
    ensures TurnNumbers(turns[turn := new_], new_.session) == UpTo(new_.number)
  {
    var turns' := turns[turn := new_];
    var top := Maximum(TurnNumbers(turns, new_.session));
    assert TurnNumbers(turns', new_.session) == TurnNumbers(turns, new_.session) + {new_.number} by {
      forall n | n in TurnNumbers(turns, new_.session) ensures n in TurnNumbers(turns', new_.session) {
        var t :| t in turns && turns[t].session == new_.session && turns[t].number == n;
        assert t in turns' && turns'[t] == turns[t];
      }
      assert turn in turns';
    }
    assert UpTo(top) + {top + 1} == UpTo(top + 1);
    MaximumUpTo(top + 1);
    forall s ensures TurnNumbers(turns', s) == UpTo(Maximum(TurnNumbers(turns', s))) {
      if s != new_.session {
        assert TurnNumbers(turns', s) == TurnNumbers(turns, s) by {
          forall n | n in TurnNumbers(turns, s) ensures n in TurnNumbers(turns', s) {
            var t :| t in turns && turns[t].session == s && turns[t].number == n;
            assert t in turns' && turns'[t] == turns[t];
          }
        }
      }
    }
    forall t | t in turns && turns[t].session == new_.session ensures turns[t].number != new_.number {
      assert turns[t].number in TurnNumbers(turns, new_.session);
    }
  }

  lemma CreateTurnKeepsInv(a: Tables, turn: TurnId, session: SessionId, now: Time)
    requires TablesInv(a) && turn !in a.turns
    ensures TablesInv(CreateTurn(a, turn, session, now))
  {
    hide GaplessTurns, GaplessItems, NoOrphanExecs, ResultsMatch;
    var b := CreateTurn(a, turn, session, now);
    CreateTurnNumbers(a.turns, turn, b.turns[turn]);
    NewTurnItems(a.turns, a.items, turn, b.turns[turn]);
    NewTurnExecs(a, turn, b.turns[turn]);
  }

  lemma NewTurnItems(turns: map<TurnId, Turn>, items: map<ItemRef, Item>, turn: TurnId, new_: Turn)
    requires GaplessItems(turns, items) && turn !in turns && new_.nextItem == 1
    ensures GaplessItems(turns[turn := new_], items)
  {
    assert ItemNumbers(items, turn) == UpTo(0);
  }

  lemma NewTurnExecs(a: Tables, turn: TurnId, new_: Turn)
    requires NoOrphanExecs(a) && ResultsMatch(a) && turn !in a.turns
    ensures var b := a.(turns := a.turns[turn := new_]); NoOrphanExecs(b) && ResultsMatch(b)
  {
  }

  /** The item numbers of one turn after an item was stored in it (or in another turn). */
  lemma InsertedNumbers(items: map<ItemRef, Item>, ref: ItemRef, item: Item, turn: TurnId)
    requires ref !in items
    ensures ItemNumbers(items[ref := item], turn) ==
            ItemNumbers(items, turn) + if ref.turn == turn then {item.number} else {}
  {
    var items' := items[ref := item];
    forall k | k in ItemNumbers(items, turn) ensures k in ItemNumbers(items', turn) {
      var r :| r in items && r.turn == turn && items[r].number == k;
      assert r in items' && items'[r] == items[r];
    }
    assert ref in items' && items'[ref].number == item.number;
  }

  lemma InsertNumbers(a: Tables, ref: ItemRef, kind: ItemType, content: string, origin: Option<nat>)
    requires GaplessTurns(a.turns) && GaplessItems(a.turns, a.items)
    requires ref.turn in a.turns && ref !in a.items
    ensures var b := Insert(a, ref, kind, content, origin);
            GaplessTurns(b.turns) && GaplessItems(b.turns, b.items)
  {
    hide GaplessItems, GaplessTurns;
    var b := Insert(a, ref, kind, content, origin);
    SameNumbers(a.turns, b.turns);
    InsertItems(a.turns, a.items, ref, b.items[ref]);
  }

  lemma InsertItems(turns: map<TurnId, Turn>, items: map<ItemRef, Item>, ref: ItemRef, item: Item)
    requires GaplessItems(turns, items) && ref.turn in turns && ref !in items
    requires item.number == turns[ref.turn].nextItem
    ensures GaplessItems(turns[ref.turn := turns[ref.turn].(nextItem := item.number + 1)], items[ref := item])
  {
    var turns' := turns[ref.turn := turns[ref.turn].(nextItem := item.number + 1)];
    var items' := items[ref := item];
    forall t | t in turns'
      ensures turns'[t].nextItem >= 1 && ItemNumbers(items', t) == UpTo(turns'[t].nextItem - 1)
    {
      InsertedNumbers(items, ref, item, t);
      if t == ref.turn { assert UpTo(item.number - 1) + {item.number} == UpTo(item.number); }
    }
    forall r | r in items && r.turn == ref.turn ensures items[r].number != item.number {
      assert items[r].number in ItemNumbers(items, ref.turn);
    }
  }

  lemma AppendKeepsInv(a: Tables, ref: ItemRef, kind: ItemType, content: string)
    requires TablesInv(a) && Appendable(ref.key) && (kind.UserMessage? || kind.AssistantMessage?)
    requires Running(a.turns, ref.turn) && ref !in a.items
    ensures TablesInv(Insert(a, ref, kind, content, None))
  {
    hide GaplessItems, GaplessTurns;
    InsertNumbers(a, ref, kind, content, None);
  }

  lemma EndTurnsKeepsInv(a: Tables, gone: set<TurnId>, status: TurnStatus)
    requires TablesInv(a) && !Active(status)
    ensures TablesInv(EndTurns(a, gone, status))
  {
    hide GaplessItems, GaplessTurns;
    SameNumbers(a.turns, End(a.turns, gone, status));
    EndTurnsItems(a, gone, status);
    EndTurnsExecs(a, gone, status);
  }

  lemma EndTurnsItems(a: Tables, gone: set<TurnId>, status: TurnStatus)
    requires GaplessItems(a.turns, a.items)
    ensures GaplessItems(End(a.turns, gone, status), a.items)
  {
    var turns' := End(a.turns, gone, status);
    assert turns'.Keys == a.turns.Keys;
    assert forall t | t in turns' :: turns'[t].nextItem == a.turns[t].nextItem;
  }

  lemma EndTurnsExecs(a: Tables, gone: set<TurnId>, status: TurnStatus)
    requires NoOrphanExecs(a) && ResultsMatch(a) && !Active(status)
    ensures NoOrphanExecs(EndTurns(a, gone, status)) && ResultsMatch(EndTurns(a, gone, status))
  {
    var b := EndTurns(a, gone, status);
    assert b.execs.Keys == a.execs.Keys && b.items == a.items;
    forall c | c in b.execs
      ensures Live(b.execs[c].status) ==> Running(b.turns, c.turn)
    {
      if Live(b.execs[c].status) { assert Running(a.turns, c.turn) && c.turn !in gone; }
    }
    assert forall c | c in b.execs :: Live(b.execs[c].status) ==> Live(a.execs[c].status);
  }

  lemma FinishTurnKeepsInv(a: Tables, turn: TurnId, status: TurnStatus)
    requires TablesInv(a) && !Active(status)
    ensures TablesInv(FinishTurn(a, turn, status))
  {
    if Running(a.turns, turn) { EndTurnsKeepsInv(a, {turn}, status); }
  }

  lemma PrepareKeepsInv(a: Tables, call: ItemRef, content: string, origin: Option<nat>)
    requires TablesInv(a) && call.key.ToolCallKey? && Prepare(a, call, content, origin).Prepared?
    ensures TablesInv(Prepare(a, call, content, origin).tables)
  {
    hide GaplessItems, GaplessTurns;
    if call in a.items {
      if call !in a.execs { AddExecKeepsInv(a, call); }
    } else {
      var b := Insert(a, call, ToolCall, content, origin);
      InsertNumbers(a, call, ToolCall, content, origin);
      assert NoOrphanExecs(b) && ResultsMatch(b);
      AddExecKeepsInv(b, call);
    }
  }

  lemma AddExecKeepsInv(a: Tables, call: ItemRef)
    requires TablesInv(a) && call in a.items && a.items[call].kind == ToolCall && call.key.ToolCallKey?
    requires Running(a.turns, call.turn) && call !in a.execs
    ensures TablesInv(a.(execs := a.execs[call := Exec(ExecPending, 0)]))
  {
    hide GaplessItems, GaplessTurns;
    assert ResultRef(call) !in a.items;
  }

  lemma ClaimKeepsInv(a: Tables, call: ItemRef)
    requires TablesInv(a)
    ensures TablesInv(Claim(a, call))
  {
    hide GaplessItems, GaplessTurns;
    if Claimable(a, call) {
      assert forall r | r in a.items && r.key.ToolResultKey? :: ItemRef(r.turn, r.key.call) != call;
    }
  }

  lemma IncrementKeepsInv(a: Tables, call: ItemRef)
    requires TablesInv(a)
    ensures TablesInv(IncrementAttempt(a, call))
  {
    hide GaplessItems, GaplessTurns;
  }

  lemma FinishKeepsInv(a: Tables, call: ItemRef, content: string, status: ExecStatus)
    requires TablesInv(a) && !Live(status) && Finish(a, call, content, status).Stored?
    ensures TablesInv(Finish(a, call, content, status).tables)
  {
    hide GaplessItems, GaplessTurns, NoOrphanExecs, ResultsMatch;
    InsertNumbers(a, ResultRef(call), ToolResult, content, None);
    FinishExecs(a, call, content, status);
  }

  lemma FinishExecs(a: Tables, call: ItemRef, content: string, status: ExecStatus)
    requires NoOrphanExecs(a) && ResultsMatch(a) && !Live(status) && Finish(a, call, content, status).Stored?
    ensures NoOrphanExecs(Finish(a, call, content, status).tables)
    ensures ResultsMatch(Finish(a, call, content, status).tables)
  {
    var b := Finish(a, call, content, status).tables;
    assert b.items.Keys == a.items.Keys + {ResultRef(call)};
    assert forall r | r in a.items :: b.items[r] == a.items[r];
    assert forall c | c in a.execs && c != call :: b.execs[c] == a.execs[c];
  }
}

/** The turn and tool-execution repositories in place, against the specification of `Turns`. */
module TurnStore {
  import opened Options
  import opened Turns

  class AgentRepository {
    var turns: map<TurnId, Turn>
    var items: map<ItemRef, Item>
    var execs: map<ItemRef, Exec>
    var overrides: map<ItemRef, string>   // what is shown of a quarantined item instead of its content

    constructor ()
      ensures Contents() == EMPTY
    {
      turns, items, execs, overrides := map[], map[], map[], map[];
    }

    function Contents(): Tables
      reads this
    {
      Tables(turns, items, execs)
    }

    /** The next free number of a session, under the lock of its session row. */
    method NextTurnNumber(session: SessionId) returns (n: nat)
      ensures n == Maximum(TurnNumbers(turns, session)) + 1
    {
      var left, top := turns.Keys, 0;
      while left != {}
        invariant left <= turns.Keys
        invariant forall t | t in turns && t !in left && turns[t].session == session :: turns[t].number <= top
        invariant top == 0 || top in TurnNumbers(turns, session)
        decreases |left|
      {
        var t :| t in left;
        if turns[t].session == session && turns[t].number > top { top := turns[t].number; }
        left := left - {t};
      }
      assert top == Maximum(TurnNumbers(turns, session)) by {
        if TurnNumbers(turns, session) == {} { assert top == 0; }
      }
      return top + 1;
    }

    method CreateTurn(turn: TurnId, session: SessionId, now: Time)
      modifies this
      ensures Contents() == Turns.CreateTurn(old(Contents()), turn, session, now)
    {
      var number := NextTurnNumber(session);
      turns := turns[turn := Turn(session, number, TurnRunning, 1, now)];
    }

    /** Takes the next item number of a turn and stores the item under it. */
    method Add(ref: ItemRef, kind: ItemType, content: string, origin: Option<nat>)
      requires ref.turn in turns
      modifies this`turns, this`items
      ensures Contents() == Insert(old(Contents()), ref, kind, content, origin)
    {
      var number := turns[ref.turn].nextItem;
      turns := turns[ref.turn := turns[ref.turn].(nextItem := number + 1)];
      items := items[ref := Item(number, kind, content, origin)];
    }

    /** False where `append_item` raises and `append_item_if_running` answers None. */
    method Append(ref: ItemRef, kind: ItemType, content: string) returns (ok: bool)
      modifies this
      ensures match AppendItem(old(Contents()), ref, kind, content)
              case TurnNotRunning => !ok && Contents() == old(Contents())
              case AlreadyThere => ok && Contents() == old(Contents())
              case Appended(b) => ok && Contents() == b
      ensures ok <==> old(Running(turns, ref.turn))
      ensures items == if ok && ref !in old(items)
                       then old(items)[ref := Item(old(turns)[ref.turn].nextItem, kind, content, None)] else old(items)
    {
      if ref.turn !in turns || turns[ref.turn].status != TurnRunning { return false; }
      if ref !in items { Add(ref, kind, content, None); }
      return true;
    }

    /** Ends the given turns and cancels what is still live in them. */
    method Terminate(gone: set<TurnId>, status: TurnStatus)
      modifies this
      ensures Contents() == EndTurns(old(Contents()), gone, status)
    {
      turns := map t | t in turns :: if t in gone then turns[t].(status := status) else turns[t];
      execs := map c | c in execs ::
        if c.turn in gone && Live(execs[c].status) then execs[c].(status := ExecCancelled) else execs[c];
    }

    method FinishTurn(turn: TurnId, status: TurnStatus) returns (ok: bool)
      modifies this
      ensures Contents() == Turns.FinishTurn(old(Contents()), turn, status) && ok == old(Running(turns, turn))
    {
      ok := turn in turns && turns[turn].status == TurnRunning;
      if ok { Terminate({turn}, status); }
    }

    method RecoverStale(scope: Option<SessionId>, threshold: Time, api: set<TurnId>) returns (recovered: set<TurnId>)
      modifies this
      ensures Contents() == Turns.RecoverStale(old(Contents()), scope, threshold, api)
      ensures recovered == old(Stale(turns, scope, threshold, api))
      ensures forall t | t in old(turns) ::
                t in turns && turns[t] ==
                  if Active(old(turns)[t].status) && old(turns)[t].startedAt < threshold && t !in api
                     && (scope.Some? ==> scope.value == old(turns)[t].session)
                  then old(turns)[t].(status := TurnFailed) else old(turns)[t]
    {
      recovered := set t | t in turns && Active(turns[t].status) && turns[t].startedAt < threshold && t !in api
                           && (scope == None || scope == Some(turns[t].session));
      Terminate(recovered, TurnFailed);
    }

    method Prepare(call: ItemRef, content: string, origin: Option<nat>) returns (r: PrepareResult)
      modifies this
      ensures r == Turns.Prepare(old(Contents()), call, content, origin)
      ensures Contents() == if r.Prepared? then r.tables else old(Contents())
      ensures r.Prepared? <==> old(Running(turns, call.turn))
                               && (call in old(items) ==>
                                     old(items)[call].kind == ToolCall && old(items)[call].content == content
                                     && (origin.Some? ==> old(items)[call].origin == origin))
      ensures r.Prepared? ==> call in items && items[call].kind == ToolCall && items[call].content == content
                              && call in execs && r.status == execs[call].status
                              && r.result == if ResultRef(call) in items then Some(items[ResultRef(call)]) else None
      ensures r.Prepared? && call !in old(execs) ==> execs[call] == Exec(ExecPending, 0)
      ensures r.Prepared? && call !in old(items) ==> items[call].origin == origin
      ensures r.Prepared? && call in old(execs) ==> execs[call] == old(execs)[call]
      ensures r.CallConflict? ==> old(items)[call].content != content || old(items)[call].origin != origin
    {
      if call.turn !in turns || turns[call.turn].status != TurnRunning { return TurnEnded; }
      if call in items {
        if items[call].kind != ToolCall { return TurnEnded; }
        if items[call].content != content { return CallConflict; }
        if origin.Some? && items[call].origin != origin { return CallConflict; }
      } else {
        Add(call, ToolCall, content, origin);
      }
      if call !in execs { execs := execs[call := Exec(ExecPending, 0)]; }
      var result := if ResultRef(call) in items then Some(items[ResultRef(call)]) else None;
      return Prepared(Contents(), execs[call].status, result);
    }

    method Claim(call: ItemRef) returns (ok: bool)
      modifies this
      ensures Contents() == Turns.Claim(old(Contents()), call) && ok == Claimable(old(Contents()), call)
      ensures ok <==> call in old(execs) && old(execs)[call].status == ExecPending && old(Running(turns, call.turn))
      ensures ok ==> execs == old(execs)[call := old(execs)[call].(status := ExecRunning)]
    {
      if call !in execs || execs[call].status != ExecPending { return false; }
      if call.turn !in turns || turns[call.turn].status != TurnRunning { return false; }
      execs := execs[call := execs[call].(status := ExecRunning)];
      return true;
    }

    method IncrementAttempt(call: ItemRef) returns (ok: bool)
      modifies this
      ensures Contents() == Turns.IncrementAttempt(old(Contents()), call) && ok == Attemptable(old(Contents()), call)
    {
      if call !in execs || execs[call].status != ExecRunning { return false; }
      if call.turn !in turns || turns[call.turn].status != TurnRunning { return false; }
      execs := execs[call := execs[call].(attempts := execs[call].attempts + 1)];
      return true;
    }

    /** None where the source answers None; the stored item otherwise, quarantined at once if there is an override. */
    method Finish(call: ItemRef, content: string, status: ExecStatus, override: Option<string>)
      returns (stored: Option<Item>)
      modifies this
      ensures match Turns.Finish(old(Contents()), call, content, status)
              case Refused => stored.None? && Contents() == old(Contents())
              case AlreadyStored(item) => stored == Some(item) && Contents() == old(Contents())
              case Stored(b) => Contents() == b && ResultRef(call) in items && stored == Some(items[ResultRef(call)])
      ensures stored.Some? && ResultRef(call) !in old(items) ==>
                && stored.value.kind == ToolResult && stored.value.content == content
                && ResultRef(call) in items && items[ResultRef(call)] == stored.value
                && call in execs && execs[call] == old(execs)[call].(status := status)
      ensures ResultRef(call) in old(items) ==> items == old(items) && execs == old(execs)
      ensures var spec := Turns.Finish(old(Contents()), call, content, status);
              overrides ==
              if spec.Stored? && override.Some? then old(overrides)[ResultRef(call) := override.value]
                 else old(overrides)
    {
      if call.turn !in turns || turns[call.turn].status != TurnRunning { return None; }
      if ResultRef(call) in items { return Some(items[ResultRef(call)]); }
      if call !in items || items[call].kind != ToolCall { return None; }
      if call !in execs || !Live(execs[call].status) { return None; }
      Add(ResultRef(call), ToolResult, content, None);
      execs := execs[call := execs[call].(status := status)];
      if override.Some? { overrides := overrides[ResultRef(call) := override.value]; }
      return Some(items[ResultRef(call)]);
    }
  }
}

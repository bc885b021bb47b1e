/**
 The committed steps of chat turns: begin, recovery, child turns, tool executions and the end of a
 turn. `api` are the turns referenced by idempotency rows; no chat worker ever holds one of them.
 */
module Chat {
  import opened Options
  import opened Turns
  import opened ApprovalInvariant

  datatype ChatEvent =
    | BeginChat(turn: TurnId, session: SessionId, content: string, staleBefore: Time, now: Time)
    | RecoverAll(staleBefore: Time)
    | CreateChild(turn: TurnId, session: SessionId, content: string, now: Time)
    | EndChat(turn: TurnId, name: string, reply: Option<string>, status: TurnStatus)
    | PrepareTool(call: ItemRef, content: string, origin: Option<nat>)
    | ClaimTool(call: ItemRef)
    | AttemptTool(call: ItemRef)
    | FinishTool(call: ItemRef, result: string, ended: ExecStatus)

  /** `has_active_chat_turn`. */
  predicate HasActiveChat(turns: map<TurnId, Turn>, api: set<TurnId>, session: SessionId) {
    exists t | t in turns :: Chatting(turns, api, t) && turns[t].session == session
  }

  /** `begin`: recover, refuse if a chat turn is still active (rolling the recovery back), else open one. */
  function Begin(a: Tables, api: set<TurnId>, turn: TurnId, session: SessionId, content: string,
                 staleBefore: Time, now: Time): Option<Tables> {
    var recovered := RecoverStale(a, Some(session), staleBefore, api);
    if HasActiveChat(recovered.turns, api, session) then None
    else
      var created := CreateTurn(recovered, turn, session, now);
      var ref := ItemRef(turn, PlainKey("user-message"));
      Some(if ref in created.items then created else Insert(created, ref, UserMessage, content, None))
  }

  /** `_create_child`: a new session with its single running turn. */
  function Child(a: Tables, turn: TurnId, session: SessionId, content: string, now: Time): Tables {
    var created := CreateTurn(a, turn, session, now);
    var ref := ItemRef(turn, PlainKey("child-input"));
    if ref in created.items then created else Insert(created, ref, UserMessage, content, None)
  }

  /** `_finish` and the end of a child turn: the reply first, then the turn, both only while running. */
  function EndTurn(a: Tables, turn: TurnId, name: string, reply: Option<string>, status: TurnStatus): Tables {
    var ref := ItemRef(turn, PlainKey(name));
    match reply
    case None => FinishTurn(a, turn, status)
    case Some(content) =>
      match AppendItem(a, ref, AssistantMessage, content)
      case TurnNotRunning => a
      case AlreadyThere => FinishTurn(a, turn, status)
      case Appended(b) => FinishTurn(b, turn, status)
  }

  /** What the caller of each step guarantees; a step that breaks it is not a step of the system. */
  predicate Allowed(a: Tables, api: set<TurnId>, e: ChatEvent) {
    match e
    case BeginChat(turn, _, _, _, _) => turn !in a.turns
    case RecoverAll(_) => true
    case CreateChild(turn, session, _, _) =>
      turn !in a.turns && forall t | t in a.turns :: a.turns[t].session != session
    case EndChat(turn, _, _, status) => turn !in api && !Active(status)
    case PrepareTool(call, _, _) => call.turn !in api && call.key.ToolCallKey?
    case ClaimTool(call) => call.turn !in api
    case AttemptTool(call) => call.turn !in api
    case FinishTool(call, _, ended) => call.turn !in api && !Live(ended)
  }

  function ChatStep(a: Tables, api: set<TurnId>, e: ChatEvent): Tables {
    if !Allowed(a, api, e) then a else
    match e
    case BeginChat(turn, session, content, staleBefore, now) =>
      var begun := Begin(a, api, turn, session, content, staleBefore, now);
      if begun.Some? then begun.value else a
    case RecoverAll(staleBefore) => RecoverStale(a, None, staleBefore, api)
    case CreateChild(turn, session, content, now) => Child(a, turn, session, content, now)
    case EndChat(turn, name, reply, status) => EndTurn(a, turn, name, reply, status)
    case PrepareTool(call, content, origin) =>
      var prepared := Prepare(a, call, content, origin);
      if prepared.Prepared? then prepared.tables else a
    case ClaimTool(call) => Claim(a, call)
    case AttemptTool(call) => IncrementAttempt(a, call)
    case FinishTool(call, result, ended) =>
      var finished := Finish(a, call, result, ended);
      if finished.Stored? then finished.tables else a
  }

  // ---------- Preservation ----------

  /** `b` is `a` after some chat step: no API turn or its items moved and no second active turn appeared. */
  ghost predicate ChatKept(a: Tables, b: Tables, api: set<TurnId>) {
    TablesInv(b) && SameForApi(a, b, api) && OneChat(b.turns, api)
  }

  lemma EndingKeeps(a: Tables, gone: set<TurnId>, status: TurnStatus, api: set<TurnId>)
    requires OneChat(a.turns, api) && gone !! api && !Active(status)
    ensures SameForApi(a, EndTurns(a, gone, status), api)
    ensures OneChat(EndTurns(a, gone, status).turns, api)
  {
    var b := EndTurns(a, gone, status);
    assert forall t | Chatting(b.turns, api, t) :: Chatting(a.turns, api, t);
  }

  lemma RecoverKeeps(a: Tables, scope: Option<SessionId>, staleBefore: Time, api: set<TurnId>)
    requires TablesInv(a) && OneChat(a.turns, api)
    ensures ChatKept(a, RecoverStale(a, scope, staleBefore, api), api)
    ensures RecoverStale(a, scope, staleBefore, api).turns.Keys == a.turns.Keys
  {
    hide TablesInv, OneChat, SameForApi;
    var stale := Stale(a.turns, scope, staleBefore, api);
    EndTurnsKeepsInv(a, stale, TurnFailed);
    EndingKeeps(a, stale, TurnFailed, api);
  }

  lemma OpeningKeeps(a: Tables, b: Tables, turn: TurnId, session: SessionId, api: set<TurnId>)
    requires OneChat(a.turns, api) && OpenedTurn(a, b, turn, session) && turn !in api
    requires !HasActiveChat(a.turns, api, session)
    ensures SameForApi(a, b, api) && OneChat(b.turns, api)
  {
    assert forall t | Chatting(b.turns, api, t) && t != turn :: Chatting(a.turns, api, t);
  }

  lemma SameForApiTransitive(a: Tables, b: Tables, c: Tables, api: set<TurnId>)
    requires SameForApi(a, b, api) && SameForApi(b, c, api)
    ensures SameForApi(a, c, api)
  {
  }

  lemma ExecsAreFree(a: Tables, b: Tables, api: set<TurnId>)
    requires b.turns == a.turns && b.items == a.items
    ensures SameForApi(a, b, api)
  {
  }

  lemma BeginKeeps(a: Tables, api: set<TurnId>, turn: TurnId, session: SessionId, content: string, staleBefore: Time,
                   now: Time)
    requires TablesInv(a) && OneChat(a.turns, api) && turn !in a.turns && api <= a.turns.Keys
    requires Begin(a, api, turn, session, content, staleBefore, now).Some?
    ensures ChatKept(a, Begin(a, api, turn, session, content, staleBefore, now).value, api)
  {
    hide TablesInv, OneChat, SameForApi, OpenedTurn;
    var recovered := RecoverStale(a, Some(session), staleBefore, api);
    var b := Begin(a, api, turn, session, content, staleBefore, now).value;
    RecoverKeeps(a, Some(session), staleBefore, api);
    OpenTurn(recovered, turn, session, now, PlainKey("user-message"), content);
    OpeningKeeps(recovered, b, turn, session, api);
    SameForApiTransitive(a, recovered, b, api);
  }

  lemma ChildKeeps(a: Tables, api: set<TurnId>, turn: TurnId, session: SessionId, content: string, now: Time)
    requires TablesInv(a) && OneChat(a.turns, api) && turn !in a.turns && api <= a.turns.Keys
    requires forall t | t in a.turns :: a.turns[t].session != session
    ensures ChatKept(a, Child(a, turn, session, content, now), api)
  {
    hide TablesInv, OneChat, SameForApi, OpenedTurn;
    OpenTurn(a, turn, session, now, PlainKey("child-input"), content);
    OpeningKeeps(a, Child(a, turn, session, content, now), turn, session, api);
  }

  /** An item stored in a running chat turn. */
  lemma InsertKeeps(a: Tables, ref: ItemRef, kind: ItemType, content: string, origin: Option<nat>, api: set<TurnId>)
    requires OneChat(a.turns, api) && ref.turn in a.turns && ref.turn !in api
    ensures SameForApi(a, Insert(a, ref, kind, content, origin), api)
    ensures OneChat(Insert(a, ref, kind, content, origin).turns, api)
  {
    var b := Insert(a, ref, kind, content, origin);
    assert forall t | Chatting(b.turns, api, t) :: Chatting(a.turns, api, t);
  }

  lemma FinishTurnKeeps(a: Tables, turn: TurnId, status: TurnStatus, api: set<TurnId>)
    requires TablesInv(a) && OneChat(a.turns, api) && turn !in api && !Active(status)
    ensures ChatKept(a, FinishTurn(a, turn, status), api)
  {
    hide TablesInv, OneChat;
    FinishTurnKeepsInv(a, turn, status);
    EndingKeeps(a, {turn}, status, api);
  }

  lemma EndTurnKeeps(a: Tables, api: set<TurnId>, turn: TurnId, name: string, reply: Option<string>, status: TurnStatus)
    requires TablesInv(a) && OneChat(a.turns, api) && turn !in api && !Active(status)
    ensures ChatKept(a, EndTurn(a, turn, name, reply, status), api)
  {
    hide TablesInv, OneChat;
    var ref := ItemRef(turn, PlainKey(name));
    if reply.Some? && Running(a.turns, turn) && ref !in a.items {
      var b := Insert(a, ref, AssistantMessage, reply.value, None);
      AppendKeepsInv(a, ref, AssistantMessage, reply.value);
      InsertKeeps(a, ref, AssistantMessage, reply.value, None, api);
      FinishTurnKeeps(b, turn, status, api);
    } else {
      FinishTurnKeeps(a, turn, status, api);
    }
  }

  lemma PrepareKeeps(a: Tables, api: set<TurnId>, call: ItemRef, content: string, origin: Option<nat>)
    requires TablesInv(a) && OneChat(a.turns, api) && call.turn !in api && call.key.ToolCallKey?
    requires Prepare(a, call, content, origin).Prepared?
    ensures ChatKept(a, Prepare(a, call, content, origin).tables, api)
  {
    hide TablesInv, OneChat;
    PrepareKeepsInv(a, call, content, origin);
    if call !in a.items { InsertKeeps(a, call, ToolCall, content, origin, api); }
  }

  lemma FinishToolKeeps(a: Tables, api: set<TurnId>, call: ItemRef, result: string, ended: ExecStatus)
    requires TablesInv(a) && OneChat(a.turns, api) && call.turn !in api && !Live(ended)
    requires Finish(a, call, result, ended).Stored?
    ensures ChatKept(a, Finish(a, call, result, ended).tables, api)
  {
    hide TablesInv, OneChat;
    FinishKeepsInv(a, call, result, ended);
    InsertKeeps(a, ResultRef(call), ToolResult, result, None, api);
  }

  /** Every chat step keeps the table invariant, the API turns and the single active chat turn. */
  lemma ChatStepKeeps(a: Tables, api: set<TurnId>, e: ChatEvent)
    requires TablesInv(a) && OneChat(a.turns, api) && api <= a.turns.Keys
    ensures ChatKept(a, ChatStep(a, api, e), api)
  {
    hide TablesInv, OneChat, SameForApi;
    ExecsAreFree(a, a, api);
    if Allowed(a, api, e) {
      match e
      case BeginChat(turn, session, content, staleBefore, now) =>
        if Begin(a, api, turn, session, content, staleBefore, now).Some? {
          BeginKeeps(a, api, turn, session, content, staleBefore, now);
        }
      case RecoverAll(staleBefore) => RecoverKeeps(a, None, staleBefore, api);
      case CreateChild(turn, session, content, now) => ChildKeeps(a, api, turn, session, content, now);
      case EndChat(turn, name, reply, status) => EndTurnKeeps(a, api, turn, name, reply, status);
      case PrepareTool(call, content, origin) =>
        if Prepare(a, call, content, origin).Prepared? { PrepareKeeps(a, api, call, content, origin); }
      case ClaimTool(call) =>
        ClaimKeepsInv(a, call);
        ExecsAreFree(a, Claim(a, call), api);
      case AttemptTool(call) =>
        IncrementKeepsInv(a, call);
        ExecsAreFree(a, IncrementAttempt(a, call), api);
      case FinishTool(call, result, ended) =>
        if Finish(a, call, result, ended).Stored? { FinishToolKeeps(a, api, call, result, ended); }
    }
  }

  /** A child turn is opened in its own session, running, with its input as a user message. */
  lemma ChildIsOpened(a: Tables, api: set<TurnId>, turn: TurnId, session: SessionId, content: string, now: Time)
    requires TablesInv(a) && turn !in a.turns && forall t | t in a.turns :: a.turns[t].session != session
    ensures var b := ChatStep(a, api, CreateChild(turn, session, content, now));
            var ref := ItemRef(turn, PlainKey("child-input"));
            && b.turns.Keys == a.turns.Keys + {turn} && (forall t | t in a.turns :: b.turns[t] == a.turns[t])
            && b.turns[turn].session == session && b.turns[turn].number == 1 && b.turns[turn].status == TurnRunning
            && b.items == a.items[ref := Item(1, UserMessage, content, None)] && b.execs == a.execs
  {
    hide GaplessTurns, NoOrphanExecs, ResultsMatch;
    FreshTurnHasNoItems(a, turn);
    assert TurnNumbers(a.turns, session) == {};
  }
}

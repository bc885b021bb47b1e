/** Beginning and ending chat turns in place, and the turn around one agent run. */
module TurnService {
  import opened Options
  import opened Turns
  import opened TurnStore
  import opened ApprovalInvariant
  import Chat
  import opened AgentLoop
  import opened ChildTurns

  class TurnService {
    const agents: AgentRepository
    var api: set<TurnId>           // the turns that idempotency rows refer to

    constructor (agents: AgentRepository)
      ensures this.agents == agents && api == {}
    {
      this.agents, api := agents, {};
    }

    method HasActiveChatTurn(session: SessionId) returns (found: bool)
      ensures found <==> Chat.HasActiveChat(agents.turns, api, session)
    {
      found := exists t | t in agents.turns ::
          t !in api && Active(agents.turns[t].status) && agents.turns[t].session == session;
      assert found ==> exists t | t in agents.turns ::
               Chatting(agents.turns, api, t) && agents.turns[t].session == session;
    }

    /**
     `begin`: one transaction; refusing a second active turn also undoes the recovery. Older active turns of
     the session, API turns aside, have failed, and every other turn and item is as it was.
     */
    method Begin(turn: TurnId, session: SessionId, message: string, staleBefore: Time, now: Time) returns (ok: bool)
      modifies agents
      ensures var spec := Chat.Begin(old(agents.Contents()), api, turn, session, message, staleBefore, now);
              ok == spec.Some? && agents.Contents() == if ok then spec.value else old(agents.Contents())
      ensures !ok ==> exists t | t in agents.turns ::
                t !in api && Active(agents.turns[t].status) && agents.turns[t].session == session
                && agents.turns[t].startedAt >= staleBefore
      ensures ok ==> forall t | t in old(agents.turns) && t != turn ::
                var was := old(agents.turns)[t];
                t in agents.turns && agents.turns[t] ==
                  if t !in api && Active(was.status) && was.session == session && was.startedAt < staleBefore
                  then was.(status := TurnFailed) else was
      ensures ok ==> turn in agents.turns && agents.turns[turn].session == session
                     && agents.turns[turn].status == TurnRunning && agents.turns[turn].startedAt == now
      ensures var ref := ItemRef(turn, PlainKey("user-message"));
              ok && ref !in old(agents.items) ==>
                agents.items == old(agents.items)[ref := Item(1, UserMessage, message, None)]
    {
      var turns, execs := agents.turns, agents.execs;
      var _ := agents.RecoverStale(Some(session), staleBefore, api);
      var active := HasActiveChatTurn(session);
      if active {
        var t :| t in agents.turns && Chatting(agents.turns, api, t) && agents.turns[t].session == session;
        assert t in turns && agents.turns[t] == turns[t];
        agents.turns, agents.execs := turns, execs;
        return false;
      }
      agents.CreateTurn(turn, session, now);
      var _ := agents.Append(ItemRef(turn, PlainKey("user-message")), UserMessage, message);
      return true;
    }

    /** `_finish`: the reply first, then the end of the turn, both only while it is running. */
    method Finish(turn: TurnId, result: RunResult)
      modifies agents
      ensures agents.Contents() ==
              Chat.EndTurn(old(agents.Contents()), turn, "assistant-message", ReplyOf(result), EndOf(result))
      ensures old(Running(agents.turns, turn)) ==>
                && turn in agents.turns
                && (result.Reply? || result.Terminal? ==> agents.turns[turn].status == TurnStatus.TurnCompleted)
                && (result == RunFailed(RunError.TurnBlocked) ==>
                      agents.turns[turn].status == TurnStatus.TurnBlocked)
                && (result.RunFailed? && !result.error.TurnBlocked? ==>
                      agents.turns[turn].status == TurnStatus.TurnFailed)
      ensures var ref := ItemRef(turn, PlainKey("assistant-message"));
              old(Running(agents.turns, turn)) ==>
                && (result.Reply? && ref !in old(agents.items) ==>
                      ref in agents.items && agents.items[ref].kind == AssistantMessage
                      && agents.items[ref].content == result.content && agents.items - {ref} == old(agents.items))
                && (!result.Reply? ==> agents.items == old(agents.items))
    {
      if result.RunFailed? {
        var _ := agents.FinishTurn(turn, if result.error.TurnBlocked? then TurnStatus.TurnBlocked else TurnFailed);
      } else {
        var appended := result.Terminal?;
        if result.Reply? {
          appended := agents.Append(ItemRef(turn, PlainKey("assistant-message")), AssistantMessage, result.content);
        }
        if appended { var _ := agents.FinishTurn(turn, TurnCompleted); }
      }
    }

    /** The transaction of `_finish`: it commits, or it is rolled back, and either can look like an error. */
    method TryFinish(turn: TurnId, result: RunResult) returns (tx: Tx)
      requires Valid()
      modifies agents
      ensures Valid() && agents.turns.Keys == old(agents.turns.Keys)
      ensures !Commits(tx) ==> agents.Contents() == old(agents.Contents())
      ensures Commits(tx) ==>
                agents.Contents() ==
                Chat.EndTurn(old(agents.Contents()), turn, "assistant-message", ReplyOf(result), EndOf(result))
      ensures Commits(tx) && old(Running(agents.turns, turn)) ==>
                && turn in agents.turns
                && (result.Reply? || result.Terminal? ==> agents.turns[turn].status == TurnStatus.TurnCompleted)
                && (result == RunFailed(RunError.TurnBlocked) ==>
                      agents.turns[turn].status == TurnStatus.TurnBlocked)
                && (result.RunFailed? && !result.error.TurnBlocked? ==>
                      agents.turns[turn].status == TurnStatus.TurnFailed)
      ensures var ref := ItemRef(turn, PlainKey("assistant-message"));
              Commits(tx) && old(Running(agents.turns, turn)) && ref !in old(agents.items) ==>
                && (result.Reply? ==> ref in agents.items && agents.items[ref].kind == AssistantMessage
                                      && agents.items[ref].content == result.content)
                && (!result.Reply? ==> ref !in agents.items)
    {
      hide TablesInv, OneChat, Chat.EndTurn;
      var turns, items, execs := agents.turns, agents.items, agents.execs;
      Settled(agents.Contents(), turn, ReplyOf(result), EndOf(result));
      OnlyEnds(agents.Contents(), turn, ReplyOf(result), EndOf(result), api);
      Finish(turn, result);
      var which: int, fault: Fault := *, *;
      tx := if which == 0 then Done else if which == 1 then Unreported(fault) else RolledBack(fault);
      if tx.RolledBack? { agents.turns, agents.items, agents.execs := turns, items, execs; }
    }

    /** What this service and everyone else keep between transactions. */
    ghost predicate Valid()
      reads this, agents
    {
      TablesInv(agents.Contents()) && OneChat(agents.turns, api) && api <= agents.turns.Keys
    }

    /** Everyone else goes on: other turns, their tools, recovery, and whoever ends this turn from outside. */
    method Others()
      requires Valid()
      modifies agents
      ensures Valid() && old(agents.turns.Keys) <= agents.turns.Keys
      ensures forall t | t in old(agents.turns) && !Active(old(agents.turns)[t].status) ::
                agents.turns[t] == old(agents.turns)[t]
      ensures forall t | t in old(agents.turns) && Running(agents.turns, t) ::
                Running(old(agents.turns), t) && (Replied(agents.items, t) ==> Replied(old(agents.items), t))
    {
      hide TablesInv, OneChat, Chat.ChatStep;
      var events: seq<Chat.ChatEvent> := *;
      for n := 0 to |events|
        invariant Valid() && old(agents.turns.Keys) <= agents.turns.Keys
        invariant forall t | t in old(agents.turns) && !Active(old(agents.turns)[t].status) ::
                    agents.turns[t] == old(agents.turns)[t]
        invariant forall t | t in old(agents.turns) && Running(agents.turns, t) ::
                    Running(old(agents.turns), t) && (Replied(agents.items, t) ==> Replied(old(agents.items), t))
      {
        Chat.ChatStepKeeps(agents.Contents(), api, events[n]);
        EndedStays(agents.Contents(), api, events[n]);
        RunningStays(agents.Contents(), api, events[n]);
        var next := Chat.ChatStep(agents.Contents(), api, events[n]);
        agents.turns, agents.items, agents.execs := next.turns, next.items, next.execs;
      }
    }

    /** What the run around the context and the agent came to, unless it was cut off from outside. */
    method RunAgent(run: AgentLoop.TurnRun) returns (cutOff: bool, result: RunResult)
      requires run.Valid() && Valid()
      modifies agents, run, run.budget
      ensures Valid() && old(agents.turns.Keys) <= agents.turns.Keys
      ensures forall t | t in old(agents.turns) && !Active(old(agents.turns)[t].status) ::
                agents.turns[t] == old(agents.turns)[t]
      ensures forall t | t in old(agents.turns) && Running(agents.turns, t) ::
                Running(old(agents.turns), t) && (Replied(agents.items, t) ==> Replied(old(agents.items), t))
      ensures !result.RunFailed? ==> run.budget.steps <= run.budget.maxSteps
    {
      hide TablesInv, OneChat;
      cutOff := false;
      Others();
      var built := run.BuildContext(false);
      if built.NotBuilt? {
        result := RunFailed(built.error);
      } else {
        var rebuilds;
        result, rebuilds := run.Run(built.context);
      }
      Others();
      if result == RunFailed(Cancelled) {
        // The turn's own timeout becomes an error of the turn; any other cancellation goes through.
        var own: bool := *;
        cutOff, result := !own, RunFailed(TimeLimit);
      }
    }

    /**
     `execute`, with everyone else acting meanwhile. It shows the turn only after its last transaction
     committed. A cancellation from outside before that transaction, or one that is rolled back, leaves the
     turn as the others left it; otherwise it has ended as the run says, unless somebody ended it before.
     */
    method Execute(turn: TurnId, run: AgentLoop.TurnRun)
      returns (shown: bool, fault: Fault, finish: Option<Tx>, result: RunResult, interrupted: bool)
      requires run.Valid() && Valid()
      modifies agents, run, run.budget
      ensures Valid() && (shown ==> finish == Some(Done)) && old(agents.turns.Keys) <= agents.turns.Keys
      ensures Running(agents.turns, turn) <==> !interrupted && !Committed(finish)
      ensures !interrupted && Committed(finish) ==>
                && turn in agents.turns
                && (result.Reply? || result.Terminal? ==> agents.turns[turn].status == TurnStatus.TurnCompleted)
                && (result == RunFailed(RunError.TurnBlocked) ==>
                      agents.turns[turn].status == TurnStatus.TurnBlocked)
                && (result.RunFailed? && !result.error.TurnBlocked? ==>
                      agents.turns[turn].status == TurnStatus.TurnFailed)
      ensures var ref := ItemRef(turn, PlainKey("assistant-message"));
              !interrupted && Committed(finish) && turn in old(agents.turns) && ref !in old(agents.items) ==>
                && (result.Reply? ==> ref in agents.items && agents.items[ref].kind == AssistantMessage
                                      && agents.items[ref].content == result.content)
                && (!result.Reply? ==> ref !in agents.items)
      ensures turn in old(agents.turns) && !Active(old(agents.turns)[turn].status) ==>
                interrupted && turn in agents.turns && agents.turns[turn] == old(agents.turns)[turn]
      ensures finish.Some? && !result.RunFailed? ==> run.budget.steps <= run.budget.maxSteps
      ensures forall c | c in agents.execs && c.turn == turn && Live(agents.execs[c].status) ::
                Running(agents.turns, turn)
    {
      hide OneChat, Chat.EndTurn, GaplessTurns, GaplessItems, ResultsMatch;
      var cutOff;
      cutOff, result := RunAgent(run);
      interrupted := !Running(agents.turns, turn);
      shown, fault, finish := false, CutOff, None;
      if cutOff { return; }
      Settled(agents.Contents(), turn, ReplyOf(result), EndOf(result));
      var tx := TryFinish(turn, result);
      finish := Some(tx);
      if tx.Done? {
        shown, fault := *, *;
      } else {
        fault := tx.fault;
      }
    }

    /**
     `_run_turn`: when `execute` does not come to an end, a second transaction ends the turn with an error.
     The stream is closed only over an ended turn. The turn is still running iff nobody else ended it and
     neither transaction committed, and then the second one was tried.
     */
    method RunTurn(turn: TurnId, run: AgentLoop.TurnRun)
      returns (closed: bool, first: Option<Tx>, second: Option<Tx>, result: RunResult, interrupted: bool)
      requires run.Valid() && Valid() && turn in agents.turns
      modifies agents, run, run.budget
      ensures Valid()
      ensures Running(agents.turns, turn) <==> !interrupted && !Committed(first) && !Committed(second)
      ensures closed ==> first == Some(Done) || second == Some(Done)
      ensures second.None? ==> closed && first == Some(Done)
      ensures !interrupted && Committed(first) ==>
                && turn in agents.turns
                && (result.Reply? || result.Terminal? ==> agents.turns[turn].status == TurnStatus.TurnCompleted)
                && (result == RunFailed(RunError.TurnBlocked) ==>
                      agents.turns[turn].status == TurnStatus.TurnBlocked)
                && (result.RunFailed? && !result.error.TurnBlocked? ==>
                      agents.turns[turn].status == TurnStatus.TurnFailed)
      ensures !interrupted && !Committed(first) && Committed(second) ==>
                turn in agents.turns && agents.turns[turn].status == TurnStatus.TurnFailed
      ensures forall c | c in agents.execs && c.turn == turn && Live(agents.execs[c].status) ::
                Running(agents.turns, turn)
    {
      hide OneChat, Chat.EndTurn, GaplessTurns, GaplessItems, ResultsMatch;
      var shown, fault;
      shown, fault, first, result, interrupted := Execute(turn, run);
      second := None;
      if shown { return true, first, second, result, interrupted; }
      Others();
      if !Committed(first) { interrupted := !Running(agents.turns, turn); }
      var deadline: bool := *;
      var code := if fault.CutOff? && deadline then TimeLimit else ExecutionFailed;
      Settled(agents.Contents(), turn, None, TurnFailed);
      var tx := TryFinish(turn, RunFailed(code));
      second := Some(tx);
      // A cancelled task goes on with its cancellation; the view can fail to load.
      var loaded: bool := *;
      closed := tx.Done? && loaded && (fault.CutOff? ==> deadline);
    }
  }

  predicate Committed(tx: Option<Tx>) { tx.Some? && Commits(tx.value) }

  /** The turn has its reply. */
  predicate Replied(items: map<ItemRef, Item>, turn: TurnId) { ItemRef(turn, PlainKey("assistant-message")) in items }

  function ReplyOf(result: RunResult): Option<string> { if result.Reply? then Some(result.content) else None }

  function EndOf(result: RunResult): TurnStatus {
    if !result.RunFailed? then TurnCompleted
    else if result.error.TurnBlocked? then TurnStatus.TurnBlocked else TurnFailed
  }

  /** No chat step touches a turn that has ended. */
  lemma EndedStays(a: Tables, api: set<TurnId>, e: Chat.ChatEvent)
    ensures var b := Chat.ChatStep(a, api, e);
            a.turns.Keys <= b.turns.Keys
            && forall t | t in a.turns && !Active(a.turns[t].status) :: b.turns[t] == a.turns[t]
  {
    hide TurnNumbers, Chat.HasActiveChat;
  }

  /** No chat step sets an old turn running, or leaves one running that it gave its reply. */
  lemma RunningStays(a: Tables, api: set<TurnId>, e: Chat.ChatEvent)
    ensures var b := Chat.ChatStep(a, api, e);
            forall t | t in a.turns && Running(b.turns, t) ::
              Running(a.turns, t) && (Replied(b.items, t) ==> Replied(a.items, t))
  {
    hide TurnNumbers, Chat.HasActiveChat;
  }

  /** Ending a turn makes no turn active. */
  lemma OnlyEnds(a: Tables, turn: TurnId, reply: Option<string>, status: TurnStatus, api: set<TurnId>)
    requires OneChat(a.turns, api) && !Active(status)
    ensures var b := Chat.EndTurn(a, turn, "assistant-message", reply, status);
            OneChat(b.turns, api) && b.turns.Keys == a.turns.Keys
  {
    var b := Chat.EndTurn(a, turn, "assistant-message", reply, status);
    assert forall t | Chatting(b.turns, api, t) ::
             Chatting(a.turns, api, t) && b.turns[t].session == a.turns[t].session;
  }

  /** Ending a turn leaves it terminal with nothing live in it. */
  lemma Settled(a: Tables, turn: TurnId, reply: Option<string>, status: TurnStatus)
    requires TablesInv(a) && !Active(status)
    ensures var b := Chat.EndTurn(a, turn, "assistant-message", reply, status);
            && !Running(b.turns, turn)
            && (forall c | c in b.execs && c.turn == turn :: !Live(b.execs[c].status))
            && (if Running(a.turns, turn) then turn in b.turns && b.turns[turn].status == status else b == a)
    ensures TablesInv(Chat.EndTurn(a, turn, "assistant-message", reply, status))
  {
    hide GaplessTurns, GaplessItems, ResultsMatch;
    SettledTables(a, turn, reply, status);
  }

  lemma SettledTables(a: Tables, turn: TurnId, reply: Option<string>, status: TurnStatus)
    requires TablesInv(a) && !Active(status)
    ensures TablesInv(Chat.EndTurn(a, turn, "assistant-message", reply, status))
  {
    hide TablesInv;
    var ref := ItemRef(turn, PlainKey("assistant-message"));
    FinishTurnKeepsInv(a, turn, status);
    if reply.Some? && Running(a.turns, turn) && ref !in a.items {
      AppendKeepsInv(a, ref, AssistantMessage, reply.value);
      FinishTurnKeepsInv(Insert(a, ref, AssistantMessage, reply.value, None), turn, status);
    }
  }
}

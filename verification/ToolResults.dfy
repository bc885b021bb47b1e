/** What is stored for a tool call is what its handler said in its last run. */
module ToolResults {
  import opened Options
  import opened Turns
  import opened Approval
  import opened Protocol
  import opened ProtocolInvariant
  import opened TablesEvolution
  import opened ToolProtocol

  /** The outcome of the last handler run of a call, if it ran. */
  function LastRun(log: seq<Execution>, call: ItemRef): Option<Outcome> {
    if log == [] then None
    else if log[|log| - 1].call == call then Some(log[|log| - 1].outcome)
    else LastRun(log[..|log| - 1], call)
  }

  lemma LastRunAppend(log: seq<Execution>, x: Execution, call: ItemRef)
    ensures LastRun(log + [x], call) == if x.call == call then Some(x.outcome) else LastRun(log, call)
  {
    assert (log + [x])[..|log|] == log;
  }

  /**
   A success is stored with its data as completed, a permanent error with its code as failed or blocked; after a
   transient one the call failed for good or its turn had ended. Without a run it is never completed.
   */
  predicate Told(last: Option<Outcome>, result: string, status: ExecStatus) {
    match last
    case None => status != ExecCompleted
    case Some(Success(data)) => result == data && status == ExecCompleted
    case Some(Permanent(error, blocked)) => result == error && status == (if blocked then ExecBlocked else ExecFailed)
    case Some(Transient(_)) =>
      || (result == "TOOL_RETRY_EXHAUSTED" && status == ExecFailed)
      || (result == "TOOL_TURN_ENDED" && status == ExecCancelled)
    case Some(Raised) => false
  }

  /** Where the claimer of a call is, and how the last run of the call ended. */
  predicate PlaceFits(place: Place, last: Option<Outcome>) {
    match place
    case Deciding => last.None?
    case Looping(attempt) => if attempt == 0 then last.None? else last.Some? && last.value.Transient?
    case Executing(current) => if current == 0 then last.None? else last.Some? && last.value.Transient?
    case Ending(result, status) => Told(last, result, status)
    case _ => true
  }

  predicate StoredFits(a: Tables, log: seq<Execution>, call: ItemRef) {
    ResultRef(call) in a.items && call in a.execs ==>
      Told(LastRun(log, call), a.items[ResultRef(call)].content, a.execs[call].status)
  }

  ghost predicate ResultsInv(s: ToolState) {
    var a := s.core.db.tables;
    && (forall i | i in s.invokers && s.invokers[i].claimed ::
          PlaceFits(s.invokers[i].place, LastRun(s.log, s.invokers[i].call))
          && (Holds(s.invokers[i].place) ==> ResultRef(s.invokers[i].call) !in a.items))
    && (forall call: ItemRef :: StoredFits(a, s.log, call))
    && (forall call: ItemRef :: (forall i :: !Claimer(s.invokers, i, call)) ==> LastRun(s.log, call).None?)
  }

  /** What a step of invoker `i` on `call` may change. */
  ghost predicate OwnMove(s: ToolState, t: ToolState, i: InvokerId, call: ItemRef) {
    var a, b := s.core.db.tables, t.core.db.tables;
    && i in s.invokers && i in t.invokers && s.invokers[i].call == call == t.invokers[i].call
    && t.invokers == s.invokers[i := t.invokers[i]]
    && (s.invokers[i].claimed ==> t.invokers[i].claimed)
    && OnlyCall(a, b, call)
    && (t.log == s.log || exists x :: t.log == s.log + [x] && x.call == call && t.invokers[i].claimed)
  }

  lemma OthersFit(maxAttempts: nat, s: ToolState, t: ToolState, i: InvokerId, call: ItemRef)
    requires CallsInv(maxAttempts, s) && CallsInv(maxAttempts, t) && ResultsInv(s) && OwnMove(s, t, i, call)
    requires call.key.ToolCallKey?
    requires t.invokers[i].claimed ==>
               PlaceFits(t.invokers[i].place, LastRun(t.log, call))
               && (Holds(t.invokers[i].place) ==> ResultRef(call) !in t.core.db.tables.items)
    requires StoredFits(t.core.db.tables, t.log, call)
    requires !t.invokers[i].claimed ==> ResultRef(call) in t.core.db.tables.items ==>
               ResultRef(call) in s.core.db.tables.items
    requires forall c: ItemRef | c != call :: LastRun(t.log, c) == LastRun(s.log, c)
    ensures ResultsInv(t)
  {
    hide InvokersOk, UnclaimedOk, LogOk, PlaceFits, StoredFits;
    var a, b := s.core.db.tables, t.core.db.tables;
    forall j | j in t.invokers && t.invokers[j].claimed
      ensures PlaceFits(t.invokers[j].place, LastRun(t.log, t.invokers[j].call))
              && (Holds(t.invokers[j].place) ==> ResultRef(t.invokers[j].call) !in b.items)
    {
      if j != i {
        var c := s.invokers[j].call;
        assert Claimer(t.invokers, j, c);
        if c == call {
          assert t.invokers[i].claimed ==> Claimer(t.invokers, i, call);
        }
      }
    }
    forall c: ItemRef ensures StoredFits(b, t.log, c) {
      if c != call { OtherStored(a, b, s.log, t.log, call, c); }
    }
    forall c: ItemRef | forall j :: !Claimer(t.invokers, j, c) ensures LastRun(t.log, c).None? {
      UnclaimedBefore(s, t, i, call, c);
    }
  }

  lemma UnclaimedBefore(s: ToolState, t: ToolState, i: InvokerId, call: ItemRef, c: ItemRef)
    requires OwnMove(s, t, i, call) && forall j :: !Claimer(t.invokers, j, c)
    ensures forall j :: !Claimer(s.invokers, j, c)
    ensures c == call ==> t.log == s.log
  {
    forall j | Claimer(s.invokers, j, c) ensures Claimer(t.invokers, j, c) {}
    assert t.invokers[i].claimed ==> Claimer(t.invokers, i, call);
  }

  lemma OtherStored(a: Tables, b: Tables, log: seq<Execution>, log': seq<Execution>, call: ItemRef, c: ItemRef)
    requires OnlyCall(a, b, call) && StoredFits(a, log, c) && c != call && LastRun(log', c) == LastRun(log, c)
    requires call.key.ToolCallKey?
    ensures StoredFits(b, log', c)
  {
  }

  // ---------- The steps of an invoker ----------

  lemma SameLog(s: ToolState, t: ToolState)
    requires t.log == s.log
    ensures forall c: ItemRef :: LastRun(t.log, c) == LastRun(s.log, c)
  {
  }

  /** A step that only moves the invoker. */
  lemma PlaceStep(maxAttempts: nat, s: ToolState, i: InvokerId, v': Invoker)
    requires CallsInv(maxAttempts, s) && ResultsInv(s) && i in s.invokers && v'.call == s.invokers[i].call
    requires v'.claimed == s.invokers[i].claimed && v'.call.key.ToolCallKey? && CallsInv(maxAttempts, Put(s, i, v'))
    requires v'.claimed ==> PlaceFits(v'.place, LastRun(s.log, v'.call))
                            && (Holds(v'.place) ==> Holds(s.invokers[i].place))
    ensures ResultsInv(Put(s, i, v'))
  {
    hide CallsInv, PlaceFits;
    assert StoredFits(s.core.db.tables, s.log, v'.call);
    OthersFit(maxAttempts, s, Put(s, i, v'), i, v'.call);
  }

  /** A step that also writes the tables, but neither result nor log. */
  lemma TableStep(maxAttempts: nat, s: ToolState, b: Tables, i: InvokerId, v': Invoker)
    requires CallsInv(maxAttempts, s) && ResultsInv(s) && i in s.invokers && v'.call == s.invokers[i].call
    requires (s.invokers[i].claimed ==> v'.claimed) && v'.call.key.ToolCallKey?
    requires OnlyCall(s.core.db.tables, b, v'.call) && CallsInv(maxAttempts, Put(WithTables(s, b), i, v'))
    requires ResultRef(v'.call) in b.items <==> ResultRef(v'.call) in s.core.db.tables.items
    requires StoredFits(b, s.log, v'.call)
    requires v'.claimed ==> PlaceFits(v'.place, LastRun(s.log, v'.call))
                            && (Holds(v'.place) ==> ResultRef(v'.call) !in b.items)
    ensures ResultsInv(Put(WithTables(s, b), i, v'))
  {
    hide CallsInv, PlaceFits, StoredFits;
    OthersFit(maxAttempts, s, Put(WithTables(s, b), i, v'), i, v'.call);
  }

  lemma Current(s: ToolState, i: InvokerId)
    requires ResultsInv(s) && i in s.invokers && s.invokers[i].claimed
    ensures PlaceFits(s.invokers[i].place, LastRun(s.log, s.invokers[i].call))
    ensures Holds(s.invokers[i].place) ==> ResultRef(s.invokers[i].call) !in s.core.db.tables.items
  {
  }

  lemma StoredNow(s: ToolState, call: ItemRef)
    requires ResultsInv(s)
    ensures StoredFits(s.core.db.tables, s.log, call)
  {
  }

  lemma PrepareFits(maxAttempts: nat, s: ToolState, i: InvokerId, sawRunning: bool)
    requires CallsInv(maxAttempts, s) && ResultsInv(s) && i in s.invokers && s.invokers[i].place.Arriving?
    requires s.invokers[i].call.key.ToolCallKey?
    ensures ResultsInv(PrepareStep(s, i, s.invokers[i], sawRunning))
  {
    hide CallsInv, ResultsInv, StoredFits, InvokerOk;
    var v := s.invokers[i];
    PrepareMoves(maxAttempts, s, i, sawRunning);
    CurrentOk(maxAttempts, s, i);
    StoredNow(s, v.call);
    var prepared := Prepare(s.core.db.tables, v.call, v.content, v.origin);
    if sawRunning && prepared.Prepared? {
      PreparedKeeps(s.core.db.tables, v.call, v.content, v.origin, s.log);
      PreparedStored(s.core.db.tables, v, s.log);
      ResultHasExec(maxAttempts, s, v.call);
      if v.claimed { Current(s, i); }
      TableStep(maxAttempts, s, prepared.tables, i, PrepareStep(s, i, v, sawRunning).invokers[i]);
    } else {
      PlaceStep(maxAttempts, s, i, PrepareStep(s, i, v, sawRunning).invokers[i]);
    }
  }

  lemma PreparedStored(a: Tables, v: Invoker, log: seq<Execution>)
    requires v.call.key.ToolCallKey? && Prepare(a, v.call, v.content, v.origin).Prepared? && StoredFits(a, log, v.call)
    ensures var b := Prepare(a, v.call, v.content, v.origin).tables;
            && (ResultRef(v.call) in b.items <==> ResultRef(v.call) in a.items)
            && (v.call in a.execs ==> StoredFits(b, log, v.call))
            && (ResultRef(v.call) !in a.items ==> StoredFits(b, log, v.call))
  {
  }

  /** A result is stored only for a call that was claimed, and a claimed call has its execution. */
  lemma ResultHasExec(maxAttempts: nat, s: ToolState, call: ItemRef)
    requires CallsInv(maxAttempts, s)
    ensures ResultRef(call) in s.core.db.tables.items ==> call in s.core.db.tables.execs
  {
    if i :| Claimer(s.invokers, i, call) {
      assert InvokerOk(maxAttempts, s.core.db.tables, s.log, s.invokers[i]);
    } else {
      assert Untouched(s.core.db.tables, s.log, call);
    }
  }

  lemma ClaimFits(maxAttempts: nat, s: ToolState, i: InvokerId)
    requires CallsInv(maxAttempts, s) && ResultsInv(s) && i in s.invokers && s.invokers[i].place.Waiting?
    requires s.invokers[i].call.key.ToolCallKey?
    ensures ResultsInv(ToolProtocol.ClaimStep(s, i, s.invokers[i]))
  {
    hide CallsInv, StoredFits, InvokerOk;
    var v := s.invokers[i];
    var a := s.core.db.tables;
    ClaimMoves(maxAttempts, s, i);
    CurrentOk(maxAttempts, s, i);
    StoredNow(s, v.call);
    if Claimable(a, v.call) {
      PendingIsUnclaimed(maxAttempts, s, v.call);
      var b := Turns.Claim(a, v.call);
      ClaimedStored(a, v.call, s.log);
      TableStep(maxAttempts, s, b, i, v.(place := Deciding, claimed := true));
    } else {
      PlaceStep(maxAttempts, s, i, v.(place := Done(StoredResult(a, v.call))));
    }
  }

  lemma ClaimedStored(a: Tables, call: ItemRef, log: seq<Execution>)
    requires Claimable(a, call) && ResultRef(call) !in a.items
    ensures StoredFits(Turns.Claim(a, call), log, call) && OnlyCall(a, Turns.Claim(a, call), call)
    ensures Turns.Claim(a, call).items == a.items
  {
  }

  lemma AttemptFits(maxAttempts: nat, s: ToolState, i: InvokerId, timeLeft: bool)
    requires CallsInv(maxAttempts, s) && ResultsInv(s) && i in s.invokers && s.invokers[i].place.Looping?
    requires s.invokers[i].call.key.ToolCallKey?
    ensures ResultsInv(AttemptStep(maxAttempts, s, i, s.invokers[i], timeLeft))
  {
    hide CallsInv, ResultsInv, StoredFits;
    var v := s.invokers[i];
    var a := s.core.db.tables;
    AttemptMoves(maxAttempts, s, i, timeLeft);
    CurrentOk(maxAttempts, s, i);
    Current(s, i);
    if v.place.attempt < maxAttempts && timeLeft && Attemptable(a, v.call) {
      var b := IncrementAttempt(a, v.call);
      AttemptedStored(a, v.call, s.log);
      TableStep(maxAttempts, s, b, i, v.(place := Executing(v.place.attempt), owed := true));
    } else {
      PlaceStep(maxAttempts, s, i, AttemptStep(maxAttempts, s, i, v, timeLeft).invokers[i]);
    }
  }

  lemma AttemptedStored(a: Tables, call: ItemRef, log: seq<Execution>)
    requires ResultRef(call) !in a.items
    ensures StoredFits(IncrementAttempt(a, call), log, call) && OnlyCall(a, IncrementAttempt(a, call), call)
    ensures IncrementAttempt(a, call).items == a.items
  {
  }

  lemma ExecuteFits(maxAttempts: nat, s: ToolState, i: InvokerId, outcome: Outcome)
    requires CallsInv(maxAttempts, s) && ResultsInv(s) && i in s.invokers && s.invokers[i].place.Executing?
    requires s.invokers[i].call.key.ToolCallKey?
    ensures ResultsInv(ExecuteStep(maxAttempts, s, i, s.invokers[i], outcome))
  {
    hide CallsInv, ResultsInv;
    var v := s.invokers[i];
    var x := Execution(i, v.call, outcome);
    ExecuteMoves(maxAttempts, s, i, outcome);
    CurrentOk(maxAttempts, s, i);
    Current(s, i);
    forall c: ItemRef ensures LastRun(s.log + [x], c) == if c == v.call then Some(outcome) else LastRun(s.log, c) {
      LastRunAppend(s.log, x, c);
    }
    var t := ExecuteStep(maxAttempts, s, i, v, outcome);
    assert t.log == s.log + [x] && t.core == s.core;
    OthersFit(maxAttempts, s, t, i, v.call);
  }

  lemma FinishFits(maxAttempts: nat, s: ToolState, i: InvokerId)
    requires CallsInv(maxAttempts, s) && ResultsInv(s) && i in s.invokers && s.invokers[i].place.Ending?
    requires s.invokers[i].call.key.ToolCallKey?
    ensures ResultsInv(FinishStep(s, i, s.invokers[i]))
  {
    hide CallsInv, ResultsInv, InvokerOk;
    var v := s.invokers[i];
    var a := s.core.db.tables;
    FinishMoves(maxAttempts, s, i);
    EndingIsClaimed(maxAttempts, s, i);
    Current(s, i);
    var finished := Finish(a, v.call, v.place.result, v.place.status);
    if finished.Stored? {
      FinishedCall(a, v.call, v.place.result, v.place.status);
      FinishedStored(a, v.call, v.place.result, v.place.status, s.log);
      var t := FinishStep(s, i, v);
      OthersFit(maxAttempts, s, t, i, v.call);
    } else {
      PlaceStep(maxAttempts, s, i, FinishStep(s, i, v).invokers[i]);
    }
  }

  lemma EndingIsClaimed(maxAttempts: nat, s: ToolState, i: InvokerId)
    requires CallsInv(maxAttempts, s) && i in s.invokers && s.invokers[i].place.Ending?
    ensures s.invokers[i].claimed && !Live(s.invokers[i].place.status)
  {
    CurrentOk(maxAttempts, s, i);
  }

  lemma FinishedStored(a: Tables, call: ItemRef, result: string, status: ExecStatus, log: seq<Execution>)
    requires Finish(a, call, result, status).Stored? && Told(LastRun(log, call), result, status)
    ensures StoredFits(Finish(a, call, result, status).tables, log, call)
  {
    hide Told;
  }

  lemma InvokerStepFits(maxAttempts: nat, s: ToolState, i: InvokerId, e: ToolEvent)
    requires CallsInv(maxAttempts, s) && ResultsInv(s) && i in s.invokers
    ensures ResultsInv(InvokerStep(maxAttempts, s, i, s.invokers[i], e))
  {
    hide CallsInv, ResultsInv, PrepareStep, ToolProtocol.ClaimStep, AttemptStep, ExecuteStep, FinishStep, InvokerOk;
    var v := s.invokers[i];
    InvokerStepKeepsCalls(maxAttempts, s, i, e);
    if v.call.turn !in ApiTurns(s.core.db.rows) && v.call.key.ToolCallKey? {
      match e
      case PrepareCall(_, sawRunning) => if v.place.Arriving? { PrepareFits(maxAttempts, s, i, sawRunning); }
      case ClaimCall(_) => if v.place.Waiting? { ClaimFits(maxAttempts, s, i); }
      case Decide(_, allowed, refusal, blocked) =>
        if v.place.Deciding? {
          if v.claimed { Current(s, i); }
          PlaceStep(maxAttempts, s, i,
            v.(place := if allowed then Looping(0) else Ending(refusal, if blocked then ExecBlocked else ExecFailed)));
        }
      case BeginAttempt(_, timeLeft) => if v.place.Looping? { AttemptFits(maxAttempts, s, i, timeLeft); }
      case Execute(_, outcome) => if v.place.Executing? { ExecuteFits(maxAttempts, s, i, outcome); }
      case FinishCall(_) => if v.place.Ending? { FinishFits(maxAttempts, s, i); }
      case Die(_) => PlaceStep(maxAttempts, s, i, v.(place := Dead));
      case _ =>
    }
  }

  // ---------- Every step and every run ----------

  lemma OtherFits(s: ToolState, t: ToolState)
    requires ResultsInv(s) && t.invokers == s.invokers && t.log == s.log
    requires Evolves(s.core.db.tables, t.core.db.tables) && ResultsMatch(s.core.db.tables)
    ensures ResultsInv(t)
  {
    hide Told, PlaceFits;
    forall call: ItemRef ensures StoredFits(t.core.db.tables, t.log, call) {
      assert StoredFits(s.core.db.tables, s.log, call);
      assert ResultRef(call).key.ToolResultKey? && ItemRef(ResultRef(call).turn, ResultRef(call).key.call) == call;
    }
  }

  lemma TablesOf(cfg: Config, s: State)
    requires Inv(cfg, s)
    ensures ResultsMatch(s.db.tables)
  {
    hide ProtocolInv, GaplessTurns, GaplessItems, NoOrphanExecs, ResultsMatch, ApprovalInvariant.RowsOk,
      ApprovalInvariant.TurnsCoupled, ApprovalInvariant.ResultItems, ApprovalInvariant.OneChat,
      ApprovalInvariant.PostsMatch, ApprovalInvariant.NoDuplicates;
  }

  lemma ArrivalFits(s: ToolState, i: InvokerId, v: Invoker)
    requires ResultsInv(s) && i !in s.invokers && !v.claimed
    ensures ResultsInv(Put(s, i, v))
  {
    hide StoredFits, PlaceFits;
    var t := Put(s, i, v);
    forall c: ItemRef | forall j :: !Claimer(t.invokers, j, c) ensures LastRun(t.log, c).None? {
      forall j | Claimer(s.invokers, j, c) ensures Claimer(t.invokers, j, c) {}
    }
  }

  lemma ToolStepFits(cfg: Config, maxAttempts: nat, s: ToolState, e: ToolEvent)
    requires ToolInv(cfg, maxAttempts, s) && ResultsInv(s)
    ensures ResultsInv(ToolStep(cfg, maxAttempts, s, e))
  {
    hide Inv, CallsInv, ResultsInv, InvokerStep, Step, Evolves;
    match e
    case Other(event) =>
      if !IsToolEvent(event) {
        StepEvolves(cfg, s.core, event);
        TablesOf(cfg, s.core);
        OtherFits(s, s.(core := Step(cfg, s.core, event)));
      }
    case Arrive(i, call, content, origin) =>
      if i !in s.invokers { ArrivalFits(s, i, Invoker(call, content, origin, Arriving, false, false)); }
    case _ => if e.i in s.invokers { InvokerStepFits(maxAttempts, s, e.i, e); }
  }

  lemma {:induction false} ToolRunFits(cfg: Config, maxAttempts: nat, s: ToolState, events: seq<ToolEvent>)
    requires ToolInv(cfg, maxAttempts, s) && ResultsInv(s)
    ensures ResultsInv(ToolRun(cfg, maxAttempts, s, events))
    decreases |events|
  {
    hide ToolInv, ResultsInv, ToolStep;
    if events != [] {
      ToolStepKeepsInv(cfg, maxAttempts, s, events[0]);
      ToolStepFits(cfg, maxAttempts, s, events[0]);
      ToolRunFits(cfg, maxAttempts, ToolStep(cfg, maxAttempts, s, events[0]), events[1..]);
    }
  }

  /**
   In every run, the stored result and status of a call are what its last handler run said: the data of a success
   as completed, the code of a permanent error as failed or blocked, an exhausted retry as failed, an ended turn as
   cancelled; and without a run it is not completed.
   */
  lemma ResultsAreWhatHandlersSaid(cfg: Config, maxAttempts: nat, events: seq<ToolEvent>, call: ItemRef)
    requires var a := ToolRun(cfg, maxAttempts, START, events).core.db.tables;
             ResultRef(call) in a.items && call in a.execs
    ensures var s := ToolRun(cfg, maxAttempts, START, events);
            var item, status := s.core.db.tables.items[ResultRef(call)], s.core.db.tables.execs[call].status;
            match LastRun(s.log, call)
            case None => status != ExecCompleted
            case Some(Success(data)) => item.content == data && status == ExecCompleted
            case Some(Permanent(error, blocked)) =>
              item.content == error && status == (if blocked then ExecBlocked else ExecFailed)
            case Some(Transient(_)) =>
              || (item.content == "TOOL_RETRY_EXHAUSTED" && status == ExecFailed)
              || (item.content == "TOOL_TURN_ENDED" && status == ExecCancelled)
            case Some(Raised) => false
  {
    hide ToolInv;
    ReachedToolInv(cfg, maxAttempts, []);
    assert ResultsInv(START);
    ToolRunFits(cfg, maxAttempts, START, events);
    assert StoredFits(ToolRun(cfg, maxAttempts, START, events).core.db.tables,
                      ToolRun(cfg, maxAttempts, START, events).log, call);
  }
}

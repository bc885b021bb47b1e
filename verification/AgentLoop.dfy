/**
 The agent loops of one turn under one shared budget: the parent loop, guardrail recovery, tool calls
 and the nested loops of child agents. What the model, the tools, the clock and the stores answer is
 arbitrary. Termination, the ledger and the cost limit rest on the budget alone.
 */
module AgentLoop {
  import opened Options
  import opened ChildTurns

  type Time = int
  type ItemId = nat
  type TurnId = nat

  class TurnBudget {
    const startedAt: Time
    const timeLimit: int
    const maxSteps: nat
    const maxCost: real
    var steps: nat
    var cost: real

    constructor (startedAt: Time, timeLimit: int, maxSteps: nat, maxCost: real)
      ensures this.startedAt == startedAt && this.timeLimit == timeLimit && this.maxSteps == maxSteps
              && this.maxCost == maxCost
      ensures steps == 0 && cost == 0.0
    {
      this.startedAt, this.timeLimit, this.maxSteps, this.maxCost := startedAt, timeLimit, maxSteps, maxCost;
      steps, cost := 0, 0.0;
    }

    /** The first exceeded limit, in the order time, steps, cost. */
    function Exceeded(now: Time): Option<RunError>
      reads this
    {
      if now - startedAt >= timeLimit then Some(TimeLimit)
      else if steps >= maxSteps then Some(StepLimit)
      else if cost >= maxCost then Some(CostLimit)
      else None
    }

    method Check(now: Time) returns (error: Option<RunError>)
      ensures error == Exceeded(now)
    {
      if now - startedAt >= timeLimit { return Some(TimeLimit); }
      if steps >= maxSteps { return Some(StepLimit); }
      if cost >= maxCost { return Some(CostLimit); }
      return None;
    }

    method ConsumeStep(now: Time) returns (error: Option<RunError>)
      modifies this`steps
      ensures error == old(Exceeded(now))
      ensures error == Some(TimeLimit) <==> now - startedAt >= timeLimit
      ensures error == Some(StepLimit) <==> now - startedAt < timeLimit && old(steps) >= maxSteps
      ensures error == Some(CostLimit) <==> now - startedAt < timeLimit && old(steps) < maxSteps && cost >= maxCost
      ensures error.Some? ==> BudgetError(error.value)
      ensures steps == old(steps) + (if error.None? then 1 else 0)
      ensures error.None? ==> steps <= maxSteps && cost < maxCost
    {
      error := Check(now);
      if error.None? { steps := steps + 1; }
    }

    method AddCost(amount: real) returns (error: Option<RunError>)
      modifies this`cost
      ensures cost == old(cost) + amount
      ensures error == if cost > maxCost then Some(CostLimit) else None
    {
      cost := cost + amount;
      error := if cost > maxCost then Some(CostLimit) else None;
    }
  }

  datatype Decision = Final(content: string) | CallTool(name: ToolName) | Neither

  datatype ToolName = RunPlanner | RunCreator | TerminalTool | OtherTool

  predicate RunsChild(name: ToolName) { name.RunPlanner? || name.RunCreator? }

  /** What the model client does with one request. */
  datatype ModelOutcome =
    | Answered(decision: Decision, cost: real)
    | GuardrailHit(targets: seq<ItemId>, known: Option<real>)
    | CallError(known: Option<real>)
    | CallCancelled(known: Option<real>)

  /** The active untrusted items of a context; all that guardrail recovery looks at. */
  type Untrusted = set<ItemId>

  datatype Decided = Decided(decision: Decision, context: Untrusted) | Refused(error: RunError)

  datatype Built = Rebuilt(context: Untrusted) | NotBuilt(error: RunError)

  datatype RunResult = Reply(content: string) | Terminal | RunFailed(error: RunError)

  /** One parent turn and the turns of its children. */
  class TurnRun {
    const budget: TurnBudget
    const maxChildren: nat
    var modelCalls: nat
    var toolCalls: nat
    var compactions: nat
    var runCalls: nat               // tool-call items of this turn that ask for a child
    var children: nat
    var nextTurn: TurnId
    var running: set<TurnId>        // child turns that have not ended
    var spent: real                 // cost of all model calls on record
    var quarantined: set<ItemId>
    var said: Option<ModelOutcome>  // what the last model call came to
    var did: Option<ToolOutcome>    // what the last tool call came to
    var logs: map<TurnId, seq<Entry>>   // the transactions on each child turn

    ghost predicate Valid()
      reads this, budget
    {
      && modelCalls + toolCalls + compactions == budget.steps <= budget.maxSteps
      && children <= runCalls && children <= maxChildren
      && budget.cost == spent
      && (forall t | t in logs :: t < nextTurn)
      && (forall t :: t in running <==> t in logs && Alive(logs[t]))
    }

    /**
     The child turns of before are as they were, and every later one is running iff it was left running:
     created without a report, or without any end that committed.
     */
    twostate predicate ChildrenSettled()
      reads this
    {
      && old(logs.Keys) <= logs.Keys && (forall t | t in old(logs) :: logs[t] == old(logs)[t])
      && (forall t | t in old(logs) :: t in running <==> t in old(running))
      && (forall t | t in logs && t !in old(logs) ::
            (t in running <==> LeftRunning(logs[t])) && exists answer :: IsCall(logs[t], answer))
    }

    /** Everything that costs a step: each entry was paid for right before it happened. */
    ghost function Ledger(): nat
      reads this
    {
      modelCalls + toolCalls + compactions
    }

    constructor (budget: TurnBudget, maxChildren: nat)
      requires budget.steps == 0 && budget.cost == 0.0
      ensures Valid() && this.budget == budget && this.maxChildren == maxChildren && running == {}
      ensures Ledger() == 0 && children == 0 && logs == map[]
    {
      this.budget, this.maxChildren := budget, maxChildren;
      modelCalls, toolCalls, compactions, runCalls, children, nextTurn, running := 0, 0, 0, 0, 0, 0, {};
      spent, quarantined, logs := 0.0, {}, map[];
      said, did := None, None;
    }

    /** `AgentContextBuilder.build`; only the parent's context is ever compacted, for one step. */
    method BuildContext(forChild: bool) returns (built: Built)
      requires Valid()
      modifies this`compactions, budget`steps
      ensures Valid() && budget.steps >= old(budget.steps)
      ensures built.Rebuilt? ==> built.context !! quarantined
      ensures built.NotBuilt? ==> BudgetError(built.error) || built.error.CompactionFailed? || built.error.Cancelled?
    {
      var tooLarge: bool := *;
      if tooLarge && !forChild {
        var now: Time := *;
        var error := budget.ConsumeStep(now);
        if error.Some? { return NotBuilt(error.value); }
        compactions := compactions + 1;
      }
      var fails, cancelled: bool := *, *;
      if cancelled { return NotBuilt(Cancelled); }
      var context: Untrusted := *;
      return if fails then NotBuilt(CompactionFailed) else Rebuilt(context - quarantined);
    }

    /** `_recover_guardrail`: None ends the run as blocked. */
    method RecoverGuardrail(forChild: bool, context: Untrusted, targets: seq<ItemId>, recovered: set<ItemId>)
      returns (built: Option<Built>, recovered': set<ItemId>)
      requires Valid()
      modifies this`compactions, this`quarantined, budget`steps
      ensures Valid() && budget.steps >= old(budget.steps) && old(quarantined) <= quarantined
      ensures recovered <= recovered' && |recovered'| <= |recovered| + 1
      ensures recovered != {} ==> recovered' == recovered && built.None?
      ensures built.Some? ==> recovered == {} && |targets| == 1 && targets[0] in context
      ensures built.Some? && built.value.NotBuilt? ==> !built.value.error.TurnBlocked?
      ensures built.Some? && built.value.Rebuilt? ==>
                recovered == {} && |targets| == 1 && targets[0] in context && recovered' == {targets[0]}
                && targets[0] in quarantined && built.value.context !! quarantined
    {
      recovered' := recovered;
      if |targets| != 1 || recovered != {} || targets[0] !in context { return None, recovered'; }
      recovered' := recovered + {targets[0]};
      var stillRunning: bool := *;
      if !stillRunning { return Some(NotBuilt(TurnInterrupted)), recovered'; }
      if targets[0] in quarantined { return None, recovered'; }
      quarantined := quarantined + {targets[0]};
      var b := BuildContext(forChild);
      return Some(b), recovered';
    }

    /** The cost of a model call that failed, where it is known. */
    method Charge(known: Option<real>) returns (error: Option<RunError>)
      modifies this`spent, budget`cost
      ensures spent == old(spent) + (if known.Some? then known.value else 0.0)
      ensures budget.cost == old(budget.cost) + (if known.Some? then known.value else 0.0)
      ensures error == if known.Some? && budget.cost > budget.maxCost then Some(CostLimit) else None
    {
      if known.None? { return None; }
      spent := spent + known.value;
      error := budget.AddCost(known.value);
    }

    /** `_decision`: one model call, and one more after a recovered guardrail hit. */
    method Decide(forChild: bool, context: Untrusted, recovered: set<ItemId>)
      returns (r: Decided, recovered': set<ItemId>, rebuilds: nat)
      requires Valid() && |recovered| <= 1
      modifies this`modelCalls, this`compactions, this`spent, this`quarantined, this`said, budget
      decreases budget.maxSteps - budget.steps
      ensures Valid() && budget.steps >= old(budget.steps)
      ensures r.Decided? ==> budget.steps > old(budget.steps) && budget.cost <= budget.maxCost
      ensures |recovered'| <= 1 && rebuilds + |recovered| <= |recovered'|
      ensures r.Decided? ==> said.Some? && said.value.Answered? && said.value.decision == r.decision
      ensures said.None? ==> r.Refused? && BudgetError(r.error)
      ensures r.Refused? && said.Some? ==>
                match said.value
                case Answered(_, _) => r.error == ExecutionFailed || r.error == CostLimit
                case CallError(_) => r.error == ExecutionFailed || r.error == CostLimit
                case CallCancelled(_) => r.error == Cancelled || r.error == CostLimit
                case GuardrailHit(targets, _) =>
                  recovered != {} || |targets| != 1 ==> r.error == RunError.TurnBlocked || r.error == CostLimit
      ensures r == Refused(RunError.TurnBlocked) ==> said.Some? && said.value.GuardrailHit?
    {
      hide Alive;
      recovered', rebuilds, said := recovered, 0, None;
      var now: Time := *;
      var error := budget.ConsumeStep(now);
      if error.Some? { return Refused(error.value), recovered', 0; }
      modelCalls := modelCalls + 1;
      var outcome: ModelOutcome := *;
      said := Some(outcome);
      match outcome
      case GuardrailHit(targets, known) =>
        error := Charge(known);
        if error.Some? { return Refused(error.value), recovered', 0; }
        var built, marked := RecoverGuardrail(forChild, context, targets, recovered);
        if built.None? { return Refused(TurnBlocked), marked, 0; }
        if built.value.NotBuilt? { return Refused(built.value.error), marked, 0; }
        var more: nat;
        r, recovered', more := Decide(forChild, built.value.context, marked);
        rebuilds := 1 + more;
      case CallError(known) =>
        error := Charge(known);
        if error.Some? { return Refused(error.value), recovered', 0; }
        return Refused(ExecutionFailed), recovered', 0;
      case CallCancelled(known) =>
        error := Charge(known);
        if error.Some? { return Refused(error.value), recovered', 0; }
        return Refused(Cancelled), recovered', 0;
      case Answered(decision, cost) =>
        var saved: bool := *;
        if !saved { return Refused(ExecutionFailed), recovered', 0; }
        spent := spent + cost;
        error := budget.AddCost(cost);
        if error.Some? { return Refused(error.value), recovered', 0; }
        return Decided(decision, context), recovered', 0;
    }

    /** `ToolExecutor.invoke`, with the handlers that run a child agent. */
    method Invoke(forChild: bool, name: ToolName) returns (r: ToolOutcome)
      requires Valid()
      modifies this, budget
      decreases budget.maxSteps - budget.steps, 0
      ensures Valid() && budget.steps >= old(budget.steps) && nextTurn >= old(nextTurn)
      ensures children >= old(children) && ChildrenSettled()
      ensures forChild ==> running == old(running) && logs == old(logs)
      ensures !RunsChild(name) ==> said == old(said)
      ensures r.Returned? ==> did == Some(r)
      ensures r.Raised? ==> BudgetError(r.error) || r.error.Cancelled? || r.error.ExecutionFailed?
    {
      var now: Time := *;
      var error := budget.ConsumeStep(now);
      if error.Some? { return Raised(error.value); }
      toolCalls := toolCalls + 1;
      var prepared, cancelled, broken: bool := *, *, *;
      if cancelled { return Raised(Cancelled); }
      if broken { return Raised(ExecutionFailed); }
      if !prepared {
        did := Some(Returned(false));
        return Returned(false);
      }
      if !forChild && RunsChild(name) {
        runCalls := runCalls + 1;
        var allowed: bool := *;
        if !allowed {
          did := Some(Returned(false));
          return Returned(false);
        }
        r := RunChildTool();
        // The handler's own timeout ends the tool call; the turn's timeout ends the run.
        var ownTimeout: bool := *;
        if r == Raised(Cancelled) && ownTimeout { r := Returned(false); }
        if r.Raised? { return; }
      } else {
        var success: bool := *;
        r := Returned(success);
      }
      var stored := Transact();
      if !stored.Done? { r := Raised(if stored.fault.CutOff? then Cancelled else ExecutionFailed); }
      did := Some(r);
    }

    /**
     `_create_child` and `_run_child`. At most one child turn comes of it; it is running afterwards iff it was
     left running, and then the answer is a failed tool call or the cancellation.
     */
    method RunChildTool() returns (r: ToolOutcome)
      requires Valid() && children < runCalls
      modifies this, budget
      decreases budget.maxSteps - budget.steps, 4
      ensures Valid() && budget.steps >= old(budget.steps) && nextTurn >= old(nextTurn)
      ensures children >= old(children) && ChildrenSettled()
      ensures logs == old(logs) || exists log :: logs == old(logs)[old(nextTurn) := log] && IsCall(log, r)
      ensures running - old(running) != {} ==> r == Returned(false) || r == Raised(Cancelled)
      ensures r.Raised? ==> BudgetError(r.error) || r.error.Cancelled?
    {
      hide Alive, LeftRunning, Call, IsCall;
      var timeLeft, requestFound: bool := *, *;
      if !timeLeft || !requestFound { return Returned(false); }
      if runCalls > maxChildren { return Returned(false); }
      var turn := nextTurn;
      nextTurn := nextTurn + 1;
      var created := Transact();
      if Commits(created) { children := children + 1; }
      Log(turn, Created(created));
      if created.Done? {
        r := RunChildInner(turn);
      } else {
        r := Escaped(created.fault);
        NeverStarted(created);
        assert logs[turn] == [Created(created)];
      }
      CallFacts(logs[turn], r);
    }

    /** However a transaction ends. */
    method Transact() returns (tx: Tx)
      ensures tx.Done? || tx.Unreported? || tx.RolledBack?
    {
      var which: int, fault: Fault := *, *;
      return if which == 0 then Done else if which == 1 then Unreported(fault) else RolledBack(fault);
    }

    /** One transaction on a child turn, or somebody else's. */
    method Log(turn: TurnId, e: Entry)
      requires turn < nextTurn && (forall t | t in logs :: t < nextTurn)
      requires forall t :: t in running <==> t in logs && Alive(logs[t])
      modifies this`running, this`logs
      ensures logs == old(logs)[turn := (if turn in old(logs) then old(logs)[turn] else []) + [e]]
      ensures forall t :: t in running <==> t in logs && Alive(logs[t])
      ensures forall t | t != turn :: t in running <==> t in old(running)
    {
      var log := if turn in logs then logs[turn] else [];
      AliveAppend(log, e);
      assert !Alive([]);
      match e {
        case Created(tx) => if Commits(tx) { running := running + {turn}; }
        case Recovered => running := running - {turn};
        case Completed(tx) => if Commits(tx) { running := running - {turn}; }
        case Failed(tx) => if Commits(tx) { running := running - {turn}; }
      }
      logs := logs[turn := log + [e]];
    }

    /** The log of the turn got longer by these entries, and nothing else changed in the logs. */
    twostate predicate Logged(turn: TurnId, more: seq<Entry>)
      reads this
    {
      turn in old(logs) && logs == old(logs)[turn := old(logs)[turn] + more]
    }

    /** The transaction of `_fail_child`. */
    method FailChild(turn: TurnId) returns (tx: Tx)
      requires Valid() && turn in logs
      modifies this`running, this`logs
      ensures Valid() && Logged(turn, [Failed(tx)])
    {
      hide Alive;
      tx := Transact();
      Log(turn, Failed(tx));
    }

    /** What `_run_child` does about a cancellation. */
    method CancelChild(turn: TurnId) returns (r: ToolOutcome, ghost again: Tx)
      requires Valid() && turn in logs
      modifies this`running, this`logs
      ensures Valid() && Logged(turn, Shielded(again).log) && r == Shielded(again).answer
    {
      hide Alive;
      var tx := FailChild(turn);
      again := tx;
      r := if !tx.Done? && tx.fault.DatabaseError? then Returned(false) else Raised(Cancelled);
    }

    /** `_fail_child`, and the answer after it; a cancellation meanwhile is answered under the shield. */
    method FailAndAnswer(turn: TurnId, answer: ToolOutcome) returns (r: ToolOutcome, ghost failed: Tx, ghost again: Tx)
      requires Valid() && turn in logs
      modifies this`running, this`logs
      ensures Valid() && Logged(turn, FailThen(answer, failed, again).log)
      ensures r == FailThen(answer, failed, again).answer
    {
      hide Alive;
      var tx := FailChild(turn);
      failed, again := tx, Done;
      if tx.Done? {
        r := answer;
      } else if tx.fault.DatabaseError? {
        r := Returned(false);
      } else {
        ghost var log := logs[turn];
        r, again := CancelChild(turn);
        assert log + Shielded(again).log == old(logs[turn]) + After(Failed(tx), Shielded(again)).log;
      }
    }

    /** The last transaction of a child that gave its output. */
    method CompleteChild(turn: TurnId, recovered: bool)
      returns (r: ToolOutcome, ghost completed: Tx, ghost failed: Tx, ghost again: Tx)
      requires Valid() && turn in logs
      modifies this`running, this`logs
      ensures Valid() && Logged(turn, CompleteThen(recovered, completed, failed, again).log)
      ensures r == CompleteThen(recovered, completed, failed, again).answer
    {
      hide Alive, FailThen;
      var tx := Transact();
      completed, failed, again := tx, Done, Done;
      Log(turn, Completed(tx));
      ghost var log := logs[turn];
      if tx.Done? && recovered {
        r, failed, again := FailAndAnswer(turn, Returned(false));
        ghost var c := FailThen(Returned(false), failed, again);
        assert log + c.log == old(logs[turn]) + After(Completed(tx), c).log;
      } else if tx.Done? {
        r := Returned(true);
      } else if tx.fault.DatabaseError? {
        r := Returned(false);
      } else {
        r, again := CancelChild(turn);
        assert log + Shielded(again).log == old(logs[turn]) + After(Completed(tx), Shielded(again)).log;
      }
    }

    /** What the body came to decides how the child turn is ended. */
    method EndChild(turn: TurnId, recovered: bool, body: Body) returns (r: ToolOutcome, ghost w: World)
      requires Valid() && turn in logs
      modifies this`running, this`logs
      ensures Valid() && w.created.Done? && w.recovered == recovered && w.body == body
      ensures Logged(turn, ChildTurns.RunChild(w).log) && r == ChildTurns.RunChild(w).answer
    {
      hide Alive, FailThen, CompleteThen;
      ghost var completed, failed, again: Tx := Done, Done, Done;
      match body {
        case Broken(answer) => r, failed, again := FailAndAnswer(turn, answer);
        case CutShort => r, again := CancelChild(turn);
        case Output => r, completed, failed, again := CompleteChild(turn, recovered);
      }
      w := World(Done, recovered, body, completed, failed, again);
    }

    /** `_run_child_inner`, and `_run_child` when it is cancelled. */
    method RunChildInner(turn: TurnId) returns (r: ToolOutcome)
      requires Valid() && turn in logs && logs[turn] == [Created(Done)]
      modifies this, budget
      decreases budget.maxSteps - budget.steps, 3
      ensures Valid() && budget.steps >= old(budget.steps) && nextTurn >= old(nextTurn)
      ensures turn in logs && logs == old(logs)[turn := logs[turn]] && IsCall(logs[turn], r)
      ensures children >= old(children)
      ensures r == Returned(true) ==> budget.cost <= budget.maxCost
    {
      hide Alive, FailThen, ChildTurns.RunChild;
      var body := RunBody();
      var recovered: bool := *;
      if recovered { Log(turn, Recovered); }
      ghost var opening := logs[turn];
      ghost var w;
      r, w := EndChild(turn, recovered, body);
      assert logs[turn] == opening + ChildTurns.RunChild(w).log;
      assert Call(w) == Course(logs[turn], r);
      if r == Returned(true) { OnlyOutputSucceeds(w); }
    }

    /** Context, child loop and validation of the output. */
    method RunBody() returns (body: Body)
      requires Valid()
      modifies this, budget
      decreases budget.maxSteps - budget.steps, 2
      ensures Valid() && budget.steps >= old(budget.steps) && nextTurn >= old(nextTurn)
      ensures running == old(running) && logs == old(logs) && children >= old(children)
      ensures body.Broken? ==> body.answer == Returned(false) || OutOfBudget(body.answer)
      ensures body.Output? ==> budget.cost <= budget.maxCost
    {
      var timeLeft: bool := *;
      if !timeLeft { return Broken(Returned(false)); }
      var built := BuildContext(true);
      if built.NotBuilt? { return if built.error.Cancelled? then CutShort else Broken(Returned(false)); }
      timeLeft := *;
      if !timeLeft { return Broken(Returned(false)); }
      var result := RunChild(built.context);
      if result.RunFailed? {
        if result.error.Cancelled? { return CutShort; }
        return Broken(if BudgetError(result.error) then Raised(result.error) else Returned(false));
      }
      var valid: bool := *;
      return if valid then Output else Broken(Returned(false));
    }

    /** `run_child`: decide until the structured final answer. */
    method RunChild(first: Untrusted) returns (r: RunResult)
      requires Valid()
      modifies this, budget
      decreases budget.maxSteps - budget.steps, 1
      ensures Valid() && budget.steps >= old(budget.steps) && running == old(running) && nextTurn >= old(nextTurn)
      ensures children >= old(children) && logs == old(logs)
      ensures !r.Terminal? && (r.Reply? ==> budget.cost <= budget.maxCost)
      ensures r.Reply? ==> said.Some? && said.value.Answered? && said.value.decision == Final(r.content)
    {
      var context, recovered, rebuilds := first, {}, 0;
      while true
        invariant Valid() && budget.steps >= old(budget.steps) && running == old(running) && nextTurn >= old(nextTurn)
        invariant children >= old(children) && logs == old(logs) && |recovered| <= 1 && rebuilds <= |recovered|
        decreases budget.maxSteps - budget.steps
      {
        var d, marked, more := Decide(true, context, recovered);
        recovered, rebuilds := marked, rebuilds + more;
        if d.Refused? { return RunFailed(d.error); }
        match d.decision
        case Final(content) =>
          var valid: bool := *;
          return if valid then Reply(content) else RunFailed(ExecutionFailed);
        case Neither => return RunFailed(ExecutionFailed);
        case CallTool(name) =>
          var outcome := Invoke(true, name);
          if outcome.Raised? { return RunFailed(outcome.error); }
          var built := BuildContext(true);
          if built.NotBuilt? { return RunFailed(built.error); }
          context := built.context;
      }
    }

    /** `run`: decide until the final reply or a successful terminal tool. */
    method Run(first: Untrusted) returns (r: RunResult, rebuilds: nat)
      requires Valid()
      modifies this, budget
      ensures Valid() && Ledger() == budget.steps <= budget.maxSteps
      ensures children <= maxChildren && ChildrenSettled()
      ensures rebuilds <= 1
      ensures r.Reply? ==> spent <= budget.maxCost
      ensures r.Reply? ==> said.Some? && said.value.Answered? && said.value.decision == Final(r.content)
      ensures r.Terminal? ==> said.Some? && said.value.Answered? && said.value.decision == CallTool(TerminalTool)
                              && did == Some(Returned(true))
      ensures r == RunFailed(RunError.TurnBlocked) ==> said.Some? && said.value.GuardrailHit?
    {
      var context, recovered := first, {};
      rebuilds := 0;
      while true
        invariant Valid() && ChildrenSettled() && |recovered| <= 1 && rebuilds <= |recovered|
        decreases budget.maxSteps - budget.steps
      {
        var d, marked, more := Decide(false, context, recovered);
        recovered, rebuilds := marked, rebuilds + more;
        if d.Refused? { return RunFailed(d.error), rebuilds; }
        match d.decision
        case Final(content) => return Reply(content), rebuilds;
        case Neither => return RunFailed(ExecutionFailed), rebuilds;
        case CallTool(name) =>
          var outcome := Invoke(false, name);
          if outcome.Raised? { return RunFailed(outcome.error), rebuilds; }
          if name.TerminalTool? && outcome.success { return Terminal, rebuilds; }
          var built := BuildContext(false);
          if built.NotBuilt? { return RunFailed(built.error), rebuilds; }
          context := built.context;
      }
    }
  }
}

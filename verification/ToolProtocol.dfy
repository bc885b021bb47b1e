/**
 Any number of invokers of tool calls, interleaved with every other step of the system. An invoker
 follows `ToolExecutor.invoke`: prepare, claim, decide, the retry loop, finish. It may die anywhere.
 */
module ToolProtocol {
  import opened Options
  import opened Turns
  import opened Approval
  import opened Protocol
  import opened ProtocolInvariant
  import opened TablesEvolution
  import opened ApprovalInvariant
  import Chat

  type InvokerId = nat

  datatype Place =
    | Arriving
    | Waiting                                   // prepared, about to claim
    | Deciding                                  // claimed: provenance, input, authorization, firewall
    | Looping(attempt: nat)                     // before this attempt of the retry loop
    | Executing(current: nat)                   // attempt counted, handler about to run
    | Ending(result: string, status: ExecStatus)
    | Done(answer: Option<Item>)
    | Dead

  /** `claimed`: it won the claim. `owed`: an attempt is counted but its handler did not run yet. */
  datatype Invoker = Invoker(call: ItemRef, content: string, origin: Option<nat>, place: Place, claimed: bool,
                             owed: bool)

  /** One physical run of a tool handler. */
  datatype Execution = Execution(invoker: InvokerId, call: ItemRef, outcome: Outcome)

  datatype ToolState = ToolState(core: State, invokers: map<InvokerId, Invoker>, log: seq<Execution>)

  const START := ToolState(INITIAL, map[], [])

  datatype Outcome = Success(data: string) | Transient(delayFits: bool) | Permanent(error: string,
      blocked: bool) | Raised

  datatype ToolEvent =
    | Other(event: Event)
    | Arrive(i: InvokerId, call: ItemRef, content: string, origin: Option<nat>)
    | PrepareCall(i: InvokerId, sawRunning: bool)
    | ClaimCall(i: InvokerId)
    | Decide(i: InvokerId, allowed: bool, refusal: string, blocked: bool)
    | BeginAttempt(i: InvokerId, timeLeft: bool)
    | Execute(i: InvokerId, outcome: Outcome)
    | FinishCall(i: InvokerId)
    | Die(i: InvokerId)

  function Put(s: ToolState, i: InvokerId, v: Invoker): ToolState { s.(invokers := s.invokers[i := v]) }

  function WithTables(s: ToolState, a: Tables): ToolState { s.(core := s.core.(db := s.core.db.(tables := a))) }

  function StoredResult(a: Tables, call: ItemRef): Option<Item> {
    if ResultRef(call) in a.items then Some(a.items[ResultRef(call)]) else None
  }

  /** The call exists under this key with the same content. */
  predicate SameCall(a: Tables, v: Invoker) {
    v.call in a.items && a.items[v.call].kind == ToolCall && a.items[v.call].content == v.content
  }

  function PrepareStep(s: ToolState, i: InvokerId, v: Invoker, sawRunning: bool): ToolState {
    var a := s.core.db.tables;
    if !sawRunning then
      Put(s, i, v.(place := Done(if SameCall(a, v) then StoredResult(a, v.call) else None)))
    else
      match Prepare(a, v.call, v.content, v.origin)
      case Prepared(b, _, result) =>
        Put(WithTables(s, b), i, v.(place := if result.Some? then Done(result) else Waiting))
      case _ => Put(s, i, v.(place := Done(None)))
  }

  function ClaimStep(s: ToolState, i: InvokerId, v: Invoker): ToolState {
    var a := s.core.db.tables;
    if Claimable(a, v.call) then Put(WithTables(s, Turns.Claim(a, v.call)), i, v.(place := Deciding, claimed := true))
    else Put(s, i, v.(place := Done(StoredResult(a, v.call))))
  }

  function AttemptStep(maxAttempts: nat, s: ToolState, i: InvokerId, v: Invoker, timeLeft: bool): ToolState
    requires v.place.Looping?
  {
    var a := s.core.db.tables;
    if v.place.attempt >= maxAttempts then Put(s, i, v.(place := Ending("TOOL_RETRY_EXHAUSTED", ExecFailed)))
    else if !timeLeft || !Attemptable(a, v.call) then Put(s, i, v.(place := Ending("TOOL_TURN_ENDED", ExecCancelled)))
    else Put(WithTables(s, IncrementAttempt(a, v.call)), i, v.(place := Executing(v.place.attempt), owed := true))
  }

  function AfterOutcome(maxAttempts: nat, attempt: nat, outcome: Outcome): Place {
    match outcome
    case Success(data) => Ending(data, ExecCompleted)
    case Transient(delayFits) =>
      if attempt + 1 >= maxAttempts || !delayFits then Ending("TOOL_RETRY_EXHAUSTED", ExecFailed)
         else Looping(attempt + 1)
    case Permanent(error, blocked) => Ending(error, if blocked then ExecBlocked else ExecFailed)
    case Raised => Dead
  }

  function ExecuteStep(maxAttempts: nat, s: ToolState, i: InvokerId, v: Invoker, outcome: Outcome): ToolState
    requires v.place.Executing?
  {
    Put(s.(log := s.log + [Execution(i, v.call, outcome)]), i,
        v.(place := AfterOutcome(maxAttempts, v.place.current, outcome), owed := false))
  }

  function FinishStep(s: ToolState, i: InvokerId, v: Invoker): ToolState
    requires v.place.Ending?
  {
    match Finish(s.core.db.tables, v.call, v.place.result, v.place.status)
    case Stored(b) => Put(WithTables(s, b), i, v.(place := Done(StoredResult(b, v.call))))
    case AlreadyStored(item) => Put(s, i, v.(place := Done(Some(item))))
    case Refused => Put(s, i, v.(place := Done(None)))
  }

  /** A step of one invoker. Executors are bound to chat turns, so calls of API turns never move. */
  function InvokerStep(maxAttempts: nat, s: ToolState, i: InvokerId, v: Invoker, e: ToolEvent): ToolState {
    if v.call.turn in ApiTurns(s.core.db.rows) || !v.call.key.ToolCallKey? then s else
    match e
    case PrepareCall(_, sawRunning) => if v.place.Arriving? then PrepareStep(s, i, v, sawRunning) else s
    case ClaimCall(_) => if v.place.Waiting? then ClaimStep(s, i, v) else s
    case Decide(_, allowed, refusal, blocked) =>
      if !v.place.Deciding? then s
      else Put(s, i, v.(place := if allowed then Looping(0)
                        else Ending(refusal, if blocked then ExecBlocked else ExecFailed)))
    case BeginAttempt(_, timeLeft) => if v.place.Looping? then AttemptStep(maxAttempts, s, i, v, timeLeft) else s
    case Execute(_, outcome) => if v.place.Executing? then ExecuteStep(maxAttempts, s, i, v, outcome) else s
    case FinishCall(_) => if v.place.Ending? then FinishStep(s, i, v) else s
    case Die(_) => Put(s, i, v.(place := Dead))
    case _ => s
  }

  function ToolStep(cfg: Config, maxAttempts: nat, s: ToolState, e: ToolEvent): ToolState {
    match e
    case Other(event) => if IsToolEvent(event) then s else s.(core := Step(cfg, s.core, event))
    case Arrive(i, call, content, origin) =>
      if i in s.invokers then s else Put(s, i, Invoker(call, content, origin, Arriving, false, false))
    case _ => if e.i in s.invokers then InvokerStep(maxAttempts, s, e.i, s.invokers[e.i], e) else s
  }

  function ToolRun(cfg: Config, maxAttempts: nat, s: ToolState, events: seq<ToolEvent>): ToolState
    decreases |events|
  {
    if events == [] then s else ToolRun(cfg, maxAttempts, ToolStep(cfg, maxAttempts, s, events[0]), events[1..])
  }

  // ---------- Invariant ----------

  function Runs(log: seq<Execution>, call: ItemRef): nat {
    if log == [] then 0
    else Runs(log[..|log| - 1], call) + if log[|log| - 1].call == call then 1 else 0
  }

  predicate Holds(place: Place) { place.Deciding? || place.Looping? || place.Executing? || place.Ending? }

  /** A claimed call: the attempt counter is the number of handler runs, plus the one still owed. */
  predicate ClaimerOk(maxAttempts: nat, a: Tables, log: seq<Execution>, v: Invoker) {
    && v.call in a.execs && a.execs[v.call].status != ExecPending
    && a.execs[v.call].attempts == Runs(log, v.call) + (if v.owed then 1 else 0)
    && a.execs[v.call].attempts <= maxAttempts
    && (v.place.Deciding? ==> a.execs[v.call].attempts == 0 && !v.owed)
    && (v.place.Looping? ==> a.execs[v.call].attempts == v.place.attempt && !v.owed)
    && (v.place.Executing? ==> a.execs[v.call].attempts == v.place.current + 1 && v.owed)
    && (v.place.Ending? ==> !v.owed && !Live(v.place.status))
  }

  predicate InvokerOk(maxAttempts: nat, a: Tables, log: seq<Execution>, v: Invoker) {
    && (v.claimed ==> ClaimerOk(maxAttempts, a, log, v))
    && (Holds(v.place) ==> v.claimed)
    && (v.owed ==> v.claimed)
    && (v.place.Done? && v.place.answer.Some? ==> StoredResult(a, v.call) == v.place.answer)
  }

  predicate Claimer(invokers: map<InvokerId, Invoker>, i: InvokerId, call: ItemRef) {
    i in invokers && invokers[i].claimed && invokers[i].call == call
  }

  /** A call that nobody claimed never ran and has no result. */
  predicate Untouched(a: Tables, log: seq<Execution>, call: ItemRef) {
    && Runs(log, call) == 0 && ResultRef(call) !in a.items
    && (call in a.execs ==> a.execs[call].attempts == 0 && a.execs[call].status in {ExecPending, ExecCancelled})
  }

  ghost predicate InvokersOk(maxAttempts: nat, a: Tables, log: seq<Execution>, invokers: map<InvokerId, Invoker>) {
    forall i | i in invokers :: InvokerOk(maxAttempts, a, log, invokers[i])
  }

  ghost predicate OneClaimer(invokers: map<InvokerId, Invoker>) {
    forall i, j, call | Claimer(invokers, i, call) && Claimer(invokers, j, call) :: i == j
  }

  ghost predicate UnclaimedOk(a: Tables, log: seq<Execution>, invokers: map<InvokerId, Invoker>) {
    forall call: ItemRef :: (exists i :: Claimer(invokers, i, call)) || Untouched(a, log, call)
  }

  /** Every handler run belongs to the invoker that claimed the call. */
  ghost predicate LogOk(log: seq<Execution>, invokers: map<InvokerId, Invoker>) {
    forall x | x in log :: Claimer(invokers, x.invoker, x.call)
  }

  ghost predicate CallsInv(maxAttempts: nat, s: ToolState) {
    && InvokersOk(maxAttempts, s.core.db.tables, s.log, s.invokers)
    && OneClaimer(s.invokers)
    && UnclaimedOk(s.core.db.tables, s.log, s.invokers)
    && LogOk(s.log, s.invokers)
  }

  ghost predicate ToolInv(cfg: Config, maxAttempts: nat, s: ToolState) {
    Inv(cfg, s.core) && CallsInv(maxAttempts, s)
  }

  // ---------- Preservation ----------

  lemma OtherKeeps(maxAttempts: nat, s: ToolState, b: Tables)
    requires CallsInv(maxAttempts, s) && Evolves(s.core.db.tables, b)
    ensures CallsInv(maxAttempts, WithTables(s, b))
  {
    hide OneClaimer, LogOk;
    var a := s.core.db.tables;
    forall call: ItemRef | Untouched(a, s.log, call) ensures Untouched(b, s.log, call) {}
    assert InvokersOk(maxAttempts, b, s.log, s.invokers) by {
      forall i | i in s.invokers ensures InvokerOk(maxAttempts, b, s.log, s.invokers[i]) {
        InvokerEvolves(maxAttempts, a, b, s.log, s.invokers[i]);
      }
    }
  }

  lemma InvokerEvolves(maxAttempts: nat, a: Tables, b: Tables, log: seq<Execution>, v: Invoker)
    requires InvokerOk(maxAttempts, a, log, v) && Evolves(a, b)
    ensures InvokerOk(maxAttempts, b, log, v)
  {
  }

  /** Only the execution and the tool items of `call` changed, and its result was not replaced. */
  ghost predicate OnlyCall(a: Tables, b: Tables, call: ItemRef) {
    && (forall c | c != call :: (c in b.execs <==> c in a.execs) && (c in a.execs ==> b.execs[c] == a.execs[c]))
    && (forall r | r in a.items :: r in b.items && b.items[r] == a.items[r])
    && (forall r | r in b.items && r !in a.items :: r == call || r == ResultRef(call))
  }

  /** One invoker moved, and with it at most its own call. */
  lemma InvokerMoves(maxAttempts: nat, s: ToolState, b: Tables, log: seq<Execution>, i: InvokerId, v': Invoker)
    requires CallsInv(maxAttempts, s) && i in s.invokers && v'.call == s.invokers[i].call && v'.call.key.ToolCallKey?
    requires OnlyCall(s.core.db.tables, b, v'.call)
    requires s.invokers[i].claimed ==> v'.claimed
    requires v'.claimed && !s.invokers[i].claimed ==> forall j :: !Claimer(s.invokers, j, v'.call)
    requires InvokerOk(maxAttempts, b, log, v')
    requires !v'.claimed ==> forall c :: Untouched(s.core.db.tables, s.log, c) ==> Untouched(b, log, c)
    requires forall c | c != v'.call :: Runs(log, c) == Runs(s.log, c)
    requires forall x | x in log :: x in s.log || (x.invoker == i && x.call == v'.call && v'.claimed)
    requires !v'.claimed ==> OthersKept(s.core.db.tables, b, s.log, log, v'.call)
    ensures CallsInv(maxAttempts, Put(WithTables(s, b).(log := log), i, v'))
  {
    hide InvokersOk, OneClaimer, UnclaimedOk, LogOk;
    var invokers' := s.invokers[i := v'];
    ClaimersAfter(s, i, v');
    OthersAfter(maxAttempts, s, b, log, i, v');
    UnclaimedAfter(maxAttempts, s, b, log, i, v');
    LogAfter(s, log, i, v');
  }

  /** What the claimer of `call` counts on is the same. */
  predicate OthersKept(a: Tables, b: Tables, log: seq<Execution>, log': seq<Execution>, call: ItemRef) {
    && Runs(log', call) == Runs(log, call)
    && (call in a.execs ==> call in b.execs && b.execs[call] == a.execs[call])
  }

  lemma ClaimersAfter(s: ToolState, i: InvokerId, v': Invoker)
    requires OneClaimer(s.invokers) && i in s.invokers && v'.call == s.invokers[i].call
    requires v'.claimed && !s.invokers[i].claimed ==> forall j :: !Claimer(s.invokers, j, v'.call)
    ensures OneClaimer(s.invokers[i := v'])
  {
    var invokers' := s.invokers[i := v'];
    assert s.invokers[i].claimed ==> Claimer(s.invokers, i, v'.call);
    forall j, k, call | Claimer(invokers', j, call) && Claimer(invokers', k, call) ensures j == k {
      assert j != i ==> Claimer(s.invokers, j, call);
      assert k != i ==> Claimer(s.invokers, k, call);
    }
  }

  lemma OthersAfter(maxAttempts: nat, s: ToolState, b: Tables, log: seq<Execution>, i: InvokerId, v': Invoker)
    requires InvokersOk(maxAttempts, s.core.db.tables, s.log, s.invokers) && i in s.invokers && OneClaimer(s.invokers)
    requires OnlyCall(s.core.db.tables, b, v'.call) && InvokerOk(maxAttempts, b, log, v')
             && v'.call == s.invokers[i].call
    requires forall c | c != v'.call :: Runs(log, c) == Runs(s.log, c)
    requires v'.claimed && !s.invokers[i].claimed ==> forall j :: !Claimer(s.invokers, j, v'.call)
    requires !v'.claimed ==> OthersKept(s.core.db.tables, b, s.log, log, v'.call)
    requires s.invokers[i].claimed ==> v'.claimed
    ensures InvokersOk(maxAttempts, b, log, s.invokers[i := v'])
  {
    var a := s.core.db.tables;
    forall j | j in s.invokers && j != i ensures InvokerOk(maxAttempts, b, log, s.invokers[j]) {
      var u := s.invokers[j];
      if u.claimed && u.call == v'.call {
        assert Claimer(s.invokers, j, u.call);
        if v'.claimed && s.invokers[i].claimed { assert Claimer(s.invokers, i, u.call); }
      }
      OtherInvoker(maxAttempts, a, b, s.log, log, v'.call, u);
    }
  }

  lemma OtherInvoker(maxAttempts: nat, a: Tables, b: Tables, log: seq<Execution>, log': seq<Execution>, call: ItemRef,
                     u: Invoker)
    requires InvokerOk(maxAttempts, a, log, u) && OnlyCall(a, b, call)
    requires u.claimed && u.call == call ==> OthersKept(a, b, log, log', call)
    requires u.claimed && u.call != call ==> Runs(log', u.call) == Runs(log, u.call)
    ensures InvokerOk(maxAttempts, b, log', u)
  {
  }

  lemma UnclaimedAfter(maxAttempts: nat, s: ToolState, b: Tables, log: seq<Execution>, i: InvokerId, v': Invoker)
    requires UnclaimedOk(s.core.db.tables, s.log, s.invokers) && i in s.invokers && v'.call == s.invokers[i].call
    requires OnlyCall(s.core.db.tables, b, v'.call) && v'.call.key.ToolCallKey?
    requires s.invokers[i].claimed ==> v'.claimed
    requires !v'.claimed ==> forall c :: Untouched(s.core.db.tables, s.log, c) ==> Untouched(b, log, c)
    requires forall c | c != v'.call :: Runs(log, c) == Runs(s.log, c)
    ensures UnclaimedOk(b, log, s.invokers[i := v'])
  {
    var invokers' := s.invokers[i := v'];
    forall call: ItemRef ensures (exists j :: Claimer(invokers', j, call)) || Untouched(b, log, call) {
      if j :| Claimer(s.invokers, j, call) {
        assert Claimer(invokers', j, call);
      } else if v'.claimed && call == v'.call {
        assert Claimer(invokers', i, call);
      } else {
        assert Untouched(s.core.db.tables, s.log, call);
        if v'.claimed { StaysUntouched(s.core.db.tables, b, s.log, log, v'.call, call); }
      }
    }
  }

  lemma StaysUntouched(a: Tables, b: Tables, log: seq<Execution>, log': seq<Execution>, moved: ItemRef, call: ItemRef)
    requires Untouched(a, log, call) && OnlyCall(a, b, moved) && call != moved && moved.key.ToolCallKey?
    requires Runs(log', call) == Runs(log, call)
    ensures Untouched(b, log', call)
  {
  }

  lemma LogAfter(s: ToolState, log: seq<Execution>, i: InvokerId, v': Invoker)
    requires LogOk(s.log, s.invokers) && i in s.invokers && v'.call == s.invokers[i].call
    requires s.invokers[i].claimed ==> v'.claimed
    requires forall x | x in log :: x in s.log || (x.invoker == i && x.call == v'.call && v'.claimed)
    ensures LogOk(log, s.invokers[i := v'])
  {
  }

  // ---------- Every tool event ----------

  /** A move that only changes the invoker's place. */
  lemma PlaceMoves(maxAttempts: nat, s: ToolState, i: InvokerId, v': Invoker)
    requires CallsInv(maxAttempts, s) && i in s.invokers && v'.call == s.invokers[i].call && v'.call.key.ToolCallKey?
    requires v'.claimed == s.invokers[i].claimed
    requires InvokerOk(maxAttempts, s.core.db.tables, s.log, v')
    ensures CallsInv(maxAttempts, Put(s, i, v'))
  {
    hide CallsInv, InvokerOk;
    InvokerMoves(maxAttempts, s, s.core.db.tables, s.log, i, v');
    assert WithTables(s, s.core.db.tables).(log := s.log) == s;
  }

  lemma CurrentOk(maxAttempts: nat, s: ToolState, i: InvokerId)
    requires CallsInv(maxAttempts, s) && i in s.invokers
    ensures InvokerOk(maxAttempts, s.core.db.tables, s.log, s.invokers[i])
  {
  }

  lemma PrepareMoves(maxAttempts: nat, s: ToolState, i: InvokerId, sawRunning: bool)
    requires CallsInv(maxAttempts, s) && i in s.invokers && s.invokers[i].place.Arriving?
             && s.invokers[i].call.key.ToolCallKey?
    ensures CallsInv(maxAttempts, PrepareStep(s, i, s.invokers[i], sawRunning))
  {
    hide CallsInv;
    var v := s.invokers[i];
    var a := s.core.db.tables;
    CurrentOk(maxAttempts, s, i);
    var prepared := Prepare(a, v.call, v.content, v.origin);
    if sawRunning && prepared.Prepared? {
      var v' := PrepareStep(s, i, v, sawRunning).invokers[i];
      PreparedKeeps(a, v.call, v.content, v.origin, s.log);
      PreparedInvoker(maxAttempts, a, v.call, v.content, v.origin, s.log, v);
      InvokerMoves(maxAttempts, s, prepared.tables, s.log, i, v');
      assert WithTables(s, prepared.tables).(log := s.log) == WithTables(s, prepared.tables);
    } else {
      PlaceMoves(maxAttempts, s, i, PrepareStep(s, i, v, sawRunning).invokers[i]);
    }
  }

  lemma PreparedKeeps(a: Tables, call: ItemRef, content: string, origin: Option<nat>, log: seq<Execution>)
    requires call.key.ToolCallKey? && Prepare(a, call, content, origin).Prepared?
    ensures var b := Prepare(a, call, content, origin).tables;
            OnlyCall(a, b, call) && OthersKept(a, b, log, log, call)
            && forall c :: Untouched(a, log, c) ==> Untouched(b, log, c)
  {
  }

  lemma PreparedInvoker(maxAttempts: nat, a: Tables, call: ItemRef, content: string, origin: Option<nat>,
                        log: seq<Execution>, v: Invoker)
    requires call.key.ToolCallKey? && Prepare(a, call, content, origin).Prepared? && v.call == call
    requires InvokerOk(maxAttempts, a, log, v) && v.place.Arriving?
    ensures var p := Prepare(a, call, content, origin);
            InvokerOk(maxAttempts, p.tables, log, v.(place := if p.result.Some? then Done(p.result) else Waiting))
  {
  }

  lemma ClaimMoves(maxAttempts: nat, s: ToolState, i: InvokerId)
    requires CallsInv(maxAttempts, s) && i in s.invokers && s.invokers[i].place.Waiting?
             && s.invokers[i].call.key.ToolCallKey?
    ensures CallsInv(maxAttempts, ClaimStep(s, i, s.invokers[i]))
  {
    hide CallsInv;
    var v := s.invokers[i];
    var a := s.core.db.tables;
    CurrentOk(maxAttempts, s, i);
    if Claimable(a, v.call) {
      PendingIsUnclaimed(maxAttempts, s, v.call);
      var b := Turns.Claim(a, v.call);
      InvokerMoves(maxAttempts, s, b, s.log, i, v.(place := Deciding, claimed := true));
      assert WithTables(s, b).(log := s.log) == WithTables(s, b);
    } else {
      PlaceMoves(maxAttempts, s, i, v.(place := Done(StoredResult(a, v.call))));
    }
  }

  /** A pending execution was never claimed, so its claim is the first and only one. */
  lemma PendingIsUnclaimed(maxAttempts: nat, s: ToolState, call: ItemRef)
    requires CallsInv(maxAttempts, s)
    ensures var a := s.core.db.tables;
            call in a.execs && a.execs[call].status == ExecPending ==>
              Untouched(a, s.log, call) && forall j :: !Claimer(s.invokers, j, call)
  {
    forall j | Claimer(s.invokers, j, call) ensures s.core.db.tables.execs[call].status != ExecPending {
      assert InvokerOk(maxAttempts, s.core.db.tables, s.log, s.invokers[j]);
    }
  }

  lemma AttemptMoves(maxAttempts: nat, s: ToolState, i: InvokerId, timeLeft: bool)
    requires CallsInv(maxAttempts, s) && i in s.invokers && s.invokers[i].place.Looping?
             && s.invokers[i].call.key.ToolCallKey?
    ensures CallsInv(maxAttempts, AttemptStep(maxAttempts, s, i, s.invokers[i], timeLeft))
  {
    hide CallsInv;
    var v := s.invokers[i];
    var a := s.core.db.tables;
    CurrentOk(maxAttempts, s, i);
    if v.place.attempt < maxAttempts && timeLeft && Attemptable(a, v.call) {
      var b := IncrementAttempt(a, v.call);
      InvokerMoves(maxAttempts, s, b, s.log, i, v.(place := Executing(v.place.attempt), owed := true));
      assert WithTables(s, b).(log := s.log) == WithTables(s, b);
    } else {
      PlaceMoves(maxAttempts, s, i, AttemptStep(maxAttempts, s, i, v, timeLeft).invokers[i]);
    }
  }

  lemma RunsAppended(log: seq<Execution>, x: Execution, call: ItemRef)
    ensures Runs(log + [x], call) == Runs(log, call) + if x.call == call then 1 else 0
  {
    assert (log + [x])[..|log|] == log;
  }

  lemma ExecuteMoves(maxAttempts: nat, s: ToolState, i: InvokerId, outcome: Outcome)
    requires CallsInv(maxAttempts, s) && i in s.invokers && s.invokers[i].place.Executing?
             && s.invokers[i].call.key.ToolCallKey?
    ensures CallsInv(maxAttempts, ExecuteStep(maxAttempts, s, i, s.invokers[i], outcome))
  {
    hide CallsInv;
    var v := s.invokers[i];
    var a := s.core.db.tables;
    CurrentOk(maxAttempts, s, i);
    var log := s.log + [Execution(i, v.call, outcome)];
    forall c
      ensures Runs(log, c) == Runs(s.log, c) + if c == v.call then 1 else 0
    {
      RunsAppended(s.log, Execution(i, v.call, outcome), c);
    }
    var v' := v.(place := AfterOutcome(maxAttempts, v.place.current, outcome), owed := false);
    InvokerMoves(maxAttempts, s, a, log, i, v');
    assert WithTables(s, a).(log := log) == s.(log := log);
  }

  lemma FinishMoves(maxAttempts: nat, s: ToolState, i: InvokerId)
    requires CallsInv(maxAttempts, s) && i in s.invokers && s.invokers[i].place.Ending?
             && s.invokers[i].call.key.ToolCallKey?
    ensures CallsInv(maxAttempts, FinishStep(s, i, s.invokers[i]))
  {
    hide CallsInv;
    var v := s.invokers[i];
    var a := s.core.db.tables;
    CurrentOk(maxAttempts, s, i);
    var finished := Finish(a, v.call, v.place.result, v.place.status);
    if finished.Stored? {
      var b := finished.tables;
      FinishedCall(a, v.call, v.place.result, v.place.status);
      InvokerMoves(maxAttempts, s, b, s.log, i, v.(place := Done(StoredResult(b, v.call))));
      assert WithTables(s, b).(log := s.log) == WithTables(s, b);
    } else {
      PlaceMoves(maxAttempts, s, i, FinishStep(s, i, v).invokers[i]);
    }
  }

  lemma FinishedCall(a: Tables, call: ItemRef, result: string, status: ExecStatus)
    requires Finish(a, call, result, status).Stored? && !Live(status)
    ensures var b := Finish(a, call, result, status).tables;
            OnlyCall(a, b, call) && call in a.execs && b.execs[call] == a.execs[call].(status := status)
  {
  }

  lemma InvokerStepKeepsCalls(maxAttempts: nat, s: ToolState, i: InvokerId, e: ToolEvent)
    requires CallsInv(maxAttempts, s) && i in s.invokers
    ensures CallsInv(maxAttempts, InvokerStep(maxAttempts, s, i, s.invokers[i], e))
  {
    hide CallsInv, PrepareStep, ClaimStep, AttemptStep, ExecuteStep, FinishStep;
    var v := s.invokers[i];
    if v.call.turn !in ApiTurns(s.core.db.rows) && v.call.key.ToolCallKey? {
      CurrentOk(maxAttempts, s, i);
      match e
      case PrepareCall(_, sawRunning) => if v.place.Arriving? { PrepareMoves(maxAttempts, s, i, sawRunning); }
      case ClaimCall(_) => if v.place.Waiting? { ClaimMoves(maxAttempts, s, i); }
      case Decide(_, allowed, refusal, blocked) =>
        if v.place.Deciding? {
          PlaceMoves(maxAttempts, s, i,
            v.(place := if allowed then Looping(0) else Ending(refusal, if blocked then ExecBlocked else ExecFailed)));
        }
      case BeginAttempt(_, timeLeft) => if v.place.Looping? { AttemptMoves(maxAttempts, s, i, timeLeft); }
      case Execute(_, outcome) => if v.place.Executing? { ExecuteMoves(maxAttempts, s, i, outcome); }
      case FinishCall(_) => if v.place.Ending? { FinishMoves(maxAttempts, s, i); }
      case Die(_) => PlaceMoves(maxAttempts, s, i, v.(place := Dead));
      case _ =>
    }
  }

  /** For the tables, a tool step of an invoker is one of the chat steps of the system. */
  lemma ChatStepOf(cfg: Config, s: ToolState, chat: Chat.ChatEvent)
    requires Inv(cfg, s.core)
    ensures Inv(cfg, WithTables(s, Chat.ChatStep(s.core.db.tables, ApiTurns(s.core.db.rows), chat)).core)
  {
    hide Inv;
    StepKeepsInv(cfg, s.core, ChatEvent(chat));
  }

  lemma ToolTransactions(a: Tables, api: set<TurnId>, v: Invoker)
    requires v.call.turn !in api && v.call.key.ToolCallKey?
    ensures Prepare(a, v.call, v.content, v.origin).Prepared? ==>
              Prepare(a, v.call, v.content, v.origin).tables
                == Chat.ChatStep(a, api, Chat.PrepareTool(v.call, v.content, v.origin))
    ensures Turns.Claim(a, v.call) == Chat.ChatStep(a, api, Chat.ClaimTool(v.call))
    ensures IncrementAttempt(a, v.call) == Chat.ChatStep(a, api, Chat.AttemptTool(v.call))
    ensures v.place.Ending? && !Live(v.place.status) && Finish(a, v.call, v.place.result, v.place.status).Stored? ==>
              Finish(a, v.call, v.place.result, v.place.status).tables
              == Chat.ChatStep(a, api, Chat.FinishTool(v.call, v.place.result, v.place.status))
  {
    hide Prepare, Turns.Claim, IncrementAttempt, Finish;
  }

  lemma InvokerStepIsChatStep(cfg: Config, maxAttempts: nat, s: ToolState, i: InvokerId, e: ToolEvent)
    requires ToolInv(cfg, maxAttempts, s) && i in s.invokers
    ensures Inv(cfg, InvokerStep(maxAttempts, s, i, s.invokers[i], e).core)
  {
    hide Inv, CallsInv, Prepare, Turns.Claim, IncrementAttempt, Finish, Chat.ChatStep, ApiTurns;
    var v := s.invokers[i];
    if v.call.turn !in ApiTurns(s.core.db.rows) && v.call.key.ToolCallKey? {
      CurrentOk(maxAttempts, s, i);
      ToolTransactions(s.core.db.tables, ApiTurns(s.core.db.rows), v);
      match e
      case PrepareCall(_, _) => ChatStepOf(cfg, s, Chat.PrepareTool(v.call, v.content, v.origin));
      case ClaimCall(_) => ChatStepOf(cfg, s, Chat.ClaimTool(v.call));
      case BeginAttempt(_, _) => ChatStepOf(cfg, s, Chat.AttemptTool(v.call));
      case FinishCall(_) =>
        if v.place.Ending? { ChatStepOf(cfg, s, Chat.FinishTool(v.call, v.place.result, v.place.status)); }
      case _ =>
    }
  }

  lemma ToolStepKeepsInv(cfg: Config, maxAttempts: nat, s: ToolState, e: ToolEvent)
    requires ToolInv(cfg, maxAttempts, s)
    ensures ToolInv(cfg, maxAttempts, ToolStep(cfg, maxAttempts, s, e))
  {
    hide Inv, CallsInv, InvokerStep, Step, Evolves;
    match e
    case Other(event) =>
      if !IsToolEvent(event) {
        StepKeepsInv(cfg, s.core, event);
        StepEvolves(cfg, s.core, event);
        OtherKeeps(maxAttempts, s, Step(cfg, s.core, event).db.tables);
        CoreIrrelevant(maxAttempts, WithTables(s, Step(cfg, s.core, event).db.tables),
                       s.(core := Step(cfg, s.core, event)));
      }
    case Arrive(i, call, content, origin) =>
      if i !in s.invokers { ArrivalKeeps(maxAttempts, s, i, Invoker(call, content, origin, Arriving, false, false)); }
    case _ =>
      if e.i in s.invokers {
        InvokerStepKeepsCalls(maxAttempts, s, e.i, e);
        InvokerStepIsChatStep(cfg, maxAttempts, s, e.i, e);
      }
  }

  lemma CoreIrrelevant(maxAttempts: nat, s: ToolState, t: ToolState)
    requires CallsInv(maxAttempts, s) && t == s.(core := t.core) && t.core.db.tables == s.core.db.tables
    ensures CallsInv(maxAttempts, t)
  {
  }

  lemma ArrivalKeeps(maxAttempts: nat, s: ToolState, i: InvokerId, v: Invoker)
    requires CallsInv(maxAttempts, s) && i !in s.invokers && v.place.Arriving? && !v.claimed && !v.owed
    ensures CallsInv(maxAttempts, Put(s, i, v))
  {
    hide InvokerOk, Untouched;
    var t := Put(s, i, v);
    assert InvokerOk(maxAttempts, s.core.db.tables, s.log, v) by { ArrivedOk(maxAttempts, s.core.db.tables, s.log, v); }
    assert forall j, call :: Claimer(t.invokers, j, call) <==> Claimer(s.invokers, j, call);
    forall call: ItemRef
      ensures (exists j :: Claimer(t.invokers, j, call)) || Untouched(s.core.db.tables, s.log, call)
    {
      if j :| Claimer(s.invokers, j, call) { assert Claimer(t.invokers, j, call); }
    }
  }

  lemma ArrivedOk(maxAttempts: nat, a: Tables, log: seq<Execution>, v: Invoker)
    requires v.place.Arriving? && !v.claimed && !v.owed
    ensures InvokerOk(maxAttempts, a, log, v)
  {
  }

  lemma {:induction false} ToolRunKeepsInv(cfg: Config, maxAttempts: nat, s: ToolState, events: seq<ToolEvent>)
    requires ToolInv(cfg, maxAttempts, s)
    ensures ToolInv(cfg, maxAttempts, ToolRun(cfg, maxAttempts, s, events))
    decreases |events|
  {
    if events != [] {
      ToolStepKeepsInv(cfg, maxAttempts, s, events[0]);
      ToolRunKeepsInv(cfg, maxAttempts, ToolStep(cfg, maxAttempts, s, events[0]), events[1..]);
    }
  }

  // ---------- Over every run ----------

  lemma ReachedToolInv(cfg: Config, maxAttempts: nat, events: seq<ToolEvent>)
    ensures ToolInv(cfg, maxAttempts, ToolRun(cfg, maxAttempts, START, events))
  {
    hide Inv;
    InitialInv(cfg);
    ToolRunKeepsInv(cfg, maxAttempts, START, events);
  }

  /** One invoker at most wins the claim of a call, and every handler run of the call is its own. */
  lemma CallsRunByOneInvoker(cfg: Config, maxAttempts: nat, events: seq<ToolEvent>, x: Execution, y: Execution)
    requires var log := ToolRun(cfg, maxAttempts, START, events).log;
             x in log && y in log && x.call == y.call
    ensures x.invoker == y.invoker
    ensures Claimer(ToolRun(cfg, maxAttempts, START, events).invokers, x.invoker, x.call)
  {
    hide Inv, InvokersOk, UnclaimedOk;
    ReachedToolInv(cfg, maxAttempts, events);
  }

  /**
   The attempt counter of a call is the number of handler runs, plus one exactly while an invoker is
   between counting and running (or died there), and it never exceeds the configured maximum.
   */
  lemma AttemptsAreCounted(cfg: Config, maxAttempts: nat, events: seq<ToolEvent>, call: ItemRef)
    requires call in ToolRun(cfg, maxAttempts, START, events).core.db.tables.execs
    ensures var s := ToolRun(cfg, maxAttempts, START, events);
            var counted := s.core.db.tables.execs[call].attempts;
            && counted <= maxAttempts
            && counted == Runs(s.log, call) + (if exists i :: Claimer(s.invokers, i, call) && s.invokers[i].owed then 1
                                               else 0)
  {
    hide Inv;
    ReachedToolInv(cfg, maxAttempts, events);
    var s := ToolRun(cfg, maxAttempts, START, events);
    if i :| Claimer(s.invokers, i, call) {
      assert InvokerOk(maxAttempts, s.core.db.tables, s.log, s.invokers[i]);
      assert forall j | Claimer(s.invokers, j, call) :: j == i;
    } else {
      assert Untouched(s.core.db.tables, s.log, call);
    }
  }

  /** Whoever is answered with a stored result, at whatever time, is answered with the same one. */
  lemma AnswersAgree(cfg: Config, maxAttempts: nat, events: seq<ToolEvent>, i: InvokerId, j: InvokerId)
    requires var v := ToolRun(cfg, maxAttempts, START, events).invokers;
             i in v && j in v && v[i].call == v[j].call && v[i].place.Done? && v[j].place.Done?
             && v[i].place.answer.Some? && v[j].place.answer.Some?
    ensures var v := ToolRun(cfg, maxAttempts, START, events).invokers;
            v[i].place.answer == v[j].place.answer
  {
    hide Inv, OneClaimer, UnclaimedOk, LogOk;
    ReachedToolInv(cfg, maxAttempts, events);
    var s := ToolRun(cfg, maxAttempts, START, events);
    assert InvokerOk(maxAttempts, s.core.db.tables, s.log, s.invokers[i]);
    assert InvokerOk(maxAttempts, s.core.db.tables, s.log, s.invokers[j]);
  }

  /** Completed, failed or blocked iff `finish` stored a result; a terminal turn owns no live execution. */
  lemma ExecutionsSettle(cfg: Config, maxAttempts: nat, events: seq<ToolEvent>, call: ItemRef)
    requires call in ToolRun(cfg, maxAttempts, START, events).core.db.tables.execs
    ensures var a := ToolRun(cfg, maxAttempts, START, events).core.db.tables;
            var status := a.execs[call].status;
            && (ResultRef(call) in a.items ==> !Live(status))
            && (status in {ExecCompleted, ExecFailed, ExecBlocked} ==> ResultRef(call) in a.items)
            && (Live(status) ==> Running(a.turns, call.turn))
  {
    hide CallsInv, ProtocolInv, GaplessTurns, GaplessItems, TurnsCoupled, ResultItems, OneChat, RowsOk, PostsMatch,
      NoDuplicates;
    ReachedToolInv(cfg, maxAttempts, events);
    var a := ToolRun(cfg, maxAttempts, START, events).core.db.tables;
    if ResultRef(call) in a.items { assert ResultRef(call).key.ToolResultKey?; }
  }
}

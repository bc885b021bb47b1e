/** The tool executor in place: provenance check, the retry loop and one whole invocation. */
module ToolExecutor {
  import opened Options
  import opened Turns
  import opened TurnStore
  import opened TablesEvolution

  // ---------- Provenance ----------

  datatype Source = System | UserInput | ToolOutput | AgentContext

  datatype Ref = Ref(source: Source, item: Option<nat>)

  datatype Role = RoleSystem | RoleUser | RoleAssistant | RoleTool

  datatype ContentSource = FromUser | FromAgent | FromSystem | FromExternal

  /** The metadata of one context entry that refers to an item. */
  datatype Entry = Entry(role: Role, kind: ItemType, source: ContentSource, active: bool)

  predicate Matches(source: Source, e: Entry) {
    match source
    case UserInput => e.role.RoleUser? && e.kind.UserMessage? && e.source.FromUser?
    case ToolOutput => e.role.RoleTool? && e.kind.ToolResult?
    case AgentContext => e.role.RoleAssistant? && (e.kind.AssistantMessage? || e.kind.ToolCall?) && e.source.FromAgent?
    case System => false
  }

  /** A system reference names no item; any other names an active item of the context of its kind. */
  predicate Genuine(entries: map<nat, Entry>, r: Ref) {
    if r.source.System? then r.item.None?
    else
      && r.item.Some? && r.item.value in entries && entries[r.item.value].active
      && Matches(r.source, entries[r.item.value])
  }

  /** `_validate_provenance`: accepted iff every reference is genuine and none is repeated. */
  method ValidateProvenance(entries: map<nat, Entry>, refs: seq<Ref>) returns (ok: bool)
    ensures ok <==> (forall i | 0 <= i < |refs| :: Genuine(entries, refs[i]))
                    && (forall i, j | 0 <= i < j < |refs| :: refs[i] != refs[j])
  {
    var seen: set<Ref> := {};
    for n := 0 to |refs|
      invariant forall r :: r in seen <==> r in refs[..n]
      invariant forall i | 0 <= i < n :: Genuine(entries, refs[i])
      invariant forall i, j | 0 <= i < j < n :: refs[i] != refs[j]
    {
      var r := refs[n];
      if r in seen {
        var i :| 0 <= i < n && refs[i] == r;
        return false;
      }
      seen := seen + {r};
      assert refs[..n + 1] == refs[..n] + [r];
      if r.source.System? {
        if r.item.Some? { return false; }
      } else {
        if r.item.None? || r.item.value !in entries { return false; }
        var e := entries[r.item.value];
        if !e.active || !Matches(r.source, e) { return false; }
      }
    }
    return true;
  }

  // ---------- Attempts ----------

  /** How one run of the handler ends. */
  datatype Outcome = Output(data: string, valid: bool) | Transient | Domain(error: string,
      blocked: bool) | Broken | RunError

  datatype Executed = Ended(result: string, status: ExecStatus) | Raised

  class ToolExecutor {
    const repository: AgentRepository
    const maxAttempts: nat
    var runs: nat                  // handler runs of the current invocation

    constructor (repository: AgentRepository, maxAttempts: nat)
      ensures this.repository == repository && this.maxAttempts == maxAttempts && runs == 0
    {
      this.repository, this.maxAttempts, runs := repository, maxAttempts, 0;
    }

    /**
     `_execute_with_retry`. Each handler run is counted in the database right before it, at most
     `maxAttempts` times; nothing else of the tables moves on its account.
     */
    method ExecuteWithRetry(call: ItemRef) returns (r: Executed, last: Option<Outcome>)
      requires call in repository.execs && repository.execs[call].attempts == 0 && runs == 0
      requires TablesInv(repository.Contents())
      modifies this`runs, repository
      ensures TablesInv(repository.Contents())
      ensures call in repository.execs && repository.execs[call].attempts == runs <= maxAttempts
      ensures repository.items == old(repository.items) && repository.execs.Keys == old(repository.execs.Keys)
      ensures forall c | c in repository.execs && c != call ::
                ExecEvolves(old(repository.execs)[c], repository.execs[c])
      ensures r.Ended? ==> !Live(r.status)
      ensures r.Ended? && r.status.ExecCompleted? ==> runs >= 1
      ensures r.Ended? && r.status.ExecCancelled? ==> runs < maxAttempts
      ensures runs == 0 <==> last.None?
      ensures match last
              case None =>
                r == Ended("TOOL_TURN_ENDED", ExecCancelled) || r == Ended("TOOL_RETRY_EXHAUSTED", ExecFailed)
              case Some(Output(data, valid)) =>
                r == (if valid then Ended(data, ExecCompleted) else Ended("TOOL_OUTPUT_INVALID", ExecFailed))
              case Some(Transient) =>
                r == Ended("TOOL_TURN_ENDED", ExecCancelled) || r == Ended("TOOL_RETRY_EXHAUSTED", ExecFailed)
              case Some(Domain(error, blocked)) => r == Ended(error, if blocked then ExecBlocked else ExecFailed)
              case Some(Broken) => r == Ended("TOOL_EXECUTION_FAILED", ExecFailed)
              case Some(RunError) => r.Raised?
    {
      hide TablesInv;
      last := None;
      for attempt := 0 to maxAttempts
        invariant TablesInv(repository.Contents())
        invariant (runs == 0 <==> last.None?) && (last.Some? ==> last.value.Transient?)
        invariant runs == attempt && call in repository.execs && repository.execs[call].attempts == runs
        invariant repository.items == old(repository.items) && repository.execs.Keys == old(repository.execs.Keys)
        invariant forall c | c in repository.execs && c != call ::
                    ExecEvolves(old(repository.execs)[c], repository.execs[c])
      {
        KeepTrack(old(repository.execs), call);
        var timeLeft: bool := *;
        if !timeLeft { return Ended("TOOL_TURN_ENDED", ExecCancelled), last; }
        IncrementKeepsInv(repository.Contents(), call);
        var counted := repository.IncrementAttempt(call);
        if !counted { return Ended("TOOL_TURN_ENDED", ExecCancelled), last; }
        runs := runs + 1;
        var outcome: Outcome := *;
        last := Some(outcome);
        match outcome
        case Output(data, valid) =>
          return if valid then Ended(data, ExecCompleted) else Ended("TOOL_OUTPUT_INVALID", ExecFailed), last;
        case Transient =>
          if attempt + 1 >= maxAttempts { return Ended("TOOL_RETRY_EXHAUSTED", ExecFailed), last; }
          var delayFits: bool := *;
          if !delayFits { return Ended("TOOL_RETRY_EXHAUSTED", ExecFailed), last; }
        case Domain(error, blocked) => return Ended(error, if blocked then ExecBlocked else ExecFailed), last;
        case Broken => return Ended("TOOL_EXECUTION_FAILED", ExecFailed), last;
        case RunError => return Raised, last;
      }
      return Ended("TOOL_RETRY_EXHAUSTED", ExecFailed), last;
    }

    /** Others may act between two attempts; the counter of this call does not move. */
    method KeepTrack(ghost before: map<ItemRef, Exec>, call: ItemRef)
      requires call in repository.execs && repository.execs.Keys == before.Keys && TablesInv(repository.Contents())
      requires forall c | c in repository.execs && c != call :: ExecEvolves(before[c], repository.execs[c])
      modifies repository
      ensures repository.items == old(repository.items) && repository.execs.Keys == before.Keys
      ensures TablesInv(repository.Contents())
      ensures repository.execs[call].attempts == old(repository.execs[call].attempts)
      ensures forall c | c in repository.execs && c != call :: ExecEvolves(before[c], repository.execs[c])
    {
      hide TablesInv;
      var gone: set<TurnId> := *;
      EndTurnsKeepsInv(repository.Contents(), gone, TurnFailed);
      repository.Terminate(gone, TurnFailed);
    }

    /**
     Other invokers and recovery, anywhere in the tables; `mine` once this invoker has won the claim,
     after which nobody else attempts or finishes the call.
     */
    method Others(call: ItemRef, mine: bool)
      requires TablesInv(repository.Contents()) && Untried(repository.execs, call)
      modifies repository
      ensures TablesInv(repository.Contents()) && Untried(repository.execs, call)
      ensures ItemsStay(old(repository.items), repository.items)
      ensures ClaimedStays(old(repository.execs), repository.execs, call)
      ensures mine ==> SameAttempts(old(repository.execs), repository.execs, call)
      ensures mine && ResultRef(call) in repository.items ==> ResultRef(call) in old(repository.items)
    {
      hide TablesInv, Turns.Claim, Turns.IncrementAttempt, Turns.Finish, EndTurns;
      var steps: seq<Step> := *;
      for n := 0 to |steps|
        invariant TablesInv(repository.Contents()) && Untried(repository.execs, call)
        invariant ItemsStay(old(repository.items), repository.items)
        invariant ClaimedStays(old(repository.execs), repository.execs, call)
        invariant mine ==> SameAttempts(old(repository.execs), repository.execs, call)
        invariant mine && ResultRef(call) in repository.items ==> ResultRef(call) in old(repository.items)
      {
        ghost var a := repository.Contents();
        if !(mine && steps[n].OnCall(call)) { Other(steps[n]); }
        StepOfOthers(a, repository.Contents(), steps[n], call, mine);
        StepsOn(old(repository.items), a.items, repository.items, old(repository.execs), a.execs, repository.execs,
                call);
      }
    }

    method Other(step: Step)
      requires TablesInv(repository.Contents())
      modifies repository
      ensures repository.Contents() == OtherStep(old(repository.Contents()), step)
    {
      match step
      case Ends(gone) => repository.Terminate(gone, TurnFailed);
      case Claims(c) => var _ := repository.Claim(c);
      case Attempts(c) => var _ := repository.IncrementAttempt(c);
      case Finishes(c, content, status) =>
        if !Live(status) { var _ := repository.Finish(c, content, status, None); }
    }

    /**
     `invoke`, from `prepare` to `finish`, with others acting in between. Whoever answers with a stored
     result answers with the one in the tables, shown as it may be shown; the handler runs only for the
     winner of the claim, as often as the counter says.
     */
    method Invoke(call: ItemRef, content: string, origin: Option<nat>)
      returns (answer: Option<Answer>, last: Option<Outcome>)
      requires runs == 0 && TablesInv(repository.Contents()) && call.key.ToolCallKey?
      requires Untried(repository.execs, call)
      modifies this`runs, repository
      ensures answer.Some? ==> ResultRef(call) in repository.items
                               && answer.value == AnswerOf(repository.items, repository.overrides, call)
      ensures runs <= maxAttempts && TablesInv(repository.Contents())
      ensures runs > 0 ==> call in repository.execs && repository.execs[call].attempts == runs
      ensures runs > 0 ==> call !in old(repository.execs) || old(repository.execs)[call].status == ExecPending
      ensures ItemsStay(old(repository.items), repository.items)
      ensures runs > 0 <==> last.Some?
      ensures answer.Some? && last.Some? ==>
                match last.value
                case Output(data, valid) => answer.value.item.content == if valid then data else "TOOL_OUTPUT_INVALID"
                case Domain(error, _) => answer.value.item.content == error
                case Broken => answer.value.item.content == "TOOL_EXECUTION_FAILED"
                case _ => true
    {
      hide TablesInv, Turns.Prepare, Turns.Claim, Turns.Finish, EndTurns, Untried;
      last := None;
      var prepared := repository.Prepare(call, content, origin);
      if !prepared.Prepared? { return None, None; }
      PreparedCall(old(repository.Contents()), call, content, origin);
      if prepared.result.Some? { return Stored(call), None; }
      ghost var a := repository.Contents();
      Others(call, false);
      StepsOn(old(repository.items), a.items, repository.items, old(repository.execs), a.execs, repository.execs, call);
      a := repository.Contents();
      var won := repository.Claim(call);
      ClaimKeepsInv(a, call);
      ClaimedCall(a, call);
      if !won { return if ResultRef(call) in repository.items then Stored(call) else None, None; }
      a := repository.Contents();
      Others(call, true);
      StepsOn(old(repository.items), a.items, repository.items, old(repository.execs), a.execs, repository.execs, call);
      var allowed, blocked: bool := *, *;
      var executed := Ended("TOOL_NOT_ALLOWED", if blocked then ExecBlocked else ExecFailed);
      if allowed {
        executed, last := ExecuteWithRetry(call);
      }
      if executed.Raised? { return None, last; }
      var quarantine: bool := *;
      quarantine := quarantine && allowed && executed.status.ExecCompleted?;
      a := repository.Contents();
      var stored := repository.Finish(call, executed.result, executed.status,
                                      if quarantine then Some("TOOL_RESULT_QUARANTINED") else None);
      FinishedKeeps(a, repository.Contents(), call, executed.result, executed.status);
      return if stored.Some? then Stored(call) else None, last;
    }

    function Stored(call: ItemRef): (answer: Option<Answer>)
      requires ResultRef(call) in repository.items
      reads repository
    {
      Some(AnswerOf(repository.items, repository.overrides, call))
    }
  }

  /** A stored result as an invoker gets it: a quarantined one shows its override. */
  datatype Answer = Answer(item: Item, shown: string)

  function AnswerOf(items: map<ItemRef, Item>, overrides: map<ItemRef, string>, call: ItemRef): Answer
    requires ResultRef(call) in items
  {
    var item := items[ResultRef(call)];
    Answer(item, if ResultRef(call) in overrides then overrides[ResultRef(call)] else item.content)
  }

  // ---------- What others do ----------

  datatype Step = Ends(gone: set<TurnId>) | Claims(call: ItemRef) | Attempts(call: ItemRef)
                | Finishes(call: ItemRef, content: string, status: ExecStatus)
  {
    predicate OnCall(c: ItemRef) { !Ends? && call == c }
  }

  function OtherStep(a: Tables, step: Step): Tables {
    match step
    case Ends(gone) => EndTurns(a, gone, TurnFailed)
    case Claims(c) => Turns.Claim(a, c)
    case Attempts(c) => IncrementAttempt(a, c)
    case Finishes(c, content, status) =>
      var r := Turns.Finish(a, c, content, status);
      if !Live(status) && r.Stored? then r.tables else a
  }

  /** A call that nobody claimed was never attempted. */
  predicate Untried(execs: map<ItemRef, Exec>, call: ItemRef) {
    call in execs && execs[call].status == ExecPending ==> execs[call].attempts == 0
  }

  predicate ItemsStay(items: map<ItemRef, Item>, items': map<ItemRef, Item>) {
    forall r | r in items :: r in items' && items'[r] == items[r]
  }

  predicate ClaimedStays(execs: map<ItemRef, Exec>, execs': map<ItemRef, Exec>, call: ItemRef) {
    call in execs ==> call in execs' && (execs'[call].status == ExecPending ==> execs[call].status == ExecPending)
  }

  predicate SameAttempts(execs: map<ItemRef, Exec>, execs': map<ItemRef, Exec>, call: ItemRef) {
    call in execs ==> call in execs' && execs'[call].attempts == execs[call].attempts
  }

  lemma StepOfOthers(a: Tables, b: Tables, step: Step, call: ItemRef, mine: bool)
    requires TablesInv(a) && Untried(a.execs, call)
    requires b == if mine && step.OnCall(call) then a else OtherStep(a, step)
    ensures TablesInv(b) && Untried(b.execs, call) && ItemsStay(a.items, b.items)
            && ClaimedStays(a.execs, b.execs, call)
    ensures mine ==> SameAttempts(a.execs, b.execs, call)
    ensures mine && ResultRef(call) in b.items ==> ResultRef(call) in a.items
  {
    hide GaplessTurns, GaplessItems, NoOrphanExecs, ResultsMatch;
    match step
    case Ends(gone) => EndTurnsKeepsInv(a, gone, TurnFailed);
    case Claims(c) => ClaimKeepsInv(a, c);
    case Attempts(c) => IncrementKeepsInv(a, c);
    case Finishes(c, content, status) =>
      if !Live(status) && Turns.Finish(a, c, content, status).Stored? { FinishKeepsInv(a, c, content, status); }
  }

  lemma StepsOn(i: map<ItemRef, Item>, j: map<ItemRef, Item>, k: map<ItemRef, Item>,
                x: map<ItemRef, Exec>, y: map<ItemRef, Exec>, z: map<ItemRef, Exec>, call: ItemRef)
    ensures ItemsStay(i, j) && ItemsStay(j, k) ==> ItemsStay(i, k)
    ensures ClaimedStays(x, y, call) && ClaimedStays(y, z, call) ==> ClaimedStays(x, z, call)
    ensures SameAttempts(x, y, call) && SameAttempts(y, z, call) ==> SameAttempts(x, z, call)
  {
  }

  lemma PreparedCall(a: Tables, call: ItemRef, content: string, origin: Option<nat>)
    requires TablesInv(a) && Untried(a.execs, call) && call.key.ToolCallKey?
             && Turns.Prepare(a, call, content, origin).Prepared?
    ensures var p := Turns.Prepare(a, call, content, origin);
            && TablesInv(p.tables) && Untried(p.tables.execs, call) && ItemsStay(a.items, p.tables.items)
            && ClaimedStays(a.execs, p.tables.execs, call) && call in p.tables.execs
            && (p.result.Some? ==> ResultRef(call) in p.tables.items)
  {
    hide GaplessTurns, GaplessItems, NoOrphanExecs, ResultsMatch;
    PrepareKeepsInv(a, call, content, origin);
  }

  lemma ClaimedCall(a: Tables, call: ItemRef)
    requires Untried(a.execs, call)
    ensures var b := Turns.Claim(a, call);
            && b.items == a.items && Untried(b.execs, call) && ClaimedStays(a.execs, b.execs, call)
            && (Claimable(a, call) ==> call in b.execs && b.execs[call] == Exec(ExecRunning, 0))
    ensures TablesInv(a) && Claimable(a, call) && call.key.ToolCallKey? ==> ResultRef(call) !in a.items
  {
    hide GaplessTurns, GaplessItems, NoOrphanExecs;
    assert ResultRef(call).key.ToolResultKey? && ItemRef(ResultRef(call).turn, ResultRef(call).key.call) == call;
  }

  lemma FinishedKeeps(a: Tables, b: Tables, call: ItemRef, content: string, status: ExecStatus)
    requires TablesInv(a) && !Live(status)
    requires var r := Turns.Finish(a, call, content, status); b == if r.Stored? then r.tables else a
    ensures TablesInv(b) && ItemsStay(a.items, b.items) && SameAttempts(a.execs, b.execs, call)
    ensures !Turns.Finish(a, call, content, status).Refused? ==> ResultRef(call) in b.items
  {
    hide GaplessTurns, GaplessItems, NoOrphanExecs, ResultsMatch;
    if Turns.Finish(a, call, content, status).Stored? { FinishKeepsInv(a, call, content, status); }
  }
}

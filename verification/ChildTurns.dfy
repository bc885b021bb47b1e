/**
 What becomes of the turn of a child agent. Its transactions can commit and be reported, commit and look
 failed to the worker, or be rolled back with an error, and a cancellation can arrive in any of them.
 */
module ChildTurns {
  datatype RunError =
    | TimeLimit | StepLimit | CostLimit | TurnBlocked | ExecutionFailed | TurnInterrupted | CompactionFailed | Cancelled

  predicate BudgetError(e: RunError) { e.TimeLimit? || e.StepLimit? || e.CostLimit? }

  datatype ToolOutcome = Returned(success: bool) | Raised(error: RunError)

  /** The exception that a worker sees: one of the database, or the cancellation of its task. */
  datatype Fault = DatabaseError | CutOff

  /** Committed and reported; committed, but the worker sees an exception; or rolled back with one. */
  datatype Tx = Done | Unreported(fault: Fault) | RolledBack(fault: Fault)

  predicate Commits(tx: Tx) { !tx.RolledBack? }

  /** The transactions on one child turn, in their order; `Recovered` when somebody else ended the turn. */
  datatype Entry = Created(tx: Tx) | Recovered | Completed(tx: Tx) | Failed(tx: Tx)

  /** Whether the turn is running once these transactions happened. */
  function Alive(log: seq<Entry>): bool {
    if log == [] then false
    else
      var before := Alive(log[..|log| - 1]);
      match log[|log| - 1]
      case Created(tx) => before || Commits(tx)
      case Recovered => false
      case Completed(tx) => before && !Commits(tx)
      case Failed(tx) => before && !Commits(tx)
  }

  // ---------- One call ----------

  /** What building the context and running the child came to. */
  datatype Body = Broken(answer: ToolOutcome) | CutShort | Output

  /** Everything that the call does not decide itself. */
  datatype World = World(created: Tx, recovered: bool, body: Body, completed: Tx, failed: Tx, again: Tx)

  datatype Course = Course(log: seq<Entry>, answer: ToolOutcome)

  function After(e: Entry, c: Course): Course { Course([e] + c.log, c.answer) }

  /** `_run_child` when it is cancelled: `_fail_child` under a shield, then the cancellation goes on. */
  function Shielded(again: Tx): Course {
    Course([Failed(again)], if !again.Done? && again.fault.DatabaseError? then Returned(false) else Raised(Cancelled))
  }

  /** `_fail_child` in `_run_child_inner`, and the answer after it. */
  function FailThen(answer: ToolOutcome, failed: Tx, again: Tx): Course {
    if failed.Done? then Course([Failed(failed)], answer)
    else if failed.fault.DatabaseError? then Course([Failed(failed)], Returned(false))
    else After(Failed(failed), Shielded(again))
  }

  /** The last transaction completes the turn if it is still running. */
  function CompleteThen(recovered: bool, completed: Tx, failed: Tx, again: Tx): Course {
    if completed.Done? then
      if recovered then After(Completed(completed), FailThen(Returned(false), failed, again))
      else Course([Completed(completed)], Returned(true))
    else if completed.fault.DatabaseError? then Course([Completed(completed)], Returned(false))
    else After(Completed(completed), Shielded(again))
  }

  /** `_run_child`. */
  function RunChild(w: World): Course {
    match w.body
    case Broken(answer) => FailThen(answer, w.failed, w.again)
    case CutShort => Shielded(w.again)
    case Output => CompleteThen(w.recovered, w.completed, w.failed, w.again)
  }

  /** `_create_child` and `_run_child`; an exception of the database is a failed tool call. */
  function Call(w: World): Course {
    match w.created
    case Done =>
      var c := RunChild(w);
      Course([Created(Done)] + (if w.recovered then [Recovered] else []) + c.log, c.answer)
    case Unreported(fault) => Course([Created(w.created)], Escaped(fault))
    case RolledBack(fault) => Course([Created(w.created)], Escaped(fault))
  }

  function Escaped(fault: Fault): ToolOutcome { if fault.DatabaseError? then Returned(false) else Raised(Cancelled) }

  /** The body fails with a tool error or an exhausted budget, never with success. */
  predicate Proper(w: World) { w.body.Broken? ==> w.body.answer == Returned(false) || OutOfBudget(w.body.answer) }

  predicate OutOfBudget(r: ToolOutcome) { r.Raised? && BudgetError(r.error) }

  // ---------- Which child turns stay behind ----------

  predicate EndCommitted(log: seq<Entry>) { exists e | e in log :: EndTried(e) && Commits(e.tx) }

  predicate EndTried(e: Entry) { e.Completed? || e.Failed? }

  /** The creation was committed without being reported, or neither the final nor a fail transaction committed. */
  predicate LeftRunning(log: seq<Entry>) {
    && log != [] && log[0].Created?
    && (log[0].tx.Unreported? || (log[0].tx.Done? && Recovered !in log && !EndCommitted(log)))
  }

  lemma {:induction false} AliveAppend(log: seq<Entry>, e: Entry)
    ensures Alive(log + [e]) ==
            match e
            case Created(tx) => Alive(log) || Commits(tx)
            case Recovered => false
            case Completed(tx) => Alive(log) && !Commits(tx)
            case Failed(tx) => Alive(log) && !Commits(tx)
  {
    assert (log + [e])[..|log|] == log;
  }

  /** A turn runs after ends were tried iff it ran before and none of them committed. */
  lemma {:induction false} AliveEnds(log: seq<Entry>, ends: seq<Entry>)
    requires forall e | e in ends :: EndTried(e)
    ensures Alive(log + ends) <==> Alive(log) && !EndCommitted(ends)
    decreases |ends|
  {
    if ends == [] {
      assert log + ends == log;
    } else {
      var front, last := ends[..|ends| - 1], ends[|ends| - 1];
      assert ends == front + [last] && log + ends == (log + front) + [last];
      assert last in ends && forall e | e in front :: e in ends;
      AliveEnds(log, front);
      AliveAppend(log + front, last);
      EndCommittedAppend(front, last);
    }
  }

  lemma EndCommittedAppend(log: seq<Entry>, e: Entry)
    ensures EndCommitted(log + [e]) <==> EndCommitted(log) || (EndTried(e) && Commits(e.tx))
  {
    assert (log + [e])[|log|] == e;
    assert forall x :: x in log + [e] <==> x in log || x == e;
  }

  /** A reported creation is always followed by a try to end the turn, and by nothing but such tries. */
  lemma EndIsTried(w: World)
    ensures RunChild(w).log != [] && forall e | e in RunChild(w).log :: EndTried(e)
  {
  }

  /**
   After the call, the child turn is running iff its creation was committed without being reported, or it
   was reported and no end that was tried committed, by this call or by anybody else.
   */
  lemma RunningIffLeft(w: World)
    ensures Alive(Call(w).log) <==> LeftRunning(Call(w).log)
  {
    hide RunChild, EndCommitted;
    var created: seq<Entry> := [Created(w.created)];
    assert created == [] + created;
    AliveAppend([], Created(w.created));
    if w.created.Done? {
      var opening := if w.recovered then created + [Recovered] else created;
      var ends := RunChild(w).log;
      AliveAppend(created, Recovered);
      EndIsTried(w);
      AliveEnds(opening, ends);
      EndCommittedPrefix(opening, ends);
      assert Call(w).log == opening + ends && (opening + ends)[0] == Created(w.created);
      assert Recovered in opening + ends <==> w.recovered;
    }
  }

  lemma EndCommittedPrefix(opening: seq<Entry>, ends: seq<Entry>)
    requires forall e | e in opening :: !EndTried(e)
    ensures EndCommitted(opening + ends) <==> EndCommitted(ends)
  {
  }

  /** The same by what happened around the call. */
  predicate LeavesRunning(w: World) {
    w.created.Unreported?
    || (w.created.Done? && !w.recovered
        && match w.body
           case Broken(_) => w.failed.RolledBack? && (w.failed.fault.CutOff? ==> w.again.RolledBack?)
           case CutShort => w.again.RolledBack?
           case Output => w.completed.RolledBack? && (w.completed.fault.CutOff? ==> w.again.RolledBack?))
  }

  lemma LeavesRunningIff(w: World)
    ensures Alive(Call(w).log) <==> LeavesRunning(w)
  {
    hide Alive;
    RunningIffLeft(w);
  }

  /** Only a success or an exhausted budget tells that the turn has ended; the other answers leave it open. */
  lemma AnswerTellsEnd(w: World)
    requires Proper(w)
    ensures Call(w).answer == Returned(true) || OutOfBudget(Call(w).answer) ==> !Alive(Call(w).log)
    ensures Alive(Call(w).log) ==> Call(w).answer == Returned(false) || Call(w).answer == Raised(Cancelled)
  {
    hide Alive;
    LeavesRunningIff(w);
  }

  /** Which answer a call gives: success, an exhausted budget, the cancellation, and a failed tool call otherwise. */
  lemma AnswerIff(w: World)
    requires Proper(w)
    ensures Call(w).answer == Returned(true) <==>
              w.created.Done? && w.body.Output? && !w.recovered && w.completed.Done?
    ensures OutOfBudget(Call(w).answer) <==>
              w.created.Done? && w.body.Broken? && OutOfBudget(w.body.answer) && w.failed.Done?
    ensures OutOfBudget(Call(w).answer) ==> Call(w).answer == w.body.answer
    ensures Call(w).answer == Raised(Cancelled) <==>
              if !w.created.Done? then w.created.fault.CutOff?
              else Shield(w) && (w.again.Done? || w.again.fault.CutOff?)
    ensures Call(w).answer.Returned? || OutOfBudget(Call(w).answer) || Call(w).answer == Raised(Cancelled)
  {
  }

  /** The call is cancelled in its body or in one of its ends, so that the child is failed under the shield. */
  predicate Shield(w: World) {
    match w.body
    case CutShort => true
    case Broken(_) => !w.failed.Done? && w.failed.fault.CutOff?
    case Output =>
      if w.completed.Done? then w.recovered && !w.failed.Done? && w.failed.fault.CutOff?
      else w.completed.fault.CutOff?
  }

  lemma AnswersOnly(w: World)
    requires Proper(w)
    ensures var r := Call(w).answer; r.Returned? || OutOfBudget(r) || r == Raised(Cancelled)
  {
  }

  lemma OnlyOutputSucceeds(w: World)
    requires Proper(w) && RunChild(w).answer == Returned(true)
    ensures w.body.Output?
  {
  }

  /** One world for each way: creation, completion, failing, and failing after a cancellation. */
  lemma EachWay()
    ensures var w := World(Unreported(DatabaseError), false, Output, Done, Done, Done);
            Alive(Call(w).log) && Call(w).answer == Returned(false)
    ensures var w := World(Unreported(CutOff), false, Output, Done, Done, Done);
            Alive(Call(w).log) && Call(w).answer == Raised(Cancelled)
    ensures var w := World(Done, false, Output, RolledBack(DatabaseError), Done, Done);
            Alive(Call(w).log) && Call(w).answer == Returned(false)
    ensures var w := World(Done, false, Broken(Raised(StepLimit)), Done, RolledBack(DatabaseError), Done);
            Alive(Call(w).log) && Call(w).answer == Returned(false)
    ensures var w := World(Done, false, CutShort, Done, Done, RolledBack(DatabaseError));
            Alive(Call(w).log) && Call(w).answer == Returned(false)
    ensures var w := World(Done, false, Output, RolledBack(CutOff), Done, RolledBack(CutOff));
            Alive(Call(w).log) && Call(w).answer == Raised(Cancelled)
  {
    hide Alive;
    LeavesRunningIff(World(Unreported(DatabaseError), false, Output, Done, Done, Done));
    LeavesRunningIff(World(Unreported(CutOff), false, Output, Done, Done, Done));
    LeavesRunningIff(World(Done, false, Output, RolledBack(DatabaseError), Done, Done));
    LeavesRunningIff(World(Done, false, Broken(Raised(StepLimit)), Done, RolledBack(DatabaseError), Done));
    LeavesRunningIff(World(Done, false, CutShort, Done, Done, RolledBack(DatabaseError)));
    LeavesRunningIff(World(Done, false, Output, RolledBack(CutOff), Done, RolledBack(CutOff)));
  }

  /** The log and the answer are those of a call in some world. */
  ghost predicate IsCall(log: seq<Entry>, answer: ToolOutcome) {
    exists w | Proper(w) :: Call(w) == Course(log, answer)
  }

  lemma NeverStarted(created: Tx)
    requires !created.Done?
    ensures IsCall([Created(created)], Escaped(created.fault))
  {
    assert Proper(World(created, false, Output, Done, Done, Done));
    assert Call(World(created, false, Output, Done, Done, Done)) == Course([Created(created)], Escaped(created.fault));
  }

  /** So for every call that was made: its turn is running iff it was left running, and the answer fits. */
  lemma CallFacts(log: seq<Entry>, answer: ToolOutcome)
    requires IsCall(log, answer)
    ensures Alive(log) <==> LeftRunning(log)
    ensures Alive(log) ==> answer == Returned(false) || answer == Raised(Cancelled)
    ensures answer.Raised? ==> OutOfBudget(answer) || answer == Raised(Cancelled)
  {
    hide Alive, LeftRunning, Call;
    var w :| Proper(w) && Call(w) == Course(log, answer);
    RunningIffLeft(w);
    AnswerTellsEnd(w);
    AnswersOnly(w);
  }
}

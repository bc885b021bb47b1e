/**
 One execution of the X post approval, in the control flow of its service, while everything else goes
 on between its transactions. Each of its transactions and calls is one step of the protocol, so the
 protocol's theorems hold of it; what the caller is answered is what the row holds.
 */
module XPostService {
  import opened Options
  import opened Idempotency
  import opened PublishedPosts
  import opened Approval
  import opened ApprovalInvariant
  import opened Protocol
  import opened ProtocolInvariant
  import opened ProtocolTheorems
  import opened ProtocolProgress

  const DB_SAVE_MAX_ATTEMPTS: nat := 3

  /** `Answered`: a response. `LostLease`: LeaseLostError. `Interrupted`: an exception that is not handled here. */
  datatype Outcome = Answered(response: Response) | LostLease | Interrupted | InProgressAnswer

  /** A step of somebody else leaves this worker where it is. */
  lemma OthersKeepWorker(cfg: Config, s: State, e: Event, w: Token)
    requires w in s.workers && TokenOf(e) != Some(w)
    ensures w in Step(cfg, s, e).workers && Step(cfg, s, e).workers[w] == s.workers[w]
  {
    hide WorkerStep, ClaimStep, WorkerEffect, ResolvePosted, ResolveNotPosted, ClaimResume;
    if TokenOf(e).Some? {
      if TokenOf(e).value in s.workers { KeepsOtherWorkers(cfg, s, e, w); }
    } else if e.Claim? {
      ClaimAddsWorkers(s, e.args.(leaseSeconds := cfg.leaseSeconds), w);
    }
  }

  lemma KeepsOtherWorkers(cfg: Config, s: State, e: Event, w: Token)
    requires w in s.workers && TokenOf(e).Some? && TokenOf(e).value in s.workers && TokenOf(e) != Some(w)
    ensures w in WorkerStep(cfg, s, e).workers && WorkerStep(cfg, s, e).workers[w] == s.workers[w]
  {
    hide WorkerStep;
    WorkerStepEffect(cfg, s, e);
  }

  lemma ClaimAddsWorkers(s: State, args: ClaimArgs, w: Token)
    requires w in s.workers
    ensures w in ClaimStep(s, args).workers && ClaimStep(s, args).workers[w] == s.workers[w]
  {
    hide ClaimRequest;
  }

  lemma {:induction false} RunAppend(cfg: Config, s: State, events: seq<Event>, e: Event)
    ensures Run(cfg, s, events + [e]) == Step(cfg, Run(cfg, s, events), e)
    decreases |events|
  {
    hide Step;
    var all := events + [e];
    if events == [] {
      assert all[1..] == [];
      assert Run(cfg, Step(cfg, s, e), []) == Step(cfg, s, e);
    } else {
      assert all[0] == events[0] && all[1..] == events[1..] + [e];
      RunAppend(cfg, Step(cfg, s, events[0]), events[1..], e);
    }
  }

  class XPostApprovalService {
    const cfg: Config
    const w: Token                 // the execution token of this request
    var state: State               // shared by everyone
    ghost const start: State
    ghost var trace: seq<Event>    // everything that happened since the start
    var sends: nat                 // calls of X made by this execution
    var saves: nat                 // save transactions begun by this execution

    constructor (cfg: Config, w: Token, state: State)
      requires Inv(cfg, state) && w in state.workers
      ensures Valid() && this.cfg == cfg && this.w == w && this.state == state && start == state
    {
      hide Inv;
      this.cfg, this.w, this.state, start, trace := cfg, w, state, state, [];
      sends, saves := 0, 0;
    }

    /** All that happens is a run of the protocol. */
    ghost predicate Valid()
      reads this
    {
      Inv(cfg, state) && w in state.workers && state == Run(cfg, start, trace)
    }

    function Me(): Worker
      reads this
      requires w in state.workers
    {
      state.workers[w]
    }

    /** The answer is stored for good: every later request with this key is answered the same. */
    ghost predicate IsStored(response: Response)
      reads this
    {
      w in state.workers && Me().row in state.db.rows
      && state.db.rows[Me().row].status != Processing && state.db.rows[Me().row].response == Some(response)
    }

    /** The one answer that is not stored: the X result is kept and the lease given up. */
    ghost predicate IsSaveFailure(response: Response)
      reads this
    {
      w in state.workers && response == Response(500, ErrorBody(XPostSaveFailed, Me().turn))
      && Me().row in state.db.rows && state.db.rows[Me().row].external.Some?
    }

    ghost predicate Honest(o: Outcome)
      reads this
    {
      o.Answered? ==> IsStored(o.response) || IsSaveFailure(o.response)
    }

    /** The X result of this request is stored. */
    ghost predicate HasResult()
      reads this
    {
      w in state.workers && Me().row in state.db.rows && state.db.rows[Me().row].external.Some?
    }

    /** Everyone else moves on: any number of steps of any events but this worker's. */
    method Others()
      requires Valid()
      modifies this`state, this`trace
      ensures Valid() && Me() == old(Me()) && (old(HasResult()) ==> HasResult())
    {
      hide Inv, Step;
      var events: seq<Event> := *;
      for n := 0 to |events|
        invariant Valid() && Me() == old(Me()) && (old(HasResult()) ==> HasResult())
      {
        if TokenOf(events[n]) != Some(w) {
          OthersKeepWorker(cfg, state, events[n], w);
          StepKeepsInv(cfg, state, events[n]);
          StepResultsStay(cfg, state, events[n]);
          RunAppend(cfg, start, trace, events[n]);
          state, trace := Step(cfg, state, events[n]), trace + [events[n]];
        }
      }
    }

    /** One transaction or call of this worker. */
    method Take(e: Event)
      requires Valid() && TokenOf(e) == Some(w)
      modifies this`state, this`trace
      ensures Valid() && state == Step(cfg, old(state), e) && (old(HasResult()) ==> HasResult())
      ensures Me().row == old(Me().row) && Me().turn == old(Me().turn) && Me().request == old(Me().request)
    {
      hide Inv, WorkerStep;
      WorkerStepEffect(cfg, state, e);
      StepKeepsInv(cfg, state, e);
      StepResultsStay(cfg, state, e);
      KeepsWorkerFields(cfg, state, e);
      RunAppend(cfg, start, trace, e);
      state, trace := Step(cfg, state, e), trace + [e];
    }

    /** `_fail` with status failed, before anything was sent. */
    method FailPlanning(code: ErrorCode) returns (o: Outcome)
      requires Valid() && Me().pc.Planning? && PlanningError(Me().row.op, code)
      modifies this`state, this`trace
      ensures Valid() && Honest(o) && (o.Answered? ==> o.response == ErrorResponse(code, Me().turn))
    {
      hide Inv, Step;
      Others();
      var now: Time, dbError: bool, seen: bool := *, *, *;
      if dbError {
        Take(Crash(w));
        return Interrupted;
      }
      var held := Held(state.db.rows, Me().row, w, now, true);
      FailStores(cfg, state, w, FailPlan(w, code, now), code, Failed, now);
      Take(FailPlan(w, code, now));
      if !held { return LostLease; }
      return if seen then Answered(ErrorResponse(code, Me().turn)) else Interrupted;
    }

    /** One try of `_outcome_unknown`; after an error, committed or not, it can be tried again. */
    method RecordUnknown() returns (o: Outcome)
      requires Valid() && Me().pc.CallUnclear?
      modifies this`state, this`trace
      ensures Valid() && Honest(o) && !o.InProgressAnswer? && (o.Interrupted? ==> Me().pc.CallUnclear?)
      ensures o.Answered? ==> o.response == Response(504, ErrorBody(XPostOutcomeUnknown, Me().turn))
    {
      hide Inv, Step;
      Others();
      var now: Time, dbError: bool, seen: bool := *, *, *;
      if dbError { return Interrupted; }
      var held := Held(state.db.rows, Me().row, w, now, true);
      seen := seen || !held;
      FailStores(cfg, state, w, CloseUnclear(w, now, seen), XPostOutcomeUnknown, OutcomeUnknown, now);
      UnclearMoves(cfg, state, w, now, seen);
      Take(CloseUnclear(w, now, seen));
      if !held { return LostLease; }
      return if seen then Answered(ErrorResponse(XPostOutcomeUnknown, Me().turn)) else Interrupted;
    }

    /** `_outcome_unknown`, with the second try that the outer handler makes of an error inside its block. */
    method OutcomeUnknownAnswer(inside: bool) returns (o: Outcome)
      requires Valid() && Me().pc.CallUnclear?
      modifies this`state, this`trace
      ensures Valid() && Honest(o) && !o.InProgressAnswer?
      ensures o.Answered? ==> o.response == Response(504, ErrorBody(XPostOutcomeUnknown, Me().turn))
    {
      hide Inv, Step;
      o := RecordUnknown();
      if o.Interrupted? && inside { o := RecordUnknown(); }
      if o.Interrupted? { Take(Crash(w)); }
    }

    /** One try of `_save_failed`: give the lease up at once, keep the row processing with its X result. */
    method SaveFailed() returns (o: Outcome)
      requires Valid() && Me().pc.SaveAbandoned? && HasResult()
      modifies this`state, this`trace
      ensures Valid() && Honest(o) && HasResult()
      ensures !o.InProgressAnswer? && (o.Interrupted? ==> Me().pc.SaveAbandoned?)
      ensures o.Answered? ==> o.response == Response(500, ErrorBody(XPostSaveFailed, Me().turn))
    {
      hide Inv, Step;
      Others();
      var now: Time, dbError: bool, seen: bool := *, *, *;
      if dbError { return Interrupted; }
      var held := Held(state.db.rows, Me().row, w, now, true);
      ExpireMoves(cfg, state, w, now, seen);
      Take(Expire(w, now, seen));
      if !held { return LostLease; }
      return if seen then Answered(ErrorResponse(XPostSaveFailed, Me().turn)) else Interrupted;
    }

    /**
     `_save_with_retry`: at most three attempts, then the save is abandoned. A commit that happened and
     was reported as an error is tried again like any other; so is nothing after an unexpected error.
     */
    method SaveWithRetry() returns (o: Outcome)
      requires Valid() && Me().pc.Saving? && Me().request.XPost?
      modifies this`state, this`trace, this`saves
      ensures Valid() && Honest(o) && !o.InProgressAnswer? && saves <= old(saves) + DB_SAVE_MAX_ATTEMPTS
      ensures o.Answered? && o.response == Response(500, ErrorBody(XPostSaveFailed, Me().turn)) ==>
                saves == old(saves) + DB_SAVE_MAX_ATTEMPTS
      ensures o.Interrupted? ==> (Me().pc.Saving? || Me().pc.SaveAbandoned?) && HasResult()
    {
      hide Inv, Step;
      for attempt := 1 to DB_SAVE_MAX_ATTEMPTS + 1
        invariant Valid() && Me().pc.Saving? && Me().request.XPost? && saves == old(saves) + attempt - 1
      {
        Others();
        ExternalIsKept(cfg, state, w);
        var unexpected: bool := *;
        if unexpected { return Interrupted; }
        var now: Time, dbError: bool, seen: bool, id: nat := *, *, *, *;
        var post := Post(Me().row, Me().request.campaign, Me().pc.published);
        var response := PostResponse(id, Me().turn, post);
        var ctx := CtxOf(state, w);
        var tx := if dbError then DbError
            else SavePost(state.db, ctx, id, Me().request.campaign, Me().pc.published, now);
        SaveStores(cfg, state, w, id, now, dbError, seen, tx, response);
        saves := saves + 1;
        Take(Save(w, id, now, dbError, seen));
        if tx.LeaseLost? { return LostLease; }
        if tx.Committed? && seen { return Answered(response); }
      }
      ExternalIsKept(cfg, state, w);
      TripAbandons(cfg, state, w);
      Take(Trip(w));
      o := SaveFailed();
    }

    /** `_post_to_x` and what follows it: at most one call of X, and none after the lease was lost. */
    method PostToX() returns (o: Outcome)
      requires Valid() && Me().pc.Planning? && Me().row.op == PublishXPost
      requires Publishable(cfg.url, Me().request, Me().row.key)
      modifies this`state, this`trace, this`saves, this`sends
      ensures Valid() && Honest(o) && sends <= old(sends) + 1
    {
      hide Inv, Step, Publishable;
      Others();
      var now: Time, dbError: bool, seen: bool := *, *, *;
      if dbError {
        Take(Crash(w));
        return Interrupted;
      }
      var held := Held(state.db.rows, Me().row, w, now, true);
      MarkMoves(cfg, state, w, now, seen);
      Take(Mark(w, now, seen));
      if !held { return LostLease; }
      if !seen { return Interrupted; }
      Others();
      MarkedIsXPost(cfg, state, w);
      var outcome: XOutcome := *;
      CallMoves(cfg, state, w, outcome);
      sends := sends + 1;
      Take(CallX(w, outcome));
      if Me().pc.CallRejected? {
        o := AnswerRejected();
      } else if Me().pc.CallUnclear? {
        // An error that the client does not classify is recorded by the outer handler itself.
        var classified: bool := *;
        o := OutcomeUnknownAnswer(classified);
      } else {
        o := PersistAndSave();
      }
    }

    /** X definitely refused; an error of the database here makes the outcome unknown. */
    method AnswerRejected() returns (o: Outcome)
      requires Valid() && Me().pc.CallRejected?
      modifies this`state, this`trace
      ensures Valid() && Honest(o)
      ensures o.Answered? ==> o.response == Response(502, ErrorBody(XPostFailed, Me().turn))
                              || o.response == Response(504, ErrorBody(XPostOutcomeUnknown, Me().turn))
    {
      hide Inv, Step;
      Others();
      var now: Time, dbError: bool, seen: bool := *, *, *;
      var held := Held(state.db.rows, Me().row, w, now, true);
      seen := seen || !held;
      RejectedMoves(cfg, state, w, now, dbError, seen);
      if !dbError { FailStores(cfg, state, w, CloseRejected(w, now, false, seen), XPostFailed, Failed, now); }
      Take(CloseRejected(w, now, dbError, seen));
      if dbError || !seen {
        o := OutcomeUnknownAnswer(false);
      } else {
        o := if held then Answered(ErrorResponse(XPostFailed, Me().turn)) else LostLease;
      }
    }

    /** X accepted: persist its answer in a transaction of its own, then save; the outer handler gives up once. */
    method PersistAndSave() returns (o: Outcome)
      requires Valid() && Me().pc.CallAccepted? && Me().request.XPost?
      modifies this`state, this`trace, this`saves
      ensures Valid() && Honest(o) && saves <= old(saves) + DB_SAVE_MAX_ATTEMPTS
    {
      hide Inv, Step;
      Others();
      var now: Time, dbError: bool, seen: bool := *, *, *;
      PersistMoves(cfg, state, w, now, dbError, seen);
      Take(Persist(w, now, dbError, seen));
      if Me().pc.CallUnclear? {
        o := OutcomeUnknownAnswer(true);
        return;
      }
      o := SaveWithRetry();
      if o.Interrupted? {
        if Me().pc.Saving? {
          TripAbandons(cfg, state, w);
          Take(Trip(w));
        }
        o := SaveFailed();
        if o.Interrupted? { Take(Crash(w)); }
      }
    }

    /** `_resume`: save the persisted result without calling X. */
    method Resume() returns (o: Outcome)
      requires Valid() && Me().pc.Resuming? && Me().request.XPost?
      modifies this`state, this`trace, this`saves
      ensures Valid() && Honest(o) && saves <= old(saves) + DB_SAVE_MAX_ATTEMPTS
    {
      hide Inv, Step;
      Others();
      var embedded: bool := *;
      ResumeMoves(cfg, state, w, embedded);
      Take(CheckStored(w, embedded));
      if Me().pc.Saving? {
        o := SaveWithRetry();
      } else {
        o := SaveFailed();
      }
      if o.Interrupted? { Take(Crash(w)); }
    }

    /** `_run` and `replay_after_lease_lost`. */
    method Publish() returns (o: Outcome)
      requires Valid() && Me().row.op == PublishXPost && Me().request.XPost? && (Me().pc.Planning? || Me().pc.Resuming?)
      modifies this`state, this`trace, this`saves, this`sends
      ensures Valid() && Honest(o) && !o.LostLease?
      ensures sends <= old(sends) + 1 && (old(Me().pc.Resuming?) ==> sends == old(sends))
    {
      hide Inv, Step, Publishable;
      if Me().pc.Resuming? {
        o := Resume();
      } else {
        var refused: Option<ErrorCode> := *;
        if refused.Some? && PlanningError(PublishXPost, refused.value) {
          o := FailPlanning(refused.value);
        } else if !Publishable(cfg.url, Me().request, Me().row.key) {
          o := FailPlanning(InvalidXPost);
        } else {
          o := PostToX();
        }
      }
      if o.LostLease? {
        Others();
        RowExists(cfg, state, w);
        var row := state.db.rows[Me().row];
        if row.status != Processing && row.response.Some? { return Answered(row.response.value); }
        return InProgressAnswer;
      }
    }
  }

  // ---------- What each step does to this worker ----------

  lemma RowExists(cfg: Config, s: State, w: Token)
    requires Inv(cfg, s) && w in s.workers
    ensures s.workers[w].row in s.db.rows
  {
    hide DbInv, TokensIssued, OneMark, CallsOk, EvidenceOk, OutcomeOk, PostsDirect;
    assert WorkerOk(cfg, s.db.rows, w, s.workers[w]);
  }

  lemma KeepsWorkerFields(cfg: Config, s: State, e: Event)
    requires TokenOf(e).Some? && TokenOf(e).value in s.workers
    ensures var w := TokenOf(e).value;
            var t := WorkerStep(cfg, s, e);
            w in t.workers && t.workers[w].row == s.workers[w].row && t.workers[w].turn == s.workers[w].turn
            && t.workers[w].request == s.workers[w].request
  {
    hide Complete, Insertable, WriteCampaign, FromExternal, Publishable;
  }

  /** The step that ends the worker's row with this error, from the place where the worker is. */
  predicate EndsWith(s: State, w: Token, e: Event, code: ErrorCode, status: Status, now: Time)
    requires w in s.workers
  {
    match e
    case FailPlan(v, c, at) => 
      v == w && c == code && at == now && s.workers[w].pc.Planning? && status == Failed
      && PlanningError(s.workers[w].row.op, code)
    case CloseUnclear(v, at, _) =>
      v == w && at == now && s.workers[w].pc.CallUnclear? && status == OutcomeUnknown && code == XPostOutcomeUnknown
    case CloseRejected(v, at, dbError, _) =>
      v == w && at == now && !dbError && s.workers[w].pc.CallRejected? && status == Failed && code == XPostFailed
    case _ => false
  }

  /** A held row is ended with the error response that is answered. */
  lemma FailStores(cfg: Config, s: State, w: Token, e: Event, code: ErrorCode, status: Status, now: Time)
    requires Inv(cfg, s) && w in s.workers && EndsWith(s, w, e, code, status, now)
    ensures var k := s.workers[w].row;
            Held(s.db.rows, k, w, now, true) ==>
              var rows := Step(cfg, s, e).db.rows;
              k in rows && rows[k] == FinalRow(s.db.rows[k], status, ErrorResponse(code, s.workers[w].turn))
  {
    hide DbInv, TokensIssued, OneMark, CallsOk, EvidenceOk, OutcomeOk, PostsDirect, Complete;
    assert WorkerOk(cfg, s.db.rows, w, s.workers[w]);
    CompleteFacts(s.db, CtxOf(s, w), status, ErrorResponse(code, s.workers[w].turn), now);
  }

  lemma UnclearMoves(cfg: Config, s: State, w: Token, now: Time, seen: bool)
    requires w in s.workers && s.workers[w].pc.CallUnclear?
    ensures var t := Step(cfg, s, CloseUnclear(w, now, seen));
            w in t.workers && t.workers[w].pc == if seen then Stopped else CallUnclear
  {
    hide Complete;
  }

  lemma ExpireMoves(cfg: Config, s: State, w: Token, now: Time, seen: bool)
    requires w in s.workers && s.workers[w].pc.SaveAbandoned?
    ensures var t := Step(cfg, s, Expire(w, now, seen));
            w in t.workers && t.workers[w].pc ==
              if seen || !Held(s.db.rows, s.workers[w].row, w, now, true) then Stopped else SaveAbandoned
  {
  }

  lemma SaveStores(cfg: Config, s: State, w: Token, id: nat, now: Time, dbError: bool, seen: bool, tx: Tx,
                   response: Response)
    requires Inv(cfg, s) && w in s.workers && s.workers[w].pc.Saving? && s.workers[w].request.XPost?
    requires var worker := s.workers[w];
             tx == if dbError then DbError
                   else SavePost(s.db, CtxOf(s, w), id, worker.request.campaign, worker.pc.published, now)
    requires var worker := s.workers[w];
             response == PostResponse(id, worker.turn, Post(worker.row, worker.request.campaign, worker.pc.published))
    ensures var t := Step(cfg, s, Save(w, id, now, dbError, seen));
            && (tx.Committed? ==>
                  && s.workers[w].row in t.db.rows && s.workers[w].row in s.db.rows
                  && t.db.rows[s.workers[w].row] == FinalRow(s.db.rows[s.workers[w].row], Succeeded, response))
            && ((!tx.Committed? || !seen) && !tx.LeaseLost? ==> w in t.workers && t.workers[w].pc == s.workers[w].pc)
  {
    hide DbInv, TokensIssued, OneMark, CallsOk, EvidenceOk, OutcomeOk, PostsDirect, Complete, Insertable;
    var worker := s.workers[w];
    assert WorkerOk(cfg, s.db.rows, w, worker);
    SaveOnlyCommitsOrLoses(s.db, CtxOf(s, w), id, worker.request.campaign, worker.pc.published, now);
  }

  lemma SaveOnlyCommitsOrLoses(db: Db, ctx: Ctx, id: nat, campaign: nat, published: PublishedPosts.Published, now: Time)
    requires DbInv(db) && CtxOk(db, ctx) && ctx.row.op == PublishXPost
    ensures var tx := SavePost(db, ctx, id, campaign, published, now);
            (tx.Committed? || tx.LeaseLost? || tx.DbError?)
            && (tx.Committed? ==>
                  && ctx.row in db.rows
                  && tx.db.rows == db.rows[ctx.row := FinalRow(db.rows[ctx.row], Succeeded,
                                                               PostResponse(id, ctx.turn,
                                                                 Post(ctx.row, campaign, published)))])
  {
    hide DbCore, PostsMatch, NoDuplicates, Complete;
    var post := Post(ctx.row, campaign, published);
    CompleteKeepsCore(db.(posts := db.posts[id := post]), ctx, Succeeded, PostResponse(id, ctx.turn, post), now, true);
  }

  lemma ExternalIsKept(cfg: Config, s: State, w: Token)
    requires Inv(cfg, s) && w in s.workers && s.workers[w].pc.Saving?
    ensures s.workers[w].row in s.db.rows && s.db.rows[s.workers[w].row].external.Some?
  {
    hide DbInv, TokensIssued, OneMark, CallsOk, EvidenceOk, OutcomeOk, PostsDirect;
    assert WorkerOk(cfg, s.db.rows, w, s.workers[w]);
  }

  lemma TripAbandons(cfg: Config, s: State, w: Token)
    requires w in s.workers && s.workers[w].pc.Saving?
    ensures var t := Step(cfg, s, Trip(w)); t.db == s.db && w in t.workers && t.workers[w].pc.SaveAbandoned?
  {
  }

  lemma MarkMoves(cfg: Config, s: State, w: Token, now: Time, seen: bool)
    requires w in s.workers && s.workers[w].pc.Planning? && s.workers[w].row.op == PublishXPost
    requires Publishable(cfg.url, s.workers[w].request, s.workers[w].row.key)
    ensures var t := Step(cfg, s, Mark(w, now, seen));
            w in t.workers && t.workers[w].pc ==
              if seen && Held(s.db.rows, s.workers[w].row, w, now, true) then ReadyToCall else Stopped
  {
    hide Publishable;
  }

  lemma MarkedIsXPost(cfg: Config, s: State, w: Token)
    requires Inv(cfg, s) && w in s.workers && s.workers[w].pc.ReadyToCall?
    ensures s.workers[w].request.XPost?
  {
    hide DbInv, TokensIssued, OneMark, CallsOk, EvidenceOk, OutcomeOk, PostsDirect;
    assert WorkerOk(cfg, s.db.rows, w, s.workers[w]);
  }

  lemma CallMoves(cfg: Config, s: State, w: Token, outcome: XOutcome)
    requires w in s.workers && s.workers[w].pc.ReadyToCall? && s.workers[w].request.XPost?
    ensures var t := Step(cfg, s, CallX(w, outcome));
            w in t.workers && |t.calls| == |s.calls| + 1
            && (t.workers[w].pc.CallRejected? || t.workers[w].pc.CallUnclear? || t.workers[w].pc.CallAccepted?)
  {
  }

  lemma RejectedMoves(cfg: Config, s: State, w: Token, now: Time, dbError: bool, seen: bool)
    requires w in s.workers && s.workers[w].pc.CallRejected?
    ensures var t := Step(cfg, s, CloseRejected(w, now, dbError, seen));
            w in t.workers && (dbError || !seen ==> t.workers[w].pc.CallUnclear?)
  {
    hide Complete;
  }

  lemma PersistMoves(cfg: Config, s: State, w: Token, now: Time, dbError: bool, seen: bool)
    requires w in s.workers && s.workers[w].pc.CallAccepted? && s.workers[w].request.XPost?
    ensures var t := Step(cfg, s, Persist(w, now, dbError, seen));
            w in t.workers && (t.workers[w].pc.CallUnclear? || t.workers[w].pc.Saving?)
  {
  }

  lemma ResumeMoves(cfg: Config, s: State, w: Token, embedded: bool)
    requires Inv(cfg, s) && w in s.workers && s.workers[w].pc.Resuming? && s.workers[w].request.XPost?
    ensures var t := Step(cfg, s, CheckStored(w, embedded));
            w in t.workers && (t.workers[w].pc.Saving? || t.workers[w].pc.SaveAbandoned?)
            && s.workers[w].row in t.db.rows && t.db.rows[s.workers[w].row].external.Some?
  {
    hide DbInv, TokensIssued, OneMark, CallsOk, EvidenceOk, OutcomeOk, PostsDirect, FromExternal;
    assert WorkerOk(cfg, s.db.rows, w, s.workers[w]);
  }
}

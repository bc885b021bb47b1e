/** What every step other than a tool step leaves of the items and the tool executions. */
module TablesEvolution {
  import opened Options
  import opened Turns
  import opened Idempotency
  import opened PublishedPosts
  import opened Approval
  import opened Protocol
  import Chat

  /** Items are only added, never under a tool key, and an execution is at most cancelled while live. */
  predicate Evolves(a: Tables, b: Tables) {
    && (forall r | r in a.items :: r in b.items && b.items[r] == a.items[r])
    && (forall r | r in b.items && r !in a.items :: Appendable(r.key))
    && b.execs.Keys == a.execs.Keys
    && (forall c | c in a.execs :: ExecEvolves(a.execs[c], b.execs[c]))
  }

  predicate ExecEvolves(x: Exec, y: Exec) {
    y == x || (Live(x.status) && y == x.(status := ExecCancelled))
  }

  lemma EvolvesTransitive(a: Tables, b: Tables, c: Tables)
    requires Evolves(a, b) && Evolves(b, c)
    ensures Evolves(a, c)
  {
    assert forall r | r in c.items && r !in a.items :: r in b.items || r !in b.items;
  }

  lemma OpenEvolves(a: Tables, turn: TurnId, session: SessionId, now: Time, key: ItemKey, content: string)
    requires Appendable(key)
    ensures Evolves(a, AppendOpen(CreateTurn(a, turn, session, now), ItemRef(turn, key), UserMessage, content))
  {
  }

  lemma AppendEvolves(a: Tables, ref: ItemRef, kind: ItemType, content: string)
    requires Appendable(ref.key) && Running(a.turns, ref.turn)
    ensures Evolves(a, AppendOpen(a, ref, kind, content))
  {
  }

  lemma EndEvolves(a: Tables, gone: set<TurnId>, status: TurnStatus)
    ensures Evolves(a, EndTurns(a, gone, status))
  {
  }

  lemma AppendAndFinishEvolves(a: Tables, ref: ItemRef, content: string, status: TurnStatus)
    requires Appendable(ref.key) && Running(a.turns, ref.turn)
    ensures Evolves(a, FinishTurn(AppendOpen(a, ref, AssistantMessage, content), ref.turn, status))
  {
    hide Evolves, EndTurns, Insert;
    var b := AppendOpen(a, ref, AssistantMessage, content);
    AppendEvolves(a, ref, AssistantMessage, content);
    SameEvolves(b);
    EndEvolves(b, {ref.turn}, status);
    EvolvesTransitive(a, b, FinishTurn(b, ref.turn, status));
  }

  lemma SameEvolves(a: Tables)
    ensures Evolves(a, a)
  {
  }

  lemma CompleteEvolves(db: Db, ctx: Ctx, status: Status, response: Response, now: Time, lease: bool)
    ensures Evolves(db.tables, After(db, Complete(db, ctx, status, response, now, lease)).tables)
  {
    hide Evolves, FinishTurn, Insert;
    SameEvolves(db.tables);
    if Running(db.tables.turns, ctx.turn) { ApiTurnEvolves(db.tables, ctx.turn, ctx.row.key, status == Succeeded); }
  }

  lemma ApiTurnEvolves(a: Tables, turn: TurnId, key: Key, success: bool)
    requires Running(a.turns, turn)
    ensures FinishApiTurn(a, turn, key, success).Some? && Evolves(a, FinishApiTurn(a, turn, key, success).value)
  {
    hide Evolves, FinishTurn, Insert;
    var content := if success then "api_result: success" else "api_result: error";
    AppendAndFinishEvolves(a, ItemRef(turn, ApprovalResultKey(key)), content, TurnCompleted);
  }

  lemma AuditEvolves(a: Tables, turn: TurnId, session: SessionId, now: Time, posted: Option<string>)
    ensures Evolves(a, AuditTurn(a, turn, session, now, posted))
  {
    hide Evolves, FinishTurn, Insert;
    var asked := AppendOpen(CreateTurn(a, turn, session, now), ItemRef(turn, PlainKey("reconciliation-decision")),
                            UserMessage, Decision(posted));
    OpenEvolves(a, turn, session, now, PlainKey("reconciliation-decision"), Decision(posted));
    StillRunning(a, turn, session, now, PlainKey("reconciliation-decision"), Decision(posted));
    AppendAndFinishEvolves(asked, ItemRef(turn, PlainKey("reconciliation-result")), AuditResult(posted), TurnCompleted);
    EvolvesTransitive(a, asked, AuditTurn(a, turn, session, now, posted));
  }

  lemma StillRunning(a: Tables, turn: TurnId, session: SessionId, now: Time, key: ItemKey, content: string)
    ensures Running(AppendOpen(CreateTurn(a, turn, session, now), ItemRef(turn, key), UserMessage, content).turns, turn)
  {
  }

  lemma StartEvolves(db: Db, args: ClaimArgs)
    requires args.row !in db.rows
    ensures Evolves(db.tables, AfterClaim(db, StartNew(db, args)).tables)
  {
    hide Evolves, AppendOpen, HasUnresolvedDuplicate, Complete;
    var reserved := Reserve(db.rows, args.row, args.session, args.request, args.token,
                            args.now + args.leaseSeconds).value;
    var withTurn := OpenApiTurn(db.(rows := reserved), args);
    OpenEvolves(db.tables, args.turn, args.session, args.now, ApprovalRequestKey(args.row.key), "approval request");
    SameEvolves(db.tables);
    var ctx := Ctx(args.row, args.token, args.turn);
    CompleteEvolves(withTurn, ctx, Failed, ErrorResponse(XPostUnresolved, args.turn), args.now, true);
    EvolvesTransitive(db.tables, withTurn.tables,
      After(withTurn, Complete(withTurn, ctx, Failed, ErrorResponse(XPostUnresolved, args.turn), args.now,
                               true)).tables);
  }

  lemma DecideEvolves(db: Db, args: ClaimArgs)
    requires args.row in db.rows
    ensures Evolves(db.tables, AfterClaim(db, DecideExisting(db, args)).tables)
  {
    hide Evolves, AppendOpen, FinishApiTurn;
    SameEvolves(db.tables);
    OpenEvolves(db.tables, args.turn, db.rows[args.row].session, args.now, ApprovalRequestKey(args.row.key),
                "approval request");
    if db.rows[args.row].turn.Some? && Running(db.tables.turns, db.rows[args.row].turn.value) {
      ApiTurnEvolves(db.tables, db.rows[args.row].turn.value, args.row.key, false);
    } else if db.rows[args.row].turn.Some? {
      NotRunning(db.tables, db.rows[args.row].turn.value, args.row.key);
    }
  }

  lemma NotRunning(a: Tables, turn: TurnId, key: Key)
    requires !Running(a.turns, turn)
    ensures FinishApiTurn(a, turn, key, false).None?
  {
  }

  predicate IsToolEvent(e: Event) {
    e.ChatEvent? && (e.chat.PrepareTool? || e.chat.ClaimTool? || e.chat.AttemptTool? || e.chat.FinishTool?)
  }

  lemma ChatEvolves(a: Tables, api: set<TurnId>, e: Chat.ChatEvent)
    requires e.BeginChat? || e.RecoverAll? || e.CreateChild? || e.EndChat?
    ensures Evolves(a, Chat.ChatStep(a, api, e))
  {
    hide Evolves, EndTurns, Insert;
    SameEvolves(a);
    match e
    case BeginChat(turn, session, content, staleBefore, now) =>
      var recovered := RecoverStale(a, Some(session), staleBefore, api);
      EndEvolves(a, Stale(a.turns, Some(session), staleBefore, api), TurnFailed);
      OpenEvolves(recovered, turn, session, now, PlainKey("user-message"), content);
      BeginIsOpen(a, api, turn, session, content, staleBefore, now);
      EvolvesTransitive(a, recovered,
        AppendOpen(CreateTurn(recovered, turn, session, now), ItemRef(turn, PlainKey("user-message")), UserMessage,
                   content));
    case RecoverAll(staleBefore) => EndEvolves(a, Stale(a.turns, None, staleBefore, api), TurnFailed);
    case CreateChild(turn, session, content, now) =>
      OpenEvolves(a, turn, session, now, PlainKey("child-input"), content);
      ChildIsOpen(a, turn, session, content, now);
    case EndChat(turn, name, reply, status) => EndChatEvolves(a, turn, name, reply, status);
  }

  lemma BeginIsOpen(a: Tables, api: set<TurnId>, turn: TurnId, session: SessionId, content: string, staleBefore: Time,
                    now: Time)
    ensures var begun := Chat.Begin(a, api, turn, session, content, staleBefore, now);
            var created := CreateTurn(RecoverStale(a, Some(session), staleBefore, api), turn, session, now);
            begun.Some? ==>
              begun.value == AppendOpen(created, ItemRef(turn, PlainKey("user-message")), UserMessage, content)
  {
    hide RecoverStale, Chat.HasActiveChat, Insert;
  }

  lemma ChildIsOpen(a: Tables, turn: TurnId, session: SessionId, content: string, now: Time)
    ensures Chat.Child(a, turn, session, content, now) ==
            AppendOpen(CreateTurn(a, turn, session, now), ItemRef(turn, PlainKey("child-input")), UserMessage, content)
  {
    hide Insert;
  }

  lemma EndChatEvolves(a: Tables, turn: TurnId, name: string, reply: Option<string>, status: TurnStatus)
    ensures Evolves(a, Chat.EndTurn(a, turn, name, reply, status))
  {
    hide Evolves, EndTurns, Insert;
    SameEvolves(a);
    EndEvolves(a, {turn}, status);
    if reply.Some? && Running(a.turns, turn) {
      AppendAndFinishEvolves(a, ItemRef(turn, PlainKey(name)), reply.value, status);
    }
  }

  lemma WorkerEvolves(cfg: Config, s: State, e: Event)
    requires TokenOf(e).Some? && TokenOf(e).value in s.workers
    ensures Evolves(s.db.tables, WorkerStep(cfg, s, e).db.tables)
  {
    hide Evolves, Complete, Insertable, WriteCampaign, FromExternal, Publishable;
    SameEvolves(s.db.tables);
    var w := TokenOf(e).value;
    var worker := s.workers[w];
    var ctx := CtxOf(s, w);
    match e
    case FailPlan(_, code, now) => CompleteEvolves(s.db, ctx, Failed, ErrorResponse(code, ctx.turn), now, true);
    case CloseRejected(_, now, _, _) =>
      CompleteEvolves(s.db, ctx, Failed, ErrorResponse(XPostFailed, ctx.turn), now, true);
    case CloseUnclear(_, now, _) =>
      CompleteEvolves(s.db, ctx, OutcomeUnknown, ErrorResponse(XPostOutcomeUnknown, ctx.turn), now, true);
    case Save(_, id, now, _, _) =>
      if worker.pc.Saving? && worker.request.XPost? {
        var post := Post(worker.row, worker.request.campaign, worker.pc.published);
        CompleteEvolves(s.db.(posts := s.db.posts[id := post]), ctx, Succeeded, PostResponse(id, ctx.turn, post), now,
                        true);
      }
    case SaveUpsert(_, company, newId, generated, now, _) =>
      if worker.request.Upsert? && WriteCampaign(s.db.campaigns, company, newId, worker.request, generated, now).Some? {
        var campaigns := WriteCampaign(s.db.campaigns, company, newId, worker.request, generated, now).value;
        CompleteEvolves(s.db.(campaigns := campaigns), ctx, Succeeded,
                        CampaignResponse(worker.request, newId, ctx.turn, now), now, true);
      }
    case _ =>
  }

  lemma ClaimStepEvolves(s: State, args: ClaimArgs)
    ensures Evolves(s.db.tables, ClaimStep(s, args).db.tables)
  {
    hide Evolves, StartNew, DecideExisting;
    SameEvolves(s.db.tables);
    if args.row in s.db.rows { DecideEvolves(s.db, args); } else { StartEvolves(s.db, args); }
  }

  /** Approval transactions, operators, chat turns and recovery touch no tool item and no attempt count. */
  lemma StepEvolves(cfg: Config, s: State, e: Event)
    requires !IsToolEvent(e)
    ensures Evolves(s.db.tables, Step(cfg, s, e).db.tables)
  {
    hide Evolves, WorkerStep, ClaimStep, AuditTurn, Insertable;
    SameEvolves(s.db.tables);
    if TokenOf(e).Some? {
      if TokenOf(e).value in s.workers { WorkerEvolves(cfg, s, e); }
    } else {
      match e
      case Claim(args) => ClaimStepEvolves(s, args.(leaseSeconds := cfg.leaseSeconds));
      case ResolveAsPosted(k, _, xPostId, _, audit, now) =>
        if k in s.db.rows { AuditEvolves(s.db.tables, audit, s.db.rows[k].session, now, Some(xPostId)); }
      case ResolveAsNotPosted(k, audit, now) =>
        if k in s.db.rows { AuditEvolves(s.db.tables, audit, s.db.rows[k].session, now, None); }
      case ChatEvent(chat) => ChatEvolves(s.db.tables, ApiTurns(s.db.rows), chat);
      case _ =>
    }
  }
}

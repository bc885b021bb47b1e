/**
 What becomes of an execution that is left alone: from every reachable state, what X answers decides the row, the
 response and the post.
 */
module ProtocolOutcomes {
  import opened Options
  import opened Idempotency
  import opened PublishedPosts
  import opened Approval
  import opened ApprovalInvariant
  import opened Protocol
  import opened ProtocolInvariant
  import opened ProtocolTheorems
  import opened ProtocolProgress

  /** The worker recorded the start of the effect, has not called X yet and holds its row. */
  predicate Ready(s: State, w: Token, now: Time) {
    w in s.workers && s.workers[w].pc.ReadyToCall? && Held(s.db.rows, s.workers[w].row, w, now, true)
  }

  /** What a ready worker's call leaves: its answer and nothing else. */
  lemma AfterTheCall(cfg: Config, s: State, w: Token, outcome: XOutcome, now: Time)
    requires Inv(cfg, s) && Ready(s, w, now)
    ensures var t := Step(cfg, s, CallX(w, outcome));
            && s.workers[w].request.XPost? && s.workers[w].row.op == PublishXPost && s.workers[w].row in s.db.rows
            && s.db.rows[s.workers[w].row].turn == Some(s.workers[w].turn)
            && s.db.rows[s.workers[w].row].request == s.workers[w].request
            && t.db == s.db && w in t.workers && t.workers[w] == s.workers[w].(pc := t.workers[w].pc)
            && (outcome.XRefused? ==> t.workers[w].pc == CallRejected)
            && (outcome.XUnclear? || (outcome.XAccepted? && outcome.xPostId == "") ==> t.workers[w].pc == CallUnclear)
            && (outcome.XAccepted? && outcome.xPostId != "" ==>
                  t.workers[w].pc.CallAccepted? && t.workers[w].pc.external.xPostId == outcome.xPostId
                  && t.workers[w].pc.external.publishedAt == outcome.at)
  {
    hide DbInv, TokensIssued, OneMark, CallsOk, EvidenceOk, OutcomeOk, PostsDirect;
    assert WorkerOk(cfg, s.db.rows, w, s.workers[w]);
  }

  lemma TwoEvents(cfg: Config, s: State, a: Event, b: Event)
    ensures Run(cfg, s, [a, b]) == Step(cfg, Step(cfg, s, a), b)
  {
    hide Step;
    assert [a, b][1..] == [b];
    OneEvent(cfg, Step(cfg, s, a), b);
  }

  /** X refuses: the row fails and answers 502. */
  lemma RefusalFails(cfg: Config, events: seq<Event>, w: Token, now: Time)
    requires Ready(Reached(cfg, events), w, now)
    ensures var s := Reached(cfg, events);
            var k := s.workers[w].row;
            var t := Reached(cfg, events + [CallX(w, XRefused), CloseRejected(w, now, false, true)]);
            && k in t.db.rows && k in s.db.rows && t.db.rows[k].status == Failed && s.db.rows[k].turn.Some?
            && t.db.rows[k].response == Some(Response(502, ErrorBody(XPostFailed, s.db.rows[k].turn.value)))
            && t.db.posts == s.db.posts
  {
    hide Inv, Step;
    var s := Reached(cfg, events);
    var call, close := CallX(w, XRefused), CloseRejected(w, now, false, true);
    ReachedInv(cfg, events);
    AfterTheCall(cfg, s, w, XRefused, now);
    StepKeepsInv(cfg, s, call);
    ClosesWith(cfg, Step(cfg, s, call), w, close, XPostFailed, Failed, now);
    RunConcat(cfg, INITIAL, events, [call, close]);
    TwoEvents(cfg, s, call, close);
  }

  /** The outcome stays unclear: the row becomes outcome-unknown and answers 504. */
  lemma UnclearBecomesUnknown(cfg: Config, events: seq<Event>, w: Token, outcome: XOutcome, now: Time)
    requires Ready(Reached(cfg, events), w, now)
    requires outcome.XUnclear? || (outcome.XAccepted? && outcome.xPostId == "")
    ensures var s := Reached(cfg, events);
            var k := s.workers[w].row;
            var t := Reached(cfg, events + [CallX(w, outcome), CloseUnclear(w, now, true)]);
            && k in t.db.rows && k in s.db.rows && t.db.rows[k].status == OutcomeUnknown && s.db.rows[k].turn.Some?
            && t.db.rows[k].response == Some(Response(504, ErrorBody(XPostOutcomeUnknown, s.db.rows[k].turn.value)))
            && t.db.posts == s.db.posts
  {
    hide Inv, Step;
    var s := Reached(cfg, events);
    var call, close := CallX(w, outcome), CloseUnclear(w, now, true);
    ReachedInv(cfg, events);
    AfterTheCall(cfg, s, w, outcome, now);
    StepKeepsInv(cfg, s, call);
    ClosesWith(cfg, Step(cfg, s, call), w, close, XPostOutcomeUnknown, OutcomeUnknown, now);
    RunConcat(cfg, INITIAL, events, [call, close]);
    TwoEvents(cfg, s, call, close);
  }

  lemma ClosesWith(cfg: Config, s: State, w: Token, e: Event, code: ErrorCode, status: Status, now: Time)
    requires Inv(cfg, s) && w in s.workers && Held(s.db.rows, s.workers[w].row, w, now, true)
    requires || (e == CloseRejected(w, now, false, true) && s.workers[w].pc.CallRejected? && code == XPostFailed
                 && status == Failed)
             || (e == CloseUnclear(w, now, true) && s.workers[w].pc.CallUnclear? && code == XPostOutcomeUnknown
                 && status == OutcomeUnknown)
    ensures var k := s.workers[w].row;
            var t := Step(cfg, s, e);
            && k in t.db.rows && t.db.rows[k].status == status && t.db.posts == s.db.posts
            && t.db.rows[k].response == Some(ErrorResponse(code, s.workers[w].turn))
  {
    hide DbInv, TokensIssued, OneMark, CallsOk, EvidenceOk, OutcomeOk, PostsDirect, Complete;
    assert WorkerOk(cfg, s.db.rows, w, s.workers[w]);
    CompleteFacts(s.db, CtxOf(s, w), status, ErrorResponse(code, s.workers[w].turn), now);
    CompleteEffect(s.db, CtxOf(s, w), status, ErrorResponse(code, s.workers[w].turn), now);
  }

  /** No other post has this X id or this link. */
  predicate FreeFor(posts: map<nat, Post>, xPostId: string, campaign: nat, key: Key) {
    forall p | p in posts ::
      posts[p].published.xPostId != xPostId
      && !(posts[p].published.tracking.campaign == campaign && posts[p].published.tracking.content == key)
  }

  /**
   X accepts with an id of at most 255 characters that no other post has: the answer is stored, the post is saved
   with the columns of the request and that id and time, and the row answers 201 with them.
   */
  lemma AcceptanceSaves(cfg: Config, events: seq<Event>, w: Token, id: string, at: Time, p: nat, now: Time)
    requires Ready(Reached(cfg, events), w, now) && id != "" && |id| <= MAX_X_POST_ID_LENGTH
    requires var s := Reached(cfg, events);
             p !in s.db.posts && s.workers[w].request.XPost?
             && FreeFor(s.db.posts, id, s.workers[w].request.campaign, s.workers[w].row.key)
    ensures var s := Reached(cfg, events);
            var k := s.workers[w].row;
            var request := s.workers[w].request;
            var link := cfg.url(request.landingUrl, request.campaign, k.key);
            var ending := [CallX(w, XAccepted(id, at)), Persist(w, now, false, true), Save(w, p, now, false, true)];
            var t := Reached(cfg, events + ending);
            && k in s.db.rows && s.db.rows[k].request == request && s.db.rows[k].turn.Some?
            && k in t.db.rows && t.db.rows[k].status == Succeeded
            && t.db.rows[k].external == Some(ExternalResult(id, request.text + "\n" + link, link, at))
            && t.db.rows[k].response == Some(Response(201, PostBody(p, s.db.rows[k].turn.value, request.campaign, id,
                                                                    request.text, link, at)))
            && t.db.posts == s.db.posts[p := Post(k, request.campaign, Published(request.text, id, at,
                 Tracking(request.landingUrl, "x", "social", request.campaign, k.key, link)))]
  {
    hide Inv, Step;
    var s := Reached(cfg, events);
    var call, persist, save := CallX(w, XAccepted(id, at)), Persist(w, now, false, true), Save(w, p, now, false, true);
    ReachedInv(cfg, events);
    AfterTheCall(cfg, s, w, XAccepted(id, at), now);
    var s1 := Step(cfg, s, call);
    StepKeepsInv(cfg, s, call);
    AfterPersisting(cfg, s1, w, now);
    var s2 := Step(cfg, s1, persist);
    StepKeepsInv(cfg, s1, persist);
    AfterSaving(cfg, s2, w, p, now);
    RunConcat(cfg, INITIAL, events, [call, persist, save]);
    RunOfThree(cfg, s, call, persist, save);
  }

  lemma AfterPersisting(cfg: Config, s: State, w: Token, now: Time)
    requires Inv(cfg, s) && w in s.workers && s.workers[w].pc.CallAccepted? && s.workers[w].request.XPost?
    requires Held(s.db.rows, s.workers[w].row, w, now, true)
    ensures var k, x, request := s.workers[w].row, s.workers[w].pc.external, s.workers[w].request;
            var link := cfg.url(request.landingUrl, request.campaign, k.key);
            var t := Step(cfg, s, Persist(w, now, false, true));
            && t.db == s.db.(rows := s.db.rows[k := s.db.rows[k].(external := Some(x))]) && w in t.workers
            && x == ExternalResult(x.xPostId, request.text + "\n" + link, link, x.publishedAt)
            && t.workers[w] == s.workers[w].(pc := Saving(Published(request.text, x.xPostId, x.publishedAt,
                 Tracking(request.landingUrl, "x", "social", request.campaign, k.key, link))))
            && Held(t.db.rows, k, w, now, true)
  {
    hide DbInv, TokensIssued, OneMark, CallsOk, EvidenceOk, OutcomeOk, PostsDirect;
    assert WorkerOk(cfg, s.db.rows, w, s.workers[w]);
  }

  lemma AfterSaving(cfg: Config, s: State, w: Token, p: nat, now: Time)
    requires Inv(cfg, s) && w in s.workers && s.workers[w].pc.Saving? && s.workers[w].request.XPost?
    requires Held(s.db.rows, s.workers[w].row, w, now, true) && p !in s.db.posts
    requires var x := s.workers[w].pc.published;
             |x.xPostId| <= MAX_X_POST_ID_LENGTH
             && FreeFor(s.db.posts, x.xPostId, x.tracking.campaign, x.tracking.content)
    ensures var k, x := s.workers[w].row, s.workers[w].pc.published;
            var t := Step(cfg, s, Save(w, p, now, false, true));
            && k in t.db.rows && t.db.rows[k].status == Succeeded && t.db.rows[k].external == s.db.rows[k].external
            && t.db.rows[k].response == Some(Response(201, PostBody(p, s.workers[w].turn, s.workers[w].request.campaign,
                                                                    x.xPostId, x.text, x.tracking.trackedUrl,
                                                                    x.publishedAt)))
            && t.db.posts == s.db.posts[p := Post(k, s.workers[w].request.campaign, x)]
  {
    hide DbInv, TokensIssued, OneMark, CallsOk, EvidenceOk, OutcomeOk, PostsDirect, Complete;
    var worker := s.workers[w];
    assert WorkerOk(cfg, s.db.rows, w, worker);
    NoPostYet(s.db, worker.row);
    var post := Post(worker.row, worker.request.campaign, worker.pc.published);
    assert Insertable(s.db.posts, p, post);
    SaveCommits(s.db, CtxOf(s, w), p, worker.request.campaign, worker.pc.published, now);
    CompleteEffect(s.db.(posts := s.db.posts[p := post]), CtxOf(s, w), Succeeded,
                   PostResponse(p, worker.turn, post), now);
  }

  /** An execution that only plans and holds its row gets ready by recording the start. */
  lemma MarkGetsReady(cfg: Config, events: seq<Event>, w: Token, now: Time)
    requires var s := Reached(cfg, events);
             w in s.workers && s.workers[w].pc.Planning? && s.workers[w].row.op == PublishXPost
             && Publishable(cfg.url, s.workers[w].request, s.workers[w].row.key)
             && Held(s.db.rows, s.workers[w].row, w, now, true)
    ensures Ready(Reached(cfg, events + [Mark(w, now, true)]), w, now)
  {
    hide Inv, Publishable;
    RunConcat(cfg, INITIAL, events, [Mark(w, now, true)]);
    OneEvent(cfg, Reached(cfg, events), Mark(w, now, true));
  }
}

/** What every reachable state of the approval protocol satisfies. */
module ProtocolInvariant {
  import opened Options
  import opened Turns
  import opened Idempotency
  import opened PublishedPosts
  import opened Approval
  import opened ApprovalInvariant
  import opened Protocol
  import Campaigns
  import Chat

  /** X published a post for the row and answered with this id. */
  ghost predicate Evidence(calls: seq<Call>, row: RowKey, xPostId: string) {
    exists c :: c in calls && c.row == row && c.published && c.xPostId == xPostId
  }

  predicate Sent(pc: Pc) { pc.ReadyToCall? || pc.CallRejected? || pc.CallUnclear? || pc.CallAccepted? }

  /** Places in which the marking worker has not handed over its X result yet. */
  predicate BeforeHandOver(pc: Pc) { pc.ReadyToCall? || pc.CallRejected? || pc.CallAccepted? }

  /** A worker and its row agree. */
  predicate WorkerOk(cfg: Config, rows: Rows, w: Token, worker: Worker) {
    && worker.row in rows
    && rows[worker.row].turn == Some(worker.turn)
    && rows[worker.row].request == worker.request
    && (worker.marked ==> rows[worker.row].started.Some? && worker.row.op == PublishXPost && worker.request.XPost?)
    && (worker.marked ==> Publishable(cfg.url, worker.request, worker.row.key))
    && (Sent(worker.pc) ==> worker.marked)
    && (worker.pc.Planning? ==> !worker.marked)
    && (worker.pc.Planning? && worker.row.op == PublishXPost && Owns(rows, worker.row, w) ==>
        rows[worker.row].started.None?)
    && (BeforeHandOver(worker.pc) ==> rows[worker.row].external.None?)
    && (worker.pc.Resuming? ==> rows[worker.row].external == Some(worker.pc.stored))
    && (worker.pc.Resuming? || worker.pc.Saving? ==> worker.row.op == PublishXPost)
    && (worker.pc.CallAccepted? ==>
          worker.pc.external == ResultOf(cfg.url, worker.request, worker.row.key, worker.pc.external.xPostId,
                                         worker.pc.external.publishedAt))
    && (worker.pc.Saving? ==> SavesDirect(cfg, rows[worker.row], worker.row, worker.request, worker.pc.published))
  }

  /** `published` is what the uninterrupted run would save for the persisted X result. */
  predicate SavesDirect(cfg: Config, row: Row, k: RowKey, request: Request, published: PublishedPosts.Published) {
    row.external.Some? && request.XPost?
    && published == DirectPost(cfg.url, request, k.key, row.external.value.xPostId, row.external.value.publishedAt)
  }

  ghost predicate WorkersOk(cfg: Config, rows: Rows, workers: map<Token, Worker>) {
    forall w | w in workers :: WorkerOk(cfg, rows, w, workers[w])
  }

  /** Every token in a row was issued to a worker of that row. */
  ghost predicate TokensIssued(rows: Rows, workers: map<Token, Worker>) {
    forall k | k in rows :: rows[k].token in workers && workers[rows[k].token].row == k
  }

  /** At most one worker per row ever recorded the start of the external effect. */
  ghost predicate OneMark(workers: map<Token, Worker>) {
    forall w, v | Marked(workers, w) && Marked(workers, v) :: workers[w].row == workers[v].row ==> w == v
  }

  predicate Marked(workers: map<Token, Worker>, w: Token) { w in workers && workers[w].marked }

  /** Every call was made by a marked worker of its row, after which that worker calls no more. */
  ghost predicate CallsOk(calls: seq<Call>, workers: map<Token, Worker>) {
    && (forall c | c in calls ::
          Marked(workers, c.token) && workers[c.token].row == c.row && !workers[c.token].pc.ReadyToCall?
          && (workers[c.token].pc.CallRejected? ==> !c.published))
    && (forall i, j | 0 <= i < j < |calls| :: calls[i].token != calls[j].token)
  }

  /** A persisted or announced X result is one that X really gave for that row. */
  ghost predicate EvidenceOk(rows: Rows, workers: map<Token, Worker>, calls: seq<Call>) {
    && (forall k | k in rows && rows[k].external.Some? :: Evidence(calls, k, rows[k].external.value.xPostId))
    && (forall w | w in workers && workers[w].pc.CallAccepted? ::
          Evidence(calls, workers[w].row, workers[w].pc.external.xPostId))
  }

  /** No operator involved: failed means X published nothing, succeeded means X's result was persisted. */
  ghost predicate OutcomeOk(s: State) {
    && (forall k | k in s.operator :: k in s.db.rows && Final(s.db.rows[k].status))
    && (forall c | c in s.calls && c.published && c.row !in s.operator ::
          c.row in s.db.rows && s.db.rows[c.row].status != Failed)
    && (forall w | w in s.workers && s.workers[w].pc.ReadyToCall? && s.workers[w].row !in s.operator ::
          s.workers[w].row in s.db.rows && s.db.rows[s.workers[w].row].status != Failed)
  }

  /** Every saved post is the one the uninterrupted run would have saved. */
  ghost predicate PostsDirect(cfg: Config, s: State) {
    forall p | p in s.db.posts && s.db.posts[p].request !in s.operator ::
      PostDirect(cfg, s.db.rows, s.db.posts[p])
  }

  predicate PostDirect(cfg: Config, rows: Rows, post: Post) {
    && post.request in rows
    && SavesDirect(cfg, rows[post.request], post.request, rows[post.request].request, post.published)
    && post.campaign == rows[post.request].request.campaign
  }

  ghost predicate ProtocolInv(cfg: Config, s: State) {
    && WorkersOk(cfg, s.db.rows, s.workers)
    && TokensIssued(s.db.rows, s.workers)
    && OneMark(s.workers)
    && CallsOk(s.calls, s.workers)
    && EvidenceOk(s.db.rows, s.workers, s.calls)
    && OutcomeOk(s)
    && PostsDirect(cfg, s)
  }

  ghost predicate Inv(cfg: Config, s: State) { DbInv(s.db) && ProtocolInv(cfg, s) }

  lemma InitialInv(cfg: Config)
    ensures Inv(cfg, INITIAL)
  {
    EmptyDbInv();
  }

  // ---------- How one row and one worker may change ----------

  /** Nothing recorded in a row is ever taken back. */
  predicate RowEvolves(r: Row, r': Row) {
    && r'.turn == r.turn && r'.session == r.session && r'.request == r.request
    && (r.started.Some? ==> r'.started.Some?)
    && (r.external.Some? ==> r'.external == r.external)
  }

  /** The change of the row leaves worker `v` where it was: it did not gain the row, nor lose its result. */
  predicate Unaffected(r: Row, r': Row, v: Token, worker: Worker) {
    && (r'.status == Processing && r'.token == v ==>
          r.status == Processing && r.token == v && r'.started == r.started)
    && (BeforeHandOver(worker.pc) ==> r'.external == r.external)
  }

  lemma OtherWorker(cfg: Config, rows: Rows, k: RowKey, r': Row, v: Token, worker: Worker)
    requires WorkerOk(cfg, rows, v, worker) && k in rows && RowEvolves(rows[k], r')
    requires worker.row == k ==> Unaffected(rows[k], r', v, worker)
    ensures WorkerOk(cfg, rows[k := r'], v, worker)
  {
  }

  lemma WorkersEvolve(cfg: Config, rows: Rows, workers: map<Token, Worker>, k: RowKey, r': Row, w: Token,
                      worker': Worker)
    requires WorkersOk(cfg, rows, workers) && k in rows && RowEvolves(rows[k], r')
    requires WorkerOk(cfg, rows[k := r'], w, worker')
    requires forall v | v in workers && v != w && workers[v].row == k :: Unaffected(rows[k], r', v, workers[v])
    ensures WorkersOk(cfg, rows[k := r'], workers[w := worker'])
  {
    hide WorkerOk, RowEvolves, Unaffected;
    forall v | v in workers && v != w ensures WorkerOk(cfg, rows[k := r'], v, workers[v]) {
      OtherWorker(cfg, rows, k, r', v, workers[v]);
    }
  }

  lemma EvidenceEvolves(rows: Rows, workers: map<Token, Worker>, calls: seq<Call>, k: RowKey, r': Row, w: Token,
                        worker': Worker)
    requires EvidenceOk(rows, workers, calls) && k in rows
    requires r'.external == rows[k].external || (r'.external.Some? && Evidence(calls, k, r'.external.value.xPostId))
    requires worker'.pc.CallAccepted? ==> Evidence(calls, worker'.row, worker'.pc.external.xPostId)
    ensures EvidenceOk(rows[k := r'], workers[w := worker'], calls)
  {
    hide Evidence;
  }

  /** The calls on record stay explained when worker `w` moves to a place after its call. */
  lemma CallsMove(calls: seq<Call>, workers: map<Token, Worker>, w: Token, worker': Worker)
    requires CallsOk(calls, workers)
    requires w in workers ==> worker'.row == workers[w].row && (workers[w].marked ==> worker'.marked)
    requires forall c | c in calls && c.token == w ::
               w in workers && !worker'.pc.ReadyToCall? && !worker'.pc.CallRejected?
    ensures CallsOk(calls, workers[w := worker'])
  {
  }

  lemma PostEvolves(cfg: Config, rows: Rows, k: RowKey, r': Row, post: Post)
    requires PostDirect(cfg, rows, post) && k in rows && RowEvolves(rows[k], r')
    ensures PostDirect(cfg, rows[k := r'], post)
  {
  }

  lemma PostsEvolve(cfg: Config, s: State, t: State, k: RowKey, r': Row)
    requires PostsDirect(cfg, s) && k in s.db.rows && RowEvolves(s.db.rows[k], r')
    requires t.db.rows == s.db.rows[k := r'] && t.db.posts == s.db.posts && s.operator <= t.operator
    ensures PostsDirect(cfg, t)
  {
    hide PostDirect, RowEvolves;
    forall p | p in t.db.posts && t.db.posts[p].request !in t.operator
      ensures PostDirect(cfg, t.db.rows, t.db.posts[p])
    {
      PostEvolves(cfg, s.db.rows, k, r', s.db.posts[p]);
    }
  }

  lemma OutcomeEvolves(s: State, t: State, k: RowKey, r': Row, w: Token, worker': Worker)
    requires OutcomeOk(s) && k in s.db.rows && t.db.rows == s.db.rows[k := r']
    requires t.workers == s.workers[w := worker'] && t.calls == s.calls && t.operator == s.operator
    requires k in s.operator ==> Final(r'.status)
    requires r'.status == Failed && k !in s.operator ==>
               (forall c | c in s.calls :: c.row == k ==> !c.published)
               && (forall v | v in t.workers && t.workers[v].row == k :: !t.workers[v].pc.ReadyToCall?)
    requires worker'.pc.ReadyToCall? && worker'.row !in s.operator ==>
               worker'.row in t.db.rows && t.db.rows[worker'.row].status != Failed
    ensures OutcomeOk(t)
  {
  }

  lemma TokensEvolve(rows: Rows, workers: map<Token, Worker>, k: RowKey, r': Row, w: Token, worker': Worker)
    requires TokensIssued(rows, workers)
    requires w in workers ==> worker'.row == workers[w].row
    requires if k in rows && r'.token == rows[k].token then true else r'.token == w && worker'.row == k
    ensures TokensIssued(rows[k := r'], workers[w := worker'])
  {
  }

  lemma MarksKept(workers: map<Token, Worker>, w: Token, worker': Worker)
    requires OneMark(workers)
    requires worker'.marked ==>
               (w in workers && workers[w].marked && worker'.row == workers[w].row)
               || (forall v | Marked(workers, v) :: workers[v].row != worker'.row)
    ensures OneMark(workers[w := worker'])
  {
    assert forall v | Marked(workers[w := worker'], v) && v != w :: Marked(workers, v);
  }

  /** One existing row becomes `r'` and one worker becomes `worker'`; the calls stand. */
  predicate Moves(s: State, t: State, k: RowKey, r': Row, w: Token, worker': Worker) {
    && k in s.db.rows && t.db.rows == s.db.rows[k := r']
    && t.workers == s.workers[w := worker']
    && t.calls == s.calls && t.operator == s.operator
    && RowEvolves(s.db.rows[k], r')
  }

  /** The conditions under which such a change keeps the protocol invariant. */
  ghost predicate SafeMove(cfg: Config, s: State, t: State, k: RowKey, r': Row, w: Token, worker': Worker) {
    && k in s.db.rows && worker'.row == k
    && WorkerOk(cfg, t.db.rows, w, worker')
    && (w in s.workers ==> worker'.row == s.workers[w].row && (s.workers[w].marked ==> worker'.marked))
    && (r'.token == s.db.rows[k].token || r'.token == w)
    && (forall v | v in s.workers && v != w && s.workers[v].row == k :: Unaffected(s.db.rows[k], r', v, s.workers[v]))
    && (r'.external == s.db.rows[k].external || (r'.external.Some? && Evidence(s.calls, k, r'.external.value.xPostId)))
    && (worker'.pc.CallAccepted? ==> Evidence(s.calls, k, worker'.pc.external.xPostId))
    && (worker'.marked ==> Marked(s.workers, w) || (forall v | Marked(s.workers, v) :: s.workers[v].row != k))
    && (forall c | c in s.calls && c.token == w :: !worker'.pc.ReadyToCall? && !worker'.pc.CallRejected?)
    && (k in s.operator ==> Final(r'.status))
    && (worker'.pc.ReadyToCall? && k !in s.operator ==> r'.status != Failed)
    && (r'.status == Failed && k !in s.operator ==>
          (forall c | c in s.calls :: c.row == k ==> !c.published)
          && (forall v | v in t.workers && t.workers[v].row == k :: !t.workers[v].pc.ReadyToCall?))
  }

  lemma SafeMoveKeeps(cfg: Config, s: State, t: State, k: RowKey, r': Row, w: Token, worker': Worker)
    requires ProtocolInv(cfg, s) && Moves(s, t, k, r', w, worker') && SafeMove(cfg, s, t, k, r', w, worker')
    ensures WorkersOk(cfg, t.db.rows, t.workers) && TokensIssued(t.db.rows, t.workers) && OneMark(t.workers)
    ensures CallsOk(t.calls, t.workers) && EvidenceOk(t.db.rows, t.workers, t.calls) && OutcomeOk(t)
    ensures t.db.posts == s.db.posts ==> ProtocolInv(cfg, t)
  {
    hide WorkersOk, TokensIssued, OneMark, CallsOk, EvidenceOk, OutcomeOk, PostsDirect, WorkerOk, Evidence, RowEvolves,
      Unaffected;
    WorkersEvolve(cfg, s.db.rows, s.workers, k, r', w, worker');
    TokensEvolve(s.db.rows, s.workers, k, r', w, worker');
    MarksKept(s.workers, w, worker');
    CallsByWorkers(s, w);
    CallsMove(s.calls, s.workers, w, worker');
    EvidenceEvolves(s.db.rows, s.workers, s.calls, k, r', w, worker');
    OutcomeEvolves(s, t, k, r', w, worker');
    if t.db.posts == s.db.posts { PostsEvolve(cfg, s, t, k, r'); }
  }

  lemma CallsByWorkers(s: State, w: Token)
    requires CallsOk(s.calls, s.workers)
    ensures forall c | c in s.calls && c.token == w :: w in s.workers
  {
  }

  // ---------- Facts about one row ----------

  /** As long as no effect is recorded for a row, nobody marked it and X was never called for it. */
  lemma UnstartedIsUncalled(cfg: Config, s: State, k: RowKey)
    requires ProtocolInv(cfg, s) && k in s.db.rows
    requires s.db.rows[k].started.None? || k.op == UpsertCampaign
    ensures forall v | Marked(s.workers, v) :: s.workers[v].row != k
    ensures forall c | c in s.calls :: c.row != k
    ensures forall v | v in s.workers && s.workers[v].row == k :: !Sent(s.workers[v].pc)
  {
    hide TokensIssued, EvidenceOk, OutcomeOk, PostsDirect;
    forall v | Marked(s.workers, v) ensures s.workers[v].row != k {
      assert WorkerOk(cfg, s.db.rows, v, s.workers[v]);
    }
    forall v | v in s.workers && s.workers[v].row == k ensures !Sent(s.workers[v].pc) {
      assert WorkerOk(cfg, s.db.rows, v, s.workers[v]);
    }
  }

  /** The only call for a row is the one of its marked worker. */
  lemma CallsOfMarked(cfg: Config, s: State, w: Token, c: Call)
    requires ProtocolInv(cfg, s) && Marked(s.workers, w) && c in s.calls && c.row == s.workers[w].row
    ensures c.token == w
  {
    hide WorkersOk, TokensIssued, EvidenceOk, OutcomeOk, PostsDirect;
  }

  // ---------- Steps that change one worker and at most its row ----------

  lemma MoveOn(cfg: Config, s: State, w: Token, pc: Pc)
    requires Inv(cfg, s) && w in s.workers && !BeforeHandOver(pc)
    requires WorkerOk(cfg, s.db.rows, w, s.workers[w].(pc := pc))
    ensures Inv(cfg, Goto(s, w, pc))
  {
    hide DbInv, WorkersOk, TokensIssued, OneMark, CallsOk, EvidenceOk, PostsDirect, Evidence;
    var k := s.workers[w].row;
    var worker' := s.workers[w].(pc := pc);
    var t := Goto(s, w, pc);
    assert s.db.rows[k := s.db.rows[k]] == s.db.rows;
    SafeMoveKeeps(cfg, s, t, k, s.db.rows[k], w, worker');
  }

  lemma MarkKeeps(cfg: Config, s: State, w: Token, now: Time, seen: bool)
    requires Inv(cfg, s) && w in s.workers
    ensures Inv(cfg, MarkStep(cfg, s, w, now, seen))
  {
    hide TokensIssued, OneMark, EvidenceOk, OutcomeOk, PostsDirect, Evidence, DbInv;
    var worker := s.workers[w];
    var k := worker.row;
    assert WorkerOk(cfg, s.db.rows, w, worker);
    if worker.pc.Planning? && k.op == PublishXPost && Publishable(cfg.url, worker.request, k.key) {
      if Held(s.db.rows, k, w, now, true) {
        var r' := s.db.rows[k].(started := Some(now));
        RowIsOk(s.db, k);
        QuietUpdate(s.db, k, r');
        UnstartedIsUncalled(cfg, s, k);
        OperatorRowsAreFinal(cfg, s);
        SafeMoveKeeps(cfg, s, MarkStep(cfg, s, w, now, seen), k, r', w,
                      worker.(marked := true, pc := if seen then ReadyToCall else Stopped));
      } else {
        MoveOn(cfg, s, w, Stopped);
      }
    }
  }

  lemma RowIsOk(db: Db, k: RowKey)
    requires DbInv(db) && k in db.rows
    ensures RowOk(k, db.rows[k])
  {
  }

  lemma OperatorRowsAreFinal(cfg: Config, s: State)
    requires ProtocolInv(cfg, s)
    ensures forall k | k in s.operator :: k in s.db.rows && Final(s.db.rows[k].status)
  {
  }

  lemma ExpireKeeps(cfg: Config, s: State, w: Token, now: Time, seen: bool)
    requires Inv(cfg, s) && w in s.workers
    ensures Inv(cfg, ExpireStep(s, w, now, seen))
  {
    hide TokensIssued, OneMark, EvidenceOk, PostsDirect, Evidence, DbInv;
    var worker := s.workers[w];
    var k := worker.row;
    assert WorkerOk(cfg, s.db.rows, w, worker);
    if worker.pc.SaveAbandoned? {
      if Held(s.db.rows, k, w, now, true) {
        var r' := s.db.rows[k].(lease := now);
        RowIsOk(s.db, k);
        QuietUpdate(s.db, k, r');
        SafeMoveKeeps(cfg, s, ExpireStep(s, w, now, seen), k, r', w,
                      worker.(pc := if seen then Stopped else SaveAbandoned));
      } else {
        MoveOn(cfg, s, w, Stopped);
      }
    }
  }

  lemma PersistKeeps(cfg: Config, s: State, w: Token, now: Time, dbError: bool, seen: bool)
    requires Inv(cfg, s) && w in s.workers
    ensures Inv(cfg, PersistStep(cfg, s, w, now, dbError, seen))
  {
    hide TokensIssued, CallsOk, PostsDirect, Evidence, DbInv;
    var worker := s.workers[w];
    var k := worker.row;
    assert WorkerOk(cfg, s.db.rows, w, worker);
    if worker.pc.CallAccepted? && worker.request.XPost? {
      if !dbError && Held(s.db.rows, k, w, now, true) {
        var r' := s.db.rows[k].(external := Some(worker.pc.external));
        RowIsOk(s.db, k);
        QuietUpdate(s.db, k, r');
        forall v | v in s.workers && v != w && s.workers[v].row == k
          ensures Unaffected(s.db.rows[k], r', v, s.workers[v])
        {
          assert WorkerOk(cfg, s.db.rows, v, s.workers[v]);
          assert Marked(s.workers, w) && !Marked(s.workers, v);
        }
        var direct := DirectPost(cfg.url, worker.request, k.key, worker.pc.external.xPostId,
                                 worker.pc.external.publishedAt);
        var pc := if seen then Saving(direct) else CallUnclear;
        SafeMoveKeeps(cfg, s, PersistStep(cfg, s, w, now, dbError, seen), k, r', w, worker.(pc := pc));
      } else {
        MoveOn(cfg, s, w, CallUnclear);
      }
    }
  }

  lemma CheckStoredKeeps(cfg: Config, s: State, w: Token, embedded: bool)
    requires Inv(cfg, s) && w in s.workers
    ensures Inv(cfg, CheckStoredStep(cfg, s, w, embedded))
  {
    hide DbInv, TokensIssued, OneMark, CallsOk, EvidenceOk, OutcomeOk, PostsDirect;
    var worker := s.workers[w];
    assert WorkerOk(cfg, s.db.rows, w, worker);
    if worker.pc.Resuming? {
      if !worker.request.XPost? {
        MoveOn(cfg, s, w, Stopped);
      } else if FromExternal(cfg.url, worker.request, worker.row.key, worker.pc.stored).None? {
        MoveOn(cfg, s, w, SaveAbandoned);
      } else {
        ResumeIsSound(cfg.url, worker.request, worker.row.key, worker.pc.stored);
        var published := FromExternal(cfg.url, worker.request, worker.row.key, worker.pc.stored).value;
        MoveOn(cfg, s, w, if embedded then Saving(published) else SaveAbandoned);
      }
    }
  }

  lemma TripKeeps(cfg: Config, s: State, w: Token)
    requires Inv(cfg, s) && w in s.workers
    ensures Inv(cfg, TripStep(s, w))
    ensures Inv(cfg, Goto(s, w, Stopped))
  {
    hide DbInv, TokensIssued, OneMark, CallsOk, EvidenceOk, OutcomeOk, PostsDirect;
    assert WorkerOk(cfg, s.db.rows, w, s.workers[w]);
    MoveOn(cfg, s, w, Stopped);
    if s.workers[w].pc.ReadyToCall? || s.workers[w].pc.CallAccepted? { MoveOn(cfg, s, w, CallUnclear); }
    if s.workers[w].pc.Saving? { MoveOn(cfg, s, w, SaveAbandoned); }
  }

  // ---------- The call of X ----------

  lemma EvidenceGrows(calls: seq<Call>, c: Call)
    ensures forall k, id | Evidence(calls, k, id) :: Evidence(calls + [c], k, id)
    ensures c.published ==> Evidence(calls + [c], c.row, c.xPostId)
  {
    forall k, id | Evidence(calls, k, id) ensures Evidence(calls + [c], k, id) {
      var d :| d in calls && d.row == k && d.published && d.xPostId == id;
      assert d in calls + [c];
    }
    assert c in calls + [c];
  }

  /** A ready worker appends its one call to the record and moves to the place its answer leads to. */
  lemma CallRecorded(cfg: Config, s: State, w: Token, c: Call, pc: Pc)
    requires ProtocolInv(cfg, s) && w in s.workers && s.workers[w].pc.ReadyToCall?
    requires c.token == w && c.row == s.workers[w].row
    requires pc.CallRejected? || pc.CallUnclear? || pc.CallAccepted?
    requires pc.CallRejected? ==> !c.published
    ensures CallsOk(s.calls + [c], s.workers[w := s.workers[w].(pc := pc)])
  {
    hide TokensIssued, OneMark, EvidenceOk, OutcomeOk, PostsDirect;
    assert WorkerOk(cfg, s.db.rows, w, s.workers[w]);
    var calls := s.calls + [c];
    forall i, j | 0 <= i < j < |calls| ensures calls[i].token != calls[j].token {
      if j == |s.calls| { assert s.calls[i] in s.calls; }
    }
  }

  lemma CallEvidence(cfg: Config, s: State, w: Token, c: Call, pc: Pc)
    requires ProtocolInv(cfg, s) && w in s.workers && c.row == s.workers[w].row
    requires pc.CallAccepted? ==> c.published && pc.external.xPostId == c.xPostId
    ensures EvidenceOk(s.db.rows, s.workers[w := s.workers[w].(pc := pc)], s.calls + [c])
  {
    hide WorkersOk, TokensIssued, OneMark, CallsOk, OutcomeOk, PostsDirect, Evidence;
    EvidenceGrows(s.calls, c);
  }

  lemma CallOutcome(cfg: Config, s: State, t: State, w: Token, c: Call, pc: Pc)
    requires ProtocolInv(cfg, s) && w in s.workers && s.workers[w].pc.ReadyToCall?
    requires c.token == w && c.row == s.workers[w].row && !pc.ReadyToCall?
    requires t == Goto(s.(calls := s.calls + [c]), w, pc)
    ensures OutcomeOk(t) && PostsDirect(cfg, t) && OneMark(t.workers) && TokensIssued(t.db.rows, t.workers)
  {
    hide WorkersOk, CallsOk, EvidenceOk, PostDirect;
    MarksKept(s.workers, w, s.workers[w].(pc := pc));
  }

  lemma CallKeeps(cfg: Config, s: State, w: Token, outcome: XOutcome)
    requires Inv(cfg, s) && w in s.workers
    ensures Inv(cfg, CallStep(cfg, s, w, outcome))
  {
    hide DbInv, TokensIssued, OneMark, CallsOk, EvidenceOk, OutcomeOk, PostsDirect;
    var worker := s.workers[w];
    if worker.pc.ReadyToCall? && worker.request.XPost? {
      var t := CallStep(cfg, s, w, outcome);
      var c := t.calls[|s.calls|];
      var pc := t.workers[w].pc;
      assert WorkerOk(cfg, s.db.rows, w, worker);
      assert t == Goto(s.(calls := s.calls + [c]), w, pc);
      CallRecorded(cfg, s, w, c, pc);
      CallEvidence(cfg, s, w, c, pc);
      CallOutcome(cfg, s, t, w, c, pc);
    }
  }

  // ---------- Steps that end a row ----------

  lemma FinalRowEvolves(r: Row, status: Status, response: Response)
    ensures RowEvolves(r, FinalRow(r, status, response))
    ensures status != Processing ==> forall v, worker :: Unaffected(r, FinalRow(r, status, response), v, worker)
  {
  }

  /** The owner of a row ends it and moves on. */
  lemma EndRow(cfg: Config, s: State, t: State, w: Token, status: Status, response: Response, pc: Pc)
    requires Inv(cfg, s) && w in s.workers && DbInv(t.db)
    requires status != Processing && Owns(s.db.rows, s.workers[w].row, w)
    requires s.workers[w].row in s.db.rows
    requires Moves(s, t, s.workers[w].row, FinalRow(s.db.rows[s.workers[w].row], status, response), w,
                   s.workers[w].(pc := pc))
    requires pc.Stopped? || (pc.CallUnclear? && s.workers[w].marked) || (pc == s.workers[w].pc && pc.Saving?)
    requires status == Failed ==> (forall c | c in s.calls :: c.row == s.workers[w].row ==> !c.published)
    requires status == Failed ==>
               (forall v | v in s.workers && v != w && s.workers[v].row == s.workers[w].row ::
                !s.workers[v].pc.ReadyToCall?)
    ensures WorkersOk(cfg, t.db.rows, t.workers) && TokensIssued(t.db.rows, t.workers) && OneMark(t.workers)
    ensures CallsOk(t.calls, t.workers) && EvidenceOk(t.db.rows, t.workers, t.calls) && OutcomeOk(t)
    ensures t.db.posts == s.db.posts ==> Inv(cfg, t)
  {
    hide DbInv, TokensIssued, OneMark, CallsOk, EvidenceOk, PostsDirect, Evidence;
    var k := s.workers[w].row;
    var r' := FinalRow(s.db.rows[k], status, response);
    assert WorkerOk(cfg, s.db.rows, w, s.workers[w]);
    OperatorRowsAreFinal(cfg, s);
    SafeMoveKeeps(cfg, s, t, k, r', w, s.workers[w].(pc := pc));
  }

  /** What a worker may end its row with, given where it stands. */
  predicate MayFail(worker: Worker, status: Status, next: Pc) {
    || (worker.pc.Planning? && status == Failed && next.Stopped?)
    || (worker.pc.CallRejected? && status == Failed && (next.Stopped? || next.CallUnclear?))
    || (worker.pc.CallUnclear? && status == OutcomeUnknown && (next.Stopped? || next.CallUnclear?))
  }

  /** A worker that fails its row knows that X published nothing for it. */
  lemma FailureIsJustified(cfg: Config, s: State, w: Token)
    requires Inv(cfg, s) && w in s.workers && Owns(s.db.rows, s.workers[w].row, w)
    requires s.workers[w].pc.Planning? || s.workers[w].pc.CallRejected?
    ensures forall c | c in s.calls :: c.row == s.workers[w].row ==> !c.published
    ensures forall v | v in s.workers && v != w && s.workers[v].row == s.workers[w].row :: !s.workers[v].pc.ReadyToCall?
  {
    hide DbInv, TokensIssued, EvidenceOk, OutcomeOk, PostsDirect;
    var k := s.workers[w].row;
    assert WorkerOk(cfg, s.db.rows, w, s.workers[w]);
    if s.workers[w].pc.Planning? {
      UnstartedIsUncalled(cfg, s, k);
    } else {
      forall c | c in s.calls && c.row == k ensures !c.published { CallsOfMarked(cfg, s, w, c); }
      forall v | v in s.workers && v != w && s.workers[v].row == k ensures !s.workers[v].pc.ReadyToCall? {
        assert WorkerOk(cfg, s.db.rows, v, s.workers[v]);
        assert Marked(s.workers, w) && !Marked(s.workers, v);
      }
    }
  }

  lemma FailStepKeeps(cfg: Config, s: State, w: Token, code: ErrorCode, status: Status, now: Time, next: Pc)
    requires Inv(cfg, s) && w in s.workers && MayFail(s.workers[w], status, next)
    ensures Inv(cfg, FailStep(s, w, code, status, now, next))
  {
    hide DbInv, TokensIssued, OneMark, CallsOk, EvidenceOk, OutcomeOk, PostsDirect;
    var worker := s.workers[w];
    var k := worker.row;
    var ctx := CtxOf(s, w);
    var t := FailStep(s, w, code, status, now, next);
    assert WorkerOk(cfg, s.db.rows, w, worker);
    FailKeepsInv(s.db, ctx, code, status, now);
    CompleteFacts(s.db, ctx, status, ErrorResponse(code, ctx.turn), now);
    if Held(s.db.rows, k, w, now, true) {
      if status == Failed { FailureIsJustified(cfg, s, w); }
      FinalRowEvolves(s.db.rows[k], status, ErrorResponse(code, ctx.turn));
      EndRow(cfg, s, t, w, status, ErrorResponse(code, ctx.turn), next);
    } else {
      MoveOn(cfg, s, w, next);
    }
  }

  /** `CompleteKeepsCore`, restated for the full invariant. */
  lemma CompleteFacts(db: Db, ctx: Ctx, status: Status, response: Response, now: Time)
    requires DbInv(db) && CtxOk(db, ctx) && status != Processing
    requires status == OutcomeUnknown ==> db.rows[ctx.row].started.Some?
    ensures var tx := Complete(db, ctx, status, response, now, true);
            && (tx.Committed? <==> Held(db.rows, ctx.row, ctx.token, now, true))
            && (!tx.Committed? ==> tx == LeaseLost)
            && (tx.Committed? ==>
                  && tx.db == db.(tables := tx.db.tables, rows := tx.db.rows)
                  && tx.db.rows == db.rows[ctx.row := FinalRow(db.rows[ctx.row], status, response)])
  {
    hide DbCore;
    CompleteKeepsCore(db, ctx, status, response, now, true);
  }

  lemma SavedPostIsDirect(cfg: Config, s: State, t: State, w: Token, id: nat, post: Post, r': Row)
    requires Inv(cfg, s) && w in s.workers && s.workers[w].pc.Saving?
    requires post == Post(s.workers[w].row, s.workers[w].request.campaign, s.workers[w].pc.published)
    requires s.workers[w].row in s.db.rows && RowEvolves(s.db.rows[s.workers[w].row], r')
    requires t.db.rows == s.db.rows[s.workers[w].row := r'] && t.db.posts == s.db.posts[id := post]
             && t.operator == s.operator
    ensures PostsDirect(cfg, t)
  {
    hide DbInv, TokensIssued, OneMark, CallsOk, EvidenceOk, OutcomeOk;
    assert WorkerOk(cfg, s.db.rows, w, s.workers[w]);
    forall p | p in t.db.posts && t.db.posts[p].request !in t.operator
      ensures PostDirect(cfg, t.db.rows, t.db.posts[p])
    {
      if p != id { PostEvolves(cfg, s.db.rows, s.workers[w].row, r', s.db.posts[p]); }
    }
  }

  lemma SaveKeeps(cfg: Config, s: State, w: Token, id: nat, now: Time, dbError: bool, seen: bool)
    requires Inv(cfg, s) && w in s.workers
    ensures Inv(cfg, SaveStep(s, w, id, now, dbError, seen))
  {
    hide DbInv, TokensIssued, OneMark, CallsOk, EvidenceOk, OutcomeOk, PostsDirect;
    var worker := s.workers[w];
    var k := worker.row;
    assert WorkerOk(cfg, s.db.rows, w, worker);
    if worker.pc.Saving? && worker.request.XPost? && !dbError {
      var ctx := CtxOf(s, w);
      var post := Post(k, worker.request.campaign, worker.pc.published);
      var response := PostResponse(id, ctx.turn, post);
      SavePostKeepsInv(s.db, ctx, id, worker.request.campaign, worker.pc.published, now);
      CompleteFacts(s.db, ctx, Succeeded, response, now);
      if Insertable(s.db.posts, id, post) {
        if Held(s.db.rows, k, w, now, true) {
          var t := SaveStep(s, w, id, now, dbError, seen);
          FinalRowEvolves(s.db.rows[k], Succeeded, response);
          EndRow(cfg, s, t, w, Succeeded, response, if seen then Stopped else worker.pc);
          SavedPostIsDirect(cfg, s, t, w, id, post, FinalRow(s.db.rows[k], Succeeded, response));
        } else {
          MoveOn(cfg, s, w, Stopped);
        }
      }
    }
  }

  lemma SaveUpsertKeeps(cfg: Config, s: State, w: Token, company: nat, newId: nat,
                        generated: Option<Campaigns.Digest>, now: Time, seen: bool)
    requires Inv(cfg, s) && w in s.workers
    ensures Inv(cfg, SaveUpsertStep(s, w, company, newId, generated, now, seen))
  {
    hide DbInv, TokensIssued, OneMark, CallsOk, EvidenceOk, OutcomeOk, PostsDirect;
    var worker := s.workers[w];
    var k := worker.row;
    assert WorkerOk(cfg, s.db.rows, w, worker);
    if worker.pc.Planning? && k.op == UpsertCampaign && worker.request.Upsert? {
      var ctx := CtxOf(s, w);
      var response := CampaignResponse(worker.request, newId, ctx.turn, now);
      SaveCampaignKeepsInv(s.db, ctx, company, newId, worker.request, generated, now);
      CompleteFacts(s.db, ctx, Succeeded, response, now);
      var tx := SaveCampaign(s.db, ctx, company, newId, worker.request, generated, now);
      if tx.Committed? {
        var t := SaveUpsertStep(s, w, company, newId, generated, now, seen);
        FinalRowEvolves(s.db.rows[k], Succeeded, response);
        EndPlanning(cfg, s, t, w, response, if seen then Stopped else Planning);
      } else if tx.LeaseLost? {
        MoveOn(cfg, s, w, Stopped);
      }
    }
  }

  /** As `EndRow`, for the campaign worker that may not have seen its own commit. */
  lemma EndPlanning(cfg: Config, s: State, t: State, w: Token, response: Response, pc: Pc)
    requires Inv(cfg, s) && w in s.workers && DbInv(t.db) && s.workers[w].row.op == UpsertCampaign
    requires s.workers[w].pc.Planning? && (pc.Stopped? || pc.Planning?)
    requires s.workers[w].row in s.db.rows && Owns(s.db.rows, s.workers[w].row, w)
    requires Moves(s, t, s.workers[w].row, FinalRow(s.db.rows[s.workers[w].row], Succeeded, response), w,
                   s.workers[w].(pc := pc))
    requires t.db.posts == s.db.posts
    ensures Inv(cfg, t)
  {
    hide DbInv, TokensIssued, OneMark, CallsOk, EvidenceOk, PostsDirect, Evidence;
    var k := s.workers[w].row;
    assert WorkerOk(cfg, s.db.rows, w, s.workers[w]);
    OperatorRowsAreFinal(cfg, s);
    UnstartedIsUncalled(cfg, s, k);
    SafeMoveKeeps(cfg, s, t, k, FinalRow(s.db.rows[k], Succeeded, response), w, s.workers[w].(pc := pc));
  }

  // ---------- Claims ----------

  lemma RetakeKeeps(cfg: Config, s: State, k: RowKey, w: Token, lease: Time)
    requires Inv(cfg, s) && w !in s.workers && k in s.db.rows && s.db.rows[k].status == Processing
    requires s.db.rows[k].started.Some? && k.op == PublishXPost ==> s.db.rows[k].external.Some?
    requires s.db.rows[k].turn.Some?
    requires DbInv(s.db.(rows := s.db.rows[k := Retaken(s.db.rows[k], w, lease)]))
    ensures var r := s.db.rows[k];
            Inv(cfg, Enter(s, s.db.(rows := s.db.rows[k := Retaken(r, w, lease)]), w, k, r.turn.value, r.external))
  {
    hide DbInv, TokensIssued, OneMark, EvidenceOk, PostsDirect, Evidence;
    var r := s.db.rows[k];
    var r' := Retaken(r, w, lease);
    var t := Enter(s, s.db.(rows := s.db.rows[k := r']), w, k, r.turn.value, r.external);
    RowIsOk(s.db, k);
    CallsByWorkers(s, w);
    SafeMoveKeeps(cfg, s, t, k, r', w, t.workers[w]);
  }

  /** A row that did not exist, with the worker that was issued its token. */
  lemma NewRowKeeps(cfg: Config, s: State, t: State, k: RowKey, r: Row, w: Token, worker: Worker)
    requires Inv(cfg, s) && k !in s.db.rows && w !in s.workers && r.token == w && worker.row == k
    requires DbInv(t.db) && t.db.rows == s.db.rows[k := r] && t.db.posts == s.db.posts
    requires t.workers == s.workers[w := worker] && t.calls == s.calls && t.operator == s.operator
    requires WorkerOk(cfg, t.db.rows, w, worker) && (worker.pc.Planning? || worker.pc.Stopped?) && !worker.marked
    requires r.external.None?
    ensures Inv(cfg, t)
  {
    hide DbInv;
    NewRowWorkers(cfg, s.db.rows, s.workers, k, r, w, worker);
    NewRowRest(cfg, s, t, k, r, w, worker);
  }

  lemma NewRowWorkers(cfg: Config, rows: Rows, workers: map<Token, Worker>, k: RowKey, r: Row, w: Token, worker: Worker)
    requires WorkersOk(cfg, rows, workers) && k !in rows && w !in workers
    requires WorkerOk(cfg, rows[k := r], w, worker)
    ensures WorkersOk(cfg, rows[k := r], workers[w := worker])
  {
    forall v | v in workers ensures WorkerOk(cfg, rows[k := r], v, workers[v]) {
      assert WorkerOk(cfg, rows, v, workers[v]);
    }
  }

  lemma NewRowRest(cfg: Config, s: State, t: State, k: RowKey, r: Row, w: Token, worker: Worker)
    requires ProtocolInv(cfg, s) && k !in s.db.rows && w !in s.workers && r.token == w && worker.row == k
    requires t.db.rows == s.db.rows[k := r] && t.db.posts == s.db.posts
    requires t.workers == s.workers[w := worker] && t.calls == s.calls && t.operator == s.operator
    requires (worker.pc.Planning? || worker.pc.Stopped?) && !worker.marked && r.external.None?
    ensures TokensIssued(t.db.rows, t.workers) && OneMark(t.workers) && CallsOk(t.calls, t.workers)
    ensures EvidenceOk(t.db.rows, t.workers, t.calls) && OutcomeOk(t) && PostsDirect(cfg, t)
  {
    hide WorkersOk, TokensIssued, OneMark, CallsOk, EvidenceOk, OutcomeOk, PostsDirect, Evidence;
    TokensEvolve(s.db.rows, s.workers, k, r, w, worker);
    MarksKept(s.workers, w, worker);
    CallsByWorkers(s, w);
    CallsMove(s.calls, s.workers, w, worker);
    NewRowEvidence(s.db.rows, s.workers, s.calls, k, r, w, worker);
    NewRowOutcome(s, t, k, r, w, worker);
    NewRowPosts(cfg, s, t, k, r);
  }

  lemma NewRowEvidence(rows: Rows, workers: map<Token, Worker>, calls: seq<Call>, k: RowKey, r: Row, w: Token,
                       worker: Worker)
    requires EvidenceOk(rows, workers, calls) && r.external.None? && !worker.pc.CallAccepted?
    ensures EvidenceOk(rows[k := r], workers[w := worker], calls)
  {
    hide Evidence;
  }

  lemma NewRowOutcome(s: State, t: State, k: RowKey, r: Row, w: Token, worker: Worker)
    requires OutcomeOk(s) && k !in s.db.rows && t.db.rows == s.db.rows[k := r]
    requires t.workers == s.workers[w := worker] && t.calls == s.calls && t.operator == s.operator
             && !worker.pc.ReadyToCall?
    ensures OutcomeOk(t)
  {
  }

  lemma NewRowPosts(cfg: Config, s: State, t: State, k: RowKey, r: Row)
    requires PostsDirect(cfg, s) && k !in s.db.rows && t.db.rows == s.db.rows[k := r]
    requires t.db.posts == s.db.posts && t.operator == s.operator
    ensures PostsDirect(cfg, t)
  {
    forall p | p in t.db.posts && t.db.posts[p].request !in t.operator
      ensures PostDirect(cfg, t.db.rows, t.db.posts[p])
    {
      assert PostDirect(cfg, s.db.rows, s.db.posts[p]);
    }
  }

  lemma ClaimNewKeeps(cfg: Config, s: State, args: ClaimArgs)
    requires Inv(cfg, s) && args.row !in s.db.rows && args.token !in s.workers
    requires args.turn !in s.db.tables.turns && args.leaseSeconds > 0
    ensures Inv(cfg, ClaimStep(s, args))
  {
    hide Inv, StartNew, WorkerOk;
    var t := ClaimStep(s, args);
    if args.ownsSession && !args.archived {
      DbPart(cfg, s);
      StartNewKeepsInv(s.db, args);
      var r := if StartNew(s.db, args).Granted? then NewRow(args)
          else FinalRow(NewRow(args), Failed, StartNew(s.db, args).response);
      NewWorkerOk(cfg, s, args, t);
      NewRowKeeps(cfg, s, t, args.row, r, args.token, t.workers[args.token]);
    } else {
      assert t == s;
    }
  }

  lemma DbPart(cfg: Config, s: State)
    requires Inv(cfg, s)
    ensures DbInv(s.db)
  {
  }

  /** The worker of a first request, granted or refused as a duplicate, agrees with its new row. */
  lemma NewWorkerOk(cfg: Config, s: State, args: ClaimArgs, t: State)
    requires args.row !in s.db.rows && args.token !in s.workers && args.turn !in s.db.tables.turns
             && args.leaseSeconds > 0
    requires args.ownsSession && !args.archived && t == ClaimStep(s, args) && !StartNew(s.db, args).Rejected?
    requires var result := StartNew(s.db, args);
             result.db.rows == s.db.rows[args.row :=
               if result.Granted? then NewRow(args) else FinalRow(NewRow(args), Failed, result.response)]
    ensures args.token in t.workers && t.workers == s.workers[args.token := t.workers[args.token]]
    ensures var worker := t.workers[args.token];
            worker.row == args.row && !worker.marked && (worker.pc.Planning? || worker.pc.Stopped?)
            && WorkerOk(cfg, t.db.rows, args.token, worker)
    ensures t == s.(db := StartNew(s.db, args).db, workers := t.workers)
  {
    hide OpenApiTurn, Complete, HasUnresolvedDuplicate;
  }

  /** A row leaves processing or outcome_unknown and no worker moves. */
  lemma RowOnlyKeeps(cfg: Config, s: State, t: State, k: RowKey, status: Status, response: Response)
    requires ProtocolInv(cfg, s) && k in s.db.rows
             && t.db.rows == s.db.rows[k := FinalRow(s.db.rows[k], status, response)]
    requires t.workers == s.workers && t.calls == s.calls
    requires s.operator <= t.operator <= s.operator + {k}
    requires status != Processing && (Final(status) <==> k in t.operator)
    requires forall p | p in t.db.posts ::
               (p in s.db.posts && t.db.posts[p] == s.db.posts[p]) || t.db.posts[p].request in t.operator
    ensures ProtocolInv(cfg, t)
  {
    hide WorkersOk, TokensIssued, OneMark, CallsOk, EvidenceOk, OutcomeOk, PostsDirect, RowEvolves;
    var r' := FinalRow(s.db.rows[k], status, response);
    FinalRowEvolves(s.db.rows[k], status, response);
    RowOnlyWorkers(cfg, s, k, status, response);
    RowOnlyPosts(cfg, s, t, k, r');
    RowOnlyRecords(s.db.rows, s.workers, s.calls, k, r');
    RowOnlyOutcome(s, t, k, r');
  }

  lemma RowOnlyRecords(rows: Rows, workers: map<Token, Worker>, calls: seq<Call>, k: RowKey, r': Row)
    requires TokensIssued(rows, workers) && EvidenceOk(rows, workers, calls)
    requires k in rows && r'.token == rows[k].token && r'.external == rows[k].external
    ensures TokensIssued(rows[k := r'], workers) && EvidenceOk(rows[k := r'], workers, calls)
  {
    hide Evidence;
  }

  lemma RowOnlyOutcome(s: State, t: State, k: RowKey, r': Row)
    requires OutcomeOk(s) && k in s.db.rows && t.db.rows == s.db.rows[k := r']
    requires t.workers == s.workers && t.calls == s.calls
    requires s.operator <= t.operator <= s.operator + {k} && (Final(r'.status) <==> k in t.operator)
    ensures OutcomeOk(t)
  {
  }

  lemma RowOnlyWorkers(cfg: Config, s: State, k: RowKey, status: Status, response: Response)
    requires ProtocolInv(cfg, s) && k in s.db.rows && status != Processing
    ensures WorkersOk(cfg, s.db.rows[k := FinalRow(s.db.rows[k], status, response)], s.workers)
  {
    hide TokensIssued, OneMark, CallsOk, EvidenceOk, OutcomeOk, PostsDirect, WorkerOk;
    FinalRowEvolves(s.db.rows[k], status, response);
    var r' := FinalRow(s.db.rows[k], status, response);
    forall v | v in s.workers ensures WorkerOk(cfg, s.db.rows[k := r'], v, s.workers[v]) {
      OtherWorker(cfg, s.db.rows, k, r', v, s.workers[v]);
    }
  }

  lemma RowOnlyPosts(cfg: Config, s: State, t: State, k: RowKey, r': Row)
    requires PostsDirect(cfg, s) && k in s.db.rows && RowEvolves(s.db.rows[k], r') && t.db.rows == s.db.rows[k := r']
    requires s.operator <= t.operator
    requires forall p | p in t.db.posts ::
               (p in s.db.posts && t.db.posts[p] == s.db.posts[p]) || t.db.posts[p].request in t.operator
    ensures PostsDirect(cfg, t)
  {
    hide PostDirect, RowEvolves;
    forall p | p in t.db.posts && t.db.posts[p].request !in t.operator
      ensures PostDirect(cfg, t.db.rows, t.db.posts[p])
    {
      PostEvolves(cfg, s.db.rows, k, r', s.db.posts[p]);
    }
  }

  lemma ClaimExistingKeeps(cfg: Config, s: State, args: ClaimArgs)
    requires Inv(cfg, s) && args.row in s.db.rows && args.token !in s.workers && args.turn !in s.db.tables.turns
    ensures Inv(cfg, ClaimStep(s, args))
  {
    hide DbInv, ProtocolInv;
    if args.ownsSession && args.leaseSeconds > 0 {
      var k, r := args.row, s.db.rows[args.row];
      DecideKeepsInv(s.db, args);
      RowIsOk(s.db, k);
      var result := DecideExisting(s.db, args);
      if result.Granted? {
        RetakeKeeps(cfg, s, k, args.token, args.now + args.leaseSeconds);
      } else if result.Replayed? && r.status == Processing {
        OperatorRowsAreFinal(cfg, s);
        RowOnlyKeeps(cfg, s, ClaimStep(s, args), k, OutcomeUnknown, result.response);
      } else if result.Replayed? {
        assert ClaimStep(s, args) == s;
      }
    }
  }

  lemma ClaimByOperatorKeeps(cfg: Config, s: State, k: RowKey, token: Token, now: Time)
    requires Inv(cfg, s) && token !in s.workers && k in s.db.rows
    ensures Inv(cfg, Step(cfg, s, ClaimByOperator(k, token, now)))
  {
    hide DbInv, ProtocolInv;
    ClaimResumeKeepsInv(s.db, k, token, now, cfg.leaseSeconds);
    if Resumable(s.db.rows, k, now) {
      RowIsOk(s.db, k);
      RetakeKeeps(cfg, s, k, token, now + cfg.leaseSeconds);
    }
  }

  // ---------- The operator ----------

  lemma ResolveAsPostedKeeps(cfg: Config, s: State, k: RowKey, id: nat, xPostId: string, at: Time, audit: TurnId,
                             now: Time)
    requires Inv(cfg, s)
    ensures Inv(cfg, Step(cfg, s, ResolveAsPosted(k, id, xPostId, at, audit, now)))
  {
    hide DbInv, ProtocolInv, AuditTurn, DirectPost, Insertable;
    if audit !in s.db.tables.turns {
      ResolveKeepsInv(s.db, cfg.url, k, id, xPostId, at, audit, now);
      var tx := ResolvePosted(s.db, cfg.url, k, id, xPostId, at, audit, now);
      if tx.Committed? {
        var t := Step(cfg, s, ResolveAsPosted(k, id, xPostId, at, audit, now));
        var r := s.db.rows[k];
        var post := Post(k, r.request.campaign, DirectPost(cfg.url, r.request, k.key, xPostId, at));
        assert t.db.posts == s.db.posts[id := post];
        RowOnlyKeeps(cfg, s, t, k, Succeeded, PostResponse(id, r.turn.value, post));
      }
    }
  }

  lemma ResolveAsNotPostedKeeps(cfg: Config, s: State, k: RowKey, audit: TurnId, now: Time)
    requires Inv(cfg, s)
    ensures Inv(cfg, Step(cfg, s, ResolveAsNotPosted(k, audit, now)))
  {
    hide DbInv, ProtocolInv, AuditTurn;
    if audit !in s.db.tables.turns {
      ResolveKeepsInv(s.db, cfg.url, k, 0, "", 0, audit, now);
      if ResolveNotPosted(s.db, k, audit, now).Committed? {
        var t := Step(cfg, s, ResolveAsNotPosted(k, audit, now));
        RowOnlyKeeps(cfg, s, t, k, Failed, ErrorResponse(XPostFailed, s.db.rows[k].turn.value));
      }
    }
  }

  // ---------- Every step ----------

  lemma ChatEventKeeps(cfg: Config, s: State, chat: Chat.ChatEvent)
    requires Inv(cfg, s)
    ensures Inv(cfg, Step(cfg, s, ChatEvent(chat)))
  {
    hide ProtocolInv, TablesInv, TurnsCoupled, ResultItems, PostsMatch, NoDuplicates, RowsOk, OneChat;
    ApiTurnsExist(s.db);
    Chat.ChatStepKeeps(s.db.tables, ApiTurns(s.db.rows), chat);
    SameForApiKeepsCore(s.db.tables, Chat.ChatStep(s.db.tables, ApiTurns(s.db.rows), chat), s.db.rows);
    SameRowsKeep(cfg, s, Step(cfg, s, ChatEvent(chat)));
  }

  lemma SameRowsKeep(cfg: Config, s: State, t: State)
    requires ProtocolInv(cfg, s)
    requires t == s.(db := s.db.(tables := t.db.tables, campaigns := t.db.campaigns))
    ensures ProtocolInv(cfg, t)
  {
    hide WorkersOk, TokensIssued, OneMark, CallsOk, EvidenceOk;
  }

  lemma WorkerStepKeeps(cfg: Config, s: State, e: Event)
    requires Inv(cfg, s) && TokenOf(e).Some? && TokenOf(e).value in s.workers
    ensures Inv(cfg, WorkerStep(cfg, s, e))
  {
    hide Inv;
    match e
    case FailPlan(w, code, now) =>
      if s.workers[w].pc.Planning? { FailStepKeeps(cfg, s, w, code, Failed, now, Stopped); }
    case Mark(w, now, seen) => MarkKeeps(cfg, s, w, now, seen);
    case CallX(w, outcome) => CallKeeps(cfg, s, w, outcome);
    case CloseRejected(w, now, dbError, seen) =>
      if s.workers[w].pc.CallRejected? {
        if dbError { RejectedToUnclear(cfg, s, w); }
        FailStepKeeps(cfg, s, w, XPostFailed, Failed, now, if seen then Stopped else CallUnclear);
      }
    case CloseUnclear(w, now, seen) =>
      if s.workers[w].pc.CallUnclear? {
        FailStepKeeps(cfg, s, w, XPostOutcomeUnknown, OutcomeUnknown, now, if seen then Stopped else CallUnclear);
      }
    case Persist(w, now, dbError, seen) => PersistKeeps(cfg, s, w, now, dbError, seen);
    case CheckStored(w, embedded) => CheckStoredKeeps(cfg, s, w, embedded);
    case Save(w, post, now, dbError, seen) => SaveKeeps(cfg, s, w, post, now, dbError, seen);
    case Trip(w) => TripKeeps(cfg, s, w);
    case Expire(w, now, seen) => ExpireKeeps(cfg, s, w, now, seen);
    case SaveUpsert(w, company, newId, generated, now, seen) =>
      SaveUpsertKeeps(cfg, s, w, company, newId, generated, now, seen);
    case Crash(w) => TripKeeps(cfg, s, w);
    case _ =>
  }

  lemma RejectedToUnclear(cfg: Config, s: State, w: Token)
    requires Inv(cfg, s) && w in s.workers && s.workers[w].pc.CallRejected?
    ensures Inv(cfg, Goto(s, w, CallUnclear))
  {
    hide DbInv, TokensIssued, OneMark, CallsOk, EvidenceOk, OutcomeOk, PostsDirect;
    assert WorkerOk(cfg, s.db.rows, w, s.workers[w]);
    MoveOn(cfg, s, w, CallUnclear);
  }

  /** Every event keeps the invariant, whatever its clock reading. */
  lemma StepKeepsInv(cfg: Config, s: State, e: Event)
    requires Inv(cfg, s)
    ensures Inv(cfg, Step(cfg, s, e))
  {
    hide Inv;
    if TokenOf(e).Some? {
      if TokenOf(e).value in s.workers { WorkerStepKeeps(cfg, s, e); }
    } else {
      match e
      case Claim(args) =>
        var a := args.(leaseSeconds := cfg.leaseSeconds);
        if a.token !in s.workers && a.turn !in s.db.tables.turns && a.leaseSeconds > 0 {
          if a.row in s.db.rows { ClaimExistingKeeps(cfg, s, a); } else { ClaimNewKeeps(cfg, s, a); }
        }
      case ResolveAsPosted(k, post, xPostId, at, audit, now) =>
        ResolveAsPostedKeeps(cfg, s, k, post, xPostId, at, audit, now);
      case ResolveAsNotPosted(k, audit, now) => ResolveAsNotPostedKeeps(cfg, s, k, audit, now);
      case ClaimByOperator(k, token, now) =>
        if token !in s.workers && k in s.db.rows { ClaimByOperatorKeeps(cfg, s, k, token, now); }
      case ChatEvent(chat) => ChatEventKeeps(cfg, s, chat);
      case CampaignsMove(campaigns) => CampaignsMoveKeeps(cfg, s, campaigns);
      case _ =>
    }
  }

  lemma CampaignsMoveKeeps(cfg: Config, s: State, campaigns: Campaigns.CampaignTables)
    requires Inv(cfg, s)
    ensures Inv(cfg, s.(db := s.db.(campaigns := campaigns)))
  {
    hide ProtocolInv, DbCore, PostsMatch, NoDuplicates;
    SameRowsKeep(cfg, s, s.(db := s.db.(campaigns := campaigns)));
  }

  lemma {:induction false} RunKeepsInv(cfg: Config, s: State, events: seq<Event>)
    requires Inv(cfg, s)
    ensures Inv(cfg, Run(cfg, s, events))
    decreases |events|
  {
    if events != [] {
      StepKeepsInv(cfg, s, events[0]);
      RunKeepsInv(cfg, Step(cfg, s, events[0]), events[1..]);
    }
  }
}

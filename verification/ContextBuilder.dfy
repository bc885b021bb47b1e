/** Building a context in place: read, pay for a compaction, compact, save the checkpoint. */
module ContextBuilder {
  import opened Options
  import opened Context
  import opened AgentLoop

  class ContextBuilder {
    var turns: seq<TurnRecord>
    var quarantined: set<Context.ItemId>
    var checkpoints: seq<Checkpoint>

    constructor ()
      ensures Contents() == NEW_SESSION
    {
      turns, quarantined, checkpoints := [], {}, [];
    }

    function Contents(): History
      reads this
    {
      History(turns, quarantined, checkpoints)
    }

    /** `latest_checkpoint`. */
    method FindLatest(before: nat) returns (found: Option<Checkpoint>)
      ensures found == LatestCheckpoint(checkpoints, before)
    {
      found := None;
      for k := 0 to |checkpoints|
        invariant found == LatestCheckpoint(checkpoints[..k], before)
      {
        var c := checkpoints[k];
        assert checkpoints[..k + 1][..k] == checkpoints[..k];
        if c.active && c.through < before && (found.None? || found.value.createdAt <= c.createdAt) { found := Some(c); }
      }
      assert checkpoints[..|checkpoints|] == checkpoints;
    }

    /** `create_checkpoint`: its validity checks and the unique index on active boundaries. */
    method CreateCheckpoint(c: Checkpoint) returns (ok: bool)
      modifies this`checkpoints
      ensures var spec := Context.CreateCheckpoint(old(Contents()), c);
              ok == spec.Some? && Contents() == if ok then spec.value else old(Contents())
    {
      if !CompletedTurn(turns, c.through) || c.sources == {} { return false; }
      if exists item | item in c.sources :: !CompletedItem(turns, item, c.through) { return false; }
      for k := 0 to |checkpoints|
        invariant forall j | 0 <= j < k :: !(checkpoints[j].active && checkpoints[j].through == c.through)
      {
        if checkpoints[k].active && checkpoints[k].through == c.through {
          assert checkpoints[k] in checkpoints;
          return false;
        }
      }
      checkpoints := checkpoints + [c];
      return true;
    }

    /** `quarantine_item`: the item and every active checkpoint that has it as a source. */
    method Quarantine(item: Context.ItemId) returns (ok: bool)
      modifies this`quarantined, this`checkpoints
      ensures Contents() == QuarantineItem(old(Contents()), item)
      ensures ok <==> item !in old(quarantined) && ItemExists(turns, item)
    {
      if item in quarantined || !ItemExists(turns, item) { return false; }
      quarantined := quarantined + {item};
      ghost var before := checkpoints;
      for k := 0 to |checkpoints|
        invariant |checkpoints| == |before| && quarantined == old(quarantined) + {item}
        invariant forall j | 0 <= j < |before| ::
                    checkpoints[j] == if j < k && item in before[j].sources then before[j].(active := false)
                      else before[j]
      {
        if item in checkpoints[k].sources { checkpoints := checkpoints[k := checkpoints[k].(active := false)]; }
      }
      assert checkpoints == QuarantineItem(old(Contents()), item).checkpoints;
      return true;
    }

    /**
     `build` of the running turn. The compactor's answer and the clocks are the caller's; a budget that
     is used up stops the run before anything is compacted or saved.
     */
    method Build(turn: nat, notices: seq<nat>, limits: Context.Limits, compaction: Compaction, now: Context.Time,
                 budget: TurnBudget, budgetNow: AgentLoop.Time)
      returns (built: Context.Built)
      requires CanBuild(Contents(), turn)
      modifies this`checkpoints, budget`steps
      ensures var paid := if old(budget.Exceeded(budgetNow)).Some? then RunAborted else compaction;
              (built, Contents()) == Context.Build(old(Contents()), turn, notices, limits, paid, now)
      ensures budget.steps <= old(budget.steps) + 1
      ensures Contents() != old(Contents()) ==> budget.steps == old(budget.steps) + 1
    {
      hide LatestCheckpoint, CompletedRows, Entries, EntriesFromSummary, Compactable, Since, NewCheckpoint;
      ghost var h := Contents();
      var checkpoint := FindLatest(turn);
      var after := if checkpoint.Some? then checkpoint.value.through else 0;
      var r := Read(checkpoint, CompletedRows(turns, after, turn), Row(turn, turns[turn - 1].items[0]), notices,
                    quarantined);
      assert r == ReadFor(h, turn, notices);
      var entries := Entries(r.checkpoint, r.rows, r);
      if limits.size(entries) <= limits.threshold || !limits.parent || Compactable(r.rows) == [] {
        return OrTooLarge(entries, limits);
      }
      var refused := budget.ConsumeStep(budgetNow);
      if refused.Some? || compaction.RunAborted? { return AgentRunError; }
      if compaction.CompactorFailed? { return OrTooLarge(entries, limits); }
      var c := NewCheckpoint(r, compaction.nonce, now);
      var recent := Since(r.rows, c.through);
      var candidate := EntriesFromSummary(c.summary, c.through, c.sources, recent, r);
      if limits.size(candidate) > limits.hard { return OrTooLarge(entries, limits); }
      var saved := CreateCheckpoint(c);
      if !saved { return OrTooLarge(entries, limits); }
      var rebuilt := Entries(Some(c), recent, r);
      return Context.Context(rebuilt, limits.size(rebuilt));
    }
  }
}

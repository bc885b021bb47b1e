/** Following cursors returns the frozen list once, in order, and refuses rather than truncates. */
module SnapshotTheorems {
  import opened Options
  import opened Snapshots

  /** The snapshot exists with exactly these items at positions 0, 1, ... */
  ghost predicate Frozen(t: Tables, id: SnapshotId, meta: Meta, items: seq<Projection>) {
    && id in t.snapshots && t.snapshots[id] == meta
    && (forall k: nat :: ItemKey(id, k) in t.items <==> k < |items|)
    && (forall k | 0 <= k < |items| :: t.items[ItemKey(id, k)] == items[k])
  }

  /** No item survives its snapshot. */
  ghost predicate NoOrphans(t: Tables) { forall k | k in t.items :: k.snapshot in t.snapshots }

  lemma CreateFreezes(t: Tables, id: SnapshotId, meta: Meta, items: seq<Projection>)
    requires NoOrphans(t) && id !in t.snapshots
    ensures Frozen(Create(t, id, meta, items), id, meta, items) && NoOrphans(Create(t, id, meta, items))
  {
    var t' := Create(t, id, meta, items);
    forall k: nat ensures ItemKey(id, k) in t'.items <==> k < |items| {
      if ItemKey(id, k) in t.items { assert false; }
    }
  }

  /** Other snapshots come under other ids. */
  predicate Foreign(e: Event, id: SnapshotId) { e.CreateOther? ==> e.id != id }

  lemma DeleteOther(t: Tables, id: SnapshotId, meta: Meta, items: seq<Projection>, other: SnapshotId)
    requires Frozen(t, id, meta, items) && other != id
    ensures Frozen(Delete(t, other), id, meta, items)
  {
  }

  /** The snapshot is as it was frozen, or it was deleted, which happens only from its expiry on. */
  ghost predicate FrozenOrGone(t: Tables, id: SnapshotId, meta: Meta, items: seq<Projection>) {
    Frozen(t, id, meta, items) || id !in t.snapshots
  }

  lemma {:induction false} CleanupKeeps(t: Tables, id: SnapshotId, meta: Meta, items: seq<Projection>, now: Time,
                                        limit: nat)
    requires FrozenOrGone(t, id, meta, items)
    ensures FrozenOrGone(Cleanup(t, now, limit), id, meta, items)
    ensures Frozen(t, id, meta, items) && now < meta.expiresAt ==> Frozen(Cleanup(t, now, limit), id, meta, items)
    decreases limit
  {
    hide Frozen;
    var oldest := OldestExpired(t, now);
    if limit > 0 && oldest.Some? {
      if oldest.value != id && Frozen(t, id, meta, items) { DeleteOther(t, id, meta, items, oldest.value); }
      FrozenMeta(t, id, meta, items);
      CleanupKeeps(Delete(t, oldest.value), id, meta, items, now, limit - 1);
    }
  }

  lemma FrozenMeta(t: Tables, id: SnapshotId, meta: Meta, items: seq<Projection>)
    ensures Frozen(t, id, meta, items) ==> id in t.snapshots && t.snapshots[id] == meta
  {
  }

  lemma ApplyKeeps(t: Tables, id: SnapshotId, meta: Meta, items: seq<Projection>, e: Event)
    requires FrozenOrGone(t, id, meta, items) && Foreign(e, id)
    ensures FrozenOrGone(Apply(t, e), id, meta, items)
    ensures Frozen(t, id, meta, items) && (e.CleanupAt? ==> e.now < meta.expiresAt) ==>
              Frozen(Apply(t, e), id, meta, items)
  {
    if e.CleanupAt? { CleanupKeeps(t, id, meta, items, e.now, e.limit); }
  }

  predicate Early(events: seq<Event>, expiresAt: Time) { forall e | e in events :: e.CleanupAt? ==> e.now < expiresAt }

  lemma {:induction false} ApplyAllKeeps(t: Tables, id: SnapshotId, meta: Meta, items: seq<Projection>,
                                         events: seq<Event>)
    requires FrozenOrGone(t, id, meta, items) && forall e | e in events :: Foreign(e, id)
    ensures FrozenOrGone(ApplyAll(t, events), id, meta, items)
    ensures Frozen(t, id, meta, items) && Early(events, meta.expiresAt) ==> Frozen(ApplyAll(t, events), id, meta, items)
    decreases |events|
  {
    hide FrozenOrGone, Frozen, Apply;
    if events != [] {
      ApplyKeeps(t, id, meta, items, events[0]);
      assert Early(events, meta.expiresAt) ==> Early(events[1..], meta.expiresAt);
      ApplyAllKeeps(Apply(t, events[0]), id, meta, items, events[1..]);
    }
  }

  // ---------- One page ----------

  function Min(a: nat, b: nat): nat { if a <= b then a else b }

  lemma PositionsOfFrozen(t: Tables, id: SnapshotId, meta: Meta, items: seq<Projection>, from: nat)
    requires Frozen(t, id, meta, items)
    ensures from < |items| ==> from in Positions(t, id, from)
    ensures from >= |items| ==> Positions(t, id, from) == {}
  {
    if from < |items| { assert ItemKey(id, from) in t.items; }
  }

  lemma {:induction false} RowsOfFrozen(t: Tables, id: SnapshotId, meta: Meta, items: seq<Projection>, from: nat,
                                        n: nat)
    requires Frozen(t, id, meta, items) && from <= |items|
    ensures var rows := Rows(t, id, from, n);
            && |rows| == Min(n, |items| - from)
            && forall k | 0 <= k < |rows| :: rows[k] == Row(from + k, items[from + k])
    decreases n
  {
    PositionsOfFrozen(t, id, meta, items, from);
    if n > 0 && from < |items| {
      assert Least(Positions(t, id, from)) == from;
      RowsOfFrozen(t, id, meta, items, from + 1, n - 1);
    }
  }

  predicate Grants(meta: Meta, access: Access) {
    meta.marketer == access.marketer && meta.resource == access.resource && meta.filter == access.filter
  }

  /** A page of a frozen list is its next slice, with a cursor exactly when something remains. */
  lemma PageOfFrozen(t: Tables, id: SnapshotId, meta: Meta, items: seq<Projection>, access: Access, now: Time,
                     position: nat, limit: nat)
    requires Frozen(t, id, meta, items) && Grants(meta, access) && position < |items| && limit >= 1
    ensures NextPage(t, id, access, now, position, limit) ==
            if now >= meta.expiresAt then InvalidCursor
            else if position + limit < |items| then Listed(items[position..position + limit], Some(position + limit))
            else Listed(items[position..], None)
  {
    RowsOfFrozen(t, id, meta, items, position, limit + 1);
    FrozenMeta(t, id, meta, items);
    hide Frozen, Rows;
    var rows := Rows(t, id, position, limit + 1);
    if now < meta.expiresAt {
      assert ItemsOf(rows) == items[position..position + |rows|];
    }
  }

  /**
   Exactly when a cursor is refused: another marketer, resource or filter, at or after the expiry, or a position
   at which nothing is stored.
   */
  lemma RefusedIff(t: Tables, id: SnapshotId, meta: Meta, items: seq<Projection>, access: Access, now: Time,
                   position: nat, limit: nat)
    requires Frozen(t, id, meta, items)
    ensures NextPage(t, id, access, now, position, limit) == InvalidCursor
            <==> access.marketer != meta.marketer || access.resource != meta.resource || access.filter != meta.filter
                 || now >= meta.expiresAt || position >= |items|
  {
    FrozenMeta(t, id, meta, items);
    if position <= |items| {
      RowsOfFrozen(t, id, meta, items, position, limit + 1);
    } else {
      PositionsOfFrozen(t, id, meta, items, position);
      assert Rows(t, id, position, limit + 1) == [];
    }
    hide Frozen, Rows;
  }

  /** What is read of a frozen list, with its summary: one row more than the limit, if there is one. */
  lemma ReadOfFrozen(t: Tables, id: SnapshotId, meta: Meta, items: seq<Projection>, access: Access, now: Time,
                     position: nat, limit: nat)
    requires Frozen(t, id, meta, items) && Grants(meta, access) && now < meta.expiresAt && position < |items|
    ensures ReadPage(t, id, access, now, position, limit)
         == Some(Page(meta.summary, items[position..Min(position + limit + 1, |items|)]))
  {
    RowsOfFrozen(t, id, meta, items, position, limit + 1);
    FrozenMeta(t, id, meta, items);
    hide Frozen, Rows;
    var rows := Rows(t, id, position, limit + 1);
    assert ItemsOf(rows) == items[position..position + |rows|];
  }

  // ---------- What a cleanup deletes ----------

  lemma CleanupNext(t: Tables, now: Time, limit: nat)
    ensures var oldest := OldestExpired(t, now);
            Cleanup(t, now, limit) ==
            if limit == 0 || oldest.None? then t else Cleanup(Delete(t, oldest.value), now, limit - 1)
  {
  }

  /** Expired snapshots, at most so many, none left over below that number, and none before an older one. */
  ghost predicate OldestFirst(t: Tables, now: Time, limit: nat, gone: set<SnapshotId>) {
    && |gone| <= limit
    && (forall id | id in gone :: id in t.snapshots && t.snapshots[id].expiresAt <= now)
    && (|gone| < limit ==> forall id | id in t.snapshots && t.snapshots[id].expiresAt <= now :: id in gone)
    && (forall a, b | a in gone && b in t.snapshots && b !in gone && t.snapshots[b].expiresAt <= now ::
          t.snapshots[a].expiresAt <= t.snapshots[b].expiresAt)
  }

  /** A cleanup deletes the oldest expired snapshots up to its limit, with their items, and nothing else. */
  lemma {:induction false} CleanupDeletes(t: Tables, now: Time, limit: nat) returns (gone: set<SnapshotId>)
    ensures OldestFirst(t, now, limit, gone)
    ensures Cleanup(t, now, limit).snapshots == t.snapshots - gone
    ensures forall k :: k in Cleanup(t, now, limit).items <==> k in t.items && k.snapshot !in gone
    ensures forall k | k in Cleanup(t, now, limit).items :: Cleanup(t, now, limit).items[k] == t.items[k]
    decreases limit
  {
    hide Cleanup, OldestExpired;
    CleanupNext(t, now, limit);
    var oldest := OldestExpired(t, now);
    if limit == 0 || oldest.None? {
      gone := {};
      if oldest.None? {
        forall id | id in t.snapshots ensures t.snapshots[id].expiresAt > now { NotExpired(t, id, now); }
      }
      assert t.snapshots - gone == t.snapshots;
    } else {
      var next := Delete(t, oldest.value);
      OldestIs(t, oldest.value, now);
      var rest := CleanupDeletes(next, now, limit - 1);
      gone := rest + {oldest.value};
      AlsoOldest(t, oldest.value, now, limit, rest);
      assert t.snapshots - gone == next.snapshots - rest;
      hide OldestFirst;
    }
  }

  lemma AlsoOldest(t: Tables, id: SnapshotId, now: Time, limit: nat, rest: set<SnapshotId>)
    requires limit > 0 && OldestExpired(t, now) == Some(id) && OldestFirst(Delete(t, id), now, limit - 1, rest)
    ensures OldestFirst(t, now, limit, rest + {id})
  {
    hide OldestExpired;
    OldestIs(t, id, now);
    assert |rest + {id}| == |rest| + 1;
  }

  lemma NotExpired(t: Tables, id: SnapshotId, now: Time)
    requires OldestExpired(t, now).None? && id in t.snapshots
    ensures t.snapshots[id].expiresAt > now
  {
    assert !ExpiredAt(t, id, now);
  }

  lemma OldestIs(t: Tables, id: SnapshotId, now: Time)
    requires OldestExpired(t, now) == Some(id)
    ensures id in t.snapshots && t.snapshots[id].expiresAt <= now
    ensures forall b | b in t.snapshots && t.snapshots[b].expiresAt <= now ::
              t.snapshots[id].expiresAt <= t.snapshots[b].expiresAt
  {
    assert IsOldestExpired(t, id, now);
    forall b | b in t.snapshots && t.snapshots[b].expiresAt <= now
      ensures t.snapshots[id].expiresAt <= t.snapshots[b].expiresAt
    {
      assert ExpiredAt(t, b, now) && Older(t, id, b);
    }
  }

  // ---------- The whole walk ----------

  predicate VisitOk(v: Visit, id: SnapshotId) { v.limit >= 1 && forall e | e in v.events :: Foreign(e, id) }

  predicate InTime(v: Visit, expiresAt: Time) { v.now < expiresAt && Early(v.events, expiresAt) }

  /** Where a walk that was never refused has come. */
  function Reached(items: seq<Projection>, w: Walked): nat {
    if w.end.More? then w.end.position else |items|
  }

  /**
   Any sequence of page limits shows the frozen list from the cursor on, without gap or repeat; before
   the expiry no page is refused, and a long enough sequence of visits finishes.
   */
  lemma {:induction false} WalkShowsTheList(t: Tables, id: SnapshotId, meta: Meta, items: seq<Projection>,
                                            access: Access,
                                            position: nat, visits: seq<Visit>)
    requires Frozen(t, id, meta, items) && Grants(meta, access) && position < |items|
    requires forall v | v in visits :: VisitOk(v, id) && InTime(v, meta.expiresAt)
    ensures var w := Walk(t, id, access, position, visits);
            && !w.end.Refused? && position <= Reached(items, w) <= |items|
            && w.shown == items[position..Reached(items, w)]
            && (w.end.More? ==> w.end.position < |items|)
            && (|visits| >= |items| - position ==> w.end.Finished?)
    decreases |visits|
  {
    hide Frozen, NextPage;
    if visits != [] {
      var v := visits[0];
      assert v in visits;
      var t' := ApplyAll(t, v.events);
      ApplyAllKeeps(t, id, meta, items, v.events);
      PageOfFrozen(t', id, meta, items, access, v.now, position, v.limit);
      if position + v.limit < |items| {
        WalkShowsTheList(t', id, meta, items, access, position + v.limit, visits[1..]);
        var rest := Walk(t', id, access, position + v.limit, visits[1..]);
        assert items[position..position + v.limit] + items[position + v.limit..Reached(items, rest)]
               == items[position..Reached(items, rest)];
      }
    }
  }

  /** The first page and everything after it: the whole list as it was when the first page was asked for. */
  lemma WholeListOnce(t: Tables, id: SnapshotId, meta: Meta, live: seq<Projection>, access: Access, limit: nat,
                      visits: seq<Visit>)
    requires NoOrphans(t) && id !in t.snapshots && Grants(meta, access) && limit >= 1
    requires forall v | v in visits :: VisitOk(v, id) && InTime(v, meta.expiresAt)
    requires |visits| >= |live|
    ensures var first := FirstPage(live, limit);
            first.next.None? ==> first.shown == live
    ensures var first := FirstPage(live, limit);
            first.next.Some? ==>
              var w := Walk(Create(t, id, meta, live), id, access, first.next.value, visits);
              w.end == Finished && first.shown + w.shown == live
  {
    hide Frozen, Walk, Create, NoOrphans;
    CreateFreezes(t, id, meta, live);
    if |live| > limit {
      WalkShowsTheList(Create(t, id, meta, live), id, meta, live, access, limit, visits);
      assert live[..limit] + live[limit..] == live;
    }
  }

  /** Whatever clocks and cleanups did: what was shown before a refusal is a correct slice, never a shortened list. */
  lemma {:induction false} NeverTruncated(t: Tables, id: SnapshotId, meta: Meta, items: seq<Projection>, access: Access,
                                          position: nat, visits: seq<Visit>)
    requires FrozenOrGone(t, id, meta, items) && Grants(meta, access) && position < |items|
    requires forall v | v in visits :: VisitOk(v, id)
    ensures var w := Walk(t, id, access, position, visits);
            && |w.shown| <= |items| - position && w.shown == items[position..position + |w.shown|]
            && (w.end.Finished? ==> w.shown == items[position..])
    ensures visits != [] && visits[0].now >= meta.expiresAt ==> Walk(t, id, access, position, visits).end.Refused?
    decreases |visits|
  {
    hide Frozen, NextPage;
    if visits != [] {
      var v := visits[0];
      assert v in visits;
      var t' := ApplyAll(t, v.events);
      ApplyAllKeeps(t, id, meta, items, v.events);
      if Frozen(t', id, meta, items) {
        PageOfFrozen(t', id, meta, items, access, v.now, position, v.limit);
        if v.now < meta.expiresAt && position + v.limit < |items| {
          NeverTruncated(t', id, meta, items, access, position + v.limit, visits[1..]);
          var rest := Walk(t', id, access, position + v.limit, visits[1..]);
          assert items[position..position + v.limit] + items[position + v.limit..position + v.limit + |rest.shown|]
              == items[position..position + v.limit + |rest.shown|];
        }
      } else {
        GoneIsRefused(t', id, access, v.now, position, v.limit);
      }
    }
  }

  lemma GoneIsRefused(t: Tables, id: SnapshotId, access: Access, now: Time, position: nat, limit: nat)
    requires id !in t.snapshots
    ensures NextPage(t, id, access, now, position, limit) == InvalidCursor
  {
  }
}

/** The snapshot repository and the post list service in place. */
module SnapshotStore {
  import opened Options
  import opened Snapshots

  const CLEANUP_LIMIT: nat := 100

  class SnapshotRepository {
    var snapshots: map<SnapshotId, Meta>
    var items: map<ItemKey, Projection>

    constructor ()
      ensures Contents() == NO_SNAPSHOTS
    {
      snapshots, items := map[], map[];
    }

    function Contents(): Tables
      reads this
    {
      Tables(snapshots, items)
    }

    /** `create`: the metadata row, then the projections numbered from zero. */
    method Create(id: SnapshotId, meta: Meta, list: seq<Projection>)
      modifies this
      ensures Contents() == Snapshots.Create(old(Contents()), id, meta, list)
    {
      hide Numbered;
      snapshots := snapshots[id := meta];
      NumberedNone(items, id, list);
      for position := 0 to |list|
        invariant snapshots == old(snapshots)[id := meta]
        invariant items == old(items) + Numbered(id, list[..position])
      {
        NumberedNext(old(items), id, list, position);
        items := items[ItemKey(id, position) := list[position]];
      }
      assert list[..|list|] == list;
    }

    /** The first to be deleted: (expires_at, id). */
    method FindOldestExpired(now: Time) returns (found: Option<SnapshotId>)
      ensures found == OldestExpired(Contents(), now)
    {
      found := None;
      var left := snapshots.Keys;
      while left != {}
        invariant left <= snapshots.Keys
        invariant found.None? ==> forall id | id in snapshots && id !in left :: !ExpiredAt(Contents(), id, now)
        invariant found.Some? ==> ExpiredAt(Contents(), found.value, now)
        invariant found.Some? ==>
                    forall id | id in snapshots && id !in left && ExpiredAt(Contents(), id, now) ::
                      Older(Contents(), found.value, id)
        decreases |left|
      {
        var id :| id in left;
        left := left - {id};
        if snapshots[id].expiresAt <= now && (found.None? || Older(Contents(), id, found.value)) { found := Some(id); }
      }
      SameOldest(Contents(), found, now);
    }

    method DeleteSnapshot(id: SnapshotId)
      modifies this
      ensures Contents() == Delete(old(Contents()), id)
    {
      snapshots := snapshots - {id};
      items := map k | k in items && k.snapshot != id :: items[k];
    }

    /** `cleanup_expired`. */
    method CleanupExpired(now: Time, limit: nat) returns (deleted: nat)
      modifies this
      ensures Contents() == Cleanup(old(Contents()), now, limit) && deleted <= limit
      ensures |snapshots| + deleted == old(|snapshots|)
    {
      deleted := 0;
      while deleted < limit
        invariant deleted <= limit && |snapshots| + deleted == old(|snapshots|)
        invariant Cleanup(Contents(), now, limit - deleted) == Cleanup(old(Contents()), now, limit)
        decreases limit - deleted
      {
        var oldest := FindOldestExpired(now);
        if oldest.None? { return; }
        OneFewer(snapshots, oldest.value);
        DeleteSnapshot(oldest.value);
        deleted := deleted + 1;
      }
    }

    /** The smallest stored position at or after `from`. */
    method FindNext(id: SnapshotId, from: nat) returns (next: Option<nat>)
      ensures next.None? <==> Positions(Contents(), id, from) == {}
      ensures next.Some? ==>
                Positions(Contents(), id, from) != {} && next.value == Least(Positions(Contents(), id, from))
    {
      next := None;
      var left := items.Keys;
      while left != {}
        invariant left <= items.Keys
        invariant next.None? ==> forall k | k in items && k !in left :: !(k.snapshot == id && k.position >= from)
        invariant next.Some? ==> next.value in Positions(Contents(), id, from)
        invariant next.Some? ==>
                    forall k | k in items && k !in left && k.snapshot == id && k.position >= from ::
                      next.value <= k.position
        decreases |left|
      {
        var k :| k in left;
        left := left - {k};
        if k.snapshot == id && k.position >= from && (next.None? || k.position < next.value) {
          assert k.position in Positions(Contents(), id, from);
          next := Some(k.position);
        }
      }
    }

    /** `read_page`: ordered rows from the position on, one more than the limit. */
    method ReadPage(id: SnapshotId, access: Access, now: Time, position: nat, limit: nat) returns (page: Option<Page>)
      ensures page == Snapshots.ReadPage(Contents(), id, access, now, position, limit)
    {
      hide Rows, Positions, Least;
      if id !in snapshots { return None; }
      var meta := snapshots[id];
      if meta.marketer != access.marketer || meta.resource != access.resource || meta.filter != access.filter
         || meta.expiresAt <= now {
        return None;
      }
      var rows, from := [], position;
      while |rows| < limit + 1
        invariant |rows| <= limit + 1
        invariant rows + Rows(Contents(), id, from, limit + 1 - |rows|) == Rows(Contents(), id, position, limit + 1)
        decreases limit + 1 - |rows|
      {
        var next := FindNext(id, from);
        NextRow(Contents(), id, from, limit + 1 - |rows|);
        if next.None? { break; }
        rows := rows + [Row(next.value, items[ItemKey(id, next.value)])];
        from := next.value + 1;
      }
      NoMoreRows(Contents(), id, from);
      assert rows == Rows(Contents(), id, position, limit + 1);
      if rows == [] || rows[0].position != position { return None; }
      return Some(Page(meta.summary, ItemsOf(rows)));
    }
  }

  lemma NumberedNone(m: map<ItemKey, Projection>, id: SnapshotId, list: seq<Projection>)
    ensures m + Numbered(id, list[..0]) == m
  {
  }

  lemma NumberedNext(m: map<ItemKey, Projection>, id: SnapshotId, list: seq<Projection>, position: nat)
    requires position < |list|
    ensures m + Numbered(id, list[..position + 1])
            == (m + Numbered(id, list[..position]))[ItemKey(id, position) := list[position]]
  {
    var a, b := m + Numbered(id, list[..position + 1]),
        (m + Numbered(id, list[..position]))[ItemKey(id, position) := list[position]];
    assert a.Keys == b.Keys;
    assert forall k | k in a :: a[k] == b[k];
  }

  lemma SameOldest(t: Tables, found: Option<SnapshotId>, now: Time)
    requires found.Some? ==> IsOldestExpired(t, found.value, now)
    requires found.None? ==> forall id | id in t.snapshots :: !ExpiredAt(t, id, now)
    ensures found == OldestExpired(t, now)
  {
    var spec := OldestExpired(t, now);
    if found.Some? && spec.Some? { OldestIsUnique(t, found.value, spec.value, now); }
  }

  lemma OneFewer(m: map<SnapshotId, Meta>, id: SnapshotId)
    requires id in m
    ensures |m - {id}| == |m| - 1
  {
    assert (m - {id}).Keys == m.Keys - {id};
  }

  lemma NextRow(t: Tables, id: SnapshotId, from: nat, n: nat)
    requires n > 0
    ensures if Positions(t, id, from) == {} then Rows(t, id, from, n) == []
            else
              var p := Least(Positions(t, id, from));
              ItemKey(id, p) in t.items
                && Rows(t, id, from, n) == [Row(p, t.items[ItemKey(id, p)])] + Rows(t, id, p + 1, n - 1)
  {
  }

  lemma NoMoreRows(t: Tables, id: SnapshotId, from: nat)
    ensures Rows(t, id, from, 0) == []
  {
  }

  // ---------- The list service ----------

  class PostService {
    const repository: SnapshotRepository

    constructor (repository: SnapshotRepository)
      ensures this.repository == repository
    {
      this.repository := repository;
    }

    /** `_first_page`: clean up, freeze the whole list, show its head. */
    method FirstPage(id: SnapshotId, access: Access, live: seq<Projection>, now: Time, limit: nat)
      returns (answer: Answer)
      modifies repository
      ensures answer == Snapshots.FirstPage(live, limit)
      ensures repository.Contents() ==
              Create(Cleanup(old(repository.Contents()), now, CLEANUP_LIMIT), id,
                     NewMeta(access.marketer, access.resource, access.filter, None, now), live)
      ensures id in repository.snapshots
              && repository.snapshots[id] == Meta(access.marketer, access.resource, access.filter, None, now + 1800)
    {
      var _ := repository.CleanupExpired(now, CLEANUP_LIMIT);
      repository.Create(id, NewMeta(access.marketer, access.resource, access.filter, None, now), live);
      var shown := if |live| > limit then live[..limit] else live;
      return Listed(shown, if |live| > limit then Some(limit) else None);
    }

    /** `_snapshot_page`: only the frozen rows are read. */
    method SnapshotPage(id: SnapshotId, access: Access, now: Time, position: nat, limit: nat) returns (answer: Answer)
      ensures answer == NextPage(repository.Contents(), id, access, now, position, limit)
    {
      var page := repository.ReadPage(id, access, now, position, limit);
      if page.None? { return InvalidCursor; }
      var found := page.value.items;
      if |found| <= limit { return Listed(found, None); }
      return Listed(found[..limit], Some(position + limit));
    }
  }
}

/** List snapshots: frozen projections with an expiry, read in pages through a cursor. */
module Snapshots {
  import opened Options

  type SnapshotId = nat
  type Time = int
  type Projection = string

  const TTL_SECONDS: nat := 1800

  datatype Meta = Meta(marketer: nat, resource: string, filter: string, summary: Option<string>, expiresAt: Time)

  datatype ItemKey = ItemKey(snapshot: SnapshotId, position: nat)

  datatype Tables = Tables(snapshots: map<SnapshotId, Meta>, items: map<ItemKey, Projection>)

  const NO_SNAPSHOTS := Tables(map[], map[])

  // ---------- Creating ----------

  /** The numbered rows of a list, starting at `from`. */
  function Numbered(id: SnapshotId, items: seq<Projection>): map<ItemKey, Projection> {
    map k | 0 <= k < |items| :: ItemKey(id, k) := items[k]
  }

  function NewMeta(marketer: nat, resource: string, filter: string, summary: Option<string>, now: Time): Meta {
    Meta(marketer, resource, filter, summary, now + TTL_SECONDS)
  }

  /** `create` under a snapshot id that was never used. */
  function Create(t: Tables, id: SnapshotId, meta: Meta, items: seq<Projection>): Tables {
    Tables(t.snapshots[id := meta], t.items + Numbered(id, items))
  }

  // ---------- Cleaning up ----------

  predicate ExpiredAt(t: Tables, id: SnapshotId, now: Time) { id in t.snapshots && t.snapshots[id].expiresAt <= now }

  /** The order in which expired snapshots are deleted: (expires_at, id). */
  predicate Older(t: Tables, a: SnapshotId, b: SnapshotId)
    requires a in t.snapshots && b in t.snapshots
  {
    t.snapshots[a].expiresAt < t.snapshots[b].expiresAt
      || (t.snapshots[a].expiresAt == t.snapshots[b].expiresAt && a <= b)
  }

  predicate IsOldestExpired(t: Tables, id: SnapshotId, now: Time) {
    ExpiredAt(t, id, now) && forall j | j in t.snapshots && ExpiredAt(t, j, now) :: Older(t, id, j)
  }

  function Delete(t: Tables, id: SnapshotId): Tables {
    Tables(t.snapshots - {id}, map k | k in t.items && k.snapshot != id :: t.items[k])
  }

  lemma {:induction false} OldestAmong(t: Tables, ids: set<SnapshotId>)
    requires ids != {} && ids <= t.snapshots.Keys
    ensures exists a :: a in ids && forall b | b in ids :: Older(t, a, b)
    decreases |ids|
  {
    var x :| x in ids;
    var others := ids - {x};
    if others == {} {
      assert ids == {x};
      assert x in ids && forall b | b in ids :: Older(t, x, b);
    } else {
      OldestAmong(t, others);
      var y :| y in others && forall b | b in others :: Older(t, y, b);
      var a := if Older(t, x, y) then x else y;
      assert forall b | b in ids :: b == x || b in others;
      assert a in ids && forall b | b in ids :: Older(t, a, b);
    }
  }

  lemma SomeOldestExpired(t: Tables, now: Time)
    requires exists id :: ExpiredAt(t, id, now)
    ensures exists id :: IsOldestExpired(t, id, now)
  {
    var ids := set id | id in t.snapshots && ExpiredAt(t, id, now);
    var some :| ExpiredAt(t, some, now);
    assert some in ids;
    OldestAmong(t, ids);
    var a :| a in ids && forall b | b in ids :: Older(t, a, b);
    assert IsOldestExpired(t, a, now);
  }

  lemma OldestIsUnique(t: Tables, a: SnapshotId, b: SnapshotId, now: Time)
    requires IsOldestExpired(t, a, now) && IsOldestExpired(t, b, now)
    ensures a == b
  {
  }

  function OldestExpired(t: Tables, now: Time): (found: Option<SnapshotId>)
    ensures found.Some? ==> IsOldestExpired(t, found.value, now)
    ensures found.None? ==> forall id :: !ExpiredAt(t, id, now)
  {
    if exists id :: id in t.snapshots && ExpiredAt(t, id, now) then
      SomeOldestExpired(t, now);
      var id :| id in t.snapshots && IsOldestExpired(t, id, now);
      Some(id)
    else None
  }

  /** `cleanup_expired`: at most `limit` expired snapshots with their items, oldest first. */
  function Cleanup(t: Tables, now: Time, limit: nat): Tables
    decreases limit
  {
    var oldest := OldestExpired(t, now);
    if limit == 0 || oldest.None? then t else Cleanup(Delete(t, oldest.value), now, limit - 1)
  }

  // ---------- Reading ----------

  datatype Access = Access(marketer: nat, resource: string, filter: string)

  predicate Readable(t: Tables, id: SnapshotId, access: Access, now: Time) {
    id in t.snapshots && t.snapshots[id].marketer == access.marketer && t.snapshots[id].resource == access.resource
    && t.snapshots[id].filter == access.filter && t.snapshots[id].expiresAt > now
  }

  function Positions(t: Tables, id: SnapshotId, from: nat): set<nat> {
    set k | k in t.items && k.snapshot == id && k.position >= from :: k.position
  }

  datatype Row = Row(position: nat, item: Projection)

  lemma {:induction false} LeastBelow(s: set<nat>, y: nat)
    requires y in s
    ensures exists m :: m in s && forall x | x in s :: m <= x
    decreases y
  {
    if x :| x in s && x < y { LeastBelow(s, x); }
  }

  lemma LeastExists(s: set<nat>)
    requires s != {}
    ensures exists m :: m in s && forall x | x in s :: m <= x
  {
    var y :| y in s;
    LeastBelow(s, y);
  }

  function Least(s: set<nat>): (m: nat)
    requires s != {}
    ensures m in s && forall x | x in s :: m <= x
  {
    LeastExists(s);
    var m :| m in s && forall x | x in s :: m <= x;
    m
  }

  /** The first `n` stored rows at or after a position, in the order of their positions. */
  function Rows(t: Tables, id: SnapshotId, from: nat, n: nat): seq<Row>
    decreases n
  {
    var positions := Positions(t, id, from);
    if n == 0 || positions == {} then []
    else
      var p := Least(positions);
      [Row(p, t.items[ItemKey(id, p)])] + Rows(t, id, p + 1, n - 1)
  }

  datatype Page = Page(summary: Option<string>, items: seq<Projection>)

  function ItemsOf(rows: seq<Row>): seq<Projection> { seq(|rows|, k requires 0 <= k < |rows| => rows[k].item) }

  /** `read_page`: one row more than the limit, to see whether there is a next page. */
  function ReadPage(t: Tables, id: SnapshotId, access: Access, now: Time, position: nat, limit: nat): Option<Page> {
    if !Readable(t, id, access, now) then None
    else
      var rows := Rows(t, id, position, limit + 1);
      if rows == [] || rows[0].position != position then None
      else Some(Page(t.snapshots[id].summary, ItemsOf(rows)))
  }

  // ---------- The pager ----------

  datatype Answer = Listed(shown: seq<Projection>, next: Option<nat>) | InvalidCursor

  /** `_first_page`: the live list is frozen and its head is shown. */
  function FirstPage(live: seq<Projection>, limit: nat): Answer {
    if |live| > limit then Listed(live[..limit], Some(limit)) else Listed(live, None)
  }

  /** `_snapshot_page`. */
  function NextPage(t: Tables, id: SnapshotId, access: Access, now: Time, position: nat, limit: nat): Answer {
    match ReadPage(t, id, access, now, position, limit)
    case None => InvalidCursor
    case Some(page) =>
      if |page.items| > limit then Listed(page.items[..limit], Some(position + limit)) else Listed(page.items, None)
  }

  /** What other requests do to the tables between two pages. */
  datatype Event = CreateOther(id: SnapshotId, meta: Meta, items: seq<Projection>) | CleanupAt(now: Time, limit: nat)

  function Apply(t: Tables, e: Event): Tables {
    match e
    case CreateOther(id, meta, items) => if id in t.snapshots then t else Create(t, id, meta, items)
    case CleanupAt(now, limit) => Cleanup(t, now, limit)
  }

  function ApplyAll(t: Tables, events: seq<Event>): Tables
    decreases |events|
  {
    if events == [] then t else ApplyAll(Apply(t, events[0]), events[1..])
  }

  /** One request for a further page: what happened before it, its limit and its clock. */
  datatype Visit = Visit(events: seq<Event>, limit: nat, now: Time)

  datatype Walked = Walked(shown: seq<Projection>, end: End)

  datatype End = Finished | More(position: nat) | Refused

  /** Following cursors from a position, one visit after the other. */
  function Walk(t: Tables, id: SnapshotId, access: Access, position: nat, visits: seq<Visit>): Walked
    decreases |visits|
  {
    if visits == [] then Walked([], More(position))
    else
      var t' := ApplyAll(t, visits[0].events);
      match NextPage(t', id, access, visits[0].now, position, visits[0].limit)
      case InvalidCursor => Walked([], Refused)
      case Listed(shown, None) => Walked(shown, Finished)
      case Listed(shown, Some(next)) =>
        var rest := Walk(t', id, access, next, visits[1..]);
        Walked(shown + rest.shown, rest.end)
  }
}

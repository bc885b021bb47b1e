/** The idempotency repository in place: each conditional update against its specification. */
module IdempotencyStore {
  import opened Options
  import opened Idempotency
  import Turns

  /** A conditional update wrote what its specification says, or matched no row and wrote nothing. */
  predicate Wrote(before: Rows, after: Rows, ok: bool, spec: Option<Rows>) {
    ok == spec.Some? && after == if spec.Some? then spec.value else before
  }

  class IdempotencyRepository {
    var rows: Rows

    constructor ()
      ensures rows == map[]
    {
      rows := map[];
    }

    method Find(k: RowKey) returns (found: Option<Row>)
      ensures found == if k in rows then Some(rows[k]) else None
    {
      found := if k in rows then Some(rows[k]) else None;
    }

    /** The insert that does nothing on a conflict of the unique key. */
    method Reserve(k: RowKey, session: Turns.SessionId, request: Request, token: Token, lease: Time) returns (ok: bool)
      modifies this
      ensures Wrote(old(rows), rows, ok, Idempotency.Reserve(old(rows), k, session, request, token, lease))
    {
      if k in rows { return false; }
      var row := Row(session, None, request, Processing, token, lease, None, None, None);
      rows := rows[k := row];
      return true;
    }

    method AttachTurn(k: RowKey, turn: Turns.TurnId)
      modifies this
      ensures rows == Idempotency.AttachTurn(old(rows), k, turn)
    {
      if k in rows { rows := rows[k := rows[k].(turn := Some(turn))]; }
    }

    method HasUnresolvedDuplicate(marketer: nat, request: Request, exclude: RowKey) returns (found: bool)
      ensures found <==> Idempotency.HasUnresolvedDuplicate(rows, marketer, request, exclude)
    {
      var left := rows.Keys;
      while left != {}
        invariant left <= rows.Keys
        invariant forall k | k in rows && k !in left ::
                    !(k.marketer == marketer && k.op == PublishXPost && rows[k].request == request
                      && k != exclude && Unresolved(rows[k].status))
        decreases |left|
      {
        var k :| k in left;
        if k.marketer == marketer && k.op == PublishXPost && rows[k].request == request
           && k != exclude && Unresolved(rows[k].status) { return true; }
        left := left - {k};
      }
      return false;
    }

    /** The row is updated only if it is still exactly the expired one that was read. */
    method Reacquire(k: RowKey, read: Row, token: Token, lease: Time, now: Time) returns (ok: bool)
      modifies this
      ensures Wrote(old(rows), rows, ok, Idempotency.Reacquire(old(rows), k, read, token, lease, now))
    {
      if k !in rows { return false; }
      var row := rows[k];
      if row.status != Processing || row.token != read.token || row.lease != read.lease || row.lease > now {
        return false;
      }
      row := row.(token := token);
      row := row.(lease := lease);
      rows := rows[k := row];
      return true;
    }

    /** The row of a holder whose lease is still valid. */
    method HeldRow(k: RowKey, token: Token, now: Time, requireLease: bool) returns (row: Option<Row>)
      ensures row == if Held(rows, k, token, now, requireLease) then Some(rows[k]) else None
    {
      if k !in rows || rows[k].status != Processing || rows[k].token != token { return None; }
      if requireLease && rows[k].lease <= now { return None; }
      return Some(rows[k]);
    }

    method MarkExternalStarted(k: RowKey, token: Token, now: Time) returns (ok: bool)
      modifies this
      ensures Wrote(old(rows), rows, ok, Idempotency.MarkExternalStarted(old(rows), k, token, now))
    {
      var row := HeldRow(k, token, now, true);
      if row.Some? { rows := rows[k := row.value.(started := Some(now))]; }
      return row.Some?;
    }

    method SaveExternalResult(k: RowKey, token: Token, result: ExternalResult, now: Time) returns (ok: bool)
      modifies this
      ensures Wrote(old(rows), rows, ok, Idempotency.SaveExternalResult(old(rows), k, token, result, now))
    {
      var row := HeldRow(k, token, now, true);
      if row.Some? { rows := rows[k := row.value.(external := Some(result))]; }
      return row.Some?;
    }

    method Finalize(k: RowKey, token: Token, status: Status, response: Response, now: Time, requireLease: bool)
      returns (ok: bool)
      modifies this
      ensures Wrote(old(rows), rows, ok, Idempotency.Finalize(old(rows), k, token, status, response, now, requireLease))
    {
      var row := HeldRow(k, token, now, requireLease);
      if row.Some? {
        var ended := row.value.(status := status);
        rows := rows[k := ended.(response := Some(response))];
      }
      return row.Some?;
    }

    method ExpireLease(k: RowKey, token: Token, now: Time) returns (ok: bool)
      modifies this
      ensures Wrote(old(rows), rows, ok, Idempotency.ExpireLease(old(rows), k, token, now))
    {
      var row := HeldRow(k, token, now, true);
      if row.Some? { rows := rows[k := row.value.(lease := now)]; }
      return row.Some?;
    }

    method RecoverUnknown(k: RowKey, read: Row, response: Response, now: Time) returns (ok: bool)
      modifies this
      ensures Wrote(old(rows), rows, ok, Idempotency.RecoverUnknown(old(rows), k, read, response, now))
    {
      if k !in rows || k.op != PublishXPost { return false; }
      var row := rows[k];
      if row.status != Processing || row.token != read.token || row.lease != read.lease || row.lease > now {
        return false;
      }
      if row.started.None? || row.external.Some? { return false; }
      var ended := row.(status := OutcomeUnknown);
      rows := rows[k := ended.(response := Some(response))];
      return true;
    }

    method ResolveUnknown(k: RowKey, status: Status, response: Response) returns (ok: bool)
      modifies this
      ensures Wrote(old(rows), rows, ok, Idempotency.ResolveUnknown(old(rows), k, status, response))
    {
      if k !in rows || k.op != PublishXPost || rows[k].status != OutcomeUnknown { return false; }
      var ended := rows[k].(status := status);
      rows := rows[k := ended.(response := Some(response))];
      return true;
    }
  }
}

/**
 * The two durable tables behind a scheduled occurrence: `job_fires`
 * (core/scheduler/job-fires.ts) and `turns` (core/turns/store.ts).
 *
 * Each SQL statement is a function on the table's contents; each store is a class
 * whose methods are proved to perform exactly that function.
 */
module Stores {

  import opened Common

  type JobId = nat
  type TurnId = nat
  /** A fencing token: whoever holds the row's current one may write to it. */
  type Token = nat

  /** The occurrence that was due: the primary key of `job_fires`. */
  datatype Occ = Occ(job: JobId, scheduledFor: nat)

  datatype Fire = Fire(turnId: Option<TurnId>, settled: bool, silent: bool)

  type Fires = map<Occ, Fire>

  /** `INSERT OR IGNORE`: a second claim leaves whatever the first one wrote. */
  function ClaimFire(fires: Fires, o: Occ): Fires {
    if o in fires then fires else fires[o := Fire(None, false, false)]
  }

  /** `UPDATE ... WHERE turn_id IS NULL`: the first writer wins. */
  function BindFire(fires: Fires, o: Occ, t: TurnId): Fires {
    if o in fires && fires[o].turnId.None? then fires[o := fires[o].(turnId := Some(t))] else fires
  }

  /** `UPDATE ... WHERE settled_at IS NULL`: the first settlement owns the receipt. */
  function SettleFire(fires: Fires, o: Occ, silent: bool): Fires {
    if o in fires && !fires[o].settled then fires[o := fires[o].(settled := true, silent := silent)] else fires
  }

  class JobFireStore {
    var rows: Fires

    constructor ()
      ensures rows == map[]
    {
      rows := map[];
    }

    method Claim(o: Occ) returns (fire: Fire)
      modifies this
      ensures rows == ClaimFire(old(rows), o)
      ensures rows == if o in old(rows) then old(rows) else old(rows)[o := Fire(None, false, false)]
      ensures o in rows && fire == rows[o]
    {
      if o !in rows {
        rows := rows[o := Fire(None, false, false)];
      }
      fire := rows[o];
    }

    /** Every caller gets back the id that landed; `None` is the thrown "no row after bind". */
    method Bind(o: Occ, t: TurnId) returns (winner: Option<TurnId>)
      modifies this
      ensures rows == BindFire(old(rows), o, t)
      ensures winner == if o in rows then rows[o].turnId else None
      ensures o in old(rows) ==> winner == Some(if old(rows)[o].turnId.Some? then old(rows)[o].turnId.value else t)
      ensures o in old(rows) ==> rows == old(rows)[o := old(rows)[o].(turnId := winner)]
      ensures o !in old(rows) ==> rows == old(rows)
    {
      if o in rows && rows[o].turnId.None? {
        rows := rows[o := rows[o].(turnId := Some(t))];
      }
      winner := if o in rows then rows[o].turnId else None;
    }

    method Settle(o: Occ, silent: bool)
      modifies this
      ensures rows == SettleFire(old(rows), o, silent)
      ensures o in old(rows) && !old(rows)[o].settled ==> rows == old(rows)[o := Fire(old(rows)[o].turnId, true, silent)]
      ensures o !in old(rows) || old(rows)[o].settled ==> rows == old(rows)
    {
      if o in rows && !rows[o].settled {
        rows := rows[o := rows[o].(settled := true, silent := silent)];
      }
    }
  }

  datatype Status = Runnable | Running | Waiting | Interrupted | Done | Continuable

  datatype Outcome = Answered | Cap | Budget | Aborted | Error | Ask

  /** How a step stopped: an outcome, or one of the two releases that are not an ending. */
  datatype Stopped = Ended(outcome: Outcome) | Suspended | Released

  /** `InBand` is the column's NULL. */
  datatype Delivery = InBand | Pending | Sent | PossiblySent | Undeliverable | Failed

  /** Something already resolved the delivery (scheduler-run.ts, the `settleOnly` guard). */
  predicate Resolved(d: Delivery) { d != InBand && d != Pending }

  /** The discriminant `providerLease.model`: a real model, or one of the two "no model" marks. */
  datatype Model = Provider | ScriptModel | CappedModel

  /** `Owner` carries the automatic renewals left in its activity allowance. */
  datatype Principal = Scheduler | Owner(renewals: nat) | Other

  datatype Row = Row(
    principal: Principal,
    job: Option<JobId>,
    addressed: bool,
    model: Model,
    status: Status,
    token: Option<Token>,
    outcome: Option<Outcome>,
    delivery: Delivery,
    lease: nat)

  type Turns = map<TurnId, Row>

  const MAX_AUTONOMOUS_LEASES: nat := 3

  predicate IsSchedulerAutonomous(r: Row) { r.job.Some? && r.principal.Scheduler? }

  predicate IsOwnerActivityAutonomous(r: Row) { r.principal.Owner? && r.principal.renewals > 0 }

  /** The lane's pickup query. `expired`: a waiting row's deadline has passed. */
  predicate Due(r: Row, expired: bool) {
    || r.status in {Runnable, Interrupted}
    || (r.status == Waiting && expired)
    || (r.status == Continuable && IsSchedulerAutonomous(r) && r.lease < MAX_AUTONOMOUS_LEASES)
    || (r.status == Continuable && IsOwnerActivityAutonomous(r))
  }

  predicate Claimable(r: Row) { r.status in {Runnable, Waiting, Interrupted} }

  /** A row created already `running`: delivery starts pending exactly when it has an address. */
  function NewRow(principal: Principal, job: Option<JobId>, addressed: bool, model: Model, tok: Token): Row {
    Row(principal, job, addressed, model, Running, Some(tok), None, if addressed then Pending else InBand, 0)
  }

  /** `INSERT` on a primary key: an id already taken is an error and changes nothing. */
  function CreateRow(turns: Turns, id: TurnId, row: Row): Turns {
    if id in turns then turns else turns[id := row]
  }

  function ClaimRow(turns: Turns, id: TurnId, tok: Token): Turns {
    if id in turns && Claimable(turns[id])
    then turns[id := turns[id].(status := Running, token := Some(tok))] else turns
  }

  /** The fence on every write of a holder: the row still carries its token. */
  predicate Holds(turns: Turns, id: TurnId, tok: Token) { id in turns && turns[id].token == Some(tok) }

  /** `reassignUnstartedModel`: a queued row moves to the model selected now; the caller knows it never started. */
  function ReassignRow(turns: Turns, id: TurnId): Turns {
    if id in turns && turns[id].status == Runnable then turns[id := turns[id].(model := Provider)] else turns
  }

  function FinishRow(turns: Turns, id: TurnId, tok: Token, outcome: Outcome): Turns {
    if Holds(turns, id, tok)
    then turns[id := turns[id].(status := Done, outcome := Some(outcome), token := None)] else turns
  }

  /** The fence of `suspend` and `releaseContinuable`, which also require `running`. */
  predicate HoldsRunning(turns: Turns, id: TurnId, tok: Token) {
    Holds(turns, id, tok) && turns[id].status == Running
  }

  function SuspendRow(turns: Turns, id: TurnId, tok: Token): Turns {
    if HoldsRunning(turns, id, tok) then turns[id := turns[id].(status := Waiting, token := None)] else turns
  }

  function ReleaseRow(turns: Turns, id: TurnId, tok: Token): Turns {
    if HoldsRunning(turns, id, tok)
    then turns[id := turns[id].(status := Continuable, outcome := None, token := None)] else turns
  }

  /** An automatic grant also needs, and consumes, an owner renewal. */
  predicate Grantable(r: Row, automatic: bool) {
    r.status == Continuable && (automatic ==> IsOwnerActivityAutonomous(r))
  }

  function GrantedRow(r: Row, tok: Token, automatic: bool): Row
    requires Grantable(r, automatic)
  {
    r.(status := Running, token := Some(tok), delivery := InBand, lease := r.lease + 1,
    principal := if automatic then Owner(r.principal.renewals - 1) else r.principal)
  }

  function GrantRow(turns: Turns, id: TurnId, tok: Token, automatic: bool): Turns {
    if id in turns && Grantable(turns[id], automatic)
    then turns[id := GrantedRow(turns[id], tok, automatic)] else turns
  }

  /** Not fenced: whoever attempted the delivery writes how it went. */
  function DeliverRow(turns: Turns, id: TurnId, d: Delivery): Turns {
    if id in turns then turns[id := turns[id].(delivery := d)] else turns
  }

  function ReclaimRow(turns: Turns, id: TurnId): Turns {
    if id in turns && turns[id].status == Running
    then turns[id := turns[id].(status := Interrupted, token := None)] else turns
  }

  function WakeRow(turns: Turns, id: TurnId): Turns {
    if id in turns && turns[id].status == Waiting then turns[id := turns[id].(status := Runnable)] else turns
  }

  class TurnStore {
    var rows: Turns
    /** Fencing tokens are unique; a counter stands for `mintHolderId`. */
    var tokens: Token

    constructor ()
      ensures rows == map[] && tokens == 0
    {
      rows, tokens := map[], 0;
    }

    /** `None` is the thrown UNIQUE violation. */
    method Create(id: TurnId, principal: Principal, job: Option<JobId>, addressed: bool, model: Model)
      returns (tok: Option<Token>)
      modifies this
      ensures tokens == old(tokens) + 1
      ensures rows == CreateRow(old(rows), id, NewRow(principal, job, addressed, model, old(tokens)))
      ensures tok == if id in old(rows) then None else Some(old(tokens))
      ensures id in old(rows) ==> rows == old(rows)
      ensures id !in old(rows) ==>
                rows == old(rows)[id := Row(principal, job, addressed, model, Running, tok, None, if addressed then Pending else InBand, 0)]
    {
      tokens := tokens + 1;
      if id in rows { return None; }
      rows := rows[id := NewRow(principal, job, addressed, model, tokens - 1)];
      tok := Some(tokens - 1);
    }

    method Reassign(id: TurnId)
      modifies this`rows
      ensures rows == ReassignRow(old(rows), id)
      ensures rows == if id in old(rows) && old(rows)[id].status == Runnable then old(rows)[id := old(rows)[id].(model := Provider)] else old(rows)
    {
      if id in rows && rows[id].status == Runnable {
        rows := rows[id := rows[id].(model := Provider)];
      }
    }

    method Claim(id: TurnId) returns (tok: Option<Token>)
      modifies this
      ensures tokens == old(tokens) + if tok.Some? then 1 else 0
      ensures rows == ClaimRow(old(rows), id, old(tokens))
      ensures tok == if id in old(rows) && Claimable(old(rows)[id]) then Some(old(tokens)) else None
      ensures tok.Some? <==> id in old(rows) && old(rows)[id].status in {Runnable, Waiting, Interrupted}
      ensures rows == if tok.Some? then old(rows)[id := old(rows)[id].(status := Running, token := tok)] else old(rows)
    {
      if id !in rows || !Claimable(rows[id]) { return None; }
      tokens := tokens + 1;
      rows := rows[id := rows[id].(status := Running, token := Some(tokens - 1))];
      tok := Some(tokens - 1);
    }

    method Finish(id: TurnId, tok: Token, outcome: Outcome) returns (landed: bool)
      modifies this`rows
      ensures rows == FinishRow(old(rows), id, tok, outcome)
      ensures landed == Holds(old(rows), id, tok)
      ensures landed <==> id in old(rows) && old(rows)[id].token == Some(tok)
      ensures rows == if landed then old(rows)[id := old(rows)[id].(status := Done, outcome := Some(outcome), token := None)] else old(rows)
    {
      landed := id in rows && rows[id].token == Some(tok);
      if landed {
        rows := rows[id := rows[id].(status := Done, outcome := Some(outcome), token := None)];
      }
    }

    method Suspend(id: TurnId, tok: Token) returns (landed: bool)
      modifies this`rows
      ensures rows == SuspendRow(old(rows), id, tok)
      ensures landed == HoldsRunning(old(rows), id, tok)
      ensures landed <==> id in old(rows) && old(rows)[id].token == Some(tok) && old(rows)[id].status == Running
      ensures rows == if landed then old(rows)[id := old(rows)[id].(status := Waiting, token := None)] else old(rows)
    {
      landed := id in rows && rows[id].token == Some(tok) && rows[id].status == Running;
      if landed {
        rows := rows[id := rows[id].(status := Waiting, token := None)];
      }
    }

    method Release(id: TurnId, tok: Token) returns (landed: bool)
      modifies this`rows
      ensures rows == ReleaseRow(old(rows), id, tok)
      ensures landed == HoldsRunning(old(rows), id, tok)
      ensures landed <==> id in old(rows) && old(rows)[id].token == Some(tok) && old(rows)[id].status == Running
      ensures rows == if landed then old(rows)[id := old(rows)[id].(status := Continuable, outcome := None, token := None)] else old(rows)
    {
      landed := id in rows && rows[id].token == Some(tok) && rows[id].status == Running;
      if landed {
        rows := rows[id := rows[id].(status := Continuable, outcome := None, token := None)];
      }
    }

    method Grant(id: TurnId, automatic: bool) returns (tok: Option<Token>)
      modifies this
      ensures tokens == old(tokens) + if tok.Some? then 1 else 0
      ensures rows == GrantRow(old(rows), id, old(tokens), automatic)
      ensures tok == if id in old(rows) && Grantable(old(rows)[id], automatic) then Some(old(tokens)) else None
      ensures tok.Some? <==> id in old(rows) && old(rows)[id].status == Continuable
                             && (automatic ==> old(rows)[id].principal.Owner? && old(rows)[id].principal.renewals > 0)
      ensures tok.None? ==> rows == old(rows)
      ensures tok.Some? ==>
                var row := old(rows)[id];
                rows == old(rows)[id := row.(status := Running, token := tok, delivery := InBand, lease := row.lease + 1,
                                             principal := if automatic then Owner(row.principal.renewals - 1) else row.principal)]
    {
      if id !in rows || !Grantable(rows[id], automatic) { return None; }
      tokens := tokens + 1;
      rows := rows[id := GrantedRow(rows[id], tokens - 1, automatic)];
      tok := Some(tokens - 1);
    }

    /** The row of a holder that is gone: what it did is not known to be undone. */
    method Reclaim(id: TurnId)
      modifies this`rows
      ensures rows == ReclaimRow(old(rows), id)
      ensures rows == if id in old(rows) && old(rows)[id].status == Running
                      then old(rows)[id := old(rows)[id].(status := Interrupted, token := None)] else old(rows)
    {
      if id in rows && rows[id].status == Running {
        rows := rows[id := rows[id].(status := Interrupted, token := None)];
      }
    }

    method Wake(id: TurnId)
      modifies this`rows
      ensures rows == WakeRow(old(rows), id)
      ensures rows == if id in old(rows) && old(rows)[id].status == Waiting then old(rows)[id := old(rows)[id].(status := Runnable)] else old(rows)
    {
      if id in rows && rows[id].status == Waiting {
        rows := rows[id := rows[id].(status := Runnable)];
      }
    }

    method Delivered(id: TurnId, d: Delivery)
      modifies this`rows
      ensures rows == DeliverRow(old(rows), id, d)
      ensures rows == if id in old(rows) then old(rows)[id := old(rows)[id].(delivery := d)] else old(rows)
    {
      if id in rows {
        rows := rows[id := rows[id].(delivery := d)];
      }
    }
  }
}

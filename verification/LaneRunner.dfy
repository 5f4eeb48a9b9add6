/**
 * The lane's side of a turn (agent/turn-lane.ts): resume or continue the row, then account
 * for its answer exactly once. `Lane` holds what leaves the process; the loop, the channel
 * and the counters answer through `Env`.
 */
module LaneRunner {

  import opened Common
  import opened Stores

  datatype Post = Post(id: TurnId, text: string)

  datatype SendEnd = Arrives | PossiblyArrives | SendThrows

  /** How the loop let go of the row, and what it would say. */
  datatype Drive = Drive(how: Stopped, text: string)

  /** A policy reader: not wired, threw, or answered. */
  datatype Policy = Unread | PolicyThrows | Silent | Deliver

  /** The per-job counter and policy reader of autonomous leases. */
  datatype Auto = Auto(cap: Option<real>, spent: real, policy: Policy)

  datatype Env = Env(
    drive: Drive,
    // A pending approval puts the turn back to waiting before anything runs.
    reasked: bool,
    // The row's model is the one selected now, and the turn has built its context.
    sameModel: bool,
    started: bool,
    // Resumes spent so far; leases in a row that died, and whether the last one is long enough ago.
    resumes: nat,
    deadLeases: nat,
    cooled: bool,
    budgetExhausted: bool,
    auto: Option<Auto>,
    jobRow: Policy,
    send: SendEnd,
    markLands: bool)

  datatype Result = Refused(detail: string) | Finished(how: Stopped, text: string)

  const WHY: string := "non ripreso"

  /** Nobody silences anything but an answered job turn whose policy is read to be silent. */
  function IsSilentResume(env: Env, job: Option<JobId>, how: Stopped): (silent: bool)
    ensures silent ==> how == Ended(Answered) && job.Some?
    ensures env.auto.Some? && env.auto.value.policy in {Deliver, PolicyThrows} ==> !silent
    ensures how == Ended(Answered) && job.Some? && env.auto.Some? && env.auto.value.policy.Silent? ==> silent
    ensures (env.auto.None? || env.auto.value.policy.Unread?) ==>
              (silent <==> how == Ended(Answered) && job.Some? && env.jobRow.Silent?)
  {
    if how != Ended(Answered) || job.None? then false
    else match (if env.auto.Some? then env.auto.value.policy else Unread)
      case Silent => true
      case Deliver => false
      case PolicyThrows => false
      case Unread => env.jobRow.Silent?
  }

  /** An autonomous lease may open: fail closed when something cannot be read. */
  predicate LeaseAllowed(row: Row, env: Env) {
    && (IsOwnerActivityAutonomous(row) || row.lease < MAX_AUTONOMOUS_LEASES)
    && !env.budgetExhausted
    && (row.job.Some? ==> env.auto.Some? && (env.auto.value.cap.Some? ==> env.auto.value.spent < env.auto.value.cap.value))
  }

  predicate Autonomous(row: Row) {
    row.status == Continuable && (IsSchedulerAutonomous(row) || IsOwnerActivityAutonomous(row))
  }

  const MAX_RESUMES: nat := 3

  const MAX_CONSECUTIVE_DEAD_LEASES: nat := 3

  /** A queued row that never started is moved to the model selected now. */
  predicate Queued(row: Row, env: Env) { row.status == Runnable && !env.started }

  function Selected(row: Row, env: Env): Row { if Queued(row, env) then row.(model := Provider) else row }

  /** Closed with a reason instead of resumed. */
  predicate Unresumable(row: Row, env: Env) { (!env.sameModel && !Queued(row, env)) || env.resumes >= MAX_RESUMES }

  /** Refused before the grant, and left continuable. */
  predicate Uncontinuable(env: Env) {
    !env.sameModel || !env.started || (env.deadLeases >= MAX_CONSECUTIVE_DEAD_LEASES && !env.cooled)
  }

  // ---- What a beat comes to ---------------------------------------------------------------

  /** `resumeTurn` on a row it can claim. */
  function ResumeEnd(row: Row, env: Env): Result {
    match Selected(row, env).model
    case CappedModel => Finished(Ended(Budget), WHY)
    case ScriptModel => Finished(Ended(Error), WHY)
    case Provider =>
      if env.reasked then Finished(Suspended, "")
      else if Unresumable(row, env) then Refused(WHY)
      else Finished(env.drive.how, env.drive.text)
  }

  /** `resumeTurn` hands a claimed row to the loop. */
  predicate ResumeDrives(row: Row, env: Env) {
    Selected(row, env).model == Provider && !env.reasked && !Unresumable(row, env)
  }

  /** The row a drive leaves behind. */
  function Driven(row: Row, how: Stopped): Row {
    match how
    case Ended(outcome) => row.(status := Done, outcome := Some(outcome), token := None)
    case Suspended => row.(status := Waiting, token := None)
    case Released => row.(status := Continuable, outcome := None, token := None)
  }

  /** A refusal after the claim has closed the row. */
  function HowOf(r: Result): Stopped { if r.Refused? then Ended(Error) else r.how }

  /** What leaves the process: nothing, a message to the row's address, or a report that it has none. */
  datatype Said = Nothing | Message(text: string) | Report(text: string)

  /** A finished answer. */
  function Answer(row: Row, how: Stopped, text: string, env: Env): Said {
    if text == "" || IsSilentResume(env, row.job, how) then Nothing
    else if row.addressed then Message(text) else Report(text)
  }

  /** Every gate of an autonomous lease, in the lane and in `continueTurn`. */
  predicate Opens(row: Row, env: Env) { LeaseAllowed(row, env) && !Uncontinuable(env) }

  /** What a resume says, once it has the row. */
  function ResumeSays(row: Row, env: Env): Said {
    var r := ResumeEnd(row, env);
    if r.Refused? then if row.addressed then Message(r.detail) else Nothing
    else if r.how == Suspended then Nothing
    else Answer(row, r.how, r.text, env)
  }

  /** All of one beat: its result, the row before its mark, whether it took and drove it, and what it said. */
  datatype Beat = Beat(result: Result, row: Row, taken: bool, driven: bool, said: Said)

  function LeftAsIs(row: Row, said: Said): Beat { Beat(Refused(WHY), row, false, false, said) }

  /** `resumeTurn` on the row as it is now, and the word about it. */
  function ResumeBeat(row: Row, env: Env): Beat {
    if !Claimable(row) then LeftAsIs(row, if row.addressed then Message(WHY) else Nothing)
    else
      var r := ResumeEnd(row, env);
      Beat(r, Driven(Selected(row, env), HowOf(r)), true, ResumeDrives(row, env), ResumeSays(row, env))
  }

  /** `continueTurn` on the row as it is now, past the lane's own gates, and the word about an ending. */
  function LeaseBeat(row: Row, tok: Token, automatic: bool, env: Env): Beat {
    if !Grantable(row, automatic) || Uncontinuable(env) then LeftAsIs(row, Nothing)
    else
      Beat(Finished(env.drive.how, env.drive.text), Driven(GrantedRow(row, tok, automatic), env.drive.how), true, true,
           if env.drive.how.Ended? then Answer(row, env.drive.how, env.drive.text, env) else Nothing)
  }

  /** The whole beat on a row nobody else touches meanwhile. */
  function BeatOf(row: Row, tok: Token, env: Env): Beat {
    if !Autonomous(row) then ResumeBeat(row, env)
    else if !LeaseAllowed(row, env) then LeftAsIs(row, Nothing)
    else LeaseBeat(row, tok, IsOwnerActivityAutonomous(row), env)
  }

  /** The mark on the row: how its one message went, or that it had nowhere to go. */
  function Noted(turns: Turns, id: TurnId, said: Said, env: Env): Turns {
    if said.Nothing? || !env.markLands then turns
    else DeliverRow(turns, id, if said.Message? then SendState(env.send) else Undeliverable)
  }

  function BeatTurns(turns: Turns, id: TurnId, b: Beat, env: Env): Turns {
    Noted(turns[id := b.row], id, b.said, env)
  }

  function Posted(id: TurnId, said: Said): seq<Post> { if said.Message? then [Post(id, said.text)] else [] }

  function Reported(id: TurnId, said: Said): seq<Post> { if said.Report? then [Post(id, said.text)] else [] }

  function SendState(send: SendEnd): Delivery {
    match send
    case Arrives => Sent
    case PossiblyArrives => PossiblySent
    case SendThrows => Failed
  }

  class Lane {
    const turns: TurnStore
    /** Attempts to send, and answers reported as having nowhere to go. */
    var outbox: seq<Post>
    var reports: seq<Post>
    /** Rows handed to the model loop, in order. */
    ghost var driven: seq<TurnId>

    constructor (turns: TurnStore)
      ensures this.turns == turns && outbox == [] && reports == [] && driven == []
    {
      this.turns, outbox, reports, driven := turns, [], [], [];
    }

    /** The row and the mark: a bookkeeping write that throws is swallowed. */
    method Mark(id: TurnId, d: Delivery, lands: bool)
      modifies turns`rows
      ensures turns.rows == if lands then DeliverRow(old(turns.rows), id, d) else old(turns.rows)
    {
      if lands {
        turns.Delivered(id, d);
      }
    }

    /** One attempt, one recorded state; a send that throws is recorded, not rethrown. */
    method SendAndRecord(id: TurnId, text: string, env: Env)
      modifies this`outbox, turns`rows
      ensures outbox == old(outbox) + [Post(id, text)]
      ensures turns.rows == if env.markLands then DeliverRow(old(turns.rows), id, SendState(env.send)) else old(turns.rows)
      ensures id in old(turns.rows) ==> id in turns.rows && MarkedAs(turns.rows[id].delivery, old(turns.rows)[id].delivery, env)
    {
      outbox := outbox + [Post(id, text)];
      Mark(id, SendState(env.send), env.markLands);
    }

    /** The loop itself, on a row this process holds. */
    method RunLoop(id: TurnId, tok: Token, d: Drive)
      requires HoldsRunning(turns.rows, id, tok)
      modifies this`driven, turns`rows
      ensures turns.rows == old(turns.rows)[id := Driven(old(turns.rows)[id], d.how)]
      ensures driven == old(driven) + [id]
    {
      driven := driven + [id];
      match d.how {
        case Ended(outcome) => var landed := turns.Finish(id, tok, outcome);
        case Suspended => var landed := turns.Suspend(id, tok);
        case Released => var landed := turns.Release(id, tok);
      }
    }

    /** `resumeTurn`: refusals leave the row alone unless it was already claimed. */
    method ResumeTurn(id: TurnId, env: Env) returns (r: Result)
      modifies this`driven, turns
      ensures id !in old(turns.rows) || !Claimable(old(turns.rows)[id]) ==>
                r == Refused(WHY) && turns.rows == old(turns.rows) && turns.tokens == old(turns.tokens) && driven == old(driven)
      ensures id in old(turns.rows) && Claimable(old(turns.rows)[id]) ==>
                var row := old(turns.rows)[id];
                && r == ResumeEnd(row, env)
                && turns.rows == old(turns.rows)[id := Driven(Selected(row, env), HowOf(r))]
                && turns.tokens == old(turns.tokens) + 1
                && driven == old(driven) + if ResumeDrives(row, env) then [id] else []
    {
      if id !in turns.rows || !Claimable(turns.rows[id]) {
        return Refused(WHY);
      }
      var row := turns.rows[id];
      if Queued(row, env) {
        turns.Reassign(id);
      }
      var claimed := turns.Claim(id);
      var tok := claimed.value;
      var model := turns.rows[id].model;
      if model == CappedModel {
        var landed := turns.Finish(id, tok, Budget);
        return Finished(Ended(Budget), WHY);
      }
      if model == ScriptModel {
        var landed := turns.Finish(id, tok, Error);
        return Finished(Ended(Error), WHY);
      }
      if env.reasked {
        var landed := turns.Suspend(id, tok);
        if landed {
          return Finished(Suspended, "");
        }
      }
      if Unresumable(row, env) {
        var landed := turns.Finish(id, tok, Error);
        return Refused(WHY);
      }
      RunLoop(id, tok, env.drive);
      r := Finished(env.drive.how, env.drive.text);
    }

    /** `continueTurn`: one more lease, granted to exactly one caller. */
    method ContinueTurn(id: TurnId, automatic: bool, env: Env) returns (r: Result)
      modifies this`driven, turns
      ensures r.Refused? ==> driven == old(driven) && turns.rows == old(turns.rows)
      ensures r.Finished? ==>
                && id in old(turns.rows) && Grantable(old(turns.rows)[id], automatic)
                && turns.rows == old(turns.rows)[id := Driven(GrantedRow(old(turns.rows)[id], old(turns.tokens), automatic), r.how)]
                && turns.tokens == old(turns.tokens) + 1
                && r.how == env.drive.how && r.text == env.drive.text && driven == old(driven) + [id]
      ensures r.Finished? <==> id in old(turns.rows) && Grantable(old(turns.rows)[id], automatic) && !Uncontinuable(env)
      ensures r.Refused? ==> r == Refused(WHY)
      ensures r.Refused? ==> turns.tokens == old(turns.tokens)
    {
      if id !in turns.rows || turns.rows[id].status != Continuable || Uncontinuable(env) {
        return Refused(WHY);
      }
      var granted := turns.Grant(id, automatic);
      if granted.None? {
        return Refused(WHY);
      }
      RunLoop(id, granted.value, env.drive);
      r := Finished(env.drive.how, env.drive.text);
    }

    /** The answer `text` of a row the lane finished: kept silent, sent once, or reported once. */
    method Account(id: TurnId, how: Stopped, text: string, env: Env)
      requires id in turns.rows
      modifies this`outbox, this`reports, turns`rows
      ensures var said := Answer(old(turns.rows)[id], how, text, env);
              && turns.rows == Noted(old(turns.rows), id, said, env)
              && outbox == old(outbox) + Posted(id, said) && reports == old(reports) + Reported(id, said)
    {
      var row := turns.rows[id];
      if text != "" && IsSilentResume(env, row.job, how) {
        return;
      }
      if row.addressed && text != "" {
        SendAndRecord(id, text, env);
        return;
      }
      if text != "" {
        reports := reports + [Post(id, text)];
        Mark(id, Undeliverable, env.markLands);
      }
    }

    /** `resumeTurn` and what the lane makes of it; a refusal still owes the owner a sentence. */
    method Resume(id: TurnId, env: Env) returns (r: Result)
      modifies this, turns
      ensures id !in old(turns.rows) ==>
                && r == Refused(WHY) && turns.rows == old(turns.rows) && turns.tokens == old(turns.tokens)
                && driven == old(driven) && outbox == old(outbox) && reports == old(reports)
      ensures id in old(turns.rows) ==>
                var b := ResumeBeat(old(turns.rows)[id], env);
                && r == b.result && turns.rows == BeatTurns(old(turns.rows), id, b, env)
                && turns.tokens == old(turns.tokens) + (if b.taken then 1 else 0)
                && driven == old(driven) + (if b.driven then [id] else [])
                && outbox == old(outbox) + Posted(id, b.said) && reports == old(reports) + Reported(id, b.said)
    {
      r := ResumeTurn(id, env);
      if r.Refused? {
        if id in turns.rows && turns.rows[id].addressed {
          SendAndRecord(id, r.detail, env);
        }
        return;
      }
      if r.how == Suspended {
        return;
      }
      Account(id, r.how, r.text, env);
    }

    /** One more lease, the gates being open; silence while the lane still owns the work. */
    method Lease(id: TurnId, automatic: bool, env: Env) returns (r: Result)
      requires id in turns.rows
      modifies this, turns
      ensures var b := LeaseBeat(old(turns.rows)[id], old(turns.tokens), automatic, env);
              && r == b.result && turns.rows == BeatTurns(old(turns.rows), id, b, env)
              && turns.tokens == old(turns.tokens) + (if b.taken then 1 else 0)
              && driven == old(driven) + (if b.driven then [id] else [])
              && outbox == old(outbox) + Posted(id, b.said) && reports == old(reports) + Reported(id, b.said)
    {
      r := ContinueTurn(id, automatic, env);
      if r.Refused? || !r.how.Ended? {
        return;
      }
      Account(id, r.how, r.text, env);
    }

    /** `runAutonomous`: the lane's own gates come before the grant. */
    method RunAutonomous(id: TurnId, env: Env) returns (r: Result)
      requires id in turns.rows && Autonomous(turns.rows[id])
      modifies this, turns
      ensures r == if Opens(old(turns.rows)[id], env) then Finished(env.drive.how, env.drive.text) else Refused(WHY)
      ensures var b := BeatOf(old(turns.rows)[id], old(turns.tokens), env);
              && r == b.result && turns.rows == BeatTurns(old(turns.rows), id, b, env)
              && turns.tokens == old(turns.tokens) + (if b.taken then 1 else 0)
              && driven == old(driven) + (if b.driven then [id] else [])
              && outbox == old(outbox) + Posted(id, b.said) && reports == old(reports) + Reported(id, b.said)
    {
      var row := turns.rows[id];
      if !LeaseAllowed(row, env) {
        return Refused(WHY);
      }
      r := Lease(id, IsOwnerActivityAutonomous(row), env);
    }

    /** One beat of the lane on one row. */
    method Run(id: TurnId, env: Env) returns (r: Result)
      modifies this, turns
      ensures id !in old(turns.rows) ==>
                && r == Refused(WHY) && turns.rows == old(turns.rows) && turns.tokens == old(turns.tokens)
                && driven == old(driven) && outbox == old(outbox) && reports == old(reports)
      ensures id in old(turns.rows) ==>
                var b := BeatOf(old(turns.rows)[id], old(turns.tokens), env);
                && r == b.result && turns.rows == BeatTurns(old(turns.rows), id, b, env)
                && turns.tokens == old(turns.tokens) + (if b.taken then 1 else 0)
                // One drive at most, whatever became of the send.
                && driven == old(driven) + (if b.driven then [id] else [])
                // At most one message and at most one report, never both.
                && outbox == old(outbox) + Posted(id, b.said) && reports == old(reports) + Reported(id, b.said)
    {
      if id in turns.rows && Autonomous(turns.rows[id]) {
        r := RunAutonomous(id, env);
        return;
      }
      r := Resume(id, env);
    }
  }

  // ---- What the lane promises of a beat -----------------------------------------------------

  /** The pickup query and the lane's own gates agree: of continuable rows it picks those that only money could stop. */
  lemma PickedIsGated(row: Row, expired: bool)
    ensures row.status == Continuable ==>
              (Due(row, expired) <==> Autonomous(row) && ((row.principal.Owner? && row.principal.renewals > 0) || row.lease < 3))
    ensures row.status != Continuable ==>
              (Due(row, expired) <==> row.status == Runnable || row.status == Interrupted || (row.status == Waiting && expired))
  {
  }

  /** No other row is touched, and this one keeps its job, its address and, but for one lease, its count. */
  lemma OnlyItsOwnRow(turns: Turns, id: TurnId, tok: Token, env: Env)
    requires id in turns
    ensures var turns' := BeatTurns(turns, id, BeatOf(turns[id], tok, env), env);
            && turns'.Keys == turns.Keys && (forall x | x in turns && x != id :: turns'[x] == turns[x])
            && turns'[id].job == turns[id].job && turns'[id].addressed == turns[id].addressed
            && turns'[id].lease == turns[id].lease + (if Autonomous(turns[id]) && Opens(turns[id], env) then 1 else 0)
  {
  }

  /** A gate that is closed, or cannot be read, opens nothing and says nothing. */
  lemma ClosedGateOpensNothing(row: Row, tok: Token, env: Env)
    requires Autonomous(row)
    requires env.budgetExhausted || (row.job.Some? && env.auto.None?)
             || (IsSchedulerAutonomous(row) && !IsOwnerActivityAutonomous(row) && row.lease >= MAX_AUTONOMOUS_LEASES)
             || (row.job.Some? && env.auto.value.cap.Some? && env.auto.value.spent >= env.auto.value.cap.value)
    ensures BeatOf(row, tok, env) == LeftAsIs(row, Nothing)
  {
  }

  /** How a message went, read off its mark; a mark that could not be written leaves what was there. */
  predicate MarkedAs(mark: Delivery, before: Delivery, env: Env) {
    if !env.markLands then mark == before
    else
      && (mark == Sent <==> env.send.Arrives?) && (mark == PossiblySent <==> env.send.PossiblyArrives?)
      && (mark == Failed <==> env.send.SendThrows?)
  }

  /** An autonomous lease opens exactly when every one of its gates does. */
  lemma LeaseOpensIff(row: Row, tok: Token, env: Env)
    requires row.status == Continuable
    requires (row.job.Some? && row.principal.Scheduler?) || (row.principal.Owner? && row.principal.renewals > 0)
    ensures BeatOf(row, tok, env).taken <==>
              && (row.lease < 3 || (row.principal.Owner? && row.principal.renewals > 0)) && !env.budgetExhausted
              && (row.job.Some? ==> env.auto.Some? && (env.auto.value.cap.None? || env.auto.value.spent < env.auto.value.cap.value))
              && env.sameModel && env.started && (env.deadLeases < 3 || env.cooled)
    ensures BeatOf(row, tok, env).driven <==> BeatOf(row, tok, env).taken
    ensures BeatOf(row, tok, env).taken ==> BeatOf(row, tok, env).result == Finished(env.drive.how, env.drive.text)
    ensures !BeatOf(row, tok, env).taken ==> BeatOf(row, tok, env) == LeftAsIs(row, Nothing)
  {
  }

  /** Other work that can be continued is not continued by the lane: it is refused, and the owner told. */
  lemma OthersAreNotContinued(row: Row, tok: Token, env: Env)
    requires row.status == Continuable
    requires (row.job.None? || !row.principal.Scheduler?) && (!row.principal.Owner? || row.principal.renewals == 0)
    ensures var b := BeatOf(row, tok, env);
            !b.taken && !b.driven && b.row == row && b.result.Refused? && (b.said.Message? <==> row.addressed)
  {
  }

  /** What it costs: one lease, the delivery reset, and one of an owner's renewals. */
  lemma LeaseCosts(row: Row, tok: Token, env: Env)
    requires row.status == Continuable && BeatOf(row, tok, env).taken
    ensures var row' := BeatOf(row, tok, env).row;
            && row'.lease == row.lease + 1 && row'.delivery == InBand && row'.job == row.job && row'.addressed == row.addressed
            && row'.principal == (if row.principal.Owner? && row.principal.renewals > 0 then Owner(row.principal.renewals - 1) else row.principal)
  {
  }

  /** A row the lane can claim is closed without the loop for exactly these reasons, each with words. */
  lemma ClosedUndriven(row: Row, env: Env)
    requires row.status in {Runnable, Waiting, Interrupted}
    ensures var b, queued := ResumeBeat(row, env), row.status == Runnable && !env.started;
            && b.taken
            && (!queued && row.model == CappedModel ==> b.row.status == Done && b.row.outcome == Some(Budget) && !b.driven && b.result.Finished?)
            && (!queued && row.model == ScriptModel ==> b.row.status == Done && b.row.outcome == Some(Error) && !b.driven && b.result.Finished?)
            && ((queued || row.model == Provider) && env.reasked ==> b.row.status == Waiting && !b.driven && b.said.Nothing?)
            && (b.result.Refused? <==> (queued || row.model == Provider) && !env.reasked && ((!env.sameModel && !queued) || env.resumes >= 3))
            && (b.result.Refused? ==> b.row.status == Done && b.row.outcome == Some(Error) && !b.driven)
            && (b.driven <==> (queued || row.model == Provider) && !env.reasked && !b.result.Refused?)
            && (b.driven ==> b.result == Finished(env.drive.how, env.drive.text))
  {
  }

  /** A refused resume still owes the owner a sentence, where there is an address; it leaves a row it could not claim alone. */
  lemma RefusalIsSaid(turns: Turns, id: TurnId, env: Env)
    requires id in turns && ResumeBeat(turns[id], env).result.Refused?
    ensures var b := ResumeBeat(turns[id], env);
            && (b.said.Message? <==> turns[id].addressed) && !b.said.Report? && (b.said.Message? ==> b.said.text != "")
            && (turns[id].status !in {Runnable, Waiting, Interrupted} ==> b.row == turns[id] && !b.taken)
            && (turns[id].addressed ==> MarkedAs(BeatTurns(turns, id, b, env)[id].delivery, turns[id].delivery, env))
            && (!turns[id].addressed ==> BeatTurns(turns, id, b, env)[id].delivery == turns[id].delivery)
  {
  }

  /** While the lane still owns the work nothing is said and the delivery stays open. */
  lemma SilentWhileOwned(turns: Turns, id: TurnId, tok: Token, env: Env)
    requires id in turns && BeatOf(turns[id], tok, env).result.Finished?
    requires var how := BeatOf(turns[id], tok, env).result.how; how == Suspended || (how == Released && Autonomous(turns[id]))
    ensures BeatOf(turns[id], tok, env).said.Nothing?
    ensures BeatTurns(turns, id, BeatOf(turns[id], tok, env), env)[id].status
            == if BeatOf(turns[id], tok, env).result.how == Suspended then Waiting else Continuable
    ensures BeatTurns(turns, id, BeatOf(turns[id], tok, env), env)[id].delivery == if Autonomous(turns[id]) then InBand else turns[id].delivery
  {
  }

  /**
   * An answer is accounted for exactly once: the row of a beat that ended is marked when
   * something was said and the mark landed, and otherwise its delivery is as it was found,
   * or reset by the lease.
   */
  lemma AccountedOnce(turns: Turns, id: TurnId, tok: Token, env: Env)
    requires id in turns && BeatOf(turns[id], tok, env).result.Finished? && BeatOf(turns[id], tok, env).result.how.Ended?
    ensures var b := BeatOf(turns[id], tok, env);
            var r, said, row := b.result, b.said, BeatTurns(turns, id, b, env)[id];
            && row.status == Done && row.outcome == Some(r.how.outcome) && row.token.None?
            && (said.Nothing? <==> r.text == "" || IsSilentResume(env, turns[id].job, r.how))
            && (!said.Nothing? ==> said == if turns[id].addressed then Message(r.text) else Report(r.text))
            && var before := if Autonomous(turns[id]) then InBand else turns[id].delivery;
            && (said.Message? ==> MarkedAs(row.delivery, before, env))
            && (said.Report? ==> row.delivery == if env.markLands then Undeliverable else before)
            && (said.Nothing? ==> row.delivery == before)
  {
  }
}

/**
 * The per-job ceiling over a month: every lease is opened by the first-run gate
 * (agent/scheduler-run.ts) or the autonomous gate (agent/turn-lane.ts), one at a time.
 */
module Spending {

  import opened Common
  import opened Stores
  import J = JobRunner
  import L = LaneRunner

  /** A lease asked for: `readable` says whether the counter could be asked, `cost` what it would spend. */
  datatype Ask = FirstRun(readable: bool, cost: real) | Autonomous(row: Row, env: L.Env, cost: real)

  /** The gate's answer when the job has spent `spent` so far under ceiling `cap`. */
  predicate Opens(cap: real, a: Ask, spent: real) {
    match a
    case FirstRun(readable, _) => !J.GateRefuses(Some(cap), if readable then Some(spent) else None)
    case Autonomous(row, env, _) =>
      L.LeaseAllowed(row, if env.auto.Some? then env.(auto := Some(env.auto.value.(cap := Some(cap), spent := spent))) else env)
  }

  /** What the job has spent once every lease in `asks` was decided, and run if opened. */
  function Month(cap: real, asks: seq<Ask>, spent: real): real
    decreases |asks|
  {
    if asks == [] then spent
    else Month(cap, asks[1..], if Opens(cap, asks[0], spent) then spent + asks[0].cost else spent)
  }

  predicate Readable(a: Ask) { if a.FirstRun? then a.readable else a.env.auto.Some? }

  predicate OfJob(asks: seq<Ask>) { forall i | 0 <= i < |asks| :: asks[i].Autonomous? ==> asks[i].row.job.Some? }

  /** The month ends below the ceiling plus the one lease that crossed it. */
  lemma {:induction false} MonthBound(cap: real, asks: seq<Ask>, spent: real, most: real)
    requires OfJob(asks) && forall i | 0 <= i < |asks| :: 0.0 <= asks[i].cost <= most
    ensures spent <= Month(cap, asks, spent)
    ensures Month(cap, asks, spent) == spent || Month(cap, asks, spent) < cap + most
    decreases |asks|
  {
    if asks != [] {
      MonthBound(cap, asks[1..], if Opens(cap, asks[0], spent) then spent + asks[0].cost else spent, most);
    }
  }

  /** Once the ceiling is met, or while the counter cannot be read, nothing opens. */
  lemma {:induction false} NothingOpens(cap: real, asks: seq<Ask>, spent: real)
    requires OfJob(asks) && (cap <= spent || forall i | 0 <= i < |asks| :: !Readable(asks[i]))
    ensures Month(cap, asks, spent) == spent
    decreases |asks|
  {
    if asks != [] {
      assert !Opens(cap, asks[0], spent);
      NothingOpens(cap, asks[1..], spent);
    }
  }

  /** The bound is met as closely as one likes, from anywhere below the ceiling: the gate does not know what a lease will cost. */
  lemma OneLeaseMayCross(cap: real, spent: real, cost: real)
    requires 0.0 <= cost
    ensures Month(cap, [FirstRun(true, cost)], spent) == if spent < cap then spent + cost else spent
  {
    assert [FirstRun(true, cost)][1..] == [];
  }
}

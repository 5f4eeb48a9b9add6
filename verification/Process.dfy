/**
 * One process of the protocol as running code: the real stores, and a log proving that
 * every write it makes is an action of the transition system, in order.
 */
module Process {

  import opened Common
  import opened Stores
  import opened Protocol
  import R = Runs

  ghost predicate ReachedIn(n: nat, start: World, log: seq<Action>, w: World) {
    |log| == n && Legal(start, log) && After(start, log) == w
  }

  /** The log really leads from `start` to `w`. */
  ghost predicate Reached(start: World, log: seq<Action>, w: World) {
    forall n: nat | n == |log| :: ReachedIn(n, start, log, w)
  }

  lemma ReachedRun(start: World, log: seq<Action>, w: World)
    ensures Reached(start, log, w) <==> Legal(start, log) && After(start, log) == w
  {
    assert Reached(start, log, w) ==> ReachedIn(|log|, start, log, w);
  }

  class Worker {
    const me: Pid
    const jobs: map<JobId, JobCfg>
    const fires: JobFireStore
    const turns: TurnStore
    /** Turn ids are minted fresh. */
    var ids: TurnId
    /** `next_fire_at` of the active jobs, and the clock. */
    var next: map<JobId, nat>
    const clock: nat

    ghost const start: World
    ghost var w: World
    ghost var log: seq<Action>

    constructor (me: Pid, jobs: map<JobId, JobCfg>, fires: JobFireStore, turns: TurnStore, ids: TurnId, next: map<JobId, nat>,
                 clock: nat, ghost past: Past, ghost procs: map<Pid, PC>)
      requires me in procs ==> procs[me].Idle?
      ensures Valid() && this.me == me && Pc().Idle? && log == []
      ensures this.fires == fires && this.turns == turns
      ensures w == World(jobs, Db(fires.rows, turns.rows, ids, turns.tokens, next), past, procs, clock)
    {
      this.me, this.jobs, this.fires, this.turns, this.ids, this.next, this.clock := me, jobs, fires, turns, ids, next, clock;
      var now := World(jobs, Db(fires.rows, turns.rows, ids, turns.tokens, next), past, procs, clock);
      start, w, log := now, now, [];
      ReachedRun(now, [], now);
    }

    ghost predicate Valid()
      reads this, fires, turns
    {
      && Reached(start, log, w) && w.jobs == jobs && w.now == clock
      && w.db == Db(fires.rows, turns.rows, ids, turns.tokens, next)
    }

    ghost function Pc(): PC
      reads this
    {
      At(w, me)
    }

    ghost method Step(a: Action)
      requires Reached(start, log, w) && Enabled(w, a)
      modifies this`w, this`log
      ensures Reached(start, log, w) && log == old(log) + [a] && w == Apply(old(w), a)
    {
      ReachedRun(start, log, w);
      R.Append(start, log, a);
      ReachedRun(start, log + [a], Apply(w, a));
      w, log := Apply(w, a), log + [a];
    }

    // Steps that touch no table.

    ghost method NoteTick(o: Occ)
      requires Valid() && Pc().Idle? && OldestDue(w, o)
      modifies this`w, this`log
      ensures Valid() && log == old(log) + [TickStart(me, o)] && w == DoTickStart(old(w), me, o)
    {
      Step(TickStart(me, o));
    }

    ghost method NoteLookup()
      requires Valid() && Pc().Resolving?
      modifies this`w, this`log
      ensures Valid() && log == old(log) + [Lookup(me)] && w == DoLookup(old(w), me)
    {
      Step(Lookup(me));
    }

    ghost method NoteExecute()
      requires Valid() && Pc().Holding? && Pc().side.Job? && Pc().model == ScriptModel && !Pc().spent
      modifies this`w, this`log
      ensures Valid() && log == old(log) + [Execute(me)] && w == DoExecute(old(w), me)
    {
      Step(Execute(me));
    }

    ghost method NoteModelCall()
      requires Valid() && Pc().Holding? && Pc().model == Provider
      modifies this`w, this`log
      ensures Valid() && log == old(log) + [CallModel(me)] && w == DoCallModel(old(w), me)
    {
      Step(CallModel(me));
    }

    ghost method NoteThrow()
      requires Valid() && Trying(Pc()).Some?
      modifies this`w, this`log
      ensures Valid() && log == old(log) + [Throw(me)] && w == DoThrow(old(w), me)
    {
      Step(Throw(me));
    }

    ghost method NoteEnd(stoodDown: bool)
      requires Valid() && Pc().Ending? && !EndVerdict(w, Pc(), stoodDown).Speak?
      modifies this`w, this`log
      ensures Valid() && log == old(log) + [Conclude(me, stoodDown)] && w == DoConclude(old(w), me, stoodDown)
    {
      Step(Conclude(me, stoodDown));
    }

    ghost method NoteSend(d: Delivery)
      requires Valid() && Pc().Ending? && EndVerdict(w, Pc(), false).Speak? && d in {Sent, PossiblySent, Failed}
      modifies this`w, this`log
      ensures Valid() && log == old(log) + [Send(me, d)] && w == DoSend(old(w), me, d)
    {
      Step(Send(me, d));
    }

    /** A bookkeeping write that throws is swallowed: the process lets go, as in a crash there. */
    ghost method NoteUnrecorded()
      requires Valid() && (Pc().Settling? || Pc().Advancing?)
      modifies this`w, this`log
      ensures Valid() && log == old(log) + [Crash(me)] && w == DoCrash(old(w), me)
    {
      Step(Crash(me));
    }

    method ClaimFire(o: Occ) returns (bound: Option<TurnId>)
      requires Valid() && Pc() == Claiming(o)
      modifies this, fires
      ensures Valid() && log == old(log) + [Claim(me)] && w == DoClaim(old(w), me)
      ensures o in w.db.fires && bound == w.db.fires[o].turnId
    {
      var fire := fires.Claim(o);
      bound := fire.turnId;
      Step(Claim(me));
    }

    /** Also performed for a rival `p` that binds the same occurrence in between. */
    method BindFire(p: Pid, o: Occ) returns (minted: TurnId, winner: Option<TurnId>)
      requires Valid() && At(w, p) == Binding(o) && o in w.db.fires
      modifies this, fires
      ensures Valid() && log == old(log) + [Bind(p)] && w == DoBind(old(w), p)
      ensures minted == old(w).db.ids && o in w.db.fires && winner == w.db.fires[o].turnId && winner.Some?
    {
      minted := ids;
      ids := ids + 1;
      winner := fires.Bind(o, minted);
      Step(Bind(p));
    }

    /** Also performed for a rival `p`; `None` is the insert's exception, caught by the scheduler. */
    method CreateTurn(p: Pid, o: Occ, id: TurnId, capped: bool) returns (tok: Option<Token>)
      requires Valid() && At(w, p) == Creating(o, id)
      modifies this, turns
      ensures Valid() && log == old(log) + [Create(p, capped)] && w == DoCreate(old(w), p, capped)
      ensures tok == if id in old(w).db.turns then None else Some(old(w).db.tokens)
    {
      tok := turns.Create(id, Scheduler, Some(o.job), true,
                          if capped then CappedModel else if o.job in jobs && jobs[o.job].script then ScriptModel else Provider);
      Step(Create(p, capped));
    }

    method FinishTurn(id: TurnId, tok: Token, outcome: Outcome, speaks: bool)
      requires Valid() && Pc().Holding? && Pc().id == id && Pc().tok == tok && MayFinish(Pc(), outcome, speaks)
      modifies this, turns
      ensures Valid() && log == old(log) + [Finish(me, outcome, speaks)] && w == DoFinish(old(w), me, outcome, speaks)
    {
      var landed := turns.Finish(id, tok, outcome);
      Step(Finish(me, outcome, speaks));
    }

    method SuspendTurn(id: TurnId, tok: Token)
      requires Valid() && Pc().Holding? && Pc().id == id && Pc().tok == tok && Pc().model == Provider
      modifies this, turns
      ensures Valid() && log == old(log) + [Suspend(me)] && w == DoSuspend(old(w), me)
    {
      var landed := turns.Suspend(id, tok);
      Step(Suspend(me));
    }

    method ReleaseTurn(id: TurnId, tok: Token)
      requires Valid() && Pc().Holding? && Pc().id == id && Pc().tok == tok && Pc().model == Provider
      modifies this, turns
      ensures Valid() && log == old(log) + [Release(me)] && w == DoRelease(old(w), me)
    {
      var landed := turns.Release(id, tok);
      Step(Release(me));
    }

    /** Records how a delivery went; a bookkeeping write that throws is swallowed. */
    method RecordDelivery(turn: Option<TurnId>, d: Delivery, lands: bool)
      requires Valid() && Pc().Recording? && Pc().turn == turn && Pc().result == d
      modifies this, turns
      ensures Valid() && log == old(log) + [Record(me, lands)] && w == DoRecord(old(w), me, lands)
    {
      if turn.Some? && lands {
        turns.Delivered(turn.value, d);
      }
      Step(Record(me, lands));
    }

    method SettleFire(o: Occ, silent: bool)
      requires Valid() && Pc() == Settling(o, silent)
      modifies this, fires
      ensures Valid() && log == old(log) + [Settle(me)] && w == DoSettle(old(w), me)
    {
      fires.Settle(o, silent);
      Step(Settle(me));
    }

    method MarkRan(o: Occ)
      requires Valid() && Pc() == Advancing(o)
      modifies this
      ensures Valid() && log == old(log) + [Advance(me)] && w == DoAdvance(old(w), me)
    {
      if o.job in next && o.job in jobs {
        next := if jobs[o.job].once then map x | x in next && x != o.job :: next[x] else next[o.job := jobs[o.job].cron(clock)];
      }
      Step(Advance(me));
    }
  }

  /** What a worker's invariant promises: its log is a legal run, and leads to its world and its tables. */
  lemma ValidIsRun(g: Worker)
    requires g.Valid()
    ensures Legal(g.start, g.log) && After(g.start, g.log) == g.w
    ensures After(g.start, g.log).db == Db(g.fires.rows, g.turns.rows, g.ids, g.turns.tokens, g.next)
  {
    ReachedRun(g.start, g.log, g.w);
  }
}

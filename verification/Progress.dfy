/**
 * Which due occurrences can still be brought to an end. A tick tries the oldest due one only
 * (core/scheduler/scheduler.ts over core/scheduler/jobs.ts), so one that cannot end keeps
 * every other job waiting.
 */
module Progress {

  import opened Common
  import opened Stores
  import opened Protocol
  import opened Occurrence
  import opened Runs
  import G = Guarantees
  import S = Serial
  import C = Schedule

  // ---- An aborted turn is not retried -----------------------------------------------------

  /** A tick that finds its occurrence bound, finished and not yet delivered. */
  predicate AwaitsDelivery(w: World, o: Occ, id: TurnId) {
    && Bound(w, o, id) && RowDone(w, id) && w.db.turns[id].outcome.Some?
    && !Resolved(w.db.turns[id].delivery)
  }

  /** The start of a tick on a bound occurrence changes nothing but where the process stands. */
  lemma TickLooksUp(w: World, p: Pid, o: Occ, id: TurnId) returns (run: seq<Action>, v: World)
    requires At(w, p).Idle? && OldestDue(w, o) && Bound(w, o, id)
    ensures run == [TickStart(p, o), Claim(p), Lookup(p)] && Brings(w, run, v)
    ensures At(v, p) == LookupPC(w, o, id) && v.db == w.db && v.past.sends == w.past.sends && Only(w, v, p, o, id)
  {
    run := [TickStart(p, o), Claim(p), Lookup(p)];
    Three(w, TickStart(p, o), Claim(p), Lookup(p));
    v := After(w, run);
    assert v.procs - {p} == w.procs - {p};
  }

  /**
   * Such a tick goes on to settle the occurrence, speaking or not, exactly when the turn
   * was not aborted: an aborted one is yielded although nothing will ever run it again.
   */
  lemma TickSettlesUnlessAborted(w: World, p: Pid, o: Occ, id: TurnId)
    requires AwaitsDelivery(w, o, id) && At(w, p).Idle? && OldestDue(w, o)
    ensures Legal(w, [TickStart(p, o), Claim(p), Lookup(p)])
    ensures var v := After(w, [TickStart(p, o), Claim(p), Lookup(p)]);
            && At(v, p).Ending? && v.db == w.db && v.jobs == w.jobs
            && (EndVerdict(v, At(v, p), false).Yield? <==> w.db.turns[id].outcome == Some(Aborted))
  {
    var run, v := TickLooksUp(w, p, o, id);
  }

  // ---- What can never end by itself ----------------------------------------------------------

  /** No call throws, and the owner does not step in. Processes may crash. */
  predicate Calm(a: Action) { !a.Throw? && !a.Continue? }

  predicate CalmRun(run: seq<Action>) { forall i | 0 <= i < |run| :: Calm(run[i]) }

  /** Aborted before its answer was delivered, or released at the ceiling of autonomous leases. */
  predicate DeadEnd(r: Row) {
    || (r.status == Done && r.outcome == Some(Aborted) && !Resolved(r.delivery))
    || (r.status == Continuable && r.lease >= MAX_AUTONOMOUS_LEASES)
  }

  predicate Stuck(w: World, o: Occ) {
    && o in w.db.fires && w.db.fires[o].turnId.Some? && w.db.fires[o].turnId.value in w.db.turns
    && DeadEnd(w.db.turns[w.db.fires[o].turnId.value])
  }

  /** Only fruitless ticks have the occurrence in hand. */
  predicate Fruitless(pc: PC, o: Occ, id: TurnId) {
    && (TickOcc(pc) == Some(o) ==>
          || pc == Claiming(o) || pc == Resolving(o, id)
          || (pc.Ending? && pc.turn == Some(id) && pc.end == Stop(Ended(Aborted))))
    && (S.IdAt(pc) == Some(id) ==> TickOcc(pc) == Some(o))
  }

  ghost predicate StuckInv(w: World, o: Occ, id: TurnId) {
    && Bound(w, o, id) && id in w.db.turns && DeadEnd(w.db.turns[id]) && o !in w.past.marked
    && forall p | p in w.procs :: Fruitless(w.procs[p], o, id)
  }

  lemma TickTouches(w: World, a: Action, id: TurnId)
    requires Enabled(w, a) && OfTick(a) && id in w.db.turns
    ensures var v := Apply(w, a); id in v.db.turns && v.db.turns[id] == w.db.turns[id]
  {
  }

  lemma HolderTouches(w: World, a: Action, id: TurnId)
    requires Enabled(w, a) && OfHolder(a) && id in w.db.turns && At(w, a.p).id != id
    ensures var v := Apply(w, a); id in v.db.turns && v.db.turns[id] == w.db.turns[id]
  {
  }

  lemma EndTouches(w: World, a: Action, id: TurnId)
    requires Enabled(w, a) && OfEnd(a) && id in w.db.turns && S.IdAt(At(w, a.p)) != Some(id)
    ensures var v := Apply(w, a); id in v.db.turns && v.db.turns[id] == w.db.turns[id]
  {
  }

  lemma OtherTouches(w: World, a: Action, id: TurnId)
    requires Enabled(w, a) && !OfTick(a) && !OfHolder(a) && !OfEnd(a) && !a.Continue? && id in w.db.turns
    requires !Ambient(a) ==> S.IdAt(At(w, a.p)) != Some(id)
    requires w.db.turns[id].status in {Done, Continuable}
    ensures var v := Apply(w, a); id in v.db.turns && v.db.turns[id] == w.db.turns[id]
  {
  }

  lemma ClaimFruitless(w: World, p: Pid, o: Occ, id: TurnId)
    requires Identity(w) && Bound(w, o, id) && At(w, p).Claiming?
    ensures Fruitless(At(DoClaim(w, p), p), o, id)
  {
    OtherIds(w, o, id);
    var x := At(w, p).o;
    if HasId(w, x) { assert Bound(w, x, w.db.fires[x].turnId.value); }
  }

  lemma BindFruitless(w: World, p: Pid, o: Occ, id: TurnId)
    requires Identity(w) && Bound(w, o, id) && id < w.db.ids && At(w, p).Binding? && At(w, p).o in w.db.fires && At(w, p).o != o
    ensures Fruitless(At(DoBind(w, p), p), o, id)
  {
    OtherIds(w, o, id);
    var x := At(w, p).o;
    if HasId(w, x) { assert Bound(w, x, w.db.fires[x].turnId.value); }
  }

  lemma LookupFruitless(w: World, p: Pid, o: Occ, id: TurnId)
    requires id in w.db.turns && DeadEnd(w.db.turns[id]) && At(w, p).Resolving? && RowOk(w.db.turns[id], w.db.tokens) && Fruitless(At(w, p), o, id)
    ensures Fruitless(At(DoLookup(w, p), p), o, id)
  {
  }

  lemma CreateFruitless(w: World, p: Pid, capped: bool, o: Occ, id: TurnId)
    requires At(w, p).Creating? && Fruitless(At(w, p), o, id)
    ensures Fruitless(At(DoCreate(w, p, capped), p), o, id)
  {
  }

  lemma TickFruitless(w: World, a: Action, o: Occ, id: TurnId)
    requires Enabled(w, a) && OfTick(a) && Calm(a) && Fruitless(At(w, a.p), o, id)
    requires Identity(w) && Bound(w, o, id) && id < w.db.ids && id in w.db.turns
    requires DeadEnd(w.db.turns[id]) && RowOk(w.db.turns[id], w.db.tokens)
    requires a.Bind? ==> At(w, a.p).o in w.db.fires
    ensures Fruitless(At(Apply(w, a), a.p), o, id)
  {
    match a
    case TickStart(_, _) =>
    case Claim(p) => ClaimFruitless(w, p, o, id);
    case Bind(p) => BindFruitless(w, p, o, id);
    case Lookup(p) => LookupFruitless(w, p, o, id);
    case Create(p, capped) => CreateFruitless(w, p, capped, o, id);
  }

  /** Another occurrence is bound to another id. */
  lemma OtherIds(w: World, o: Occ, id: TurnId)
    requires Identity(w) && Bound(w, o, id)
    ensures forall x, t | Bound(w, x, t) && x != o :: t != id
  {
    forall x, t | Bound(w, x, t) && x != o ensures t != id { assert HasId(w, x) && HasId(w, o); }
  }

  lemma HolderFruitless(w: World, a: Action, o: Occ, id: TurnId)
    requires Enabled(w, a) && OfHolder(a) && Fruitless(At(w, a.p), o, id)
    ensures Fruitless(At(Apply(w, a), a.p), o, id) && At(w, a.p).id != id
  {
  }

  lemma ConcludeFruitless(w: World, p: Pid, out: bool, o: Occ, id: TurnId)
    requires Enabled(w, Conclude(p, out)) && Fruitless(At(w, p), o, id)
    ensures Fruitless(At(DoConclude(w, p, out), p), o, id)
  {
  }

  lemma SendFruitless(w: World, p: Pid, d: Delivery, o: Occ, id: TurnId)
    requires Enabled(w, Send(p, d)) && Fruitless(At(w, p), o, id)
    ensures Fruitless(At(DoSend(w, p, d), p), o, id) && DoSend(w, p, d).db == w.db
  {
  }

  lemma RecordFruitless(w: World, p: Pid, lands: bool, o: Occ, id: TurnId)
    requires At(w, p).Recording? && Fruitless(At(w, p), o, id)
    ensures Fruitless(At(DoRecord(w, p, lands), p), o, id) && S.IdAt(At(w, p)) != Some(id)
  {
  }

  lemma EndFruitless(w: World, a: Action, o: Occ, id: TurnId)
    requires StuckInv(w, o, id) && Enabled(w, a) && OfEnd(a)
    ensures Fruitless(At(Apply(w, a), a.p), o, id)
    ensures S.IdAt(At(w, a.p)) == Some(id) ==> Apply(w, a).db == w.db
  {
    assert Fruitless(At(w, a.p), o, id);
    match a
    case Conclude(p, out) => ConcludeFruitless(w, p, out, o, id);
    case Send(p, d) => SendFruitless(w, p, d, o, id);
    case Record(p, lands) => RecordFruitless(w, p, lands, o, id);
    case Settle(_) =>
    case Advance(_) =>
  }

  lemma AdvanceFruitless(w: World, p: Pid, o: Occ, id: TurnId)
    requires At(w, p).Advancing? && Fruitless(At(w, p), o, id)
    ensures At(w, p).o != o
  {
  }

  lemma ReadFruitless(w: World, p: Pid, o: Occ, id: TurnId)
    requires At(w, p).Picked? && Fruitless(At(w, p), o, id)
    ensures Fruitless(At(DoLaneRead(w, p), p), o, id)
  {
  }

  lemma ResumeFruitless(w: World, p: Pid, o: Occ, id: TurnId)
    requires At(w, p).Resuming? && Fruitless(At(w, p), o, id)
    ensures Fruitless(At(DoResume(w, p), p), o, id)
  {
  }

  lemma GrantFruitless(w: World, p: Pid, o: Occ, id: TurnId)
    requires At(w, p).Granting? && Fruitless(At(w, p), o, id)
    ensures Fruitless(At(DoGrant(w, p), p), o, id)
  {
  }

  lemma NeverDue(r: Row, tokens: Token, expired: bool)
    requires DeadEnd(r) && RowOk(r, tokens)
    ensures !Due(r, expired)
  {
  }

  lemma OtherFruitless(w: World, a: Action, o: Occ, id: TurnId)
    requires Enabled(w, a) && !OfTick(a) && !OfHolder(a) && !OfEnd(a) && Calm(a) && !Ambient(a) && Fruitless(At(w, a.p), o, id)
    requires id in w.db.turns && DeadEnd(w.db.turns[id]) && RowOk(w.db.turns[id], w.db.tokens)
    ensures Fruitless(At(Apply(w, a), a.p), o, id)
  {
    match a
    case LanePick(_, _, expired) => NeverDue(w.db.turns[id], w.db.tokens, expired);
    case LaneRead(p) => ReadFruitless(w, p, o, id);
    case Resume(p) => ResumeFruitless(w, p, o, id);
    case Grant(p) => GrantFruitless(w, p, o, id);
    case Crash(_) =>
  }

  lemma TickMovesOne(w: World, a: Action, q: Pid)
    requires Enabled(w, a) && OfTick(a) && q != a.p
    ensures At(Apply(w, a), q) == At(w, q)
  {
  }

  lemma HolderMovesOne(w: World, a: Action, q: Pid)
    requires Enabled(w, a) && OfHolder(a) && q != a.p
    ensures At(Apply(w, a), q) == At(w, q)
  {
  }

  lemma EndMovesOne(w: World, a: Action, q: Pid)
    requires Enabled(w, a) && OfEnd(a) && q != a.p
    ensures At(Apply(w, a), q) == At(w, q)
  {
  }

  lemma OtherMovesOne(w: World, a: Action, q: Pid)
    requires Enabled(w, a) && !OfTick(a) && !OfHolder(a) && !OfEnd(a) && (Ambient(a) || q != a.p)
    ensures At(Apply(w, a), q) == At(w, q)
  {
  }

  lemma OnlyOneMoves(w: World, a: Action, q: Pid)
    requires Enabled(w, a) && (Ambient(a) || q != a.p)
    ensures At(Apply(w, a), q) == At(w, q)
  {
    if OfTick(a) {
      TickMovesOne(w, a, q);
    } else if OfHolder(a) {
      HolderMovesOne(w, a, q);
    } else if OfEnd(a) {
      EndMovesOne(w, a, q);
    } else {
      OtherMovesOne(w, a, q);
    }
  }

  lemma StuckRow(w: World, a: Action, o: Occ, id: TurnId)
    requires Inv(w) && StuckInv(w, o, id) && Enabled(w, a) && Calm(a)
    ensures var v := Apply(w, a); id in v.db.turns && v.db.turns[id] == w.db.turns[id]
  {
    assert !Ambient(a) ==> Fruitless(At(w, a.p), o, id);
    if OfTick(a) {
      TickTouches(w, a, id);
    } else if OfHolder(a) {
      HolderFruitless(w, a, o, id);
      HolderTouches(w, a, id);
    } else if OfEnd(a) {
      EndFruitless(w, a, o, id);
      if S.IdAt(At(w, a.p)) != Some(id) { EndTouches(w, a, id); }
    } else if !Ambient(a) && S.IdAt(At(w, a.p)) == Some(id) {
      assert a.Crash?;
    } else {
      OtherTouches(w, a, id);
    }
  }

  lemma StuckFacts(w: World, a: Action, o: Occ, id: TurnId)
    requires Inv(w) && StuckInv(w, o, id) && Enabled(w, a)
    ensures id < w.db.ids && RowOk(w.db.turns[id], w.db.tokens) && (a.Bind? ==> At(w, a.p).o in w.db.fires)
  {
    assert HasId(w, o);
    if a.Bind? { AtOk(w, a.p); }
  }

  lemma StuckMoves(w: World, a: Action, o: Occ, id: TurnId, q: Pid)
    requires Inv(w) && StuckInv(w, o, id) && Enabled(w, a) && Calm(a)
    ensures Fruitless(At(Apply(w, a), q), o, id)
  {
    assert Fruitless(At(w, q), o, id);
    if Ambient(a) || q != a.p {
      OnlyOneMoves(w, a, q);
    } else if OfTick(a) {
      StuckFacts(w, a, o, id);
      TickFruitless(w, a, o, id);
    } else if OfHolder(a) {
      HolderFruitless(w, a, o, id);
    } else if OfEnd(a) {
      EndFruitless(w, a, o, id);
    } else {
      StuckFacts(w, a, o, id);
      OtherFruitless(w, a, o, id);
    }
  }

  lemma OnlyAdvanceMarks(w: World, a: Action)
    requires Enabled(w, a) && !a.Advance?
    ensures Apply(w, a).past.marked == w.past.marked
  {
    if !C.MovesSchedule(a) { C.OthersKeepSchedule(w, a); }
  }

  lemma StuckUnmarked(w: World, a: Action, o: Occ, id: TurnId)
    requires StuckInv(w, o, id) && Enabled(w, a)
    ensures o !in Apply(w, a).past.marked
  {
    if a.Advance? {
      assert Fruitless(At(w, a.p), o, id);
      AdvanceFruitless(w, a.p, o, id);
    } else {
      OnlyAdvanceMarks(w, a);
    }
  }

  lemma StuckBound(w: World, v: World, o: Occ, id: TurnId)
    requires Bound(w, o, id) && Extends(w, v)
    ensures Bound(v, o, id)
  {
  }

  lemma StuckStep(w: World, a: Action, o: Occ, id: TurnId)
    requires Inv(w) && StuckInv(w, o, id) && Enabled(w, a) && Calm(a) && Extends(w, Apply(w, a))
    ensures StuckInv(Apply(w, a), o, id)
  {
    var v := Apply(w, a);
    StuckBound(w, v, o, id);
    StuckRow(w, a, o, id);
    StuckUnmarked(w, a, o, id);
    forall q | q in v.procs ensures Fruitless(v.procs[q], o, id) { StuckMoves(w, a, o, id, q); }
  }

  lemma {:induction false} StuckForEver(w: World, run: seq<Action>, o: Occ, id: TurnId)
    requires Inv(w) && StuckInv(w, o, id) && Legal(w, run) && CalmRun(run)
    ensures StuckInv(After(w, run), o, id)
    decreases |run|
  {
    if run != [] {
      assert Calm(run[0]);
      assert forall i | 0 <= i < |run[1..]| :: run[1..][i] == run[i + 1];
      StepKeeps(w, run[0]);
      StuckStep(w, run[0], o, id);
      StuckForEver(Apply(w, run[0]), run[1..], o, id);
    }
  }

  // ---- What can -----------------------------------------------------------------------------

  /** Nothing goes wrong, and the owner does not step in. */
  predicate Smooth(run: seq<Action>) { forall i | 0 <= i < |run| :: Calm(run[i]) && !run[i].Crash? }

  /** A smooth run from `w` to `v`. */
  ghost predicate Brings(w: World, run: seq<Action>, v: World) { Leads(w, run, v) && Smooth(run) }

  lemma AndThen(w: World, run: seq<Action>, v: World, more: seq<Action>, u: World) returns (all: seq<Action>)
    requires Brings(w, run, v) && Brings(v, more, u)
    ensures Brings(w, all, u)
  {
    all := Then(w, run, v, more, u);
  }

  /** Nothing else has moved: other occurrences, rows, fire times and processes are as they were. */
  ghost predicate Only(w: World, v: World, p: Pid, o: Occ, id: TurnId) {
    && v.jobs == w.jobs && v.now == w.now
    && v.db.fires - {o} == w.db.fires - {o} && v.db.turns - {id} == w.db.turns - {id}
    && v.db.next - {o.job} == w.db.next - {o.job} && v.procs - {p} == w.procs - {p}
  }

  /** The occurrence is over: moved past, and `p` free for the next. */
  ghost predicate Over(w: World, v: World, p: Pid, o: Occ, id: TurnId) {
    && Only(w, v, p, o, id) && At(v, p).Idle? && o in v.past.marked
    && (o.job in v.db.next ==> v.db.next[o.job] > w.now)
  }

  lemma SettlingEnds(w: World, p: Pid, o: Occ, id: TurnId) returns (run: seq<Action>, v: World)
    requires At(w, p).Settling? && At(w, p).o == o && o.job in w.jobs
    ensures Brings(w, run, v) && Over(w, v, p, o, id)
  {
    run := [Settle(p), Advance(p)];
    Two(w, Settle(p), Advance(p));
    v := After(w, run);
    SettleOver(w, p, id);
  }

  lemma SettleOver(w: World, p: Pid, id: TurnId)
    requires At(w, p).Settling? && At(w, p).o.job in w.jobs
    ensures At(DoSettle(w, p), p) == Advancing(At(w, p).o)
    ensures Over(w, DoAdvance(DoSettle(w, p), p), p, At(w, p).o, id)
  {
    var u := DoSettle(w, p);
    var v := DoAdvance(u, p);
    assert v.procs - {p} == w.procs - {p};
    assert v.db.fires - {At(w, p).o} == w.db.fires - {At(w, p).o};
    assert v.db.next - {At(w, p).o.job} == w.db.next - {At(w, p).o.job};
  }

  lemma SpokenSettles(w: World, p: Pid, o: Occ, id: TurnId) returns (run: seq<Action>, v: World)
    requires At(w, p).Ending? && At(w, p).side == Job(o) && At(w, p).turn == Some(id) && EndVerdict(w, At(w, p), false).Speak?
    ensures Brings(w, run, v) && At(v, p) == Settling(o, false) && Only(w, v, p, o, id)
  {
    run := [Send(p, Sent), Record(p, true)];
    Two(w, Send(p, Sent), Record(p, true));
    v := After(w, run);
    assert v.procs - {p} == w.procs - {p} && v.db.turns - {id} == w.db.turns - {id};
  }

  lemma QuietSettles(w: World, p: Pid, o: Occ, id: TurnId) returns (run: seq<Action>, v: World)
    requires At(w, p).Ending? && At(w, p).side == Job(o) && EndVerdict(w, At(w, p), false).SettleNow?
    ensures Brings(w, run, v) && At(v, p).Settling? && At(v, p).o == o && Only(w, v, p, o, id)
  {
    run := [Conclude(p, false)];
    One(w, Conclude(p, false));
    v := After(w, run);
    assert v.procs - {p} == w.procs - {p};
  }

  /** Any outcome with words but an abort is told or kept silent, settled, and moved past. */
  lemma OutcomeEnds(w: World, p: Pid, o: Occ, id: TurnId) returns (run: seq<Action>, v: World)
    requires At(w, p).Ending? && At(w, p).side == Job(o) && At(w, p).turn == Some(id) && !EndVerdict(w, At(w, p), false).Yield?
    requires o.job in w.jobs
    ensures Brings(w, run, v) && Over(w, v, p, o, id)
  {
    var u;
    if EndVerdict(w, At(w, p), false).Speak? {
      run, u := SpokenSettles(w, p, o, id);
    } else {
      run, u := QuietSettles(w, p, o, id);
    }
    var more;
    more, v := SettlingEnds(u, p, o, id);
    run := AndThen(w, run, u, more, v);
  }

  function FirstOutcome(m: Model): Outcome { if m == Provider then Answered else Error }

  lemma FreshFinishes(w: World, p: Pid, o: Occ, id: TurnId) returns (run: seq<Action>, v: World)
    requires At(w, p) == Creating(o, id) && id !in w.db.turns
    ensures Brings(w, run, v) && At(v, p) == Ending(Job(o), Some(id), Stop(Ended(FirstOutcome(KindModel(w, o.job)))), true)
    ensures Only(w, v, p, o, id)
  {
    var out := FirstOutcome(KindModel(w, o.job));
    run := [Create(p, false), Finish(p, out, true)];
    Two(w, Create(p, false), Finish(p, out, true));
    v := After(w, run);
    assert v.procs - {p} == w.procs - {p} && v.db.turns - {id} == w.db.turns - {id};
  }

  lemma FreshEnds(w: World, p: Pid, o: Occ, id: TurnId) returns (run: seq<Action>, v: World)
    requires At(w, p) == Creating(o, id) && id !in w.db.turns && o.job in w.jobs
    ensures Brings(w, run, v) && Over(w, v, p, o, id)
  {
    var u, more;
    run, u := FreshFinishes(w, p, o, id);
    more, v := OutcomeEnds(u, p, o, id);
    run := AndThen(w, run, u, more, v);
  }

  lemma UnboundBinds(w: World, p: Pid, o: Occ) returns (run: seq<Action>, v: World)
    requires At(w, p).Idle? && OldestDue(w, o) && !HasId(w, o)
    ensures Brings(w, run, v) && At(v, p) == Creating(o, w.db.ids) && v.db.turns == w.db.turns && Only(w, v, p, o, w.db.ids)
  {
    run := [TickStart(p, o), Claim(p), Bind(p)];
    Three(w, TickStart(p, o), Claim(p), Bind(p));
    v := After(w, run);
    assert v.procs - {p} == w.procs - {p} && v.db.fires - {o} == w.db.fires - {o};
  }

  lemma UnboundEnds(w: World, p: Pid, o: Occ) returns (run: seq<Action>, v: World)
    requires Inv(w) && At(w, p).Idle? && OldestDue(w, o) && !HasId(w, o)
    ensures Brings(w, run, v) && Over(w, v, p, o, w.db.ids)
  {
    var u, more;
    run, u := UnboundBinds(w, p, o);
    S.FreshId(w);
    more, v := FreshEnds(u, p, o, w.db.ids);
    run := AndThen(w, run, u, more, v);
  }

  lemma DoneEnds(w: World, p: Pid, o: Occ, id: TurnId) returns (run: seq<Action>, v: World)
    requires At(w, p).Idle? && OldestDue(w, o) && Bound(w, o, id) && RowDone(w, id) && w.db.turns[id].outcome.Some?
    requires w.db.turns[id].outcome != Some(Aborted) || Resolved(w.db.turns[id].delivery)
    ensures Brings(w, run, v) && Over(w, v, p, o, id)
  {
    var u, more;
    run, u := TickLooksUp(w, p, o, id);
    if Resolved(w.db.turns[id].delivery) {
      more, v := SettlingEnds(u, p, o, id);
    } else {
      more, v := OutcomeEnds(u, p, o, id);
    }
    run := AndThen(w, run, u, more, v);
  }

  lemma MissingEnds(w: World, p: Pid, o: Occ, id: TurnId) returns (run: seq<Action>, v: World)
    requires At(w, p).Idle? && OldestDue(w, o) && Bound(w, o, id) && id !in w.db.turns
    ensures Brings(w, run, v) && Over(w, v, p, o, id)
  {
    var u, more;
    run, u := TickLooksUp(w, p, o, id);
    more, v := FreshEnds(u, p, o, id);
    run := AndThen(w, run, u, more, v);
  }

  function LaneOutcome(m: Model): Outcome {
    match m
    case Provider => Answered
    case ScriptModel => Error
    case CappedModel => Budget
  }

  /** Nothing has moved but this row and where `p` stands. */
  ghost predicate OnlyRow(w: World, v: World, p: Pid, id: TurnId) {
    && v.jobs == w.jobs && v.now == w.now && v.db.fires == w.db.fires && v.db.next == w.db.next
    && v.db.turns - {id} == w.db.turns - {id} && v.procs - {p} == w.procs - {p}
  }

  /** The lane has the row and finishes it. */
  lemma HeldFinishes(w: World, p: Pid, id: TurnId) returns (run: seq<Action>, v: World)
    requires At(w, p).Holding? && At(w, p).side.Lane? && At(w, p).id == id && Holds(w.db.turns, id, At(w, p).tok)
    ensures Brings(w, run, v) && OnlyRow(w, v, p, id) && RowDone(v, id)
    ensures v.db.turns[id].outcome == Some(LaneOutcome(At(w, p).model))
    ensures At(v, p) == Ending(At(w, p).side, Some(id), Stop(Ended(LaneOutcome(At(w, p).model))), true)
  {
    var out := LaneOutcome(At(w, p).model);
    run := [Finish(p, out, true)];
    One(w, Finish(p, out, true));
    v := After(w, run);
    assert v.procs - {p} == w.procs - {p} && v.db.turns - {id} == w.db.turns - {id};
  }

  /** And tells its channel, or keeps silent. */
  lemma LaneEnds(w: World, p: Pid, id: TurnId) returns (run: seq<Action>, v: World)
    requires At(w, p).Ending? && At(w, p).side.Lane? && At(w, p).turn == Some(id) && RowDone(w, id)
    ensures Brings(w, run, v) && OnlyRow(w, v, p, id) && At(v, p).Idle? && RowDone(v, id)
    ensures v.db.turns[id].outcome == w.db.turns[id].outcome
  {
    if EndVerdict(w, At(w, p), false).Speak? {
      run := [Send(p, Sent), Record(p, true)];
      Two(w, Send(p, Sent), Record(p, true));
    } else {
      run := [Conclude(p, false)];
      One(w, Conclude(p, false));
    }
    v := After(w, run);
    assert v.procs - {p} == w.procs - {p} && v.db.turns - {id} == w.db.turns - {id};
  }

  lemma HeldRowDone(w: World, p: Pid, id: TurnId) returns (run: seq<Action>, v: World)
    requires At(w, p).Holding? && At(w, p).side.Lane? && At(w, p).id == id && Holds(w.db.turns, id, At(w, p).tok)
    ensures Brings(w, run, v) && OnlyRow(w, v, p, id) && At(v, p).Idle? && RowDone(v, id)
    ensures v.db.turns[id].outcome == Some(LaneOutcome(At(w, p).model))
  {
    var u, more;
    run, u := HeldFinishes(w, p, id);
    more, v := LaneEnds(u, p, id);
    run := AndThen(w, run, u, more, v);
  }

  lemma LaneGrants(w: World, p: Pid, id: TurnId)
    requires At(w, p) == Granting(id) && id in w.db.turns && w.db.turns[id].status == Continuable
    ensures Brings(w, [Grant(p)], DoGrant(w, p)) && OnlyRow(w, DoGrant(w, p), p, id)
    ensures var v := DoGrant(w, p); At(v, p).Holding? && At(v, p).side.Lane? && At(v, p).id == id && Holds(v.db.turns, id, At(v, p).tok)
  {
    One(w, Grant(p));
    var v := DoGrant(w, p);
    assert v.procs - {p} == w.procs - {p} && v.db.turns - {id} == w.db.turns - {id};
  }

  lemma LaneResumes(w: World, p: Pid, id: TurnId)
    requires At(w, p) == Resuming(id) && id in w.db.turns && Claimable(w.db.turns[id])
    ensures Brings(w, [Resume(p)], DoResume(w, p)) && OnlyRow(w, DoResume(w, p), p, id)
    ensures var v := DoResume(w, p); At(v, p).Holding? && At(v, p).side.Lane? && At(v, p).id == id && Holds(v.db.turns, id, At(v, p).tok)
  {
    One(w, Resume(p));
    var v := DoResume(w, p);
    assert v.procs - {p} == w.procs - {p} && v.db.turns - {id} == w.db.turns - {id};
  }

  lemma LaneTakes(w: World, p: Pid, id: TurnId) returns (run: seq<Action>, v: World)
    requires At(w, p).Idle? && id in w.db.turns && !DeadEnd(w.db.turns[id])
    requires w.db.turns[id].status in {Runnable, Waiting, Interrupted, Continuable} && IsSchedulerAutonomous(w.db.turns[id])
    ensures Brings(w, run, v) && OnlyRow(w, v, p, id)
    ensures At(v, p).Holding? && At(v, p).side.Lane? && At(v, p).id == id && Holds(v.db.turns, id, At(v, p).tok)
  {
    var u;
    run, u := PicksUp(w, p, id);
    assert u.procs - {p} == w.procs - {p};
    if w.db.turns[id].status == Continuable {
      LaneGrants(u, p, id);
      v := DoGrant(u, p);
      run := AndThen(w, run, u, [Grant(p)], v);
    } else {
      LaneResumes(u, p, id);
      v := DoResume(u, p);
      run := AndThen(w, run, u, [Resume(p)], v);
    }
  }

  lemma RunningGivenBack(w: World, p: Pid, id: TurnId) returns (run: seq<Action>, v: World)
    requires At(w, p).Idle? && id in w.db.turns && w.db.turns[id].status == Running
    ensures Brings(w, run, v) && OnlyRow(w, v, p, id) && At(v, p).Idle?
    ensures id in v.db.turns && v.db.turns[id] == w.db.turns[id].(status := Interrupted, token := None)
  {
    run := [Reclaim(id)];
    One(w, Reclaim(id));
    v := After(w, run);
    assert v.db.turns - {id} == w.db.turns - {id};
  }

  lemma OpenEnds(w: World, p: Pid, o: Occ, id: TurnId) returns (run: seq<Action>, v: World)
    requires At(w, p).Idle? && OldestDue(w, o) && Bound(w, o, id) && id in w.db.turns
    requires w.db.turns[id].status in {Runnable, Waiting, Interrupted, Continuable} && !DeadEnd(w.db.turns[id])
    requires IsSchedulerAutonomous(w.db.turns[id])
    ensures Brings(w, run, v) && Over(w, v, p, o, id)
  {
    var u, more;
    run, u := LaneTakes(w, p, id);
    var t;
    more, t := HeldRowDone(u, p, id);
    run := AndThen(w, run, u, more, t);
    more, v := DoneEnds(t, p, o, id);
    run := AndThen(w, run, t, more, v);
  }

  lemma RunningEnds(w: World, p: Pid, o: Occ, id: TurnId) returns (run: seq<Action>, v: World)
    requires At(w, p).Idle? && OldestDue(w, o) && Bound(w, o, id) && id in w.db.turns && w.db.turns[id].status == Running
    requires IsSchedulerAutonomous(w.db.turns[id])
    ensures Brings(w, run, v) && Over(w, v, p, o, id)
  {
    var u, more;
    run, u := RunningGivenBack(w, p, id);
    more, v := OpenEnds(u, p, o, id);
    run := AndThen(w, run, u, more, v);
  }

  /** The id a tick on this occurrence serves. */
  ghost function IdOf(w: World, o: Occ): TurnId { if HasId(w, o) then w.db.fires[o].turnId.value else w.db.ids }

  lemma NotStuckEnds(w: World, p: Pid, o: Occ) returns (run: seq<Action>, v: World)
    requires Inv(w) && At(w, p).Idle? && OldestDue(w, o) && !Stuck(w, o)
    ensures Brings(w, run, v) && Over(w, v, p, o, IdOf(w, o))
  {
    if !HasId(w, o) {
      run, v := UnboundEnds(w, p, o);
    } else {
      var id := w.db.fires[o].turnId.value;
      if id !in w.db.turns {
        run, v := MissingEnds(w, p, o, id);
      } else {
        assert RowOk(w.db.turns[id], w.db.tokens);
        if w.db.turns[id].status == Done {
          run, v := DoneEnds(w, p, o, id);
        } else if w.db.turns[id].status == Running {
          run, v := RunningEnds(w, p, o, id);
        } else {
          run, v := OpenEnds(w, p, o, id);
        }
      }
    }
  }

  ghost predicate AllIdle(w: World) { forall p | p in w.procs :: w.procs[p].Idle? }

  /** A reachable world in which no process is at work. */
  ghost predicate Resting(w: World) { Inv(w) && C.SchedInv(w) && AllIdle(w) }

  /** A smooth run after which the schedule moved on behalf of this occurrence. */
  ghost predicate EndsBy(w: World, o: Occ, run: seq<Action>) {
    Legal(w, run) && Smooth(run) && o in After(w, run).past.marked
  }

  // ---- One due occurrence after another -----------------------------------------------------

  predicate DueNow(w: World, o: Occ) {
    o.job in w.jobs && o.job in w.db.next && w.db.next[o.job] == o.scheduledFor <= w.now
  }

  /** The jobs whose due occurrence is older than this one. */
  function Older(w: World, o: Occ): set<JobId> { set j | j in w.db.next && w.db.next[j] < o.scheduledFor }

  predicate NoneStuckBefore(w: World, o: Occ) { forall j | j in Older(w, o) :: !Stuck(w, Occ(j, w.db.next[j])) }

  lemma {:induction false} Earliest(next: map<JobId, nat>, js: set<JobId>) returns (m: JobId)
    requires js != {} && js <= next.Keys
    ensures m in js && forall j | j in js :: next[m] <= next[j]
    decreases js
  {
    m :| m in js;
    if js != {m} {
      var n := Earliest(next, js - {m});
      if next[n] < next[m] { m := n; }
    }
  }

  /** What a tick would try before `o`, or `o` itself. */
  lemma FirstOfDue(w: World, o: Occ) returns (x: Occ)
    requires C.NextOk(w) && DueNow(w, o)
    ensures OldestDue(w, x) && (x == o || (x.job in Older(w, o) && x == Occ(x.job, w.db.next[x.job])))
  {
    var m := Earliest(w.db.next, w.db.next.Keys);
    x := if w.db.next[m] < o.scheduledFor then Occ(m, w.db.next[m]) else o;
  }

  /** Serving one occurrence decides nothing about another. */
  lemma OthersAsStuck(w: World, v: World, p: Pid, x: Occ, y: Occ)
    requires Inv(w) && Only(w, v, p, x, IdOf(w, x)) && x != y
    ensures Stuck(v, y) <==> Stuck(w, y)
    ensures y in v.db.fires <==> y in w.db.fires
    ensures y in w.db.fires ==> v.db.fires[y] == w.db.fires[y]
    ensures HasId(w, y) ==> w.db.fires[y].turnId.value != IdOf(w, x)
  {
    assert y in w.db.fires <==> y in w.db.fires - {x};
    assert y in v.db.fires <==> y in v.db.fires - {x};
    if HasId(w, y) {
      var id := w.db.fires[y].turnId.value;
      DifferentIds(w, x, y);
      assert id in w.db.turns <==> id in w.db.turns - {IdOf(w, x)};
      assert id in v.db.turns <==> id in v.db.turns - {IdOf(w, x)};
    }
  }

  lemma DifferentIds(w: World, x: Occ, y: Occ)
    requires Inv(w) && HasId(w, y) && x != y
    ensures w.db.fires[y].turnId.value != IdOf(w, x)
  {
    assert Bound(w, y, w.db.fires[y].turnId.value);
    if HasId(w, x) { assert Bound(w, x, w.db.fires[x].turnId.value); }
  }

  lemma OthersAsDue(w: World, v: World, p: Pid, x: Occ, o: Occ)
    requires Over(w, v, p, x, IdOf(w, x)) && DueNow(w, o) && DueNow(w, x) && x.scheduledFor < o.scheduledFor
    ensures DueNow(v, o) && Older(v, o) == Older(w, o) - {x.job}
    ensures forall j | j in Older(v, o) :: v.db.next[j] == w.db.next[j]
  {
    forall j | j != x.job ensures (j in v.db.next <==> j in w.db.next) && (j in w.db.next ==> v.db.next[j] == w.db.next[j]) {
      assert j in v.db.next <==> j in v.db.next - {x.job};
      assert j in w.db.next <==> j in w.db.next - {x.job};
    }
  }

  lemma StillResting(w: World, run: seq<Action>, v: World, p: Pid, x: Occ, id: TurnId)
    requires Resting(w) && Brings(w, run, v) && Over(w, v, p, x, id)
    ensures Resting(v)
  {
    G.RunKeeps(w, run);
    C.ScheduleOnlyForward(w, run);
    forall q | q in v.procs ensures v.procs[q].Idle? {
      if q != p { assert q in v.procs - {p}; }
    }
  }

  /** Every older one can be ended first, and then `o` is as it was and next in turn. */
  lemma {:induction false} OlderEnd(w: World, o: Occ) returns (run: seq<Action>, v: World)
    requires Resting(w) && DueNow(w, o) && NoneStuckBefore(w, o)
    ensures Brings(w, run, v) && Resting(v) && OldestDue(v, o) && v.jobs == w.jobs && v.now == w.now
    ensures Alike(w, v, o)
    decreases |Older(w, o)|
  {
    var x := FirstOfDue(w, o);
    if x == o {
      run, v := [], w;
    } else {
      var u, more;
      run, u := NotStuckEnds(w, 0, x);
      StillResting(w, run, u, 0, x, IdOf(w, x));
      OthersAsDue(w, u, 0, x, o);
      OthersAlike(w, u, 0, x, o);
      StillUnstuck(w, u, 0, x, o);
      more, v := OlderEnd(u, o);
      run := AndThen(w, run, u, more, v);
    }
  }

  lemma StillUnstuck(w: World, u: World, p: Pid, x: Occ, o: Occ)
    requires Inv(w) && Only(w, u, p, x, IdOf(w, x)) && NoneStuckBefore(w, o)
    requires Older(u, o) == Older(w, o) - {x.job} && forall j | j in Older(u, o) :: u.db.next[j] == w.db.next[j]
    ensures NoneStuckBefore(u, o)
  {
    forall j | j in Older(u, o) ensures !Stuck(u, Occ(j, u.db.next[j])) {
      OthersAsStuck(w, u, p, x, Occ(j, w.db.next[j]));
    }
  }

  /** Fire and row of an occurrence, unchanged. */
  ghost predicate Alike(w: World, v: World, o: Occ) {
    && (o in v.db.fires <==> o in w.db.fires) && (o in w.db.fires ==> v.db.fires[o] == w.db.fires[o])
    && (HasId(w, o) ==> var id := w.db.fires[o].turnId.value;
                        (id in v.db.turns <==> id in w.db.turns) && (id in w.db.turns ==> v.db.turns[id] == w.db.turns[id]))
  }

  lemma OthersAlike(w: World, v: World, p: Pid, x: Occ, o: Occ)
    requires Inv(w) && Only(w, v, p, x, IdOf(w, x)) && x != o
    ensures Alike(w, v, o)
  {
    OthersAsStuck(w, v, p, x, o);
    if HasId(w, o) {
      var id := w.db.fires[o].turnId.value;
      assert id in w.db.turns <==> id in w.db.turns - {IdOf(w, x)};
      assert id in v.db.turns <==> id in v.db.turns - {IdOf(w, x)};
    }
  }

  // ---- Behind a stuck one -------------------------------------------------------------------

  /** A stuck occurrence is due and its job's only one in hand. */
  ghost predicate Blocks(w: World, x: Occ, id: TurnId) {
    && StuckInv(w, x, id) && x.job in w.db.next && w.db.next[x.job] == x.scheduledFor
    && forall p | p in w.procs && TickOcc(w.procs[p]).Some? && TickOcc(w.procs[p]).value.job == x.job :: TickOcc(w.procs[p]) == Some(x)
  }

  lemma BlocksNext(w: World, a: Action, x: Occ, id: TurnId)
    requires Blocks(w, x, id) && Enabled(w, a)
    ensures x.job in Apply(w, a).db.next && Apply(w, a).db.next[x.job] == x.scheduledFor
    ensures a.TickStart? ==> a.o.scheduledFor <= x.scheduledFor && (a.o.job == x.job ==> a.o == x)
  {
    if a.Advance? {
      assert Fruitless(At(w, a.p), x, id);
      AdvanceFruitless(w, a.p, x, id);
    } else if !C.MovesSchedule(a) {
      C.OthersKeepSchedule(w, a);
    }
  }

  lemma BlocksTicks(w: World, a: Action, x: Occ, id: TurnId, q: Pid)
    requires Blocks(w, x, id) && Enabled(w, a) && q in Apply(w, a).procs
    ensures var t := TickOcc(Apply(w, a).procs[q]); t.Some? && t.value.job == x.job ==> t == Some(x)
  {
    BlocksNext(w, a, x, id);
    if !C.MovesSchedule(a) { C.OthersStay(w, a, q); }
  }

  lemma BlocksStep(w: World, a: Action, x: Occ, id: TurnId)
    requires Inv(w) && Blocks(w, x, id) && Enabled(w, a) && Calm(a)
    ensures Blocks(Apply(w, a), x, id) && (a.TickStart? ==> a.o.scheduledFor <= x.scheduledFor)
  {
    var v := Apply(w, a);
    StepKeeps(w, a);
    StuckStep(w, a, x, id);
    BlocksNext(w, a, x, id);
    forall q | q in v.procs && TickOcc(v.procs[q]).Some? && TickOcc(v.procs[q]).value.job == x.job ensures TickOcc(v.procs[q]) == Some(x) {
      BlocksTicks(w, a, x, id, q);
    }
  }

  /** Nobody has it in hand, and nobody ever moved the schedule for it. */
  ghost predicate Untried(w: World, o: Occ) {
    o !in w.past.marked && forall p | p in w.procs :: TickOcc(w.procs[p]) != Some(o)
  }

  lemma UntriedStays(w: World, a: Action, o: Occ, q: Pid)
    requires Untried(w, o) && Enabled(w, a) && !(a.TickStart? && a.o == o) && q in Apply(w, a).procs
    ensures TickOcc(Apply(w, a).procs[q]) != Some(o)
  {
    if !C.MovesSchedule(a) { C.OthersStay(w, a, q); }
  }

  lemma UntriedStep(w: World, a: Action, o: Occ)
    requires Untried(w, o) && Enabled(w, a) && !(a.TickStart? && a.o == o)
    ensures Untried(Apply(w, a), o)
  {
    var v := Apply(w, a);
    if !a.Advance? { OnlyAdvanceMarks(w, a); }
    forall q | q in v.procs ensures TickOcc(v.procs[q]) != Some(o) { UntriedStays(w, a, o, q); }
  }

  /** Over every run without a throw or the owner, whatever crashes: nothing younger is ever started on. */
  lemma {:induction false} BlockedForEver(w: World, run: seq<Action>, x: Occ, id: TurnId, o: Occ)
    requires Inv(w) && Blocks(w, x, id) && Untried(w, o) && x.scheduledFor < o.scheduledFor && Legal(w, run) && CalmRun(run)
    ensures Untried(After(w, run), o) && forall i | 0 <= i < |run| :: !(run[i].TickStart? && run[i].o == o)
    decreases |run|
  {
    if run != [] {
      assert Calm(run[0]);
      assert forall i | 0 <= i < |run[1..]| :: run[1..][i] == run[i + 1];
      BlocksStep(w, run[0], x, id);
      StepKeeps(w, run[0]);
      UntriedStep(w, run[0], o);
      BlockedForEver(Apply(w, run[0]), run[1..], x, id, o);
    }
  }

  lemma RestingUntried(w: World, o: Occ)
    requires Resting(w) && DueNow(w, o)
    ensures Untried(w, o)
  {
  }

  lemma RestingBlocks(w: World, x: Occ)
    requires Resting(w) && DueNow(w, x) && Stuck(w, x)
    ensures Blocks(w, x, w.db.fires[x].turnId.value)
  {
    RestingUntried(w, x);
  }

  /**
   * From any reachable world at rest, a due occurrence can be brought to its end without a
   * crash, a throw or the owner if and only if neither it nor any due one older than it is
   * stuck. Crashes do not help: a stuck one stays stuck through them too.
   */
  lemma EndsIffNotStuck(w: World, o: Occ)
    requires Resting(w) && DueNow(w, o)
    ensures (exists run :: EndsBy(w, o, run)) <==> !Stuck(w, o) && NoneStuckBefore(w, o)
  {
    RestingUntried(w, o);
    if Stuck(w, o) {
      RestingBlocks(w, o);
      forall run | Legal(w, run) && Smooth(run) ensures !EndsBy(w, o, run) {
        StuckForEver(w, run, o, w.db.fires[o].turnId.value);
      }
    } else if j :| j in Older(w, o) && Stuck(w, Occ(j, w.db.next[j])) {
      var x := Occ(j, w.db.next[j]);
      RestingBlocks(w, x);
      forall run | Legal(w, run) && Smooth(run) ensures !EndsBy(w, o, run) {
        BlockedForEver(w, run, x, w.db.fires[x].turnId.value, o);
      }
    } else {
      var run, v := InTurnEnds(w, o);
      assert EndsBy(w, o, run);
    }
  }

  lemma InTurnEnds(w: World, o: Occ) returns (run: seq<Action>, v: World)
    requires Resting(w) && DueNow(w, o) && !Stuck(w, o) && NoneStuckBefore(w, o)
    ensures Brings(w, run, v) && o in v.past.marked
  {
    var u, more;
    run, u := OlderEnd(w, o);
    more, v := NotStuckEnds(u, 0, o);
    run := AndThen(w, run, u, more, v);
  }

  // ---- It keeps every other job waiting ---------------------------------------------------------

  ghost predicate OnlyDue(w: World, o: Occ) {
    && OldestDue(w, o) && (forall j | j in w.db.next && j != o.job :: w.db.next[j] > o.scheduledFor)
    && forall p | p in w.procs && TickOcc(w.procs[p]).Some? :: TickOcc(w.procs[p]) == Some(o)
  }

  lemma NobodyAdvances(w: World, a: Action, o: Occ, id: TurnId)
    requires StuckInv(w, o, id) && OnlyDue(w, o) && Enabled(w, a)
    ensures !a.Advance? && (a.TickStart? ==> a.o == o)
  {
    if !Ambient(a) && a.p in w.procs { assert Fruitless(w.procs[a.p], o, id); }
  }

  lemma NextStays(w: World, a: Action, o: Occ, id: TurnId)
    requires StuckInv(w, o, id) && OnlyDue(w, o) && Enabled(w, a)
    ensures Apply(w, a).db.next == w.db.next && w.now <= Apply(w, a).now && Apply(w, a).jobs == w.jobs
    ensures Apply(w, a).past.started <= w.past.started + {o}
  {
    NobodyAdvances(w, a, o, id);
    if !C.MovesSchedule(a) { C.OthersKeepSchedule(w, a); }
  }

  lemma TicksStay(w: World, a: Action, o: Occ, id: TurnId, q: Pid)
    requires StuckInv(w, o, id) && OnlyDue(w, o) && Enabled(w, a) && q in Apply(w, a).procs
    ensures TickOcc(Apply(w, a).procs[q]).Some? ==> TickOcc(Apply(w, a).procs[q]) == Some(o)
  {
    NobodyAdvances(w, a, o, id);
    if !C.MovesSchedule(a) { C.OthersStay(w, a, q); }
  }

  lemma StarveStep(w: World, a: Action, o: Occ, id: TurnId)
    requires StuckInv(w, o, id) && OnlyDue(w, o) && Enabled(w, a)
    ensures var v := Apply(w, a); OnlyDue(v, o) && v.db.next == w.db.next && v.past.started <= w.past.started + {o}
  {
    var v := Apply(w, a);
    NextStays(w, a, o, id);
    forall q | q in v.procs && TickOcc(v.procs[q]).Some? ensures TickOcc(v.procs[q]) == Some(o) { TicksStay(w, a, o, id, q); }
  }

  /**
   * While the oldest due occurrence is stuck no tick ever starts on another job: over every
   * run, with whatever crashes, no schedule moves and nothing but it is started.
   */
  lemma {:induction false} StuckStarvesAll(w: World, run: seq<Action>, o: Occ, id: TurnId)
    requires Inv(w) && StuckInv(w, o, id) && OnlyDue(w, o) && Legal(w, run) && CalmRun(run)
    ensures After(w, run).db.next == w.db.next && After(w, run).past.started <= w.past.started + {o}
    decreases |run|
  {
    if run != [] {
      var a, v := run[0], Apply(w, run[0]);
      assert Calm(a);
      assert forall i | 0 <= i < |run[1..]| :: run[1..][i] == run[i + 1];
      StepKeeps(w, a);
      StuckStep(w, a, o, id);
      StarveStep(w, a, o, id);
      StuckStarvesAll(v, run[1..], o, id);
    }
  }

  /** At rest, a stuck occurrence older than every other is such a world. */
  lemma RestingStuck(w: World, o: Occ)
    requires Resting(w) && DueNow(w, o) && Stuck(w, o)
    requires forall j | j in w.db.next && j != o.job :: w.db.next[j] > o.scheduledFor
    ensures StuckInv(w, o, w.db.fires[o].turnId.value) && OnlyDue(w, o)
  {
    RestingBlocks(w, o);
  }
}

/**
 * Runs in which the occurrence protocol does not do what its comments say. `Messages` and
 * `Leases` say exactly when such runs arise; the last section shows that they start from an
 * empty database.
 */
module Races {

  import opened Common
  import opened Stores
  import opened Protocol
  import opened Runs
  import G = Guarantees
  import C = Schedule
  import U = Unsent

  lemma Go3(w: World, run: seq<Action>, v: World, a: Action, b: Action, c: Action) returns (run': seq<Action>, v': World)
    requires Leads(w, run, v) && Legal(v, [a, b, c])
    ensures Leads(w, run', v') && v' == After(v, [a, b, c]) && run' == run + [a, b, c]
  {
    Concat(w, run, [a, b, c]);
    run', v' := run + [a, b, c], After(v, [a, b, c]);
  }

  // ---- A lost create race is reported as a failed job -------------------------------

  predicate Open(w: World, o: Occ) { OldestDue(w, o) && o !in w.db.fires }

  lemma BothClaim(w: World, p: Pid, q: Pid, o: Occ)
    requires p != q && At(w, p).Idle? && At(w, q).Idle? && Open(w, o)
    ensures var run := [TickStart(p, o), TickStart(q, o), Claim(p)];
            Legal(w, run) && var v := After(w, run);
            && v.jobs == w.jobs && v.past == w.past.(started := v.past.started) && v.db == w.db.(fires := w.db.fires[o := Fire(None, false, false)])
            && At(v, p) == Binding(o) && At(v, q) == Claiming(o)
  {
    Three(w, TickStart(p, o), TickStart(q, o), Claim(p));
  }

  lemma OneBinds(w: World, p: Pid, q: Pid, o: Occ)
    requires p != q && At(w, p) == Binding(o) && At(w, q) == Claiming(o)
    requires o in w.db.fires && w.db.fires[o].turnId.None?
    ensures var run := [Claim(q), Bind(p), Bind(q)];
            Legal(w, run) && var v := After(w, run); var id := w.db.ids;
            && v.jobs == w.jobs && v.db.turns == w.db.turns && v.past.notices == w.past.notices && v.past.sends == w.past.sends
            && At(v, p) == Creating(o, id) && At(v, q) == Resolving(o, id)
  {
    Three(w, Claim(q), Bind(p), Bind(q));
  }

  lemma OneInserts(w: World, p: Pid, q: Pid, o: Occ, id: TurnId)
    requires p != q && At(w, p) == Creating(o, id) && At(w, q) == Resolving(o, id) && id !in w.db.turns
    ensures var run := [Lookup(q), Create(p, false), Create(q, false)];
            Legal(w, run) && var v := After(w, run);
            && v.jobs == w.jobs && v.past.notices == w.past.notices && v.past.sends == w.past.sends
            && At(v, q) == Ending(Job(o), None, Stop(Ended(Error)), true)
            && At(v, p).Holding? && At(v, p).side == Job(o) && At(v, p).id == id && At(v, p).model == KindModel(w, o.job)
            && Holds(v.db.turns, id, At(v, p).tok)
  {
    Three(w, Lookup(q), Create(p, false), Create(q, false));
  }

  lemma LoserSpeaks(w: World, p: Pid, q: Pid, o: Occ)
    requires p != q && At(w, q) == Ending(Job(o), None, Stop(Ended(Error)), true)
    ensures Legal(w, [Send(q, Sent)]) && var v := After(w, [Send(q, Sent)]);
            && v.jobs == w.jobs && v.db == w.db && At(v, p) == At(w, p)
            && v.past.notices[o] == w.past.notices[o] + 1 && v.past.sends == w.past.sends
  {
    One(w, Send(q, Sent));
  }

  lemma WinnerSpeaks(w: World, p: Pid, o: Occ, id: TurnId)
    requires At(w, p).Holding? && At(w, p).side == Job(o) && At(w, p).id == id && At(w, p).model == Provider
    requires Holds(w.db.turns, id, At(w, p).tok) && !IsSilent(w, o.job)
    ensures var run := [Finish(p, Answered, true), Send(p, Sent)];
            Legal(w, run) && var v := After(w, run);
            && v.past.notices == w.past.notices && v.past.sends[id] == w.past.sends[id] + 1
            && RowDone(v, id) && v.db.turns[id].outcome == Some(Answered)
  {
    Two(w, Finish(p, Answered, true), Send(p, Sent));
  }

  lemma BothSpeak(w: World, p: Pid, q: Pid, o: Occ, id: TurnId) returns (run: seq<Action>)
    requires p != q && At(w, q) == Ending(Job(o), None, Stop(Ended(Error)), true)
    requires At(w, p).Holding? && At(w, p).side == Job(o) && At(w, p).id == id && At(w, p).model == Provider
    requires Holds(w.db.turns, id, At(w, p).tok) && !IsSilent(w, o.job)
    ensures Legal(w, run) && var v := After(w, run);
            && v.past.notices[o] == w.past.notices[o] + 1 && v.past.sends[id] == w.past.sends[id] + 1
            && RowDone(v, id) && v.db.turns[id].outcome == Some(Answered)
  {
    LoserSpeaks(w, p, q, o);
    var v := After(w, [Send(q, Sent)]);
    WinnerSpeaks(v, p, o, id);
    var more := [Finish(p, Answered, true), Send(p, Sent)];
    run := Then(w, [Send(q, Sent)], v, more, After(v, more));
  }

  /**
   * Without serialisation an occurrence can be announced twice with no crash at all: two
   * ticks find the same id bound and the row missing, only one `INSERT` lands, and the
   * loser tells the channel the job failed while the winner is still answering.
   */
  lemma RaceAnnouncesAFailure(w: World, p: Pid, q: Pid, o: Occ) returns (run: seq<Action>)
    requires p != q && At(w, p).Idle? && At(w, q).Idle? && Open(w, o)
    requires KindModel(w, o.job) == Provider && !IsSilent(w, o.job) && w.db.ids !in w.db.turns
    ensures Legal(w, run) && var v := After(w, run); var id := w.db.ids;
            && v.past.notices[o] == w.past.notices[o] + 1 && v.past.sends[id] == w.past.sends[id] + 1
            && RowDone(v, id) && v.db.turns[id].outcome == Some(Answered)
  {
    var id := w.db.ids;
    BothClaim(w, p, q, o);
    run := [TickStart(p, o), TickStart(q, o), Claim(p)];
    var v := After(w, run);
    OneBinds(v, p, q, o);
    run, v := Go3(w, run, v, Claim(q), Bind(p), Bind(q));
    OneInserts(v, p, q, o, id);
    run, v := Go3(w, run, v, Lookup(q), Create(p, false), Create(q, false));
    var more := BothSpeak(v, p, q, o, id);
    run := Then(w, run, v, more, After(v, more));
  }

  // ---- A refused resume can stand in for the answer ---------------------------------

  lemma BothPick(w: World, p: Pid, q: Pid, id: TurnId) returns (run: seq<Action>, v: World)
    requires p != q && At(w, p).Idle? && At(w, q).Idle? && id in w.db.turns && w.db.turns[id].status == Interrupted
    requires !IsOwnerActivityAutonomous(w.db.turns[id])
    ensures Leads(w, run, v)
    ensures v.jobs == w.jobs && v.past == w.past && v.db.fires == w.db.fires && v.db.next == w.db.next && v.now == w.now
    ensures At(v, q) == Resuming(id) && id in v.db.turns && v.db.turns[id].status == Running
    ensures At(v, p) == Holding(Lane(false), id, w.db.tokens, w.db.turns[id].model, false) && Holds(v.db.turns, id, w.db.tokens)
  {
    var u, t, more;
    run, u := PicksUp(w, p, id);
    more, t := PicksUp(u, q, id);
    run := Then(w, run, u, more, t);
    ResumesIt(t, p, id);
    v := After(t, [Resume(p)]);
    run := Then(w, run, t, [Resume(p)], v);
  }

  lemma RefusedMarks(w: World, p: Pid, q: Pid, id: TurnId)
    requires p != q && At(w, p).Holding? && At(w, p).id == id && Holds(w.db.turns, id, At(w, p).tok)
    requires At(w, q) == Resuming(id) && w.db.turns[id].status == Running
    ensures var run := [Resume(q), Send(q, Sent), Record(q, true)];
            Legal(w, run) && var v := After(w, run);
            && v.jobs == w.jobs && v.past.sends == w.past.sends && v.db.fires == w.db.fires && v.db.next == w.db.next && v.now == w.now
            && At(v, q).Idle? && At(v, p) == At(w, p)
            && Holds(v.db.turns, id, At(w, p).tok) && v.db.turns[id].delivery == Sent
  {
    Three(w, Resume(q), Send(q, Sent), Record(q, true));
  }

  lemma AnswerDies(w: World, p: Pid, q: Pid, o: Occ, id: TurnId)
    requires p != q && At(w, p).Holding? && At(w, p).id == id && At(w, p).model == Provider
    requires Holds(w.db.turns, id, At(w, p).tok) && w.db.turns[id].delivery == Sent
    requires At(w, q).Idle? && OldestDue(w, o)
    ensures var run := [Finish(p, Answered, true), Crash(p), TickStart(q, o)];
            Legal(w, run) && var v := After(w, run);
            && v.past.sends == w.past.sends && v.db.fires == w.db.fires
            && RowDone(v, id) && v.db.turns[id].outcome == Some(Answered) && v.db.turns[id].delivery == Sent
            && At(v, q) == Claiming(o)
  {
    Three(w, Finish(p, Answered, true), Crash(p), TickStart(q, o));
  }

  lemma TickMovesOn(w: World, q: Pid, o: Occ, id: TurnId)
    requires At(w, q) == Claiming(o) && Bound(w, o, id) && RowDone(w, id) && w.db.turns[id].delivery == Sent
    ensures var run := [Claim(q), Lookup(q), Settle(q)];
            Legal(w, run) && var v := After(w, run);
            && v.past == w.past && v.db.turns == w.db.turns && At(v, q) == Advancing(o)
            && o in v.db.fires && v.db.fires[o].settled
  {
    Three(w, Claim(q), Lookup(q), Settle(q));
  }

  /**
   * When two lanes pick the same row, the one refused as "claimed" still delivers its
   * refusal and marks the row sent. If the other then crashes before delivering, the next
   * tick settles without speaking: the answer was never sent and the schedule moves on.
   */
  lemma RefusalHidesTheAnswer(w: World, p: Pid, q: Pid, o: Occ, id: TurnId) returns (run: seq<Action>)
    requires p != q && At(w, p).Idle? && At(w, q).Idle? && Bound(w, o, id)
    requires id in w.db.turns && w.db.turns[id].status == Interrupted && w.db.turns[id].model == Provider
    requires w.db.turns[id].principal.Scheduler? && OldestDue(w, o)
    ensures Legal(w, run) && var v := After(w, run);
            && RowDone(v, id) && v.db.turns[id].outcome == Some(Answered)
            && o in v.db.fires && v.db.fires[o].settled && At(v, q) == Advancing(o)
            && v.past.sends == w.past.sends
  {
    var v;
    run, v := BothPick(w, p, q, id);
    RefusedMarks(v, p, q, id);
    run, v := Go3(w, run, v, Resume(q), Send(q, Sent), Record(q, true));
    AnswerDies(v, p, q, o, id);
    run, v := Go3(w, run, v, Finish(p, Answered, true), Crash(p), TickStart(q, o));
    TickMovesOn(v, q, o, id);
    run, v := Go3(w, run, v, Claim(q), Lookup(q), Settle(q));
  }

  // ---- The same answer, twice --------------------------------------------------------

  /** The turn the lane is about to finish: nobody holds it, and its channel was told nothing. */
  predicate LeftBehind(w: World, o: Occ, id: TurnId) {
    && Bound(w, o, id) && id in w.db.turns && w.db.turns[id].status == Interrupted && w.db.turns[id].model == Provider
    && w.db.turns[id].principal.Scheduler? && w.db.turns[id].delivery == Pending && w.db.turns[id].job == Some(o.job) && OldestDue(w, o) && !IsSilent(w, o.job)
  }

  lemma ResumesAndAnswers(w: World, p: Pid, id: TurnId)
    requires At(w, p) == Resuming(id) && id in w.db.turns && w.db.turns[id].status == Interrupted && w.db.turns[id].model == Provider
    ensures var run := [Resume(p), Finish(p, Answered, true)];
            Legal(w, run) && var v := After(w, run);
            && v.jobs == w.jobs && v.past == w.past && v.db.fires == w.db.fires && v.db.next == w.db.next && v.now == w.now
            && (forall q | q != p :: At(v, q) == At(w, q))
            && At(v, p) == Ending(Lane(false), Some(id), Stop(Ended(Answered)), true)
            && id in v.db.turns && v.db.turns[id] == w.db.turns[id].(status := Done, outcome := Some(Answered), token := None)
  {
    Two(w, Resume(p), Finish(p, Answered, true));
  }

  lemma LaneAnswers(w: World, p: Pid, q: Pid, o: Occ, id: TurnId) returns (run: seq<Action>, v: World)
    requires p != q && At(w, p).Idle? && At(w, q).Idle? && LeftBehind(w, o, id)
    ensures run == [LanePick(p, id, true), LaneRead(p)] + [Resume(p), Finish(p, Answered, true)] && Leads(w, run, v)
    ensures v.jobs == w.jobs && v.past == w.past && OldestDue(v, o) && Bound(v, o, id) && At(v, q).Idle?
    ensures At(v, p) == Ending(Lane(false), Some(id), Stop(Ended(Answered)), true)
    ensures RowDone(v, id) && v.db.turns[id].outcome == Some(Answered) && v.db.turns[id].delivery == Pending
    ensures v.db.turns[id].job == Some(o.job)
  {
    var u;
    run, u := PicksUp(w, p, id);
    ResumesAndAnswers(u, p, id);
    var more := [Resume(p), Finish(p, Answered, true)];
    v := After(u, more);
    run := Then(w, run, u, more, v);
  }

  lemma TickFindsIt(w: World, p: Pid, q: Pid, o: Occ, id: TurnId)
    requires p != q && At(w, q).Idle? && OldestDue(w, o) && Bound(w, o, id)
    requires RowDone(w, id) && w.db.turns[id].outcome == Some(Answered) && w.db.turns[id].delivery == Pending
    ensures var run := [TickStart(q, o), Claim(q), Lookup(q)];
            Legal(w, run) && var v := After(w, run);
            && v.jobs == w.jobs && v.db == w.db && v.past.sends == w.past.sends && v.past.missed == w.past.missed
            && At(v, p) == At(w, p) && At(v, q) == Ending(Job(o), Some(id), Stop(Ended(Answered)), true)
  {
    Three(w, TickStart(q, o), Claim(q), Lookup(q));
  }

  lemma BothSend(w: World, p: Pid, q: Pid, o: Occ, id: TurnId)
    requires p != q && RowDone(w, id) && w.db.turns[id].job == Some(o.job) && !IsSilent(w, o.job)
    requires At(w, p) == Ending(Lane(false), Some(id), Stop(Ended(Answered)), true)
    requires At(w, q) == Ending(Job(o), Some(id), Stop(Ended(Answered)), true)
    ensures var run := [Send(q, Sent), Send(p, Sent)];
            Legal(w, run) && After(w, run).past.sends[id] == w.past.sends[id] + 2 && After(w, run).past.missed == w.past.missed
  {
    Two(w, Send(q, Sent), Send(p, Sent));
  }

  /**
   * The worst of them: nothing crashes, no record is lost, no call throws, and the owner
   * gets the same answer twice, once from the lane that finished it and once from the tick
   * that found it finished and still pending.
   */
  lemma LaneAndTickBothSend(w: World, p: Pid, q: Pid, o: Occ, id: TurnId) returns (run: seq<Action>)
    requires p != q && At(w, p).Idle? && At(w, q).Idle? && LeftBehind(w, o, id)
    ensures Legal(w, run) && var v := After(w, run);
            v.past.sends[id] == w.past.sends[id] + 2 && v.past.missed == w.past.missed
    ensures forall a | a in run :: !a.Crash? && !a.Throw?
  {
    var v;
    run, v := LaneAnswers(w, p, q, o, id);
    TickFindsIt(v, p, q, o, id);
    run, v := Go3(w, run, v, TickStart(q, o), Claim(q), Lookup(q));
    BothSend(v, p, q, o, id);
    var more := [Send(q, Sent), Send(p, Sent)];
    run := Then(w, run, v, more, After(v, more));
  }

  // ---- The lease ceiling is read before it is written -----------------------------------

  predicate Distinct(ps: seq<Pid>) { forall i, j | 0 <= i < j < |ps| :: ps[i] != ps[j] }

  /** Lanes that all passed the gate. */
  predicate AllAt(w: World, lanes: seq<Pid>, pc: PC) { forall i | 0 <= i < |lanes| :: At(w, lanes[i]) == pc }

  predicate LastLease(r: Row) {
    r.status == Continuable && IsSchedulerAutonomous(r) && r.lease < MAX_AUTONOMOUS_LEASES && r.model == Provider
  }

  lemma {:induction false} AllPick(w: World, lanes: seq<Pid>, id: TurnId) returns (run: seq<Action>)
    requires Distinct(lanes) && AllAt(w, lanes, Idle) && id in w.db.turns && LastLease(w.db.turns[id])
    ensures Legal(w, run) && var v := After(w, run); v.db == w.db && AllAt(v, lanes, Granting(id))
    ensures forall p | p !in lanes :: At(After(w, run), p) == At(w, p)
    decreases |lanes|
  {
    run := [];
    if lanes != [] {
      var p, rest := lanes[0], lanes[1..];
      var pick, v := PicksUp(w, p, id);
      assert forall i | 0 <= i < |rest| :: rest[i] == lanes[i + 1] && rest[i] != p;
      var more := AllPick(v, rest, id);
      run := Then(w, pick, v, more, After(v, more));
      assert p !in rest;
      forall i | 0 <= i < |lanes| ensures At(After(w, run), lanes[i]) == Granting(id) {
        if i > 0 { assert rest[i - 1] == lanes[i]; }
      }
    }
  }

  lemma GrantOne(w: World, p: Pid, id: TurnId)
    requires At(w, p) == Granting(id) && id in w.db.turns && w.db.turns[id].status == Continuable && w.db.turns[id].model == Provider
    ensures Legal(w, [Grant(p)]) && var v := After(w, [Grant(p)]);
            && At(v, p) == Holding(Lane(true), id, w.db.tokens, Provider, false)
            && id in v.db.turns && v.db.turns[id] == GrantedRow(w.db.turns[id], w.db.tokens, false)
            && forall q | q != p :: At(v, q) == At(w, q)
  {
    One(w, Grant(p));
  }

  lemma ReleaseOne(w: World, p: Pid, id: TurnId, tok: Token)
    requires At(w, p) == Holding(Lane(true), id, tok, Provider, false) && HoldsRunning(w.db.turns, id, tok)
    ensures var run := [Release(p), Conclude(p, false)];
            Legal(w, run) && var v := After(w, run);
            && id in v.db.turns && v.db.turns[id] == w.db.turns[id].(status := Continuable, outcome := None, token := None)
            && At(v, p).Idle? && forall q | q != p :: At(v, q) == At(w, q)
  {
    Two(w, Release(p), Conclude(p, false));
  }

  lemma GrantAndRelease(w: World, p: Pid, id: TurnId) returns (v: World)
    requires At(w, p) == Granting(id) && id in w.db.turns && w.db.turns[id].status == Continuable && w.db.turns[id].model == Provider
    ensures Leads(w, [Grant(p), Release(p), Conclude(p, false)], v)
    ensures id in v.db.turns && v.db.turns[id].status == Continuable && v.db.turns[id].model == Provider
    ensures v.db.turns[id].principal == w.db.turns[id].principal && v.db.turns[id].job == w.db.turns[id].job
    ensures v.db.turns[id].lease == w.db.turns[id].lease + 1 && At(v, p).Idle? && forall q | q != p :: At(v, q) == At(w, q)
  {
    GrantOne(w, p, id);
    var u := After(w, [Grant(p)]);
    ReleaseOne(u, p, id, w.db.tokens);
    v := After(u, [Release(p), Conclude(p, false)]);
    var run := Then(w, [Grant(p)], u, [Release(p), Conclude(p, false)], v);
    assert [Grant(p)] + [Release(p), Conclude(p, false)] == [Grant(p), Release(p), Conclude(p, false)];
  }

  lemma {:induction false} AllGrant(w: World, lanes: seq<Pid>, id: TurnId) returns (run: seq<Action>)
    requires Distinct(lanes) && AllAt(w, lanes, Granting(id))
    requires id in w.db.turns && w.db.turns[id].status == Continuable && w.db.turns[id].model == Provider
    ensures Legal(w, run) && var v := After(w, run); id in v.db.turns && v.db.turns[id].lease == w.db.turns[id].lease + |lanes|
    decreases |lanes|
  {
    run := [];
    if lanes != [] {
      var p, rest := lanes[0], lanes[1..];
      var v := GrantAndRelease(w, p, id);
      var head := [Grant(p), Release(p), Conclude(p, false)];
      assert forall i | 0 <= i < |rest| :: rest[i] == lanes[i + 1] && rest[i] != p;
      var more := AllGrant(v, rest, id);
      run := Then(w, head, v, more, After(v, more));
    }
  }

  /** Lanes that pass the gate at the last lease all get one, so the ceiling is crossed by all but one of them. */
  lemma LanesCrossTheCeiling(w: World, lanes: seq<Pid>, id: TurnId) returns (run: seq<Action>)
    requires Distinct(lanes) && AllAt(w, lanes, Idle) && id in w.db.turns && LastLease(w.db.turns[id])
    requires w.db.turns[id].lease == MAX_AUTONOMOUS_LEASES - 1
    ensures Legal(w, run) && id in After(w, run).db.turns
    ensures After(w, run).db.turns[id].lease == MAX_AUTONOMOUS_LEASES - 1 + |lanes|
  {
    var picks := AllPick(w, lanes, id);
    var grants := AllGrant(After(w, picks), lanes, id);
    run := Then(w, picks, After(w, picks), grants, After(After(w, picks), grants));
  }

  // ---- All of it from an empty database -----------------------------------------------------

  /** One recurring goal that delivers. */
  predicate Goal(c: JobCfg) { !c.script && !c.silent && !c.once }

  function Jobs(c: JobCfg): map<JobId, JobCfg> { map[0 := c] }

  function First(c: JobCfg, now: nat): Occ { Occ(0, c.cron(now)) }

  /** Its first fire has come and nobody has touched it. */
  lemma FirstIsDue(c: JobCfg, now: nat) returns (v: World)
    requires Goal(c)
    ensures Leads(Start(Jobs(c), now), [Clock(c.cron(now))], v)
    ensures Open(v, First(c, now)) && v.procs == map[] && v.db.ids == 0 && v.db.turns == map[] && v.jobs == Jobs(c)
    ensures v.past.sends == multiset{} && v.past.missed == multiset{} && v.past.notices == multiset{} && v.db.tokens == 0
  {
    var w := Start(Jobs(c), now);
    One(w, Clock(c.cron(now)));
    v := After(w, [Clock(c.cron(now))]);
  }

  lemma FirstIsBound(w: World, o: Occ)
    requires Open(w, o) && At(w, 0).Idle? && w.db.turns == map[] && w.db.ids == 0
    ensures var run := [TickStart(0, o), Claim(0), Bind(0)];
            Legal(w, run) && var v := After(w, run);
            && v.jobs == w.jobs && OldestDue(v, o) && Bound(v, o, 0) && At(v, 0) == Creating(o, 0) && v.db.turns == map[]
            && v.past.sends == w.past.sends && v.past.missed == w.past.missed && v.procs.Keys == w.procs.Keys + {0} && v.db.tokens == w.db.tokens
  {
    Three(w, TickStart(0, o), Claim(0), Bind(0));
  }

  lemma FirstInserts(w: World, o: Occ)
    requires OldestDue(w, o) && Bound(w, o, 0) && At(w, 0) == Creating(o, 0) && w.db.turns == map[]
    requires KindModel(w, o.job) == Provider
    ensures Legal(w, [Create(0, false)]) && var v := After(w, [Create(0, false)]);
            && v.jobs == w.jobs && OldestDue(v, o) && Bound(v, o, 0) && 0 in v.db.turns
            && v.db.turns[0] == NewRow(Scheduler, Some(o.job), true, Provider, w.db.tokens)
            && v.past.sends == w.past.sends && v.past.missed == w.past.missed && v.procs.Keys == w.procs.Keys + {0} && At(v, 0).Holding?
  {
    One(w, Create(0, false));
  }

  lemma HolderDies(w: World, o: Occ)
    requires OldestDue(w, o) && Bound(w, o, 0) && At(w, 0).Holding? && 0 in w.db.turns && w.db.turns[0].status == Running
    ensures var run := [Crash(0), Reclaim(0)];
            Legal(w, run) && var v := After(w, run);
            && v.jobs == w.jobs && OldestDue(v, o) && Bound(v, o, 0) && 0 in v.db.turns
            && v.db.turns[0] == w.db.turns[0].(status := Interrupted, token := None)
            && v.past.sends == w.past.sends && v.past.missed == w.past.missed && At(v, 0).Idle? && v.procs.Keys == w.procs.Keys + {0}
  {
    Two(w, Crash(0), Reclaim(0));
  }

  lemma InsertedByFirst(c: JobCfg, now: nat) returns (run: seq<Action>, v: World)
    requires Goal(c)
    ensures Leads(Start(Jobs(c), now), run, v) && OldestDue(v, First(c, now)) && Bound(v, First(c, now), 0) && v.jobs == Jobs(c)
    ensures 0 in v.db.turns && v.db.turns[0] == NewRow(Scheduler, Some(0), true, Provider, 0)
    ensures At(v, 0) == Holding(Job(First(c, now)), 0, 0, Provider, false)
    ensures v.procs.Keys == {0} && v.past.sends == multiset{} && v.past.missed == multiset{}
  {
    var w, o := Start(Jobs(c), now), First(c, now);
    var t := FirstIsDue(c, now);
    FirstIsBound(t, o);
    var u;
    run, u := Go3(w, [Clock(c.cron(now))], t, TickStart(0, o), Claim(0), Bind(0));
    FirstInserts(u, o);
    v := After(u, [Create(0, false)]);
    run := Then(w, run, u, [Create(0, false)], v);
  }

  /** A tick died right after writing its row. */
  lemma LeftBehindFromStart(c: JobCfg, now: nat) returns (run: seq<Action>)
    requires Goal(c)
    ensures Legal(Start(Jobs(c), now), run) && var v := After(Start(Jobs(c), now), run);
            LeftBehind(v, First(c, now), 0) && At(v, 0).Idle? && At(v, 1).Idle? && v.past.sends == multiset{} && v.past.missed == multiset{}
  {
    var v;
    run, v := InsertedByFirst(c, now);
    HolderDies(v, First(c, now));
    var more := [Crash(0), Reclaim(0)];
    run := Then(Start(Jobs(c), now), run, v, more, After(v, more));
  }

  /** From an empty database: a job announced as failed and then answered. */
  lemma FalseNoticeFromStart(c: JobCfg, now: nat) returns (run: seq<Action>)
    requires Goal(c)
    ensures Legal(Start(Jobs(c), now), run) && var v := After(Start(Jobs(c), now), run);
            v.past.notices[First(c, now)] == 1 && RowDone(v, 0) && v.db.turns[0].outcome == Some(Answered)
  {
    var v := FirstIsDue(c, now);
    run := RaceAnnouncesAFailure(v, 0, 1, First(c, now));
    run := Then(Start(Jobs(c), now), [Clock(c.cron(now))], v, run, After(v, run));
  }

  /** From an empty database: an answer nobody attempted to send, on an occurrence settled for good. */
  lemma HiddenAnswerFromStart(c: JobCfg, now: nat) returns (run: seq<Action>)
    requires Goal(c)
    ensures Legal(Start(Jobs(c), now), run) && var v, o := After(Start(Jobs(c), now), run), First(c, now);
            && RowDone(v, 0) && v.db.turns[0].outcome == Some(Answered) && v.past.sends[0] == 0
            && o in v.db.fires && v.db.fires[o].settled
  {
    run := LeftBehindFromStart(c, now);
    var v := After(Start(Jobs(c), now), run);
    var more := RefusalHidesTheAnswer(v, 0, 1, First(c, now), 0);
    run := Then(Start(Jobs(c), now), run, v, more, After(v, more));
  }

  /** From an empty database: one answer, sent twice, with no record lost. */
  lemma DoubleSendFromStart(c: JobCfg, now: nat) returns (run: seq<Action>)
    requires Goal(c)
    ensures Legal(Start(Jobs(c), now), run) && var v := After(Start(Jobs(c), now), run);
            v.past.sends[0] == 2 && v.past.missed[0] == 0
  {
    run := LeftBehindFromStart(c, now);
    var v := After(Start(Jobs(c), now), run);
    var more := LaneAndTickBothSend(v, 0, 1, First(c, now), 0);
    run := Then(Start(Jobs(c), now), run, v, more, After(v, more));
  }

  // A job's row released again and again, up to its last autonomous lease.

  lemma FirstReleases(w: World, id: TurnId)
    requires At(w, 0).Holding? && At(w, 0).side.Job? && At(w, 0).id == id && At(w, 0).model == Provider
    requires HoldsRunning(w.db.turns, id, At(w, 0).tok)
    ensures Legal(w, [Release(0)]) && var v := After(w, [Release(0)]);
            && id in v.db.turns && v.db.turns[id] == w.db.turns[id].(status := Continuable, outcome := None, token := None)
            && At(v, 0).Idle? && forall q | q != 0 :: At(v, q) == At(w, q)
  {
    One(w, Release(0));
  }

  lemma OneMoreLease(w: World, id: TurnId) returns (run: seq<Action>, v: World)
    requires At(w, 0).Idle? && id in w.db.turns && LastLease(w.db.turns[id])
    ensures Leads(w, run, v) && id in v.db.turns && v.db.turns[id].lease == w.db.turns[id].lease + 1
    ensures v.db.turns[id].status == Continuable && v.db.turns[id].model == Provider && IsSchedulerAutonomous(v.db.turns[id])
    ensures forall q | q != 0 :: At(v, q) == At(w, q)
    ensures At(v, 0).Idle?
  {
    var u;
    run, u := PicksUp(w, 0, id);
    v := GrantAndRelease(u, 0, id);
    run := Then(w, run, u, [Grant(0), Release(0), Conclude(0, false)], v);
  }

  lemma LastLeaseFromStart(c: JobCfg, now: nat) returns (run: seq<Action>, v: World)
    requires Goal(c)
    ensures Leads(Start(Jobs(c), now), run, v) && (forall q :: At(v, q).Idle?)
    ensures 0 in v.db.turns && LastLease(v.db.turns[0]) && v.db.turns[0].lease == MAX_AUTONOMOUS_LEASES - 1
  {
    var w, t, u, more := Start(Jobs(c), now), Start(Jobs(c), now), Start(Jobs(c), now), [];
    run, t := InsertedByFirst(c, now);
    FirstReleases(t, 0);
    u := After(t, [Release(0)]);
    run := Then(w, run, t, [Release(0)], u);
    more, t := OneMoreLease(u, 0);
    run := Then(w, run, u, more, t);
    more, v := OneMoreLease(t, 0);
    run := Then(w, run, t, more, v);
  }

  /** From an empty database: any number of lanes crosses the ceiling by all but one of them. */
  lemma CeilingCrossedFromStart(c: JobCfg, now: nat, lanes: seq<Pid>) returns (run: seq<Action>)
    requires Goal(c) && Distinct(lanes)
    ensures Legal(Start(Jobs(c), now), run) && 0 in After(Start(Jobs(c), now), run).db.turns
    ensures After(Start(Jobs(c), now), run).db.turns[0].lease == MAX_AUTONOMOUS_LEASES - 1 + |lanes|
  {
    var v;
    run, v := LastLeaseFromStart(c, now);
    var more := LanesCrossTheCeiling(v, lanes, 0);
    run := Then(Start(Jobs(c), now), run, v, more, After(v, more));
  }

  // An answer finished after its occurrence was moved past.

  lemma Suspends(w: World, o: Occ, tok: Token)
    requires At(w, 0) == Holding(Job(o), 0, tok, Provider, false) && HoldsRunning(w.db.turns, 0, tok)
    ensures Legal(w, [Suspend(0)]) && var v := After(w, [Suspend(0)]);
            && At(v, 0) == Ending(Job(o), Some(0), Stop(Suspended), true) && v.jobs == w.jobs && v.now == w.now
            && v.db == w.db.(turns := w.db.turns[0 := w.db.turns[0].(status := Waiting, token := None)])
            && v.past == w.past && v.procs.Keys == w.procs.Keys
  {
    One(w, Suspend(0));
  }

  lemma SettlesSuspended(w: World, o: Occ)
    requires At(w, 0) == Ending(Job(o), Some(0), Stop(Suspended), true)
    ensures var run := [Conclude(0, false), Settle(0)];
            Legal(w, run) && var v := After(w, run);
            && At(v, 0) == Advancing(o) && v.jobs == w.jobs && v.now == w.now && v.db.next == w.db.next && v.db.turns == w.db.turns
            && v.past == w.past && v.procs.Keys == w.procs.Keys && (Bound(w, o, 0) ==> Bound(v, o, 0))
  {
    Two(w, Conclude(0, false), Settle(0));
  }

  lemma MovesOn(w: World, o: Occ)
    requires At(w, 0) == Advancing(o) && o.scheduledFor <= w.now && o.job in w.jobs && o.job in w.db.next && Bound(w, o, 0)
    ensures Legal(w, [Advance(0)]) && var v := After(w, [Advance(0)]);
            && U.MovedPast(v, o) && v.jobs == w.jobs && Bound(v, o, 0) && At(v, 0).Idle?
            && v.db.turns == w.db.turns && v.past.sends == w.past.sends && v.procs.Keys == w.procs.Keys
  {
    One(w, Advance(0));
  }

  lemma LaneFinishes(w: World, o: Occ, tok: Token)
    requires At(w, 0) == Holding(Lane(false), 0, tok, Provider, false) && Bound(w, o, 0) && HoldsRunning(w.db.turns, 0, tok)
    requires w.db.turns[0].delivery == Pending && !IsSilent(w, o.job)
    ensures Legal(w, [Finish(0, Answered, true)]) && var v := After(w, [Finish(0, Answered, true)]);
            && U.Owed(v, o, 0) && v.db.next == w.db.next && v.past.sends == w.past.sends && v.procs.Keys == w.procs.Keys
            && At(v, 0).Ending?
  {
    One(w, Finish(0, Answered, true));
  }

  lemma LaneDies(w: World, o: Occ)
    requires U.Owed(w, o, 0) && At(w, 0).Ending? && w.procs.Keys == {0} && U.MovedPast(w, o)
    ensures Legal(w, [Crash(0)]) && var v := After(w, [Crash(0)]);
            U.Owed(v, o, 0) && U.LeftAlone(v, o, 0) && U.MovedPast(v, o) && v.past.sends == w.past.sends
  {
    One(w, Crash(0));
  }

  /** The lane takes up a suspended turn, finishes it, and dies before it says so. */
  lemma FinishedUnsaid(w: World, o: Occ) returns (run: seq<Action>, v: World)
    requires At(w, 0).Idle? && Bound(w, o, 0) && 0 in w.db.turns && w.db.turns[0].status == Waiting && w.procs.Keys == {0}
    requires w.db.turns[0].model == Provider && w.db.turns[0].delivery == Pending && w.db.turns[0].principal.Scheduler?
    requires !IsSilent(w, o.job) && U.MovedPast(w, o)
    ensures Leads(w, run, v) && U.Owed(v, o, 0) && U.LeftAlone(v, o, 0) && U.MovedPast(v, o) && v.past.sends == w.past.sends
  {
    run, v := PicksUp(w, 0, 0);
    var tok := v.db.tokens;
    ResumesIt(v, 0, 0);
    run := Then(w, run, v, [Resume(0)], After(v, [Resume(0)]));
    v := After(v, [Resume(0)]);
    LaneFinishes(v, o, tok);
    run := Then(w, run, v, [Finish(0, Answered, true)], After(v, [Finish(0, Answered, true)]));
    v := After(v, [Finish(0, Answered, true)]);
    LaneDies(v, o);
    run := Then(w, run, v, [Crash(0)], After(v, [Crash(0)]));
    v := After(v, [Crash(0)]);
  }

  /** From an empty database: an answer that is finished, pending, and will not be sent in any continuation. */
  lemma AnswerLostFromStart(c: JobCfg, now: nat) returns (run: seq<Action>)
    requires Goal(c)
    ensures Legal(Start(Jobs(c), now), run) && var v := After(Start(Jobs(c), now), run);
            && U.Owed(v, First(c, now), 0) && v.past.sends[0] == 0
            && forall more | Legal(v, more) :: After(v, more).past.sends[0] == 0
  {
    var w, o, t := Start(Jobs(c), now), First(c, now), Start(Jobs(c), now);
    run, t := InsertedByFirst(c, now);
    Suspends(t, o, 0);
    run := Then(w, run, t, [Suspend(0)], After(t, [Suspend(0)]));
    t := After(t, [Suspend(0)]);
    SettlesSuspended(t, o);
    var settles := [Conclude(0, false), Settle(0)];
    run := Then(w, run, t, settles, After(t, settles));
    t := After(t, settles);
    MovesOn(t, o);
    run := Then(w, run, t, [Advance(0)], After(t, [Advance(0)]));
    t := After(t, [Advance(0)]);
    var more, v := FinishedUnsaid(t, o);
    run := Then(w, run, t, more, v);
    NeverFrom(c, now, run);
  }

  lemma NeverFrom(c: JobCfg, now: nat, run: seq<Action>)
    requires Legal(Start(Jobs(c), now), run)
    requires var v := After(Start(Jobs(c), now), run); U.LeftAlone(v, First(c, now), 0) && U.MovedPast(v, First(c, now))
    ensures var v := After(Start(Jobs(c), now), run); forall more | Legal(v, more) :: After(v, more).past.sends[0] == v.past.sends[0]
  {
    var w := Start(Jobs(c), now);
    G.StartInv(Jobs(c), now);
    G.RunKeeps(w, run);
    C.StartSched(Jobs(c), now);
    C.ScheduleOnlyForward(w, run);
    var v := After(w, run);
    forall more | Legal(v, more) ensures After(v, more).past.sends[0] == v.past.sends[0] { U.LostForEver(v, more, First(c, now), 0); }
  }

  lemma LateStart(w: World, o: Occ)
    requires OldestDue(w, o) && At(w, 0).Idle?
    ensures var run := [TickStart(0, o), Throw(0), Send(0, Sent)];
            Legal(w, run) && var v := After(w, run);
            && v.jobs == w.jobs && v.db == w.db && v.now == w.now && v.past.started == w.past.started + {o}
            && At(v, 0) == Recording(Job(o), None, Sent, true)
  {
    Three(w, TickStart(0, o), Throw(0), Send(0, Sent));
  }

  lemma LateEnd(w: World, o: Occ)
    requires At(w, 0) == Recording(Job(o), None, Sent, true)
    ensures var run := [Record(0, true), Settle(0), Advance(0)];
            Legal(w, run) && var v := After(w, run); v.past.started == w.past.started && v.db.next == MarkRan(w, o.job)
  {
    Three(w, Record(0, true), Settle(0), Advance(0));
  }

  /** A tick whose runner throws: told, settled, and moved past. */
  lemma LateTick(w: World, o: Occ) returns (run: seq<Action>)
    requires OldestDue(w, o) && At(w, 0).Idle?
    ensures Legal(w, run) && var v := After(w, run); v.past.started == w.past.started + {o} && v.db.next == MarkRan(w, o.job)
  {
    LateStart(w, o);
    run := [TickStart(0, o), Throw(0), Send(0, Sent)];
    var u := After(w, run);
    LateEnd(u, o);
    var more := [Record(0, true), Settle(0), Advance(0)];
    run := Then(w, run, u, more, After(u, more));
  }

  /** From an empty database: a tick that comes a slot late passes the later slot, on which nobody ever started. */
  lemma SlotMissedFromStart(c: JobCfg, now: nat) returns (run: seq<Action>)
    requires Goal(c)
    ensures Legal(Start(Jobs(c), now), run) && var v := After(Start(Jobs(c), now), run); var missed := c.cron(c.cron(now));
            && 0 in v.db.next && v.db.next[0] > missed && Occ(0, missed) !in v.past.started
  {
    var w, missed := Start(Jobs(c), now), c.cron(c.cron(now));
    One(w, Clock(missed));
    var v := After(w, [Clock(missed)]);
    var more := LateTick(v, First(c, now));
    run := Then(w, [Clock(missed)], v, more, After(v, more));
  }
}

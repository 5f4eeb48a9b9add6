/**
 * Answers that are finished and were never sent. A suspended turn's fire is settled and moved
 * past at once (core/scheduler/scheduler.ts), so the lane is the only one left to deliver its
 * answer (agent/turn-lane.ts): if it crashes in between, no tick comes back for it. Here is
 * exactly when one still does.
 */
module Unsent {

  import opened Common
  import opened Stores
  import opened Protocol
  import opened Occurrence
  import opened Runs
  import opened Progress
  import S = Serial
  import C = Schedule

  /** A finished answer that should reach its channel and has not. */
  predicate Owed(w: World, o: Occ, id: TurnId) {
    && AwaitsDelivery(w, o, id) && w.db.turns[id].outcome != Some(Aborted)
    && !(IsSilent(w, o.job) && w.db.turns[id].outcome == Some(Answered))
  }

  // ---- Left alone ---------------------------------------------------------------------------

  /** This process has neither the occurrence nor its row in hand. */
  predicate Free(pc: PC, o: Occ, id: TurnId) { TickOcc(pc) != Some(o) && S.IdAt(pc) != Some(id) }

  /** A finished row nobody has in hand. */
  ghost predicate LeftAlone(w: World, o: Occ, id: TurnId) {
    Bound(w, o, id) && RowDone(w, id) && forall p | p in w.procs :: Free(w.procs[p], o, id)
  }

  predicate StartsOn(a: Action, o: Occ) { a.TickStart? && a.o == o }

  lemma ClaimFree(w: World, p: Pid, o: Occ, id: TurnId)
    requires At(w, p).Claiming? && Free(At(w, p), o, id) && Identity(w) && Bound(w, o, id)
    ensures Free(At(DoClaim(w, p), p), o, id)
  {
    ClaimFruitless(w, p, o, id);
  }

  lemma BindFree(w: World, p: Pid, o: Occ, id: TurnId)
    requires At(w, p).Binding? && Free(At(w, p), o, id) && Identity(w) && Bound(w, o, id) && id < w.db.ids && At(w, p).o in w.db.fires
    ensures Free(At(DoBind(w, p), p), o, id)
  {
    BindFruitless(w, p, o, id);
  }

  lemma LateTickFree(w: World, a: Action, o: Occ, id: TurnId)
    requires Enabled(w, a) && OfTick(a) && !a.Claim? && !a.Bind? && !StartsOn(a, o) && Free(At(w, a.p), o, id)
    ensures Free(At(Apply(w, a), a.p), o, id)
  {
  }

  lemma TickFree(w: World, a: Action, o: Occ, id: TurnId)
    requires Enabled(w, a) && OfTick(a) && !StartsOn(a, o) && Free(At(w, a.p), o, id)
    requires Identity(w) && Bound(w, o, id) && id < w.db.ids && (a.Bind? ==> At(w, a.p).o in w.db.fires)
    ensures Free(At(Apply(w, a), a.p), o, id)
  {
    if a.Claim? {
      ClaimFree(w, a.p, o, id);
    } else if a.Bind? {
      BindFree(w, a.p, o, id);
    } else {
      LateTickFree(w, a, o, id);
    }
  }

  lemma HolderFree(w: World, a: Action, o: Occ, id: TurnId)
    requires Enabled(w, a) && OfHolder(a) && Free(At(w, a.p), o, id)
    ensures Free(At(Apply(w, a), a.p), o, id) && At(w, a.p).id != id
  {
  }

  lemma EndFree(w: World, a: Action, o: Occ, id: TurnId)
    requires Enabled(w, a) && OfEnd(a) && Free(At(w, a.p), o, id)
    ensures Free(At(Apply(w, a), a.p), o, id)
  {
  }

  lemma OtherFree(w: World, a: Action, o: Occ, id: TurnId)
    requires Enabled(w, a) && !OfTick(a) && !OfHolder(a) && !OfEnd(a) && !Ambient(a) && Free(At(w, a.p), o, id) && RowDone(w, id)
    ensures Free(At(Apply(w, a), a.p), o, id)
  {
  }

  lemma StaysFree(w: World, a: Action, o: Occ, id: TurnId, q: Pid)
    requires Inv(w) && LeftAlone(w, o, id) && Enabled(w, a) && !StartsOn(a, o)
    ensures Free(At(Apply(w, a), q), o, id)
  {
    assert Free(At(w, q), o, id);
    if Ambient(a) || q != a.p {
      OnlyOneMoves(w, a, q);
    } else if OfTick(a) {
      BoundFacts(w, a, o, id);
      TickFree(w, a, o, id);
    } else if OfHolder(a) {
      HolderFree(w, a, o, id);
    } else if OfEnd(a) {
      EndFree(w, a, o, id);
    } else {
      OtherFree(w, a, o, id);
    }
  }

  lemma BoundFacts(w: World, a: Action, o: Occ, id: TurnId)
    requires Inv(w) && Bound(w, o, id) && Enabled(w, a)
    ensures id < w.db.ids && (a.Bind? ==> At(w, a.p).o in w.db.fires)
  {
    if a.Bind? { AtOk(w, a.p); }
  }

  lemma ContinueTouches(w: World, p: Pid, x: TurnId, id: TurnId)
    requires RowDone(w, id)
    ensures var v := DoContinue(w, p, x); id in v.db.turns && v.db.turns[id] == w.db.turns[id]
  {
  }

  lemma OtherLeavesRow(w: World, a: Action, o: Occ, id: TurnId)
    requires Enabled(w, a) && !OfTick(a) && !OfHolder(a) && !OfEnd(a) && !Ambient(a) && Free(At(w, a.p), o, id) && RowDone(w, id)
    ensures var v := Apply(w, a); id in v.db.turns && v.db.turns[id] == w.db.turns[id]
  {
    if a.Continue? { ContinueTouches(w, a.p, a.id, id); } else { OtherTouches(w, a, id); }
  }

  lemma RowLeftAlone(w: World, a: Action, o: Occ, id: TurnId)
    requires Enabled(w, a) && RowDone(w, id) && (!Ambient(a) ==> Free(At(w, a.p), o, id))
    ensures var v := Apply(w, a); id in v.db.turns && v.db.turns[id] == w.db.turns[id]
  {
    if Ambient(a) {
      OtherTouches(w, a, id);
    } else if OfTick(a) {
      TickTouches(w, a, id);
    } else if OfHolder(a) {
      HolderFree(w, a, o, id);
      HolderTouches(w, a, id);
    } else if OfEnd(a) {
      EndTouches(w, a, id);
    } else {
      OtherLeavesRow(w, a, o, id);
    }
  }

  /** A message about a finished row is the only thing that counts as an attempt at its answer. */
  lemma OnlySendsCount(w: World, a: Action, id: TurnId)
    requires Enabled(w, a)
    ensures w.past.sends[id] <= Apply(w, a).past.sends[id]
    ensures Apply(w, a).past.sends[id] > w.past.sends[id] ==> a.Send? && At(w, a.p).Ending? && At(w, a.p).turn == Some(id)
  {
  }

  lemma RowAndSendsStay(w: World, a: Action, o: Occ, id: TurnId)
    requires LeftAlone(w, o, id) && Enabled(w, a)
    ensures var v := Apply(w, a); id in v.db.turns && v.db.turns[id] == w.db.turns[id] && v.past.sends[id] == w.past.sends[id]
  {
    if !Ambient(a) { assert Free(At(w, a.p), o, id); }
    RowLeftAlone(w, a, o, id);
    OnlySendsCount(w, a, id);
  }

  lemma LeftAloneStep(w: World, a: Action, o: Occ, id: TurnId)
    requires Inv(w) && LeftAlone(w, o, id) && Enabled(w, a) && !StartsOn(a, o) && Extends(w, Apply(w, a))
    ensures var v := Apply(w, a); LeftAlone(v, o, id) && v.db.turns[id] == w.db.turns[id] && v.past.sends[id] == w.past.sends[id]
  {
    var v := Apply(w, a);
    StuckBound(w, v, o, id);
    RowAndSendsStay(w, a, o, id);
    forall q | q in v.procs ensures Free(v.procs[q], o, id) { StaysFree(w, a, o, id, q); }
  }

  predicate NeverStarts(run: seq<Action>, o: Occ) { forall i | 0 <= i < |run| :: !StartsOn(run[i], o) }

  lemma {:induction false} LeftAloneRun(w: World, run: seq<Action>, o: Occ, id: TurnId)
    requires Inv(w) && LeftAlone(w, o, id) && Legal(w, run) && NeverStarts(run, o)
    ensures var v := After(w, run); LeftAlone(v, o, id) && v.db.turns[id] == w.db.turns[id] && v.past.sends[id] == w.past.sends[id]
    decreases |run|
  {
    if run != [] {
      assert !StartsOn(run[0], o);
      assert forall i | 0 <= i < |run[1..]| :: run[1..][i] == run[i + 1];
      StepKeeps(w, run[0]);
      LeftAloneStep(w, run[0], o, id);
      LeftAloneRun(Apply(w, run[0]), run[1..], o, id);
    }
  }

  // ---- Moved past -----------------------------------------------------------------------------

  /** The schedule is not, and will never be, at this occurrence again. */
  predicate MovedPast(w: World, o: Occ) { o.job in w.db.next ==> o.scheduledFor < w.db.next[o.job] }

  lemma {:induction false} PastNeverStarts(w: World, run: seq<Action>, o: Occ)
    requires C.SchedInv(w) && MovedPast(w, o) && Legal(w, run)
    ensures NeverStarts(run, o)
    decreases |run|
  {
    if run != [] {
      C.SchedStep(w, run[0]);
      C.ForwardStep(w, run[0]);
      PastNeverStarts(Apply(w, run[0]), run[1..], o);
      forall i | 0 <= i < |run| ensures !StartsOn(run[i], o) {
        if i > 0 { assert run[i] == run[1..][i - 1]; }
      }
    }
  }

  /**
   * Once the schedule has moved past it, a finished answer nobody has in hand is never sent,
   * in any run at all: no crash, throw, race or resume by the owner brings it back.
   */
  lemma LostForEver(w: World, run: seq<Action>, o: Occ, id: TurnId)
    requires Inv(w) && C.SchedInv(w) && LeftAlone(w, o, id) && MovedPast(w, o) && Legal(w, run)
    ensures var v := After(w, run); v.past.sends[id] == w.past.sends[id] && id in v.db.turns && v.db.turns[id] == w.db.turns[id]
  {
    PastNeverStarts(w, run, o);
    LeftAloneRun(w, run, o, id);
  }

  // ---- Still to be sent -------------------------------------------------------------------------

  /** A run without a throw or the owner in which the answer is attempted. */
  ghost predicate SendsBy(w: World, id: TurnId, run: seq<Action>) {
    Legal(w, run) && CalmRun(run) && After(w, run).past.sends[id] > w.past.sends[id]
  }

  lemma {:induction false} SendsOnlyGrow(w: World, run: seq<Action>, id: TurnId)
    requires Legal(w, run)
    ensures w.past.sends[id] <= After(w, run).past.sends[id]
    decreases |run|
  {
    if run != [] {
      OnlySendsCount(w, run[0], id);
      SendsOnlyGrow(Apply(w, run[0]), run[1..], id);
    }
  }

  lemma FoundIsSent(w: World, p: Pid, o: Occ, id: TurnId)
    requires At(w, p) == LookupPC(w, o, id) && Owed(w, o, id)
    ensures Legal(w, [Send(p, Sent)]) && After(w, [Send(p, Sent)]).past.sends[id] == w.past.sends[id] + 1
  {
    One(w, Send(p, Sent));
  }

  lemma DueIsSent(w: World, o: Occ, id: TurnId) returns (run: seq<Action>)
    requires OldestDue(w, o) && At(w, 0).Idle? && Owed(w, o, id)
    ensures Legal(w, run) && CalmRun(run) && After(w, run).past.sends[id] == w.past.sends[id] + 1
  {
    var v;
    run, v := TickLooksUp(w, 0, o, id);
    FoundIsSent(v, 0, o, id);
    run := Then(w, run, v, [Send(0, Sent)], After(v, [Send(0, Sent)]));
  }

  lemma StillOwed(w: World, v: World, o: Occ, id: TurnId)
    requires Owed(w, o, id) && Alike(w, v, o) && v.jobs == w.jobs
    ensures Owed(v, o, id)
  {
  }

  /** One run after another, the second of which sends. */
  lemma SendsAfter(w: World, run: seq<Action>, v: World, more: seq<Action>, id: TurnId)
    requires Brings(w, run, v) && Legal(v, more) && CalmRun(more) && After(v, more).past.sends[id] > v.past.sends[id]
    ensures SendsBy(w, id, run + more)
  {
    SendsOnlyGrow(w, run, id);
    Concat(w, run, more);
  }

  lemma InTurnIsSent(w: World, o: Occ, id: TurnId) returns (run: seq<Action>)
    requires Resting(w) && Owed(w, o, id) && DueNow(w, o) && NoneStuckBefore(w, o)
    ensures SendsBy(w, id, run)
  {
    var v;
    run, v := OlderEnd(w, o);
    StillOwed(w, v, o, id);
    var more := DueIsSent(v, o, id);
    SendsAfter(w, run, v, more, id);
    run := run + more;
  }

  lemma RestingAlone(w: World, o: Occ, id: TurnId)
    requires Resting(w) && Owed(w, o, id)
    ensures LeftAlone(w, o, id) && (DueNow(w, o) || MovedPast(w, o))
  {
  }

  /**
   * From every reachable world at rest, an owed answer can still be sent without a throw or
   * the owner if and only if its occurrence is still due and no older due one is stuck.
   */
  lemma SentIffStillDue(w: World, o: Occ, id: TurnId)
    requires Resting(w) && Owed(w, o, id)
    ensures (exists run :: SendsBy(w, id, run)) <==> DueNow(w, o) && NoneStuckBefore(w, o)
  {
    RestingAlone(w, o, id);
    if !DueNow(w, o) {
      forall run | Legal(w, run) ensures !SendsBy(w, id, run) { LostForEver(w, run, o, id); }
    } else if j :| j in Older(w, o) && Stuck(w, Occ(j, w.db.next[j])) {
      var x := Occ(j, w.db.next[j]);
      RestingBlocks(w, x);
      RestingUntried(w, o);
      forall run | Legal(w, run) && CalmRun(run) ensures !SendsBy(w, id, run) {
        BlockedForEver(w, run, x, w.db.fires[x].turnId.value, o);
        LeftAloneRun(w, run, o, id);
      }
    } else {
      var run := InTurnIsSent(w, o, id);
      assert SendsBy(w, id, run);
    }
  }
}

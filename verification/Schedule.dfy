/**
 * Which slots of a job are served. `markRan` (core/scheduler/jobs.ts) counts the next fire
 * from now and names no occurrence, so the schedule can pass slots nobody served; here is
 * exactly when it does, and that what it passed unserved stays so.
 */
module Schedule {

  import opened Common
  import opened Stores
  import opened Protocol
  import opened Occurrence
  import opened Guarantees

  // ---- Slots --------------------------------------------------------------------------

  /** A moment the cron fires at. */
  predicate Slot(cron: Cron, s: nat) { s > 0 && cron(s - 1) == s }

  lemma NextIsSlot(cron: Cron, t: nat)
    ensures Slot(cron, cron(t)) && cron(t) > t
  {
    assert t <= cron(t) - 1 < cron(t);
  }

  lemma NextIsFirst(cron: Cron, t: nat, s: nat)
    requires Slot(cron, s) && t < s
    ensures cron(t) <= s
  {
    if s - 1 < cron(t) { assert cron(s - 1) == cron(t); }
  }

  lemma NextMonotone(cron: Cron, t: nat, u: nat)
    requires t <= u
    ensures cron(t) <= cron(u)
  {
    if u < cron(t) { assert cron(u) == cron(t); }
  }

  predicate Recurring(w: World, j: JobId) { j in w.jobs && !w.jobs[j].once }

  predicate Settled(w: World, o: Occ) { o in w.db.fires && w.db.fires[o].settled }

  // ---- What every run keeps --------------------------------------------------------------

  /** `next_fire_at` is a slot no later than the first one still to come. */
  ghost predicate NextOk(w: World) {
    && (forall j | Recurring(w, j) :: j in w.db.next)
    && (forall j | j in w.db.next ::
          j in w.jobs && (!w.jobs[j].once ==> Slot(w.jobs[j].cron, w.db.next[j]) && w.db.next[j] <= w.jobs[j].cron(w.now)))
  }

  ghost predicate StartedOk(w: World) {
    forall o | o in w.past.started && o.job in w.db.next :: o.scheduledFor <= w.db.next[o.job]
  }

  /** Only an occurrence some tick started on has a fire, a runner, or a notice. */
  ghost predicate TouchedOk(w: World) {
    && w.db.fires.Keys <= w.past.started && w.past.marked <= w.past.started
    && (forall p | p in w.procs && TickOcc(w.procs[p]).Some? :: TickOcc(w.procs[p]).value in w.past.started)
    && (forall o | w.past.notices[o] > 0 :: o in w.past.started)
  }

  /** A tick starts on what has come, and the schedule has left behind what it was moved for. */
  ghost predicate PassedOk(w: World) {
    && (forall o | o in w.past.started :: o.scheduledFor <= w.now)
    && (forall o | o in w.past.marked && o.job in w.db.next :: o.scheduledFor < w.db.next[o.job])
  }

  ghost predicate SchedInv(w: World) { NextOk(w) && StartedOk(w) && TouchedOk(w) && PassedOk(w) }

  predicate MovesSchedule(a: Action) { a.TickStart? || a.Advance? || a.Clock? }

  predicate SameSchedule(w: World, v: World) {
    v.db.next == w.db.next && v.now == w.now && v.past.started == w.past.started && v.past.marked == w.past.marked
  }

  lemma TickKeepsSchedule(w: World, a: Action)
    requires Enabled(w, a) && !MovesSchedule(a) && OfTick(a)
    ensures SameSchedule(w, Apply(w, a)) && Apply(w, a).jobs == w.jobs
  {
  }

  lemma HolderKeepsSchedule(w: World, a: Action)
    requires Enabled(w, a) && !MovesSchedule(a) && OfHolder(a)
    ensures SameSchedule(w, Apply(w, a)) && Apply(w, a).jobs == w.jobs
  {
  }

  lemma SendKeepsSchedule(w: World, p: Pid, d: Delivery)
    requires At(w, p).Ending?
    ensures SameSchedule(w, DoSend(w, p, d)) && DoSend(w, p, d).jobs == w.jobs
  {
  }

  lemma RecordKeepsSchedule(w: World, p: Pid, lands: bool)
    requires At(w, p).Recording?
    ensures SameSchedule(w, DoRecord(w, p, lands)) && DoRecord(w, p, lands).jobs == w.jobs
  {
  }

  lemma SettleKeepsSchedule(w: World, p: Pid)
    requires At(w, p).Settling?
    ensures SameSchedule(w, DoSettle(w, p)) && DoSettle(w, p).jobs == w.jobs
  {
  }

  lemma ConcludeKeepsSchedule(w: World, p: Pid, out: bool)
    requires At(w, p).Ending? && !EndVerdict(w, At(w, p), out).Speak?
    ensures SameSchedule(w, DoConclude(w, p, out)) && DoConclude(w, p, out).jobs == w.jobs
  {
  }

  lemma ResumeKeepsSchedule(w: World, p: Pid)
    requires At(w, p).Resuming?
    ensures SameSchedule(w, DoResume(w, p)) && DoResume(w, p).jobs == w.jobs
  {
  }

  lemma GrantKeepsSchedule(w: World, p: Pid)
    requires At(w, p).Granting?
    ensures SameSchedule(w, DoGrant(w, p)) && DoGrant(w, p).jobs == w.jobs
  {
  }

  lemma ContinueKeepsSchedule(w: World, p: Pid, id: TurnId)
    ensures SameSchedule(w, DoContinue(w, p, id)) && DoContinue(w, p, id).jobs == w.jobs
  {
  }

  lemma CrashKeepsSchedule(w: World, p: Pid)
    ensures SameSchedule(w, DoCrash(w, p)) && DoCrash(w, p).jobs == w.jobs
  {
  }

  lemma EndKeepsSchedule(w: World, a: Action)
    requires Enabled(w, a) && !MovesSchedule(a) && OfEnd(a)
    ensures SameSchedule(w, Apply(w, a)) && Apply(w, a).jobs == w.jobs
  {
    match a
    case Send(p, d) => SendKeepsSchedule(w, p, d);
    case Record(p, lands) => RecordKeepsSchedule(w, p, lands);
    case Settle(p) => SettleKeepsSchedule(w, p);
    case Conclude(p, out) => ConcludeKeepsSchedule(w, p, out);
  }

  lemma OtherKeepsSchedule(w: World, a: Action)
    requires Enabled(w, a) && !MovesSchedule(a) && !OfTick(a) && !OfHolder(a) && !OfEnd(a)
    ensures SameSchedule(w, Apply(w, a)) && Apply(w, a).jobs == w.jobs
  {
    match a
    case LanePick(p, id, _) =>
    case LaneRead(p) =>
    case Resume(p) => ResumeKeepsSchedule(w, p);
    case Grant(p) => GrantKeepsSchedule(w, p);
    case Continue(p, id) => ContinueKeepsSchedule(w, p, id);
    case Crash(p) => CrashKeepsSchedule(w, p);
    case Reclaim(_) =>
    case Wake(_) =>
  }

  lemma OthersKeepSchedule(w: World, a: Action)
    requires Enabled(w, a) && !MovesSchedule(a)
    ensures SameSchedule(w, Apply(w, a)) && Apply(w, a).jobs == w.jobs
  {
    if OfTick(a) {
      TickKeepsSchedule(w, a);
    } else if OfHolder(a) {
      HolderKeepsSchedule(w, a);
    } else if OfEnd(a) {
      EndKeepsSchedule(w, a);
    } else {
      OtherKeepsSchedule(w, a);
    }
  }

  lemma OthersTouch(w: World, a: Action)
    requires Enabled(w, a) && !MovesSchedule(a)
    ensures var v := Apply(w, a);
            && (forall o | o in v.db.fires :: o in w.db.fires || (!Ambient(a) && TickOcc(At(w, a.p)) == Some(o)))
            && (forall o | v.past.notices[o] > 0 :: w.past.notices[o] > 0 || (!Ambient(a) && TickOcc(At(w, a.p)) == Some(o)))
  {
  }

  /** No process changes occurrence but by starting on one. */
  predicate StaysOn(w: World, v: World, p: Pid) {
    p in v.procs && TickOcc(v.procs[p]).Some? ==> p in w.procs && TickOcc(w.procs[p]) == TickOcc(v.procs[p])
  }

  lemma TickStaysOn(w: World, a: Action, p: Pid)
    requires Enabled(w, a) && !MovesSchedule(a) && OfTick(a)
    ensures StaysOn(w, Apply(w, a), p)
  {
  }

  lemma HolderStaysOn(w: World, a: Action, p: Pid)
    requires Enabled(w, a) && !MovesSchedule(a) && OfHolder(a)
    ensures StaysOn(w, Apply(w, a), p)
  {
  }

  lemma EndStaysOn(w: World, a: Action, p: Pid)
    requires Enabled(w, a) && !MovesSchedule(a) && OfEnd(a)
    ensures StaysOn(w, Apply(w, a), p)
  {
  }

  lemma OtherStaysOn(w: World, a: Action, p: Pid)
    requires Enabled(w, a) && !MovesSchedule(a) && !OfTick(a) && !OfHolder(a) && !OfEnd(a)
    ensures StaysOn(w, Apply(w, a), p)
  {
  }

  lemma OthersStay(w: World, a: Action, p: Pid)
    requires Enabled(w, a) && !MovesSchedule(a)
    ensures StaysOn(w, Apply(w, a), p)
  {
    if OfTick(a) {
      TickStaysOn(w, a, p);
    } else if OfHolder(a) {
      HolderStaysOn(w, a, p);
    } else if OfEnd(a) {
      EndStaysOn(w, a, p);
    } else {
      OtherStaysOn(w, a, p);
    }
  }

  lemma OtherStep(w: World, a: Action)
    requires SchedInv(w) && Enabled(w, a) && !MovesSchedule(a)
    ensures SchedInv(Apply(w, a))
  {
    var v := Apply(w, a);
    OthersKeepSchedule(w, a);
    OthersTouch(w, a);
    forall p | p in v.procs && TickOcc(v.procs[p]).Some? ensures TickOcc(v.procs[p]).value in v.past.started {
      OthersStay(w, a, p);
    }
  }

  lemma StartStep(w: World, p: Pid, o: Occ)
    requires SchedInv(w) && Enabled(w, TickStart(p, o))
    ensures SchedInv(DoTickStart(w, p, o))
  {
  }

  lemma ClockStep(w: World, to: nat)
    requires SchedInv(w) && w.now <= to
    ensures SchedInv(w.(now := to))
  {
    forall j | Recurring(w, j) ensures w.db.next[j] <= w.jobs[j].cron(to) { NextMonotone(w.jobs[j].cron, w.now, to); }
  }

  /** No fire time goes back, no retired job returns, and settled fires stay settled. */
  ghost predicate Forward(w: World, v: World) {
    && v.jobs == w.jobs && w.now <= v.now && w.past.started <= v.past.started
    && (forall j | j in v.db.next :: j in w.db.next && w.db.next[j] <= v.db.next[j])
  }

  lemma AdvanceNextOk(w: World, p: Pid)
    requires NextOk(w) && At(w, p).Advancing?
    ensures NextOk(DoAdvance(w, p))
  {
    var j := At(w, p).o.job;
    if j in w.jobs { NextIsSlot(w.jobs[j].cron, w.now); }
  }

  lemma AdvanceForward(w: World, p: Pid)
    requires NextOk(w) && At(w, p).Advancing?
    ensures Forward(w, DoAdvance(w, p))
  {
  }

  lemma AdvanceTouched(w: World, p: Pid)
    requires TouchedOk(w) && At(w, p).Advancing?
    ensures TouchedOk(DoAdvance(w, p)) && DoAdvance(w, p).past.started == w.past.started
  {
  }

  lemma AdvanceStep(w: World, p: Pid)
    requires SchedInv(w) && At(w, p).Advancing?
    ensures SchedInv(DoAdvance(w, p))
  {
    AdvanceNextOk(w, p);
    AdvanceForward(w, p);
    AdvanceTouched(w, p);
  }

  lemma SchedStep(w: World, a: Action)
    requires SchedInv(w) && Enabled(w, a)
    ensures SchedInv(Apply(w, a))
  {
    if a.TickStart? {
      StartStep(w, a.p, a.o);
    } else if a.Clock? {
      ClockStep(w, a.to);
    } else if a.Advance? {
      AdvanceStep(w, a.p);
    } else {
      OtherStep(w, a);
    }
  }

  lemma StartSched(jobs: map<JobId, JobCfg>, now: nat)
    ensures SchedInv(Start(jobs, now))
  {
    forall j | j in jobs ensures Slot(jobs[j].cron, jobs[j].cron(now)) { NextIsSlot(jobs[j].cron, now); }
  }

  // ---- The schedule only moves forward ------------------------------------------------------

  lemma ForwardStep(w: World, a: Action)
    requires SchedInv(w) && Enabled(w, a)
    ensures Forward(w, Apply(w, a))
  {
    if a.Advance? {
      AdvanceForward(w, a.p);
    } else if !MovesSchedule(a) {
      OthersKeepSchedule(w, a);
    }
  }

  lemma {:induction false} ScheduleOnlyForward(w: World, run: seq<Action>)
    requires SchedInv(w) && Legal(w, run)
    ensures SchedInv(After(w, run)) && Forward(w, After(w, run))
    decreases |run|
  {
    if run != [] {
      SchedStep(w, run[0]);
      ForwardStep(w, run[0]);
      ScheduleOnlyForward(Apply(w, run[0]), run[1..]);
    }
  }

  // ---- What it passes -----------------------------------------------------------------------

  /** `markRan` on this job, now, would pass a slot that is not settled: late by a slot, or ahead of its runner. */
  predicate Skips(w: World, j: JobId) {
    && Recurring(w, j) && j in w.db.next && w.db.next[j] <= w.now
    && (w.jobs[j].cron(w.db.next[j]) <= w.now || !Settled(w, Occ(j, w.db.next[j])))
  }

  /** A slot the schedule goes past between two worlds without its being settled. */
  ghost predicate PassesUnsettled(w: World, v: World, j: JobId, s: nat) {
    && Recurring(w, j) && j in w.db.next && j in v.db.next
    && Slot(w.jobs[j].cron, s) && w.db.next[j] <= s < v.db.next[j] && !Settled(w, Occ(j, s))
  }

  /** The slots `markRan` passes are exactly those from the due one up to now. */
  lemma MarkRanPasses(w: World, p: Pid, s: nat)
    requires SchedInv(w) && At(w, p).Advancing?
    requires var j := At(w, p).o.job; Recurring(w, j) && Slot(w.jobs[j].cron, s) && w.db.next[j] <= s
    ensures s < DoAdvance(w, p).db.next[At(w, p).o.job] <==> s <= w.now
    ensures Occ(At(w, p).o.job, s) in w.past.started ==> s == w.db.next[At(w, p).o.job]
  {
    var cron := w.jobs[At(w, p).o.job].cron;
    if w.now < s { NextIsFirst(cron, w.now, s); }
    NextIsSlot(cron, w.now);
  }

  /** It passes one unsettled if and only if the guard says so. */
  lemma MarkRanSkips(w: World, p: Pid)
    requires SchedInv(w) && At(w, p).Advancing?
    ensures var j := At(w, p).o.job; (exists s: nat :: PassesUnsettled(w, DoAdvance(w, p), j, s)) <==> Skips(w, j)
  {
    var j, v := At(w, p).o.job, DoAdvance(w, p);
    if Recurring(w, j) {
      var cron, n := w.jobs[j].cron, w.db.next[j];
      if s: nat :| PassesUnsettled(w, v, j, s) {
        MarkRanPasses(w, p, s);
        if n < s { NextIsFirst(cron, n, s); }
      }
      if Skips(w, j) {
        var s := if Settled(w, Occ(j, n)) then cron(n) else n;
        NextIsSlot(cron, n);
        MarkRanPasses(w, p, s);
        assert PassesUnsettled(w, v, j, s);
      }
    }
  }

  /** A slot passed before any tick started on it has no fire, no row and no notice, ever. */
  lemma PassedForEver(w: World, run: seq<Action>, j: JobId, s: nat)
    requires SchedInv(w) && Legal(w, run) && Recurring(w, j) && s < w.db.next[j] && Occ(j, s) !in w.past.started
    ensures var v := After(w, run); var o := Occ(j, s);
            o !in v.past.started && o !in v.db.fires && o !in v.past.marked && v.past.notices[o] == 0
    decreases |run|
  {
    if run != [] {
      var v := Apply(w, run[0]);
      SchedStep(w, run[0]);
      ForwardStep(w, run[0]);
      NeverStartedBehind(w, run[0], Occ(j, s));
      PassedForEver(v, run[1..], j, s);
    }
  }

  lemma NeverStartedBehind(w: World, a: Action, o: Occ)
    requires Enabled(w, a) && o.job in w.db.next && o.scheduledFor < w.db.next[o.job] && o !in w.past.started
    ensures o !in Apply(w, a).past.started
  {
    if !MovesSchedule(a) {
      OthersKeepSchedule(w, a);
    } else if a.TickStart? {
      assert a.o != o;
    }
  }

  // ---- Over whole runs ------------------------------------------------------------------------

  /** Every slot the schedule has gone past since the jobs were added is settled. */
  ghost predicate PassedSettled(w: World, first: map<JobId, nat>) {
    forall j, s: nat | Recurring(w, j) && j in first && j in w.db.next && Slot(w.jobs[j].cron, s) && first[j] <= s < w.db.next[j] ::
      Settled(w, Occ(j, s))
  }

  ghost predicate AlwaysSettled(w: World, first: map<JobId, nat>, run: seq<Action>)
    requires Legal(w, run)
    decreases |run|
  {
    PassedSettled(w, first) && (run == [] || AlwaysSettled(Apply(w, run[0]), first, run[1..]))
  }

  /** Nobody calls `markRan` when it would skip. */
  predicate Prompt(w: World, a: Action) { a.Advance? && At(w, a.p).Advancing? ==> !Skips(w, At(w, a.p).o.job) }

  ghost predicate PromptRun(w: World, run: seq<Action>)
    requires Legal(w, run)
    decreases |run|
  {
    run == [] || (Prompt(w, run[0]) && PromptRun(Apply(w, run[0]), run[1..]))
  }

  lemma PassedOther(w: World, a: Action, first: map<JobId, nat>)
    requires Inv(w) && SchedInv(w) && Enabled(w, a) && !a.Advance? && PassedSettled(w, first)
    ensures PassedSettled(Apply(w, a), first)
  {
    var v := Apply(w, a);
    StepKeeps(w, a);
    if !MovesSchedule(a) { OthersKeepSchedule(w, a); }
    forall j, s: nat | Recurring(v, j) && j in first && j in v.db.next && Slot(v.jobs[j].cron, s) && first[j] <= s < v.db.next[j]
      ensures Settled(v, Occ(j, s))
    {
      assert Settled(w, Occ(j, s));
    }
  }

  /** The schedule is behind the first fire only before it began. */
  ghost predicate Begun(w: World, first: map<JobId, nat>) {
    forall j | j in first && j in w.db.next :: first[j] <= w.db.next[j]
  }

  lemma PassedAdvance(w: World, p: Pid, first: map<JobId, nat>)
    requires SchedInv(w) && At(w, p).Advancing? && PassedSettled(w, first) && Begun(w, first) && At(w, p).o.job in first
    ensures PassedSettled(DoAdvance(w, p), first) <==> !Skips(w, At(w, p).o.job)
  {
    var j, v := At(w, p).o.job, DoAdvance(w, p);
    MarkRanSkips(w, p);
    if Skips(w, j) {
      var s: nat :| PassesUnsettled(w, v, j, s);
      assert first[j] <= s < v.db.next[j] && !Settled(v, Occ(j, s));
    } else {
      forall k, s: nat | Recurring(v, k) && k in first && k in v.db.next && Slot(v.jobs[k].cron, s) && first[k] <= s < v.db.next[k]
        ensures Settled(v, Occ(k, s))
      {
        if k == j && w.db.next[j] <= s {
          assert !PassesUnsettled(w, v, j, s);
        } else {
          assert Settled(w, Occ(k, s));
        }
      }
    }
  }

  lemma AdvancingIsOfAJob(w: World, p: Pid, first: map<JobId, nat>)
    requires SchedInv(w) && At(w, p).Advancing? && (forall o | o in w.past.started :: o.job in first)
    ensures At(w, p).o.job in first
  {
  }

  lemma {:induction false} SettledIffPrompt(w: World, first: map<JobId, nat>, run: seq<Action>)
    requires Inv(w) && SchedInv(w) && Legal(w, run) && PassedSettled(w, first) && Begun(w, first) && w.jobs.Keys == first.Keys
    requires forall o | o in w.past.started :: o.job in first
    ensures AlwaysSettled(w, first, run) <==> PromptRun(w, run)
    decreases |run|
  {
    if run != [] {
      var a, v := run[0], Apply(w, run[0]);
      StepKeeps(w, a);
      SchedStep(w, a);
      ForwardStep(w, a);
      StartsOnJobs(w, a, first);
      if a.Advance? {
        AdvancingIsOfAJob(w, a.p, first);
        PassedAdvance(w, a.p, first);
      } else {
        PassedOther(w, a, first);
      }
      if PassedSettled(v, first) { SettledIffPrompt(v, first, run[1..]); }
    }
  }

  lemma StartsOnJobs(w: World, a: Action, first: map<JobId, nat>)
    requires Enabled(w, a) && w.jobs.Keys == first.Keys && forall o | o in w.past.started :: o.job in first
    ensures forall o | o in Apply(w, a).past.started :: o.job in first
  {
    if !MovesSchedule(a) { OthersKeepSchedule(w, a); }
  }

  /**
   * "No slot is passed in silence" fails; over any run from a fresh database it holds at
   * every moment, of every slot of every recurring job, if and only if no runner moves the
   * schedule while a later slot has already come, or while the due one is not settled.
   */
  lemma NoSlotSkippedIffPrompt(jobs: map<JobId, JobCfg>, now: nat, run: seq<Action>)
    requires Legal(Start(jobs, now), run)
    ensures AlwaysSettled(Start(jobs, now), FirstFires(jobs, now), run) <==> PromptRun(Start(jobs, now), run)
  {
    StartInv(jobs, now);
    StartSched(jobs, now);
    SettledIffPrompt(Start(jobs, now), FirstFires(jobs, now), run);
  }
}

/**
 * Three promises about messages that the code does not keep in every interleaving, each with
 * the guard that separates the runs that keep it from those that do not: a job is announced
 * as failed only if it failed, a row marked as delivered was really sent, and an answer
 * whose records are not lost is sent once.
 */
module Messages {

  import opened Common
  import opened Stores
  import opened Protocol
  import opened Occurrence
  import opened Guarantees
  import P = Progress
  import S = Serial
  import R = Runs

  // ---- Failure notices ------------------------------------------------------------------

  /** A call of the runner throws, or its insert meets a row somebody else wrote. */
  predicate Fails(w: World, a: Action) {
    a.Throw? || (a.Create? && At(w, a.p).Creating? && At(w, a.p).id in w.db.turns)
  }

  ghost predicate NoFailure(w: World, run: seq<Action>)
    requires Legal(w, run)
    decreases |run|
  {
    run == [] || (!Fails(w, run[0]) && NoFailure(Apply(w, run[0]), run[1..]))
  }

  /** A tick holds, or has sent, words that name no turn: "the job failed". */
  predicate Nameless(pc: PC) {
    || (pc.Ending? && pc.side.Job? && pc.turn.None?)
    || (pc.Recording? && pc.side.Job? && pc.turn.None?)
  }

  ghost predicate NobodyFailed(w: World) {
    (forall p | p in w.procs :: !Nameless(w.procs[p])) && forall o :: w.past.notices[o] == 0
  }

  ghost predicate NobodyEverFailed(w: World, run: seq<Action>)
    requires Legal(w, run)
    decreases |run|
  {
    NobodyFailed(w) && (run == [] || NobodyEverFailed(Apply(w, run[0]), run[1..]))
  }

  /** A failure leaves the words, and the next message of that process sends them. */
  lemma FailureIsAnnounced(w: World, a: Action, d: Delivery)
    requires Enabled(w, a) && Fails(w, a) && d in {Sent, PossiblySent, Failed}
    ensures Nameless(At(Apply(w, a), a.p))
    ensures var o := Trying(At(w, a.p)).value; var v := DoSend(Apply(w, a), a.p, d);
            Enabled(Apply(w, a), Send(a.p, d)) && v.past.notices[o] == w.past.notices[o] + 1
  {
  }

  lemma TickFailsOnly(w: World, a: Action)
    requires Enabled(w, a) && OfTick(a) && !Fails(w, a) && NobodyFailed(w)
    ensures NobodyFailed(Apply(w, a))
  {
  }

  lemma HolderNames(w: World, a: Action)
    requires Enabled(w, a) && OfHolder(a) && NobodyFailed(w)
    ensures NobodyFailed(Apply(w, a))
  {
  }

  lemma SendNames(w: World, p: Pid, d: Delivery)
    requires Enabled(w, Send(p, d)) && NobodyFailed(w)
    ensures NobodyFailed(DoSend(w, p, d))
  {
    assert !Nameless(At(w, p));
  }

  lemma RecordNames(w: World, p: Pid, lands: bool)
    requires At(w, p).Recording? && NobodyFailed(w)
    ensures NobodyFailed(DoRecord(w, p, lands))
  {
  }

  lemma EndNames(w: World, a: Action)
    requires Enabled(w, a) && OfEnd(a) && NobodyFailed(w)
    ensures NobodyFailed(Apply(w, a))
  {
    match a
    case Send(p, d) => SendNames(w, p, d);
    case Record(p, lands) => RecordNames(w, p, lands);
    case Conclude(_, _) =>
    case Settle(_) =>
    case Advance(_) =>
  }

  lemma OtherNames(w: World, a: Action)
    requires Enabled(w, a) && !OfTick(a) && !OfHolder(a) && !OfEnd(a) && NobodyFailed(w)
    ensures NobodyFailed(Apply(w, a))
  {
  }

  lemma FailureStep(w: World, a: Action)
    requires Enabled(w, a) && NobodyFailed(w)
    ensures NobodyFailed(Apply(w, a)) <==> !Fails(w, a)
  {
    if Fails(w, a) {
      FailureIsAnnounced(w, a, Sent);
      assert Nameless(At(Apply(w, a), a.p)) && a.p in Apply(w, a).procs;
    } else if OfTick(a) {
      TickFailsOnly(w, a);
    } else if OfHolder(a) {
      HolderNames(w, a);
    } else if OfEnd(a) {
      EndNames(w, a);
    } else {
      OtherNames(w, a);
    }
  }

  lemma {:induction false} FailuresOnly(w: World, run: seq<Action>)
    requires Legal(w, run) && NobodyFailed(w)
    ensures NobodyEverFailed(w, run) <==> NoFailure(w, run)
    decreases |run|
  {
    if run != [] {
      FailureStep(w, run[0]);
      if NobodyFailed(Apply(w, run[0])) { FailuresOnly(Apply(w, run[0]), run[1..]); }
    }
  }

  /**
   * In any run, however ticks race: nobody holds or sends a failure notice at any moment if
   * and only if no call threw and no insert met a row already there.
   */
  lemma NoticesExactlyFromFailures(jobs: map<JobId, JobCfg>, now: nat, run: seq<Action>)
    requires Legal(Start(jobs, now), run)
    ensures NobodyEverFailed(Start(jobs, now), run) <==> NoFailure(Start(jobs, now), run)
  {
    FailuresOnly(Start(jobs, now), run);
  }

  lemma {:induction false} EverIsLast(w: World, run: seq<Action>)
    requires Legal(w, run) && NobodyEverFailed(w, run)
    ensures NobodyFailed(After(w, run))
    decreases |run|
  {
    if run != [] { EverIsLast(Apply(w, run[0]), run[1..]); }
  }

  predicate NoThrow(run: seq<Action>) { forall i | 0 <= i < |run| :: !run[i].Throw? }

  lemma {:induction false} SerialNeverConflicts(w: World, run: seq<Action>)
    requires Inv(w) && S.SInv(w) && S.SerialRun(w, run) && NoThrow(run)
    ensures Legal(w, run) && NoFailure(w, run)
    decreases |run|
  {
    S.SerialIsLegal(w, run);
    if run != [] {
      assert !run[0].Throw?;
      if run[0].Create? { assert S.Knows(w, At(w, run[0].p)); }
      StepKeeps(w, run[0]);
      S.SerialStep(w, run[0]);
      assert NoThrow(run[1..]);
      SerialNeverConflicts(Apply(w, run[0]), run[1..]);
    }
  }

  /** With each occurrence worked on by one process at a time and nothing thrown, no job is announced as failed. */
  lemma SerialNeverAnnounces(jobs: map<JobId, JobCfg>, now: nat, run: seq<Action>, o: Occ)
    requires S.SerialRun(Start(jobs, now), run) && NoThrow(run)
    ensures Legal(Start(jobs, now), run) && After(Start(jobs, now), run).past.notices[o] == 0
  {
    StartInv(jobs, now);
    S.StartSerial(jobs, now);
    SerialNeverConflicts(Start(jobs, now), run);
    FailuresOnly(Start(jobs, now), run);
    EverIsLast(Start(jobs, now), run);
  }

  // ---- Hidden answers ---------------------------------------------------------------------

  /** A finished answer the table calls delivered although nobody ever attempted it. */
  ghost predicate Hidden(w: World) {
    exists id :: RowDone(w, id) && Resolved(w.db.turns[id].delivery) && w.past.sends[id] == 0
  }

  /**
   * The check missing before a message about a turn is recorded as its delivery: it is the
   * finished turn's own answer, not a refusal or an outcome that came too late, unless that
   * answer was attempted before.
   */
  predicate Guarded(w: World, a: Action) {
    a.Send? && At(w, a.p).Ending? && At(w, a.p).turn.Some? ==> Answers(At(w, a.p).end) || w.past.sends[At(w, a.p).turn.value] > 0
  }

  ghost predicate GuardedRun(w: World, run: seq<Action>)
    requires Legal(w, run)
    decreases |run|
  {
    run == [] || (Guarded(w, run[0]) && GuardedRun(Apply(w, run[0]), run[1..]))
  }

  predicate RecordsSent(w: World, pc: PC) { pc.Recording? && pc.turn.Some? ==> w.past.sends[pc.turn.value] > 0 }

  ghost predicate NothingHidden(w: World) {
    && (forall id | id in w.db.turns && Resolved(w.db.turns[id].delivery) :: w.past.sends[id] > 0)
    && (forall p | p in w.procs :: RecordsSent(w, w.procs[p]))
  }

  lemma TickHides(w: World, a: Action)
    requires Enabled(w, a) && OfTick(a) && NothingHidden(w)
    ensures NothingHidden(Apply(w, a))
  {
  }

  lemma HolderHides(w: World, a: Action)
    requires Enabled(w, a) && OfHolder(a) && NothingHidden(w)
    ensures NothingHidden(Apply(w, a))
  {
  }

  lemma SendHides(w: World, p: Pid, d: Delivery)
    requires Enabled(w, Send(p, d)) && Guarded(w, Send(p, d)) && NothingHidden(w)
    ensures NothingHidden(DoSend(w, p, d))
  {
  }

  lemma RecordHides(w: World, p: Pid, lands: bool)
    requires At(w, p).Recording? && NothingHidden(w)
    ensures NothingHidden(DoRecord(w, p, lands))
  {
  }

  lemma EndHides(w: World, a: Action)
    requires Enabled(w, a) && OfEnd(a) && Guarded(w, a) && NothingHidden(w)
    ensures NothingHidden(Apply(w, a))
  {
    match a
    case Send(p, d) => SendHides(w, p, d);
    case Record(p, lands) => RecordHides(w, p, lands);
    case _ =>
  }

  lemma ResumeHides(w: World, p: Pid)
    requires NothingHidden(w) && At(w, p).Resuming?
    ensures NothingHidden(DoResume(w, p))
  {
  }

  lemma GrantHides(w: World, p: Pid)
    requires NothingHidden(w) && At(w, p).Granting?
    ensures NothingHidden(DoGrant(w, p))
  {
  }

  lemma ContinueHides(w: World, p: Pid, id: TurnId)
    requires NothingHidden(w)
    ensures NothingHidden(DoContinue(w, p, id))
  {
  }

  lemma CrashHides(w: World, p: Pid)
    requires NothingHidden(w)
    ensures NothingHidden(DoCrash(w, p))
  {
  }

  lemma OtherHides(w: World, a: Action)
    requires Enabled(w, a) && !OfTick(a) && !OfHolder(a) && !OfEnd(a) && NothingHidden(w)
    ensures NothingHidden(Apply(w, a))
  {
    match a
    case LanePick(_, _, _) =>
    case LaneRead(_) =>
    case Resume(p) => ResumeHides(w, p);
    case Grant(p) => GrantHides(w, p);
    case Continue(p, id) => ContinueHides(w, p, id);
    case Crash(p) => CrashHides(w, p);
    case Reclaim(_) =>
    case Wake(_) =>
    case Clock(_) =>
  }

  lemma GuardedStep(w: World, a: Action)
    requires Enabled(w, a) && Guarded(w, a) && NothingHidden(w)
    ensures NothingHidden(Apply(w, a))
  {
    if OfTick(a) {
      TickHides(w, a);
    } else if OfHolder(a) {
      HolderHides(w, a);
    } else if OfEnd(a) {
      EndHides(w, a);
    } else {
      OtherHides(w, a);
    }
  }

  lemma {:induction false} GuardedKeeps(w: World, run: seq<Action>)
    requires Legal(w, run) && GuardedRun(w, run) && NothingHidden(w)
    ensures NothingHidden(After(w, run)) && !Hidden(After(w, run))
    decreases |run|
  {
    if run != [] {
      GuardedStep(w, run[0]);
      GuardedKeeps(Apply(w, run[0]), run[1..]);
    }
  }

  /** Over every interleaving whose messages meet the guard, no answer is hidden. */
  lemma GuardedNeverHides(jobs: map<JobId, JobCfg>, now: nat, run: seq<Action>)
    requires Legal(Start(jobs, now), run) && GuardedRun(Start(jobs, now), run)
    ensures !Hidden(After(Start(jobs, now), run))
  {
    GuardedKeeps(Start(jobs, now), run);
  }

  // ---- Without the guard --------------------------------------------------------------------

  /** An outcome every kind of row may be finished with by the lane. */
  function LaneOutcome(m: Model): Outcome {
    match m
    case Provider => Answered
    case ScriptModel => Error
    case CappedModel => Budget
  }

  predicate Unsent(w: World, id: TurnId, d: Delivery) {
    id in w.db.turns && w.db.turns[id].delivery == d && w.past.sends[id] == 0
  }

  /** The world after `q` took the row for the lane. */
  lemma TakeRow(w: World, q: Pid, id: TurnId, d: Delivery) returns (v: World)
    requires At(w, q).Idle? && Unsent(w, id, d) && w.db.turns[id].status in {Runnable, Waiting, Interrupted}
    ensures R.Leads(w, [LanePick(q, id, true), LaneRead(q), Resume(q)], v) && Unsent(v, id, d)
    ensures At(v, q) == Holding(Lane(false), id, w.db.tokens, v.db.turns[id].model, false) && Holds(v.db.turns, id, w.db.tokens)
  {
    R.Three(w, LanePick(q, id, true), LaneRead(q), Resume(q));
    v := After(w, [LanePick(q, id, true), LaneRead(q), Resume(q)]);
  }

  /** A holder that finishes the row and dies before delivering leaves the mark it found. */
  lemma FinishThenDie(w: World, q: Pid, id: TurnId, d: Delivery, out: Outcome)
    requires At(w, q).Holding? && At(w, q).id == id && Holds(w.db.turns, id, At(w, q).tok) && MayFinish(At(w, q), out, true)
    requires Unsent(w, id, d) && Resolved(d)
    ensures Legal(w, [Finish(q, out, true), Crash(q)]) && Hidden(After(w, [Finish(q, out, true), Crash(q)]))
  {
    R.Two(w, Finish(q, out, true), Crash(q));
    assert RowDone(After(w, [Finish(q, out, true), Crash(q)]), id);
  }

  /** From a claimable row marked as sent, a fresh process can finish it and die. */
  lemma FinishAndDie(w: World, q: Pid, id: TurnId, d: Delivery) returns (run: seq<Action>)
    requires At(w, q).Idle? && Unsent(w, id, d) && Resolved(d) && w.db.turns[id].status in {Runnable, Waiting, Interrupted}
    ensures Legal(w, run) && Hidden(After(w, run)) && forall i | 0 <= i < |run| :: !run[i].Send?
  {
    var v := TakeRow(w, q, id, d);
    var out := LaneOutcome(v.db.turns[id].model);
    FinishThenDie(v, q, id, d, out);
    var b := [Finish(q, out, true), Crash(q)];
    run := R.Then(w, [LanePick(q, id, true), LaneRead(q), Resume(q)], v, b, After(v, b));
  }

  lemma ReclaimFirst(w: World, q: Pid, id: TurnId, d: Delivery) returns (run: seq<Action>)
    requires At(w, q).Idle? && Unsent(w, id, d) && Resolved(d) && w.db.turns[id].status in {Runnable, Waiting, Interrupted, Running}
    ensures Legal(w, run) && Hidden(After(w, run)) && forall i | 0 <= i < |run| :: !run[i].Send?
  {
    if w.db.turns[id].status == Running {
      R.One(w, Reclaim(id));
      var v := After(w, [Reclaim(id)]);
      run := FinishAndDie(v, q, id, d);
      run := R.Then(w, [Reclaim(id)], v, run, After(v, run));
    } else {
      run := FinishAndDie(w, q, id, d);
    }
  }

  /** The message and its mark, on a row that is not finished. */
  lemma MarkOpenRow(w: World, p: Pid, d: Delivery, id: TurnId) returns (v: World)
    requires Enabled(w, Send(p, d)) && At(w, p).turn == Some(id) && !Answers(At(w, p).end) && id in w.db.turns && !RowDone(w, id) && w.past.sends[id] == 0
    ensures R.Leads(DoSend(w, p, d), [Record(p, true)], v)
    ensures Unsent(v, id, d) && v.db.turns[id] == w.db.turns[id].(delivery := d) && v.procs.Keys == w.procs.Keys + {p}
    ensures forall q | q != p :: At(v, q) == At(w, q)
  {
    var u := DoSend(w, p, d);
    R.One(u, Record(p, true));
    v := After(u, [Record(p, true)]);
  }

  /** A released row: the owner's own resume clears the mark, and the late record puts it back. */
  lemma MarkedBehind(w: World, p: Pid, q: Pid, d: Delivery, id: TurnId) returns (v: World)
    requires Enabled(w, Send(p, d)) && At(w, p).turn == Some(id) && !Answers(At(w, p).end) && id in w.db.turns && w.db.turns[id].status == Continuable
    requires p != q && At(w, q).Idle? && w.past.sends[id] == 0 && w.db.turns[id].model == Provider
    ensures R.Leads(DoSend(w, p, d), [Continue(q, id), Record(p, true)], v) && Unsent(v, id, d)
    ensures At(v, q) == Holding(Hand, id, w.db.tokens, Provider, false) && Holds(v.db.turns, id, w.db.tokens)
  {
    var u := DoSend(w, p, d);
    R.Two(u, Continue(q, id), Record(p, true));
    v := After(u, [Continue(q, id), Record(p, true)]);
  }

  lemma ResumedBetween(w: World, p: Pid, q: Pid, d: Delivery, id: TurnId) returns (run: seq<Action>)
    requires Enabled(w, Send(p, d)) && At(w, p).turn == Some(id) && !Answers(At(w, p).end) && id in w.db.turns && w.db.turns[id].status == Continuable
    requires p != q && At(w, q).Idle? && w.past.sends[id] == 0 && w.db.turns[id].model == Provider && Resolved(d)
    ensures Legal(DoSend(w, p, d), run) && Hidden(After(DoSend(w, p, d), run)) && forall i | 0 <= i < |run| :: !run[i].Send?
  {
    var v := MarkedBehind(w, p, q, d, id);
    FinishThenDie(v, q, id, d, Answered);
    var b := [Finish(q, Answered, true), Crash(q)];
    run := R.Then(DoSend(w, p, d), [Continue(q, id), Record(p, true)], v, b, After(v, b));
  }

  lemma {:induction false} NoSendsGuarded(w: World, run: seq<Action>)
    requires Legal(w, run) && forall i | 0 <= i < |run| :: !run[i].Send?
    ensures GuardedRun(w, run)
    decreases |run|
  {
    if run != [] {
      assert !run[0].Send?;
      assert forall i | 0 <= i < |run[1..]| :: run[1..][i] == run[i + 1];
      NoSendsGuarded(Apply(w, run[0]), run[1..]);
    }
  }

  lemma FreshProcess(w: World) returns (q: Pid)
    ensures q !in w.procs
  {
    q := 0;
    var seen: set<Pid> := {};
    while q in w.procs
      invariant (forall x | x in seen :: x < q) && seen <= w.procs.Keys
      decreases w.procs.Keys - seen
    {
      seen := seen + {q};
      q := q + 1;
    }
  }

  /** A continuation in which every further message is guarded, ending in a hidden answer. */
  ghost predicate HidesBy(w: World, run: seq<Action>) { Legal(w, run) && GuardedRun(w, run) && Hidden(After(w, run)) }

  lemma OpenRowHides(w: World, p: Pid, q: Pid, d: Delivery, id: TurnId) returns (run: seq<Action>)
    requires Enabled(w, Send(p, d)) && At(w, p).turn == Some(id) && !Answers(At(w, p).end) && id in w.db.turns && !RowDone(w, id) && w.past.sends[id] == 0
    requires p != q && At(w, q).Idle? && w.db.turns[id].status != Continuable && Resolved(d)
    ensures var u := DoSend(w, p, d); Legal(u, run) && Hidden(After(u, run)) && forall i | 0 <= i < |run| :: !run[i].Send?
  {
    var v := MarkOpenRow(w, p, d, id);
    run := ReclaimFirst(v, q, id, d);
    run := R.Then(DoSend(w, p, d), [Record(p, true)], v, run, After(v, run));
  }

  /** On a finished row whose answer nobody attempted, the record alone hides it. */
  lemma LateNoticeHides(w: World, p: Pid, d: Delivery, id: TurnId)
    requires Enabled(w, Send(p, d)) && At(w, p).turn == Some(id) && !Answers(At(w, p).end)
    requires RowDone(w, id) && w.past.sends[id] == 0 && Resolved(d)
    ensures var u := DoSend(w, p, d); Legal(u, [Record(p, true)]) && Hidden(After(u, [Record(p, true)]))
  {
    var u := DoSend(w, p, d);
    R.One(u, Record(p, true));
    assert RowDone(After(u, [Record(p, true)]), id);
  }

  lemma UnguardedHides(w: World, p: Pid, d: Delivery, id: TurnId) returns (run: seq<Action>)
    requires Inv(w) && Enabled(w, Send(p, d)) && At(w, p).turn == Some(id) && !Guarded(w, Send(p, d))
    ensures HidesBy(DoSend(w, p, d), run)
  {
    AtOk(w, p);
    var q := FreshProcess(w);
    if RowDone(w, id) {
      LateNoticeHides(w, p, d, id);
      run := [Record(p, true)];
    } else if w.db.turns[id].status == Continuable {
      run := ResumedBetween(w, p, q, d, id);
    } else {
      run := OpenRowHides(w, p, q, d, id);
    }
    NoSendsGuarded(DoSend(w, p, d), run);
  }

  /**
   * The guard is exact: from a world that hides nothing, a message about a turn can be
   * followed by guarded steps to a hidden answer if and only if it did not meet the guard.
   */
  lemma MessageHidesIffUnguarded(w: World, p: Pid, d: Delivery)
    requires Inv(w) && NothingHidden(w) && Enabled(w, Send(p, d)) && At(w, p).turn.Some?
    ensures (exists run :: HidesBy(DoSend(w, p, d), run)) <==> !Guarded(w, Send(p, d))
  {
    var u, id := DoSend(w, p, d), At(w, p).turn.value;
    if Guarded(w, Send(p, d)) {
      SendHides(w, p, d);
      forall run | Legal(u, run) && GuardedRun(u, run) ensures !HidesBy(u, run) { GuardedKeeps(u, run); }
    } else {
      var run := UnguardedHides(w, p, d, id);
      assert HidesBy(u, run);
    }
  }

  /** Every world reached with the guard is such a world. */
  lemma GuardedWorlds(jobs: map<JobId, JobCfg>, now: nat, run: seq<Action>)
    requires Legal(Start(jobs, now), run) && GuardedRun(Start(jobs, now), run)
    ensures var w := After(Start(jobs, now), run); Inv(w) && NothingHidden(w)
  {
    StartInv(jobs, now);
    RunKeeps(Start(jobs, now), run);
    GuardedKeeps(Start(jobs, now), run);
  }

  // ---- Sent once ------------------------------------------------------------------------------

  function Recorders(w: World, id: TurnId): set<Pid> { set p | p in w.procs && S.IsRecording(w.procs[p], id) }

  function One(b: bool): nat { if b then 1 else 0 }

  predicate ResolvedRow(w: World, id: TurnId) { id in w.db.turns && Resolved(w.db.turns[id].delivery) }

  /** Attempts beyond the lost records: one, at most. */
  predicate SentOnce(w: World, id: TurnId) { w.past.sends[id] <= w.past.missed[id] + 1 }

  /** Every message about a turn is that turn's own answer. */
  predicate Own(w: World, a: Action) { a.Send? && At(w, a.p).Ending? && At(w, a.p).turn.Some? ==> Answers(At(w, a.p).end) }

  ghost predicate OwnRun(w: World, run: seq<Action>)
    requires Legal(w, run)
    decreases |run|
  {
    run == [] || (Own(w, run[0]) && OwnRun(Apply(w, run[0]), run[1..]))
  }

  /** Whoever records a delivery records an answer's. */
  ghost predicate OwnRecords(w: World) { forall p | p in w.procs && w.procs[p].Recording? && w.procs[p].turn.Some? :: w.procs[p].answers }

  /** Every attempt is recorded, lost, or being recorded, and no two of them stand at once. */
  predicate Books(w: World, id: TurnId) {
    if RowDone(w, id)
    then w.past.sends[id] == w.past.missed[id] + |Recorders(w, id)| + One(ResolvedRow(w, id))
         && |Recorders(w, id)| + One(ResolvedRow(w, id)) <= 1
    else w.past.sends[id] == 0 && w.past.missed[id] == 0 && Recorders(w, id) == {} && !ResolvedRow(w, id)
  }

  ghost predicate AllBooks(w: World) { OwnRecords(w) && forall id :: Books(w, id) }

  /** The second missing check: nobody has delivered the answer, and nobody is about to record that they did. */
  predicate Unclaimed(w: World, a: Action) {
    a.Send? && At(w, a.p).Ending? && At(w, a.p).turn.Some? ==>
      var id := At(w, a.p).turn.value; !ResolvedRow(w, id) && Recorders(w, id) == {}
  }

  ghost predicate AllSentOnce(w: World) { forall id :: SentOnce(w, id) }

  ghost predicate AlwaysSentOnce(w: World, run: seq<Action>)
    requires Legal(w, run)
    decreases |run|
  {
    AllSentOnce(w) && (run == [] || AlwaysSentOnce(Apply(w, run[0]), run[1..]))
  }

  ghost predicate UnclaimedRun(w: World, run: seq<Action>)
    requires Legal(w, run)
    decreases |run|
  {
    run == [] || (Unclaimed(w, run[0]) && UnclaimedRun(Apply(w, run[0]), run[1..]))
  }

  predicate Speaking(a: Action) { a.Send? || a.Record? || a.Crash? }

  /** Finished rows stand still, and nobody starts or stops recording. */
  ghost predicate Quiet(w: World, v: World) {
    && v.past.sends == w.past.sends && v.past.missed == w.past.missed
    && (forall id | id in w.db.turns :: id in v.db.turns
          && (w.db.turns[id].status == Done ==> v.db.turns[id] == w.db.turns[id])
          && (v.db.turns[id].delivery == w.db.turns[id].delivery || v.db.turns[id].delivery == InBand))
    && (forall id | id in v.db.turns && id !in w.db.turns :: v.db.turns[id].status == Running && v.db.turns[id].delivery == Pending)
  }

  /** Who records what, unchanged. */
  ghost predicate SameRecorders(w: World, v: World) {
    forall p, id :: (p in v.procs && S.IsRecording(v.procs[p], id)) <==> (p in w.procs && S.IsRecording(w.procs[p], id))
  }

  lemma TickQuiet(w: World, a: Action)
    requires Enabled(w, a) && OfTick(a)
    ensures Quiet(w, Apply(w, a)) && SameRecorders(w, Apply(w, a))
  {
  }

  lemma FinishQuiet(w: World, p: Pid, outcome: Outcome, speaks: bool)
    requires At(w, p).Holding? && RowsOk(w)
    ensures var v := DoFinish(w, p, outcome, speaks); Quiet(w, v) && SameRecorders(w, v)
  {
  }

  lemma HolderQuiet(w: World, a: Action)
    requires Enabled(w, a) && OfHolder(a) && RowsOk(w)
    ensures Quiet(w, Apply(w, a)) && SameRecorders(w, Apply(w, a))
  {
    if a.Finish? { FinishQuiet(w, a.p, a.outcome, a.speaks); }
  }

  lemma EndQuiet(w: World, a: Action)
    requires Enabled(w, a) && (a.Conclude? || a.Settle? || a.Advance?)
    ensures Quiet(w, Apply(w, a)) && SameRecorders(w, Apply(w, a))
  {
  }

  lemma GrantQuiet(w: World, p: Pid)
    requires At(w, p).Granting?
    ensures Quiet(w, DoGrant(w, p)) && SameRecorders(w, DoGrant(w, p))
  {
  }

  lemma ContinueQuiet(w: World, p: Pid, id: TurnId)
    requires At(w, p).Idle?
    ensures Quiet(w, DoContinue(w, p, id)) && SameRecorders(w, DoContinue(w, p, id))
  {
  }

  lemma OtherQuiet(w: World, a: Action)
    requires Enabled(w, a) && !OfTick(a) && !OfHolder(a) && !OfEnd(a) && !a.Crash?
    ensures Quiet(w, Apply(w, a)) && SameRecorders(w, Apply(w, a))
  {
    match a
    case LanePick(_, _, _) =>
    case LaneRead(_) =>
    case Resume(_) =>
    case Grant(p) => GrantQuiet(w, p);
    case Continue(p, id) => ContinueQuiet(w, p, id);
    case Reclaim(_) =>
    case Wake(_) =>
    case Clock(_) =>
  }

  lemma QuietKeeps(w: World, v: World, id: TurnId)
    requires Books(w, id) && Quiet(w, v) && SameRecorders(w, v)
    ensures Books(v, id)
  {
    assert Recorders(v, id) == Recorders(w, id);
  }

  lemma SendRecorders(w: World, p: Pid, d: Delivery, id: TurnId)
    requires At(w, p).Ending?
    ensures Recorders(DoSend(w, p, d), id) == Recorders(w, id) + (if At(w, p).turn == Some(id) then {p} else {})
    ensures p !in Recorders(w, id)
  {
  }

  lemma SendCounts(w: World, p: Pid, d: Delivery, id: TurnId)
    requires Enabled(w, Send(p, d)) && Own(w, Send(p, d))
    ensures var v := DoSend(w, p, d);
            && v.past.sends[id] == w.past.sends[id] + One(At(w, p).turn == Some(id)) && v.past.missed[id] == w.past.missed[id]
            && v.db == w.db
  {
  }

  lemma SendBooks(w: World, p: Pid, d: Delivery, id: TurnId)
    requires Enabled(w, Send(p, d)) && Own(w, Send(p, d)) && Books(w, id) && (At(w, p).turn == Some(id) ==> RowDone(w, id))
    ensures At(w, p).turn != Some(id) || Unclaimed(w, Send(p, d)) ==> Books(DoSend(w, p, d), id)
    ensures At(w, p).turn == Some(id) ==> (SentOnce(DoSend(w, p, d), id) <==> Unclaimed(w, Send(p, d)))
  {
    SendRecorders(w, p, d, id);
    SendCounts(w, p, d, id);
  }

  /** Whose answer a process sends or records is finished. */
  lemma OwnIsDone(w: World, p: Pid, id: TurnId)
    requires PcOk(w, At(w, p))
    ensures At(w, p).Ending? && At(w, p).turn == Some(id) && Answers(At(w, p).end) ==> RowDone(w, id)
    ensures At(w, p).Recording? && At(w, p).turn == Some(id) && At(w, p).answers ==> RowDone(w, id)
    ensures At(w, p).Recording? ==> Resolved(At(w, p).result)
  {
  }

  lemma RecordRecorders(w: World, p: Pid, lands: bool, id: TurnId)
    requires At(w, p).Recording?
    ensures Recorders(DoRecord(w, p, lands), id) == Recorders(w, id) - (if At(w, p).turn == Some(id) then {p} else {})
    ensures At(w, p).turn == Some(id) ==> p in Recorders(w, id)
  {
  }

  lemma RecordCounts(w: World, p: Pid, lands: bool, id: TurnId)
    requires At(w, p).Recording? && Resolved(At(w, p).result) && (At(w, p).turn == Some(id) ==> At(w, p).answers && RowDone(w, id))
    ensures var v, mine := DoRecord(w, p, lands), At(w, p).turn == Some(id);
            && v.past.sends == w.past.sends && v.past.missed[id] == w.past.missed[id] + One(mine && !lands)
            && (RowDone(v, id) <==> RowDone(w, id)) && (mine ==> (ResolvedRow(v, id) <==> lands || ResolvedRow(w, id)))
            && (!mine ==> (ResolvedRow(v, id) <==> ResolvedRow(w, id)))
  {
  }

  lemma RecordBooks(w: World, p: Pid, lands: bool, id: TurnId)
    requires At(w, p).Recording? && Resolved(At(w, p).result) && Books(w, id)
    requires At(w, p).turn == Some(id) ==> At(w, p).answers && RowDone(w, id)
    ensures Books(DoRecord(w, p, lands), id)
  {
    RecordRecorders(w, p, lands, id);
    RecordCounts(w, p, lands, id);
  }

  lemma CrashBooks(w: World, p: Pid, id: TurnId)
    requires Books(w, id) && (At(w, p).Recording? && At(w, p).turn == Some(id) ==> At(w, p).answers && RowDone(w, id))
    ensures Books(DoCrash(w, p), id)
  {
    var v := DoCrash(w, p);
    if At(w, p).Recording? && At(w, p).turn == Some(id) {
      assert p in Recorders(w, id) && Recorders(v, id) == Recorders(w, id) - {p};
    } else {
      assert Recorders(v, id) == Recorders(w, id);
    }
  }

  lemma QuietBooks(w: World, a: Action, id: TurnId)
    requires RowsOk(w) && Enabled(w, a) && !Speaking(a) && Books(w, id)
    ensures Books(Apply(w, a), id)
  {
    if OfTick(a) {
      TickQuiet(w, a);
    } else if OfHolder(a) {
      HolderQuiet(w, a);
    } else if OfEnd(a) {
      EndQuiet(w, a);
    } else {
      OtherQuiet(w, a);
    }
    QuietKeeps(w, Apply(w, a), id);
  }

  lemma SpeakingBooks(w: World, a: Action, id: TurnId)
    requires Enabled(w, a) && Speaking(a) && PcOk(w, At(w, a.p)) && Own(w, a) && Unclaimed(w, a) && OwnRecords(w) && Books(w, id)
    ensures Books(Apply(w, a), id)
  {
    OwnIsDone(w, a.p, id);
    if a.Send? {
      SendBooks(w, a.p, a.result, id);
    } else if a.Record? {
      RecordBooks(w, a.p, a.lands, id);
    } else {
      CrashBooks(w, a.p, id);
    }
  }

  lemma TickRecordsNothing(w: World, a: Action)
    requires Enabled(w, a) && OfTick(a)
    ensures !At(Apply(w, a), a.p).Recording?
  {
  }

  lemma HolderRecordsNothing(w: World, a: Action)
    requires Enabled(w, a) && OfHolder(a)
    ensures !At(Apply(w, a), a.p).Recording?
  {
  }

  lemma EndRecordsNothing(w: World, a: Action)
    requires Enabled(w, a) && OfEnd(a) && !a.Send?
    ensures !At(Apply(w, a), a.p).Recording?
  {
  }

  lemma OtherRecordsNothing(w: World, a: Action)
    requires Enabled(w, a) && !OfTick(a) && !OfHolder(a) && !OfEnd(a) && !Ambient(a)
    ensures !At(Apply(w, a), a.p).Recording?
  {
  }

  lemma RecordsOwn(w: World, a: Action, q: Pid)
    requires Enabled(w, a) && Own(w, a) && OwnRecords(w)
    ensures var pc := At(Apply(w, a), q); pc.Recording? && pc.turn.Some? ==> pc.answers
  {
    if Ambient(a) || q != a.p {
      P.OnlyOneMoves(w, a, q);
    } else if OfTick(a) {
      TickRecordsNothing(w, a);
    } else if OfHolder(a) {
      HolderRecordsNothing(w, a);
    } else if !OfEnd(a) {
      OtherRecordsNothing(w, a);
    } else if !a.Send? {
      EndRecordsNothing(w, a);
    }
  }

  lemma OwnStep(w: World, a: Action)
    requires Enabled(w, a) && Own(w, a) && OwnRecords(w)
    ensures OwnRecords(Apply(w, a))
  {
    var v := Apply(w, a);
    forall q | q in v.procs && v.procs[q].Recording? && v.procs[q].turn.Some? ensures v.procs[q].answers { RecordsOwn(w, a, q); }
  }

  lemma BooksStep(w: World, a: Action)
    requires Inv(w) && Enabled(w, a) && Own(w, a) && Unclaimed(w, a) && AllBooks(w)
    ensures AllBooks(Apply(w, a))
  {
    OwnStep(w, a);
    forall id: TurnId ensures Books(Apply(w, a), id) {
      assert Books(w, id);
      if Speaking(a) {
        AtOk(w, a.p);
        SpeakingBooks(w, a, id);
      } else {
        QuietBooks(w, a, id);
      }
    }
  }

  lemma ClaimedSendsTwice(w: World, a: Action)
    requires Inv(w) && Enabled(w, a) && Own(w, a) && !Unclaimed(w, a) && AllBooks(w)
    ensures !AllSentOnce(Apply(w, a))
  {
    var id := At(w, a.p).turn.value;
    assert Books(w, id);
    AtOk(w, a.p);
    OwnIsDone(w, a.p, id);
    SendBooks(w, a.p, a.result, id);
    assert !SentOnce(Apply(w, a), id);
  }

  lemma BooksOnce(w: World)
    requires AllBooks(w)
    ensures AllSentOnce(w)
  {
    forall id: TurnId ensures SentOnce(w, id) { assert Books(w, id); }
  }

  lemma {:induction false} OnceIffUnclaimed(w: World, run: seq<Action>)
    requires Inv(w) && Legal(w, run) && OwnRun(w, run) && AllBooks(w)
    ensures AlwaysSentOnce(w, run) <==> UnclaimedRun(w, run)
    decreases |run|
  {
    BooksOnce(w);
    if run != [] {
      StepKeeps(w, run[0]);
      if Unclaimed(w, run[0]) {
        BooksStep(w, run[0]);
        OnceIffUnclaimed(Apply(w, run[0]), run[1..]);
      } else {
        ClaimedSendsTwice(w, run[0]);
      }
    }
  }

  /**
   * Over every interleaving whose messages about a turn are that turn's own answer: no
   * answer is ever sent twice, lost records apart, if and only if each goes out while none
   * was recorded and none is being recorded.
   */
  lemma SentOnceIffUnclaimed(jobs: map<JobId, JobCfg>, now: nat, run: seq<Action>)
    requires Legal(Start(jobs, now), run) && OwnRun(Start(jobs, now), run)
    ensures AlwaysSentOnce(Start(jobs, now), run) <==> UnclaimedRun(Start(jobs, now), run)
  {
    StartInv(jobs, now);
    OnceIffUnclaimed(Start(jobs, now), run);
  }
}

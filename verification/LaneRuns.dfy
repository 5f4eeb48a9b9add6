/**
 * A lane beat on a job's row is a run of the protocol: what the lane writes, calls and sends
 * is what the transition system does, and it speaks exactly when the transition system would.
 * The lane looks at the row three times (when it picks it, when it reads it, when it claims
 * or grants it), and others may change it in between: so each part is tied on its own.
 */
module LaneRuns {

  import opened Common
  import opened Stores
  import opened Protocol
  import O = Occurrence
  import G = Guarantees
  import L = LaneRunner
  import R = Runs

  /** The policy readers answer what the job's own policy is. */
  predicate Truthful(w: World, row: Row, env: L.Env) {
    row.job.Some? ==> L.IsSilentResume(env, row.job, Ended(Answered)) == IsSilent(w, row.job.value)
  }

  // ---- The two spellings of "something to send" ---------------------------------------

  /** The row's silence, as the protocol reads it, is the silence the lane reads. */
  lemma SilenceAgrees(w: World, row: Row, env: L.Env, how: Stopped)
    requires Truthful(w, row, env)
    ensures L.IsSilentResume(env, row.job, how) <==> how == Ended(Answered) && row.job.Some? && IsSilent(w, row.job.value)
  {
  }

  /** An answer of an addressed row leaves the process exactly when the protocol's lane speaks. */
  lemma AnswerIsSpoken(w: World, row: Row, env: L.Env, how: Stopped, text: string, autonomous: bool)
    requires Truthful(w, row, env) && row.addressed && how != Suspended && !(how == Released && autonomous)
    ensures L.Answer(row, how, text, env)
            == if LaneSpeaks(row.job.Some? && IsSilent(w, row.job.value), autonomous, Stop(how), text != "") then L.Message(text) else L.Nothing
  {
    SilenceAgrees(w, row, env, how);
  }

  // ---- The parts of a beat ------------------------------------------------------------

  /** Nothing the lane cannot touch has moved. */
  ghost predicate SameBut(w: World, v: World) { v.jobs == w.jobs && v.db.fires == w.db.fires && v.db.next == w.db.next && v.now == w.now }

  function Words(d: L.Drive): bool { d.how.Ended? ==> d.text != "" }

  function LastAction(p: Pid, d: L.Drive): Action {
    match d.how
    case Ended(outcome) => Finish(p, outcome, d.text != "")
    case Suspended => Suspend(p)
    case Released => Release(p)
  }

  /** The loop: one model call at least, and the write that lets go of the row. */
  lemma DriveIsRun(w: World, p: Pid, side: Side, id: TurnId, tok: Token, d: L.Drive) returns (run: seq<Action>)
    requires At(w, p) == Holding(side, id, tok, Provider, false) && HoldsRunning(w.db.turns, id, tok) && !side.Job?
    ensures Legal(w, run)
    ensures var v := After(w, run);
            && SameBut(w, v) && At(v, p) == Ending(side, Some(id), Stop(d.how), Words(d)) && v.db.tokens == w.db.tokens
            && v.db.turns == w.db.turns[id := L.Driven(w.db.turns[id], d.how)]
            && v.past == w.past.(calls := w.past.calls + multiset{id})
  {
    var called := Apply(w, CallModel(p));
    R.Two(w, CallModel(p), LastAction(p, d));
    run := [CallModel(p), LastAction(p, d)];
  }

  lemma SendStep(w: World, p: Pid, autonomous: bool, id: TurnId, end: End, speaks: bool, d: Delivery)
    requires At(w, p) == Ending(Lane(autonomous), Some(id), end, speaks) && LaneSpeaks(RowSilent(w, id), autonomous, end, speaks)
    requires d in {Sent, PossiblySent, Failed}
    ensures Enabled(w, Send(p, d)) && var v := DoSend(w, p, d);
            && v.jobs == w.jobs && v.now == w.now && v.db == w.db && At(v, p) == Recording(Lane(autonomous), Some(id), d, Answers(end))
            && v.past.calls == w.past.calls
            && v.past.sends == w.past.sends + (if Answers(end) then multiset{id} else multiset{})
  {
    assert w.past.sends + multiset{} == w.past.sends;
  }

  lemma RecordStep(w: World, p: Pid, autonomous: bool, id: TurnId, d: Delivery, answers: bool, lands: bool)
    requires At(w, p) == Recording(Lane(autonomous), Some(id), d, answers)
    ensures var v := DoRecord(w, p, lands);
            && SameBut(w, v) && At(v, p).Idle? && v.db.tokens == w.db.tokens
            && v.past.calls == w.past.calls && v.past.sends == w.past.sends
            && v.db.turns == if lands then DeliverRow(w.db.turns, id, d) else w.db.turns
  {
  }

  /** What the process says, and the mark it leaves. */
  lemma TellIsRun(w: World, p: Pid, autonomous: bool, id: TurnId, end: End, speaks: bool, said: L.Said, env: L.Env)
    returns (run: seq<Action>)
    requires At(w, p) == Ending(Lane(autonomous), Some(id), end, speaks) && id in w.db.turns
    requires !said.Report? && (said.Message? <==> LaneSpeaks(RowSilent(w, id), autonomous, end, speaks))
    ensures Legal(w, run)
    ensures var v := After(w, run);
            && SameBut(w, v) && At(v, p).Idle? && v.db.tokens == w.db.tokens && v.db.turns == L.Noted(w.db.turns, id, said, env)
            && v.past.calls == w.past.calls
            && v.past.sends == w.past.sends + (if said.Message? && Answers(end) then multiset{id} else multiset{})
  {
    if said.Message? {
      var d := L.SendState(env.send);
      SendStep(w, p, autonomous, id, end, speaks, d);
      RecordStep(DoSend(w, p, d), p, autonomous, id, d, Answers(end), env.markLands);
      R.Two(w, Send(p, d), Record(p, env.markLands));
      run := [Send(p, d), Record(p, env.markLands)];
    } else {
      R.One(w, Conclude(p, false));
      run := [Conclude(p, false)];
      assert w.past.sends + multiset{} == w.past.sends;
    }
  }

  // ---- A resume ---------------------------------------------------------------------------

  /** What the loop and the row's history owe the lane: a release has words, and a job's runnable row was started. */
  predicate Owed(row: Row, env: L.Env) {
    && (env.drive.how == Released ==> env.drive.text != "")
    && (row.status == Runnable ==> env.started)
  }

  /** The world a beat leads to, as the running lane writes it. */
  ghost predicate Beaten(w: World, v: World, p: Pid, id: TurnId, b: L.Beat, env: L.Env)
  {
    && SameBut(w, v) && At(v, p).Idle?
    && v.db.turns == L.BeatTurns(w.db.turns, id, b, env) && v.db.tokens == w.db.tokens + (if b.taken then 1 else 0)
    && v.past.calls == w.past.calls + (if b.driven then multiset{id} else multiset{})
    // Only the words of a row it has itself finished are that turn's answer.
    && v.past.sends == w.past.sends + (if b.said.Message? && b.taken && b.row.status == Done then multiset{id} else multiset{})
  }

  /** The row's silence does not change with its status. */
  lemma SilentRow(w: World, v: World, id: TurnId)
    requires v.jobs == w.jobs && id in w.db.turns && id in v.db.turns && v.db.turns[id].job == w.db.turns[id].job
    ensures RowSilent(v, id) == RowSilent(w, id)
  {
  }

  /** A row somebody else took meanwhile: the refusal is sent, and marked on it. */
  lemma RefusedIsRun(w: World, p: Pid, id: TurnId, env: L.Env) returns (run: seq<Action>)
    requires At(w, p) == Resuming(id) && id in w.db.turns && !Claimable(w.db.turns[id]) && w.db.turns[id].addressed
    ensures Legal(w, run) && Beaten(w, After(w, run), p, id, L.ResumeBeat(w.db.turns[id], env), env)
  {
    var v := DoResume(w, p);
    R.One(w, Resume(p));
    run := TellIsRun(v, p, false, id, Refusal, true, L.Message(L.WHY), env);
    run := R.Then(w, [Resume(p)], v, run, After(v, run));
    assert w.db.turns[id := w.db.turns[id]] == w.db.turns;
  }

  /** The one write on a claimed row that is not handed to the loop. */
  function Shortcut(p: Pid, model: Model, env: L.Env): Action {
    match model
    case CappedModel => Finish(p, Budget, true)
    case ScriptModel => Finish(p, Error, true)
    case Provider => if env.reasked then Suspend(p) else CloseRefused(p)
  }

  lemma ShortcutIsStep(w: World, p: Pid, id: TurnId, tok: Token, env: L.Env) returns (end: End)
    requires id in w.db.turns && At(w, p) == Holding(Lane(false), id, tok, w.db.turns[id].model, false) && HoldsRunning(w.db.turns, id, tok)
    requires !L.ResumeDrives(w.db.turns[id], env)
    ensures var row := w.db.turns[id];
            var r, a := L.ResumeEnd(row, env), Shortcut(p, row.model, env);
            && Enabled(w, a) && var v := Apply(w, a);
            && SameBut(w, v) && At(v, p) == Ending(Lane(false), Some(id), end, true) && v.db.tokens == w.db.tokens && v.past == w.past
            && v.db.turns == w.db.turns[id := L.Driven(row, L.HowOf(r))]
            && end == (if r.Refused? then Closed else Stop(r.how)) && (r.Finished? && r.how != Suspended ==> r.text != "")
  {
    var r := L.ResumeEnd(w.db.turns[id], env);
    end := if r.Refused? then Closed else Stop(r.how);
  }

  /** How the process holding a resumed row lets go of it, in the protocol's words. */
  lemma LetGoIsRun(w: World, p: Pid, id: TurnId, tok: Token, env: L.Env) returns (run: seq<Action>, end: End, speaks: bool)
    requires id in w.db.turns && At(w, p) == Holding(Lane(false), id, tok, w.db.turns[id].model, false) && HoldsRunning(w.db.turns, id, tok)
    requires env.drive.how == Released ==> env.drive.text != ""
    ensures Legal(w, run)
    ensures var row, v := w.db.turns[id], After(w, run);
            var r := L.ResumeEnd(row, env);
            && SameBut(w, v) && At(v, p) == Ending(Lane(false), Some(id), end, speaks) && v.db.tokens == w.db.tokens
            && v.db.turns == w.db.turns[id := L.Driven(row, L.HowOf(r))]
            && v.past == w.past.(calls := w.past.calls + if L.ResumeDrives(row, env) then multiset{id} else multiset{})
            && end == (if r.Refused? then Closed else Stop(r.how)) && (r.Finished? && r.how != Suspended ==> speaks == (r.text != ""))
  {
    if L.ResumeDrives(w.db.turns[id], env) {
      run := DriveIsRun(w, p, Lane(false), id, tok, env.drive);
      end, speaks := Stop(env.drive.how), Words(env.drive);
    } else {
      end := ShortcutIsStep(w, p, id, tok, env);
      var a := Shortcut(p, w.db.turns[id].model, env);
      R.One(w, a);
      run, speaks := [a], true;
      assert w.past.calls + multiset{} == w.past.calls;
    }
  }

  /** What a resumed row's beat says is what the protocol's lane says. */
  lemma ResumeSaysAgrees(w: World, row: Row, env: L.Env, end: End, speaks: bool)
    requires Truthful(w, row, env) && row.addressed
    requires var r := L.ResumeEnd(row, env);
             end == (if r.Refused? then Closed else Stop(r.how)) && (r.Finished? && r.how != Suspended ==> speaks == (r.text != ""))
    ensures !L.ResumeSays(row, env).Report?
    ensures L.ResumeSays(row, env).Message? <==> LaneSpeaks(row.job.Some? && IsSilent(w, row.job.value), false, end, speaks)
  {
    var r := L.ResumeEnd(row, env);
    if r.Finished? && r.how != Suspended { AnswerIsSpoken(w, row, env, r.how, r.text, false); }
  }

  /** The claimed row, resumed, closed or put back, and what is said about it. */
  lemma HeldIsRun(w: World, p: Pid, id: TurnId, tok: Token, env: L.Env) returns (run: seq<Action>)
    requires id in w.db.turns && At(w, p) == Holding(Lane(false), id, tok, w.db.turns[id].model, false) && HoldsRunning(w.db.turns, id, tok)
    requires Truthful(w, w.db.turns[id], env) && w.db.turns[id].addressed && (env.drive.how == Released ==> env.drive.text != "")
    ensures Legal(w, run)
    ensures var row, v := w.db.turns[id], After(w, run);
            var how := L.HowOf(L.ResumeEnd(row, env));
            && SameBut(w, v) && At(v, p).Idle? && v.db.tokens == w.db.tokens
            && v.db.turns == L.Noted(w.db.turns[id := L.Driven(row, how)], id, L.ResumeSays(row, env), env)
            && v.past.calls == w.past.calls + (if L.ResumeDrives(row, env) then multiset{id} else multiset{})
            && v.past.sends == w.past.sends + (if L.ResumeSays(row, env).Message? && how.Ended? then multiset{id} else multiset{})
  {
    var row := w.db.turns[id];
    var go, end, speaks := LetGoIsRun(w, p, id, tok, env);
    var v := After(w, go);
    ResumeSaysAgrees(w, row, env, end, speaks);
    SilentRow(w, v, id);
    var tell := TellIsRun(v, p, false, id, end, speaks, L.ResumeSays(row, env), env);
    run := R.Then(w, go, v, tell, After(v, tell));
  }

  /** Claiming a row changes nothing of how its resume goes. */
  lemma ClaimedAlike(row: Row, tok: Token, env: L.Env)
    requires Claimable(row) && Owed(row, env)
    ensures var held, b := row.(status := Running, token := Some(tok)), L.ResumeBeat(row, env);
            var how := L.HowOf(L.ResumeEnd(row, env));
            && L.ResumeEnd(held, env) == L.ResumeEnd(row, env) && L.ResumeSays(held, env) == b.said
            && L.ResumeDrives(held, env) == b.driven && L.Driven(held, how) == b.row && b.taken
            && (b.row.status == Done <==> how.Ended?)
  {
  }

  lemma ResumeStep(w: World, p: Pid, id: TurnId)
    requires At(w, p) == Resuming(id) && id in w.db.turns && Claimable(w.db.turns[id])
    ensures var v, tok := DoResume(w, p), w.db.tokens;
            && SameBut(w, v) && v.past == w.past && v.db.tokens == tok + 1
            && v.db.turns == w.db.turns[id := w.db.turns[id].(status := Running, token := Some(tok))]
            && At(v, p) == Holding(Lane(false), id, tok, w.db.turns[id].model, false) && HoldsRunning(v.db.turns, id, tok)
  {
  }

  lemma ResumedIsRun(w: World, p: Pid, id: TurnId, env: L.Env) returns (run: seq<Action>)
    requires At(w, p) == Resuming(id) && id in w.db.turns && Claimable(w.db.turns[id]) && w.db.turns[id].addressed
    requires Truthful(w, w.db.turns[id], env) && Owed(w.db.turns[id], env)
    ensures Legal(w, run) && Beaten(w, After(w, run), p, id, L.ResumeBeat(w.db.turns[id], env), env)
  {
    var row, v := w.db.turns[id], DoResume(w, p);
    var b := L.ResumeBeat(row, env);
    R.One(w, Resume(p));
    ResumeStep(w, p, id);
    ClaimedAlike(row, w.db.tokens, env);
    assert v.db.turns[id := b.row] == w.db.turns[id := b.row];
    run := HeldIsRun(v, p, id, w.db.tokens, env);
    run := R.Then(w, [Resume(p)], v, run, After(v, run));
  }

  /** From the claim on, whatever has become of the row. */
  lemma ResumeIsRun(w: World, p: Pid, id: TurnId, env: L.Env) returns (run: seq<Action>)
    requires At(w, p) == Resuming(id) && id in w.db.turns && w.db.turns[id].addressed
    requires Truthful(w, w.db.turns[id], env) && Owed(w.db.turns[id], env)
    ensures Legal(w, run) && Beaten(w, After(w, run), p, id, L.ResumeBeat(w.db.turns[id], env), env)
  {
    if Claimable(w.db.turns[id]) { run := ResumedIsRun(w, p, id, env); } else { run := RefusedIsRun(w, p, id, env); }
  }

  // ---- One more lease --------------------------------------------------------------------

  /** What a granted lease says, once the loop is over. */
  function LeaseSays(row: Row, env: L.Env): L.Said {
    if env.drive.how.Ended? then L.Answer(row, env.drive.how, env.drive.text, env) else L.Nothing
  }

  /** The lease itself, from its grant to the last word about it. */
  lemma LeasedIsRun(w: World, p: Pid, id: TurnId, tok: Token, env: L.Env) returns (run: seq<Action>)
    requires At(w, p) == Holding(Lane(true), id, tok, Provider, false) && HoldsRunning(w.db.turns, id, tok)
    requires Truthful(w, w.db.turns[id], env) && w.db.turns[id].addressed
    ensures Legal(w, run)
    ensures var row, v := w.db.turns[id], After(w, run);
            && SameBut(w, v) && At(v, p).Idle? && v.db.tokens == w.db.tokens
            && v.db.turns == L.Noted(w.db.turns[id := L.Driven(row, env.drive.how)], id, LeaseSays(row, env), env)
            && v.past.calls == w.past.calls + multiset{id}
            && v.past.sends == w.past.sends + (if LeaseSays(row, env).Message? then multiset{id} else multiset{})
  {
    var row, how := w.db.turns[id], env.drive.how;
    var drive := DriveIsRun(w, p, Lane(true), id, tok, env.drive);
    var u := After(w, drive);
    if how.Ended? { AnswerIsSpoken(w, row, env, how, env.drive.text, true); }
    SilentRow(w, u, id);
    var tell := TellIsRun(u, p, true, id, Stop(how), Words(env.drive), LeaseSays(row, env), env);
    run := R.Then(w, drive, u, tell, After(u, tell));
  }

  /** A lease changes neither whose turn it is nor where its answer goes. */
  lemma LeasedAlike(row: Row, tok: Token, env: L.Env)
    requires Grantable(row, false) && !L.Uncontinuable(env)
    ensures var b := L.LeaseBeat(row, tok, false, env);
            && LeaseSays(GrantedRow(row, tok, false), env) == b.said && L.Driven(GrantedRow(row, tok, false), env.drive.how) == b.row
            && b.taken && b.driven && (b.said.Message? ==> b.row.status == Done)
  {
  }

  lemma GrantStep(w: World, p: Pid, id: TurnId)
    requires At(w, p) == Granting(id) && id in w.db.turns && w.db.turns[id].status == Continuable && w.db.turns[id].model == Provider
    ensures var v, tok := DoGrant(w, p), w.db.tokens;
            && SameBut(w, v) && v.past == w.past && v.db.tokens == tok + 1
            && v.db.turns == w.db.turns[id := GrantedRow(w.db.turns[id], tok, false)]
            && At(v, p) == Holding(Lane(true), id, tok, Provider, false) && HoldsRunning(v.db.turns, id, tok)
  {
  }

  lemma GrantedIsRun(w: World, p: Pid, id: TurnId, env: L.Env) returns (run: seq<Action>)
    requires At(w, p) == Granting(id) && id in w.db.turns && O.RowOk(w.db.turns[id], w.db.tokens)
    requires Grantable(w.db.turns[id], false) && !L.Uncontinuable(env) && Truthful(w, w.db.turns[id], env)
    ensures Legal(w, run) && Beaten(w, After(w, run), p, id, L.LeaseBeat(w.db.turns[id], w.db.tokens, false, env), env)
  {
    var row, v := w.db.turns[id], DoGrant(w, p);
    var b := L.LeaseBeat(row, w.db.tokens, false, env);
    R.One(w, Grant(p));
    GrantStep(w, p, id);
    LeasedAlike(row, w.db.tokens, env);
    assert v.db.turns[id := b.row] == w.db.turns[id := b.row];
    run := LeasedIsRun(v, p, id, w.db.tokens, env);
    run := R.Then(w, [Grant(p)], v, run, After(v, run));
  }

  /** A row left as it was: the process lets go of it, as if it had stopped there. */
  lemma LeftIsRun(w: World, p: Pid, id: TurnId, env: L.Env)
    requires At(w, p).Granting? && id in w.db.turns
    ensures Legal(w, [Crash(p)]) && Beaten(w, After(w, [Crash(p)]), p, id, L.LeftAsIs(w.db.turns[id], L.Nothing), env)
  {
    R.One(w, Crash(p));
    assert w.db.turns[id := w.db.turns[id]] == w.db.turns;
    assert w.past.calls + multiset{} == w.past.calls && w.past.sends + multiset{} == w.past.sends;
  }

  /** From the grant on, whatever has become of the row since the gates were read. */
  lemma LeaseIsRun(w: World, p: Pid, id: TurnId, env: L.Env) returns (run: seq<Action>)
    requires At(w, p) == Granting(id) && id in w.db.turns && O.RowOk(w.db.turns[id], w.db.tokens)
    requires Truthful(w, w.db.turns[id], env)
    ensures Legal(w, run) && Beaten(w, After(w, run), p, id, L.LeaseBeat(w.db.turns[id], w.db.tokens, false, env), env)
  {
    if Grantable(w.db.turns[id], false) && !L.Uncontinuable(env) {
      run := GrantedIsRun(w, p, id, env);
    } else {
      LeftIsRun(w, p, id, env);
      run := [Crash(p)];
    }
  }

  // ---- A whole beat ------------------------------------------------------------------------

  lemma ReadStep(w: World, p: Pid, id: TurnId)
    requires At(w, p) == Picked(id) && id in w.db.turns
    ensures var v, row := DoLaneRead(w, p), w.db.turns[id];
            && v.jobs == w.jobs && v.db == w.db && v.past == w.past && v.now == w.now
            && At(v, p) == (if row.status != Continuable then Resuming(id) else if row.lease < MAX_AUTONOMOUS_LEASES then Granting(id) else Idle)
  {
  }

  /** The row at the lane's ceiling is read and left. */
  lemma CeilingIsRun(w: World, p: Pid, id: TurnId, env: L.Env)
    requires At(w, p) == Picked(id) && id in w.db.turns
    requires w.db.turns[id].status == Continuable && w.db.turns[id].lease >= MAX_AUTONOMOUS_LEASES
    ensures Legal(w, [LaneRead(p)]) && Beaten(w, After(w, [LaneRead(p)]), p, id, L.LeftAsIs(w.db.turns[id], L.Nothing), env)
  {
    R.One(w, LaneRead(p));
    assert w.db.turns[id := w.db.turns[id]] == w.db.turns;
    assert w.past.calls + multiset{} == w.past.calls && w.past.sends + multiset{} == w.past.sends;
  }

  lemma AfterRead(w: World, p: Pid, id: TurnId, env: L.Env) returns (run: seq<Action>)
    requires (At(w, p) == Resuming(id) || At(w, p) == Granting(id)) && id in w.db.turns && O.RowOk(w.db.turns[id], w.db.tokens)
    requires Truthful(w, w.db.turns[id], env) && Owed(w.db.turns[id], env) && (At(w, p).Granting? <==> w.db.turns[id].status == Continuable)
    ensures Legal(w, run) && Beaten(w, After(w, run), p, id, L.BeatOf(w.db.turns[id], w.db.tokens, env), env)
  {
    var row := w.db.turns[id];
    if At(w, p).Resuming? {
      run := ResumeIsRun(w, p, id, env);
    } else if L.LeaseAllowed(row, env) {
      run := LeaseIsRun(w, p, id, env);
    } else {
      LeftIsRun(w, p, id, env);
      run := [Crash(p)];
    }
  }

  lemma AnyBeatIsRun(w: World, p: Pid, id: TurnId, env: L.Env) returns (run: seq<Action>)
    requires At(w, p) == Picked(id) && id in w.db.turns && O.RowOk(w.db.turns[id], w.db.tokens)
    requires Truthful(w, w.db.turns[id], env) && Owed(w.db.turns[id], env)
    ensures Legal(w, run) && Beaten(w, After(w, run), p, id, L.BeatOf(w.db.turns[id], w.db.tokens, env), env)
  {
    var v := DoLaneRead(w, p);
    ReadStep(w, p, id);
    if At(v, p).Idle? {
      CeilingIsRun(w, p, id, env);
      run := [LaneRead(p)];
    } else {
      R.One(w, LaneRead(p));
      run := AfterRead(v, p, id, env);
      run := R.Then(w, [LaneRead(p)], v, run, After(v, run));
    }
  }

  /**
   * The whole beat, on any row a lane has picked in a reachable world, whatever others did
   * to it before the lane reads it: what the running lane writes, calls and sends is a run of
   * the protocol. `ResumeIsRun` and `LeaseIsRun` say the same of what follows the read.
   */
  lemma BeatIsRun(w: World, p: Pid, id: TurnId, env: L.Env) returns (run: seq<Action>)
    requires O.Inv(w) && At(w, p) == Picked(id) && id in w.db.turns
    requires Truthful(w, w.db.turns[id], env) && Owed(w.db.turns[id], env)
    ensures Legal(w, run) && O.Inv(After(w, run)) && Beaten(w, After(w, run), p, id, L.BeatOf(w.db.turns[id], w.db.tokens, env), env)
  {
    run := AnyBeatIsRun(w, p, id, env);
    G.RunKeeps(w, run);
  }

  // ---- The lane itself over its store ---------------------------------------------------------

  /** The store is the protocol's, and so is the row. */
  ghost predicate On(w: World, lane: L.Lane, id: TurnId, env: L.Env)
    reads lane.turns
  {
    && w.db.turns == lane.turns.rows && w.db.tokens == lane.turns.tokens && O.Inv(w) && id in w.db.turns
    && Truthful(w, w.db.turns[id], env) && Owed(w.db.turns[id], env)
  }

  /** One beat, from the read on. */
  method Beat(lane: L.Lane, id: TurnId, env: L.Env, ghost w: World, ghost p: Pid) returns (r: L.Result, ghost run: seq<Action>)
    requires On(w, lane, id, env) && At(w, p) == Picked(id)
    modifies lane, lane.turns
    ensures Legal(w, run) && Beaten(w, After(w, run), p, id, L.BeatOf(w.db.turns[id], w.db.tokens, env), env)
    ensures lane.turns.rows == After(w, run).db.turns && lane.turns.tokens == After(w, run).db.tokens
    ensures var b := L.BeatOf(w.db.turns[id], w.db.tokens, env);
            && r == b.result && lane.driven == old(lane.driven) + (if b.driven then [id] else [])
            && lane.outbox == old(lane.outbox) + L.Posted(id, b.said) && lane.reports == old(lane.reports) + L.Reported(id, b.said)
  {
    run := BeatIsRun(w, p, id, env);
    r := lane.Run(id, env);
  }

  /** What follows the read of a row to be resumed. */
  method ResumeRead(lane: L.Lane, id: TurnId, env: L.Env, ghost w: World, ghost p: Pid) returns (r: L.Result, ghost run: seq<Action>)
    requires On(w, lane, id, env) && At(w, p) == Resuming(id)
    modifies lane, lane.turns
    ensures Legal(w, run) && Beaten(w, After(w, run), p, id, L.ResumeBeat(w.db.turns[id], env), env)
    ensures lane.turns.rows == After(w, run).db.turns && lane.turns.tokens == After(w, run).db.tokens
    ensures r == L.ResumeBeat(w.db.turns[id], env).result
  {
    run := ResumeIsRun(w, p, id, env);
    r := lane.Resume(id, env);
  }

  /** What follows the gates of an autonomous lease. */
  method LeaseRead(lane: L.Lane, id: TurnId, env: L.Env, ghost w: World, ghost p: Pid) returns (r: L.Result, ghost run: seq<Action>)
    requires On(w, lane, id, env) && At(w, p) == Granting(id)
    modifies lane, lane.turns
    ensures Legal(w, run) && Beaten(w, After(w, run), p, id, L.LeaseBeat(w.db.turns[id], w.db.tokens, false, env), env)
    ensures lane.turns.rows == After(w, run).db.turns && lane.turns.tokens == After(w, run).db.tokens
    ensures r == L.LeaseBeat(w.db.turns[id], w.db.tokens, false, env).result
  {
    run := LeaseIsRun(w, p, id, env);
    r := lane.Lease(id, false, env);
  }
}

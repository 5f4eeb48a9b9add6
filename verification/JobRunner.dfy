/**
 * `makeJobRunner` (agent/scheduler-run.ts) under `Scheduler.run`
 * (core/scheduler/scheduler.ts): one tick for one due occurrence, as one process performs
 * it. `Worker.Valid` makes every execution a run of the transition system, so what is
 * proved of all runs holds of this code; the contracts here say which run it is.
 */
module JobRunner {

  import opened Common
  import opened Stores
  import opened Protocol
  import opened Process
  import opened Text
  import opened Recovery
  import G = Guarantees
  import O = Occurrence

  /** What the sandbox answered; the first two are the fail-closed nulls. */
  datatype ExecResult = NoSandbox | NoScope | ExecThrew | Ran(timedOut: bool, code: int, stdout: string)

  /** How the agent loop let go of the goal's turn. */
  datatype LoopEnd = LoopFinish(outcome: Outcome, text: string) | LoopSuspend | LoopRelease | LoopThrow

  /** Where the runner's first two writes throw, if they do. */
  datatype Mishap = NoMishap | ClaimThrows | BindThrows

  /** Another process on the same occurrence: it binds between our claim and our bind, or only inserts before we do. */
  datatype Rival = NoRival | Binds(p: Pid, inserts: bool) | Inserts(p: Pid)

  /** Everything a tick learns from outside: money, the executor, the loop, the channel, the database. */
  datatype Env = Env(
    cap: Option<real>,
    spent: Option<real>,
    exec: ExecResult,
    loop: LoopEnd,
    session: seq<SessionMessage>,
    last: Option<LastMessage>,
    stoodDown: bool,
    arrives: bool,
    recordLands: bool,
    settleLands: bool,
    markLands: bool,
    mishap: Mishap)

  datatype RunResult =
    | JobOutcome(stopped: Stopped, text: string, turnId: Option<TurnId>)
    | FireDeferred
    | FireSettleOnly(delivered: bool)

  /** What one tick announces (`onEvent`). */
  datatype Event = BoundTurnPending | Yielded | RanEvent(delivered: bool) | NotRecorded

  /** The per-job ceiling, asked before anything can be spent; no reader means no start. */
  predicate GateRefuses(cap: Option<real>, spent: Option<real>) {
    cap.Some? && (spent.None? || spent.value >= cap.value)
  }

  const NOTE: string := "Job non eseguito"

  lemma NoteSpeaks()
    ensures !Blank(NOTE)
  {
    var note := NOTE;
    assert note[0] == 'J';
  }

  /** The command ran to its end and answered zero. */
  predicate Succeeded(r: ExecResult) { r.Ran? && !r.timedOut && r.code == 0 }

  /** A success says its output, if there is any; a failure always speaks. */
  function ScriptEnd(r: ExecResult): (end: (Outcome, string))
    ensures r.Ran? && !r.timedOut && r.code == 0 ==> end.0 == Answered && TrimOf(r.stdout, end.1)
    ensures !(r.Ran? && !r.timedOut && r.code == 0) ==> end.0 == Error && !Blank(end.1)
  {
    NoteSpeaks();
    match r
    case Ran(false, 0, stdout) => (Answered, Trim(stdout))
    case _ => (Error, NOTE)
  }

  predicate Executes(exec: ExecResult) { exec.ExecThrew? || exec.Ran? }

  /** The row a finished turn of `o` leaves behind: still owed to its channel. */
  function DoneRow(o: Occ, model: Model, outcome: Outcome): Row {
    Row(Scheduler, Some(o.job), true, model, Done, None, Some(outcome), Pending, 0)
  }

  /** What `Scheduler.run` makes of an exception: an error that names no turn. */
  const THROWN: RunResult := JobOutcome(Ended(Error), NOTE, None)

  /** Our insert met a row somebody else wrote. */
  ghost predicate Conflicts(before: World, after: World, pc: PC, o: Occ, r: RunResult) {
    && r == THROWN && pc == Ending(Job(o), None, Stop(Ended(Error)), true)
    && after.db == before.db.(tokens := before.db.tokens + 1) && after.past == before.past
  }

  /** A row written a moment ago by this tick, closed. */
  method CloseRow(g: Worker, o: Occ, id: TurnId, tok: Token, outcome: Outcome, speaks: bool)
    requires g.Valid() && g.Pc().Holding? && g.Pc().side == Job(o) && g.Pc().id == id && g.Pc().tok == tok && MayFinish(g.Pc(), outcome, speaks)
    requires id in g.w.db.turns && g.w.db.turns[id] == NewRow(Scheduler, Some(o.job), true, g.Pc().model, tok)
    modifies g, g.turns
    ensures g.Valid() && g.Pc() == Ending(Job(o), Some(id), Stop(Ended(outcome)), speaks) && g.w.past == old(g.w.past)
    ensures g.w.db == old(g.w.db).(turns := old(g.w.db).turns[id := DoneRow(o, old(g.Pc()).model, outcome)])
  {
    g.FinishTurn(id, tok, outcome, speaks);
  }

  /** Refused by the ceiling: created and closed, nothing executed, no model called. */
  method SkipForBudget(g: Worker, o: Occ, id: TurnId) returns (r: RunResult)
    requires g.Valid() && g.Pc() == Creating(o, id)
    modifies g, g.turns
    ensures g.Valid()
    ensures id in old(g.w).db.turns ==> Conflicts(old(g.w), g.w, g.Pc(), o, r)
    ensures id !in old(g.w).db.turns ==>
              && r == JobOutcome(Ended(Budget), NOTE, Some(id))
              && g.Pc() == Ending(Job(o), Some(id), Stop(Ended(Budget)), true)
              && g.w.db == old(g.w.db).(turns := old(g.w.db).turns[id := DoneRow(o, CappedModel, Budget)], tokens := old(g.w.db).tokens + 1)
              && g.w.past == old(g.w.past).(origin := old(g.w.past).origin[id := o])
  {
    var tok := g.CreateTurn(g.me, o, id, true);
    if tok.None? { return THROWN; }
    CloseRow(g, o, id, tok.value, Budget, true);
    r := JobOutcome(Ended(Budget), NOTE, Some(id));
  }

  /** The row first, the command second: a crash in between leaves a row, never a rerun. */
  method OpenAndExecute(g: Worker, o: Occ, id: TurnId, exec: ExecResult) returns (tok: Option<Token>)
    requires g.Valid() && g.Pc() == Creating(o, id) && KindModel(g.w, o.job) == ScriptModel
    modifies g, g.turns
    ensures g.Valid()
    ensures id in old(g.w).db.turns ==> tok.None? && Conflicts(old(g.w), g.w, g.Pc(), o, THROWN)
    ensures id !in old(g.w).db.turns ==>
              && tok.Some? && g.Pc() == Holding(Job(o), id, tok.value, ScriptModel, Executes(exec))
              && g.w.db == old(g.w.db).(turns := old(g.w.db).turns[id := NewRow(Scheduler, Some(o.job), true, ScriptModel, tok.value)],
                                        tokens := old(g.w.db).tokens + 1)
              && g.w.past == old(g.w.past).(origin := old(g.w.past).origin[id := o],
                                            execs := old(g.w.past).execs + if Executes(exec) then multiset{id} else multiset{})
  {
    tok := g.CreateTurn(g.me, o, id, false);
    if tok.Some? && Executes(exec) {
      g.NoteExecute();
    }
  }

  method RunScript(g: Worker, o: Occ, id: TurnId, exec: ExecResult) returns (r: RunResult)
    requires g.Valid() && g.Pc() == Creating(o, id) && KindModel(g.w, o.job) == ScriptModel
    modifies g, g.turns
    ensures g.Valid()
    ensures id in old(g.w).db.turns ==> Conflicts(old(g.w), g.w, g.Pc(), o, r)
    ensures id !in old(g.w).db.turns ==>
              && r == JobOutcome(Ended(ScriptEnd(exec).0), ScriptEnd(exec).1, Some(id))
              && (Succeeded(exec) ==> r.stopped == Ended(Answered) && TrimOf(exec.stdout, r.text))
              && (!Succeeded(exec) ==> r.stopped == Ended(Error) && !Blank(r.text))
              && g.Pc() == Ending(Job(o), Some(id), Stop(Ended(r.stopped.outcome)), !Blank(r.text))
              && g.w.db == old(g.w.db).(turns := old(g.w.db).turns[id := DoneRow(o, ScriptModel, r.stopped.outcome)], tokens := old(g.w.db).tokens + 1)
              && g.w.past == old(g.w.past).(origin := old(g.w.past).origin[id := o],
                                            execs := old(g.w.past).execs + if Executes(exec) then multiset{id} else multiset{})
  {
    var tok := OpenAndExecute(g, o, id, exec);
    if tok.None? { return THROWN; }
    var (outcome, text) := ScriptEnd(exec);
    CloseRow(g, o, id, tok.value, outcome, !Blank(text));
    r := JobOutcome(Ended(outcome), text, Some(id));
  }

  /** The status a goal's row is left in. */
  function GoalRow(o: Occ, tok: Token, loop: LoopEnd): Row {
    var row := Row(Scheduler, Some(o.job), true, Provider, Running, Some(tok), None, Pending, 0);
    match loop
    case LoopFinish(outcome, _) => DoneRow(o, Provider, outcome)
    case LoopSuspend => row.(status := Waiting, token := None)
    case LoopRelease => row.(status := Continuable, token := None)
    case LoopThrow => row
  }

  function GoalResult(id: TurnId, loop: LoopEnd): RunResult {
    match loop
    case LoopFinish(outcome, text) => JobOutcome(Ended(outcome), text, Some(id))
    case LoopSuspend => JobOutcome(Suspended, NOTE, Some(id))
    case LoopRelease => FireDeferred
    case LoopThrow => JobOutcome(Ended(Error), NOTE, None)
  }

  /** The row is there and the model was called: whichever way the loop lets go of it. */
  method LetGo(g: Worker, o: Occ, id: TurnId, tok: Token, loop: LoopEnd) returns (r: RunResult)
    requires g.Valid() && g.Pc() == Holding(Job(o), id, tok, Provider, false) && HoldsRunning(g.w.db.turns, id, tok)
    requires g.w.db.turns[id] == NewRow(Scheduler, Some(o.job), true, Provider, tok)
    modifies g, g.turns
    ensures g.Valid() && r == GoalResult(id, loop) && Waits(g.Pc(), o, r) && g.w.past == old(g.w.past)
    ensures g.w.db == old(g.w.db).(turns := old(g.w.db).turns[id := GoalRow(o, tok, loop)])
  {
    NoteSpeaks();
    match loop {
      case LoopFinish(outcome, text) => g.FinishTurn(id, tok, outcome, !Blank(text));
      case LoopSuspend => g.SuspendTurn(id, tok);
      case LoopRelease => g.ReleaseTurn(id, tok);
      case LoopThrow => g.NoteThrow();
    }
    r := GoalResult(id, loop);
  }

  method RunGoal(g: Worker, o: Occ, id: TurnId, loop: LoopEnd) returns (r: RunResult)
    requires g.Valid() && g.Pc() == Creating(o, id) && KindModel(g.w, o.job) == Provider
    modifies g, g.turns
    ensures g.Valid()
    ensures id in old(g.w).db.turns ==> Conflicts(old(g.w), g.w, g.Pc(), o, r)
    ensures id !in old(g.w).db.turns ==>
              && r == GoalResult(id, loop) && Waits(g.Pc(), o, r)
              && g.w.db == old(g.w.db).(turns := old(g.w.db).turns[id := GoalRow(o, old(g.w.db).tokens, loop)], tokens := old(g.w.db).tokens + 1)
              && g.w.past == old(g.w.past).(origin := old(g.w.past).origin[id := o], calls := old(g.w.past).calls + multiset{id})
  {
    var tok := g.CreateTurn(g.me, o, id, false);
    if tok.None? { return THROWN; }
    g.NoteModelCall();
    r := LetGo(g, o, id, tok.value, loop);
  }

  /** Where the process stands when the runner returned `r` for `o`. */
  predicate Waits(pc: PC, o: Occ, r: RunResult) {
    match r
    case FireDeferred => pc.Idle?
    case FireSettleOnly(_) => pc == Settling(o, false)
    case JobOutcome(stopped, text, turnId) => stopped != Released && pc == Ending(Job(o), turnId, Stop(stopped), !Blank(text))
  }

  /** The row a first run leaves, by gate and kind. */
  function FreshRow(o: Occ, tok: Token, script: bool, env: Env): Row {
    if GateRefuses(env.cap, env.spent) then DoneRow(o, CappedModel, Budget)
    else if script then DoneRow(o, ScriptModel, ScriptEnd(env.exec).0)
    else GoalRow(o, tok, env.loop)
  }

  function FreshPast(past: Past, o: Occ, id: TurnId, script: bool, env: Env): Past {
    var past := past.(origin := past.origin[id := o]);
    if GateRefuses(env.cap, env.spent) then past
    else if script then past.(execs := past.execs + if Executes(env.exec) then multiset{id} else multiset{})
    else past.(calls := past.calls + multiset{id})
  }

  function FreshResult(id: TurnId, script: bool, env: Env): RunResult {
    if GateRefuses(env.cap, env.spent) then JobOutcome(Ended(Budget), NOTE, Some(id))
    else if script then JobOutcome(Ended(ScriptEnd(env.exec).0), ScriptEnd(env.exec).1, Some(id))
    else GoalResult(id, env.loop)
  }

  /** A rival that is about to insert the same row. */
  ghost predicate AboutToInsert(w: World, me: Pid, rival: Option<Pid>, o: Occ, id: TurnId) {
    rival.Some? ==> rival.value != me && At(w, rival.value) == Creating(o, id)
  }

  /** The first run of the occurrence under its id, unless somebody inserted first. */
  predicate RunsFresh(before: World, after: World, o: Occ, id: TurnId, env: Env, r: RunResult)
    requires o.job in before.jobs
  {
    var script := before.jobs[o.job].script;
    && r == FreshResult(id, script, env)
    && after.db == before.db.(turns := before.db.turns[id := FreshRow(o, before.db.tokens, script, env)], tokens := before.db.tokens + 1)
    && after.past == FreshPast(before.past, o, id, script, env)
  }

  /** A row is there that this tick did not write; nothing was executed, no model called. */
  predicate LosesInsert(before: World, after: World, o: Occ, id: TurnId, r: RunResult) {
    && r == THROWN && id in after.db.turns
    && (forall x | x in before.db.turns :: x in after.db.turns && after.db.turns[x] == before.db.turns[x])
    && after.db.fires == before.db.fires && after.db.ids == before.db.ids && after.db.next == before.db.next
    && after.past == before.past.(origin := after.past.origin)
  }

  method RunKind(g: Worker, o: Occ, id: TurnId, env: Env) returns (r: RunResult)
    requires g.Valid() && g.Pc() == Creating(o, id) && o.job in g.jobs
    modifies g, g.turns
    ensures g.Valid() && Waits(g.Pc(), o, r) && g.w.jobs == old(g.w).jobs && g.w.now == old(g.w).now
    ensures id in old(g.w).db.turns ==> Conflicts(old(g.w), g.w, g.Pc(), o, r)
    ensures id !in old(g.w).db.turns ==> RunsFresh(old(g.w), g.w, o, id, env, r)
  {
    NoteSpeaks();
    if GateRefuses(env.cap, env.spent) {
      r := SkipForBudget(g, o, id);
    } else if g.jobs[o.job].script {
      r := RunScript(g, o, id, env.exec);
    } else {
      r := RunGoal(g, o, id, env.loop);
    }
  }

  method RunFresh(g: Worker, o: Occ, id: TurnId, env: Env, rival: Option<Pid>) returns (r: RunResult)
    requires g.Valid() && g.Pc() == Creating(o, id) && id !in g.w.db.turns && o.job in g.jobs && AboutToInsert(g.w, g.me, rival, o, id)
    modifies g, g.turns
    ensures g.Valid() && Waits(g.Pc(), o, r) && g.w.jobs == old(g.w).jobs && g.w.now == old(g.w).now
    ensures if rival.Some? then LosesInsert(old(g.w), g.w, o, id, r) else RunsFresh(old(g.w), g.w, o, id, env, r)
  {
    if rival.Some? {
      var theirs := g.CreateTurn(rival.value, o, id, false);
    }
    r := RunKind(g, o, id, env);
  }

  /** The row is already there: nothing is run, and the row's own state is the answer. */
  ghost predicate AnswersBound(before: World, after: World, id: TurnId, env: Env, r: RunResult)
    requires id in before.db.turns
  {
    var row := before.db.turns[id];
    && after.db == before.db && after.past == before.past
    && (r.FireDeferred? <==> row.status != Done)
    && (r.FireSettleOnly? <==> row.status == Done && Resolved(row.delivery))
    && (r.FireSettleOnly? ==> (r.delivered <==> row.delivery == Sent))
    && (r.JobOutcome? ==> r.turnId == Some(id) && !Blank(r.text) && r.stopped == Ended(OutcomeOf(row))
                          && Recovers(row, id, env, r.text))
  }

  /** The words of a finished turn: its latest answer, the marked failure, or the fixed apology. */
  ghost predicate Recovers(row: Row, id: TurnId, env: Env, text: string) {
    if row.outcome == Some(Answered) && HasAnswer(env.session, id) then Latest(env.session, id, text)
    else if row.outcome == Some(Error) && ProviderFailure(env.last).Some? then Some(text) == ProviderFailure(env.last)
    else text == NOT_RECOVERED
  }

  /** `existing.outcome ?? 'error'`. */
  function OutcomeOf(row: Row): Outcome { if row.outcome.Some? then row.outcome.value else Error }

  /** What the table says about the bound turn decides everything. */
  method ResolveBound(g: Worker, o: Occ, id: TurnId, env: Env, rival: Option<Pid>) returns (r: RunResult)
    requires g.Valid() && g.Pc() == Resolving(o, id) && o.job in g.jobs && AboutToInsert(g.w, g.me, rival, o, id)
    modifies g, g.turns
    ensures g.Valid() && Waits(g.Pc(), o, r) && g.w.jobs == old(g.w).jobs && g.w.now == old(g.w).now
    ensures id in old(g.w).db.turns ==> AnswersBound(old(g.w), g.w, id, env, r)
    ensures id !in old(g.w).db.turns ==>
              if rival.Some? then LosesInsert(old(g.w), g.w, o, id, r) else RunsFresh(old(g.w), g.w, o, id, env, r)
  {
    g.NoteLookup();
    if id !in g.turns.rows {
      r := RunFresh(g, o, id, env, rival);
      return;
    }
    var row := g.turns.rows[id];
    if row.status != Done {
      return FireDeferred;
    }
    if Resolved(row.delivery) {
      return FireSettleOnly(row.delivery == Sent);
    }
    var text := RecoveredText(env.session, id, row.outcome, env.last);
    r := JobOutcome(Ended(OutcomeOf(row)), text, Some(id));
  }

  /** The id an occurrence is served under: the bound one, else the one minted now. */
  function Serves(db: Db, o: Occ): TurnId {
    if o in db.fires && db.fires[o].turnId.Some? then db.fires[o].turnId.value else db.ids
  }

  function Served(db: Db, o: Occ, raced: bool): Db {
    if o in db.fires && db.fires[o].turnId.Some? then db
    else db.(fires := db.fires[o := (if o in db.fires then db.fires[o] else Fire(None, false, false)).(turnId := Some(db.ids))],
             ids := db.ids + if raced then 2 else 1)
  }

  /** Ids come from the mint: a row under an id nobody minted cannot be there. */
  predicate Minted(db: Db) { forall id | id in db.turns :: id < db.ids }

  /** Nobody had bound the occurrence when the tick claimed it. */
  predicate Unbound(db: Db, o: Occ) { !(o in db.fires && db.fires[o].turnId.Some?) }

  /** The claim or the bind throws: nothing but the bare fire is written. */
  predicate Breaks(db: Db, o: Occ, env: Env) { env.mishap.ClaimThrows? || (env.mishap.BindThrows? && Unbound(db, o)) }

  /** The rival is where it says it is. */
  ghost predicate Rivals(w: World, me: Pid, o: Occ, rival: Rival) {
    match rival
    case NoRival => true
    case Binds(p, _) => p != me && At(w, p) == Binding(o) && Unbound(w.db, o)
    case Inserts(p) => p != me && !Unbound(w.db, o) && At(w, p) == Creating(o, w.db.fires[o].turnId.value)
  }

  /** Somebody inserts the row between our lookup and our insert. */
  predicate Inserted(rival: Rival) { rival.Inserts? || (rival.Binds? && rival.inserts) }

  function Inserter(rival: Rival): Option<Pid> { if Inserted(rival) then Some(rival.p) else None }

  /** First writer wins: ours, or the rival's that came in between. */
  method BindOwn(g: Worker, o: Occ, rival: Rival) returns (id: TurnId, mine: bool)
    requires g.Valid() && g.Pc() == Binding(o) && o in g.w.db.fires && g.w.db.fires[o].turnId.None?
    requires rival.Binds? ==> rival.p != g.me && At(g.w, rival.p) == Binding(o)
    modifies g, g.fires
    ensures g.Valid() && g.Pc() == (if mine then Creating(o, id) else Resolving(o, id)) && (mine <==> !rival.Binds?)
    ensures id == old(g.w.db).ids && g.w.jobs == old(g.w).jobs && g.w.now == old(g.w).now
    ensures g.w.db == old(g.w.db).(fires := old(g.w.db).fires[o := old(g.w.db).fires[o].(turnId := Some(id))],
                                   ids := old(g.w.db).ids + if rival.Binds? then 2 else 1)
    ensures g.w.past == old(g.w.past).(owner := g.w.past.owner, lost := g.w.past.lost)
    ensures rival.Binds? ==> At(g.w, rival.p) == Creating(o, id)
  {
    if rival.Binds? {
      var theirs, first := g.BindFire(rival.p, o);
    }
    var minted, winner := g.BindFire(g.me, o);
    id, mine := winner.value, winner == Some(minted);
  }

  /** The occurrence's one id: `mine` when it is the one minted here, just now. */
  method Identify(g: Worker, o: Occ, rival: Rival) returns (id: TurnId, mine: bool)
    requires g.Valid() && g.Pc() == Claiming(o) && Rivals(g.w, g.me, o, rival)
    modifies g, g.fires
    ensures g.Valid() && g.Pc() == (if mine then Creating(o, id) else Resolving(o, id))
    ensures g.w.jobs == old(g.w).jobs && g.w.now == old(g.w).now
    ensures id == Serves(old(g.w.db), o) && g.w.db == Served(old(g.w.db), o, rival.Binds?)
    ensures mine <==> Unbound(old(g.w.db), o) && !rival.Binds?
    ensures g.w.past == old(g.w.past).(owner := g.w.past.owner, lost := g.w.past.lost)
    ensures !Unbound(old(g.w.db), o) ==> g.w.past == old(g.w.past)
    ensures AboutToInsert(g.w, g.me, Inserter(rival), o, id)
  {
    var bound := g.ClaimFire(o);
    if bound.Some? {
      return bound.value, false;
    }
    id, mine := BindOwn(g, o, rival);
  }

  /** The claim alone, or not even that. */
  predicate OnlyClaims(before: World, after: World, o: Occ, r: RunResult) {
    && r == THROWN && (after.db.fires == before.db.fires || after.db.fires == ClaimFire(before.db.fires, o))
    && after.db == before.db.(fires := after.db.fires) && after.past == before.past
  }

  method BreakDown(g: Worker, o: Occ, env: Env) returns (r: RunResult)
    requires g.Valid() && g.Pc() == Claiming(o) && Breaks(g.w.db, o, env)
    modifies g, g.fires
    ensures g.Valid() && Waits(g.Pc(), o, r) && OnlyClaims(old(g.w), g.w, o, r)
  {
    NoteSpeaks();
    if env.mishap.BindThrows? {
      var bound := g.ClaimFire(o);
    }
    g.NoteThrow();
    r := THROWN;
  }

  /** One tick's work, told by the world it found. */
  ghost predicate Worked(before: World, after: World, o: Occ, env: Env, rival: Rival, r: RunResult)
    requires o.job in before.jobs
  {
    var id, mid := Serves(before.db, o), before.(db := Served(before.db, o, rival.Binds?));
    if Breaks(before.db, o, env) then OnlyClaims(before, after, o, r)
    else if id in before.db.turns then AnswersBound(before, after, id, env, r)
    else
      && after.db.fires == mid.db.fires && after.db.ids == mid.db.ids && after.db.next == before.db.next
      && after.past.sends == before.past.sends && after.past.notices == before.past.notices
      && if Inserted(rival) then OthersRow(before, after, o, id, r) else OwnRow(before, after, o, id, env, r)
  }

  ghost predicate OwnRow(before: World, after: World, o: Occ, id: TurnId, env: Env, r: RunResult)
    requires o.job in before.jobs
  {
    var script := before.jobs[o.job].script;
    && r == FreshResult(id, script, env)
    && after.db.turns == before.db.turns[id := FreshRow(o, before.db.tokens, script, env)]
    && after.past.execs == FreshPast(before.past, o, id, script, env).execs
    && after.past.calls == FreshPast(before.past, o, id, script, env).calls
  }

  ghost predicate OthersRow(before: World, after: World, o: Occ, id: TurnId, r: RunResult) {
    && r == THROWN && id in after.db.turns
    && (forall x | x in before.db.turns :: x in after.db.turns && after.db.turns[x] == before.db.turns[x])
    && after.past.execs == before.past.execs && after.past.calls == before.past.calls
  }

  /**
   * `makeJobRunner`'s closure: claim, bind, and follow the bound id. A rival may bind the
   * same occurrence between our claim and our bind, so that the id we mint is lost, and may
   * insert its row between our lookup and our insert.
   */
  method RunJob(g: Worker, o: Occ, env: Env, rival: Rival) returns (r: RunResult)
    requires g.Valid() && g.Pc() == Claiming(o) && o.job in g.jobs && Minted(g.w.db) && Rivals(g.w, g.me, o, rival)
    modifies g, g.fires, g.turns
    ensures g.Valid() && Waits(g.Pc(), o, r)
    ensures g.w.jobs == old(g.w).jobs && g.w.now == old(g.w).now && Worked(old(g.w), g.w, o, env, rival, r)
  {
    if env.mishap.ClaimThrows? || (env.mishap.BindThrows? && !(o in g.fires.rows && g.fires.rows[o].turnId.Some?)) {
      r := BreakDown(g, o, env);
      return;
    }
    ghost var before := g.w;
    var id, mine := Identify(g, o, rival);
    ghost var mid := g.w;
    if mine {
      r := RunFresh(g, o, id, env, Inserter(rival));
    } else {
      r := ResolveBound(g, o, id, env, Inserter(rival));
    }
    FollowsWork(before, mid, g.w, o, env, rival, r);
  }

  lemma FollowsWork(before: World, mid: World, after: World, o: Occ, env: Env, rival: Rival, r: RunResult)
    requires o.job in before.jobs && mid.jobs == before.jobs && !Breaks(before.db, o, env) && Minted(before.db)
    requires mid.db == Served(before.db, o, rival.Binds?) && mid.past == before.past.(owner := mid.past.owner, lost := mid.past.lost)
    requires !Unbound(before.db, o) ==> mid.past == before.past
    requires var id := Serves(before.db, o);
             if id in mid.db.turns then AnswersBound(mid, after, id, env, r)
             else if Inserted(rival) then LosesInsert(mid, after, o, id, r) else RunsFresh(mid, after, o, id, env, r)
    ensures Worked(before, after, o, env, rival, r)
  {
  }

  /** The words go out: any ending but a silent success, unless there are none to say. */
  predicate Speaks(silentPolicy: bool, r: RunResult) {
    r.JobOutcome? && r.stopped.Ended? && (!Blank(r.text) || r.stopped == Ended(Error))
    && !(silentPolicy && r.stopped == Ended(Answered) && !Blank(r.text))
  }

  /** Yielded: the occurrence stays due for whoever runs next. */
  predicate Yields(stoodDown: bool, r: RunResult) {
    r.JobOutcome? && (r.stopped == Ended(Aborted) || stoodDown)
  }

  /** Both last writes land. */
  predicate Lands(env: Env) { env.settleLands && env.markLands }

  function Announced(silentPolicy: bool, r: RunResult, env: Env): Event {
    if r.FireDeferred? then BoundTurnPending
    else if Yields(env.stoodDown, r) then Yielded
    else if !Lands(env) then NotRecorded
    else if r.FireSettleOnly? then RanEvent(r.delivered)
    else RanEvent(Speaks(silentPolicy, r) && env.arrives)
  }

  /** The two last writes, the second only after the first; an exception stops there and is swallowed. */
  predicate Wrote(before: World, after: World, o: Occ, silent: bool, env: Env) {
    && after.db.fires == (if env.settleLands then SettleFire(before.db.fires, o, silent) else before.db.fires)
    && after.db.next == (if Lands(env) then Protocol.MarkRan(before, o.job) else before.db.next)
    && after.db.turns == before.db.turns && after.db.ids == before.db.ids && after.db.tokens == before.db.tokens
    && after.past == before.past.(marked := before.past.marked + if Lands(env) then {o} else {})
  }

  method SettleAndAdvance(g: Worker, o: Occ, silent: bool, env: Env)
    requires g.Valid() && g.Pc() == Settling(o, silent)
    modifies g, g.fires
    ensures g.Valid() && g.Pc().Idle? && g.w.jobs == old(g.w).jobs && Wrote(old(g.w), g.w, o, silent, env)
  {
    if !env.settleLands {
      g.NoteUnrecorded();
      return;
    }
    g.SettleFire(o, silent);
    if !env.markLands {
      g.NoteUnrecorded();
      return;
    }
    g.MarkRan(o);
  }

  /** The row a record lands on, whatever else the turn's delivery went through. */
  function Recorded(turns: Turns, turnId: Option<TurnId>, env: Env): Turns {
    if turnId.Some? && env.recordLands then DeliverRow(turns, turnId.value, if env.arrives then Sent else Failed) else turns
  }

  /** One message, and its record: sent if it arrived, failed if it did not. */
  method DeliverAndRecord(g: Worker, o: Occ, turnId: Option<TurnId>, text: string, env: Env) returns (said: Option<string>)
    requires g.Valid() && g.Pc().Ending? && g.Pc().side == Job(o) && g.Pc().turn == turnId
    requires EndVerdict(g.w, g.Pc(), false).Speak? && (turnId.Some? ==> Answers(g.Pc().end))
    modifies g, g.turns
    ensures g.Valid() && g.Pc() == Settling(o, false) && g.w.jobs == old(g.w).jobs && g.w.now == old(g.w).now
    ensures g.w.db == old(g.w.db).(turns := Recorded(old(g.w.db).turns, turnId, env))
    ensures turnId.Some? && turnId.value in old(g.w.db).turns && env.recordLands ==>
              g.w.db.turns == old(g.w.db).turns[turnId.value := old(g.w.db).turns[turnId.value].(delivery := if env.arrives then Sent else Failed)]
    ensures !env.recordLands || turnId.None? ==> g.w.db.turns == old(g.w.db).turns
    ensures Told(old(g.w.past), g.w.past, o, true, turnId) && said == Some(text)
  {
    var d := if env.arrives then Sent else Failed;
    g.NoteSend(d);
    said := Some(text);
    g.RecordDelivery(turnId, d, env.recordLands);
  }

  /** What a message adds to history. */
  predicate Told(before: Past, after: Past, o: Occ, told: bool, turnId: Option<TurnId>) {
    && after.sends == (if told && turnId.Some? then before.sends + multiset{turnId.value} else before.sends)
    && after.notices == (if told && turnId.None? then before.notices + multiset{o} else before.notices)
    && after.execs == before.execs && after.calls == before.calls
  }

  /** Over without a word. */
  method SettleQuietly(g: Worker, o: Occ, silent: bool, env: Env)
    requires g.Valid() && g.Pc().Ending? && g.Pc().side == Job(o) && EndVerdict(g.w, g.Pc(), false) == SettleNow(silent)
    modifies g, g.fires
    ensures g.Valid() && g.Pc().Idle? && g.w.jobs == old(g.w).jobs && Wrote(old(g.w), g.w, o, silent, env)
  {
    g.NoteEnd(false);
    SettleAndAdvance(g, o, silent, env);
  }

  /** The occurrence is over: told at most once, settled, and moved past as far as the writes land. */
  predicate Closed(before: World, after: World, o: Occ, r: RunResult, env: Env)
    requires o.job in before.jobs
  {
    var silentPolicy := before.jobs[o.job].silent;
    var told := Speaks(silentPolicy, r);
    var turnId := if r.JobOutcome? then r.turnId else None;
    var silent := r.JobOutcome? && !Blank(r.text) && silentPolicy && r.stopped == Ended(Answered);
    && after.db.fires == (if env.settleLands then SettleFire(before.db.fires, o, silent) else before.db.fires)
    && after.db.next == (if Lands(env) then Protocol.MarkRan(before, o.job) else before.db.next)
    && after.db.ids == before.db.ids
    && after.db.turns == (if told then Recorded(before.db.turns, turnId, env) else before.db.turns)
    && Told(before.past, after.past, o, told, turnId)
  }

  /** The words that leave the process, if any. */
  function Words(silentPolicy: bool, r: RunResult, env: Env): Option<string> {
    if !Yields(env.stoodDown, r) && Speaks(silentPolicy, r) then Some(r.text) else None
  }

  ghost predicate Concluded(before: World, after: World, o: Occ, r: RunResult, env: Env, event: Event, said: Option<string>)
    requires o.job in before.jobs
  {
    && event == Announced(before.jobs[o.job].silent, r, env) && said == Words(before.jobs[o.job].silent, r, env)
    && if event.BoundTurnPending? || event.Yielded? then after.db == before.db && after.past == before.past
       else Closed(before, after, o, r, env)
  }

  /** `Scheduler.run` once the runner has answered: deliver, record, settle, advance. */
  method Conclude(g: Worker, o: Occ, r: RunResult, env: Env) returns (event: Event, said: Option<string>)
    requires g.Valid() && Waits(g.Pc(), o, r) && o.job in g.jobs
    modifies g, g.fires, g.turns
    ensures g.Valid() && g.Pc().Idle? && Concluded(old(g.w), g.w, o, r, env, event, said)
  {
    event, said := Announced(g.jobs[o.job].silent, r, env), None;
    if r.FireDeferred? {
      return;
    }
    if r.FireSettleOnly? {
      SettleAndAdvance(g, o, false, env);
      return;
    }
    said := ConcludeOutcome(g, o, r, env);
  }

  method SpeakAndSettle(g: Worker, o: Occ, r: RunResult, env: Env) returns (said: Option<string>)
    requires g.Valid() && r.JobOutcome? && Waits(g.Pc(), o, r) && o.job in g.jobs && !Yields(false, r) && Speaks(g.jobs[o.job].silent, r)
    modifies g, g.fires, g.turns
    ensures g.Valid() && g.Pc().Idle? && Closed(old(g.w), g.w, o, r, env) && said == Some(r.text)
  {
    said := DeliverAndRecord(g, o, r.turnId, r.text, env);
    SettleAndAdvance(g, o, false, env);
  }

  method KeepQuiet(g: Worker, o: Occ, r: RunResult, silent: bool, env: Env)
    requires g.Valid() && r.JobOutcome? && Waits(g.Pc(), o, r) && o.job in g.jobs && !Yields(false, r) && !Speaks(g.jobs[o.job].silent, r)
    requires silent == (!Blank(r.text) && g.jobs[o.job].silent && r.stopped == Ended(Answered))
    modifies g, g.fires
    ensures g.Valid() && g.Pc().Idle? && Closed(old(g.w), g.w, o, r, env)
  {
    SettleQuietly(g, o, silent, env);
  }

  /** A turn that ended, one way or another, in this very tick or in an earlier one. */
  method ConcludeOutcome(g: Worker, o: Occ, r: RunResult, env: Env) returns (said: Option<string>)
    requires g.Valid() && r.JobOutcome? && Waits(g.Pc(), o, r) && o.job in g.jobs
    modifies g, g.fires, g.turns
    ensures g.Valid() && g.Pc().Idle? && said == Words(g.jobs[o.job].silent, r, env)
    ensures if Yields(env.stoodDown, r) then g.w.db == old(g.w.db) && g.w.past == old(g.w.past) else Closed(old(g.w), g.w, o, r, env)
  {
    said := None;
    if r.stopped == Ended(Aborted) || env.stoodDown {
      g.NoteEnd(env.stoodDown);
      return;
    }
    NoteSpeaks();
    if r.stopped == Suspended || (Blank(r.text) && r.stopped != Ended(Error)) {
      KeepQuiet(g, o, r, false, env);
      return;
    }
    if g.jobs[o.job].silent && r.stopped == Ended(Answered) {
      KeepQuiet(g, o, r, true, env);
      return;
    }
    said := SpeakAndSettle(g, o, r, env);
  }

  // ---- What a tick does, told by what it found and learned --------------------------------

  /**
   * A sound tick serves one identity with a row behind it; no tick moves another row, nor
   * the schedule unless it says it ran, and then only this job's.
   */
  predicate TickKeeps(before: World, after: World, o: Occ, env: Env, event: Event) {
    var id := Serves(before.db, o);
    && (!Breaks(before.db, o, env) ==> Bound(after, o, id) && id in after.db.turns)
    && (forall x | x in before.db.turns && x != id :: x in after.db.turns && after.db.turns[x] == before.db.turns[x])
    && after.db.next == (if event.RanEvent? then Protocol.MarkRan(before, o.job) else before.db.next)
    && (event.RanEvent? && o in after.db.fires ==> after.db.fires[o].settled)
  }

  /** What is announced: the tick ran, and its message arrived, only once both last writes landed. */
  predicate Announces(event: Event, pending: bool, lets: bool, env: Env, arrived: bool) {
    event == if pending then BoundTurnPending
             else if lets then Yielded
             else if !(env.settleLands && env.markLands) then NotRecorded
             else RanEvent(arrived)
  }

  /** The fire, unless it was settled before: settled if that write landed, with a receipt for an answer kept silent. */
  predicate Receipt(before: World, after: World, o: Occ, over: bool, env: Env, silent: bool) {
    (o in before.db.fires ==> !before.db.fires[o].settled) && o in after.db.fires ==>
      if over && env.settleLands then after.db.fires[o].settled && (after.db.fires[o].silent <==> silent)
      else !after.db.fires[o].settled
  }

  /** The mark of a message: sent if it arrived, failed if it did not, and none if it could not be written. */
  predicate MarkedBy(before: Delivery, after: Delivery, said: bool, env: Env) {
    after == if said && env.recordLands then (if env.arrives then Sent else Failed) else before
  }

  /** A tick that finds the row never runs it, and never repeats a resolved delivery. */
  ghost predicate TickOfKnown(before: World, after: World, o: Occ, env: Env, event: Event, said: Option<string>)
    requires Serves(before.db, o) in before.db.turns && o.job in before.jobs
  {
    var id := Serves(before.db, o);
    var row := before.db.turns[id];
    var outcome := if row.outcome.Some? then row.outcome.value else Error;
    var open := row.status == Done && (row.delivery == InBand || row.delivery == Pending);
    var quiet := outcome == Answered && before.jobs[o.job].silent;
    && after.past.execs == before.past.execs && after.past.calls == before.past.calls && after.past.notices == before.past.notices
    && (said.Some? <==> open && !env.stoodDown && outcome != Aborted && !quiet)
    && (said.Some? ==> !Blank(said.value) && Recovers(row, id, env, said.value))
    && after.past.sends == (if said.Some? then before.past.sends + multiset{id} else before.past.sends)
    && id in after.db.turns && after.db.turns.Keys == before.db.turns.Keys
    && after.db.turns[id] == row.(delivery := after.db.turns[id].delivery)
    && MarkedBy(row.delivery, after.db.turns[id].delivery, said.Some?, env)
    && Announces(event, row.status != Done, open && (outcome == Aborted || env.stoodDown), env,
                 if open then said.Some? && env.arrives else row.delivery == Sent)
    && Receipt(before, after, o, row.status == Done && !(open && (outcome == Aborted || env.stoodDown)), env, open && quiet)
    && (event.BoundTurnPending? || event.Yielded? ==> after.db == before.db && after.past == before.past.(started := after.past.started))
  }

  /** The row a first run writes: whose it is, who ran it, and how it was left. */
  predicate FreshRowIs(row: Row, o: Occ, refused: bool, script: bool, env: Env) {
    && row.principal == Scheduler && row.job == Some(o.job) && row.addressed && row.lease == 0
    && if refused then row.model == CappedModel && row.status == Done && row.outcome == Some(Budget)
       else if script then
         row.model == ScriptModel && row.status == Done
         && row.outcome == Some(if env.exec.Ran? && !env.exec.timedOut && env.exec.code == 0 then Answered else Error)
       else
         && row.model == Provider
         && (env.loop.LoopFinish? ==> row.status == Done && row.outcome == Some(env.loop.outcome))
         && (env.loop.LoopSuspend? ==> row.status == Waiting) && (env.loop.LoopRelease? ==> row.status == Continuable)
         && (env.loop.LoopThrow? ==> row.status == Running)
         && (!env.loop.LoopFinish? ==> row.outcome.None?)
  }

  /** What a first run says: a refusal and a failure always, a success its own words unless they are kept silent. */
  ghost predicate FreshSays(refused: bool, script: bool, silent: bool, env: Env, said: Option<string>) {
    if env.stoodDown then said.None?
    else if refused then said.Some? && !Blank(said.value)
    else if script then
      if !(env.exec.Ran? && !env.exec.timedOut && env.exec.code == 0) then said.Some? && !Blank(said.value)
      else if silent || Blank(env.exec.stdout) then said.None?
      else said.Some? && TrimOf(env.exec.stdout, said.value)
    else
      match env.loop
      case LoopFinish(outcome, text) =>
        said == if outcome == Aborted || (Blank(text) && outcome != Error) || (silent && outcome == Answered) then None else Some(text)
      case LoopThrow => said.Some? && !Blank(said.value)
      case _ => said.None?
  }

  /** Kept silent with a receipt: an answer with words, under a silent policy. */
  predicate FreshQuiet(refused: bool, script: bool, silent: bool, env: Env) {
    silent && !refused
    && if script then env.exec.Ran? && !env.exec.timedOut && env.exec.code == 0 && !Blank(env.exec.stdout)
       else env.loop.LoopFinish? && env.loop.outcome == Answered && !Blank(env.loop.text)
  }

  /** A first run: nothing spent past the ceiling, else one run of the script or the model. */
  ghost predicate TickOfFresh(before: World, after: World, o: Occ, env: Env, event: Event, said: Option<string>)
    requires o.job in before.jobs
  {
    var id, job := Serves(before.db, o), before.jobs[o.job];
    var refused := env.cap.Some? && (env.spent.None? || env.spent.value >= env.cap.value);
    var goal := !refused && !job.script;
    var threw := goal && env.loop.LoopThrow?;
    var lets := env.stoodDown || (goal && env.loop.LoopFinish? && env.loop.outcome == Aborted);
    var pending := goal && env.loop.LoopRelease?;
    && after.past.execs == before.past.execs + (if !refused && job.script && (env.exec.ExecThrew? || env.exec.Ran?) then multiset{id} else multiset{})
    && after.past.calls == before.past.calls + (if goal then multiset{id} else multiset{})
    && id in after.db.turns && FreshRowIs(after.db.turns[id], o, refused, job.script, env)
    && FreshSays(refused, job.script, job.silent, env, said)
    && after.past.sends == before.past.sends + (if said.Some? && !threw then multiset{id} else multiset{})
    && after.past.notices == before.past.notices + (if said.Some? && threw then multiset{o} else multiset{})
    && MarkedBy(Pending, after.db.turns[id].delivery, said.Some? && !threw, env)
    && Announces(event, pending, lets, env, said.Some? && env.arrives)
    && Receipt(before, after, o, !pending && !lets, env, FreshQuiet(refused, job.script, job.silent, env))
  }

  /** A throw or a lost insert: nothing is run, and the failure is announced unless the tick stood down. */
  predicate TickOfFailure(before: World, after: World, o: Occ, env: Env, event: Event, said: Option<string>) {
    && after.past.execs == before.past.execs && after.past.calls == before.past.calls && after.past.sends == before.past.sends
    && (said.Some? <==> !env.stoodDown) && (said.Some? ==> !Blank(said.value))
    && after.past.notices == before.past.notices + (if env.stoodDown then multiset{} else multiset{o})
    && Announces(event, false, env.stoodDown, env, said.Some? && env.arrives)
    && Receipt(before, after, o, !env.stoodDown, env, false)
  }

  /** The insert or an earlier write failed. */
  predicate FailsHere(before: World, o: Occ, env: Env, rival: Rival) {
    Breaks(before.db, o, env) || (Serves(before.db, o) !in before.db.turns && Inserted(rival))
  }

  lemma OutcomeIsOfItsRow(before: World, mid: World, o: Occ, env: Env, rival: Rival, r: RunResult)
    requires o.job in before.jobs && Worked(before, mid, o, env, rival, r)
    ensures r.JobOutcome? && r.turnId.Some? ==> r.turnId.value == Serves(before.db, o)
  {
  }

  /** A tick's work settles nothing. */
  predicate SameReceipt(before: World, mid: World, o: Occ) {
    o in mid.db.fires ==> (mid.db.fires[o].settled <==> o in before.db.fires && before.db.fires[o].settled)
  }

  lemma WorkedSettlesNothing(before: World, mid: World, o: Occ, env: Env, rival: Rival, r: RunResult)
    requires o.job in before.jobs && Worked(before, mid, o, env, rival, r)
    ensures SameReceipt(before, mid, o)
  {
  }

  /** What a tick's work leaves in the tables, whatever its outcome. */
  ghost predicate WorkKeeps(before: World, mid: World, o: Occ, env: Env) {
    var id := Serves(before.db, o);
    && (!Breaks(before.db, o, env) ==> Bound(mid, o, id) && id in mid.db.turns)
    && (forall x | x in before.db.turns && x != id :: x in mid.db.turns && mid.db.turns[x] == before.db.turns[x])
    && mid.db.next == before.db.next && mid.jobs == before.jobs && mid.now == before.now
  }

  lemma WorkedKeeps(before: World, mid: World, o: Occ, env: Env, rival: Rival, r: RunResult)
    requires o.job in before.jobs && Minted(before.db) && Worked(before, mid, o, env, rival, r) && mid.jobs == before.jobs && mid.now == before.now
    ensures WorkKeeps(before, mid, o, env)
  {
  }

  /** An occurrence that is over: its own row and fire, and its job's next fire. */
  lemma ClosedKeeps(before: World, mid: World, after: World, o: Occ, env: Env, r: RunResult)
    requires o.job in before.jobs && WorkKeeps(before, mid, o, env) && Closed(mid, after, o, r, env)
    requires r.JobOutcome? && r.turnId.Some? ==> r.turnId.value == Serves(before.db, o)
    ensures var id := Serves(before.db, o);
            && (!Breaks(before.db, o, env) ==> Bound(after, o, id) && id in after.db.turns)
            && (forall x | x in before.db.turns && x != id :: x in after.db.turns && after.db.turns[x] == before.db.turns[x])
            && after.db.next == (if Lands(env) then Protocol.MarkRan(before, o.job) else before.db.next)
            && (Lands(env) && o in after.db.fires ==> after.db.fires[o].settled)
  {
  }

  lemma ConcludedKeeps(before: World, mid: World, after: World, o: Occ, env: Env, r: RunResult, event: Event, said: Option<string>)
    requires o.job in before.jobs && WorkKeeps(before, mid, o, env) && Concluded(mid, after, o, r, env, event, said)
    requires r.JobOutcome? && r.turnId.Some? ==> r.turnId.value == Serves(before.db, o)
    ensures TickKeeps(before, after, o, env, event)
  {
    if !event.BoundTurnPending? && !event.Yielded? { ClosedKeeps(before, mid, after, o, env, r); }
  }

  /** How a tick's conclusion changes its own row, the books and the fire, whatever its work was. */
  ghost predicate EndsWith(before: World, mid: World, after: World, o: Occ, id: TurnId, r: RunResult, env: Env, event: Event, said: Option<string>)
    requires o.job in mid.jobs && id in mid.db.turns
  {
    var silent, named := mid.jobs[o.job].silent, r.JobOutcome? && r.turnId.Some?;
    && event == Announced(silent, r, env) && said == Words(silent, r, env)
    && id in after.db.turns && after.db.turns[id] == mid.db.turns[id].(delivery := after.db.turns[id].delivery)
    && MarkedBy(mid.db.turns[id].delivery, after.db.turns[id].delivery, said.Some? && named, env)
    && after.past.execs == mid.past.execs && after.past.calls == mid.past.calls
    && after.past.sends == mid.past.sends + (if said.Some? && named then multiset{id} else multiset{})
    && after.past.notices == mid.past.notices + (if said.Some? && !named then multiset{o} else multiset{})
    && Receipt(before, after, o, !event.BoundTurnPending? && !event.Yielded?, env,
               silent && r.JobOutcome? && r.stopped == Ended(Answered) && !Blank(r.text))
  }

  lemma ConclusionReceipt(before: World, mid: World, after: World, o: Occ, r: RunResult, env: Env, event: Event, said: Option<string>)
    requires o.job in mid.jobs && SameReceipt(before, mid, o) && Concluded(mid, after, o, r, env, event, said)
    ensures Receipt(before, after, o, !event.BoundTurnPending? && !event.Yielded?, env,
                    mid.jobs[o.job].silent && r.JobOutcome? && r.stopped == Ended(Answered) && !Blank(r.text))
  {
  }

  lemma ConclusionBooks(mid: World, after: World, o: Occ, id: TurnId, r: RunResult, env: Env, event: Event, said: Option<string>)
    requires o.job in mid.jobs && id in mid.db.turns && Concluded(mid, after, o, r, env, event, said)
    requires r.JobOutcome? && r.turnId.Some? ==> r.turnId.value == id
    ensures var named := r.JobOutcome? && r.turnId.Some?;
            && id in after.db.turns && after.db.turns[id] == mid.db.turns[id].(delivery := after.db.turns[id].delivery)
            && MarkedBy(mid.db.turns[id].delivery, after.db.turns[id].delivery, said.Some? && named, env)
            && after.past.execs == mid.past.execs && after.past.calls == mid.past.calls
            && after.past.sends == mid.past.sends + (if said.Some? && named then multiset{id} else multiset{})
            && after.past.notices == mid.past.notices + (if said.Some? && !named then multiset{o} else multiset{})
  {
  }

  lemma Conclusion(before: World, mid: World, after: World, o: Occ, id: TurnId, r: RunResult, env: Env, event: Event, said: Option<string>)
    requires o.job in mid.jobs && id in mid.db.turns && SameReceipt(before, mid, o) && Concluded(mid, after, o, r, env, event, said)
    requires r.JobOutcome? && r.turnId.Some? ==> r.turnId.value == id
    ensures EndsWith(before, mid, after, o, id, r, env, event, said)
  {
    ConclusionReceipt(before, mid, after, o, r, env, event, said);
    ConclusionBooks(mid, after, o, id, r, env, event, said);
  }

  /** The work of a first run, before its conclusion. */
  ghost predicate FreshWork(before: World, mid: World, o: Occ, id: TurnId, env: Env, r: RunResult)
    requires o.job in before.jobs
  {
    var script := before.jobs[o.job].script;
    && mid.jobs == before.jobs && r == FreshResult(id, script, env) && id in mid.db.turns && mid.db.turns[id] == FreshRow(o, before.db.tokens, script, env)
    && mid.past.execs == FreshPast(before.past, o, id, script, env).execs && mid.past.calls == FreshPast(before.past, o, id, script, env).calls
    && mid.past.sends == before.past.sends && mid.past.notices == before.past.notices
  }

  lemma RefusedTick(before: World, mid: World, after: World, o: Occ, env: Env, r: RunResult, event: Event, said: Option<string>)
    requires o.job in before.jobs && FreshWork(before, mid, o, Serves(before.db, o), env, r)
    requires EndsWith(before, mid, after, o, Serves(before.db, o), r, env, event, said)
    requires GateRefuses(env.cap, env.spent)
    ensures TickOfFresh(before, after, o, env, event, said)
  {
    NoteSpeaks();
  }

  lemma ScriptTick(before: World, mid: World, after: World, o: Occ, env: Env, r: RunResult, event: Event, said: Option<string>)
    requires o.job in before.jobs && FreshWork(before, mid, o, Serves(before.db, o), env, r)
    requires EndsWith(before, mid, after, o, Serves(before.db, o), r, env, event, said)
    requires !GateRefuses(env.cap, env.spent) && before.jobs[o.job].script
    ensures TickOfFresh(before, after, o, env, event, said)
  {
    if Succeeded(env.exec) { BlankTrim(env.exec.stdout, ScriptEnd(env.exec).1); }
  }

  lemma BlankTrim(s: string, t: string)
    requires TrimOf(s, t)
    ensures Blank(t) <==> Blank(s)
  {
    var i: nat, j: nat :| Between(s, t, i, j);
    assert s == s[..i] + t + s[j..];
  }

  lemma GoalTick(before: World, mid: World, after: World, o: Occ, env: Env, r: RunResult, event: Event, said: Option<string>)
    requires o.job in before.jobs && FreshWork(before, mid, o, Serves(before.db, o), env, r)
    requires EndsWith(before, mid, after, o, Serves(before.db, o), r, env, event, said)
    requires !GateRefuses(env.cap, env.spent) && !before.jobs[o.job].script
    ensures TickOfFresh(before, after, o, env, event, said)
  {
    NoteSpeaks();
  }

  lemma FreshTick(before: World, mid: World, after: World, o: Occ, env: Env, r: RunResult, event: Event, said: Option<string>)
    requires o.job in before.jobs && mid.jobs == before.jobs && OwnRow(before, mid, o, Serves(before.db, o), env, r)
    requires mid.past.sends == before.past.sends && mid.past.notices == before.past.notices && SameReceipt(before, mid, o)
    requires Concluded(mid, after, o, r, env, event, said)
    ensures TickOfFresh(before, after, o, env, event, said)
  {
    Conclusion(before, mid, after, o, Serves(before.db, o), r, env, event, said);
    if GateRefuses(env.cap, env.spent) {
      RefusedTick(before, mid, after, o, env, r, event, said);
    } else if before.jobs[o.job].script {
      ScriptTick(before, mid, after, o, env, r, event, said);
    } else {
      GoalTick(before, mid, after, o, env, r, event, said);
    }
  }

  lemma KnownTick(before: World, mid: World, after: World, o: Occ, env: Env, r: RunResult, event: Event, said: Option<string>)
    requires Serves(before.db, o) in before.db.turns && o.job in before.jobs && mid.jobs == before.jobs
    requires AnswersBound(before, mid, Serves(before.db, o), env, r) && Concluded(mid, after, o, r, env, event, said)
    ensures TickOfKnown(before, after, o, env, event, said)
  {
    Conclusion(before, mid, after, o, Serves(before.db, o), r, env, event, said);
    SameKeys(mid, after, o, r, env, event, said);
  }

  lemma SameKeys(mid: World, after: World, o: Occ, r: RunResult, env: Env, event: Event, said: Option<string>)
    requires o.job in mid.jobs && Concluded(mid, after, o, r, env, event, said) && (r.JobOutcome? && r.turnId.Some? ==> r.turnId.value in mid.db.turns)
    ensures after.db.turns.Keys == mid.db.turns.Keys
  {
  }

  lemma FailedTick(before: World, mid: World, after: World, o: Occ, env: Env, event: Event, said: Option<string>)
    requires o.job in before.jobs && mid.jobs == before.jobs && Concluded(mid, after, o, THROWN, env, event, said)
    requires mid.past.execs == before.past.execs && mid.past.calls == before.past.calls
    requires mid.past.sends == before.past.sends && mid.past.notices == before.past.notices && SameReceipt(before, mid, o)
    ensures TickOfFailure(before, after, o, env, event, said)
  {
    NoteSpeaks();
    ConclusionReceipt(before, mid, after, o, THROWN, env, event, said);
  }

  /** One tick for the oldest due occurrence. */
  method Tick(g: Worker, o: Occ, env: Env, rival: Rival) returns (event: Event, said: Option<string>)
    requires g.Valid() && g.Pc().Idle? && OldestDue(g.w, o) && Minted(g.w.db) && Rivals(g.w, g.me, o, rival)
    modifies g, g.fires, g.turns
    ensures g.Valid() && g.Pc().Idle? && TickKeeps(old(g.w), g.w, o, env, event)
    ensures if FailsHere(old(g.w), o, env, rival) then TickOfFailure(old(g.w), g.w, o, env, event, said)
            else if Serves(old(g.w.db), o) in old(g.w.db).turns then TickOfKnown(old(g.w), g.w, o, env, event, said)
            else TickOfFresh(old(g.w), g.w, o, env, event, said)
  {
    ghost var before := g.w;
    g.NoteTick(o);
    ghost var begun := g.w;
    var r := RunJob(g, o, env, rival);
    ghost var mid := g.w;
    OutcomeIsOfItsRow(begun, mid, o, env, rival, r);
    event, said := Conclude(g, o, r, env);
    TickMeans(begun, mid, g.w, o, env, rival, r, event, said);
    StartIrrelevant(before, begun, g.w, o, env, rival, event, said);
  }

  ghost predicate TickIs(before: World, after: World, o: Occ, env: Env, rival: Rival, event: Event, said: Option<string>)
    requires o.job in before.jobs
  {
    && TickKeeps(before, after, o, env, event)
    && if FailsHere(before, o, env, rival) then TickOfFailure(before, after, o, env, event, said)
       else if Serves(before.db, o) in before.db.turns then TickOfKnown(before, after, o, env, event, said)
       else TickOfFresh(before, after, o, env, event, said)
  }

  lemma TickMeans(before: World, mid: World, after: World, o: Occ, env: Env, rival: Rival, r: RunResult, event: Event, said: Option<string>)
    requires o.job in before.jobs && Minted(before.db) && mid.jobs == before.jobs && mid.now == before.now
    requires Worked(before, mid, o, env, rival, r) && Concluded(mid, after, o, r, env, event, said)
    ensures TickIs(before, after, o, env, rival, event, said)
  {
    OutcomeIsOfItsRow(before, mid, o, env, rival, r);
    WorkedKeeps(before, mid, o, env, rival, r);
    WorkedSettlesNothing(before, mid, o, env, rival, r);
    ConcludedKeeps(before, mid, after, o, env, r, event, said);
    if FailsHere(before, o, env, rival) {
      FailedTick(before, mid, after, o, env, event, said);
    } else if Serves(before.db, o) in before.db.turns {
      KnownTick(before, mid, after, o, env, r, event, said);
    } else {
      FreshTick(before, mid, after, o, env, r, event, said);
    }
  }

  /** Starting changes where the process stands, and history's list of starts. */
  ghost predicate OnlyStarted(before: World, begun: World) {
    && begun.jobs == before.jobs && begun.db == before.db && begun.now == before.now
    && begun.past == before.past.(started := begun.past.started)
  }

  lemma StartKeepsKnown(before: World, begun: World, after: World, o: Occ, env: Env, event: Event, said: Option<string>)
    requires o.job in before.jobs && OnlyStarted(before, begun) && Serves(before.db, o) in before.db.turns
    requires TickOfKnown(begun, after, o, env, event, said)
    ensures TickOfKnown(before, after, o, env, event, said)
  {
  }

  lemma StartKeepsFresh(before: World, begun: World, after: World, o: Occ, env: Env, event: Event, said: Option<string>)
    requires o.job in before.jobs && OnlyStarted(before, begun) && TickOfFresh(begun, after, o, env, event, said)
    ensures TickOfFresh(before, after, o, env, event, said)
  {
  }

  lemma StartKeepsFailure(before: World, begun: World, after: World, o: Occ, env: Env, event: Event, said: Option<string>)
    requires OnlyStarted(before, begun) && TickOfFailure(begun, after, o, env, event, said)
    ensures TickOfFailure(before, after, o, env, event, said)
  {
  }

  lemma StartIrrelevant(before: World, begun: World, after: World, o: Occ, env: Env, rival: Rival, event: Event, said: Option<string>)
    requires o.job in before.jobs && OnlyStarted(before, begun) && TickIs(begun, after, o, env, rival, event, said)
    ensures TickIs(before, after, o, env, rival, event, said)
  {
    if FailsHere(before, o, env, rival) {
      StartKeepsFailure(before, begun, after, o, env, event, said);
    } else if Serves(before.db, o) in before.db.turns {
      StartKeepsKnown(before, begun, after, o, env, event, said);
    } else {
      StartKeepsFresh(before, begun, after, o, env, event, said);
    }
  }

  /** What every run keeps holds wherever a worker's own steps lead. */
  lemma WorkerKeeps(start: World, log: seq<Action>, w: World, o: Occ)
    requires O.Inv(start) && Reached(start, log, w)
    ensures O.Inv(w) && G.Stage(start, o) <= G.Stage(w, o)
  {
    ReachedRun(start, log, w);
    G.RunKeeps(start, log);
    G.StagesNeverGoBack(start, log, o);
  }

  /**
   * A sound tick without a crash moves the occurrence on, leaves it to the lane, or ends it:
   * up to a row when there was none; untouched while the row is not done; from then on
   * nothing is run again, and the occurrence is over unless the tick stood down, the turn
   * aborted, or the last writes did not land.
   */
  lemma TickAdvances(before: World, after: World, o: Occ, env: Env, rival: Rival, event: Event, said: Option<string>)
    requires o.job in before.jobs && Minted(before.db) && !FailsHere(before, o, env, rival)
    requires TickIs(before, after, o, env, rival, event, said)
    ensures G.Stage(after, o) >= 3
    ensures G.Stage(before, o) == 3 ==> event.BoundTurnPending? && after.db == before.db
    ensures G.Stage(before, o) >= 4 ==>
              && after.past.execs == before.past.execs && after.past.calls == before.past.calls
              && (event.Yielded? <==> G.Stage(before, o) == 4 && (env.stoodDown || AwaitsAborted(before.db, Serves(before.db, o))))
              && (event.RanEvent? ==> after.db.fires[o].settled && after.db.next == Protocol.MarkRan(before, o.job))
    ensures G.Stage(before, o) == 5 ==> after.past.sends == before.past.sends
  {
  }

  predicate AwaitsAborted(db: Db, id: TurnId) { id in db.turns && OutcomeOf(db.turns[id]) == Aborted }
}

/**
 * The job-occurrence protocol as a transition system: any number of processes, each
 * running a scheduler tick (agent/scheduler-run.ts under core/scheduler/scheduler.ts) or
 * a lane beat (agent/turn-lane.ts), over the two durable tables. One action is one
 * durable write or one outside effect, so a `Crash` may fall between any two of them.
 */
module Protocol {

  import opened Common
  import opened Stores

  type Pid = nat

  /** What a process is working for: a due occurrence, a row the lane picked up, or `muffin resume`. */
  datatype Side = Job(o: Occ) | Lane(autonomous: bool) | Hand

  /**
   * How a unit of work ended: the stop its own write recorded, an outcome whose write found
   * the claim lost, a row closed with the reason it was not resumed, or a refusal that left
   * the row alone.
   */
  datatype End = Stop(how: Stopped) | Lost(outcome: Outcome) | Closed | Refusal

  /** The words are the finished turn's own, not a notice about it. */
  predicate Answers(end: End) { (end.Stop? && end.how.Ended?) || end.Closed? }

  /** Volatile state of one process: lost in a crash. */
  datatype PC =
    | Idle
    | Claiming(o: Occ)
    | Binding(o: Occ)
    | Resolving(o: Occ, id: TurnId)
    | Creating(o: Occ, id: TurnId)
    | Picked(id: TurnId)
    | Resuming(id: TurnId)
    | Granting(id: TurnId)
    | Holding(side: Side, id: TurnId, tok: Token, model: Model, spent: bool)
    | Ending(side: Side, turn: Option<TurnId>, end: End, speaks: bool)
    | Recording(side: Side, turn: Option<TurnId>, result: Delivery, answers: bool)
    | Settling(o: Occ, silent: bool)
    | Advancing(o: Occ)

  /** `nextFire`: the first slot strictly after a moment, and so the same one until that slot. */
  ghost predicate NextSlot(next: nat -> nat) {
    && (forall t: nat :: next(t) > t)
    && (forall t: nat, u: nat | t <= u < next(t) :: next(u) == next(t))
  }

  type Cron = f: nat -> nat | NextSlot(f) ghost witness ((t: nat) => t + 1)

  /** `once` jobs are retired by their first run; the others follow their cron. */
  datatype JobCfg = JobCfg(script: bool, silent: bool, once: bool, cron: Cron)

  /** What survives a crash. Every turn id below `ids`, and every token below `tokens`, was minted. */
  datatype Db = Db(
    fires: Fires,
    turns: Turns,
    ids: TurnId,
    tokens: Token,
    // `next_fire_at` of the active jobs.
    next: map<JobId, nat>)

  /**
   * History, read by no action: the occurrence each id was bound to, the occurrence whose
   * runner wrote each row, ids that lost the bind, runs of a script's command, model calls,
   * deliveries attempted of a finished turn's answer, attempts whose record was lost, failure
   * notices sent, leases granted by hand, occurrences a tick started on, and occurrences
   * whose runner moved the schedule.
   */
  datatype Past = Past(
    owner: map<TurnId, Occ>,
    origin: map<TurnId, Occ>,
    lost: set<TurnId>,
    execs: multiset<TurnId>,
    calls: multiset<TurnId>,
    sends: multiset<TurnId>,
    missed: multiset<TurnId>,
    notices: multiset<Occ>,
    explicit: multiset<TurnId>,
    started: set<Occ>,
    marked: set<Occ>)

  datatype World = World(jobs: map<JobId, JobCfg>, db: Db, past: Past, procs: map<Pid, PC>, now: nat)

  datatype Action =
    | TickStart(p: Pid, o: Occ)
    | Claim(p: Pid)
    | Bind(p: Pid)
    | Lookup(p: Pid)
    | Create(p: Pid, capped: bool)
    | Execute(p: Pid)
    | CallModel(p: Pid)
    | Finish(p: Pid, outcome: Outcome, speaks: bool)
    | Suspend(p: Pid)
    | Release(p: Pid)
    | CloseRefused(p: Pid)
    | Throw(p: Pid)
    | Conclude(p: Pid, stoodDown: bool)
    | Send(p: Pid, result: Delivery)
    | Record(p: Pid, lands: bool)
    | Settle(p: Pid)
    | Advance(p: Pid)
    | LanePick(p: Pid, id: TurnId, expired: bool)
    | LaneRead(p: Pid)
    | Resume(p: Pid)
    | Grant(p: Pid)
    | Continue(p: Pid, id: TurnId)
    | Crash(p: Pid)
    | Reclaim(id: TurnId)
    | Wake(id: TurnId)
    | Clock(to: nat)

  /** Actions of no process. */
  predicate Ambient(a: Action) { a.Reclaim? || a.Wake? || a.Clock? }

  function At(w: World, p: Pid): PC { if p in w.procs then w.procs[p] else Idle }

  function Go(w: World, p: Pid, pc: PC): World { w.(procs := w.procs[p := pc]) }

  predicate Bound(w: World, o: Occ, id: TurnId) { o in w.db.fires && w.db.fires[o].turnId == Some(id) }

  predicate IsSilent(w: World, j: JobId) { j in w.jobs && w.jobs[j].silent }

  /** The model mark `runFresh` writes for this job. */
  function KindModel(w: World, j: JobId): Model {
    if j in w.jobs && w.jobs[j].script then ScriptModel else Provider
  }

  predicate RowDone(w: World, id: TurnId) { id in w.db.turns && w.db.turns[id].status == Done }

  /** `Scheduler.run` on a normal outcome: everything before the delivery itself. */
  datatype Verdict = Yield | SettleNow(silent: bool) | Speak

  function SchedulerVerdict(silentPolicy: bool, stoodDown: bool, how: Stopped, speaks: bool): Verdict {
    if how == Ended(Aborted) || stoodDown || how == Released then Yield
    else if how == Suspended then SettleNow(false)
    else if !speaks && how != Ended(Error) then SettleNow(false)
    else if silentPolicy && how == Ended(Answered) then SettleNow(true)
    else Speak
  }

  /** What the process reports: it does not know that its write was too late. */
  function Reported(end: End): Stopped {
    match end
    case Stop(how) => how
    case Lost(outcome) => Ended(outcome)
    case Closed => Ended(Error)
    case Refusal => Ended(Error)
  }

  /** `makeLaneRunner` / `runAutonomous`: true when the lane has something to send. */
  predicate LaneSpeaks(silentPolicy: bool, autonomous: bool, end: End, speaks: bool) {
    if end.Refusal? || end.Closed? then true
    else
      match Reported(end)
      case Suspended => false
      case Released => !autonomous && speaks
      case Ended(outcome) => speaks && !(silentPolicy && outcome == Answered)
  }

  predicate RowSilent(w: World, id: TurnId) {
    id in w.db.turns && w.db.turns[id].job.Some? && IsSilent(w, w.db.turns[id].job.value)
  }

  function EndVerdict(w: World, pc: PC, stoodDown: bool): Verdict
    requires pc.Ending?
  {
    match pc.side
    case Job(o) => SchedulerVerdict(IsSilent(w, o.job), stoodDown, Reported(pc.end), pc.speaks)
    case Lane(auto) =>
      if pc.turn.Some? && LaneSpeaks(RowSilent(w, pc.turn.value), auto, pc.end, pc.speaks) then Speak else Yield
    // The command prints the answer itself.
    case Hand => Yield
  }

  /** Outcomes a holder may write: the two "no model" marks never reach the model. */
  predicate MayFinish(pc: PC, outcome: Outcome, speaks: bool)
    requires pc.Holding?
  {
    match (pc.side, pc.model)
    case (_, Provider) => true
    case (_, CappedModel) => outcome == Budget && speaks
    case (Lane(_), ScriptModel) => outcome == Error && speaks
    case (Hand, ScriptModel) => false
    case (Job(_), ScriptModel) => (outcome == Error && speaks) || (outcome == Answered && pc.spent)
  }

  /** `due()`, of which a tick tries the first only: no active job has an older fire. */
  predicate OldestDue(w: World, o: Occ) {
    && o.job in w.jobs && o.job in w.db.next && w.db.next[o.job] == o.scheduledFor <= w.now
    && forall j | j in w.db.next :: o.scheduledFor <= w.db.next[j]
  }

  /** The occurrence a tick has in hand while anything it calls may still throw. */
  function Trying(pc: PC): Option<Occ> {
    match pc
    case Claiming(o) => Some(o)
    case Binding(o) => Some(o)
    case Resolving(o, _) => Some(o)
    case Creating(o, _) => Some(o)
    case Holding(Job(o), _, _, _, _) => Some(o)
    case _ => None
  }

  predicate Enabled(w: World, a: Action) {
    match a
    case TickStart(p, o) => At(w, p).Idle? && OldestDue(w, o)
    case Claim(p) => At(w, p).Claiming?
    case Bind(p) => At(w, p).Binding?
    case Lookup(p) => At(w, p).Resolving?
    case Create(p, _) => At(w, p).Creating?
    case Execute(p) =>
      var pc := At(w, p); pc.Holding? && pc.side.Job? && pc.model == ScriptModel && !pc.spent
    case CallModel(p) => At(w, p).Holding? && At(w, p).model == Provider
    case Finish(p, outcome, speaks) => At(w, p).Holding? && MayFinish(At(w, p), outcome, speaks)
    case Suspend(p) => At(w, p).Holding? && At(w, p).model == Provider
    case Release(p) => At(w, p).Holding? && At(w, p).model == Provider
    case CloseRefused(p) =>
      At(w, p).Holding? && At(w, p).side == Lane(false) && At(w, p).model == Provider
    case Throw(p) => Trying(At(w, p)).Some?
    case Conclude(p, stoodDown) => At(w, p).Ending? && !EndVerdict(w, At(w, p), stoodDown).Speak?
    case Send(p, result) => At(w, p).Ending? && EndVerdict(w, At(w, p), false).Speak? && result in {Sent, PossiblySent, Failed}
    case Record(p, _) => At(w, p).Recording?
    case Settle(p) => At(w, p).Settling?
    case Advance(p) => At(w, p).Advancing?
    case LanePick(p, id, expired) => At(w, p).Idle? && id in w.db.turns && Due(w.db.turns[id], expired)
    case LaneRead(p) => At(w, p).Picked?
    case Resume(p) => At(w, p).Resuming?
    case Grant(p) => At(w, p).Granting?
    case Continue(p, id) => At(w, p).Idle? && id in w.db.turns
    case Crash(p) => true
    case Reclaim(id) => id in w.db.turns
    case Wake(id) => id in w.db.turns
    case Clock(to) => w.now <= to
  }

  function DoTickStart(w: World, p: Pid, o: Occ): World {
    Go(w.(past := w.past.(started := w.past.started + {o})), p, Claiming(o))
  }

  function DoClaim(w: World, p: Pid): World
    requires At(w, p).Claiming?
  {
    var o := At(w, p).o;
    var fires := ClaimFire(w.db.fires, o);
    Go(w.(db := w.db.(fires := fires)), p,
       if fires[o].turnId.Some? then Resolving(o, fires[o].turnId.value) else Binding(o))
  }

  /** Mint, bind, and follow the winner: a losing id is remembered only as lost. */
  function DoBind(w: World, p: Pid): World
    requires At(w, p).Binding?
  {
    var o, minted := At(w, p).o, w.db.ids;
    var fires := BindFire(w.db.fires, o, minted);
    var won := o in fires && fires[o].turnId == Some(minted);
    Go(w.(db := w.db.(fires := fires, ids := w.db.ids + 1), past := w.past.(owner := if won then w.past.owner[minted := o] else w.past.owner, lost := if won then w.past.lost else w.past.lost + {minted})), p,
       if won then Creating(o, minted)
       else if o in fires && fires[o].turnId.Some? then Resolving(o, fires[o].turnId.value) else Idle)
  }

  function LookupPC(w: World, o: Occ, id: TurnId): PC {
    if id !in w.db.turns then Creating(o, id)
    else if w.db.turns[id].status != Done then Idle
    else if Resolved(w.db.turns[id].delivery) then Settling(o, false)
    else Ending(Job(o), Some(id), Stop(Ended(if w.db.turns[id].outcome.Some? then w.db.turns[id].outcome.value else Error)), true)
  }

  function DoLookup(w: World, p: Pid): World
    requires At(w, p).Resolving?
  {
    Go(w, p, LookupPC(w, At(w, p).o, At(w, p).id))
  }

  function DoCreate(w: World, p: Pid, capped: bool): World
    requires At(w, p).Creating?
  {
    var o, id := At(w, p).o, At(w, p).id;
    var model := if capped then CappedModel else KindModel(w, o.job);
    var turns := CreateRow(w.db.turns, id, NewRow(Scheduler, Some(o.job), true, model, w.db.tokens));
    if id in w.db.turns
    then Go(w.(db := w.db.(tokens := w.db.tokens + 1)), p, Ending(Job(o), None, Stop(Ended(Error)), true))
    else Go(w.(db := w.db.(turns := turns, tokens := w.db.tokens + 1), past := w.past.(origin := w.past.origin[id := o])), p,
            Holding(Job(o), id, w.db.tokens, model, false))
  }

  function DoExecute(w: World, p: Pid): World
    requires At(w, p).Holding?
  {
    Go(w.(past := w.past.(execs := w.past.execs + multiset{At(w, p).id})), p, At(w, p).(spent := true))
  }

  function DoCallModel(w: World, p: Pid): World
    requires At(w, p).Holding?
  {
    w.(past := w.past.(calls := w.past.calls + multiset{At(w, p).id}))
  }

  /** The loop's answer to a fenced-out write: no text, no claim about the row. */
  function LostClaim(side: Side, id: TurnId): PC { Ending(side, Some(id), Lost(Error), false) }

  function DoFinish(w: World, p: Pid, outcome: Outcome, speaks: bool): World
    requires At(w, p).Holding?
  {
    var pc := At(w, p);
    Go(w.(db := w.db.(turns := FinishRow(w.db.turns, pc.id, pc.tok, outcome))), p,
       if Holds(w.db.turns, pc.id, pc.tok) then Ending(pc.side, Some(pc.id), Stop(Ended(outcome)), speaks)
       else if pc.model == Provider then LostClaim(pc.side, pc.id)
       // Nobody looks whether the close of a script or a capped row landed.
       else Ending(pc.side, Some(pc.id), Lost(outcome), speaks))
  }

  function DoSuspend(w: World, p: Pid): World
    requires At(w, p).Holding?
  {
    var pc := At(w, p);
    Go(w.(db := w.db.(turns := SuspendRow(w.db.turns, pc.id, pc.tok))), p,
       if HoldsRunning(w.db.turns, pc.id, pc.tok) then Ending(pc.side, Some(pc.id), Stop(Suspended), true)
       else LostClaim(pc.side, pc.id))
  }

  /** A release hands the row to the lane: the scheduler's own tick is simply over. */
  function DoRelease(w: World, p: Pid): World
    requires At(w, p).Holding?
  {
    var pc := At(w, p);
    Go(w.(db := w.db.(turns := ReleaseRow(w.db.turns, pc.id, pc.tok))), p,
       if !HoldsRunning(w.db.turns, pc.id, pc.tok) then LostClaim(pc.side, pc.id)
       else if pc.side.Job? then Idle else Ending(pc.side, Some(pc.id), Stop(Released), true))
  }

  function DoCloseRefused(w: World, p: Pid): World
    requires At(w, p).Holding?
  {
    var pc := At(w, p);
    Go(w.(db := w.db.(turns := FinishRow(w.db.turns, pc.id, pc.tok, Error))), p,
       Ending(pc.side, Some(pc.id), if Holds(w.db.turns, pc.id, pc.tok) then Closed else Refusal, true))
  }

  /** `Scheduler.run` catches: an error outcome that names no turn. */
  function DoThrow(w: World, p: Pid): World
    requires Trying(At(w, p)).Some?
  {
    Go(w, p, Ending(Job(Trying(At(w, p)).value), None, Stop(Ended(Error)), true))
  }

  function DoConclude(w: World, p: Pid, stoodDown: bool): World
    requires At(w, p).Ending? && !EndVerdict(w, At(w, p), stoodDown).Speak?
  {
    var pc := At(w, p);
    match EndVerdict(w, pc, stoodDown)
    case SettleNow(silent) => Go(w, p, Settling(pc.side.o, silent))
    case _ => Go(w, p, Idle)
  }

  function DoSend(w: World, p: Pid, result: Delivery): World
    requires At(w, p).Ending?
  {
    var pc := At(w, p);
    var w' := if pc.turn.Some? && Answers(pc.end) then w.(past := w.past.(sends := w.past.sends + multiset{pc.turn.value}))
              else if pc.turn.None? && pc.side.Job? then w.(past := w.past.(notices := w.past.notices + multiset{pc.side.o}))
              else w;
    Go(w', p, Recording(pc.side, pc.turn, result, Answers(pc.end)))
  }

  /** An attempt whose record will never be written. */
  function Miss(w: World, pc: PC): World {
    if pc.Recording? && pc.turn.Some? && pc.answers
    then w.(past := w.past.(missed := w.past.missed + multiset{pc.turn.value})) else w
  }

  function DoRecord(w: World, p: Pid, lands: bool): World
    requires At(w, p).Recording?
  {
    var pc := At(w, p);
    var w' := if pc.turn.None? then w
              else if lands then w.(db := w.db.(turns := DeliverRow(w.db.turns, pc.turn.value, pc.result)))
              else Miss(w, pc);
    Go(w', p, if pc.side.Job? then Settling(pc.side.o, false) else Idle)
  }

  function DoSettle(w: World, p: Pid): World
    requires At(w, p).Settling?
  {
    Go(w.(db := w.db.(fires := SettleFire(w.db.fires, At(w, p).o, At(w, p).silent))), p, Advancing(At(w, p).o))
  }

  /** `markRan`: counted from now, whatever the occurrence; a `once` job is retired. */
  function MarkRan(w: World, j: JobId): map<JobId, nat> {
    if j !in w.db.next || j !in w.jobs then w.db.next
    else if w.jobs[j].once then map x | x in w.db.next && x != j :: w.db.next[x]
    else w.db.next[j := w.jobs[j].cron(w.now)]
  }

  function DoAdvance(w: World, p: Pid): World
    requires At(w, p).Advancing?
  {
    var o := At(w, p).o;
    Go(w.(db := w.db.(next := MarkRan(w, o.job)), past := w.past.(marked := w.past.marked + {o})), p, Idle)
  }

  function DoLanePick(w: World, p: Pid, id: TurnId): World
  {
    Go(w, p, Picked(id))
  }

  /** The lane reads the row it picked, perhaps no longer as it was, and checks its gates. */
  function DoLaneRead(w: World, p: Pid): World
    requires At(w, p).Picked?
  {
    var id := At(w, p).id;
    Go(w, p, if id !in w.db.turns then Idle
             else if w.db.turns[id].status != Continuable then Resuming(id)
             else if w.db.turns[id].lease < MAX_AUTONOMOUS_LEASES then Granting(id)
             else Idle)
  }

  function DoResume(w: World, p: Pid): World
    requires At(w, p).Resuming?
  {
    var id := At(w, p).id;
    var free := id in w.db.turns && Claimable(w.db.turns[id]);
    Go(w.(db := w.db.(turns := ClaimRow(w.db.turns, id, w.db.tokens), tokens := w.db.tokens + if free then 1 else 0)), p,
       if free
       then Holding(Lane(false), id, w.db.tokens, w.db.turns[id].model, false)
       else Ending(Lane(false), Some(id), Refusal, true))
  }

  function DoGrant(w: World, p: Pid): World
    requires At(w, p).Granting?
  {
    var id := At(w, p).id;
    var free := id in w.db.turns && Grantable(w.db.turns[id], false);
    Go(w.(db := w.db.(turns := GrantRow(w.db.turns, id, w.db.tokens, false), tokens := w.db.tokens + if free then 1 else 0)), p,
       if free
       then Holding(Lane(true), id, w.db.tokens, w.db.turns[id].model, false) else Idle)
  }

  /** `muffin resume`: one more lease of a continuable row, past any ceiling. */
  function DoContinue(w: World, p: Pid, id: TurnId): World {
    if id in w.db.turns && Grantable(w.db.turns[id], false)
    then Go(w.(db := w.db.(turns := GrantRow(w.db.turns, id, w.db.tokens, false), tokens := w.db.tokens + 1),
               past := w.past.(explicit := w.past.explicit + multiset{id})), p,
            Holding(Hand, id, w.db.tokens, w.db.turns[id].model, false))
    else Go(w, p, Idle)
  }

  function DoCrash(w: World, p: Pid): World { Go(Miss(w, At(w, p)), p, Idle) }

  function Apply(w: World, a: Action): World
    requires Enabled(w, a)
  {
    match a
    case TickStart(p, o) => DoTickStart(w, p, o)
    case Claim(p) => DoClaim(w, p)
    case Bind(p) => DoBind(w, p)
    case Lookup(p) => DoLookup(w, p)
    case Create(p, capped) => DoCreate(w, p, capped)
    case Execute(p) => DoExecute(w, p)
    case CallModel(p) => DoCallModel(w, p)
    case Finish(p, outcome, speaks) => DoFinish(w, p, outcome, speaks)
    case Suspend(p) => DoSuspend(w, p)
    case Release(p) => DoRelease(w, p)
    case CloseRefused(p) => DoCloseRefused(w, p)
    case Throw(p) => DoThrow(w, p)
    case Conclude(p, stoodDown) => DoConclude(w, p, stoodDown)
    case Send(p, result) => DoSend(w, p, result)
    case Record(p, lands) => DoRecord(w, p, lands)
    case Settle(p) => DoSettle(w, p)
    case Advance(p) => DoAdvance(w, p)
    case LanePick(p, id, _) => DoLanePick(w, p, id)
    case LaneRead(p) => DoLaneRead(w, p)
    case Resume(p) => DoResume(w, p)
    case Grant(p) => DoGrant(w, p)
    case Continue(p, id) => DoContinue(w, p, id)
    case Crash(p) => DoCrash(w, p)
    case Reclaim(id) => w.(db := w.db.(turns := ReclaimRow(w.db.turns, id)))
    case Wake(id) => w.(db := w.db.(turns := WakeRow(w.db.turns, id)))
    case Clock(to) => w.(now := to)
  }

  /** A run: every action is enabled where it happens. */
  predicate Legal(w: World, run: seq<Action>)
    decreases |run|
  {
    run == [] || (Enabled(w, run[0]) && Legal(Apply(w, run[0]), run[1..]))
  }

  function After(w: World, run: seq<Action>): World
    requires Legal(w, run)
    decreases |run|
  {
    if run == [] then w else After(Apply(w, run[0]), run[1..])
  }

  /** Each job's first fire: now if it runs once, else its next slot (`JobStore.add`). */
  function FirstFires(jobs: map<JobId, JobCfg>, now: nat): map<JobId, nat> {
    map j | j in jobs :: if jobs[j].once then now else jobs[j].cron(now)
  }

  /** A fresh database with its jobs just added, and no process running. */
  function Start(jobs: map<JobId, JobCfg>, now: nat): World {
    World(jobs, Db(map[], map[], 0, 0, FirstFires(jobs, now)),
          Past(map[], map[], {}, multiset{}, multiset{}, multiset{}, multiset{}, multiset{}, multiset{}, {}, {}), map[], now)
  }
}

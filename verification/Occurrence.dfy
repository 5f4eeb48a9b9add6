/**
 * What every run of the occurrence protocol keeps: one identity per occurrence, one run of
 * a script's command, durable stages that never go back.
 */
module Occurrence {

  import opened Common
  import opened Stores
  import opened Protocol

  // ---- Durable progress -------------------------------------------------------------

  predicate FireExtends(f: Fire, g: Fire) {
    && (f.turnId.Some? ==> g.turnId == f.turnId)
    && (f.settled ==> g.settled && g.silent == f.silent)
  }

  /** A finished row keeps its outcome for ever, and a resolved delivery stays resolved. */
  predicate RowExtends(r: Row, s: Row) {
    && s.model == r.model && s.job == r.job && s.principal == r.principal
    && r.lease <= s.lease
    && (r.status == Done ==> s.status == Done && s.outcome == r.outcome && s.lease == r.lease)
    && (r.status == Done && Resolved(r.delivery) ==> Resolved(s.delivery))
  }

  ghost predicate Extends(w: World, v: World) {
    && v.jobs == w.jobs
    && w.db.ids <= v.db.ids && w.db.tokens <= v.db.tokens
    && w.past.marked <= v.past.marked && w.past.lost <= v.past.lost
    && (forall o :: w.past.notices[o] <= v.past.notices[o])
    && (forall o | o in w.db.fires :: o in v.db.fires && FireExtends(w.db.fires[o], v.db.fires[o]))
    && (forall id | id in w.db.turns :: id in v.db.turns && RowExtends(w.db.turns[id], v.db.turns[id]))
    && (forall id | id in w.past.origin :: id in v.past.origin && v.past.origin[id] == w.past.origin[id])
  }

  /** A finished row is nobody's; only a running row has a holder; only the model's work is released. */
  predicate RowOk(r: Row, tokens: Token) {
    && (r.status == Done <==> r.outcome.Some?)
    && (r.token.Some? ==> r.status == Running && r.token.value < tokens)
    && r.principal.Scheduler? && r.job.Some? && r.addressed
    && (r.status == Continuable ==> r.model == Provider)
  }

  ghost predicate RowsOk(w: World) { forall id | id in w.db.turns :: RowOk(w.db.turns[id], w.db.tokens) }

  /** The occurrence of a tick, from its start to its last write. */
  function TickOcc(pc: PC): Option<Occ> {
    match pc
    case Claiming(o) => Some(o)
    case Binding(o) => Some(o)
    case Resolving(o, _) => Some(o)
    case Creating(o, _) => Some(o)
    case Holding(Job(o), _, _, _, _) => Some(o)
    case Ending(Job(o), _, _, _) => Some(o)
    case Recording(Job(o), _, _, _) => Some(o)
    case Settling(o, _) => Some(o)
    case Advancing(o) => Some(o)
    case _ => None
  }

  // ---- What each program counter knows ----------------------------------------------

  ghost predicate HasId(w: World, o: Occ) { o in w.db.fires && w.db.fires[o].turnId.Some? }

  ghost predicate RowFor(w: World, o: Occ) { HasId(w, o) && w.db.fires[o].turnId.value in w.db.turns }

  /** The tick on `o` has something to show: a row under its one identity, or a notice. */
  ghost predicate Accounted(w: World, o: Occ) { RowFor(w, o) || w.past.notices[o] > 0 }

  /** What `markRan` finds: settled with a row under its one identity, or announced as failed. */
  ghost predicate SettledOrAnnounced(w: World, o: Occ) {
    (RowFor(w, o) && w.db.fires[o].settled) || w.past.notices[o] > 0
  }

  ghost predicate HasRow(w: World, id: TurnId, model: Model, tok: Token) {
    id in w.db.turns && w.db.turns[id].model == model && tok < w.db.tokens
  }

  /** An outcome that names no turn is the scheduler's own failure text. */
  ghost predicate EndOk(w: World, o: Occ, turn: Option<TurnId>, end: End, speaks: bool) {
    if turn.Some? then Bound(w, o, turn.value) && turn.value in w.db.turns && (Answers(end) ==> RowDone(w, turn.value))
    else end == Stop(Ended(Error)) && speaks
  }

  ghost predicate PcOk(w: World, pc: PC) {
    match pc
    case Idle => true
    case Claiming(o) => true
    case Binding(o) => o in w.db.fires
    case Resolving(o, id) => Bound(w, o, id)
    case Creating(o, id) => Bound(w, o, id)
    case Picked(id) => id in w.db.turns
    case Resuming(id) => id in w.db.turns
    case Granting(id) => id in w.db.turns
    case Holding(Job(o), id, tok, model, _) => Bound(w, o, id) && HasRow(w, id, model, tok) && id in w.past.origin && w.past.origin[id] == o
    case Holding(_, id, tok, model, _) => HasRow(w, id, model, tok)
    case Ending(Job(o), turn, _, _) => EndOk(w, o, turn, pc.end, pc.speaks)
    case Ending(_, turn, end, _) => turn.Some? && turn.value in w.db.turns && (Answers(end) ==> RowDone(w, turn.value))
    case Recording(Job(o), turn, d, answers) =>
      Accounted(w, o) && Resolved(d) && (turn.Some? ==> Bound(w, o, turn.value) && (answers ==> RowDone(w, turn.value)))
    case Recording(_, turn, d, answers) => turn.Some? && turn.value in w.db.turns && Resolved(d) && (answers ==> RowDone(w, turn.value))
    case Settling(o, _) => Accounted(w, o)
    case Advancing(o) => SettledOrAnnounced(w, o)
  }

  ghost predicate PcsOk(w: World) { forall p | p in w.procs :: PcOk(w, w.procs[p]) }

  lemma PcOkExtends(w: World, v: World, pc: PC)
    requires PcOk(w, pc) && Extends(w, v)
    ensures PcOk(v, pc)
  {
  }

  // ---- Identity ---------------------------------------------------------------------

  /**
   * One identity per occurrence: ids are never shared between occurrences, every row was
   * written under the id its occurrence is bound to, and an id that lost the bind is bound
   * to nothing.
   */
  ghost predicate Identity(w: World) {
    && (forall o | HasId(w, o) :: w.db.fires[o].turnId.value in w.past.owner && w.past.owner[w.db.fires[o].turnId.value] == o)
    && (forall t | t in w.past.owner :: t < w.db.ids && Bound(w, w.past.owner[t], t))
    && w.past.origin.Keys == w.db.turns.Keys
    && (forall id | id in w.past.origin :: id in w.past.owner && w.past.owner[id] == w.past.origin[id])
    && (forall t | t in w.past.lost :: t < w.db.ids && t !in w.past.owner)
  }

  ghost predicate MarkedOk(w: World) { forall o | o in w.past.marked :: SettledOrAnnounced(w, o) }

  ghost predicate Inv(w: World) { RowsOk(w) && PcsOk(w) && Identity(w) && MarkedOk(w) }

  // ---- Frames -----------------------------------------------------------------------

  lemma PcsStep(w: World, v: World, p: Pid, pc: PC)
    requires PcsOk(w) && Extends(w, v) && PcOk(v, pc)
    requires v.procs == w.procs[p := pc]
    ensures PcsOk(v)
  {
    forall q | q in v.procs ensures PcOk(v, v.procs[q]) {
      if q != p { PcOkExtends(w, v, w.procs[q]); }
    }
  }

  lemma PcsSame(w: World, v: World)
    requires PcsOk(w) && Extends(w, v) && v.procs == w.procs
    ensures PcsOk(v)
  {
    forall q | q in v.procs ensures PcOk(v, v.procs[q]) { PcOkExtends(w, v, w.procs[q]); }
  }

  lemma MarkedExtends(w: World, v: World)
    requires MarkedOk(w) && Extends(w, v) && v.past.marked == w.past.marked
    ensures MarkedOk(v)
  {
  }

  /** An action that writes one existing row and leaves fires and history alone. */
  ghost predicate OneRow(w: World, v: World, id: TurnId) {
    && v.jobs == w.jobs && v.db.fires == w.db.fires && v.db.ids == w.db.ids && w.db.tokens <= v.db.tokens
    && v.past.marked == w.past.marked && v.past.origin == w.past.origin && v.past.owner == w.past.owner && v.past.lost == w.past.lost
    && (forall o :: w.past.notices[o] <= v.past.notices[o])
    && v.db.turns.Keys == w.db.turns.Keys
    && (id in w.db.turns ==> RowExtends(w.db.turns[id], v.db.turns[id]) && RowOk(v.db.turns[id], v.db.tokens))
    && (forall other | other in w.db.turns && other != id :: v.db.turns[other] == w.db.turns[other])
  }

  lemma OneRowKeeps(w: World, v: World, id: TurnId)
    requires Inv(w) && OneRow(w, v, id)
    ensures Extends(w, v) && RowsOk(v) && Identity(v) && MarkedOk(v)
  {
    assert Extends(w, v);
    MarkedExtends(w, v);
  }

  lemma OneRowStep(w: World, v: World, id: TurnId, p: Pid, pc: PC)
    requires Inv(w) && OneRow(w, v, id)
    requires v.procs == w.procs[p := pc]
    requires PcOk(v, pc)
    ensures Inv(v) && Extends(w, v)
  {
    OneRowKeeps(w, v, id);
    PcsStep(w, v, p, pc);
  }

  /** A program counter moves, or history grows; no durable column does. */
  ghost predicate Volatile(w: World, v: World) {
    && v.jobs == w.jobs && v.db.fires == w.db.fires && v.db.turns == w.db.turns && v.db.ids == w.db.ids && v.db.tokens == w.db.tokens
    && v.past.marked == w.past.marked
    && v.past.owner == w.past.owner && v.past.origin == w.past.origin && v.past.lost == w.past.lost
    && (forall o :: w.past.notices[o] <= v.past.notices[o])
  }

  lemma VolatileKeeps(w: World, v: World)
    requires Inv(w) && Volatile(w, v)
    ensures Extends(w, v) && RowsOk(v) && Identity(v) && MarkedOk(v)
  {
    assert Extends(w, v);
    MarkedExtends(w, v);
  }

  lemma VolatileStep(w: World, v: World, p: Pid, pc: PC)
    requires Inv(w) && Volatile(w, v) && v.procs == w.procs[p := pc]
    requires PcOk(v, pc)
    ensures Inv(v) && Extends(w, v)
  {
    VolatileKeeps(w, v);
    PcsStep(w, v, p, pc);
  }

  // ---- The actions ------------------------------------------------------------------

  lemma AtOk(w: World, p: Pid)
    requires PcsOk(w)
    ensures PcOk(w, At(w, p))
  {
  }

  lemma ClaimDurable(w: World, p: Pid)
    requires RowsOk(w) && Identity(w) && At(w, p).Claiming?
    ensures var v := DoClaim(w, p); Extends(w, v) && RowsOk(v) && Identity(v) && PcOk(v, v.procs[p])
  {
  }

  lemma ClaimKeeps(w: World, p: Pid)
    requires Inv(w) && At(w, p).Claiming?
    ensures Inv(DoClaim(w, p)) && Extends(w, DoClaim(w, p))
  {
    var v := DoClaim(w, p);
    ClaimDurable(w, p);
    PcsStep(w, v, p, v.procs[p]);
    MarkedExtends(w, v);
  }

  lemma BindWonExtends(w: World, p: Pid)
    requires At(w, p).Binding? && At(w, p).o in w.db.fires && w.db.fires[At(w, p).o].turnId.None?
    ensures Extends(w, DoBind(w, p))
  {
  }

  lemma BindWonIdentity(w: World, p: Pid)
    requires Identity(w) && At(w, p).Binding? && At(w, p).o in w.db.fires && w.db.fires[At(w, p).o].turnId.None?
    ensures Identity(DoBind(w, p))
  {
  }

  lemma BindWonDurable(w: World, p: Pid)
    requires Inv(w) && At(w, p).Binding? && At(w, p).o in w.db.fires && w.db.fires[At(w, p).o].turnId.None?
    ensures var v := DoBind(w, p); Extends(w, v) && RowsOk(v) && Identity(v) && MarkedOk(v)
    ensures DoBind(w, p).procs == w.procs[p := Creating(At(w, p).o, w.db.ids)]
  {
    BindWonExtends(w, p);
    BindWonIdentity(w, p);
    MarkedExtends(w, DoBind(w, p));
  }

  lemma BindWonKeeps(w: World, p: Pid)
    requires Inv(w) && At(w, p).Binding? && w.db.fires[At(w, p).o].turnId.None?
    ensures Inv(DoBind(w, p)) && Extends(w, DoBind(w, p))
  {
    BindWonDurable(w, p);
    PcsStep(w, DoBind(w, p), p, Creating(At(w, p).o, w.db.ids));
  }

  /** The id that lost is spent on nothing: no fire, no row. */
  lemma BindLostKeeps(w: World, p: Pid)
    requires Inv(w) && At(w, p).Binding? && HasId(w, At(w, p).o)
    ensures Inv(DoBind(w, p)) && Extends(w, DoBind(w, p))
  {
    var o, v := At(w, p).o, DoBind(w, p);
    assert v.db.fires == w.db.fires && v.past.owner == w.past.owner;
    assert Extends(w, v);
    assert Identity(v);
    PcsStep(w, v, p, Resolving(o, w.db.fires[o].turnId.value));
    MarkedExtends(w, v);
  }

  /** The losing side of a create race: the row is there already, so `INSERT` fails. */
  lemma CreateConflictPcOk(w: World, p: Pid, capped: bool)
    requires RowsOk(w) && At(w, p).Creating? && At(w, p).id in w.db.turns
    ensures var v := DoCreate(w, p, capped); PcOk(v, v.procs[p]) && OneRow(w, v, v.db.ids)
  {
  }

  lemma CreateConflictKeeps(w: World, p: Pid, capped: bool)
    requires Inv(w) && At(w, p).Creating? && At(w, p).id in w.db.turns
    ensures Inv(DoCreate(w, p, capped)) && Extends(w, DoCreate(w, p, capped))
  {
    AtOk(w, p);
    CreateConflictPcOk(w, p, capped);
    var v := DoCreate(w, p, capped);
    OneRowStep(w, v, v.db.ids, p, v.procs[p]);
  }

  lemma CreateDurable(w: World, p: Pid, capped: bool)
    requires Inv(w) && At(w, p).Creating? && At(w, p).id !in w.db.turns && Bound(w, At(w, p).o, At(w, p).id)
    ensures var v := DoCreate(w, p, capped); Extends(w, v) && RowsOk(v) && Identity(v) && MarkedOk(v)
  {
    var v := DoCreate(w, p, capped);
    assert Extends(w, v);
    MarkedExtends(w, v);
  }

  lemma CreateKeeps(w: World, p: Pid, capped: bool)
    requires Inv(w) && At(w, p).Creating? && At(w, p).id !in w.db.turns
    ensures Inv(DoCreate(w, p, capped)) && Extends(w, DoCreate(w, p, capped))
  {
    AtOk(w, p);
    CreateDurable(w, p, capped);
    var v := DoCreate(w, p, capped);
    PcsStep(w, v, p, v.procs[p]);
  }

  lemma FinishDurable(w: World, p: Pid, outcome: Outcome, speaks: bool)
    requires RowsOk(w) && PcOk(w, At(w, p)) && At(w, p).Holding?
    ensures OneRow(w, DoFinish(w, p, outcome, speaks), At(w, p).id)
  {
  }

  lemma FinishPcOk(w: World, p: Pid, outcome: Outcome, speaks: bool)
    requires PcOk(w, At(w, p)) && At(w, p).Holding?
    ensures PcOk(DoFinish(w, p, outcome, speaks), DoFinish(w, p, outcome, speaks).procs[p])
  {
  }

  lemma FinishKeeps(w: World, p: Pid, outcome: Outcome, speaks: bool)
    requires Inv(w) && At(w, p).Holding?
    ensures Inv(DoFinish(w, p, outcome, speaks)) && Extends(w, DoFinish(w, p, outcome, speaks))
  {
    AtOk(w, p);
    FinishDurable(w, p, outcome, speaks);
    FinishPcOk(w, p, outcome, speaks);
    var v := DoFinish(w, p, outcome, speaks);
    OneRowStep(w, v, At(w, p).id, p, v.procs[p]);
  }

  lemma SuspendDurable(w: World, p: Pid)
    requires RowsOk(w) && PcOk(w, At(w, p)) && At(w, p).Holding?
    ensures OneRow(w, DoSuspend(w, p), At(w, p).id)
  {
  }

  lemma SuspendPcOk(w: World, p: Pid)
    requires PcOk(w, At(w, p)) && At(w, p).Holding?
    ensures PcOk(DoSuspend(w, p), DoSuspend(w, p).procs[p])
  {
  }

  lemma SuspendKeeps(w: World, p: Pid)
    requires Inv(w) && At(w, p).Holding?
    ensures Inv(DoSuspend(w, p)) && Extends(w, DoSuspend(w, p))
  {
    AtOk(w, p);
    SuspendDurable(w, p);
    SuspendPcOk(w, p);
    var v := DoSuspend(w, p);
    OneRowStep(w, v, At(w, p).id, p, v.procs[p]);
  }

  lemma ReleaseDurable(w: World, p: Pid)
    requires RowsOk(w) && PcOk(w, At(w, p)) && At(w, p).Holding? && At(w, p).model == Provider
    ensures OneRow(w, DoRelease(w, p), At(w, p).id)
  {
  }

  lemma ReleasePcOk(w: World, p: Pid)
    requires PcOk(w, At(w, p)) && At(w, p).Holding? && At(w, p).model == Provider
    ensures PcOk(DoRelease(w, p), DoRelease(w, p).procs[p])
  {
  }

  lemma ReleaseKeeps(w: World, p: Pid)
    requires Inv(w) && At(w, p).Holding? && At(w, p).model == Provider
    ensures Inv(DoRelease(w, p)) && Extends(w, DoRelease(w, p))
  {
    AtOk(w, p);
    ReleaseDurable(w, p);
    ReleasePcOk(w, p);
    var v := DoRelease(w, p);
    OneRowStep(w, v, At(w, p).id, p, v.procs[p]);
  }

  lemma CloseRefusedDurable(w: World, p: Pid)
    requires RowsOk(w) && PcOk(w, At(w, p)) && At(w, p).Holding? && At(w, p).side.Lane?
    ensures OneRow(w, DoCloseRefused(w, p), At(w, p).id)
  {
  }

  lemma CloseRefusedPcOk(w: World, p: Pid)
    requires PcOk(w, At(w, p)) && At(w, p).Holding? && At(w, p).side.Lane?
    ensures PcOk(DoCloseRefused(w, p), DoCloseRefused(w, p).procs[p])
  {
  }

  lemma CloseRefusedKeeps(w: World, p: Pid)
    requires Inv(w) && At(w, p).Holding? && At(w, p).side.Lane?
    ensures Inv(DoCloseRefused(w, p)) && Extends(w, DoCloseRefused(w, p))
  {
    AtOk(w, p);
    CloseRefusedDurable(w, p);
    CloseRefusedPcOk(w, p);
    var v := DoCloseRefused(w, p);
    OneRowStep(w, v, At(w, p).id, p, v.procs[p]);
  }

  lemma SendPcOk(w: World, p: Pid, result: Delivery)
    requires PcOk(w, At(w, p)) && Enabled(w, Send(p, result))
    ensures var v := DoSend(w, p, result); Volatile(w, v) && PcOk(v, v.procs[p])
  {
  }

  lemma SendKeeps(w: World, p: Pid, result: Delivery)
    requires Inv(w) && Enabled(w, Send(p, result))
    ensures Inv(DoSend(w, p, result)) && Extends(w, DoSend(w, p, result))
  {
    AtOk(w, p);
    SendPcOk(w, p, result);
    var v := DoSend(w, p, result);
    VolatileStep(w, v, p, v.procs[p]);
  }

  lemma RecordDurable(w: World, p: Pid, lands: bool)
    requires At(w, p).Recording? && PcOk(w, At(w, p)) && RowsOk(w)
    ensures var v := DoRecord(w, p, lands); var turn := At(w, p).turn;
            OneRow(w, v, if turn.Some? then turn.value else 0)
  {
  }

  lemma RecordPcOk(w: World, p: Pid, lands: bool)
    requires At(w, p).Recording? && PcOk(w, At(w, p))
    ensures var v := DoRecord(w, p, lands); PcOk(v, v.procs[p])
  {
  }

  lemma RecordKeeps(w: World, p: Pid, lands: bool)
    requires Inv(w) && At(w, p).Recording?
    ensures Inv(DoRecord(w, p, lands)) && Extends(w, DoRecord(w, p, lands))
  {
    AtOk(w, p);
    RecordDurable(w, p, lands);
    RecordPcOk(w, p, lands);
    var v, turn := DoRecord(w, p, lands), At(w, p).turn;
    OneRowStep(w, v, if turn.Some? then turn.value else 0, p, v.procs[p]);
  }

  lemma SettleDurable(w: World, p: Pid)
    requires RowsOk(w) && Identity(w) && At(w, p).Settling?
    ensures var v := DoSettle(w, p); Extends(w, v) && RowsOk(v) && Identity(v)
  {
  }

  lemma SettlePcOk(w: World, p: Pid)
    requires PcOk(w, At(w, p)) && At(w, p).Settling?
    ensures var v := DoSettle(w, p); PcOk(v, v.procs[p])
  {
  }

  lemma SettleKeeps(w: World, p: Pid)
    requires Inv(w) && At(w, p).Settling?
    ensures Inv(DoSettle(w, p)) && Extends(w, DoSettle(w, p))
  {
    AtOk(w, p);
    SettleDurable(w, p);
    SettlePcOk(w, p);
    var v := DoSettle(w, p);
    PcsStep(w, v, p, v.procs[p]);
    MarkedExtends(w, v);
  }

  lemma AdvanceDurable(w: World, p: Pid)
    requires RowsOk(w) && Identity(w) && MarkedOk(w) && At(w, p).Advancing? && PcOk(w, At(w, p))
    ensures var v := DoAdvance(w, p); Extends(w, v) && RowsOk(v) && Identity(v) && MarkedOk(v)
  {
  }

  lemma AdvanceKeeps(w: World, p: Pid)
    requires Inv(w) && At(w, p).Advancing?
    ensures Inv(DoAdvance(w, p)) && Extends(w, DoAdvance(w, p))
  {
    AtOk(w, p);
    AdvanceDurable(w, p);
    PcsStep(w, DoAdvance(w, p), p, Idle);
  }

  lemma ResumeDurable(w: World, p: Pid)
    requires RowsOk(w) && PcOk(w, At(w, p)) && At(w, p).Resuming?
    ensures OneRow(w, DoResume(w, p), At(w, p).id)
  {
  }

  lemma ResumePcOk(w: World, p: Pid)
    requires PcOk(w, At(w, p)) && At(w, p).Resuming?
    ensures PcOk(DoResume(w, p), DoResume(w, p).procs[p])
  {
  }

  lemma ResumeKeeps(w: World, p: Pid)
    requires Inv(w) && At(w, p).Resuming?
    ensures Inv(DoResume(w, p)) && Extends(w, DoResume(w, p))
  {
    AtOk(w, p);
    ResumeDurable(w, p);
    ResumePcOk(w, p);
    var v := DoResume(w, p);
    OneRowStep(w, v, At(w, p).id, p, v.procs[p]);
  }

  lemma GrantDurable(w: World, p: Pid)
    requires RowsOk(w) && PcOk(w, At(w, p)) && At(w, p).Granting?
    ensures OneRow(w, DoGrant(w, p), At(w, p).id)
  {
  }

  lemma GrantPcOk(w: World, p: Pid)
    requires PcOk(w, At(w, p)) && At(w, p).Granting?
    ensures PcOk(DoGrant(w, p), DoGrant(w, p).procs[p])
  {
  }

  lemma GrantKeeps(w: World, p: Pid)
    requires Inv(w) && At(w, p).Granting?
    ensures Inv(DoGrant(w, p)) && Extends(w, DoGrant(w, p))
  {
    AtOk(w, p);
    GrantDurable(w, p);
    GrantPcOk(w, p);
    var v := DoGrant(w, p);
    OneRowStep(w, v, At(w, p).id, p, v.procs[p]);
  }

  lemma ContinueDurable(w: World, p: Pid, id: TurnId)
    requires RowsOk(w) && PcOk(w, At(w, p)) && id in w.db.turns
    ensures OneRow(w, DoContinue(w, p, id), id)
  {
  }

  lemma ContinuePcOk(w: World, p: Pid, id: TurnId)
    requires PcOk(w, At(w, p)) && id in w.db.turns
    ensures PcOk(DoContinue(w, p, id), DoContinue(w, p, id).procs[p])
  {
  }

  lemma ContinueKeeps(w: World, p: Pid, id: TurnId)
    requires Inv(w) && id in w.db.turns
    ensures Inv(DoContinue(w, p, id)) && Extends(w, DoContinue(w, p, id))
  {
    AtOk(w, p);
    ContinueDurable(w, p, id);
    ContinuePcOk(w, p, id);
    var v := DoContinue(w, p, id);
    OneRowStep(w, v, id, p, v.procs[p]);
  }

  lemma LookupPcOk(w: World, o: Occ, id: TurnId)
    requires Inv(w) && Bound(w, o, id)
    ensures PcOk(w, LookupPC(w, o, id))
  {
  }

  lemma TickStartKeeps(w: World, p: Pid, o: Occ)
    requires Inv(w)
    ensures Inv(DoTickStart(w, p, o)) && Extends(w, DoTickStart(w, p, o))
  {
    VolatileStep(w, DoTickStart(w, p, o), p, Claiming(o));
  }

  lemma LookupKeeps(w: World, p: Pid)
    requires Inv(w) && At(w, p).Resolving?
    ensures Inv(DoLookup(w, p)) && Extends(w, DoLookup(w, p))
  {
    AtOk(w, p);
    var pc := LookupPC(w, At(w, p).o, At(w, p).id);
    LookupPcOk(w, At(w, p).o, At(w, p).id);
    VolatileStep(w, DoLookup(w, p), p, pc);
  }

  lemma ExecuteKeeps(w: World, p: Pid)
    requires Inv(w) && At(w, p).Holding?
    ensures Inv(DoExecute(w, p)) && Extends(w, DoExecute(w, p))
  {
    AtOk(w, p);
    VolatileStep(w, DoExecute(w, p), p, At(w, p).(spent := true));
  }

  lemma ThrowKeeps(w: World, p: Pid)
    requires Inv(w) && Enabled(w, Throw(p))
    ensures Inv(DoThrow(w, p)) && Extends(w, DoThrow(w, p))
  {
    AtOk(w, p);
    var v := DoThrow(w, p);
    VolatileStep(w, v, p, v.procs[p]);
  }

  lemma ConcludePcOk(w: World, p: Pid, stoodDown: bool)
    requires PcOk(w, At(w, p)) && Enabled(w, Conclude(p, stoodDown))
    ensures var v := DoConclude(w, p, stoodDown); PcOk(v, v.procs[p])
  {
  }

  lemma ConcludeKeeps(w: World, p: Pid, stoodDown: bool)
    requires Inv(w) && Enabled(w, Conclude(p, stoodDown))
    ensures Inv(DoConclude(w, p, stoodDown)) && Extends(w, DoConclude(w, p, stoodDown))
  {
    AtOk(w, p);
    ConcludePcOk(w, p, stoodDown);
    var v := DoConclude(w, p, stoodDown);
    VolatileStep(w, v, p, v.procs[p]);
  }

  lemma LanePickKeeps(w: World, p: Pid, id: TurnId)
    requires Inv(w) && id in w.db.turns
    ensures Inv(DoLanePick(w, p, id)) && Extends(w, DoLanePick(w, p, id))
  {
    var v := DoLanePick(w, p, id);
    VolatileStep(w, v, p, v.procs[p]);
  }

  lemma LaneReadKeeps(w: World, p: Pid)
    requires Inv(w) && At(w, p).Picked?
    ensures Inv(DoLaneRead(w, p)) && Extends(w, DoLaneRead(w, p))
  {
    var v := DoLaneRead(w, p);
    VolatileStep(w, v, p, v.procs[p]);
  }

  lemma CrashKeeps(w: World, p: Pid)
    requires Inv(w)
    ensures Inv(DoCrash(w, p)) && Extends(w, DoCrash(w, p))
  {
    VolatileStep(w, DoCrash(w, p), p, Idle);
  }

  lemma CallModelKeeps(w: World, p: Pid)
    requires Inv(w) && At(w, p).Holding?
    ensures Inv(DoCallModel(w, p)) && Extends(w, DoCallModel(w, p))
  {
    VolatileKeeps(w, DoCallModel(w, p));
    PcsSame(w, DoCallModel(w, p));
  }

  lemma ReclaimKeeps(w: World, id: TurnId)
    requires Inv(w)
    ensures var v := w.(db := w.db.(turns := ReclaimRow(w.db.turns, id))); Inv(v) && Extends(w, v)
  {
    var v := w.(db := w.db.(turns := ReclaimRow(w.db.turns, id)));
    OneRowKeeps(w, v, id);
    PcsSame(w, v);
  }

  lemma WakeKeeps(w: World, id: TurnId)
    requires Inv(w)
    ensures var v := w.(db := w.db.(turns := WakeRow(w.db.turns, id))); Inv(v) && Extends(w, v)
  {
    var v := w.(db := w.db.(turns := WakeRow(w.db.turns, id)));
    OneRowKeeps(w, v, id);
    PcsSame(w, v);
  }

  lemma ClockKeeps(w: World, to: nat)
    requires Inv(w)
    ensures Inv(w.(now := to)) && Extends(w, w.(now := to))
  {
    VolatileKeeps(w, w.(now := to));
    PcsSame(w, w.(now := to));
  }

  lemma BindKeeps(w: World, p: Pid)
    requires Inv(w) && At(w, p).Binding?
    ensures Inv(DoBind(w, p)) && Extends(w, DoBind(w, p))
  {
    AtOk(w, p);
    if w.db.fires[At(w, p).o].turnId.None? { BindWonKeeps(w, p); } else { BindLostKeeps(w, p); }
  }

  /** What a tick does, up to its outcome. */
  predicate OfTick(a: Action) { a.TickStart? || a.Claim? || a.Bind? || a.Lookup? || a.Create? || a.Throw? }

  /** What the holder of a row does. */
  predicate OfHolder(a: Action) {
    a.Execute? || a.CallModel? || a.Finish? || a.Suspend? || a.Release? || a.CloseRefused?
  }

  /** What is done with an outcome. */
  predicate OfEnd(a: Action) { a.Conclude? || a.Send? || a.Record? || a.Settle? || a.Advance? }

  lemma TickStepKeeps(w: World, a: Action)
    requires Inv(w) && Enabled(w, a) && OfTick(a)
    ensures Inv(Apply(w, a)) && Extends(w, Apply(w, a))
  {
    match a
    case TickStart(p, o) => TickStartKeeps(w, p, o);
    case Claim(p) => ClaimKeeps(w, p);
    case Bind(p) => BindKeeps(w, p);
    case Lookup(p) => LookupKeeps(w, p);
    case Create(p, capped) =>
      if At(w, p).id in w.db.turns { CreateConflictKeeps(w, p, capped); } else { CreateKeeps(w, p, capped); }
    case Throw(p) => ThrowKeeps(w, p);
  }

  lemma HolderStepKeeps(w: World, a: Action)
    requires Inv(w) && Enabled(w, a) && OfHolder(a)
    ensures Inv(Apply(w, a)) && Extends(w, Apply(w, a))
  {
    match a
    case Execute(p) => ExecuteKeeps(w, p);
    case CallModel(p) => CallModelKeeps(w, p);
    case Finish(p, outcome, speaks) => FinishKeeps(w, p, outcome, speaks);
    case Suspend(p) => SuspendKeeps(w, p);
    case Release(p) => ReleaseKeeps(w, p);
    case CloseRefused(p) => CloseRefusedKeeps(w, p);
  }

  lemma EndStepKeeps(w: World, a: Action)
    requires Inv(w) && Enabled(w, a) && OfEnd(a)
    ensures Inv(Apply(w, a)) && Extends(w, Apply(w, a))
  {
    match a
    case Conclude(p, stoodDown) => ConcludeKeeps(w, p, stoodDown);
    case Send(p, result) => SendKeeps(w, p, result);
    case Record(p, lands) => RecordKeeps(w, p, lands);
    case Settle(p) => SettleKeeps(w, p);
    case Advance(p) => AdvanceKeeps(w, p);
  }

  lemma OtherStepKeeps(w: World, a: Action)
    requires Inv(w) && Enabled(w, a) && !OfTick(a) && !OfHolder(a) && !OfEnd(a)
    ensures Inv(Apply(w, a)) && Extends(w, Apply(w, a))
  {
    match a
    case LanePick(p, id, _) => LanePickKeeps(w, p, id);
    case LaneRead(p) => LaneReadKeeps(w, p);
    case Resume(p) => ResumeKeeps(w, p);
    case Grant(p) => GrantKeeps(w, p);
    case Continue(p, id) => ContinueKeeps(w, p, id);
    case Crash(p) => CrashKeeps(w, p);
    case Reclaim(id) => ReclaimKeeps(w, id);
    case Wake(id) => WakeKeeps(w, id);
    case Clock(to) => ClockKeeps(w, to);
  }

  lemma StepKeeps(w: World, a: Action)
    requires Inv(w) && Enabled(w, a)
    ensures Inv(Apply(w, a)) && Extends(w, Apply(w, a))
  {
    if OfTick(a) {
      TickStepKeeps(w, a);
    } else if OfHolder(a) {
      HolderStepKeeps(w, a);
    } else if OfEnd(a) {
      EndStepKeeps(w, a);
    } else {
      OtherStepKeeps(w, a);
    }
  }
}

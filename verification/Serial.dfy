/**
 * Delivery accounting when the work on one occurrence is serialised: a tick, a lane beat or
 * a resume starts on it only while no other process has it in hand, and only the rows of
 * dead holders are reclaimed. Different occurrences may be worked on at once, ticks, beats
 * and crashes are otherwise arbitrary.
 */
module Serial {

  import opened Common
  import opened Stores
  import opened Protocol
  import opened Occurrence
  import opened Guarantees

  // ---- Who has which occurrence in hand -------------------------------------------------

  function IdAt(pc: PC): Option<TurnId> {
    match pc
    case Resolving(_, id) => Some(id)
    case Creating(_, id) => Some(id)
    case Picked(id) => Some(id)
    case Resuming(id) => Some(id)
    case Granting(id) => Some(id)
    case Holding(_, id, _, _, _) => Some(id)
    case Ending(_, turn, _, _) => turn
    case Recording(_, turn, _, _) => turn
    case _ => None
  }

  /** The occurrence a process has in hand: its tick's, or the one its row was written for. */
  function OccAt(w: World, pc: PC): Option<Occ> {
    if TickOcc(pc).Some? then TickOcc(pc)
    else if IdAt(pc).Some? && IdAt(pc).value in w.past.origin then Some(w.past.origin[IdAt(pc).value])
    else None
  }

  ghost predicate Free(w: World, o: Occ) {
    forall p | p in w.procs && !w.procs[p].Idle? :: OccAt(w, w.procs[p]) != Some(o)
  }

  ghost predicate Apart(w: World) {
    forall p, q | p in w.procs && q in w.procs && p != q && !w.procs[p].Idle? && !w.procs[q].Idle? ::
      OccAt(w, w.procs[p]) != OccAt(w, w.procs[q])
  }

  ghost predicate SerialAction(w: World, a: Action) {
    match a
    case TickStart(_, o) => Free(w, o)
    case LanePick(_, id, _) => id in w.past.origin && Free(w, w.past.origin[id])
    case Continue(_, id) => id in w.past.origin && Free(w, w.past.origin[id])
    case Reclaim(id) =>
      forall p | p in w.procs && w.procs[p].Holding? && w.procs[p].id == id ::
        id in w.db.turns && w.db.turns[id].token != Some(w.procs[p].tok)
    case _ => true
  }

  ghost predicate SerialRun(w: World, run: seq<Action>)
    decreases |run|
  {
    run == [] || (Enabled(w, run[0]) && SerialAction(w, run[0]) && SerialRun(Apply(w, run[0]), run[1..]))
  }

  lemma {:induction false} SerialIsLegal(w: World, run: seq<Action>)
    requires SerialRun(w, run)
    ensures Legal(w, run)
    decreases |run|
  {
    if run != [] { SerialIsLegal(Apply(w, run[0]), run[1..]); }
  }

  // ---- The books of one row ----------------------------------------------------------------

  predicate Unresolved(w: World, id: TurnId) {
    id in w.db.turns && w.db.turns[id].status == Done && !Resolved(w.db.turns[id].delivery)
  }

  /** What a process knows about the row in its hands. */
  predicate Knows(w: World, pc: PC) {
    match pc
    case Creating(_, id) => id !in w.db.turns
    case Holding(_, id, tok, _, _) => Holds(w.db.turns, id, tok)
    case Picked(id) => id in w.db.turns && (Claimable(w.db.turns[id]) || w.db.turns[id].status == Continuable)
    case Resuming(id) => id in w.db.turns && Claimable(w.db.turns[id])
    case Granting(id) => id in w.db.turns && w.db.turns[id].lease < MAX_AUTONOMOUS_LEASES
    case Ending(_, Some(id), end, _) =>
      if Answers(end) then Unresolved(w, id)
      else end.Stop? && (end.how.Released? ==> id in w.db.turns && w.db.turns[id].status == Continuable)
    case Recording(_, Some(id), _, answers) =>
      if answers then Unresolved(w, id) && w.past.sends[id] > 0 else id in w.db.turns && w.db.turns[id].status == Continuable
    case _ => true
  }

  predicate IsRecording(pc: PC, id: TurnId) { pc.Recording? && pc.turn == Some(id) }

  /**
   * Attempts to deliver a finished row exceed lost records by at most one, and only once its
   * delivery is resolved or being recorded; a resolved delivery was attempted; nothing is
   * sent before the row is finished; leases stay under the ceiling and those granted by hand.
   */
  predicate Tally(w: World, recording: bool, id: TurnId) {
    var sends, missed := w.past.sends[id], w.past.missed[id];
    if id !in w.db.turns then sends == 0
    else
      var r := w.db.turns[id];
      && r.lease <= MAX_AUTONOMOUS_LEASES + w.past.explicit[id]
      && sends <= missed + 1
      && if r.status != Done then sends == 0 && (r.status != Continuable ==> !Resolved(r.delivery))
         else if Resolved(r.delivery) then sends > 0
         else recording || sends <= missed
  }

  ghost predicate BeingRecorded(w: World, id: TurnId) { exists p :: p in w.procs && IsRecording(w.procs[p], id) }

  ghost predicate SInv(w: World) {
    && Apart(w)
    && (forall p | p in w.procs :: Knows(w, w.procs[p]))
    && (forall id :: Tally(w, BeingRecorded(w, id), id))
  }

  // ---- One process moves, the others keep what they know ------------------------------------

  /** At most the row `t` and its counts changed, and the program counter of `p`. */
  predicate SameRow(w: World, v: World, x: TurnId) {
    && (x in v.db.turns <==> x in w.db.turns) && (x in w.db.turns ==> v.db.turns[x] == w.db.turns[x])
    && (x in v.past.origin <==> x in w.past.origin) && (x in w.past.origin ==> v.past.origin[x] == w.past.origin[x])
    && v.past.sends[x] == w.past.sends[x] && v.past.missed[x] == w.past.missed[x] && v.past.explicit[x] == w.past.explicit[x]
  }

  ghost predicate Only(w: World, v: World, p: Pid, t: Option<TurnId>) {
    && p in v.procs && v.procs == w.procs[p := v.procs[p]]
    && forall x: TurnId | Some(x) != t :: SameRow(w, v, x)
  }

  /** Ids belong to one occurrence each, so processes on different occurrences hold different rows. */
  lemma IdOfOcc(w: World, pc: PC)
    requires Inv(w) && PcOk(w, pc) && IdAt(pc).Some?
    ensures IdAt(pc).value in w.past.owner && OccAt(w, pc) == Some(w.past.owner[IdAt(pc).value])
  {
    if pc.Holding? && pc.side.Job? { assert Bound(w, pc.side.o, pc.id) && HasId(w, pc.side.o); }
    if pc.Ending? && pc.side.Job? { assert HasId(w, pc.side.o); }
    if pc.Recording? && pc.side.Job? { assert HasId(w, pc.side.o); }
    if pc.Resolving? || pc.Creating? { assert HasId(w, pc.o); }
  }

  /** The row an action of a process may touch. */
  function Touches(w: World, a: Action): Option<TurnId>
    requires !Ambient(a)
  {
    match a
    case LanePick(_, id, _) => Some(id)
    case Continue(_, id) => Some(id)
    case _ => IdAt(At(w, a.p))
  }

  /** Nobody else has that row in hand. */
  ghost predicate Exclusive(w: World, p: Pid, t: Option<TurnId>) {
    t.Some? ==> forall q | q in w.procs && q != p :: IdAt(w.procs[q]) != t
  }

  lemma HandsApart(w: World, p: Pid)
    requires Inv(w) && Apart(w) && !At(w, p).Idle?
    ensures Exclusive(w, p, IdAt(At(w, p)))
  {
    var t := IdAt(At(w, p));
    if t.Some? {
      IdOfOcc(w, At(w, p));
      forall q | q in w.procs && q != p ensures IdAt(w.procs[q]) != t {
        if IdAt(w.procs[q]) == t { IdOfOcc(w, w.procs[q]); }
      }
    }
  }

  lemma FreeRow(w: World, p: Pid, id: TurnId)
    requires Inv(w) && id in w.past.origin && Free(w, w.past.origin[id])
    ensures Exclusive(w, p, Some(id))
  {
    forall q | q in w.procs && q != p ensures IdAt(w.procs[q]) != Some(id) {
      if IdAt(w.procs[q]) == Some(id) { IdOfOcc(w, w.procs[q]); }
    }
  }

  lemma OthersKnow(w: World, v: World, p: Pid, t: Option<TurnId>)
    requires Only(w, v, p, t) && Exclusive(w, p, t) && Knows(v, v.procs[p])
    requires forall q | q in w.procs :: Knows(w, w.procs[q])
    ensures forall q | q in v.procs :: Knows(v, v.procs[q])
  {
    forall q | q in v.procs && q != p ensures Knows(v, w.procs[q]) {
      assert Knows(w, w.procs[q]);
      var x := IdAt(w.procs[q]);
      if x.Some? { assert SameRow(w, v, x.value); }
    }
  }

  lemma OthersApart(w: World, v: World, p: Pid, t: Option<TurnId>)
    requires Only(w, v, p, t) && Exclusive(w, p, t) && Apart(w)
    requires v.procs[p].Idle? || (!At(w, p).Idle? && OccAt(v, v.procs[p]) == OccAt(w, At(w, p)))
             || (OccAt(v, v.procs[p]).Some? && Free(w, OccAt(v, v.procs[p]).value))
    ensures Apart(v)
  {
    forall q | q in w.procs && q != p ensures OccAt(v, w.procs[q]) == OccAt(w, w.procs[q]) {
      var x := IdAt(w.procs[q]);
      if x.Some? { assert SameRow(w, v, x.value); }
    }
  }

  lemma OthersTally(w: World, v: World, p: Pid, t: Option<TurnId>, x: TurnId)
    requires Only(w, v, p, t) && Some(x) != t && !IsRecording(At(w, p), x) && !IsRecording(v.procs[p], x)
    requires Tally(w, BeingRecorded(w, x), x)
    ensures Tally(v, BeingRecorded(v, x), x)
  {
    assert SameRow(w, v, x);
    if BeingRecorded(w, x) {
      var q :| q in w.procs && IsRecording(w.procs[q], x);
      assert q in v.procs && IsRecording(v.procs[q], x);
    }
  }

  lemma OwnRecording(w: World, p: Pid, id: TurnId)
    requires Exclusive(w, p, Some(id))
    ensures BeingRecorded(w, id) <==> IsRecording(At(w, p), id)
  {
    if BeingRecorded(w, id) { var q :| q in w.procs && IsRecording(w.procs[q], id); }
    if IsRecording(At(w, p), id) { assert p in w.procs; }
  }

  lemma ExclusiveAfter(w: World, v: World, p: Pid, t: Option<TurnId>)
    requires Only(w, v, p, t) && Exclusive(w, p, t)
    ensures Exclusive(v, p, t)
  {
  }

  /** What one action must show about the process that takes it and the row in its hands. */
  ghost predicate Moves(w: World, v: World, p: Pid, t: Option<TurnId>) {
    && Only(w, v, p, t) && Knows(v, v.procs[p])
    && (t.Some? ==> Tally(v, IsRecording(v.procs[p], t.value), t.value))
    && (v.procs[p].Recording? ==> v.procs[p].turn == t) && (At(w, p).Recording? ==> At(w, p).turn == t)
  }

  lemma MoveKeeps(w: World, v: World, p: Pid, t: Option<TurnId>)
    requires SInv(w) && Exclusive(w, p, t) && Moves(w, v, p, t)
    requires v.procs[p].Idle? || (!At(w, p).Idle? && OccAt(v, v.procs[p]) == OccAt(w, At(w, p)))
             || (OccAt(v, v.procs[p]).Some? && Free(w, OccAt(v, v.procs[p]).value))
    ensures SInv(v)
  {
    OthersKnow(w, v, p, t);
    OthersApart(w, v, p, t);
    ExclusiveAfter(w, v, p, t);
    forall x: TurnId ensures Tally(v, BeingRecorded(v, x), x) {
      if Some(x) == t {
        OwnRecording(v, p, x);
      } else {
        assert Tally(w, BeingRecorded(w, x), x);
        OthersTally(w, v, p, t, x);
      }
    }
  }

  // ---- The actions -----------------------------------------------------------------------------

  /** What a process brings to its action. */
  ghost predicate Ready(w: World, p: Pid, t: Option<TurnId>) {
    && RowsOk(w) && PcOk(w, At(w, p)) && Knows(w, At(w, p))
    && (t.Some? ==> Tally(w, IsRecording(At(w, p), t.value), t.value))
  }

  predicate OfStart(a: Action) { a.TickStart? || a.LanePick? }

  lemma StartMoves(w: World, a: Action)
    requires OfStart(a) && Enabled(w, a) && Ready(w, a.p, Touches(w, a))
    ensures Moves(w, Apply(w, a), a.p, Touches(w, a))
  {
  }

  predicate OfClaim(a: Action) { a.Claim? || a.Bind? || a.Lookup? || a.Throw? || a.LaneRead? }

  lemma ClaimMoves(w: World, a: Action)
    requires OfClaim(a) && Enabled(w, a) && Ready(w, a.p, Touches(w, a))
    requires a.Bind? ==> w.db.ids !in w.db.turns
    ensures var v, t := Apply(w, a), Touches(w, a);
            && Only(w, v, a.p, t) && Knows(v, v.procs[a.p])
            && (t.Some? ==> Tally(v, IsRecording(v.procs[a.p], t.value), t.value))
            && !v.procs[a.p].Recording? && !At(w, a.p).Recording?
  {
  }

  lemma CreateMoves(w: World, p: Pid, capped: bool)
    requires At(w, p).Creating? && Ready(w, p, Some(At(w, p).id))
    ensures Moves(w, DoCreate(w, p, capped), p, Some(At(w, p).id))
  {
  }

  lemma ExecuteMoves(w: World, p: Pid)
    requires At(w, p).Holding? && Ready(w, p, Some(At(w, p).id))
    ensures Moves(w, DoExecute(w, p), p, Some(At(w, p).id))
  {
  }

  lemma FinishMoves(w: World, p: Pid, outcome: Outcome, speaks: bool)
    requires At(w, p).Holding? && Ready(w, p, Some(At(w, p).id))
    ensures Moves(w, DoFinish(w, p, outcome, speaks), p, Some(At(w, p).id))
  {
  }

  lemma SuspendMoves(w: World, p: Pid)
    requires At(w, p).Holding? && Ready(w, p, Some(At(w, p).id))
    ensures Moves(w, DoSuspend(w, p), p, Some(At(w, p).id))
  {
  }

  lemma ReleaseMoves(w: World, p: Pid)
    requires At(w, p).Holding? && Ready(w, p, Some(At(w, p).id))
    ensures Moves(w, DoRelease(w, p), p, Some(At(w, p).id))
  {
  }

  lemma CloseRefusedMoves(w: World, p: Pid)
    requires At(w, p).Holding? && Ready(w, p, Some(At(w, p).id))
    ensures Moves(w, DoCloseRefused(w, p), p, Some(At(w, p).id))
  {
  }

  lemma ResumeMoves(w: World, p: Pid)
    requires At(w, p).Resuming? && Ready(w, p, Some(At(w, p).id))
    ensures Moves(w, DoResume(w, p), p, Some(At(w, p).id))
  {
  }

  lemma GrantMoves(w: World, p: Pid)
    requires At(w, p).Granting? && Ready(w, p, Some(At(w, p).id))
    ensures Moves(w, DoGrant(w, p), p, Some(At(w, p).id))
  {
  }

  lemma ContinueMoves(w: World, p: Pid, id: TurnId)
    requires At(w, p).Idle? && id in w.db.turns && Ready(w, p, Some(id))
    ensures Moves(w, DoContinue(w, p, id), p, Some(id))
  {
  }

  lemma ConcludeMoves(w: World, p: Pid, out: bool)
    requires Enabled(w, Conclude(p, out)) && Ready(w, p, At(w, p).turn)
    ensures Moves(w, DoConclude(w, p, out), p, At(w, p).turn)
  {
  }

  lemma SendMoves(w: World, p: Pid, result: Delivery)
    requires Enabled(w, Send(p, result)) && Ready(w, p, At(w, p).turn)
    ensures Moves(w, DoSend(w, p, result), p, At(w, p).turn)
  {
  }

  lemma RecordMoves(w: World, p: Pid, lands: bool)
    requires At(w, p).Recording? && Ready(w, p, At(w, p).turn)
    ensures Moves(w, DoRecord(w, p, lands), p, At(w, p).turn)
  {
  }

  lemma SettleMoves(w: World, p: Pid)
    requires At(w, p).Settling? && Ready(w, p, None)
    ensures Moves(w, DoSettle(w, p), p, None)
  {
  }

  lemma AdvanceMoves(w: World, p: Pid)
    requires At(w, p).Advancing? && Ready(w, p, None)
    ensures Moves(w, DoAdvance(w, p), p, None)
  {
  }

  lemma CrashMoves(w: World, p: Pid)
    requires Ready(w, p, IdAt(At(w, p)))
    ensures Moves(w, DoCrash(w, p), p, IdAt(At(w, p)))
  {
  }

  predicate OfRow(a: Action) {
    a.Create? || a.Execute? || a.Finish? || a.Suspend? || a.Release? || a.CloseRefused? || a.Resume? || a.Grant? || a.Continue?
  }

  lemma RowMoves(w: World, a: Action)
    requires OfRow(a) && Enabled(w, a) && Ready(w, a.p, Touches(w, a))
    ensures Moves(w, Apply(w, a), a.p, Touches(w, a))
  {
    match a
    case Create(p, capped) => CreateMoves(w, p, capped);
    case Execute(p) => ExecuteMoves(w, p);
    case Finish(p, outcome, speaks) => FinishMoves(w, p, outcome, speaks);
    case Suspend(p) => SuspendMoves(w, p);
    case Release(p) => ReleaseMoves(w, p);
    case CloseRefused(p) => CloseRefusedMoves(w, p);
    case Resume(p) => ResumeMoves(w, p);
    case Grant(p) => GrantMoves(w, p);
    case Continue(p, id) => ContinueMoves(w, p, id);
  }

  lemma SpeakMoves(w: World, a: Action)
    requires (a.Conclude? || a.Send? || a.Record?) && Enabled(w, a) && Ready(w, a.p, Touches(w, a))
    ensures Moves(w, Apply(w, a), a.p, Touches(w, a))
  {
    match a
    case Conclude(p, out) => ConcludeMoves(w, p, out);
    case Send(p, result) => SendMoves(w, p, result);
    case Record(p, lands) => RecordMoves(w, p, lands);
  }

  lemma EndMoves(w: World, a: Action)
    requires (OfEnd(a) || a.Crash?) && Enabled(w, a) && Ready(w, a.p, Touches(w, a))
    ensures Moves(w, Apply(w, a), a.p, Touches(w, a))
  {
    if a.Settle? {
      SettleMoves(w, a.p);
    } else if a.Advance? {
      AdvanceMoves(w, a.p);
    } else if a.Crash? {
      CrashMoves(w, a.p);
    } else {
      SpeakMoves(w, a);
    }
  }

  lemma FreshId(w: World)
    requires Inv(w)
    ensures w.db.ids !in w.db.turns
  {
    assert w.db.ids in w.past.origin ==> w.db.ids in w.past.owner;
  }

  lemma ActorMoves(w: World, a: Action)
    requires Inv(w) && !Ambient(a) && !a.CallModel? && Enabled(w, a) && Ready(w, a.p, Touches(w, a))
    ensures Moves(w, Apply(w, a), a.p, Touches(w, a))
  {
    if OfStart(a) {
      StartMoves(w, a);
    } else if OfClaim(a) {
      FreshId(w);
      ClaimMoves(w, a);
    } else if OfRow(a) {
      RowMoves(w, a);
    } else {
      EndMoves(w, a);
    }
  }

  /** A process stays on its occurrence, lets go, or starts on a free one. */
  ghost predicate StaysPut(w: World, v: World, p: Pid) {
    p in v.procs
    && (v.procs[p].Idle? || (!At(w, p).Idle? && OccAt(v, v.procs[p]) == OccAt(w, At(w, p)))
        || (OccAt(v, v.procs[p]).Some? && Free(w, OccAt(v, v.procs[p]).value)))
  }

  lemma ClaimPut(w: World, a: Action)
    requires OfStart(a) || OfClaim(a) || a.Continue?
    requires Enabled(w, a) && SerialAction(w, a)
    ensures StaysPut(w, Apply(w, a), a.p)
  {
  }

  lemma HolderPut(w: World, a: Action)
    requires Enabled(w, a) && OfHolder(a) && PcOk(w, At(w, a.p))
    ensures StaysPut(w, Apply(w, a), a.p)
  {
  }

  lemma TakerPut(w: World, a: Action)
    requires (a.Create? || a.Resume? || a.Grant?) && Enabled(w, a) && PcOk(w, At(w, a.p))
    ensures StaysPut(w, Apply(w, a), a.p)
  {
  }

  lemma RowPut(w: World, a: Action)
    requires OfRow(a) && !a.Continue? && Enabled(w, a) && PcOk(w, At(w, a.p))
    ensures StaysPut(w, Apply(w, a), a.p)
  {
    if OfHolder(a) { HolderPut(w, a); } else { TakerPut(w, a); }
  }

  lemma ConcludePut(w: World, p: Pid, out: bool)
    requires Enabled(w, Conclude(p, out)) && PcOk(w, At(w, p))
    ensures StaysPut(w, DoConclude(w, p, out), p)
  {
  }

  lemma SendPut(w: World, p: Pid, d: Delivery)
    requires At(w, p).Ending? && PcOk(w, At(w, p))
    ensures StaysPut(w, DoSend(w, p, d), p)
  {
  }

  lemma RecordPut(w: World, p: Pid, lands: bool)
    requires At(w, p).Recording? && PcOk(w, At(w, p))
    ensures StaysPut(w, DoRecord(w, p, lands), p)
  {
  }

  lemma EndPut(w: World, a: Action)
    requires (OfEnd(a) || a.Crash?) && Enabled(w, a) && PcOk(w, At(w, a.p))
    ensures StaysPut(w, Apply(w, a), a.p)
  {
    match a
    case Conclude(p, out) => ConcludePut(w, p, out);
    case Send(p, d) => SendPut(w, p, d);
    case Record(p, lands) => RecordPut(w, p, lands);
    case Settle(_) =>
    case Advance(_) =>
    case Crash(_) =>
  }

  lemma ActorPut(w: World, a: Action)
    requires !Ambient(a) && !a.CallModel? && Enabled(w, a) && SerialAction(w, a) && PcOk(w, At(w, a.p))
    ensures StaysPut(w, Apply(w, a), a.p)
  {
    if OfStart(a) || OfClaim(a) || a.Continue? {
      ClaimPut(w, a);
    } else if OfRow(a) {
      RowPut(w, a);
    } else {
      EndPut(w, a);
    }
  }

  lemma TouchesAlone(w: World, a: Action)
    requires Inv(w) && SInv(w) && !Ambient(a) && Enabled(w, a) && SerialAction(w, a)
    ensures Exclusive(w, a.p, Touches(w, a))
  {
    if a.LanePick? || a.Continue? {
      FreeRow(w, a.p, a.id);
    } else if !At(w, a.p).Idle? {
      HandsApart(w, a.p);
    }
  }

  lemma ActorReady(w: World, a: Action)
    requires Inv(w) && SInv(w) && !Ambient(a) && Exclusive(w, a.p, Touches(w, a))
    ensures Ready(w, a.p, Touches(w, a))
  {
    AtOk(w, a.p);
    var t := Touches(w, a);
    if t.Some? {
      OwnRecording(w, a.p, t.value);
      assert Tally(w, BeingRecorded(w, t.value), t.value);
    }
  }

  lemma ActorStep(w: World, a: Action)
    requires Inv(w) && SInv(w) && !Ambient(a) && !a.CallModel? && Enabled(w, a) && SerialAction(w, a)
    ensures SInv(Apply(w, a))
  {
    AtOk(w, a.p);
    TouchesAlone(w, a);
    ActorReady(w, a);
    ActorMoves(w, a);
    ActorPut(w, a);
    MoveKeeps(w, Apply(w, a), a.p, Touches(w, a));
  }

  lemma CallModelStep(w: World, p: Pid)
    requires SInv(w) && At(w, p).Holding?
    ensures SInv(DoCallModel(w, p))
  {
    var v := DoCallModel(w, p);
    forall id: TurnId ensures Tally(v, BeingRecorded(v, id), id) {
      assert Tally(w, BeingRecorded(w, id), id) && (BeingRecorded(w, id) <==> BeingRecorded(v, id));
    }
  }

  lemma ClockStep(w: World, to: nat)
    requires SInv(w)
    ensures SInv(w.(now := to))
  {
    var v := w.(now := to);
    forall id: TurnId ensures Tally(v, BeingRecorded(v, id), id) {
      assert Tally(w, BeingRecorded(w, id), id) && (BeingRecorded(w, id) <==> BeingRecorded(v, id));
    }
  }

  /** The table's own changes: a dead holder's row is given back, a waiting one wakes. */
  predicate Nudged(r: Row, s: Row) {
    || s == r
    || (r.status == Running && s == r.(status := Interrupted, token := None))
    || (r.status == Waiting && s == r.(status := Runnable))
  }

  lemma NudgeKnows(w: World, v: World, id: TurnId, pc: PC)
    requires id in w.db.turns && id in v.db.turns && v == w.(db := w.db.(turns := v.db.turns)) && v.db.turns == w.db.turns[id := v.db.turns[id]]
    requires Nudged(w.db.turns[id], v.db.turns[id]) && RowsOk(w) && Knows(w, pc)
    requires pc.Holding? && pc.id == id ==> w.db.turns[id].status == Waiting || v.db.turns[id] == w.db.turns[id] || w.db.turns[id].token != Some(pc.tok)
    ensures Knows(v, pc)
  {
  }

  lemma NudgeStep(w: World, v: World, id: TurnId)
    requires SInv(w) && RowsOk(w) && id in w.db.turns && v == w.(db := w.db.(turns := v.db.turns)) && id in v.db.turns
    requires v.db.turns == w.db.turns[id := v.db.turns[id]] && Nudged(w.db.turns[id], v.db.turns[id])
    requires forall p | p in w.procs && w.procs[p].Holding? && w.procs[p].id == id ::
               w.db.turns[id].status == Waiting || v.db.turns[id] == w.db.turns[id] || w.db.turns[id].token != Some(w.procs[p].tok)
    ensures SInv(v)
  {
    forall p | p in v.procs ensures Knows(v, v.procs[p]) { NudgeKnows(w, v, id, w.procs[p]); }
    forall x: TurnId ensures Tally(v, BeingRecorded(v, x), x) {
      assert Tally(w, BeingRecorded(w, x), x) && (BeingRecorded(w, x) <==> BeingRecorded(v, x));
    }
    assert Apart(v);
  }

  lemma AmbientStep(w: World, a: Action)
    requires Inv(w) && SInv(w) && (a.Reclaim? || a.Wake?) && Enabled(w, a) && SerialAction(w, a)
    ensures SInv(Apply(w, a))
  {
    var row := w.db.turns[a.id];
    assert a.Reclaim? ==> Nudged(row, Apply(w, a).db.turns[a.id]) && Apply(w, a).db.turns == w.db.turns[a.id := Apply(w, a).db.turns[a.id]];
    assert a.Wake? ==> Nudged(row, Apply(w, a).db.turns[a.id]) && Apply(w, a).db.turns == w.db.turns[a.id := Apply(w, a).db.turns[a.id]];
    NudgeStep(w, Apply(w, a), a.id);
  }

  lemma SerialStep(w: World, a: Action)
    requires Inv(w) && SInv(w) && Enabled(w, a) && SerialAction(w, a)
    ensures SInv(Apply(w, a))
  {
    if a.CallModel? {
      CallModelStep(w, a.p);
    } else if a.Clock? {
      ClockStep(w, a.to);
    } else if Ambient(a) {
      AmbientStep(w, a);
    } else {
      ActorStep(w, a);
    }
  }

  lemma {:induction false} SerialRunKeeps(w: World, run: seq<Action>)
    requires Inv(w) && SInv(w) && SerialRun(w, run)
    ensures Legal(w, run) && Inv(After(w, run)) && SInv(After(w, run))
    decreases |run|
  {
    SerialIsLegal(w, run);
    if run != [] {
      StepKeeps(w, run[0]);
      SerialStep(w, run[0]);
      SerialRunKeeps(Apply(w, run[0]), run[1..]);
    }
  }

  lemma StartSerial(jobs: map<JobId, JobCfg>, now: nat)
    ensures SInv(Start(jobs, now))
  {
  }

  /**
   * With each occurrence worked on by one process at a time, and whatever crashes: attempts
   * to deliver a finished answer exceed the records that were lost by at most one, so with
   * no record lost an answer is sent at most once; nothing counts as sent before the row is
   * finished; a delivery column that makes a later tick settle without speaking means the
   * answer was really attempted; and leases end at the ceiling and those granted by hand.
   */
  lemma AnswerSentAtMostOnce(jobs: map<JobId, JobCfg>, now: nat, run: seq<Action>, id: TurnId)
    requires SerialRun(Start(jobs, now), run)
    ensures Legal(Start(jobs, now), run)
    ensures var w := After(Start(jobs, now), run); var sends := w.past.sends[id];
            && sends <= w.past.missed[id] + 1
            && (sends > 0 ==> RowDone(w, id))
            && (RowDone(w, id) && Resolved(w.db.turns[id].delivery) ==> sends > 0)
            && (id in w.db.turns ==> w.db.turns[id].lease <= MAX_AUTONOMOUS_LEASES + w.past.explicit[id])
  {
    StartInv(jobs, now);
    StartSerial(jobs, now);
    SerialRunKeeps(Start(jobs, now), run);
    var w := After(Start(jobs, now), run);
    assert Tally(w, BeingRecorded(w, id), id);
  }
}

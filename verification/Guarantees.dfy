/** The occurrence protocol's guarantees over every run, crashes and races included. */
module Guarantees {

  import opened Stores
  import opened Protocol
  import opened Occurrence

  // ---- Runs -------------------------------------------------------------------------

  lemma ExtendsTransitive(u: World, v: World, w: World)
    requires Extends(u, v) && Extends(v, w)
    ensures Extends(u, w)
  {
  }

  /** Between any two points of a run, durable facts only accumulate. */
  lemma {:induction false} RunKeeps(w: World, run: seq<Action>)
    requires Inv(w) && Legal(w, run)
    ensures Inv(After(w, run)) && Extends(w, After(w, run))
    decreases |run|
  {
    if run != [] {
      StepKeeps(w, run[0]);
      RunKeeps(Apply(w, run[0]), run[1..]);
      ExtendsTransitive(w, Apply(w, run[0]), After(w, run));
    }
  }

  lemma StartInv(jobs: map<JobId, JobCfg>, now: nat)
    ensures Inv(Start(jobs, now))
  {
  }

  // ---- One identity per occurrence --------------------------------------------------

  /**
   * In every run, however ticks race and crash: an occurrence has at most one row ever
   * written for it, that row's id is the one the bind committed, and an id that lost the
   * bind is never a row.
   */
  lemma OneIdentity(jobs: map<JobId, JobCfg>, now: nat, run: seq<Action>)
    requires Legal(Start(jobs, now), run)
    ensures var w := After(Start(jobs, now), run);
            && w.past.origin.Keys == w.db.turns.Keys
            && (forall a, b | a in w.past.origin && b in w.past.origin && w.past.origin[a] == w.past.origin[b] :: a == b)
            && (forall id | id in w.past.origin :: Bound(w, w.past.origin[id], id))
            && w.past.lost !! w.db.turns.Keys
  {
    StartInv(jobs, now);
    RunKeeps(Start(jobs, now), run);
    var w := After(Start(jobs, now), run);
    forall a, b | a in w.past.origin && b in w.past.origin && w.past.origin[a] == w.past.origin[b] ensures a == b {
      assert Bound(w, w.past.origin[a], a) && Bound(w, w.past.origin[b], b);
    }
    forall t | t in w.past.lost ensures t !in w.db.turns { }
  }

  // ---- Stages -----------------------------------------------------------------------

  /** absent, claimed, bound, row written, row done, delivery resolved. */
  function Stage(w: World, o: Occ): nat {
    if o !in w.db.fires then 0
    else if w.db.fires[o].turnId.None? then 1
    else var id := w.db.fires[o].turnId.value;
      if id !in w.db.turns then 2
      else if w.db.turns[id].status != Done then 3
      else if !Resolved(w.db.turns[id].delivery) then 4
      else 5
  }

  /** No crash, race or late write ever takes an occurrence back a stage, or changes its id. */
  lemma StagesNeverGoBack(w: World, run: seq<Action>, o: Occ)
    requires Inv(w) && Legal(w, run)
    ensures Stage(w, o) <= Stage(After(w, run), o)
    ensures Stage(w, o) >= 2 ==> After(w, run).db.fires[o].turnId == w.db.fires[o].turnId
  {
    RunKeeps(w, run);
    StageExtends(w, After(w, run), o);
  }

  lemma StageExtends(w: World, v: World, o: Occ)
    requires Extends(w, v)
    ensures Stage(w, o) <= Stage(v, o)
    ensures Stage(w, o) >= 2 ==> o in v.db.fires && v.db.fires[o].turnId == w.db.fires[o].turnId
  {
  }

  /**
   * The occurrence a tick served is settled before the schedule moves on its behalf: by
   * then its fire is settled under its one identity with a row, or its failure was
   * announced. (What the schedule passes besides it is another matter: see `Schedule`.)
   */
  lemma SettledBeforeMarked(jobs: map<JobId, JobCfg>, now: nat, run: seq<Action>, o: Occ)
    requires Legal(Start(jobs, now), run) && o in After(Start(jobs, now), run).past.marked
    ensures SettledOrAnnounced(After(Start(jobs, now), run), o)
  {
    StartInv(jobs, now);
    RunKeeps(Start(jobs, now), run);
  }

  // ---- A script runs at most once ---------------------------------------------------

  predicate JobHolder(pc: PC) { pc.Holding? && pc.side.Job? }

  ghost predicate HasModel(w: World, id: TurnId, model: Model) {
    id in w.db.turns && w.db.turns[id].model == model
  }

  ghost predicate Once(w: World) {
    && (forall id :: w.past.execs[id] <= 1)
    && (forall id | w.past.execs[id] > 0 :: HasModel(w, id, ScriptModel))
    && (forall id | w.past.calls[id] > 0 :: HasModel(w, id, Provider))
    && (forall p | p in w.procs && JobHolder(w.procs[p]) && !w.procs[p].spent :: w.past.execs[w.procs[p].id] == 0)
    && (forall p, q | p in w.procs && q in w.procs && JobHolder(w.procs[p]) && JobHolder(w.procs[q])
          && w.procs[p].id == w.procs[q].id :: p == q)
  }

  /** An action that neither runs anything nor makes a new holder for a job. */
  lemma OnceFrame(w: World, v: World, p: Pid, pc: PC)
    requires Once(w) && Extends(w, v) && !JobHolder(pc)
    requires v.past.execs == w.past.execs && v.past.calls == w.past.calls
    requires v.procs == w.procs || v.procs == w.procs[p := pc]
    ensures Once(v)
  {
  }

  /** Whoever runs a job's turn has its row. */
  ghost predicate HoldersHaveRows(w: World) {
    forall q | q in w.procs && JobHolder(w.procs[q]) :: w.procs[q].id in w.db.turns
  }

  lemma OnceCreateFresh(w: World, p: Pid, capped: bool)
    requires Once(w) && HoldersHaveRows(w) && At(w, p).Creating? && At(w, p).id !in w.db.turns
    ensures Once(DoCreate(w, p, capped))
  {
  }

  lemma OnceCreate(w: World, p: Pid, capped: bool)
    requires Inv(w) && Once(w) && At(w, p).Creating? && Extends(w, DoCreate(w, p, capped))
    ensures Once(DoCreate(w, p, capped))
  {
    if At(w, p).id in w.db.turns {
      var v := DoCreate(w, p, capped);
      OnceFrame(w, v, p, v.procs[p]);
    } else {
      forall q | q in w.procs && JobHolder(w.procs[q]) ensures w.procs[q].id in w.db.turns { AtOk(w, q); }
      OnceCreateFresh(w, p, capped);
    }
  }

  lemma OnceExecute(w: World, p: Pid)
    requires Once(w) && Enabled(w, Execute(p)) && HasModel(w, At(w, p).id, ScriptModel)
    ensures Once(DoExecute(w, p))
  {
  }

  lemma OnceCallModel(w: World, p: Pid)
    requires Once(w) && Enabled(w, CallModel(p)) && HasModel(w, At(w, p).id, Provider)
    ensures Once(DoCallModel(w, p))
  {
  }

  lemma HolderHasModel(w: World, p: Pid)
    requires Inv(w) && At(w, p).Holding?
    ensures HasModel(w, At(w, p).id, At(w, p).model)
  {
    AtOk(w, p);
  }

  predicate Quiet(a: Action) { !a.Create? && !a.Execute? && !a.CallModel? && !Ambient(a) }

  lemma QuietShape(w: World, a: Action)
    requires Enabled(w, a) && Quiet(a)
    ensures var v := Apply(w, a);
            && a.p in v.procs && v.procs == w.procs[a.p := v.procs[a.p]] && !JobHolder(v.procs[a.p])
            && v.past.execs == w.past.execs && v.past.calls == w.past.calls
  {
  }

  lemma OnceQuiet(w: World, a: Action)
    requires Once(w) && Enabled(w, a) && Quiet(a) && Extends(w, Apply(w, a))
    ensures Once(Apply(w, a))
  {
    QuietShape(w, a);
    OnceFrame(w, Apply(w, a), a.p, Apply(w, a).procs[a.p]);
  }

  lemma OnceOutside(w: World, a: Action)
    requires Once(w) && Ambient(a) && Enabled(w, a) && Extends(w, Apply(w, a))
    ensures Once(Apply(w, a))
  {
    OnceFrame(w, Apply(w, a), 0, Idle);
  }

  lemma OnceStep(w: World, a: Action)
    requires Inv(w) && Once(w) && Enabled(w, a)
    ensures Once(Apply(w, a))
  {
    StepKeeps(w, a);
    if a.Create? {
      OnceCreate(w, a.p, a.capped);
    } else if a.Execute? {
      HolderHasModel(w, a.p);
      OnceExecute(w, a.p);
    } else if a.CallModel? {
      HolderHasModel(w, a.p);
      OnceCallModel(w, a.p);
    } else if Quiet(a) {
      OnceQuiet(w, a);
    } else {
      OnceOutside(w, a);
    }
  }

  lemma {:induction false} OnceRun(w: World, run: seq<Action>)
    requires Inv(w) && Once(w) && Legal(w, run)
    ensures Once(After(w, run))
    decreases |run|
  {
    if run != [] {
      StepKeeps(w, run[0]);
      OnceStep(w, run[0]);
      OnceRun(Apply(w, run[0]), run[1..]);
    }
  }

  /**
   * A script's command runs at most once per occurrence in any run, and neither a script's
   * row nor a capped one is ever shown to the model, not even by the lane after a crash.
   */
  lemma ScriptRunsAtMostOnce(jobs: map<JobId, JobCfg>, now: nat, run: seq<Action>)
    requires Legal(Start(jobs, now), run)
    ensures var w := After(Start(jobs, now), run);
            && (forall id :: w.past.execs[id] <= 1)
            && (forall id | w.past.execs[id] > 0 :: id in w.past.origin && w.past.calls[id] == 0)
            && (forall a, b | w.past.execs[a] > 0 && w.past.execs[b] > 0 && w.past.origin[a] == w.past.origin[b] :: a == b)
            && (forall id | w.past.calls[id] > 0 :: HasModel(w, id, Provider))
  {
    StartInv(jobs, now);
    RunKeeps(Start(jobs, now), run);
    OnceRun(Start(jobs, now), run);
    OneIdentity(jobs, now, run);
    OnceMeans(After(Start(jobs, now), run));
  }

  lemma OnceMeans(w: World)
    requires Once(w) && w.past.origin.Keys == w.db.turns.Keys
    ensures forall id | w.past.execs[id] > 0 :: id in w.past.origin && w.past.calls[id] == 0
  {
  }
}

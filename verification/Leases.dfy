/**
 * Autonomous leases when several lanes race. The gate reads the lease index before the
 * grant writes it, so the ceiling is exact only for one lane; with more, each lane caught
 * between the two adds at most one.
 */
module Leases {

  import opened Stores
  import opened Protocol
  import opened Occurrence
  import opened Guarantees

  function Granters(w: World, id: TurnId): set<Pid> { set p | p in w.procs && w.procs[p] == Granting(id) }

  ghost predicate LeaseOk(w: World, lanes: set<Pid>, id: TurnId) {
    id in w.db.turns ==> w.db.turns[id].lease + |Granters(w, id)| <= MAX_AUTONOMOUS_LEASES - 1 + |lanes| + w.past.explicit[id]
  }

  ghost predicate LeaseInv(w: World, lanes: set<Pid>) {
    w.procs.Keys <= lanes && forall id :: LeaseOk(w, lanes, id)
  }

  predicate Within(a: Action, lanes: set<Pid>) { Ambient(a) || a.p in lanes }

  lemma CardSubset<T>(a: set<T>, b: set<T>)
    requires a <= b
    ensures |a| <= |b|
  {
    if a != b {
      var x :| x in b && x !in a;
      CardSubset(a, b - {x});
    }
  }

  /** Rows, their lease numbers and the hand-granted ones are as they were; nobody new stands at a grant. */
  ghost predicate GrantsNothing(w: World, v: World) {
    && (forall id | id in v.db.turns :: id in w.db.turns && v.db.turns[id].lease == w.db.turns[id].lease)
    && v.past.explicit == w.past.explicit
    && (forall p | p in v.procs && v.procs[p].Granting? :: p in w.procs && v.procs[p] == w.procs[p])
  }

  lemma TickGrantsNothing(w: World, a: Action)
    requires Enabled(w, a) && OfTick(a) && !a.Create?
    ensures GrantsNothing(w, Apply(w, a))
  {
  }

  lemma HolderGrantsNothing(w: World, a: Action)
    requires Enabled(w, a) && OfHolder(a)
    ensures GrantsNothing(w, Apply(w, a))
  {
  }

  lemma EndGrantsNothing(w: World, a: Action)
    requires Enabled(w, a) && OfEnd(a)
    ensures GrantsNothing(w, Apply(w, a))
  {
  }

  lemma OtherGrantsNothing(w: World, a: Action)
    requires Enabled(w, a) && !OfTick(a) && !OfHolder(a) && !OfEnd(a) && !a.Grant? && !a.Continue? && !a.LaneRead?
    ensures GrantsNothing(w, Apply(w, a))
  {
  }

  lemma GrantsNothingOk(w: World, v: World, lanes: set<Pid>, id: TurnId)
    requires LeaseOk(w, lanes, id) && GrantsNothing(w, v)
    ensures LeaseOk(v, lanes, id)
  {
    CardSubset(Granters(v, id), Granters(w, id));
  }

  lemma CreateOk(w: World, p: Pid, capped: bool, lanes: set<Pid>, id: TurnId)
    requires PcsOk(w) && LeaseOk(w, lanes, id) && At(w, p).Creating? && lanes != {}
    ensures LeaseOk(DoCreate(w, p, capped), lanes, id)
  {
    var v := DoCreate(w, p, capped);
    CardSubset(Granters(v, id), Granters(w, id));
    if id !in w.db.turns {
      forall q | q in w.procs ensures w.procs[q] != Granting(id) { AtOk(w, q); }
      assert Granters(w, id) == {};
    }
  }

  lemma ContinueOk(w: World, p: Pid, x: TurnId, lanes: set<Pid>, id: TurnId)
    requires LeaseOk(w, lanes, id) && x in w.db.turns
    ensures LeaseOk(DoContinue(w, p, x), lanes, id)
  {
    CardSubset(Granters(DoContinue(w, p, x), id), Granters(w, id));
  }

  lemma OthersOk(w: World, a: Action, lanes: set<Pid>, id: TurnId)
    requires Inv(w) && LeaseOk(w, lanes, id) && Enabled(w, a) && !a.LaneRead? && !a.Grant? && lanes != {}
    ensures LeaseOk(Apply(w, a), lanes, id)
  {
    if a.Create? {
      CreateOk(w, a.p, a.capped, lanes, id);
    } else if a.Continue? {
      ContinueOk(w, a.p, a.id, lanes, id);
    } else {
      if OfTick(a) {
        TickGrantsNothing(w, a);
      } else if OfHolder(a) {
        HolderGrantsNothing(w, a);
      } else if OfEnd(a) {
        EndGrantsNothing(w, a);
      } else {
        OtherGrantsNothing(w, a);
      }
      GrantsNothingOk(w, Apply(w, a), lanes, id);
    }
  }

  lemma ReadOk(w: World, p: Pid, lanes: set<Pid>, x: TurnId)
    requires LeaseInv(w, lanes) && At(w, p).Picked?
    ensures LeaseOk(DoLaneRead(w, p), lanes, x)
  {
    var v, id := DoLaneRead(w, p), At(w, p).id;
    assert LeaseOk(w, lanes, x);
    if v.procs[p] == Granting(x) {
      CardSubset(Granters(v, id), lanes);
    } else {
      CardSubset(Granters(v, x), Granters(w, x));
    }
  }

  lemma GrantOk(w: World, p: Pid, lanes: set<Pid>, x: TurnId)
    requires LeaseOk(w, lanes, x) && At(w, p).Granting?
    ensures LeaseOk(DoGrant(w, p), lanes, x)
  {
    var v, id := DoGrant(w, p), At(w, p).id;
    if x == id {
      assert Granters(v, x) == Granters(w, x) - {p};
    } else {
      assert Granters(v, x) == Granters(w, x);
    }
  }

  lemma WithinStays(w: World, a: Action, lanes: set<Pid>)
    requires Enabled(w, a) && Within(a, lanes) && w.procs.Keys <= lanes
    ensures Apply(w, a).procs.Keys <= lanes
  {
  }

  lemma LeaseStepAt(w: World, a: Action, lanes: set<Pid>, x: TurnId)
    requires Inv(w) && LeaseInv(w, lanes) && Enabled(w, a) && Within(a, lanes) && lanes != {}
    ensures LeaseOk(Apply(w, a), lanes, x)
  {
    assert LeaseOk(w, lanes, x);
    if a.LaneRead? {
      ReadOk(w, a.p, lanes, x);
    } else if a.Grant? {
      GrantOk(w, a.p, lanes, x);
    } else {
      OthersOk(w, a, lanes, x);
    }
  }

  lemma LeaseStep(w: World, a: Action, lanes: set<Pid>)
    requires Inv(w) && LeaseInv(w, lanes) && Enabled(w, a) && Within(a, lanes) && lanes != {}
    ensures LeaseInv(Apply(w, a), lanes)
  {
    WithinStays(w, a, lanes);
    forall x: TurnId ensures LeaseOk(Apply(w, a), lanes, x) { LeaseStepAt(w, a, lanes, x); }
  }

  lemma {:induction false} LeaseRun(w: World, run: seq<Action>, lanes: set<Pid>)
    requires Inv(w) && LeaseInv(w, lanes) && Legal(w, run) && lanes != {}
    requires forall a | a in run :: Within(a, lanes)
    ensures LeaseInv(After(w, run), lanes)
    decreases |run|
  {
    if run != [] {
      StepKeeps(w, run[0]);
      LeaseStep(w, run[0], lanes);
      LeaseRun(Apply(w, run[0]), run[1..], lanes);
    }
  }

  /**
   * Whatever races and crashes, a turn's autonomous leases stop at the ceiling plus one per
   * extra process; `muffin resume` adds one each time the owner asks.
   */
  lemma LeasesTerminate(jobs: map<JobId, JobCfg>, now: nat, run: seq<Action>, lanes: set<Pid>, id: TurnId)
    requires Legal(Start(jobs, now), run) && lanes != {} && forall a | a in run :: Within(a, lanes)
    requires id in After(Start(jobs, now), run).db.turns
    ensures var w := After(Start(jobs, now), run);
            w.db.turns[id].lease <= MAX_AUTONOMOUS_LEASES + |lanes| - 1 + w.past.explicit[id]
  {
    StartInv(jobs, now);
    LeaseRun(Start(jobs, now), run, lanes);
    assert LeaseOk(After(Start(jobs, now), run), lanes, id);
  }
}

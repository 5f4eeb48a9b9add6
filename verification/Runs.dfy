/** Putting runs of the protocol together. */
module Runs {

  import opened Common
  import opened Stores
  import opened Protocol

  lemma {:induction false} Append(w: World, run: seq<Action>, a: Action)
    requires Legal(w, run) && Enabled(After(w, run), a)
    ensures Legal(w, run + [a]) && After(w, run + [a]) == Apply(After(w, run), a)
    decreases |run|
  {
    if run == [] {
      assert [a][1..] == [];
    } else {
      assert (run + [a])[1..] == run[1..] + [a];
      Append(Apply(w, run[0]), run[1..], a);
    }
  }

  lemma {:induction false} Concat(w: World, a: seq<Action>, b: seq<Action>)
    requires Legal(w, a) && Legal(After(w, a), b)
    ensures Legal(w, a + b) && After(w, a + b) == After(After(w, a), b)
    decreases |a|
  {
    if a == [] {
      assert a + b == b;
    } else {
      assert (a + b)[1..] == a[1..] + b;
      Concat(Apply(w, a[0]), a[1..], b);
    }
  }

  lemma Cons(w: World, a: Action, run: seq<Action>)
    requires Enabled(w, a) && Legal(Apply(w, a), run)
    ensures Legal(w, [a] + run) && After(w, [a] + run) == After(Apply(w, a), run)
  {
    assert ([a] + run)[1..] == run;
  }

  lemma One(w: World, a: Action)
    requires Enabled(w, a)
    ensures Legal(w, [a]) && After(w, [a]) == Apply(w, a)
  {
    Cons(w, a, []);
    assert [a] + [] == [a];
  }

  lemma Two(w: World, a: Action, b: Action)
    requires Enabled(w, a) && Enabled(Apply(w, a), b)
    ensures Legal(w, [a, b]) && After(w, [a, b]) == Apply(Apply(w, a), b)
  {
    One(Apply(w, a), b);
    Cons(w, a, [b]);
    assert [a] + [b] == [a, b];
  }

  lemma Three(w: World, a: Action, b: Action, c: Action)
    requires Enabled(w, a) && Enabled(Apply(w, a), b) && Enabled(Apply(Apply(w, a), b), c)
    ensures Legal(w, [a, b, c]) && After(w, [a, b, c]) == Apply(Apply(Apply(w, a), b), c)
  {
    Two(Apply(w, a), b, c);
    Cons(w, a, [b, c]);
    assert [a] + [b, c] == [a, b, c];
  }

  /** `run` led from `w` to `v`. */
  ghost predicate Leads(w: World, run: seq<Action>, v: World) { Legal(w, run) && After(w, run) == v }

  lemma Then(w: World, run: seq<Action>, v: World, more: seq<Action>, u: World) returns (all: seq<Action>)
    requires Leads(w, run, v) && Leads(v, more, u)
    ensures all == run + more && Leads(w, all, u)
  {
    Concat(w, run, more);
    all := run + more;
  }

  // ---- The lane takes a row ---------------------------------------------------------------

  /** The lane picks a row and reads it at once. */
  lemma PicksUp(w: World, p: Pid, id: TurnId) returns (run: seq<Action>, v: World)
    requires At(w, p).Idle? && id in w.db.turns && Due(w.db.turns[id], true) && !IsOwnerActivityAutonomous(w.db.turns[id])
    ensures run == [LanePick(p, id, true), LaneRead(p)] && Leads(w, run, v)
    ensures v.db == w.db && v.jobs == w.jobs && v.past == w.past && v.now == w.now && v.procs.Keys == w.procs.Keys + {p}
    ensures At(v, p) == (if w.db.turns[id].status == Continuable then Granting(id) else Resuming(id))
    ensures v.procs == w.procs[p := At(v, p)] && forall q | q != p :: At(v, q) == At(w, q)
  {
    run := [LanePick(p, id, true), LaneRead(p)];
    Two(w, LanePick(p, id, true), LaneRead(p));
    v := After(w, run);
  }

  lemma ResumesIt(w: World, p: Pid, id: TurnId)
    requires At(w, p) == Resuming(id) && id in w.db.turns && Claimable(w.db.turns[id])
    ensures Legal(w, [Resume(p)]) && var v := After(w, [Resume(p)]);
            && v.jobs == w.jobs && v.past == w.past && v.db.fires == w.db.fires && v.db.next == w.db.next && v.now == w.now
            && (forall q | q != p :: At(v, q) == At(w, q)) && v.procs.Keys == w.procs.Keys + {p} && id in v.db.turns
            && v.db.turns[id] == w.db.turns[id].(status := Running, token := Some(w.db.tokens))
            && At(v, p) == Holding(Lane(false), id, w.db.tokens, w.db.turns[id].model, false)
  {
    One(w, Resume(p));
  }
}

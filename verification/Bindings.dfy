/**
 * `WakeOwnerBindings` (agent/event-intelligence.ts): who asked for a wake, remembered for
 * the most recent turns only. The map keeps insertion order, oldest first.
 */
module Bindings {

  import opened Common

  type Id = string
  datatype Owner = Owner(principal: string, tenant: string)
  datatype Entry = Entry(id: Id, owner: Owner)

  const MAX: nat := 1024

  function Ids(s: seq<Entry>): set<Id> {
    if s == [] then {} else Ids(s[..|s| - 1]) + {s[|s| - 1].id}
  }

  predicate Distinct(s: seq<Entry>) {
    s == [] || (s[|s| - 1].id !in Ids(s[..|s| - 1]) && Distinct(s[..|s| - 1]))
  }

  lemma Snoc(s: seq<Entry>, e: Entry)
    ensures Ids(s + [e]) == Ids(s) + {e.id}
    ensures Distinct(s + [e]) <==> e.id !in Ids(s) && Distinct(s)
    ensures (s + [e])[..|s|] == s
  {
    assert (s + [e])[..|s|] == s;
  }

  /** `Map.delete`. */
  function Without(s: seq<Entry>, id: Id): (r: seq<Entry>)
    ensures Ids(r) == Ids(s) - {id}
    ensures Distinct(s) ==> Distinct(r) && |r| == |s| - if id in Ids(s) then 1 else 0
  {
    if s == [] then []
    else
      var front, last := s[..|s| - 1], s[|s| - 1];
      var r := Without(front, id);
      Snoc(r, last);
      if last.id == id then r else r + [last]
  }

  function Find(s: seq<Entry>, id: Id): Option<Owner> {
    if s == [] then None
    else if s[|s| - 1].id == id then Some(s[|s| - 1].owner)
    else Find(s[..|s| - 1], id)
  }

  /** The entries kept newer than `id`'s. */
  function Newer(s: seq<Entry>, id: Id): seq<Entry> {
    if s == [] || s[|s| - 1].id == id then [] else Newer(s[..|s| - 1], id) + [s[|s| - 1]]
  }

  function Last(s: seq<Entry>, n: nat): seq<Entry> { if |s| <= n then s else s[|s| - n..] }

  /** One `remember`: delete, set, and evict from the oldest end. */
  function Remembered(s: seq<Entry>, e: Entry, cap: nat): seq<Entry> { Last(Without(s, e.id) + [e], cap) }

  class WakeOwnerBindings {
    var owners: seq<Entry>

    ghost predicate Valid()
      reads this
    {
      |owners| <= MAX && Distinct(owners)
    }

    constructor ()
      ensures Valid() && owners == []
    {
      owners := [];
    }

    method Evict()
      modifies this
      ensures owners == Last(old(owners), MAX)
    {
      ghost var whole := owners;
      while |owners| > MAX
        invariant Min(|whole|, MAX) <= |owners| <= |whole| && owners == whole[|whole| - |owners|..]
      {
        owners := owners[1..];
      }
    }

    method Remember(id: Id, owner: Option<Owner>)
      requires Valid()
      modifies this
      ensures Valid()
      ensures owners == if owner.None? then old(owners) else Remembered(old(owners), Entry(id, owner.value), MAX)
    {
      if owner.None? { return; }
      owners := Without(owners, id);
      Snoc(owners, Entry(id, owner.value));
      owners := owners + [Entry(id, owner.value)];
      SuffixDistinct(owners, Max(0, |owners| - MAX));
      Evict();
    }

    method Get(id: Id) returns (owner: Option<Owner>)
      ensures owner == Find(owners, id)
    {
      var i := |owners|;
      assert owners[..i] == owners;
      while i > 0
        invariant 0 <= i <= |owners| && Find(owners[..i], id) == Find(owners, id)
      {
        assert owners[..i][..i - 1] == owners[..i - 1];
        i := i - 1;
        if owners[i].id == id { return Some(owners[i].owner); }
      }
      owner := None;
    }

    method Clear()
      modifies this
      ensures Valid() && owners == []
    {
      owners := [];
    }
  }

  // ---- Whole runs ------------------------------------------------------------------------

  datatype Call = Call(id: Id, owner: Option<Owner>)

  function After(calls: seq<Call>, cap: nat): seq<Entry> {
    if calls == [] then []
    else
      var c, s := calls[|calls| - 1], After(calls[..|calls| - 1], cap);
      if c.owner.None? then s else Remembered(s, Entry(c.id, c.owner.value), cap)
  }

  /** Nothing is ever evicted: every id in order of its last real call. */
  function All(calls: seq<Call>): (s: seq<Entry>)
    ensures Distinct(s)
  {
    if calls == [] then []
    else
      var c, s := calls[|calls| - 1], All(calls[..|calls| - 1]);
      if c.owner.None? then s
      else
        Snoc(Without(s, c.id), Entry(c.id, c.owner.value));
        Without(s, c.id) + [Entry(c.id, c.owner.value)]
  }

  /** The owner of the latest call for `id` that named one. */
  function Latest(calls: seq<Call>, id: Id): Option<Owner> {
    if calls == [] then None
    else
      var c := calls[|calls| - 1];
      if c.id == id && c.owner.Some? then c.owner else Latest(calls[..|calls| - 1], id)
  }

  /** Other ids named since that call. */
  function Since(calls: seq<Call>, id: Id): set<Id> {
    if calls == [] then {}
    else
      var c := calls[|calls| - 1];
      if c.owner.None? then Since(calls[..|calls| - 1], id)
      else if c.id == id then {}
      else Since(calls[..|calls| - 1], id) + {c.id}
  }

  lemma {:induction false} SuffixDistinct(s: seq<Entry>, n: nat)
    requires Distinct(s) && n <= |s|
    ensures Distinct(s[n..]) && Ids(s[n..]) <= Ids(s)
    decreases |s|
  {
    if n < |s| {
      var front, last := s[..|s| - 1], s[|s| - 1];
      SuffixDistinct(front, n);
      assert s[n..] == front[n..] + [last];
      Snoc(front[n..], last);
    }
  }

  lemma {:induction false} WithoutOthers(s: seq<Entry>, id: Id, u: Id)
    requires id != u
    ensures Find(Without(s, u), id) == Find(s, id)
    ensures Newer(Without(s, u), id) == Without(Newer(s, id), u)
    decreases |s|
  {
    if s != [] {
      var front, last := s[..|s| - 1], s[|s| - 1];
      WithoutOthers(front, id, u);
      if last.id != u {
        assert Without(s, u) == Without(front, u) + [last];
        assert (Without(front, u) + [last])[..|Without(front, u)|] == Without(front, u);
      }
      if last.id != id {
        var newer := Newer(front, id);
        assert (newer + [last])[..|newer|] == newer;
      }
    }
  }

  lemma {:induction false} AllKnows(calls: seq<Call>, id: Id)
    ensures Find(All(calls), id) == Latest(calls, id)
    ensures Latest(calls, id).Some? ==> Ids(Newer(All(calls), id)) == Since(calls, id)
    decreases |calls|
  {
    if calls != [] {
      var front, c := calls[..|calls| - 1], calls[|calls| - 1];
      AllKnows(front, id);
      if c.owner.Some? {
        var w, e := Without(All(front), c.id), Entry(c.id, c.owner.value);
        Snoc(w, e);
        if c.id != id {
          WithoutOthers(All(front), id, c.id);
          Snoc(Newer(w, id), e);
        }
      }
    }
  }

  /** What is kept is the newest part of everything. */
  lemma {:induction false} KeptIsNewest(calls: seq<Call>, cap: nat)
    requires cap > 0
    ensures After(calls, cap) == Last(All(calls), cap)
    decreases |calls|
  {
    if calls != [] {
      var front, c := calls[..|calls| - 1], calls[|calls| - 1];
      KeptIsNewest(front, cap);
      if c.owner.Some? {
        LastWithout(All(front), Entry(c.id, c.owner.value), cap);
      }
    }
  }

  lemma {:induction false} SplitWithout(a: seq<Entry>, b: seq<Entry>, id: Id)
    ensures Without(a + b, id) == Without(a, id) + Without(b, id)
    decreases |b|
  {
    if b == [] {
      assert a + b == a;
    } else {
      var front, last := b[..|b| - 1], b[|b| - 1];
      SplitWithout(a, front, id);
      SnocSplit(a, front, last);
      assert b == front + [last];
      WithoutSnocEntry(a + front, last, id);
      WithoutSnoc(Without(a, id), Without(front, id), last);
    }
  }

  lemma SnocSplit(a: seq<Entry>, b: seq<Entry>, e: Entry)
    ensures a + (b + [e]) == a + b + [e]
  {
  }

  lemma WithoutSnocEntry(s: seq<Entry>, e: Entry, id: Id)
    ensures Without(s + [e], id) == if e.id == id then Without(s, id) else Without(s, id) + [e]
  {
    assert (s + [e])[..|s|] == s;
  }

  lemma {:induction false} SplitDistinct(a: seq<Entry>, b: seq<Entry>)
    requires Distinct(a + b)
    ensures Distinct(a) && Distinct(b) && Ids(a) !! Ids(b) && Ids(a + b) == Ids(a) + Ids(b)
    decreases |b|
  {
    if b == [] {
      assert a + b == a;
    } else {
      var front, last := b[..|b| - 1], b[|b| - 1];
      assert (a + b)[..|a + b| - 1] == a + front && (a + b)[|a + b| - 1] == last;
      SplitDistinct(a, front);
    }
  }

  lemma LastSuffix(a: seq<Entry>, b: seq<Entry>, n: nat)
    requires |b| >= n || a == []
    ensures Last(a + b, n) == Last(b, n)
  {
    if a == [] {
      assert a + b == b;
    } else if |b| > n {
      assert (a + b)[|a + b| - n..] == b[|b| - n..];
    } else {
      assert (a + b)[|a + b| - n..] == b;
    }
  }

  lemma LastSplits(s: seq<Entry>, n: nat)
    ensures var kept := Last(s, n); |kept| <= |s| && s == s[..|s| - |kept|] + kept && (|s| <= n || |kept| == n)
    ensures |s| <= n ==> s[..|s| - |Last(s, n)|] == []
  {
  }

  lemma WithoutSnoc(a: seq<Entry>, b: seq<Entry>, e: Entry)
    ensures a + b + [e] == a + (b + [e])
  {
  }

  lemma LastWithout(all: seq<Entry>, e: Entry, cap: nat)
    requires Distinct(all) && cap > 0
    ensures Remembered(Last(all, cap), e, cap) == Last(Without(all, e.id) + [e], cap)
  {
    var kept := Last(all, cap);
    var aged := all[..|all| - |kept|];
    LastSplits(all, cap);
    SplitWithout(aged, kept, e.id);
    SplitDistinct(aged, kept);
    var a, k := Without(aged, e.id), Without(kept, e.id);
    WithoutSnoc(a, k, e);
    LastSuffix(a, k + [e], cap);
  }

  lemma {:induction false} FoundInLast(s: seq<Entry>, id: Id, cap: nat)
    requires cap > 0
    ensures Find(Last(s, cap), id) == if Find(s, id).Some? && |Newer(s, id)| < cap then Find(s, id) else None
    decreases |s|, cap
  {
    if s != [] {
      var front, last := s[..|s| - 1], s[|s| - 1];
      if last.id != id {
        if cap == 1 {
          assert Last(s, cap)[..|Last(s, cap)| - 1] == [];
        } else {
          FoundInLast(front, id, cap - 1);
          assert Last(s, cap)[..|Last(s, cap)| - 1] == Last(front, cap - 1);
        }
      }
    }
  }

  lemma {:induction false} DistinctCount(s: seq<Entry>)
    requires Distinct(s)
    ensures |Ids(s)| == |s|
    decreases |s|
  {
    if s != [] { DistinctCount(s[..|s| - 1]); }
  }

  lemma {:induction false} NewerDistinct(s: seq<Entry>, id: Id)
    requires Distinct(s)
    ensures Distinct(Newer(s, id)) && Ids(Newer(s, id)) <= Ids(s)
    decreases |s|
  {
    if s != [] && s[|s| - 1].id != id {
      NewerDistinct(s[..|s| - 1], id);
      Snoc(Newer(s[..|s| - 1], id), s[|s| - 1]);
    }
  }

  /**
   * Over any calls: a turn's owner is the one of its latest call that named one, found
   * exactly while fewer than 1024 other turns have been named since.
   */
  lemma FoundWhileRecent(calls: seq<Call>, id: Id)
    ensures |After(calls, MAX)| <= 1024
    ensures Find(After(calls, MAX), id) == if |Since(calls, id)| < 1024 then Latest(calls, id) else None
  {
    var all := All(calls);
    KeptIsNewest(calls, MAX);
    AllKnows(calls, id);
    FoundInLast(all, id, MAX);
    NewerDistinct(all, id);
    DistinctCount(Newer(all, id));
  }
}

/**
 * The model-visible tool projection (agent/capability-exposure.ts): a small core, one
 * discovery door, and a replaceable selection that changes only at round boundaries.
 * Lower-casing and tokenising are given functions.
 */
module Exposure {

  import opened Common

  datatype Tool = Tool(name: string, capability: string, description: string)

  /** `normalized`, `tokens`, and the split of a normalised name on its separators. */
  datatype Lexer = Lexer(normalized: string -> string, tokens: string -> seq<string>, parts: string -> seq<string>)

  predicate OccursAt(s: string, t: string, i: nat) { i + |t| <= |s| && s[i..i + |t|] == t }

  predicate Includes(s: string, t: string) { exists i: nat | 0 <= i <= |s| :: OccursAt(s, t, i) }

  /** `includes`: somewhere, with anything before and after. */
  lemma IncludesIs(s: string, t: string)
    ensures Includes(s, t) <==> exists before, after :: s == before + t + after
  {
    if i: nat :| i <= |s| && OccursAt(s, t, i) {
      assert s == s[..i] + t + s[i + |t|..];
    }
    if before, after :| s == before + t + after {
      assert OccursAt(s, t, |before|);
    }
  }

  // ---- Scoring ---------------------------------------------------------------------------

  function Graded(hit: bool, partly: bool, whole: nat, part: nat): nat {
    if hit then whole else if partly then part else 0
  }

  function PhraseScore(name: string, capability: string, description: string, q: string): nat {
    Graded(name == q, Includes(name, q), 200, 100) + Graded(capability == q, Includes(capability, q), 160, 80)
    + Graded(Includes(description, q), false, 30, 0)
  }

  function TokenScore(lex: Lexer, name: string, capability: string, description: string, token: string): nat {
    Graded(token in lex.parts(name), Includes(name, token), 30, 15)
    + Graded(token in lex.parts(capability), Includes(capability, token), 20, 10)
    + Graded(Includes(description, token), false, 3, 0)
  }

  function TokensScore(lex: Lexer, name: string, capability: string, description: string, tokens: seq<string>): nat {
    if tokens == [] then 0
    else TokensScore(lex, name, capability, description, tokens[..|tokens| - 1])
         + TokenScore(lex, name, capability, description, tokens[|tokens| - 1])
  }

  function Score(lex: Lexer, tool: Tool, query: string): nat {
    var q := lex.normalized(query);
    var name, capability, description := lex.normalized(tool.name), lex.normalized(tool.capability), lex.normalized(tool.description);
    if q == "" then 0
    else PhraseScore(name, capability, description, q) + TokensScore(lex, name, capability, description, lex.tokens(q))
  }

  method ScorePhrase(name: string, capability: string, description: string, q: string) returns (value: nat)
    ensures value == PhraseScore(name, capability, description, q)
  {
    value := 0;
    if name == q { value := value + 200; } else if Includes(name, q) { value := value + 100; }
    if capability == q { value := value + 160; } else if Includes(capability, q) { value := value + 80; }
    if Includes(description, q) { value := value + 30; }
  }

  method ScoreToken(lex: Lexer, name: string, capability: string, description: string, token: string) returns (value: nat)
    ensures value == TokenScore(lex, name, capability, description, token)
  {
    value := 0;
    if token in lex.parts(name) { value := value + 30; } else if Includes(name, token) { value := value + 15; }
    if token in lex.parts(capability) { value := value + 20; } else if Includes(capability, token) { value := value + 10; }
    if Includes(description, token) { value := value + 3; }
  }

  method ComputeScore(lex: Lexer, tool: Tool, query: string) returns (value: nat)
    ensures value == Score(lex, tool, query)
  {
    var q := lex.normalized(query);
    if q == "" { return 0; }
    var name, capability, description := lex.normalized(tool.name), lex.normalized(tool.capability), lex.normalized(tool.description);
    value := ScorePhrase(name, capability, description, q);
    ghost var phrase := value;
    var tokens := lex.tokens(q);
    var i := 0;
    assert tokens[..0] == [];
    while i < |tokens|
      invariant 0 <= i <= |tokens| && value == phrase + TokensScore(lex, name, capability, description, tokens[..i])
    {
      assert tokens[..i + 1][..i] == tokens[..i];
      var more := ScoreToken(lex, name, capability, description, tokens[i]);
      value := value + more;
      i := i + 1;
    }
    assert tokens[..i] == tokens;
  }

  /** The whole phrase: 200 for the name, 160 for the capability; half of it inside them; 30 in the description. */
  lemma PhraseWeights(name: string, capability: string, description: string, q: string)
    ensures var byName := if name == q then 200 else if Includes(name, q) then 100 else 0;
            var byCapability := if capability == q then 160 else if Includes(capability, q) then 80 else 0;
            PhraseScore(name, capability, description, q) == byName + byCapability + (if Includes(description, q) then 30 else 0)
  {
  }

  /** Each token: 30 and 20 as a part of the name or the capability, half of it inside them; 3 in the description. */
  lemma TokenWeights(lex: Lexer, name: string, capability: string, description: string, tokens: seq<string>, token: string)
    ensures var byName := if token in lex.parts(name) then 30 else if Includes(name, token) then 15 else 0;
            var byCapability := if token in lex.parts(capability) then 20 else if Includes(capability, token) then 10 else 0;
            TokensScore(lex, name, capability, description, tokens + [token])
            == TokensScore(lex, name, capability, description, tokens) + byName + byCapability + (if Includes(description, token) then 3 else 0)
    ensures TokensScore(lex, name, capability, description, []) == 0
  {
    assert (tokens + [token])[..|tokens|] == tokens;
  }

  /** What is searched and how it is scored: everything normalised, the phrase and then its tokens. */
  lemma ScoreIsPhraseAndTokens(lex: Lexer, tool: Tool, query: string)
    ensures var q := lex.normalized(query);
            var name, capability, description := lex.normalized(tool.name), lex.normalized(tool.capability), lex.normalized(tool.description);
            && (q == "" ==> Score(lex, tool, query) == 0)
            && (q != "" ==> Score(lex, tool, query)
                            == PhraseScore(name, capability, description, q) + TokensScore(lex, name, capability, description, lex.tokens(q)))
  {
  }

  /** With the same tokens hit, a whole name outranks a whole capability, that a part of a name, that a part of a capability, and that a description. */
  lemma WholeBeatsPart(a: string, b: string, c: string, d: string, e: string, q: string)
    requires a == q && b == q && Includes(c, q) && c != q && Includes(d, q) && d != q && Includes(e, q)
    requires !Includes("", q)
    ensures PhraseScore(a, "", "", q) > PhraseScore("", b, "", q) > PhraseScore(c, "", "", q)
            > PhraseScore("", d, "", q) > PhraseScore("", "", e, q) > PhraseScore("", "", "", q) == 0
  {
    SelfIncludes(q);
    SelfIncludes("");
  }

  /** Nothing but the query words counts: a tool matches exactly when some part of the query occurs in it. */
  lemma MatchesWhenSomethingOccurs(lex: Lexer, tool: Tool, query: string)
    requires lex.normalized(query) != ""
    requires forall s, t | t in lex.parts(s) :: Includes(s, t)
    ensures Score(lex, tool, query) > 0 <==>
              exists t | t in [lex.normalized(query)] + lex.tokens(lex.normalized(query)) ::
                Includes(lex.normalized(tool.name), t) || Includes(lex.normalized(tool.capability), t) || Includes(lex.normalized(tool.description), t)
  {
    var q := lex.normalized(query);
    var name, capability, description := lex.normalized(tool.name), lex.normalized(tool.capability), lex.normalized(tool.description);
    var all := [q] + lex.tokens(q);
    SelfIncludes(q);
    TokensMatch(lex, name, capability, description, lex.tokens(q));
    assert q in all;
    assert forall t | t in lex.tokens(q) :: t in all;
  }

  lemma SelfIncludes(s: string)
    ensures Includes(s, s)
  {
    assert OccursAt(s, s, 0);
  }

  lemma {:induction false} TokensMatch(lex: Lexer, name: string, capability: string, description: string, tokens: seq<string>)
    requires forall s, t | t in lex.parts(s) :: Includes(s, t)
    ensures TokensScore(lex, name, capability, description, tokens) > 0 <==>
              exists t | t in tokens :: Includes(name, t) || Includes(capability, t) || Includes(description, t)
    decreases |tokens|
  {
    if tokens != [] {
      var front, last := tokens[..|tokens| - 1], tokens[|tokens| - 1];
      TokensMatch(lex, name, capability, description, front);
      assert tokens == front + [last];
    }
  }

  // ---- Ranking ----------------------------------------------------------------------------

  /** A searchable tool by its index, with its score. */
  datatype Ranked = Ranked(index: nat, score: nat)

  predicate Before(a: Ranked, b: Ranked) { a.score > b.score || (a.score == b.score && a.index < b.index) }

  predicate Sorted(rows: seq<Ranked>) { forall i, j | 0 <= i < j < |rows| :: Before(rows[i], rows[j]) }

  function Inserted(rows: seq<Ranked>, r: Ranked): seq<Ranked> {
    if rows == [] || Before(r, rows[0]) then [r] + rows else [rows[0]] + Inserted(rows[1..], r)
  }

  /** The matching tools among the first `n`, best first, ties in catalogue order. */
  function Ranking(lex: Lexer, tools: seq<Tool>, query: string, n: nat): seq<Ranked>
    requires n <= |tools|
  {
    if n == 0 then []
    else
      var rest, score := Ranking(lex, tools, query, n - 1), Score(lex, tools[n - 1], query);
      if score > 0 then Inserted(rest, Ranked(n - 1, score)) else rest
  }

  lemma {:induction false} InsertedSorted(rows: seq<Ranked>, r: Ranked)
    requires Sorted(rows) && forall i | 0 <= i < |rows| :: rows[i].index != r.index
    ensures Sorted(Inserted(rows, r)) && |Inserted(rows, r)| == |rows| + 1
    ensures forall x :: x in Inserted(rows, r) <==> x in rows || x == r
    decreases |rows|
  {
    if rows != [] && !Before(r, rows[0]) {
      InsertedSorted(rows[1..], r);
      var tail := Inserted(rows[1..], r);
      forall j | 0 <= j < |tail| ensures Before(rows[0], tail[j]) {
        assert tail[j] in tail;
        if tail[j] != r {
          var k :| 0 <= k < |rows[1..]| && rows[1..][k] == tail[j];
          assert Before(rows[0], rows[k + 1]);
        }
      }
      assert rows == [rows[0]] + rows[1..];
    }
  }

  /** Exactly the tools that match, each once, in the total order of score and catalogue place. */
  lemma {:induction false} RankingIsExact(lex: Lexer, tools: seq<Tool>, query: string, n: nat)
    requires n <= |tools|
    ensures Sorted(Ranking(lex, tools, query, n))
    ensures var rows := Ranking(lex, tools, query, n);
            forall i, j | 0 <= i < j < |rows| ::
              rows[i].score > rows[j].score || (rows[i].score == rows[j].score && rows[i].index < rows[j].index)
    ensures forall x :: x in Ranking(lex, tools, query, n)
                   <==> x.index < n && x.score == Score(lex, tools[x.index], query) && x.score > 0
    decreases n
  {
    if n > 0 {
      RankingIsExact(lex, tools, query, n - 1);
      var rest, r := Ranking(lex, tools, query, n - 1), Ranked(n - 1, Score(lex, tools[n - 1], query));
      forall i | 0 <= i < |rest| ensures rest[i].index != n - 1 {
        assert rest[i] in rest;
      }
      if r.score > 0 { InsertedSorted(rest, r); }
    }
  }

  // ---- The core ---------------------------------------------------------------------------

  function Names(tools: seq<Tool>): set<string> { set t | t in tools :: t.name }

  predicate DistinctNames(tools: seq<Tool>) { forall i, j | 0 <= i < j < |tools| :: tools[i].name != tools[j].name }

  method Find(catalog: seq<Tool>, name: string) returns (hit: Option<Tool>)
    ensures hit.Some? ==> hit.value in catalog && hit.value.name == name
    ensures hit.None? ==> name !in Names(catalog)
  {
    var i := 0;
    while i < |catalog|
      invariant 0 <= i <= |catalog|
      invariant forall k | 0 <= k < i :: catalog[k].name != name
    {
      if catalog[i].name == name { return Some(catalog[i]); }
      i := i + 1;
    }
    hit := None;
  }

  /** Where a name first stands. */
  function Place(names: seq<string>, name: string): (k: nat)
    requires name in names
    ensures k < |names| && names[k] == name && name !in names[..k]
  {
    if names[0] == name then 0
    else
      var k := Place(names[1..], name);
      assert names[..k + 1] == [names[0]] + names[1..][..k];
      k + 1
  }

  function NamesOf(tools: seq<Tool>): (names: seq<string>)
    ensures |names| == |tools| && forall i | 0 <= i < |names| :: names[i] == tools[i].name
  {
    seq(|tools|, i requires 0 <= i < |tools| => tools[i].name)
  }

  /** Preferred tools first, in preference order; then the rest in catalogue order. */
  predicate Earlier(a: Tool, b: Tool, catalog: seq<Tool>, preferred: seq<string>)
    requires a in catalog && b in catalog
  {
    NamedIn(catalog, a);
    NamedIn(catalog, b);
    if a.name in preferred && b.name in preferred then Place(preferred, a.name) < Place(preferred, b.name)
    else if b.name in preferred then false
    else a.name in preferred || Place(NamesOf(catalog), a.name) < Place(NamesOf(catalog), b.name)
  }

  lemma NamedIn(catalog: seq<Tool>, t: Tool)
    requires t in catalog
    ensures t.name in NamesOf(catalog)
  {
    var i :| 0 <= i < |catalog| && catalog[i] == t;
    assert NamesOf(catalog)[i] == t.name;
  }

  predicate InOrder(picked: seq<Tool>, catalog: seq<Tool>, preferred: seq<string>)
    requires forall t | t in picked :: t in catalog
  {
    forall i, j | 0 <= i < j < |picked| :: Earlier(picked[i], picked[j], catalog, preferred)
  }

  /** Some slots are unfilled only if the catalogue has no other name to offer. */
  predicate CoreOf(picked: seq<Tool>, catalog: seq<Tool>, target: nat, preferred: seq<string>) {
    && |picked| <= target && DistinctNames(picked)
    && (forall t | t in picked :: t in catalog)
    && (|picked| == target || Names(catalog) <= Names(picked))
    // Preferred names win: one that exists is left out only when preferred ones took every slot.
    && (forall p | p in preferred && p in Names(catalog) ::
          p in Names(picked) || (|picked| == target && forall t | t in picked :: t.name in preferred))
    && InOrder(picked, catalog, preferred)
  }

  lemma OrderedSnoc(picked: seq<Tool>, t: Tool, catalog: seq<Tool>, preferred: seq<string>)
    requires (forall x | x in picked :: x in catalog) && t in catalog && InOrder(picked, catalog, preferred)
    requires forall x | x in picked :: Earlier(x, t, catalog, preferred)
    ensures forall x | x in picked + [t] :: x in catalog
    ensures InOrder(picked + [t], catalog, preferred)
  {
    var all := picked + [t];
    forall i, j | 0 <= i < j < |all| ensures Earlier(all[i], all[j], catalog, preferred) {
      if j == |picked| { assert all[i] == picked[i] && picked[i] in picked; }
    }
  }

  lemma {:induction false} PlaceBound(names: seq<string>, k: nat)
    requires k < |names|
    ensures names[k] in names && Place(names, names[k]) <= k
    decreases k
  {
    if names[0] != names[k] { PlaceBound(names[1..], k - 1); }
  }

  lemma {:induction false} FirstPlace(names: seq<string>, i: nat)
    requires i < |names| && names[i] !in names[..i]
    ensures Place(names, names[i]) == i
    decreases i
  {
    if i > 0 {
      assert names[..i][0] == names[0];
      assert names[1..][..i - 1] == names[..i][1..];
      FirstPlace(names[1..], i - 1);
    }
  }

  /** Everything taken so far came from the names before the one looked at. */
  predicate TakenBefore(picked: seq<Tool>, preferred: seq<string>, i: nat)
    requires i <= |preferred|
  {
    forall t | t in picked :: t.name in preferred[..i]
  }

  lemma PreferredNext(picked: seq<Tool>, t: Tool, catalog: seq<Tool>, preferred: seq<string>, i: nat)
    requires i < |preferred| && t in catalog && t.name == preferred[i] && TakenBefore(picked, preferred, i)
    requires forall x | x in picked :: x in catalog
    requires forall x | x in picked :: x.name != t.name
    requires preferred[i] !in preferred[..i]
    ensures forall x | x in picked :: Earlier(x, t, catalog, preferred)
  {
    FirstPlace(preferred, i);
    forall x | x in picked ensures Earlier(x, t, catalog, preferred) {
      var k :| 0 <= k < i && preferred[..i][k] == x.name;
      PlaceBound(preferred, k);
    }
  }

  lemma CatalogNext(picked: seq<Tool>, catalog: seq<Tool>, preferred: seq<string>, i: nat)
    requires i < |catalog| && catalog[i].name !in preferred
    requires forall x | x in picked :: x in catalog && (x.name in preferred || x.name in NamesOf(catalog)[..i])
    requires catalog[i].name !in NamesOf(catalog)[..i]
    ensures forall x | x in picked :: Earlier(x, catalog[i], catalog, preferred)
  {
    var names := NamesOf(catalog);
    FirstPlace(names, i);
    forall x | x in picked ensures Earlier(x, catalog[i], catalog, preferred) {
      NamedIn(catalog, x);
      if x.name !in preferred {
        var k :| 0 <= k < i && names[..i][k] == x.name;
        PlaceBound(names, k);
      }
    }
  }

  method TakePreferred(catalog: seq<Tool>, target: nat, preferred: seq<string>) returns (picked: seq<Tool>)
    ensures |picked| <= target && DistinctNames(picked)
    ensures forall t | t in picked :: t in catalog && t.name in preferred
    ensures InOrder(picked, catalog, preferred)
    ensures |picked| < target ==> forall p | p in preferred && p in Names(catalog) :: p in Names(picked)
  {
    picked := [];
    var i := 0;
    while i < |preferred| && |picked| < target
      invariant 0 <= i <= |preferred| && |picked| <= target && DistinctNames(picked)
      invariant forall t | t in picked :: t in catalog
      invariant TakenBefore(picked, preferred, i) && InOrder(picked, catalog, preferred)
      invariant forall k | 0 <= k < i :: preferred[k] in Names(catalog) ==> preferred[k] in Names(picked)
    {
      var hit := Find(catalog, preferred[i]);
      assert preferred[..i + 1] == preferred[..i] + [preferred[i]];
      if hit.Some? && hit.value.name !in Names(picked) {
        assert preferred[i] !in preferred[..i];
        assert forall x | x in picked :: x.name in Names(picked);
        PreferredNext(picked, hit.value, catalog, preferred, i);
        OrderedSnoc(picked, hit.value, catalog, preferred);
        PickOne(picked, hit.value);
        picked := picked + [hit.value];
      }
      i := i + 1;
    }
  }

  /** Fills what is left in catalogue order. */
  method TakeRest(catalog: seq<Tool>, target: nat, preferred: seq<string>, first: seq<Tool>) returns (picked: seq<Tool>)
    requires |first| <= target && DistinctNames(first) && (forall t | t in first :: t in catalog && t.name in preferred)
    requires InOrder(first, catalog, preferred)
    requires |first| < target ==> forall p | p in preferred && p in Names(catalog) :: p in Names(first)
    ensures |picked| <= target && DistinctNames(picked) && first <= picked
    ensures forall t | t in picked :: t in catalog
    ensures InOrder(picked, catalog, preferred)
    ensures |picked| == target || Names(catalog) <= Names(picked)
    ensures |first| == target ==> picked == first
  {
    picked := first;
    var i := 0;
    while i < |catalog| && |picked| < target
      invariant 0 <= i <= |catalog| && |picked| <= target && DistinctNames(picked)
      invariant first <= picked && (|first| == target ==> picked == first)
      invariant forall t | t in picked :: t in catalog && (t.name in preferred || t.name in NamesOf(catalog)[..i])
      invariant InOrder(picked, catalog, preferred)
      invariant forall k | 0 <= k < i :: catalog[k].name in Names(picked)
    {
      ghost var names := NamesOf(catalog);
      assert names[..i + 1] == names[..i] + [catalog[i].name];
      if catalog[i].name !in Names(picked) {
        NotPreferred(first, picked, catalog[i], catalog, preferred);
        assert catalog[i].name !in names[..i];
        CatalogNext(picked, catalog, preferred, i);
        OrderedSnoc(picked, catalog[i], catalog, preferred);
        PickOne(picked, catalog[i]);
        picked := picked + [catalog[i]];
      }
      i := i + 1;
    }
  }

  lemma NotPreferred(first: seq<Tool>, picked: seq<Tool>, t: Tool, catalog: seq<Tool>, preferred: seq<string>)
    requires first <= picked && t in catalog && t.name !in Names(picked)
    requires forall p | p in preferred && p in Names(catalog) :: p in Names(first)
    ensures t.name !in preferred
  {
    assert t.name in Names(catalog);
    assert forall x | x in first :: x in picked;
  }

  method TakeCore(catalog: seq<Tool>, target: nat, preferred: seq<string>) returns (picked: seq<Tool>)
    ensures CoreOf(picked, catalog, target, preferred)
  {
    var first := TakePreferred(catalog, target, preferred);
    picked := TakeRest(catalog, target, preferred, first);
    assert forall x | x in first :: x in picked && x.name in Names(picked);
  }

  lemma PickOne(picked: seq<Tool>, t: Tool)
    requires DistinctNames(picked) && t.name !in Names(picked)
    ensures DistinctNames(picked + [t]) && Names(picked + [t]) == Names(picked) + {t.name}
  {
    assert forall i | 0 <= i < |picked| :: picked[i] in picked && picked[i].name in Names(picked);
    assert forall x | x in picked + [t] :: x in picked || x == t;
    assert t in picked + [t];
    assert forall x | x in picked :: x in picked + [t];
  }

  /** `filter` by name. */
  function Outside(tools: seq<Tool>, names: set<string>): (r: seq<Tool>)
    ensures forall t :: t in r <==> t in tools && t.name !in names
    ensures |r| <= |tools|
  {
    if tools == [] then []
    else
      assert tools == tools[..|tools| - 1] + [tools[|tools| - 1]];
      Outside(tools[..|tools| - 1], names) + if tools[|tools| - 1].name in names then [] else [tools[|tools| - 1]]
  }

  // ---- The projection ------------------------------------------------------------------------

  datatype Setup = Setup(lex: Lexer, max: nat, core: seq<Tool>, door: Tool, searchable: seq<Tool>)

  /** Room for the core, the door, and at least one selected tool; one slot is shared in turn. */
  predicate Roomy(x: Setup) { if x.max == 1 then x.core == [] else x.max >= 2 && |x.core| + 2 <= x.max }

  function Capacity(x: Setup): (c: nat)
    requires Roomy(x)
    ensures c >= 1
  {
    if x.max == 1 then 1 else x.max - |x.core| - 1
  }

  /** The best matches that fit, in ranking order. */
  function Selected(x: Setup, query: string, maxResults: int): seq<Tool>
    requires Roomy(x)
  {
    var rows := Ranking(x.lex, x.searchable, query, |x.searchable|);
    RankingIsExact(x.lex, x.searchable, query, |x.searchable|);
    ToolsOf(x.searchable, rows[..Min(|rows|, Min(Max(1, maxResults), Capacity(x)))])
  }

  function ToolsOf(tools: seq<Tool>, rows: seq<Ranked>): seq<Tool>
    requires forall r | r in rows :: r.index < |tools|
  {
    seq(|rows|, i requires 0 <= i < |rows| => assert rows[i] in rows; tools[rows[i].index])
  }

  /** What the model sees once `selected` is active; a lone slot goes back to the door on a miss. */
  function Projected(x: Setup, selected: seq<Tool>): seq<Tool> {
    if x.max == 1 then (if selected == [] then [x.door] else selected) else x.core + [x.door] + selected
  }

  datatype View = View(exposed: seq<Tool>, pending: Option<seq<Tool>>)

  datatype Op = Search(query: string, maxResults: int) | Activate

  function Step(x: Setup, v: View, op: Op): View
    requires Roomy(x)
  {
    match op
    case Search(query, maxResults) => v.(pending := Some(Selected(x, query, maxResults)))
    case Activate => if v.pending.None? then v else View(Projected(x, v.pending.value), None)
  }

  class Discovery {
    const x: Setup
    var exposed: seq<Tool>
    /** What `exposed` gets after the fixed part at the next boundary. */
    var pending: Option<seq<Tool>>
    ghost var staged: Option<seq<Tool>>

    constructor (x: Setup)
      requires Roomy(x)
      ensures this.x == x && Valid() && Now() == View(x.core + [x.door], None)
    {
      this.x, exposed, pending, staged := x, x.core + [x.door], None, None;
    }

    ghost predicate Valid()
      reads this
    {
      && Roomy(x) && (pending.Some? <==> staged.Some?)
      && (pending.Some? ==> pending.value == if x.max == 1 && staged.value == [] then [x.door] else staged.value)
      && (x.max > 1 ==> |x.core| + 1 <= |exposed| && exposed[..|x.core| + 1] == x.core + [x.door])
    }

    ghost function Now(): View
      reads this
    {
      View(exposed, staged)
    }

    method SearchAndLoad(query: string, maxResults: int) returns (loaded: seq<Tool>, matched: nat, omitted: nat)
      requires Valid()
      modifies this`pending, this`staged
      ensures Valid() && Now() == Step(x, old(Now()), Search(query, maxResults))
      ensures loaded == Selected(x, query, maxResults)
      ensures matched == |Ranking(x.lex, x.searchable, query, |x.searchable|)| && |loaded| + omitted == matched
      // At least one result is asked for, and no more than there is room for.
      ensures |loaded| == Min(matched, Min(if maxResults < 1 then 1 else maxResults, if x.max == 1 then 1 else x.max - |x.core| - 1))
      ensures exposed == old(exposed)
    {
      var rows := Ranking(x.lex, x.searchable, query, |x.searchable|);
      RankingIsExact(x.lex, x.searchable, query, |x.searchable|);
      var limit := Max(1, maxResults);
      var matches := rows[..Min(|rows|, limit)];
      var cap := if x.max == 1 then 1 else x.max - |x.core| - 1;
      var selected := matches[..Min(|matches|, cap)];
      assert selected == rows[..Min(|rows|, Min(limit, cap))];
      loaded := ToolsOf(x.searchable, selected);
      pending := Some(if x.max == 1 && loaded == [] then [x.door] else loaded);
      staged := Some(loaded);
      matched, omitted := |rows|, Max(0, |rows| - |loaded|);
    }

    method ActivatePending()
      requires Valid()
      modifies this
      ensures Valid() && Now() == Step(x, old(Now()), Activate)
      ensures old(pending).None? ==> exposed == old(exposed)
      ensures old(staged).Some? ==>
                exposed == (if x.max > 1 then x.core + [x.door] + old(staged).value
                            else if old(staged).value == [] then [x.door] else old(staged).value)
      ensures pending.None?
    {
      if pending.None? { return; }
      if x.max == 1 {
        exposed := pending.value;
      } else {
        exposed := exposed[..|x.core| + 1];
        exposed := exposed + pending.value;
      }
      pending, staged := None, None;
    }

    /** `preloadCapabilitiesForTask`. */
    method Preload(query: string, maxResults: int) returns (loaded: seq<Tool>, matched: nat, omitted: nat)
      requires Valid()
      modifies this
      ensures Valid() && loaded == Selected(x, query, maxResults) && |loaded| + omitted == matched
      ensures exposed == Projected(x, loaded) && pending.None?
    {
      loaded, matched, omitted := SearchAndLoad(query, maxResults);
      ActivatePending();
    }
  }

  /** The tools that are left stand in the order they stood in. */
  lemma OutsideKeepsOrder(s: seq<Tool>, t: Tool, names: set<string>)
    ensures Outside([], names) == []
    ensures Outside(s + [t], names) == Outside(s, names) + if t.name in names then [] else [t]
  {
    var all := s + [t];
    assert all[..|all| - 1] == s && all[|all| - 1] == t;
  }

  datatype Created = BadMax | NoDoor | Whole(exposed: seq<Tool>) | Pressured(x: Setup)

  method CreateSetup(lex: Lexer, eligible: seq<Tool>, max: int, door: Option<Tool>, preferred: seq<string>) returns (r: Created)
    ensures var catalog := if door.None? then eligible else Outside(eligible, {door.value.name});
            && (r.BadMax? <==> max <= 0)
            && (r.Whole? <==> max > 0 && |catalog| <= max) && (r.Whole? ==> r.exposed == catalog)
            && (r.NoDoor? <==> max > 0 && |catalog| > max && door.None?)
            && (r.Pressured? ==>
                  && r.x.max == max && r.x.lex == lex && r.x.door == door.value && Roomy(r.x)
                  && CoreOf(r.x.core, catalog, if max == 1 then 0 else Min(|preferred|, max - 2), preferred)
                  && r.x.searchable == Outside(catalog, Names(r.x.core)))
  {
    if max <= 0 { return BadMax; }
    var catalog := if door.None? then eligible else Outside(eligible, {door.value.name});
    if |catalog| <= max { return Whole(catalog); }
    if door.None? { return NoDoor; }
    var target := if max == 1 then 0 else Min(Min(|preferred|, |catalog|), Max(0, max - 2));
    var core := TakeCore(catalog, target, preferred);
    var names: set<string> := set t | t in core :: t.name;
    r := Pressured(Setup(lex, max, core, door.value, Outside(catalog, names)));
  }

  /** Nothing authorised is lost between core and search unless two tools share a core name. */
  lemma CorePartitions(core: seq<Tool>, catalog: seq<Tool>)
    requires forall t | t in core :: t in catalog
    ensures var searchable := Outside(catalog, Names(core));
            && (forall t | t in searchable :: t in catalog && t !in core)
            && ((forall t | t in catalog :: t in core || t in searchable)
                <==> forall t, c | t in catalog && c in core && t.name == c.name :: t in core)
  {
    var searchable := Outside(catalog, Names(core));
    assert forall c | c in core :: c.name in Names(core);
    if forall t | t in catalog :: t in core || t in searchable {
      forall t, c | t in catalog && c in core && t.name == c.name ensures t in core {
        assert c.name in Names(core);
      }
    }
    if forall t, c | t in catalog && c in core && t.name == c.name :: t in core {
      forall t | t in catalog ensures t in core || t in searchable {
        if t.name in Names(core) {
          var c :| c in core && c.name == t.name;
        }
      }
    }
  }

  /** The loaded tools are exactly the best: every other match comes after each of them. */
  lemma LoadedAreBest(x: Setup, query: string, maxResults: int, j: nat)
    requires Roomy(x) && j < |x.searchable| && Score(x.lex, x.searchable[j], query) > 0
    ensures var rows := Ranking(x.lex, x.searchable, query, |x.searchable|);
            var n := |Selected(x, query, maxResults)|;
            && n == Min(|rows|, Min(Max(1, maxResults), Capacity(x)))
            && (forall i | 0 <= i < n :: rows[i].index < |x.searchable| && Selected(x, query, maxResults)[i] == x.searchable[rows[i].index])
            && (n < |rows| || exists i :: 0 <= i < n && rows[i].index == j)
            && ((exists i :: 0 <= i < n && rows[i].index == j)
                || forall i | 0 <= i < n :: Before(rows[i], Ranked(j, Score(x.lex, x.searchable[j], query))))
  {
    var rows := Ranking(x.lex, x.searchable, query, |x.searchable|);
    RankingIsExact(x.lex, x.searchable, query, |x.searchable|);
    assert forall i | 0 <= i < |rows| :: rows[i] in rows;
    var r := Ranked(j, Score(x.lex, x.searchable[j], query));
    assert r in rows;
    var k :| 0 <= k < |rows| && rows[k] == r;
  }

  function Run(x: Setup, v: View, ops: seq<Op>): View
    requires Roomy(x)
    decreases |ops|
  {
    if ops == [] then v else Step(x, Run(x, v, ops[..|ops| - 1]), ops[|ops| - 1])
  }

  /** The latest search among `ops`. */
  function LastSearch(ops: seq<Op>): Option<Op> {
    if ops == [] then None
    else if ops[|ops| - 1].Search? then Some(ops[|ops| - 1])
    else LastSearch(ops[..|ops| - 1])
  }

  /** The latest search before the latest activation. */
  function Effective(ops: seq<Op>): Option<Op> {
    if ops == [] then None
    else if ops[|ops| - 1].Activate? then LastSearch(ops[..|ops| - 1])
    else Effective(ops[..|ops| - 1])
  }

  predicate IsSearch(o: Option<Op>) { o.Some? ==> o.value.Search? }

  /** Over any run, the model sees the fixed part and the last search before the last activation. */
  lemma {:induction false} LastSearchBeforeActivationShows(x: Setup, ops: seq<Op>)
    requires Roomy(x)
    ensures IsSearch(Effective(ops)) && IsSearch(LastSearch(ops))
    ensures var v, e := Run(x, View(x.core + [x.door], None), ops), Effective(ops);
            && v.exposed == (if e.None? then x.core + [x.door] else Projected(x, Selected(x, e.value.query, e.value.maxResults)))
            && (v.pending.None? ==> LastSearch(ops) == Effective(ops))
            && (v.pending.Some? ==> LastSearch(ops).Some?
                                    && v.pending.value == Selected(x, LastSearch(ops).value.query, LastSearch(ops).value.maxResults))
    decreases |ops|
  {
    if ops != [] { LastSearchBeforeActivationShows(x, ops[..|ops| - 1]); }
  }

  /** The ceiling holds in every run, and with two slots or more core and door never move. */
  lemma NeverTooMany(x: Setup, ops: seq<Op>)
    requires Roomy(x)
    ensures var v := Run(x, View(x.core + [x.door], None), ops);
            && 1 <= |v.exposed| <= x.max
            && (x.max >= 2 ==> x.core + [x.door] <= v.exposed)
            && (forall t | t in v.exposed :: t in x.core || t == x.door || t in x.searchable)
  {
    LastSearchBeforeActivationShows(x, ops);
    var e := Effective(ops);
    if e.Some? {
      RankingIsExact(x.lex, x.searchable, e.value.query, |x.searchable|);
      var sel := Selected(x, e.value.query, e.value.maxResults);
      assert forall i | 0 <= i < |sel| :: sel[i] in x.searchable;
    }
  }
}

/** First-match dispatch of runtime events (agent/automation.ts), and the one use the scheduler makes of it. */
module Automation {

  import opened Common

  datatype Kind = ScheduleFire | MessageReceived | ConditionMatched

  /** `evidence` values are compared for identity. */
  datatype Event = Event(kind: Kind, evidence: map<string, string>)

  /** An action: run at once, or only on the signal of a deterministic check. */
  datatype Request<T> = Run(result: T) | OnSignal(signal: Option<string>, quiet: T, agent: string -> T)

  datatype Rule<!T> = Rule(matches: Event -> bool, action: Event -> Request<T>)

  /** What the owner's database stores: data, never an executor. */
  datatype Stored = Stored(enabled: bool, kind: Kind, key: string, value: string)

  function Execute<T>(r: Request<T>): T {
    match r
    case Run(result) => result
    case OnSignal(signal, quiet, agent) => if signal.None? then quiet else agent(signal.value)
  }

  function Compile<T>(s: Stored, resolve: Event -> Request<T>): Rule<T> {
    Rule((e: Event) => s.enabled && s.kind == e.kind && s.key in e.evidence && e.evidence[s.key] == s.value, resolve)
  }

  /** `rules.find`. */
  method FirstMatch<T>(rules: seq<Rule<T>>, e: Event) returns (i: Option<nat>)
    ensures i.None? <==> forall k | 0 <= k < |rules| :: !rules[k].matches(e)
    ensures i.Some? ==> i.value < |rules| && rules[i.value].matches(e) && forall k | 0 <= k < i.value :: !rules[k].matches(e)
  {
    var k := 0;
    while k < |rules|
      invariant 0 <= k <= |rules| && forall j | 0 <= j < k :: !rules[j].matches(e)
    {
      if rules[k].matches(e) { return Some(k); }
      k := k + 1;
    }
    i := None;
  }

  function Dispatch<T>(e: Event, rules: seq<Rule<T>>, fallback: Request<T>): T
    decreases |rules|
  {
    if rules == [] then Execute(fallback)
    else if rules[0].matches(e) then Execute(rules[0].action(e))
    else Dispatch(e, rules[1..], fallback)
  }

  method DispatchRuntimeEvent<T>(e: Event, rules: seq<Rule<T>>, fallback: Request<T>) returns (r: T)
    ensures r == Dispatch(e, rules, fallback)
  {
    var i := FirstMatch(rules, e);
    r := Execute(if i.None? then fallback else rules[i.value].action(e));
    DispatchIsFirst(e, rules, fallback, if i.None? then |rules| else i.value);
  }

  /** Rules before the first match, and everything after it, are irrelevant. */
  lemma {:induction false} DispatchIsFirst<T>(e: Event, rules: seq<Rule<T>>, fallback: Request<T>, i: nat)
    requires i <= |rules| && (forall k | 0 <= k < i :: !rules[k].matches(e)) && (i < |rules| ==> rules[i].matches(e))
    ensures Dispatch(e, rules, fallback) == Execute(if i < |rules| then rules[i].action(e) else fallback)
    decreases i
  {
    if i > 0 { DispatchIsFirst(e, rules[1..], fallback, i - 1); }
  }

  /** A rule that is off, or about another kind of event, changes nothing wherever it stands. */
  lemma {:induction false} SilentRuleChangesNothing<T>(e: Event, before: seq<Rule<T>>, s: Stored, resolve: Event -> Request<T>, after: seq<Rule<T>>, fallback: Request<T>)
    requires !s.enabled || s.kind != e.kind || s.key !in e.evidence || e.evidence[s.key] != s.value
    ensures Dispatch(e, before + [Compile(s, resolve)] + after, fallback) == Dispatch(e, before + after, fallback)
    decreases |before|
  {
    var with := before + [Compile(s, resolve)] + after;
    if before == [] {
      assert with[1..] == after && before + after == after;
      assert !with[0].matches(e);
    } else {
      assert with[1..] == before[1..] + [Compile(s, resolve)] + after && (before + after)[1..] == before[1..] + after;
      SilentRuleChangesNothing(e, before[1..], s, resolve, after, fallback);
    }
  }

  /** What a rule resolves to: run at once, or ask the agent only on a signal and with its evidence. */
  lemma AgentOnlyOnSignal<T>(e: Event, rule: Rule<T>, after: seq<Rule<T>>, fallback: Request<T>, result: T, evidence: string, quiet: T, agent: string -> T)
    requires rule.matches(e)
    ensures rule.action(e) == Run(result) ==> Dispatch(e, [rule] + after, fallback) == result
    ensures rule.action(e) == OnSignal(None, quiet, agent) ==> Dispatch(e, [rule] + after, fallback) == quiet
    ensures rule.action(e) == OnSignal(Some(evidence), quiet, agent) ==> Dispatch(e, [rule] + after, fallback) == agent(evidence)
  {
  }

  /** A stored rule matches exactly an event of its kind whose evidence holds its value under its key, while it is on. */
  lemma StoredMatches<T>(s: Stored, resolve: Event -> Request<T>, e: Event)
    ensures Compile(s, resolve).matches(e) <==> s.enabled && s.kind == e.kind && s.key in e.evidence && e.evidence[s.key] == s.value
    ensures Compile(s, resolve).action(e) == resolve(e)
  {
  }

  /** The scheduler's one rule always matches its own fire: the fallback, which throws, is never run. */
  lemma OwnFireMatches<T>(job: string, run: Request<T>, fallback: Request<T>)
    ensures Dispatch(Event(ScheduleFire, map["jobId" := job]), [Compile(Stored(true, ScheduleFire, "jobId", job), (e: Event) => run)], fallback)
         == Execute(run)
  {
  }
}

/** The user's policies in the compiled document: which are accepted, what they add and what they decide. */
module PolicyDecisions {
  import opened Wrappers
  import opened Text
  import opened Json
  import opened ProxySettings
  import opened ControlPlane
  import opened Routing
  import opened CustomRules
  import opened Builder
  import opened References
  import opened RoutingTable
  import opened RoutingDecisions

  // ------------------------------------------------------------ where a policy leads

  /** The subscription nodes among the emitted ones. */
  predicate Offers(nodes: seq<Json>, tag: string) {
    "sub" <= tag && HasTag(nodes, tag)
  }

  predicate OffersAny(nodes: seq<Json>, tags: seq<string>) {
    exists i :: 0 <= i < |tags| && Offers(nodes, tags[i])
  }

  /**
  The outbound of a policy: what it names alone, its own group over the nodes there are, or the
  fallback; nothing when the policy is disabled or left without a node and without a proxy.
  */
  function PolicyOutbound(policy: DomainRule, nodes: seq<Json>, fallback: string): Option<string> {
    if !policy.enabled then None
    else if policy.outbounds == ["direct"] then Some("direct")
    else if policy.outbounds == ["Proxy"] then Some(fallback)
    else if OffersAny(nodes, policy.outbounds) then Some("domain-proxy:" + Trim(policy.name))
    else if fallback == "direct" then None
    else Some(fallback)
  }

  predicate SourcesAreAddresses(policy: DomainRule, x: Surroundings) {
    forall i :: 0 <= i < |policy.source| ==> !EndpointEntryOf(policy.source[i], x).Called?
  }

  lemma CompilesIff(policy: DomainRule, outbound: string, x: Surroundings)
    ensures CustomRule(policy, outbound, x).Ok? <==> SourcesAreAddresses(policy, x)
  {
    var entries := EndpointEntries(policy.source, x);
    assert forall i :: 0 <= i < |entries| ==> entries[i] == EndpointEntryOf(policy.source[i], x);
  }

  lemma RouteFields(m: Matchers, outbound: string)
    ensures Get(Obj(RuleFields(m, outbound)), "action") == Some(Str("route"))
    ensures Get(Obj(RuleFields(m, outbound)), "outbound") == Some(Str(outbound))
  {
    FieldPresent(m, outbound, "action");
    FieldPresent(m, outbound, "outbound");
  }

  lemma RoutesTo(rule: Json, outbound: string)
    requires Get(rule, "action") == Some(Str("route")) && Get(rule, "outbound") == Some(Str(outbound))
    ensures DecisionOf(rule) == Some(Route(outbound))
  {
  }

  lemma CustomRuleRoutes(policy: DomainRule, outbound: string, x: Surroundings)
    requires CustomRule(policy, outbound, x).Ok?
    ensures DecisionOf(CustomRule(policy, outbound, x).value) == Some(Route(outbound))
  {
    RouteFields(MatchersOf(policy, x).value, outbound);
    RoutesTo(CustomRule(policy, outbound, x).value, outbound);
  }

  // --------------------------------------------------------------- available nodes

  lemma {:induction false} AvailableIff(tags: seq<string>, available: set<string>)
    ensures Available(tags, available) != [] <==> exists i :: 0 <= i < |tags| && tags[i] in available
  {
    if tags != [] {
      AvailableIff(tags[1..], available);
      assert forall i :: 0 < i < |tags| ==> tags[i] == tags[1..][i - 1];
    }
  }

  /** The proxy groups add no subscription node. */
  lemma GroupsOfferNothing(members: seq<string>, url: string, tag: string)
    requires "sub" <= tag
    ensures !HasTag(ProxyGroups(members, url), tag)
  {
    assert tag != "Auto" && tag != "Proxy" by { assert "Auto"[0] != 's' && "Proxy"[0] != 's' && tag[0] == 's'; }
  }

  lemma OffersIff(nodes: seq<Json>, members: seq<string>, url: string, tag: string)
    ensures tag in RuleTags(nodes + ProxyGroups(members, url)) <==> Offers(nodes, tag)
  {
    TagsOfComplete(nodes + ProxyGroups(members, url), tag);
    HasTagGrows(nodes, ProxyGroups(members, url), tag);
    if "sub" <= tag {
      GroupsOfferNothing(members, url, tag);
    }
  }

  ghost predicate Offered(available: set<string>, nodes: seq<Json>) {
    forall tag :: tag in available <==> Offers(nodes, tag)
  }

  // ------------------------------------------------------------------ one policy

  /** What the checks ask of a policy, given the names taken before it. */
  predicate Acceptable(policy: DomainRule, names: set<string>, nodes: seq<Json>, fallback: string, x: Surroundings) {
    policy.enabled ==>
      && Trim(policy.name) != [] && Trim(policy.name) !in names
      && policy.bySuffix + policy.host + policy.process + policy.source + policy.destination != []
      && policy.outbounds != []
      && (PolicyOutbound(policy, nodes, fallback).Some? ==> SourcesAreAddresses(policy, x))
  }

  /** A policy with an outbound adds its rule at the end; every enabled one takes its name. */
  predicate Added(before: Groups, after: Groups, policy: DomainRule, outbound: Option<string>, x: Surroundings) {
    && after.names == before.names + (if policy.enabled then {Trim(policy.name)} else {})
    && (outbound.None? ==> after.routes == before.routes && after.outbounds == before.outbounds)
    && (outbound.Some? ==>
          && CustomRule(policy, outbound.value, x).Ok?
          && after.routes == before.routes + [CustomRule(policy, outbound.value, x).value])
  }

  lemma AddPolicyResult(
    g: Groups, policy: DomainRule, available: set<string>, nodes: seq<Json>, fallback: string, s: Settings,
    x: Surroundings)
    requires Offered(available, nodes)
    ensures var r := AddPolicy(g, policy, available, fallback, s, x);
      && (r.Ok? <==> Acceptable(policy, g.names, nodes, fallback, x))
      && (r.Ok? ==> Added(g, r.value, policy, PolicyOutbound(policy, nodes, fallback), x))
  {
    AvailableIff(policy.outbounds, available);
    var outbound := PolicyOutbound(policy, nodes, fallback);
    if outbound.Some? {
      CompilesIff(policy, outbound.value, x);
    }
  }

  /** The policies before the one at `n` compile, and it is acceptable after them. */
  lemma OneMorePolicy(
    n: nat, available: set<string>, nodes: seq<Json>, fallback: string, s: Settings, x: Surroundings)
    requires n < |s.domainRules| && Offered(available, nodes)
    ensures var before := AfterPolicies(n, available, fallback, s, x);
      var after := AfterPolicies(n + 1, available, fallback, s, x);
      var policy := s.domainRules[n];
      && (after.Ok? <==> before.Ok? && Acceptable(policy, before.value.names, nodes, fallback, x))
      && (after.Ok? ==> Added(before.value, after.value, policy, PolicyOutbound(policy, nodes, fallback), x))
  {
    var before := AfterPolicies(n, available, fallback, s, x);
    if before.Ok? {
      AddPolicyResult(before.value, s.domainRules[n], available, nodes, fallback, s, x);
    }
  }

  // ----------------------------------------------------------------- all policies

  /** The names taken by the first `n` policies. */
  function NamesTaken(policies: seq<DomainRule>, n: nat): set<string>
    requires n <= |policies|
  {
    set i | 0 <= i < n && policies[i].enabled :: Trim(policies[i].name)
  }

  lemma NamesTakenNext(policies: seq<DomainRule>, n: nat)
    requires n < |policies|
    ensures NamesTaken(policies, n + 1)
      == NamesTaken(policies, n) + (if policies[n].enabled then {Trim(policies[n].name)} else {})
  {
    assert policies[n].enabled ==> Trim(policies[n].name) in NamesTaken(policies, n + 1);
  }

  /** Each of the first `n` policies is acceptable after those before it. */
  predicate AllAcceptable(n: nat, nodes: seq<Json>, fallback: string, s: Settings, x: Surroundings)
    requires n <= |s.domainRules|
  {
    n > 0 ==>
      && AllAcceptable(n - 1, nodes, fallback, s, x)
      && Acceptable(s.domainRules[n - 1], NamesTaken(s.domainRules, n - 1), nodes, fallback, x)
  }

  /** The policies compile exactly when all are acceptable. */
  lemma {:induction false} PoliciesCompileIff(
    n: nat, available: set<string>, nodes: seq<Json>, fallback: string, s: Settings, x: Surroundings)
    requires n <= |s.domainRules| && Offered(available, nodes)
    ensures AfterPolicies(n, available, fallback, s, x).Ok? <==> AllAcceptable(n, nodes, fallback, s, x)
    ensures AfterPolicies(n, available, fallback, s, x).Ok? ==>
      AfterPolicies(n, available, fallback, s, x).value.names == NamesTaken(s.domainRules, n)
  {
    if n > 0 {
      PoliciesCompileIff(n - 1, available, nodes, fallback, s, x);
      OneMorePolicy(n - 1, available, nodes, fallback, s, x);
      NamesTakenNext(s.domainRules, n - 1);
    } else {
      assert NamesTaken(s.domainRules, 0) == {};
    }
  }

  // ----------------------------------------------------------------- what they decide

  /** The policy has this outbound, and its matchers match the flow. */
  predicate Takes(policy: DomainRule, outbound: Option<string>, x: Surroundings, mode: string, flow: Flow) {
    && outbound.Some? && CustomRule(policy, outbound.value, x).Ok?
    && Matches(CustomRule(policy, outbound.value, x).value, mode, flow)
  }

  /** Where a policy on its own sends the flow. */
  function Answer(
    policy: DomainRule, nodes: seq<Json>, fallback: string, x: Surroundings, mode: string, flow: Flow): Option<string>
  {
    var outbound := PolicyOutbound(policy, nodes, fallback);
    if Takes(policy, outbound, x, mode, flow) then outbound else None
  }

  function Answers(
    policies: seq<DomainRule>, nodes: seq<Json>, fallback: string, x: Surroundings, mode: string, flow: Flow)
    : seq<Option<string>>
  {
    seq(|policies|, i requires 0 <= i < |policies| => Answer(policies[i], nodes, fallback, x, mode, flow))
  }

  function FirstSome(answers: seq<Option<string>>): Option<string> {
    if answers == [] then None else if answers[0].Some? then answers[0] else FirstSome(answers[1..])
  }

  lemma {:induction false} FirstSomeSnoc(answers: seq<Option<string>>, last: Option<string>)
    ensures FirstSome(answers + [last]) == if FirstSome(answers).Some? then FirstSome(answers) else last
  {
    if answers == [] {
      assert [last][1..] == [];
    } else {
      FirstSomeSnoc(answers[1..], last);
      assert (answers + [last])[1..] == answers[1..] + [last];
    }
  }

  lemma {:induction false} FirstSomeIs(answers: seq<Option<string>>)
    ensures FirstSome(answers).None? <==> forall i :: 0 <= i < |answers| ==> answers[i].None?
    ensures forall i :: 0 <= i < |answers| && answers[i].Some? && (forall j :: 0 <= j < i ==> answers[j].None?) ==>
      FirstSome(answers) == answers[i]
  {
    if answers != [] {
      FirstSomeIs(answers[1..]);
      assert forall i :: 0 < i < |answers| ==> answers[i] == answers[1..][i - 1];
    }
  }

  /** The outbound of the first policy that takes the flow. */
  function Chosen(
    nodes: seq<Json>, fallback: string, s: Settings, x: Surroundings, mode: string, flow: Flow): Option<string>
  {
    FirstSome(Answers(s.domainRules, nodes, fallback, x, mode, flow))
  }

  function RouteTo(outbound: Option<string>): Option<Decision> {
    if outbound.Some? then Some(Route(outbound.value)) else None
  }

  lemma AddedDecides(
    before: Groups, after: Groups, policy: DomainRule, outbound: Option<string>, x: Surroundings, e: Engine, flow: Flow)
    requires Added(before, after, policy, outbound, x) && Scan(before.routes, e, flow).flow == flow
    ensures var earlier := Scan(before.routes, e, flow);
      Scan(after.routes, e, flow) ==
      if earlier.decision.Some? then earlier
      else Scanned(if Takes(policy, outbound, x, e.mode, flow) then RouteTo(outbound) else None, flow)
  {
    if outbound.Some? {
      var rule := CustomRule(policy, outbound.value, x).value;
      CustomRuleRoutes(policy, outbound.value, x);
      ScanSplits(before.routes, [rule], e, flow);
      ScanOne(rule, e, flow);
    }
  }

  /** One more policy decides what those before it leave. */
  lemma OneMoreDecides(
    before: Groups, after: Groups, policy: DomainRule, nodes: seq<Json>, fallback: string, x: Surroundings,
    answers: seq<Option<string>>, e: Engine, flow: Flow)
    requires Added(before, after, policy, PolicyOutbound(policy, nodes, fallback), x)
    requires Scan(before.routes, e, flow) == Scanned(RouteTo(FirstSome(answers)), flow)
    ensures Scan(after.routes, e, flow) ==
      Scanned(RouteTo(FirstSome(answers + [Answer(policy, nodes, fallback, x, e.mode, flow)])), flow)
  {
    AddedDecides(before, after, policy, PolicyOutbound(policy, nodes, fallback), x, e, flow);
    FirstSomeSnoc(answers, Answer(policy, nodes, fallback, x, e.mode, flow));
  }

  /** What is built policy by policy. */
  ghost predicate Chain(
    gs: seq<Groups>, policies: seq<DomainRule>, nodes: seq<Json>, fallback: string, x: Surroundings)
  {
    && |gs| == |policies| + 1 && gs[0].routes == []
    && forall i :: 0 <= i < |policies| ==>
         Added(gs[i], gs[i + 1], policies[i], PolicyOutbound(policies[i], nodes, fallback), x)
  }

  lemma {:induction false} ChainDecides(
    gs: seq<Groups>, policies: seq<DomainRule>, nodes: seq<Json>, fallback: string, x: Surroundings, n: nat,
    e: Engine, flow: Flow)
    requires Chain(gs, policies, nodes, fallback, x) && n <= |policies|
    ensures Scan(gs[n].routes, e, flow)
      == Scanned(RouteTo(FirstSome(Answers(policies, nodes, fallback, x, e.mode, flow)[..n])), flow)
  {
    if n > 0 {
      var answers := Answers(policies, nodes, fallback, x, e.mode, flow);
      ChainDecides(gs, policies, nodes, fallback, x, n - 1, e, flow);
      OneMoreDecides(gs[n - 1], gs[n], policies[n - 1], nodes, fallback, x, answers[..n - 1], e, flow);
      assert answers[..n] == answers[..n - 1] + [answers[n - 1]];
    }
  }

  lemma ChainGrows(
    gs: seq<Groups>, policies: seq<DomainRule>, g: Groups, policy: DomainRule, nodes: seq<Json>, fallback: string,
    x: Surroundings)
    requires Chain(gs, policies, nodes, fallback, x)
    requires Added(gs[|policies|], g, policy, PolicyOutbound(policy, nodes, fallback), x)
    ensures Chain(gs + [g], policies + [policy], nodes, fallback, x)
  {
  }

  lemma {:induction false} PoliciesChain(
    n: nat, available: set<string>, nodes: seq<Json>, fallback: string, s: Settings, x: Surroundings)
    returns (gs: seq<Groups>)
    requires n <= |s.domainRules| && Offered(available, nodes) && AfterPolicies(n, available, fallback, s, x).Ok?
    ensures Chain(gs, s.domainRules[..n], nodes, fallback, x)
    ensures gs[n] == AfterPolicies(n, available, fallback, s, x).value
  {
    if n == 0 {
      gs := [Groups({}, [], [])];
    } else {
      OneMorePolicy(n - 1, available, nodes, fallback, s, x);
      gs := PoliciesChain(n - 1, available, nodes, fallback, s, x);
      ChainGrows(gs, s.domainRules[..n - 1], AfterPolicies(n, available, fallback, s, x).value, s.domainRules[n - 1],
                 nodes, fallback, x);
      gs := gs + [AfterPolicies(n, available, fallback, s, x).value];
      assert s.domainRules[..n] == s.domainRules[..n - 1] + [s.domainRules[n - 1]];
    }
  }

  /** The rules of all policies send a flow where the first that takes it leads. */
  lemma PoliciesDecide(
    available: set<string>, nodes: seq<Json>, fallback: string, s: Settings, x: Surroundings, e: Engine, flow: Flow)
    requires Offered(available, nodes) && AfterPolicies(|s.domainRules|, available, fallback, s, x).Ok?
    ensures Scan(AfterPolicies(|s.domainRules|, available, fallback, s, x).value.routes, e, flow)
      == Scanned(RouteTo(Chosen(nodes, fallback, s, x, e.mode, flow)), flow)
  {
    var n := |s.domainRules|;
    var gs := PoliciesChain(n, available, nodes, fallback, s, x);
    assert s.domainRules[..n] == s.domainRules;
    ChainDecides(gs, s.domainRules, nodes, fallback, x, n, e, flow);
    var answers := Answers(s.domainRules, nodes, fallback, x, e.mode, flow);
    assert answers[..n] == answers;
  }

  /** The policy at `i` takes the flow and none before it does. */
  predicate FirstToTake(
    i: nat, nodes: seq<Json>, fallback: string, s: Settings, x: Surroundings, mode: string, flow: Flow)
    requires i < |s.domainRules|
  {
    var answers := Answers(s.domainRules, nodes, fallback, x, mode, flow);
    answers[i].Some? && forall j :: 0 <= j < i ==> answers[j].None?
  }

  /** The chosen outbound is that of the first policy that takes the flow. */
  lemma ChosenIsFirst(
    i: nat, nodes: seq<Json>, fallback: string, s: Settings, x: Surroundings, mode: string, flow: Flow)
    requires i < |s.domainRules| && FirstToTake(i, nodes, fallback, s, x, mode, flow)
    ensures PolicyOutbound(s.domainRules[i], nodes, fallback).Some?
    ensures Chosen(nodes, fallback, s, x, mode, flow) == PolicyOutbound(s.domainRules[i], nodes, fallback)
  {
    FirstSomeIs(Answers(s.domainRules, nodes, fallback, x, mode, flow));
    assert Answers(s.domainRules, nodes, fallback, x, mode, flow)[i]
      == Answer(s.domainRules[i], nodes, fallback, x, mode, flow);
  }

  /** None is chosen exactly when no policy takes the flow. */
  lemma NoneChosenIff(nodes: seq<Json>, fallback: string, s: Settings, x: Surroundings, mode: string, flow: Flow)
    ensures var answers := Answers(s.domainRules, nodes, fallback, x, mode, flow);
      Chosen(nodes, fallback, s, x, mode, flow).None? <==> forall i :: 0 <= i < |answers| ==> answers[i].None?
  {
    FirstSomeIs(Answers(s.domainRules, nodes, fallback, x, mode, flow));
  }
}

/** The compiled rule list against a decision table that does not mention rules. */
module RoutingTable {
  import opened Wrappers
  import opened Text
  import opened Json
  import opened ProxySettings
  import opened ControlPlane
  import opened Routing
  import opened RuleSets
  import opened CustomRules
  import opened Builder
  import opened Mixin
  import opened Priority

  /** The flow goes to the host of the health-check URL, and there is a proxy to check. */
  predicate HealthHit(x: Surroundings, proxy: string, flow: Flow) {
    proxy != "direct" &&
    match x.healthHost
    case None => false
    case Some(Address(cidr)) => flow.holds("ip_cidr", Strs([cidr]))
    case Some(Name(name)) => flow.holds("domain", Strs([name]))
  }

  /** Where a flow goes that the control plane, DNS and the user's policies leave alone. */
  function Table(s: Settings, x: Surroundings, hasRules: bool, proxy: string, mode: string, flow: Flow): Decision {
    if IsMode(mode, "direct") then Route("direct")
    else if IsMode(mode, "global") then Route(proxy)
    else if HealthHit(x, proxy, flow) then Route(proxy)
    else if hasRules then
      if IsFetch(flow) then Route(proxy) else Blacklist(flow, proxy, ApplicationsPresent(x))
    else if (s.subscriptions != [] || TunEnabled(s)) && flow.isPrivate then Route("direct")
    else Route(proxy)
  }

  lemma EvaluateHealth(x: Surroundings, proxy: string, rest: seq<Json>, final: string, e: Engine, flow: Flow)
    ensures Evaluate(HealthRules(x, proxy) + rest, final, e, flow) ==
      if HealthHit(x, proxy, flow) then Route(proxy) else Evaluate(rest, final, e, flow)
  {
    if proxy != "direct" && x.healthHost.Some? {
      var key := if x.healthHost.value.Address? then "ip_cidr" else "domain";
      var host := x.healthHost.value;
      var value := if host.Address? then Strs([host.cidr]) else Strs([host.name]);
      assert HealthRules(x, proxy) == [ItemRule(key, value, proxy)];
      EvaluateItem(key, value, proxy, rest, final, e, flow);
    } else {
      assert HealthRules(x, proxy) + rest == rest;
    }
  }

  lemma EvaluateModes(proxy: string, rest: seq<Json>, final: string, e: Engine, flow: Flow)
    ensures Evaluate(ModeRules(proxy) + rest, final, e, flow) ==
      if IsMode(e.mode, "direct") then Route("direct")
      else if IsMode(e.mode, "global") then Route(proxy)
      else Evaluate(rest, final, e, flow)
  {
    var r2 := [ItemRule("clash_mode", Str("global"), proxy)] + rest;
    assert ModeRules(proxy) + rest == [ItemRule("clash_mode", Str("direct"), "direct")] + r2;
    EvaluateItem("clash_mode", Str("global"), proxy, rest, final, e, flow);
    EvaluateItem("clash_mode", Str("direct"), "direct", r2, final, e, flow);
  }

  lemma EvaluateLists(s: Settings, x: Surroundings, hasRules: bool, proxy: string, e: Engine, flow: Flow)
    ensures var final := RouteFinal(hasRules, proxy);
      Evaluate(ListRules(s, x, hasRules, proxy) + [ItemRule("clash_mode", Str("rule"), final)], final, e, flow) ==
      if hasRules then
        if IsFetch(flow) then Route(proxy) else Blacklist(flow, proxy, ApplicationsPresent(x))
      else if (s.subscriptions != [] || TunEnabled(s)) && flow.isPrivate then Route("direct")
      else Route(proxy)
  {
    var final := RouteFinal(hasRules, proxy);
    var last := [ItemRule("clash_mode", Str("rule"), final)];
    ItemRuleMatches("clash_mode", Str("rule"), final, e.mode, flow);
    AllRouteEvaluates(last, final, e, flow);
    if hasRules {
      var builtin := BuiltinRules(proxy, ApplicationsPresent(x));
      assert ListRules(s, x, hasRules, proxy) + last == FetchRules(proxy) + (builtin + last);
      FetchRulesRefine(proxy, builtin + last, final, e, flow);
      BuiltinRulesRefineBlacklist(proxy, ApplicationsPresent(x), last, e, flow);
    } else if s.subscriptions != [] || TunEnabled(s) {
      assert ListRules(s, x, hasRules, proxy) + last
        == [ItemRule("ip_is_private", Bool(true), "direct")] + ([CatchAll(proxy)] + last);
      EvaluateFallback(proxy, last, final, e, flow);
    } else {
      assert ListRules(s, x, hasRules, proxy) + last == last;
    }
  }

  lemma EvaluateFallback(proxy: string, last: seq<Json>, final: string, e: Engine, flow: Flow)
    ensures Evaluate([ItemRule("ip_is_private", Bool(true), "direct")] + ([CatchAll(proxy)] + last), final, e, flow) ==
      if flow.isPrivate then Route("direct") else Route(proxy)
  {
    EvaluateItem("ip_is_private", Bool(true), "direct", [CatchAll(proxy)] + last, final, e, flow);
    CatchAllMatches(proxy, e.mode, flow);
    EvaluateHead(CatchAll(proxy), Route(proxy), last, final, e, flow);
  }

  lemma LateRulesRefineTable(s: Settings, x: Surroundings, hasRules: bool, proxy: string, e: Engine, flow: Flow)
    ensures Evaluate(LateRules(s, x, hasRules, proxy), RouteFinal(hasRules, proxy), e, flow)
      == Table(s, x, hasRules, proxy, e.mode, flow)
  {
    var final := RouteFinal(hasRules, proxy);
    var lists := ListRules(s, x, hasRules, proxy) + [ItemRule("clash_mode", Str("rule"), final)];
    var health := HealthRules(x, proxy) + lists;
    assert LateRules(s, x, hasRules, proxy) == ModeRules(proxy) + health;
    EvaluateLists(s, x, hasRules, proxy, e, flow);
    EvaluateHealth(x, proxy, lists, final, e, flow);
    EvaluateModes(proxy, health, final, e, flow);
  }

  /**
  The compiled list refines the table: for every build, mode, flow and sniffing result, a
  flow the early rules do not decide goes where the table says, as sniffing left it.
  */
  lemma CompiledRulesRefineTable(
    s: Settings, x: Surroundings, hasRules: bool, inventory: seq<Json>, e: Engine, flow: Flow)
    requires Build(s, x, hasRules, inventory).Ok?
    ensures var b := Build(s, x, hasRules, inventory).value; var early := Scan(b.early, e, flow);
      Evaluate(b.Rules(), b.final, e, flow) ==
      if early.decision.Some? then early.decision.value else Table(s, x, hasRules, b.proxyFinal, e.mode, early.flow)
  {
    var b := Build(s, x, hasRules, inventory).value;
    ScanSplits(b.early, b.late, e, flow);
    LateRulesRefineTable(s, x, hasRules, b.proxyFinal, e, Scan(b.early, e, flow).flow);
  }

  /** What the table means for the modes and for blocked names on domestic addresses. */
  lemma TableHighlights(s: Settings, x: Surroundings, hasRules: bool, inventory: seq<Json>, e: Engine, flow: Flow)
    requires Build(s, x, hasRules, inventory).Ok?
      && Scan(Build(s, x, hasRules, inventory).value.early, e, flow).decision.None?
    ensures var b := Build(s, x, hasRules, inventory).value; var seen := Scan(b.early, e, flow).flow;
      var decision := Evaluate(b.Rules(), b.final, e, flow);
      && (IsMode(e.mode, "global") ==> decision == Route(b.proxyFinal))
      && (IsMode(e.mode, "direct") ==> decision == Route("direct"))
      && (IsMode(e.mode, "rule") && hasRules && seen.sets * {"gfw", "proxy"} != {}
          && seen.sets !! {"applications", "private", "reject", "icloud", "apple", "geosite-cn", "direct"}
          ==> decision == Route(b.proxyFinal))
      && (IsMode(e.mode, "rule") && hasRules && seen.sets == {} && !HealthHit(x, b.proxyFinal, seen) && !IsFetch(seen)
          ==> decision == Route("direct"))
  {
    CompiledRulesRefineTable(s, x, hasRules, inventory, e, flow);
    var b := Build(s, x, hasRules, inventory).value;
    TableMeaning(s, x, hasRules, b.proxyFinal, e.mode, Scan(b.early, e, flow).flow);
  }

  lemma TableMeaning(s: Settings, x: Surroundings, hasRules: bool, proxy: string, mode: string, seen: Flow)
    ensures var decision := Table(s, x, hasRules, proxy, mode, seen);
      && (IsMode(mode, "global") ==> decision == Route(proxy))
      && (IsMode(mode, "direct") ==> decision == Route("direct"))
      && (IsMode(mode, "rule") && hasRules && seen.sets * {"gfw", "proxy"} != {}
          && seen.sets !! {"applications", "private", "reject", "icloud", "apple", "geosite-cn", "direct"}
          ==> decision == Route(proxy))
      && (IsMode(mode, "rule") && hasRules && seen.sets == {} && !HealthHit(x, proxy, seen) && !IsFetch(seen)
          ==> decision == Route("direct"))
  {
    ModesDiffer(mode);
    assert forall t :: t in seen.sets * {"gfw", "proxy"} ==> In("gfw", seen) || In("proxy", seen);
    if seen.sets !! {"applications", "private", "reject", "icloud", "apple", "geosite-cn", "direct"} {
      assert !In("applications", seen) && !In("private", seen) && !In("reject", seen) && !In("icloud", seen)
        && !In("apple", seen) && !In("geosite-cn", seen) && !In("direct", seen);
    }
  }

  /**
  No mixin can come before the control plane: whatever the overlay, what the control rules
  decide is what the merged and prioritised document decides.
  */
  lemma ControlPlaneSurvivesMixin(
    base: Json, overlay: Json, s: Settings, x: Surroundings, final: string, e: Engine, flow: Flow)
    requires Active(MergeJson(base, overlay), s, x)
    requires Scan(ControlRules(MergeJson(base, overlay), s, x), e, flow).decision.Some?
    ensures var merged := MergeJson(base, overlay); var document := Prioritized(merged, s, x);
      && RulesOf(document).Some?
      && Scan(ControlRules(merged, s, x), e, flow).decision == Some(Evaluate(RulesOf(document).value, final, e, flow))
  {
    var merged := MergeJson(base, overlay);
    var health := MeshHealthRules(s, x, ProxyTag(merged));
    ScanSplits(ControlRules(merged, s, x), Retained(RulesOf(merged).value, health, s, x), e, flow);
  }

  // ------------------------------------------------------- what happens to user rules

  /** A policy whose only matcher is blank passes validation and becomes a rule that takes every flow. */
  lemma BlankPolicyTakesEverything(
    g: Groups, available: set<string>, fallback: string, s: Settings, x: Surroundings, mode: string, flow: Flow)
    requires "all" !in g.names
    ensures var policy := DomainRule(true, "all", [], [""], [], [], [], ["direct"], None, None, None);
      var added := AddPolicy(g, policy, available, fallback, s, x);
      && added.Ok? && |added.value.routes| == |g.routes| + 1
      && Matches(added.value.routes[|g.routes|], mode, flow)
      && DecisionOf(added.value.routes[|g.routes|]) == Some(Route("direct"))
  {
    var policy := DomainRule(true, "all", [], [""], [], [], [], ["direct"], None, None, None);
    assert Trim("all") == "all";
    BlankRule(policy, x, mode, flow);
    assert AddPolicy(g, policy, available, fallback, s, x) == PushRoute(g, policy, "all", [], "direct", x);
  }

  lemma BlankRule(policy: DomainRule, x: Surroundings, mode: string, flow: Flow)
    requires policy.bySuffix == [] && policy.host == [""]
    requires policy.process == [] && policy.source == [] && policy.destination == []
    ensures CustomRule(policy, "direct", x).Ok? && Matches(CustomRule(policy, "direct", x).value, mode, flow)
    ensures DecisionOf(CustomRule(policy, "direct", x).value) == Some(Route("direct"))
  {
    assert HostPattern("") == [];
    CatchAllIffBlank(policy, "direct", x);
    NoMatcherTakesAll(CustomRule(policy, "direct", x).value, mode, flow);
    FieldsOf(MatchersOf(policy, x).value, "direct");
    FieldPresent(MatchersOf(policy, x).value, "direct", "action");
  }

  /** Health rules are pinned to an inbound; user rules never are. */
  lemma HealthRulesPinned(s: Settings, x: Surroundings, proxy: string, rule: Json)
    requires Get(rule, "inbound").None?
    ensures rule !in MeshHealthRules(s, x, proxy) && rule !in ProcessBypassRules(s, x)
  {
    var health := MeshHealthRules(s, x, proxy);
    forall i | 0 <= i < |health|
      ensures Get(health[i], "inbound").Some?
    {
    }
  }

  /**
  A user's rule is kept exactly when it is not direct, or when it is not taken for a process
  bypass (it names no process, or leads to an address) and leads to no peer. A rule for the
  mesh endpoint must lead to no address.
  */
  predicate Keeps(policy: DomainRule, outbound: string, s: Settings, x: Surroundings) {
    && (outbound == "direct" ==>
          (!NamesProcess(policy) || HasAddress(policy, x)) && !LeadsToPeer(policy, s, x))
    && (outbound == MESH_ENDPOINT_TAG ==> !HasAddress(policy, x))
  }

  /** The exact fate of a user's rule in the prioritising pass, read off the policy. */
  lemma UserRuleRetainedIff(base: Json, policy: DomainRule, outbound: string, s: Settings, x: Surroundings)
    requires Active(base, s, x) && CustomRule(policy, outbound, x).Ok?
    requires CustomRule(policy, outbound, x).value in RulesOf(base).value
    ensures var rule := CustomRule(policy, outbound, x).value;
      && (rule in Retained(RulesOf(base).value, MeshHealthRules(s, x, ProxyTag(base)), s, x)
          <==> Keeps(policy, outbound, s, x))
      && (rule in RulesOf(Prioritized(base, s, x)).value
          <==> Keeps(policy, outbound, s, x) || rule in PeerBypassRules(s, x))
  {
    var rule := CustomRule(policy, outbound, x).value;
    var health := MeshHealthRules(s, x, ProxyTag(base));
    UserRuleRemovedIff(policy, outbound, s, x, ProxyTag(base));
    RetainedMember(RulesOf(base).value, health, s, x, rule);
    PrioritizedMember(base, s, x, rule);
  }

  lemma UserRuleRemovedIff(policy: DomainRule, outbound: string, s: Settings, x: Surroundings, proxy: string)
    requires CustomRule(policy, outbound, x).Ok?
    ensures Removed(CustomRule(policy, outbound, x).value, MeshHealthRules(s, x, proxy), s, x)
      <==> !Keeps(policy, outbound, s, x)
    ensures Get(CustomRule(policy, outbound, x).value, "inbound").None?
  {
    FieldsOf(MatchersOf(policy, x).value, outbound);
    HealthRulesPinned(s, x, proxy, CustomRule(policy, outbound, x).value);
    TakenForProcessBypass(policy, outbound, x);
    TakenForPeerBypass(policy, outbound, s, x);
    TakenForMeshRule(policy, outbound, x);
  }

  lemma PrioritizedMember(base: Json, s: Settings, x: Surroundings, rule: Json)
    requires Active(base, s, x) && Get(rule, "inbound").None?
    ensures RulesOf(Prioritized(base, s, x)).Some?
    ensures rule in RulesOf(Prioritized(base, s, x)).value
      <==> (|| rule in Retained(RulesOf(base).value, MeshHealthRules(s, x, ProxyTag(base)), s, x)
            || rule in PeerBypassRules(s, x))
  {
    HealthRulesPinned(s, x, ProxyTag(base), rule);
    var kept := Retained(RulesOf(base).value, MeshHealthRules(s, x, ProxyTag(base)), s, x);
    assert RulesOf(Prioritized(base, s, x)) == Some(ControlRules(base, s, x) + kept);
  }

  lemma {:induction false} RetainedMember(rules: seq<Json>, health: seq<Json>, s: Settings, x: Surroundings, rule: Json)
    ensures rule in Retained(rules, health, s, x) <==> rule in rules && !Removed(rule, health, s, x)
  {
    if rules != [] {
      RetainedMember(rules[1..], health, s, x, rule);
    }
  }

  /** A direct policy that leads to a peer and elsewhere is gone from the document, the other address with it. */
  lemma PeerPolicyLosesOtherAddresses(base: Json, policy: DomainRule, s: Settings, x: Surroundings, j: nat)
    requires Active(base, s, x) && CustomRule(policy, "direct", x).Ok?
    requires CustomRule(policy, "direct", x).value in RulesOf(base).value
    requires LeadsToPeer(policy, s, x) && j < |policy.destination|
    requires var other := EndpointEntryOf(policy.destination[j], x); other.At? && other.cidr !in PeerCidrs(s, x)
    ensures CustomRule(policy, "direct", x).value !in RulesOf(Prioritized(base, s, x)).value
  {
    var rule, other := CustomRule(policy, "direct", x).value, EndpointEntryOf(policy.destination[j], x).cidr;
    var cidrs := MatchersOf(policy, x).value.cidrs;
    var entries := EndpointEntries(policy.destination, x);
    UserRuleRetainedIff(base, policy, "direct", s, x);
    AddressesFrom(entries, |entries|, other);
    assert entries[j] == EndpointEntryOf(policy.destination[j], x);
    FieldsOf(MatchersOf(policy, x).value, "direct");
    PeerRuleAddresses(PeerCidrs(s, x), rule, cidrs, other);
  }

  /** A peer bypass rule leads to one peer and nowhere else. */
  lemma {:induction false} PeerRuleAddresses(peers: seq<string>, rule: Json, cidrs: seq<string>, other: string)
    requires Get(rule, "ip_cidr") == Some(Strs(cidrs)) && other in cidrs && other !in peers
    ensures rule !in PeerRulesFor(peers)
  {
    if peers != [] {
      PeerRuleAddresses(peers[1..], rule, cidrs, other);
      var i :| 0 <= i < |cidrs| && cidrs[i] == other;
      assert Strs(cidrs).items[i] == Str(other) && |Strs([peers[0]]).items| == 1;
      assert Strs([peers[0]]).items[0] == Str(peers[0]);
      assert Strs(cidrs) != Strs([peers[0]]);
      forall k | 0 <= k < 3
        ensures PeerRules(peers[0])[k] != rule
      {
        assert Get(PeerRules(peers[0])[k], "ip_cidr") == Some(Strs([peers[0]]));
      }
    }
  }
}

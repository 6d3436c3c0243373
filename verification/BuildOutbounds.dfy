/** The outbounds of a build, field by field: the nodes, the proxy groups and the policies' own groups. */
module BuildOutbounds {
  import opened Wrappers
  import opened Text
  import opened Json
  import opened Positions
  import opened ProxySettings
  import opened Routing
  import opened RuleSets
  import opened CustomRules
  import opened Builder
  import opened References
  import opened PolicyDecisions
  import opened BuildDecisions

  // -------------------------------------------------------------------- nodes

  /** The interface a transport is pinned to: the loopback one for servers behind it. */
  function InterfaceFor(node: Json, x: Surroundings): string
    requires x.interface.Some?
  {
    match Get(node, "server")
    case Some(Str(server)) => if server in x.loopbackServers then x.loopbackInterface else x.interface.value
    case _ => x.interface.value
  }

  /** The same outbound, pinned to an interface under a tunnel unless it names one itself. */
  ghost predicate CarriedAs(node: Json, emitted: Json, s: Settings, x: Surroundings) {
    && (forall key :: key != "bind_interface" ==> Get(emitted, key) == Get(node, key))
    && Get(emitted, "bind_interface") ==
         if Get(node, "bind_interface").Some? then Get(node, "bind_interface")
         else if node.Obj? && TunEnabled(s) && x.interface.Some? then Some(Str(InterfaceFor(node, x)))
         else None
  }

  lemma BoundCarries(nodes: seq<Json>, s: Settings, x: Surroundings, i: nat)
    requires i < |nodes|
    ensures |BindAll(nodes, s, x)| == |nodes| && CarriedAs(nodes[i], BindAll(nodes, s, x)[i], s, x)
  {
  }

  predicate IsDirect(node: Json, s: Settings, x: Surroundings) {
    && Get(node, "type") == Some(Str("direct")) && Get(node, "tag") == Some(Str("direct"))
    && Get(node, "bind_interface") ==
         if TunEnabled(s) && x.interface.Some? then Some(Str(x.interface.value)) else None
  }

  lemma DirectIsPinned(s: Settings, x: Surroundings)
    ensures IsDirect(DirectOutbound(s, x), s, x)
  {
  }

  ghost predicate AllCarried(nodes: seq<Json>, emitted: seq<Json>, s: Settings, x: Surroundings) {
    |nodes| == |emitted| && forall i :: 0 <= i < |nodes| ==> CarriedAs(nodes[i], emitted[i], s, x)
  }

  lemma BoundCarriesAll(nodes: seq<Json>, s: Settings, x: Surroundings)
    ensures AllCarried(nodes, BindAll(nodes, s, x), s, x)
  {
    forall i | 0 <= i < |nodes|
      ensures |BindAll(nodes, s, x)| == |nodes| && CarriedAs(nodes[i], BindAll(nodes, s, x)[i], s, x)
    {
      BoundCarries(nodes, s, x, i);
    }
    assert |BindAll(nodes, s, x)| == |nodes|;
  }

  /** The direct outbound, the bootstrap node and, with a subscription, every node of the inventory in order. */
  lemma NodesCarryInventory(s: Settings, x: Surroundings, inventory: seq<Json>)
    ensures var nodes, first := NodesOf(s, x, inventory), if x.bootstrap.BootstrapNode? then 2 else 1;
      && |nodes| >= first && IsDirect(nodes[0], s, x)
      && (x.bootstrap.BootstrapNode? ==> CarriedAs(x.bootstrap.node, nodes[1], s, x))
      && (if s.subscriptions == [] then nodes[first..] == [] else AllCarried(inventory, nodes[first..], s, x))
  {
    var bootstrap := if x.bootstrap.BootstrapNode? then BindAll([x.bootstrap.node], s, x) else [];
    var rest := if s.subscriptions == [] then [] else BindAll(inventory, s, x);
    DirectIsPinned(s, x);
    if x.bootstrap.BootstrapNode? {
      BoundCarries([x.bootstrap.node], s, x, 0);
    }
    BoundCarriesAll(inventory, s, x);
    assert NodesOf(s, x, inventory) == [DirectOutbound(s, x)] + bootstrap + rest;
    assert ([DirectOutbound(s, x)] + bootstrap + rest)[1 + |bootstrap|..] == rest;
  }

  // -------------------------------------------------------------------- groups

  /** A group that tests its members and uses the fastest. */
  predicate TestsMembers(group: Json, tag: string, members: seq<string>, url: string, seconds: nat, tolerance: nat) {
    && Get(group, "type") == Some(Str("urltest")) && Get(group, "tag") == Some(Str(tag))
    && Get(group, "outbounds") == Some(Strs(members)) && Get(group, "url") == Some(Str(url))
    && Get(group, "interval") == Some(Str(Digits(seconds) + "s")) && Get(group, "tolerance") == Some(Num(tolerance))
  }

  predicate SelectsAmong(group: Json, members: seq<string>) {
    && Get(group, "type") == Some(Str("selector")) && Get(group, "tag") == Some(Str("Proxy"))
    && Get(group, "outbounds") == Some(Strs(["Auto"] + members))
    && Get(group, "default") == Some(Str(if |members| == 1 then members[0] else "Auto"))
  }

  lemma UrlTestTests(tag: string, members: seq<string>, url: string, seconds: nat, tolerance: nat)
    ensures TestsMembers(UrlTest(tag, members, url, seconds, tolerance), tag, members, url, seconds, tolerance)
  {
  }

  lemma SelectorSelects(members: seq<string>)
    requires members != []
    ensures SelectsAmong(Selector(members), members)
  {
  }

  /** The groups of a build: those over the members, then those of the policies. */
  lemma BuildGroups(s: Settings, x: Surroundings, hasRules: bool, inventory: seq<Json>)
    returns (members: seq<string>, available: set<string>)
    requires Build(s, x, hasRules, inventory).Ok?
    ensures MemberTags(s, inventory) == Ok(members)
    ensures var b := Build(s, x, hasRules, inventory).value;
      var policies := AfterPolicies(|s.domainRules|, available, b.proxyFinal, s, x);
      && Offered(available, b.nodes) && policies.Ok?
      && b.groups == ProxyGroups(members, s.healthCheckUrl) + policies.value.outbounds
  {
    var b := Build(s, x, hasRules, inventory).value;
    members := MemberTags(s, inventory).value;
    available := RuleTags(b.nodes + ProxyGroups(members, s.healthCheckUrl));
    OfferedByNodes(b.nodes, members, s.healthCheckUrl);
  }

  /** The proxy groups stand over the usable nodes of the inventory, in their order, when there are any. */
  lemma ProxyGroupsOverUsable(s: Settings, x: Surroundings, hasRules: bool, inventory: seq<Json>)
    returns (members: seq<string>, positions: seq<nat>)
    requires Build(s, x, hasRules, inventory).Ok?
    ensures MembersAt(s, inventory, members, positions)
    ensures var groups := Build(s, x, hasRules, inventory).value.groups;
      members != [] ==>
        |groups| >= 2 && TestsMembers(groups[0], "Auto", members, s.healthCheckUrl, 300, 100)
        && SelectsAmong(groups[1], members)
  {
    positions := MembersInOrder(s, inventory);
    var available;
    members, available := BuildGroups(s, x, hasRules, inventory);
    if members != [] {
      UrlTestTests("Auto", members, s.healthCheckUrl, 300, 100);
      SelectorSelects(members);
    }
  }

  // ------------------------------------------------------------ groups of policies

  function OfferedAt(tags: seq<string>, n: nat, nodes: seq<Json>): set<nat>
    requires n <= |tags|
  {
    set i: nat | i < n && Offers(nodes, tags[i])
  }

  predicate PickedAt(tags: seq<string>, picked: seq<string>, positions: seq<nat>) {
    && |picked| == |positions|
    && forall k :: 0 <= k < |picked| ==> positions[k] < |tags| && picked[k] == tags[positions[k]]
  }

  /** The tags a policy names that there are, in its order. */
  ghost predicate ResolvesTo(tags: seq<string>, nodes: seq<Json>, resolved: seq<string>, positions: seq<nat>) {
    Lists(positions, OfferedAt(tags, |tags|, nodes)) && PickedAt(tags, resolved, positions)
  }

  lemma {:induction false} AvailableSnoc(tags: seq<string>, available: set<string>, i: nat)
    requires i < |tags|
    ensures Available(tags[..i + 1], available)
      == Available(tags[..i], available) + (if tags[i] in available then [tags[i]] else [])
  {
    if i > 0 {
      AvailableSnoc(tags[1..], available, i - 1);
      assert tags[..i + 1][1..] == tags[1..][..i] && tags[..i][1..] == tags[1..][..i - 1];
    }
  }

  lemma OfferedNext(tags: seq<string>, n: nat, nodes: seq<Json>)
    requires n < |tags|
    ensures OfferedAt(tags, n + 1, nodes) == OfferedAt(tags, n, nodes) + if Offers(nodes, tags[n]) then {n} else {}
  {
  }

  lemma {:induction false} ResolvedPrefix(tags: seq<string>, available: set<string>, nodes: seq<Json>, n: nat)
    returns (positions: seq<nat>)
    requires n <= |tags| && Offered(available, nodes)
    ensures Lists(positions, OfferedAt(tags, n, nodes)) && PickedAt(tags, Available(tags[..n], available), positions)
  {
    if n == 0 {
      positions := [];
    } else {
      positions := ResolvedPrefix(tags, available, nodes, n - 1);
      AvailableSnoc(tags, available, n - 1);
      OfferedNext(tags, n - 1, nodes);
      if tags[n - 1] in available {
        ListsSnoc(positions, OfferedAt(tags, n - 1, nodes), n - 1);
        positions := positions + [n - 1];
      }
    }
  }

  /** The policy gets a group of its own. */
  predicate HasOwnGroup(policy: DomainRule, nodes: seq<Json>) {
    && policy.enabled && policy.outbounds != ["direct"] && policy.outbounds != ["Proxy"]
    && OffersAny(nodes, policy.outbounds)
  }

  /** The group of a policy: its own settings, or those of the proxy and the defaults. */
  predicate IsGroupOf(group: Json, policy: DomainRule, resolved: seq<string>, s: Settings) {
    TestsMembers(
      group, "domain-proxy:" + Trim(policy.name), resolved,
      match policy.healthCheckUrl { case Some(url) => url case None => s.healthCheckUrl },
      match policy.interval { case Some(seconds) => seconds case None => 300 },
      match policy.tolerance { case Some(tolerance) => tolerance case None => 100 })
  }

  lemma OwnGroupAdded(
    g: Groups, policy: DomainRule, available: set<string>, nodes: seq<Json>, fallback: string, s: Settings,
    x: Surroundings)
    requires Offered(available, nodes) && AddPolicy(g, policy, available, fallback, s, x).Ok?
    ensures var after := AddPolicy(g, policy, available, fallback, s, x).value.outbounds;
      && g.outbounds <= after
      && (HasOwnGroup(policy, nodes) ==>
            |after| > 0 && IsGroupOf(after[|after| - 1], policy, Available(policy.outbounds, available), s))
  {
    if HasOwnGroup(policy, nodes) {
      OwnGroupLast(g, policy, available, nodes, fallback, s, x);
    }
  }

  lemma OwnGroupLast(
    g: Groups, policy: DomainRule, available: set<string>, nodes: seq<Json>, fallback: string, s: Settings,
    x: Surroundings)
    requires Offered(available, nodes) && AddPolicy(g, policy, available, fallback, s, x).Ok?
    requires HasOwnGroup(policy, nodes)
    ensures var after := AddPolicy(g, policy, available, fallback, s, x).value.outbounds;
      |after| > 0 && IsGroupOf(after[|after| - 1], policy, Available(policy.outbounds, available), s)
  {
    AvailableIff(policy.outbounds, available);
    var tag, resolved := "domain-proxy:" + Trim(policy.name), Available(policy.outbounds, available);
    var url := if policy.healthCheckUrl.Some? then policy.healthCheckUrl.value else s.healthCheckUrl;
    UrlTestTests(tag, resolved, url, ValueOr(policy.interval, 300), ValueOr(policy.tolerance, 100));
  }

  /** Every policy with nodes to choose from gets a group over them. */
  lemma {:induction false} OwnGroupEmitted(
    n: nat, available: set<string>, nodes: seq<Json>, fallback: string, s: Settings, x: Surroundings, i: nat)
    returns (k: nat)
    requires i < n <= |s.domainRules| && Offered(available, nodes) && AfterPolicies(n, available, fallback, s, x).Ok?
    requires HasOwnGroup(s.domainRules[i], nodes)
    ensures var emitted := AfterPolicies(n, available, fallback, s, x).value.outbounds; var policy := s.domainRules[i];
      k < |emitted| && IsGroupOf(emitted[k], policy, Available(policy.outbounds, available), s)
  {
    var before := AfterPolicies(n - 1, available, fallback, s, x).value;
    OwnGroupAdded(before, s.domainRules[n - 1], available, nodes, fallback, s, x);
    if i == n - 1 {
      k := |AfterPolicies(n, available, fallback, s, x).value.outbounds| - 1;
    } else {
      k := OwnGroupEmitted(n - 1, available, nodes, fallback, s, x, i);
    }
  }

  lemma OwnGroupAmong(
    available: set<string>, nodes: seq<Json>, fallback: string, s: Settings, x: Surroundings, i: nat,
    first: seq<Json>, groups: seq<Json>) returns (k: nat, resolved: seq<string>, positions: seq<nat>)
    requires i < |s.domainRules| && Offered(available, nodes) && HasOwnGroup(s.domainRules[i], nodes)
    requires AfterPolicies(|s.domainRules|, available, fallback, s, x).Ok?
    requires groups == first + AfterPolicies(|s.domainRules|, available, fallback, s, x).value.outbounds
    ensures var policy := s.domainRules[i];
      && k < |groups| && IsGroupOf(groups[k], policy, resolved, s)
      && ResolvesTo(policy.outbounds, nodes, resolved, positions)
      && PolicyOutbound(policy, nodes, fallback) == TagOf(groups[k])
  {
    var policy := s.domainRules[i];
    k := OwnGroupEmitted(|s.domainRules|, available, nodes, fallback, s, x, i);
    resolved := Available(policy.outbounds, available);
    positions := ResolvedPrefix(policy.outbounds, available, nodes, |policy.outbounds|);
    assert policy.outbounds[..|policy.outbounds|] == policy.outbounds;
    k := |first| + k;
  }

  /** In every build, with the members in the policy's order and its tag what the policy's flows are routed to. */
  lemma PolicyGroupsOverOffered(s: Settings, x: Surroundings, hasRules: bool, inventory: seq<Json>, i: nat)
    returns (k: nat, resolved: seq<string>, positions: seq<nat>)
    requires Build(s, x, hasRules, inventory).Ok? && i < |s.domainRules|
    requires HasOwnGroup(s.domainRules[i], Build(s, x, hasRules, inventory).value.nodes)
    ensures var b, policy := Build(s, x, hasRules, inventory).value, s.domainRules[i];
      && k < |b.groups| && IsGroupOf(b.groups[k], policy, resolved, s)
      && ResolvesTo(policy.outbounds, b.nodes, resolved, positions)
      && PolicyOutbound(policy, b.nodes, b.proxyFinal) == TagOf(b.groups[k])
  {
    var b := Build(s, x, hasRules, inventory).value;
    var members, available := BuildGroups(s, x, hasRules, inventory);
    var first := ProxyGroups(members, s.healthCheckUrl);
    k, resolved, positions := OwnGroupAmong(available, b.nodes, b.proxyFinal, s, x, i, first, b.groups);
  }

  // ------------------------------------------------------------------ rule-sets

  const SET_FILES := {
    "reject", "icloud", "apple", "google", "proxy", "direct", "private", "gfw", "telegramcidr", "cncidr", "lancidr",
    "applications"}

  /** With rules on, the rule-sets of a build are those with a valid file and the two remote ones. */
  lemma RuleSetsOfBuild(s: Settings, x: Surroundings, hasRules: bool, inventory: seq<Json>, tag: string)
    requires Build(s, x, hasRules, inventory).Ok?
    ensures tag in Build(s, x, hasRules, inventory).value.ruleSets <==>
      hasRules && (tag == "geoip-cn" || tag == "geosite-cn" || (tag in SET_FILES && tag in x.ruleFiles))
  {
    DefinedIff(x, tag);
  }

  lemma DefinedIff(x: Surroundings, tag: string)
    ensures tag in DefinedSets(x) <==>
      tag == "geoip-cn" || tag == "geosite-cn" || (tag in SET_FILES && tag in x.ruleFiles)
  {
    assert tag in SET_FILES <==> tag == "applications" || tag in CORE_RULE_SETS by {
      var names := CORE_RULE_SETS;
      assert names[0] == "reject" && names[1] == "icloud" && names[2] == "apple" && names[3] == "google";
      assert names[4] == "proxy" && names[5] == "direct" && names[6] == "private" && names[7] == "gfw";
      assert names[8] == "telegramcidr" && names[9] == "cncidr" && names[10] == "lancidr";
    }
  }
}

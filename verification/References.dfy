/** Every tag the compiled document mentions is one it defines. */
module References {
  import opened Wrappers
  import opened Text
  import opened Json
  import opened ProxySettings
  import opened ControlPlane
  import opened Routing
  import opened RuleSets
  import opened CustomRules
  import opened Builder

  predicate HasTag(outbounds: seq<Json>, tag: string) {
    exists i :: 0 <= i < |outbounds| && TagOf(outbounds[i]) == Some(tag)
  }

  predicate AllHave(outbounds: seq<Json>, tags: seq<string>) {
    forall i :: 0 <= i < |tags| ==> HasTag(outbounds, tags[i])
  }

  lemma {:induction false} TagsOfComplete(outbounds: seq<Json>, tag: string)
    ensures tag in TagsOf(outbounds) <==> HasTag(outbounds, tag)
  {
    if outbounds != [] {
      TagsOfComplete(outbounds[1..], tag);
      var head := if TagOf(outbounds[0]).Some? then [TagOf(outbounds[0]).value] else [];
      assert tag in TagsOf(outbounds) <==> tag in head || tag in TagsOf(outbounds[1..]);
      if HasTag(outbounds, tag) {
        var i :| 0 <= i < |outbounds| && TagOf(outbounds[i]) == Some(tag);
        if i > 0 {
          assert outbounds[1..][i - 1] == outbounds[i];
        }
      }
      if HasTag(outbounds[1..], tag) {
        var i :| 0 <= i < |outbounds[1..]| && TagOf(outbounds[1..][i]) == Some(tag);
        assert outbounds[i + 1] == outbounds[1..][i];
      }
    }
  }

  lemma HasTagGrows(a: seq<Json>, b: seq<Json>, tag: string)
    ensures HasTag(a + b, tag) <==> HasTag(a, tag) || HasTag(b, tag)
  {
    if HasTag(a, tag) {
      var i :| 0 <= i < |a| && TagOf(a[i]) == Some(tag);
      assert (a + b)[i] == a[i];
    }
    if HasTag(b, tag) {
      var i :| 0 <= i < |b| && TagOf(b[i]) == Some(tag);
      assert (a + b)[|a| + i] == b[i];
    }
  }

  lemma BindKeepsTag(node: Json, x: Surroundings)
    ensures TagOf(Bind(node, x)) == TagOf(node)
  {
  }

  lemma BindAllKeepsTags(nodes: seq<Json>, s: Settings, x: Surroundings, tag: string)
    ensures HasTag(BindAll(nodes, s, x), tag) <==> HasTag(nodes, tag)
  {
    var bound := BindAll(nodes, s, x);
    forall i | 0 <= i < |nodes| ensures TagOf(bound[i]) == TagOf(nodes[i]) {
      BindKeepsTag(nodes[i], x);
    }
  }

  lemma {:induction false} SelectedAvailable(available: seq<string>, active: seq<string>)
    ensures forall i :: 0 <= i < |Selected(available, active)| ==> Selected(available, active)[i] in available
  {
    if available != [] {
      SelectedAvailable(available[1..], active);
    }
  }

  lemma {:induction false} AvailableIn(tags: seq<string>, available: set<string>)
    ensures forall i :: 0 <= i < |Available(tags, available)| ==> Available(tags, available)[i] in available
  {
    if tags != [] {
      AvailableIn(tags[1..], available);
    }
  }

  /** A group names only outbounds that exist, as members and as its default. */
  predicate GroupClosed(group: Json, outbounds: seq<Json>) {
    && (match Get(group, "outbounds")
        case Some(Arr(members)) => forall i :: 0 <= i < |members| ==> members[i].Str? && HasTag(outbounds, members[i].s)
        case _ => false)
    && (match Get(group, "default") case Some(Str(tag)) => HasTag(outbounds, tag) case None => true case _ => false)
  }

  predicate RuleClosed(rule: Json, outbounds: seq<Json>) {
    match Get(rule, "outbound") case None => true case Some(Str(tag)) => HasTag(outbounds, tag) case _ => false
  }

  predicate GroupsClosed(groups: seq<Json>, outbounds: seq<Json>) {
    forall i :: 0 <= i < |groups| ==> GroupClosed(groups[i], outbounds)
  }

  predicate RulesClosed(rules: seq<Json>, outbounds: seq<Json>) {
    forall i :: 0 <= i < |rules| ==> RuleClosed(rules[i], outbounds)
  }

  lemma UrlTestClosed(
    tag: string, members: seq<string>, url: string, interval: nat, tolerance: nat, outbounds: seq<Json>)
    requires AllHave(outbounds, members)
    ensures GroupClosed(UrlTest(tag, members, url, interval, tolerance), outbounds)
    ensures TagOf(UrlTest(tag, members, url, interval, tolerance)) == Some(tag)
  {
  }

  lemma SelectorClosed(members: seq<string>, outbounds: seq<Json>)
    requires members != [] && AllHave(outbounds, members) && HasTag(outbounds, "Auto")
    ensures GroupClosed(Selector(members), outbounds) && TagOf(Selector(members)) == Some("Proxy")
  {
    var all := ["Auto"] + members;
    assert forall i :: 0 <= i < |all| ==> HasTag(outbounds, all[i]);
    assert HasTag(outbounds, members[0]);
  }

  lemma GroupClosedGrows(group: Json, a: seq<Json>, b: seq<Json>)
    requires GroupClosed(group, a)
    ensures GroupClosed(group, a + b)
  {
    forall tag | HasTag(a, tag) ensures HasTag(a + b, tag) {
      HasTagGrows(a, b, tag);
    }
  }

  lemma RuleClosedGrows(rule: Json, a: seq<Json>, b: seq<Json>)
    requires RuleClosed(rule, a)
    ensures RuleClosed(rule, a + b)
  {
    forall tag | HasTag(a, tag) ensures HasTag(a + b, tag) {
      HasTagGrows(a, b, tag);
    }
  }

  // --------------------------------------------------------- user policies

  /** What the policies compiled so far refer to, on top of the outbounds emitted before them. */
  predicate PoliciesClosed(g: Groups, base: seq<Json>) {
    && GroupsClosed(g.outbounds, base)
    && RulesClosed(g.routes, base + g.outbounds)
    && forall i :: 0 <= i < |g.routes| ==> Get(g.routes[i], "rule_set").None?
  }

  lemma CustomRuleRefs(policy: DomainRule, outbound: string, x: Surroundings)
    requires CustomRule(policy, outbound, x).Ok?
    ensures var rule := CustomRule(policy, outbound, x).value;
      Get(rule, "outbound") == Some(Str(outbound)) && Get(rule, "rule_set").None?
  {
    FieldPresent(MatchersOf(policy, x).value, outbound, "outbound");
    assert "rule_set" !in RULE_KEYS;
  }

  lemma PushRouteClosed(
    g: Groups, policy: DomainRule, name: string, more: seq<Json>, outbound: string, x: Surroundings, base: seq<Json>)
    requires PoliciesClosed(g, base) && GroupsClosed(more, base)
    requires HasTag(base + (g.outbounds + more), outbound)
    requires PushRoute(g, policy, name, more, outbound, x).Ok?
    ensures PoliciesClosed(PushRoute(g, policy, name, more, outbound, x).value, base)
  {
    CustomRuleRefs(policy, outbound, x);
    forall i | 0 <= i < |g.routes| ensures RuleClosed(g.routes[i], base + (g.outbounds + more)) {
      RuleClosedGrows(g.routes[i], base + g.outbounds, more);
      assert base + g.outbounds + more == base + (g.outbounds + more);
    }
  }

  lemma AddPolicyClosed(g: Groups, policy: DomainRule, fallback: string, s: Settings, x: Surroundings, base: seq<Json>)
    requires PoliciesClosed(g, base) && HasTag(base, "direct") && HasTag(base, fallback)
    requires AddPolicy(g, policy, RuleTags(base), fallback, s, x).Ok?
    ensures PoliciesClosed(AddPolicy(g, policy, RuleTags(base), fallback, s, x).value, base)
  {
    var name := Trim(policy.name);
    HasTagGrows(base, g.outbounds + [], "direct");
    HasTagGrows(base, g.outbounds + [], fallback);
    if policy.enabled && policy.outbounds != ["direct"] && policy.outbounds != ["Proxy"] {
      var resolved := Available(policy.outbounds, RuleTags(base));
      if resolved != [] {
        AvailableIn(policy.outbounds, RuleTags(base));
        forall i | 0 <= i < |resolved| ensures HasTag(base, resolved[i]) {
          TagsOfComplete(base, resolved[i]);
        }
        var tag := "domain-proxy:" + name;
        var url := if policy.healthCheckUrl.Some? then policy.healthCheckUrl.value else s.healthCheckUrl;
        var group := UrlTest(tag, resolved, url, ValueOr(policy.interval, 300), ValueOr(policy.tolerance, 100));
        UrlTestClosed(tag, resolved, url, ValueOr(policy.interval, 300), ValueOr(policy.tolerance, 100), base);
        assert TagOf((g.outbounds + [group])[|g.outbounds|]) == Some(tag);
        HasTagGrows(base, g.outbounds + [group], tag);
        PushRouteClosed(g, policy, name, [group], tag, x, base);
      } else if fallback != "direct" {
        PushRouteClosed(g, policy, name, [], fallback, x, base);
      }
    } else if policy.enabled {
      PushRouteClosed(g, policy, name, [], if policy.outbounds == ["direct"] then "direct" else fallback, x, base);
    }
  }

  lemma {:induction false} AfterPoliciesClosed(n: nat, fallback: string, s: Settings, x: Surroundings, base: seq<Json>)
    requires n <= |s.domainRules| && HasTag(base, "direct") && HasTag(base, fallback)
    requires AfterPolicies(n, RuleTags(base), fallback, s, x).Ok?
    ensures PoliciesClosed(AfterPolicies(n, RuleTags(base), fallback, s, x).value, base)
  {
    if n > 0 {
      AfterPoliciesClosed(n - 1, fallback, s, x, base);
      AddPolicyClosed(AfterPolicies(n - 1, RuleTags(base), fallback, s, x).value, s.domainRules[n - 1], fallback,
        s, x, base);
    }
  }

  // ------------------------------------------------------------ fixed rules

  /** A rule that goes nowhere, direct or to the proxy group, and uses no rule-set. */
  predicate Plain(rule: Json, proxy: string) {
    && (var o := Get(rule, "outbound"); o.None? || o == Some(Str("direct")) || o == Some(Str(proxy)))
    && Get(rule, "rule_set").None?
  }

  predicate AllPlain(rules: seq<Json>, proxy: string) {
    forall i :: 0 <= i < |rules| ==> Plain(rules[i], proxy)
  }

  lemma PinPlain(rule: map<string, Json>, process: map<string, Json>, proxy: string)
    requires "inbound" in process && Plain(Obj(rule), proxy)
    ensures Plain(Obj(PinToProcess(rule, process)), proxy)
  {
    assert "outbound" !in PROCESS_MATCH_KEYS && "rule_set" !in PROCESS_MATCH_KEYS;
  }

  lemma HealthPlain(s: Settings, x: Surroundings, proxy: string)
    ensures AllPlain(MeshHealthRules(s, x, proxy), proxy) && AllPlain(HealthRules(x, proxy), proxy)
  {
    var process, health := ProcessBypassRules(s, x), HealthCheckRule(x, proxy);
    if health.Some? {
      assert Plain(Obj(health.value), proxy);
      if process != [] && x.healthPort.Some? {
        PinPlain(health.value, process[0].fields, proxy);
        var port := Arr([Num(x.healthPort.value)]);
        var sniff := map["action" := Str("sniff"), "network" := Str("tcp"), "port" := port,
                         "sniffer" := Strs(["http", "tls"]), "timeout" := Str("2s")];
        PinPlain(sniff, process[0].fields, proxy);
      }
    }
  }

  lemma {:induction false} PeersPlain(cidrs: seq<string>, proxy: string)
    ensures AllPlain(PeerRulesFor(cidrs), proxy)
  {
    if cidrs != [] {
      assert AllPlain(PeerRules(cidrs[0]), proxy);
      PeersPlain(cidrs[1..], proxy);
    }
  }

  lemma BypassPlain(s: Settings, x: Surroundings, proxy: string)
    ensures AllPlain(ProcessBypassRules(s, x), proxy) && AllPlain(PeerBypassRules(s, x), proxy)
  {
    PeersPlain(PeerCidrs(s, x), proxy);
  }

  lemma HijackPlain(s: Settings, proxy: string)
    ensures AllPlain(DnsHijackRules(s), proxy) && AllPlain(SniffRules(s), proxy)
  {
  }

  lemma ItemPlain(key: string, value: Json, outbound: string, proxy: string)
    requires key != "outbound" && key != "rule_set" && (outbound == "direct" || outbound == proxy)
    ensures Plain(ItemRule(key, value, outbound), proxy)
  {
  }

  lemma PlainClosed(rules: seq<Json>, proxy: string, outbounds: seq<Json>)
    requires AllPlain(rules, proxy) && HasTag(outbounds, "direct") && HasTag(outbounds, proxy)
    ensures RulesClosed(rules, outbounds)
  {
  }

  lemma SegmentsClosed(proxy: string, outbounds: seq<Json>)
    requires HasTag(outbounds, "direct") && HasTag(outbounds, proxy)
    ensures RulesClosed(DomesticRules(), outbounds) && RulesClosed(ProxiedRules(proxy), outbounds)
    ensures RulesClosed(AddressRules(), outbounds)
  {
  }

  lemma FetchRulesClosed(proxy: string, outbounds: seq<Json>)
    requires HasTag(outbounds, "direct") && HasTag(outbounds, proxy)
    ensures RulesClosed(FetchRules(proxy), outbounds)
  {
  }

  lemma ListRulesClosed(s: Settings, x: Surroundings, hasRules: bool, proxy: string, outbounds: seq<Json>)
    requires HasTag(outbounds, "direct") && HasTag(outbounds, proxy)
    ensures RulesClosed(ListRules(s, x, hasRules, proxy), outbounds)
  {
    SegmentsClosed(proxy, outbounds);
    FetchRulesClosed(proxy, outbounds);
  }

  lemma LateRulesClosed(s: Settings, x: Surroundings, hasRules: bool, proxy: string, outbounds: seq<Json>)
    requires HasTag(outbounds, "direct") && HasTag(outbounds, proxy)
    ensures RulesClosed(LateRules(s, x, hasRules, proxy), outbounds)
  {
    ListRulesClosed(s, x, hasRules, proxy, outbounds);
    HealthPlain(s, x, proxy);
    PlainClosed(HealthRules(x, proxy), proxy, outbounds);
    assert RulesClosed(ModeRules(proxy), outbounds);
    assert RuleClosed(ItemRule("clash_mode", Str("rule"), RouteFinal(hasRules, proxy)), outbounds);
  }

  lemma EarlyRulesClosed(s: Settings, x: Surroundings, proxy: string, routes: seq<Json>, outbounds: seq<Json>)
    requires HasTag(outbounds, "direct") && HasTag(outbounds, proxy) && RulesClosed(routes, outbounds)
    ensures RulesClosed(EarlyRules(s, x, proxy, routes), outbounds)
  {
    HealthPlain(s, x, proxy);
    BypassPlain(s, x, proxy);
    HijackPlain(s, proxy);
    PlainClosed(MeshHealthRules(s, x, proxy), proxy, outbounds);
    PlainClosed(ProcessBypassRules(s, x), proxy, outbounds);
    PlainClosed(PeerBypassRules(s, x), proxy, outbounds);
    PlainClosed(DnsHijackRules(s), proxy, outbounds);
    PlainClosed(SniffRules(s), proxy, outbounds);
  }

  /** The proxy groups emitted over the nodes refer only to nodes and to each other. */
  lemma ProxyGroupsClosed(s: Settings, x: Surroundings, nodes: seq<Json>, inventory: seq<Json>, members: seq<string>)
    requires MemberTags(s, inventory) == Ok(members)
    requires s.subscriptions != [] ==> forall tag :: HasTag(inventory, tag) ==> HasTag(nodes, tag)
    ensures var groups := ProxyGroups(members, s.healthCheckUrl);
      GroupsClosed(groups, nodes + groups) && (members != [] ==> HasTag(nodes + groups, "Proxy"))
  {
    if members != [] {
      var groups := ProxyGroups(members, s.healthCheckUrl);
      var base := nodes + groups;
      SelectedAvailable(TagsOf(inventory), s.activeNodes);
      forall i | 0 <= i < |members| ensures HasTag(base, members[i]) {
        TagsOfComplete(inventory, members[i]);
        HasTagGrows(nodes, groups, members[i]);
      }
      UrlTestClosed("Auto", members, s.healthCheckUrl, 300, 100, base);
      assert base[|nodes|] == groups[0] && base[|nodes| + 1] == groups[1];
      SelectorClosed(members, base);
    }
  }

  predicate Closed(b: Built) {
    && RulesClosed(b.Rules(), b.Outbounds())
    && HasTag(b.Outbounds(), b.final)
    && GroupsClosed(b.groups, b.Outbounds())
  }

  lemma NodesHave(s: Settings, x: Surroundings, bootstrap: seq<Json>, inventory: seq<Json>)
    ensures HasTag(NodeOutbounds(s, x, bootstrap, inventory), "direct")
    ensures s.subscriptions != [] ==>
      forall tag :: HasTag(inventory, tag) ==> HasTag(NodeOutbounds(s, x, bootstrap, inventory), tag)
  {
    var nodes := NodeOutbounds(s, x, bootstrap, inventory);
    assert TagOf(nodes[0]) == Some("direct");
    if s.subscriptions != [] {
      forall tag | HasTag(inventory, tag) ensures HasTag(nodes, tag) {
        BindAllKeepsTags(inventory, s, x, tag);
        HasTagGrows([DirectOutbound(s, x)] + bootstrap, BindAll(inventory, s, x), tag);
      }
    }
  }

  /** How the parts of a build fit together. */
  predicate Assembled(b: Built, g: Groups, groups: seq<Json>, s: Settings, x: Surroundings, hasRules: bool) {
    && b.groups == groups + g.outbounds
    && b.early == EarlyRules(s, x, b.proxyFinal, g.routes) && b.late == LateRules(s, x, hasRules, b.proxyFinal)
    && b.final == RouteFinal(hasRules, b.proxyFinal)
    && b.ruleSets == (if hasRules then DefinedSets(x) else {})
    && (b.dnsRules == [] || b.dnsRules == DnsRules(hasRules))
    && var base := b.nodes + groups;
      HasTag(base, "direct") && HasTag(base, b.proxyFinal) && GroupsClosed(groups, base) && PoliciesClosed(g, base)
  }

  lemma BuildAssembles(
    s: Settings, x: Surroundings, hasRules: bool, inventory: seq<Json>) returns (g: Groups, groups: seq<Json>)
    requires Build(s, x, hasRules, inventory).Ok?
    ensures Assembled(Build(s, x, hasRules, inventory).value, g, groups, s, x, hasRules)
  {
    var b := Build(s, x, hasRules, inventory).value;
    var members := MemberTags(s, inventory).value;
    groups := ProxyGroups(members, s.healthCheckUrl);
    var base := b.nodes + groups;
    NodesHave(s, x, BootstrapNodes(s, x).value, inventory);
    ProxyGroupsClosed(s, x, b.nodes, inventory, members);
    HasTagGrows(b.nodes, groups, "direct");
    AfterPoliciesClosed(|s.domainRules|, b.proxyFinal, s, x, base);
    g := AfterPolicies(|s.domainRules|, RuleTags(base), b.proxyFinal, s, x).value;
  }

  lemma AssembledClosed(b: Built, g: Groups, groups: seq<Json>, s: Settings, x: Surroundings, hasRules: bool)
    requires Assembled(b, g, groups, s, x, hasRules)
    ensures Closed(b)
  {
    var base := b.nodes + groups;
    var outbounds := base + g.outbounds;
    assert b.Outbounds() == outbounds;
    HasTagGrows(base, g.outbounds, "direct");
    HasTagGrows(base, g.outbounds, b.proxyFinal);
    AllGroupsClosed(groups, g.outbounds, base);
    EarlyRulesClosed(s, x, b.proxyFinal, g.routes, outbounds);
    LateRulesClosed(s, x, hasRules, b.proxyFinal, outbounds);
  }

  /**
  No dangling references: on all settings and inventories on which the build succeeds,
  every route outbound, the final outbound and every group member and default names an
  emitted outbound.
  */
  lemma NoDanglingOutbounds(s: Settings, x: Surroundings, hasRules: bool, inventory: seq<Json>)
    requires Build(s, x, hasRules, inventory).Ok?
    ensures Closed(Build(s, x, hasRules, inventory).value)
  {
    var g, groups := BuildAssembles(s, x, hasRules, inventory);
    AssembledClosed(Build(s, x, hasRules, inventory).value, g, groups, s, x, hasRules);
  }

  lemma AllGroupsClosed(groups: seq<Json>, policies: seq<Json>, base: seq<Json>)
    requires GroupsClosed(groups, base) && GroupsClosed(policies, base)
    ensures GroupsClosed(groups + policies, base + policies)
  {
    forall i | 0 <= i < |groups + policies| ensures GroupClosed((groups + policies)[i], base + policies) {
      GroupClosedGrows((groups + policies)[i], base, policies);
    }
  }

  // -------------------------------------------------------------- rule-sets

  predicate SetsDefined(rules: seq<Json>, sets: set<string>) {
    forall i :: 0 <= i < |rules| ==> RuleSetsDefined(rules[i], sets)
  }

  predicate RuleSetsDefined(rule: Json, sets: set<string>) {
    match Get(rule, "rule_set")
    case None => true
    case Some(Arr(tags)) => forall i :: 0 <= i < |tags| ==> tags[i].Str? && tags[i].s in sets
    case _ => false
  }

  /** The core rule-sets some rule uses; `google` is required on disk and used by none. */
  const USED_RULE_SETS := {
    "private", "reject", "icloud", "apple", "direct", "gfw", "proxy", "telegramcidr", "lancidr", "cncidr"}

  lemma SetRuleUses(tags: seq<string>, outbound: string, sets: set<string>)
    ensures RuleSetsDefined(SetRule(tags, outbound), sets) <==> forall i :: 0 <= i < |tags| ==> tags[i] in sets
    ensures RuleSetsDefined(RejectRule(tags), sets) <==> forall i :: 0 <= i < |tags| ==> tags[i] in sets
  {
    var items := Strs(tags).items;
    assert forall i :: 0 <= i < |tags| ==> items[i] == Str(tags[i]);
  }

  lemma PlainUsesNone(rules: seq<Json>, proxy: string, sets: set<string>)
    requires AllPlain(rules, proxy)
    ensures SetsDefined(rules, sets)
  {
  }

  lemma SegmentsDefined(a: seq<Json>, b: seq<Json>, sets: set<string>)
    ensures SetsDefined(a + b, sets) <==> SetsDefined(a, sets) && SetsDefined(b, sets)
  {
    if SetsDefined(a + b, sets) {
      assert forall i :: 0 <= i < |a| ==> (a + b)[i] == a[i];
      assert forall i :: 0 <= i < |b| ==> (a + b)[|a| + i] == b[i];
    }
  }

  lemma DomesticDefined(sets: set<string>)
    ensures SetsDefined(DomesticRules(), sets)
      <==> (&& "private" in sets && "reject" in sets && "icloud" in sets
            && "apple" in sets && "geosite-cn" in sets && "direct" in sets)
  {
    var rules := DomesticRules();
    SetRuleUses(["private"], "direct", sets);
    SetRuleUses(["reject"], "direct", sets);
    SetRuleUses(["icloud"], "direct", sets);
    SetRuleUses(["apple"], "direct", sets);
    SetRuleUses(["geosite-cn", "direct"], "direct", sets);
    assert SetsDefined(rules, sets) <==>
      && RuleSetsDefined(rules[0], sets) && RuleSetsDefined(rules[1], sets) && RuleSetsDefined(rules[2], sets)
      && RuleSetsDefined(rules[3], sets) && RuleSetsDefined(rules[4], sets);
    assert ["private"][0] == "private" && ["reject"][0] == "reject";
    assert ["icloud"][0] == "icloud" && ["apple"][0] == "apple";
    assert ["geosite-cn", "direct"][0] == "geosite-cn" && ["geosite-cn", "direct"][1] == "direct";
  }

  lemma ProxiedDefined(proxy: string, sets: set<string>)
    ensures SetsDefined(ProxiedRules(proxy), sets) <==> "gfw" in sets && "proxy" in sets && "telegramcidr" in sets
  {
    var rules := ProxiedRules(proxy);
    SetRuleUses(["gfw", "proxy"], proxy, sets);
    SetRuleUses(["telegramcidr"], proxy, sets);
    assert SetsDefined(rules, sets) <==> RuleSetsDefined(rules[0], sets) && RuleSetsDefined(rules[1], sets);
    assert ["gfw", "proxy"][0] == "gfw" && ["gfw", "proxy"][1] == "proxy" && ["telegramcidr"][0] == "telegramcidr";
  }

  lemma AddressDefined(sets: set<string>)
    ensures SetsDefined(AddressRules(), sets) <==> "lancidr" in sets && "cncidr" in sets && "geoip-cn" in sets
  {
    var rules := AddressRules();
    SetRuleUses(["lancidr"], "direct", sets);
    SetRuleUses(["cncidr"], "direct", sets);
    SetRuleUses(["geoip-cn"], "direct", sets);
    ItemPlain("ip_is_private", Bool(true), "direct", "direct");
    assert SetsDefined(rules, sets) <==>
      && RuleSetsDefined(rules[0], sets) && RuleSetsDefined(rules[1], sets)
      && RuleSetsDefined(rules[2], sets) && RuleSetsDefined(rules[3], sets);
    assert ["lancidr"][0] == "lancidr" && ["cncidr"][0] == "cncidr" && ["geoip-cn"][0] == "geoip-cn";
  }

  predicate UsedDefined(sets: set<string>) {
    USED_RULE_SETS <= sets && "geosite-cn" in sets && "geoip-cn" in sets
  }

  lemma BuiltinDefined(proxy: string, applications: bool, sets: set<string>)
    requires applications ==> "applications" in sets
    ensures SetsDefined(BuiltinRules(proxy, applications), sets) <==> UsedDefined(sets)
  {
    var apps := if applications then [SetRule(["applications"], "direct")] else [];
    SetRuleUses(["applications"], "direct", sets);
    assert SetsDefined(apps, sets);
    SegmentsDefined(apps, DomesticRules(), sets);
    SegmentsDefined(apps + DomesticRules(), ProxiedRules(proxy), sets);
    SegmentsDefined(apps + DomesticRules() + ProxiedRules(proxy), AddressRules(), sets);
    DomesticDefined(sets);
    ProxiedDefined(proxy, sets);
    AddressDefined(sets);
  }

  lemma FetchPlain(proxy: string)
    ensures AllPlain(FetchRules(proxy), proxy)
  {
    ItemPlain("domain_suffix", Strs(["jsdelivr.net"]), proxy, proxy);
    ItemPlain("domain_suffix", Strs(["githubusercontent.com"]), proxy, proxy);
    ItemPlain("domain_suffix", Strs(["github.com"]), proxy, proxy);
    ItemPlain("domain_keyword", Strs(["github"]), proxy, proxy);
  }

  lemma LateRulesDefined(s: Settings, x: Surroundings, hasRules: bool, proxy: string, sets: set<string>)
    requires ApplicationsPresent(x) ==> "applications" in sets
    ensures SetsDefined(LateRules(s, x, hasRules, proxy), sets) <==> (hasRules ==> UsedDefined(sets))
  {
    var modes, health, lists := ModeRules(proxy), HealthRules(x, proxy), ListRules(s, x, hasRules, proxy);
    var last := [ItemRule("clash_mode", Str("rule"), RouteFinal(hasRules, proxy))];
    ItemPlain("clash_mode", Str("direct"), "direct", proxy);
    ItemPlain("clash_mode", Str("global"), proxy, proxy);
    ItemPlain("clash_mode", Str("rule"), RouteFinal(hasRules, proxy), proxy);
    HealthPlain(s, x, proxy);
    PlainUsesNone(modes, proxy, sets);
    PlainUsesNone(health, proxy, sets);
    PlainUsesNone(last, proxy, sets);
    if hasRules {
      FetchPlain(proxy);
      PlainUsesNone(FetchRules(proxy), proxy, sets);
      SegmentsDefined(FetchRules(proxy), BuiltinRules(proxy, ApplicationsPresent(x)), sets);
      BuiltinDefined(proxy, ApplicationsPresent(x), sets);
    } else {
      ItemPlain("ip_is_private", Bool(true), "direct", proxy);
      PlainUsesNone(lists, proxy, sets);
    }
    SegmentsDefined(modes, health, sets);
    SegmentsDefined(modes + health, lists, sets);
    SegmentsDefined(modes + health + lists, last, sets);
  }

  lemma EarlyRulesDefined(s: Settings, x: Surroundings, proxy: string, routes: seq<Json>, sets: set<string>)
    requires forall i :: 0 <= i < |routes| ==> Get(routes[i], "rule_set").None?
    ensures SetsDefined(EarlyRules(s, x, proxy, routes), sets)
  {
    HealthPlain(s, x, proxy);
    BypassPlain(s, x, proxy);
    HijackPlain(s, proxy);
  }

  lemma DnsRulesDefined(hasRules: bool, sets: set<string>)
    requires hasRules ==> UsedDefined(sets)
    ensures SetsDefined(DnsRules(hasRules), sets)
  {
    assert Strs(["gfw", "proxy"]) == Arr([Str("gfw"), Str("proxy")]);
    assert Strs(["geosite-cn", "direct", "icloud", "apple"])
      == Arr([Str("geosite-cn"), Str("direct"), Str("icloud"), Str("apple")]);
  }

  lemma UsedDefinedByFiles(x: Surroundings)
    ensures UsedDefined(DefinedSets(x)) <==> USED_RULE_SETS <= x.ruleFiles
  {
    UsedAreCore();
  }

  lemma AssembledDefined(b: Built, g: Groups, groups: seq<Json>, s: Settings, x: Surroundings, hasRules: bool)
    requires Assembled(b, g, groups, s, x, hasRules)
    ensures SetsDefined(b.Rules(), b.ruleSets) && SetsDefined(b.dnsRules, b.ruleSets)
      <==> !hasRules || USED_RULE_SETS <= x.ruleFiles
  {
    EarlyRulesDefined(s, x, b.proxyFinal, g.routes, b.ruleSets);
    SegmentsDefined(b.early, b.late, b.ruleSets);
    UsedDefinedByFiles(x);
    if hasRules {
      LateRulesDefined(s, x, hasRules, b.proxyFinal, b.ruleSets);
    } else {
      LateRulesDefined(s, x.(ruleFiles := {}), hasRules, b.proxyFinal, b.ruleSets);
    }
    if !hasRules || USED_RULE_SETS <= x.ruleFiles {
      DnsRulesDefined(hasRules, b.ruleSets);
    }
  }

  /**
  Every rule-set tag used by route and DNS rules is defined exactly when no rule-sets are
  asked for or the files of the used ones are there.
  */
  lemma RuleSetTagsDefined(s: Settings, x: Surroundings, hasRules: bool, inventory: seq<Json>)
    requires Build(s, x, hasRules, inventory).Ok?
    ensures var b := Build(s, x, hasRules, inventory).value;
      (SetsDefined(b.Rules(), b.ruleSets) && SetsDefined(b.dnsRules, b.ruleSets))
      <==> (!hasRules || USED_RULE_SETS <= x.ruleFiles)
  {
    var g, groups := BuildAssembles(s, x, hasRules, inventory);
    AssembledDefined(Build(s, x, hasRules, inventory).value, g, groups, s, x, hasRules);
  }

  /** With the flag the bootstrap computes, everything is defined. */
  lemma RuleSetTagsDefinedWhenPresent(s: Settings, x: Surroundings, inventory: seq<Json>)
    requires Build(s, x, FilesPresent(x), inventory).Ok?
    ensures var b := Build(s, x, FilesPresent(x), inventory).value;
      SetsDefined(b.Rules(), b.ruleSets) && SetsDefined(b.dnsRules, b.ruleSets)
  {
    RuleSetTagsDefined(s, x, FilesPresent(x), inventory);
    if FilesPresent(x) {
      assert forall t :: t in USED_RULE_SETS ==> t in CORE_RULE_SETS by { UsedAreCore(); }
    }
  }

  lemma UsedAreCore()
    ensures forall t :: t in USED_RULE_SETS ==> t in CORE_RULE_SETS
  {
    assert CORE_RULE_SETS[0] == "reject" && CORE_RULE_SETS[1] == "icloud" && CORE_RULE_SETS[2] == "apple"
      && CORE_RULE_SETS[4] == "proxy" && CORE_RULE_SETS[5] == "direct" && CORE_RULE_SETS[6] == "private"
      && CORE_RULE_SETS[7] == "gfw" && CORE_RULE_SETS[8] == "telegramcidr"
      && CORE_RULE_SETS[9] == "cncidr" && CORE_RULE_SETS[10] == "lancidr";
  }
}

/**
Which name server answers, and what the document decides once an overlay is merged into it and
the control rules are back in front.
*/
module DocumentDecisions {
  import opened Wrappers
  import opened Json
  import opened ProxySettings
  import opened ControlPlane
  import opened Routing
  import opened RuleSets
  import opened Builder
  import opened Mixin
  import opened MixinShape
  import opened Priority
  import opened RoutingTable
  import opened RoutingDecisions

  // ---------------------------------------------------------------- name servers

  /** What a DNS rule looks at: everything but the server it names. */
  function Conditions(rule: Json): Json {
    if rule.Obj? then Obj(rule.fields - {"server"}) else rule
  }

  function FirstServer(rules: seq<Json>, query: Flow): Option<Json> {
    if rules == [] then None
    else if Matches(Conditions(rules[0]), "", query) then Get(rules[0], "server")
    else FirstServer(rules[1..], query)
  }

  predicate AsksAddress(query: Flow) {
    query.holds("query_type", Strs(["A", "AAAA"]))
  }

  /** Local names, and the names of the lists, are resolved for real; every other address is a fake one. */
  function NameServer(hasRules: bool, query: Flow): Option<Json> {
    if query.holds("domain_suffix", Strs([".lan", ".local", ".internal"])) then Some(Str("dns-direct"))
    else if !AsksAddress(query) then None
    else if hasRules && query.sets * {"gfw", "proxy", "geosite-cn", "direct", "icloud", "apple"} != {} then
      Some(Str("dns-direct"))
    else Some(Str("fake-ip"))
  }

  lemma LanRuleMatches(query: Flow)
    ensures Matches(Conditions(DnsRules(false)[0]), "", query)
      <==> query.holds("domain_suffix", Strs([".lan", ".local", ".internal"]))
  {
    var value := Strs([".lan", ".local", ".internal"]);
    var fields := Conditions(DnsRules(false)[0]).fields;
    assert fields == map["domain_suffix" := value, "action" := Str("route")];
    assert "domain_suffix" in fields;
    assert ItemHolds("domain_suffix", value, "", query) <==> query.holds("domain_suffix", value);
  }

  lemma SetRuleConditions(tags: seq<string>, server: string, query: Flow)
    ensures Matches(Conditions(DnsRule("rule_set", Strs(tags), server)), "", query)
      <==> AsksAddress(query) && InAny(tags, query)
    ensures Get(DnsRule("rule_set", Strs(tags), server), "server") == Some(Str(server))
  {
    var fields := Conditions(DnsRule("rule_set", Strs(tags), server)).fields;
    var types := Strs(["A", "AAAA"]);
    assert fields == map["rule_set" := Strs(tags), "query_type" := types, "action" := Str("route")];
    assert "rule_set" in fields && "query_type" in fields;
    assert ItemHolds("query_type", types, "", query) <==> AsksAddress(query);
    var items := Strs(tags).items;
    assert forall i :: 0 <= i < |items| ==> items[i] == Str(tags[i]);
    assert ItemHolds("rule_set", Strs(tags), "", query) <==> InAny(tags, query);
  }

  lemma FakeRuleMatches(query: Flow)
    ensures var types := Strs(["A", "AAAA"]);
      var rule := Obj(map["query_type" := types, "action" := Str("route"), "server" := Str("fake-ip")]);
      Matches(Conditions(rule), "", query) <==> AsksAddress(query)
  {
    var types := Strs(["A", "AAAA"]);
    var rule := Obj(map["query_type" := types, "action" := Str("route"), "server" := Str("fake-ip")]);
    var fields := Conditions(rule).fields;
    assert fields == map["query_type" := types, "action" := Str("route")];
    assert "query_type" in fields;
    assert ItemHolds("query_type", types, "", query) <==> AsksAddress(query);
  }

  lemma InListed(query: Flow)
    ensures InAny(["gfw", "proxy"], query) || InAny(["geosite-cn", "direct", "icloud", "apple"], query)
      <==> query.sets * {"gfw", "proxy", "geosite-cn", "direct", "icloud", "apple"} != {}
  {
    var first, second := ["gfw", "proxy"], ["geosite-cn", "direct", "icloud", "apple"];
    assert first[0] == "gfw" && first[1] == "proxy";
    assert second[0] == "geosite-cn" && second[1] == "direct" && second[2] == "icloud" && second[3] == "apple";
    if InAny(first, query) {
      var i :| 0 <= i < |first| && first[i] in query.sets;
      assert first[i] in query.sets * {"gfw", "proxy", "geosite-cn", "direct", "icloud", "apple"};
    }
    if InAny(second, query) {
      var i :| 0 <= i < |second| && second[i] in query.sets;
      assert second[i] in query.sets * {"gfw", "proxy", "geosite-cn", "direct", "icloud", "apple"};
    }
    if tag :| tag in query.sets * {"gfw", "proxy", "geosite-cn", "direct", "icloud", "apple"} {
      assert tag in first || tag in second;
    }
  }

  lemma FirstServerCons(rule: Json, rest: seq<Json>, query: Flow)
    ensures FirstServer([rule] + rest, query) ==
      if Matches(Conditions(rule), "", query) then Get(rule, "server") else FirstServer(rest, query)
  {
    assert ([rule] + rest)[1..] == rest;
  }

  /** The rules for listed names, in front of the one for fake addresses. */
  lemma ListedNamesDecide(rest: seq<Json>, query: Flow)
    ensures var proxied := DnsRule("rule_set", Strs(["gfw", "proxy"]), "dns-direct");
      var domestic := DnsRule("rule_set", Strs(["geosite-cn", "direct", "icloud", "apple"]), "dns-direct");
      FirstServer([proxied] + ([domestic] + rest), query) ==
      if AsksAddress(query) && query.sets * {"gfw", "proxy", "geosite-cn", "direct", "icloud", "apple"} != {} then
        Some(Str("dns-direct"))
      else FirstServer(rest, query)
  {
    var proxied := DnsRule("rule_set", Strs(["gfw", "proxy"]), "dns-direct");
    var domestic := DnsRule("rule_set", Strs(["geosite-cn", "direct", "icloud", "apple"]), "dns-direct");
    SetRuleConditions(["gfw", "proxy"], "dns-direct", query);
    SetRuleConditions(["geosite-cn", "direct", "icloud", "apple"], "dns-direct", query);
    InListed(query);
    FirstServerCons(domestic, rest, query);
    FirstServerCons(proxied, [domestic] + rest, query);
  }

  lemma DnsRulesDecide(hasRules: bool, query: Flow)
    ensures FirstServer(DnsRules(hasRules), query) == NameServer(hasRules, query)
  {
    var lan := DnsRules(false)[0];
    var fake := Obj(map["query_type" := Strs(["A", "AAAA"]), "action" := Str("route"), "server" := Str("fake-ip")]);
    var proxied := DnsRule("rule_set", Strs(["gfw", "proxy"]), "dns-direct");
    var domestic := DnsRule("rule_set", Strs(["geosite-cn", "direct", "icloud", "apple"]), "dns-direct");
    LanRuleMatches(query);
    FakeRuleMatches(query);
    FirstServerCons(fake, [], query);
    if hasRules {
      ListedNamesDecide([fake] + [], query);
      FirstServerCons(lan, [proxied] + ([domestic] + ([fake] + [])), query);
      assert DnsRules(true) == [lan] + ([proxied] + ([domestic] + ([fake] + [])));
    } else {
      FirstServerCons(lan, [fake] + [], query);
      assert DnsRules(false) == [lan] + ([fake] + []);
    }
  }

  /** A build that captures everything and has lists or a subscription answers names so; any other has no DNS rules. */
  lemma NamesResolved(s: Settings, x: Surroundings, hasRules: bool, inventory: seq<Json>, query: Flow)
    requires Build(s, x, hasRules, inventory).Ok?
    ensures FirstServer(Build(s, x, hasRules, inventory).value.dnsRules, query) ==
      if TunEnabled(s) && (hasRules || s.subscriptions != []) then NameServer(hasRules, query) else None
  {
    DnsRulesDecide(hasRules, query);
  }

  // --------------------------------------------------------------- merged documents

  /** The document has the proxy group. */
  predicate HasProxyGroup(document: Json) {
    match Get(document, "outbounds")
    case Some(Arr(outbounds)) => exists i :: 0 <= i < |outbounds| && Get(outbounds[i], "tag") == Some(Str("Proxy"))
    case _ => false
  }

  /** There are rules to put in front, and a list to put them in. */
  lemma ActiveIff(document: Json, s: Settings, x: Surroundings)
    ensures Active(document, s, x) <==>
      RulesOf(document).Some? && (FullCaptureMeshProxy(s) || (MeshIsNode(s) && x.peerCidrs != []))
  {
    if MeshIsNode(s) && x.peerCidrs != [] {
      assert |PeerRulesFor(x.peerCidrs)| >= |PeerRules(x.peerCidrs[0])| == 3;
    }
  }

  /**
  In a prioritised document the health request of the process goes to the proxy, every other flow
  of it and every flow to a peer goes direct, and what remains is for the rules that were kept.
  */
  lemma PrioritizedDecides(document: Json, s: Settings, x: Surroundings, final: string, e: Engine, flow: Flow)
    requires Active(document, s, x)
    ensures RulesOf(Prioritized(document, s, x)).Some?
    ensures var proxy := if HasProxyGroup(document) then "Proxy" else "direct";
      var seen := Asked(s, x, proxy, e, flow);
      var kept := Retained(RulesOf(document).value, MeshHealthRules(s, x, proxy), s, x);
      Evaluate(RulesOf(Prioritized(document, s, x)).value, final, e, flow) ==
      if AsksHealthPort(s, x, proxy, seen) && HealthHit(x, proxy, seen) then Route(proxy)
      else if FullCaptureMeshProxy(s) && FromOwnProcess(x, seen) then Route("direct")
      else if ToPeer(s, x, seen) then Route("direct")
      else Evaluate(kept, final, e, seen)
  {
    PrioritizedRules(document, s, x);
    var proxy := if HasProxyGroup(document) then "Proxy" else "direct";
    var kept := Retained(RulesOf(document).value, MeshHealthRules(s, x, proxy), s, x);
    ControlThenRest(s, x, proxy, kept, final, e, flow);
  }

  lemma PrioritizedRules(document: Json, s: Settings, x: Surroundings)
    requires Active(document, s, x)
    ensures var proxy := if HasProxyGroup(document) then "Proxy" else "direct";
      var health := MeshHealthRules(s, x, proxy);
      RulesOf(Prioritized(document, s, x)) == Some(
        health + ProcessBypassRules(s, x) + PeerBypassRules(s, x) + Retained(RulesOf(document).value, health, s, x))
  {
    assert ProxyTag(document) == if HasProxyGroup(document) then "Proxy" else "direct";
  }

  lemma ControlThenRest(
    s: Settings, x: Surroundings, proxy: string, rest: seq<Json>, final: string, e: Engine, flow: Flow)
    ensures var seen := Asked(s, x, proxy, e, flow);
      var control := MeshHealthRules(s, x, proxy) + ProcessBypassRules(s, x) + PeerBypassRules(s, x);
      Evaluate(control + rest, final, e, flow) ==
      if AsksHealthPort(s, x, proxy, seen) && HealthHit(x, proxy, seen) then Route(proxy)
      else if FullCaptureMeshProxy(s) && FromOwnProcess(x, seen) then Route("direct")
      else if ToPeer(s, x, seen) then Route("direct")
      else Evaluate(rest, final, e, seen)
  {
    var control := MeshHealthRules(s, x, proxy) + ProcessBypassRules(s, x) + PeerBypassRules(s, x);
    ControlRulesDecide(s, x, proxy, e, flow);
    ScanSplits(control, rest, e, flow);
  }

  /** Whatever the overlay, the health request of the bypassed process reaches the proxy. */
  lemma HealthRequestReachesProxy(
    base: Json, overlay: Json, s: Settings, x: Surroundings, final: string, e: Engine, flow: Flow)
    requires Active(MergeJson(base, overlay), s, x) && HasProxyGroup(MergeJson(base, overlay))
    requires var seen := Asked(s, x, "Proxy", e, flow);
      AsksHealthPort(s, x, "Proxy", seen) && HealthHit(x, "Proxy", seen)
    ensures var document := Prioritized(MergeJson(base, overlay), s, x);
      RulesOf(document).Some? && Evaluate(RulesOf(document).value, final, e, flow) == Route("Proxy")
  {
    PrioritizedDecides(MergeJson(base, overlay), s, x, final, e, flow);
  }

  /** A rule is taken for a peer bypass when it is direct and lists a peer, and never without a mesh. */
  lemma PeerBypassIff(rule: Json, s: Settings, x: Surroundings)
    ensures IsPeerBypass(rule, s, x) <==>
      && s.meshFlag.Some? && s.meshRole.Some? && Get(rule, "outbound") == Some(Str("direct"))
      && (match Get(rule, "ip_cidr")
          case Some(Arr(entries)) => exists i :: 0 <= i < |entries| && entries[i].Str? && entries[i].s in x.peerCidrs
          case _ => false)
  {
  }
}

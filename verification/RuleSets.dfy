/** The blacklist routing rules, the rule-sets they name and the rule-set files they need. */
module RuleSets {
  import opened Wrappers
  import opened Json
  import opened ProxySettings
  import opened Routing

  const CORE_RULE_SETS := [
    "reject", "icloud", "apple", "google", "proxy", "direct", "private", "gfw", "telegramcidr", "cncidr", "lancidr"]

  predicate FilesPresent(x: Surroundings) {
    forall i :: 0 <= i < |CORE_RULE_SETS| ==> CORE_RULE_SETS[i] in x.ruleFiles
  }

  predicate ApplicationsPresent(x: Surroundings) {
    "applications" in x.ruleFiles
  }

  /** The tags of the emitted rule-set definitions: one per valid file, and two that are always there. */
  function DefinedSets(x: Surroundings): set<string> {
    (set t | t in x.ruleFiles && (t == "applications" || t in CORE_RULE_SETS)) + {"geoip-cn", "geosite-cn"}
  }

  /** Lists that stay direct, or are refused, before any proxied list is looked at. */
  function DomesticRules(): seq<Json> {
    [ SetRule(["private"], "direct"),
      RejectRule(["reject"]),
      SetRule(["icloud"], "direct"),
      SetRule(["apple"], "direct"),
      SetRule(["geosite-cn", "direct"], "direct") ]
  }

  /** Before the address lists: blocked names reach the proxy even on a domestic address. */
  function ProxiedRules(proxyTag: string): seq<Json> {
    [SetRule(["gfw", "proxy"], proxyTag), SetRule(["telegramcidr"], proxyTag)]
  }

  function AddressRules(): seq<Json> {
    [ SetRule(["lancidr"], "direct"),
      SetRule(["cncidr"], "direct"),
      ItemRule("ip_is_private", Bool(true), "direct"),
      SetRule(["geoip-cn"], "direct") ]
  }

  function BuiltinRules(proxyTag: string, applications: bool): seq<Json> {
    (if applications then [SetRule(["applications"], "direct")] else [])
    + DomesticRules() + ProxiedRules(proxyTag) + AddressRules()
  }

  function FetchRules(proxyTag: string): seq<Json> {
    [ ItemRule("domain_suffix", Strs(["jsdelivr.net"]), proxyTag),
      ItemRule("domain_suffix", Strs(["githubusercontent.com"]), proxyTag),
      ItemRule("domain_suffix", Strs(["github.com"]), proxyTag),
      ItemRule("domain_keyword", Strs(["github"]), proxyTag) ]
  }

  function DnsRule(item: string, value: Json, server: string): Json {
    Obj(map[item := value, "query_type" := Strs(["A", "AAAA"]), "action" := Str("route"), "server" := Str(server)])
  }

  function DnsRules(hasRules: bool): seq<Json> {
    [Obj(map["domain_suffix" := Strs([".lan", ".local", ".internal"]),
             "action" := Str("route"), "server" := Str("dns-direct")])] +
    (if hasRules then
       [ DnsRule("rule_set", Strs(["gfw", "proxy"]), "dns-direct"),
         DnsRule("rule_set", Strs(["geosite-cn", "direct", "icloud", "apple"]), "dns-direct") ]
     else []) +
    [Obj(map["query_type" := Strs(["A", "AAAA"]), "action" := Str("route"), "server" := Str("fake-ip")])]
  }

  // ----------------------------------------------------------- what they decide

  predicate In(tag: string, flow: Flow) {
    tag in flow.sets
  }

  /** The blacklist as a decision table: what is not listed stays direct. */
  function Blacklist(flow: Flow, proxyTag: string, applications: bool): Decision {
    if applications && In("applications", flow) then Route("direct")
    else if In("private", flow) then Route("direct")
    else if In("reject", flow) then Reject
    else if In("icloud", flow) || In("apple", flow) || In("geosite-cn", flow) || In("direct", flow) then Route("direct")
    else if In("gfw", flow) || In("proxy", flow) || In("telegramcidr", flow) then Route(proxyTag)
    else Route("direct")
  }

  predicate IsFetch(flow: Flow) {
    || flow.holds("domain_suffix", Strs(["jsdelivr.net"]))
    || flow.holds("domain_suffix", Strs(["githubusercontent.com"]))
    || flow.holds("domain_suffix", Strs(["github.com"]))
    || flow.holds("domain_keyword", Strs(["github"]))
  }

  lemma ScanHead(rule: Json, rest: seq<Json>, e: Engine, flow: Flow)
    requires DecisionOf(rule).Some?
    ensures Scan([rule] + rest, e, flow) ==
      if Matches(rule, e.mode, flow) then Scanned(DecisionOf(rule), flow) else Scan(rest, e, flow)
  {
    assert ([rule] + rest)[1..] == rest;
  }

  lemma EvaluateHead(rule: Json, d: Decision, rest: seq<Json>, final: string, e: Engine, flow: Flow)
    requires DecisionOf(rule) == Some(d)
    ensures Evaluate([rule] + rest, final, e, flow) ==
      if Matches(rule, e.mode, flow) then d else Evaluate(rest, final, e, flow)
  {
    ScanHead(rule, rest, e, flow);
  }

  lemma EvaluateItem(key: string, value: Json, outbound: string, rest: seq<Json>, final: string, e: Engine, flow: Flow)
    requires key !in LABEL_KEYS
    ensures Evaluate([ItemRule(key, value, outbound)] + rest, final, e, flow) ==
      if ItemHolds(key, value, e.mode, flow) then Route(outbound) else Evaluate(rest, final, e, flow)
  {
    ItemRuleMatches(key, value, outbound, e.mode, flow);
    EvaluateHead(ItemRule(key, value, outbound), Route(outbound), rest, final, e, flow);
  }

  lemma EvaluateSet(tag: string, outbound: string, rest: seq<Json>, final: string, e: Engine, flow: Flow)
    ensures Evaluate([SetRule([tag], outbound)] + rest, final, e, flow) ==
      if In(tag, flow) then Route(outbound) else Evaluate(rest, final, e, flow)
    ensures Evaluate([RejectRule([tag])] + rest, final, e, flow) ==
      if In(tag, flow) then Reject else Evaluate(rest, final, e, flow)
  {
    SetRuleMatches([tag], outbound, e.mode, flow);
    assert InAny([tag], flow) <==> In(tag, flow) by { assert [tag][0] == tag; }
    EvaluateHead(SetRule([tag], outbound), Route(outbound), rest, final, e, flow);
    EvaluateHead(RejectRule([tag]), Reject, rest, final, e, flow);
  }

  lemma EvaluateTwoSets(a: string, b: string, outbound: string, rest: seq<Json>, final: string, e: Engine, flow: Flow)
    ensures Evaluate([SetRule([a, b], outbound)] + rest, final, e, flow) ==
      if In(a, flow) || In(b, flow) then Route(outbound) else Evaluate(rest, final, e, flow)
  {
    SetRuleMatches([a, b], outbound, e.mode, flow);
    assert InAny([a, b], flow) <==> In(a, flow) || In(b, flow) by { assert [a, b][0] == a && [a, b][1] == b; }
    EvaluateHead(SetRule([a, b], outbound), Route(outbound), rest, final, e, flow);
  }

  predicate AllRoute(rules: seq<Json>, outbound: string) {
    forall i :: 0 <= i < |rules| ==> DecisionOf(rules[i]) == Some(Route(outbound))
  }

  lemma {:induction false} AllRouteEvaluates(rules: seq<Json>, outbound: string, e: Engine, flow: Flow)
    requires AllRoute(rules, outbound)
    ensures Evaluate(rules, outbound, e, flow) == Route(outbound)
  {
    if rules != [] {
      AllRouteEvaluates(rules[1..], outbound, e, flow);
    }
  }

  lemma EvaluateDomestic(rest: seq<Json>, final: string, e: Engine, flow: Flow)
    ensures Evaluate(DomesticRules() + rest, final, e, flow) ==
      if In("private", flow) then Route("direct")
      else if In("reject", flow) then Reject
      else if In("icloud", flow) || In("apple", flow) || In("geosite-cn", flow) || In("direct", flow) then
        Route("direct")
      else Evaluate(rest, final, e, flow)
  {
    var r5 := [SetRule(["geosite-cn", "direct"], "direct")] + rest;
    var r4 := [SetRule(["apple"], "direct")] + r5;
    var r3 := [SetRule(["icloud"], "direct")] + r4;
    var r2 := [RejectRule(["reject"])] + r3;
    assert DomesticRules() + rest == [SetRule(["private"], "direct")] + r2;
    EvaluateTwoSets("geosite-cn", "direct", "direct", rest, final, e, flow);
    EvaluateSet("apple", "direct", r5, final, e, flow);
    EvaluateSet("icloud", "direct", r4, final, e, flow);
    EvaluateSet("reject", "direct", r3, final, e, flow);
    EvaluateSet("private", "direct", r2, final, e, flow);
  }

  lemma EvaluateProxied(proxyTag: string, rest: seq<Json>, final: string, e: Engine, flow: Flow)
    ensures Evaluate(ProxiedRules(proxyTag) + rest, final, e, flow) ==
      if In("gfw", flow) || In("proxy", flow) || In("telegramcidr", flow) then Route(proxyTag)
      else Evaluate(rest, final, e, flow)
  {
    var r2 := [SetRule(["telegramcidr"], proxyTag)] + rest;
    assert ProxiedRules(proxyTag) + rest == [SetRule(["gfw", "proxy"], proxyTag)] + r2;
    EvaluateSet("telegramcidr", proxyTag, rest, final, e, flow);
    EvaluateTwoSets("gfw", "proxy", proxyTag, r2, final, e, flow);
  }

  /** Only direct rules are left, so a flow none of them takes is direct as well. */
  lemma EvaluateAddress(tail: seq<Json>, e: Engine, flow: Flow)
    requires AllRoute(tail, "direct")
    ensures Evaluate(AddressRules() + tail, "direct", e, flow) == Route("direct")
  {
    assert DecisionOf(ItemRule("ip_is_private", Bool(true), "direct")) == Some(Route("direct"));
    AllRouteEvaluates(AddressRules() + tail, "direct", e, flow);
  }

  lemma Regroup(a: seq<Json>, b: seq<Json>, c: seq<Json>, d: seq<Json>, t: seq<Json>)
    ensures a + b + c + d + t == a + (b + (c + (d + t)))
  {
  }

  /** Under first-match evaluation the built-in list is the blacklist table, whatever direct rules follow. */
  lemma BuiltinRulesRefineBlacklist(proxyTag: string, applications: bool, tail: seq<Json>, e: Engine, flow: Flow)
    requires AllRoute(tail, "direct")
    ensures Evaluate(BuiltinRules(proxyTag, applications) + tail, "direct", e, flow)
      == Blacklist(flow, proxyTag, applications)
  {
    var apps := if applications then [SetRule(["applications"], "direct")] else [];
    var direct := AddressRules() + tail;
    var proxied := ProxiedRules(proxyTag) + direct;
    var domestic := DomesticRules() + proxied;
    assert BuiltinRules(proxyTag, applications) + tail == apps + domestic by {
      Regroup(apps, DomesticRules(), ProxiedRules(proxyTag), AddressRules(), tail);
    }
    EvaluateAddress(tail, e, flow);
    EvaluateProxied(proxyTag, direct, "direct", e, flow);
    EvaluateDomestic(proxied, "direct", e, flow);
    if applications {
      EvaluateSet("applications", "direct", domestic, "direct", e, flow);
    } else {
      assert apps + domestic == domestic;
    }
  }

  lemma FetchRulesRefine(proxyTag: string, rest: seq<Json>, final: string, e: Engine, flow: Flow)
    ensures Evaluate(FetchRules(proxyTag) + rest, final, e, flow) ==
      if IsFetch(flow) then Route(proxyTag) else Evaluate(rest, final, e, flow)
  {
    var r4 := [ItemRule("domain_keyword", Strs(["github"]), proxyTag)] + rest;
    var r3 := [ItemRule("domain_suffix", Strs(["github.com"]), proxyTag)] + r4;
    var r2 := [ItemRule("domain_suffix", Strs(["githubusercontent.com"]), proxyTag)] + r3;
    assert FetchRules(proxyTag) + rest == [ItemRule("domain_suffix", Strs(["jsdelivr.net"]), proxyTag)] + r2;
    EvaluateItem("domain_keyword", Strs(["github"]), proxyTag, rest, final, e, flow);
    EvaluateItem("domain_suffix", Strs(["github.com"]), proxyTag, r4, final, e, flow);
    EvaluateItem("domain_suffix", Strs(["githubusercontent.com"]), proxyTag, r3, final, e, flow);
    EvaluateItem("domain_suffix", Strs(["jsdelivr.net"]), proxyTag, r2, final, e, flow);
  }
}

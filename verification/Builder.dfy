/**
The routing compiler: settings and a node inventory become outbounds and a first-match
rule list. Sections of the document that no route or outbound refers to are not modelled.
*/
module Builder {
  import opened Wrappers
  import opened Text
  import opened Json
  import opened ProxySettings
  import opened ControlPlane
  import opened Routing
  import opened RuleSets
  import opened CustomRules

  function TagOf(outbound: Json): Option<string> {
    match Get(outbound, "tag") case Some(Str(tag)) => Some(tag) case _ => None
  }

  /** The tags of a list of outbounds, in order; entries without a string tag are skipped. */
  function TagsOf(outbounds: seq<Json>): seq<string> {
    if outbounds == [] then []
    else (if TagOf(outbounds[0]).Some? then [TagOf(outbounds[0]).value] else []) + TagsOf(outbounds[1..])
  }

  function DirectOutbound(s: Settings, x: Surroundings): Json {
    var direct := map["type" := Str("direct"), "tag" := Str("direct")];
    Obj(if TunEnabled(s) && x.interface.Some? then direct["bind_interface" := Str(x.interface.value)] else direct)
  }

  /** Pins an outbound to the physical interface unless it already names one. */
  function Bind(node: Json, x: Surroundings): Json {
    if !node.Obj? || "bind_interface" in node.fields || x.interface.None? then node
    else
      var loopback := match Get(node, "server") case Some(Str(server)) => server in x.loopbackServers case _ => false;
      Obj(node.fields["bind_interface" := Str(if loopback then x.loopbackInterface else x.interface.value)])
  }

  function BindAll(nodes: seq<Json>, s: Settings, x: Surroundings): seq<Json> {
    if TunEnabled(s) then seq(|nodes|, i requires 0 <= i < |nodes| => Bind(nodes[i], x)) else nodes
  }

  function Selected(available: seq<string>, active: seq<string>): seq<string> {
    if available == [] then []
    else (if available[0] in active then [available[0]] else []) + Selected(available[1..], active)
  }

  function UrlTest(tag: string, members: seq<string>, url: string, interval: nat, tolerance: nat): Json {
    Obj(map["type" := Str("urltest"), "tag" := Str(tag), "outbounds" := Strs(members), "url" := Str(url),
            "interval" := Str(Digits(interval) + "s"), "tolerance" := Num(tolerance)])
  }

  function Selector(members: seq<string>): Json
    requires members != []
  {
    Obj(map["type" := Str("selector"), "tag" := Str("Proxy"), "outbounds" := Strs(["Auto"] + members),
            "default" := Str(if |members| == 1 then members[0] else "Auto"),
            "interrupt_exist_connections" := Bool(true)])
  }

  function ProxyGroups(members: seq<string>, url: string): seq<Json> {
    if members == [] then [] else [UrlTest("Auto", members, url, 300, 100), Selector(members)]
  }

  // -------------------------------------------------------- user policies

  datatype Groups = Groups(names: set<string>, outbounds: seq<Json>, routes: seq<Json>)

  function ValueOr(value: Option<nat>, default: nat): nat {
    if value.Some? then value.value else default
  }

  function PushRoute(
    g: Groups, policy: DomainRule, name: string, outbounds: seq<Json>, outbound: string,
    x: Surroundings): Result<Groups>
  {
    match CustomRule(policy, outbound, x)
    case Err(e) => Err(e)
    case Ok(rule) => Ok(Groups(g.names + {name}, g.outbounds + outbounds, g.routes + [rule]))
  }

  /** One enabled or disabled policy added to the groups built so far. */
  function AddPolicy(
    g: Groups, policy: DomainRule, available: set<string>, fallback: string, s: Settings,
    x: Surroundings): Result<Groups>
  {
    var name := Trim(policy.name);
    if !policy.enabled then Ok(g)
    else if name == [] then Err("name must not be empty")
    else if name in g.names then Err("duplicate name")
    else if policy.bySuffix == [] && policy.host == [] && policy.process == []
            && policy.source == [] && policy.destination == [] then
      Err("requires at least one matcher")
    else if policy.outbounds == [] then Err("requires at least one outbound")
    else if policy.outbounds == ["direct"] then PushRoute(g, policy, name, [], "direct", x)
    else if policy.outbounds == ["Proxy"] then PushRoute(g, policy, name, [], fallback, x)
    else
      var resolved := Available(policy.outbounds, available);
      if resolved == [] then
        if fallback == "direct" then Ok(g.(names := g.names + {name}))
        else PushRoute(g, policy, name, [], fallback, x)
      else
        var tag := "domain-proxy:" + name;
        var url := if policy.healthCheckUrl.Some? then policy.healthCheckUrl.value else s.healthCheckUrl;
        var group := UrlTest(tag, resolved, url, ValueOr(policy.interval, 300), ValueOr(policy.tolerance, 100));
        PushRoute(g, policy, name, [group], tag, x)
  }

  function Available(tags: seq<string>, available: set<string>): seq<string> {
    if tags == [] then []
    else (if tags[0] in available then [tags[0]] else []) + Available(tags[1..], available)
  }

  function AfterPolicies(n: nat, available: set<string>, fallback: string, s: Settings, x: Surroundings): Result<Groups>
    requires n <= |s.domainRules|
  {
    if n == 0 then Ok(Groups({}, [], []))
    else
      match AfterPolicies(n - 1, available, fallback, s, x)
      case Err(e) => Err(e)
      case Ok(g) => AddPolicy(g, s.domainRules[n - 1], available, fallback, s, x)
  }

  lemma {:induction false} PolicyErrorStays(
    n: nat, k: nat, available: set<string>, fallback: string, s: Settings, x: Surroundings)
    requires n <= k <= |s.domainRules| && AfterPolicies(n, available, fallback, s, x).Err?
    ensures AfterPolicies(k, available, fallback, s, x) == AfterPolicies(n, available, fallback, s, x)
  {
    if n < k {
      PolicyErrorStays(n, k - 1, available, fallback, s, x);
    }
  }

  /** `build_domain_rule_groups`: policies in order, the first invalid one ends the build. */
  method BuildDomainRuleGroups(
    available: set<string>, fallback: string, s: Settings, x: Surroundings) returns (r: Result<Groups>)
    ensures r == AfterPolicies(|s.domainRules|, available, fallback, s, x)
  {
    r := Ok(Groups({}, [], []));
    for i := 0 to |s.domainRules|
      invariant r.Ok? && r == AfterPolicies(i, available, fallback, s, x)
    {
      r := AddPolicy(r.value, s.domainRules[i], available, fallback, s, x);
      if r.Err? {
        PolicyErrorStays(i + 1, |s.domainRules|, available, fallback, s, x);
        return;
      }
    }
  }

  // ------------------------------------------------------------ the build

  /** The compiled parts: real outbounds, groups over them, and the rule list in its sections. */
  datatype Built = Built(
    nodes: seq<Json>,
    groups: seq<Json>,
    proxyFinal: string,
    early: seq<Json>,
    late: seq<Json>,
    final: string,
    ruleSets: set<string>,
    dnsRules: seq<Json>)
  {
    function Outbounds(): seq<Json> { nodes + groups }
    function Rules(): seq<Json> { early + late }
  }

  function DnsHijackRules(s: Settings): seq<Json> {
    (if TunEnabled(s) then [Obj(map["port" := Num(53), "action" := Str("hijack-dns")])] else [])
    + [Obj(map["protocol" := Str("dns"), "action" := Str("hijack-dns")])]
  }

  function SniffRules(s: Settings): seq<Json> {
    if TunEnabled(s) then
      [Obj(map["action" := Str("sniff"), "sniffer" := Strs(["http", "tls", "quic"]), "timeout" := Str("2s")])]
    else []
  }

  /** Control plane, DNS, sniffing and the user's policies come before every mode. */
  function EarlyRules(s: Settings, x: Surroundings, proxyFinal: string, routes: seq<Json>): seq<Json> {
    MeshHealthRules(s, x, proxyFinal) + ProcessBypassRules(s, x) + PeerBypassRules(s, x)
    + DnsHijackRules(s) + SniffRules(s) + routes
  }

  function HealthRules(x: Surroundings, proxyFinal: string): seq<Json> {
    var health := HealthCheckRule(x, proxyFinal);
    if health.Some? then [Obj(health.value)] else []
  }

  function ModeRules(proxyFinal: string): seq<Json> {
    [ItemRule("clash_mode", Str("direct"), "direct"), ItemRule("clash_mode", Str("global"), proxyFinal)]
  }

  function ListRules(s: Settings, x: Surroundings, hasRules: bool, proxyFinal: string): seq<Json> {
    if hasRules then FetchRules(proxyFinal) + BuiltinRules(proxyFinal, ApplicationsPresent(x))
    else if s.subscriptions != [] || TunEnabled(s) then
      [ItemRule("ip_is_private", Bool(true), "direct"), CatchAll(proxyFinal)]
    else []
  }

  function RouteFinal(hasRules: bool, proxyFinal: string): string {
    if hasRules then "direct" else proxyFinal
  }

  function LateRules(s: Settings, x: Surroundings, hasRules: bool, proxyFinal: string): seq<Json> {
    ModeRules(proxyFinal) + HealthRules(x, proxyFinal) + ListRules(s, x, hasRules, proxyFinal)
    + [ItemRule("clash_mode", Str("rule"), RouteFinal(hasRules, proxyFinal))]
  }

  function BootstrapNodes(s: Settings, x: Surroundings): Result<seq<Json>> {
    match x.bootstrap
    case NoBootstrap => Ok([])
    case SkippedBootstrap => Ok([])
    case BadBootstrap(e) => Err(e)
    case BootstrapNode(node) => Ok(BindAll([node], s, x))
  }

  /** The member tags of the proxy groups, unless every selected node is missing. */
  function MemberTags(s: Settings, inventory: seq<Json>): Result<seq<string>> {
    var available := if s.subscriptions == [] then [] else TagsOf(inventory);
    var members := if s.activeNodes == [] then available else Selected(available, s.activeNodes);
    if members == [] && available != [] then Err("Selected proxy nodes are unavailable.") else Ok(members)
  }

  predicate IsSubscriptionTag(tag: string) {
    "sub" <= tag
  }

  /** The tags a policy may name: subscription nodes among the outbounds emitted so far. */
  function RuleTags(outbounds: seq<Json>): set<string> {
    set tag | tag in TagsOf(outbounds) && IsSubscriptionTag(tag)
  }

  function NodeOutbounds(s: Settings, x: Surroundings, bootstrap: seq<Json>, inventory: seq<Json>): seq<Json> {
    [DirectOutbound(s, x)] + bootstrap + (if s.subscriptions == [] then [] else BindAll(inventory, s, x))
  }

  /** `build_value_with_nodes`, up to the rule list. */
  function Build(s: Settings, x: Surroundings, hasRules: bool, inventory: seq<Json>): Result<Built> {
    match BootstrapNodes(s, x)
    case Err(e) => Err(e)
    case Ok(bootstrap) =>
      var nodes := NodeOutbounds(s, x, bootstrap, inventory);
      match MemberTags(s, inventory)
      case Err(e) => Err(e)
      case Ok(members) =>
        var proxyFinal := if members == [] then "direct" else "Proxy";
        var groups := ProxyGroups(members, s.healthCheckUrl);
        match AfterPolicies(|s.domainRules|, RuleTags(nodes + groups), proxyFinal, s, x)
        case Err(e) => Err(e)
        case Ok(g) =>
          Ok(Built(
            nodes,
            groups + g.outbounds,
            proxyFinal,
            EarlyRules(s, x, proxyFinal, g.routes),
            LateRules(s, x, hasRules, proxyFinal),
            RouteFinal(hasRules, proxyFinal),
            if hasRules then DefinedSets(x) else {},
            if TunEnabled(s) && (hasRules || s.subscriptions != []) then DnsRules(hasRules) else []))
  }

  lemma {:induction false} TagsSnoc(outbounds: seq<Json>, i: nat)
    requires i < |outbounds|
    ensures TagsOf(outbounds[..i + 1])
      == TagsOf(outbounds[..i]) + (if TagOf(outbounds[i]).Some? then [TagOf(outbounds[i]).value] else [])
  {
    if i > 0 {
      TagsSnoc(outbounds[1..], i - 1);
      assert outbounds[..i + 1][1..] == outbounds[1..][..i] && outbounds[..i][1..] == outbounds[1..][..i - 1];
    }
  }

  lemma {:induction false} SelectedSnoc(available: seq<string>, active: seq<string>, i: nat)
    requires i < |available|
    ensures Selected(available[..i + 1], active)
      == Selected(available[..i], active) + (if available[i] in active then [available[i]] else [])
  {
    if i > 0 {
      SelectedSnoc(available[1..], active, i - 1);
      assert available[..i + 1][1..] == available[1..][..i] && available[..i][1..] == available[1..][..i - 1];
    }
  }

  /** The tags of the inventory that may carry traffic, collected node by node. */
  method CollectMembers(s: Settings, inventory: seq<Json>) returns (members: Result<seq<string>>)
    ensures members == MemberTags(s, inventory)
  {
    var available := [];
    if s.subscriptions != [] {
      for i := 0 to |inventory|
        invariant available == TagsOf(inventory[..i])
      {
        TagsSnoc(inventory, i);
        if TagOf(inventory[i]).Some? {
          available := available + [TagOf(inventory[i]).value];
        }
      }
      assert inventory[..|inventory|] == inventory;
    }
    var chosen := available;
    if s.activeNodes != [] {
      chosen := [];
      for i := 0 to |available|
        invariant chosen == Selected(available[..i], s.activeNodes)
      {
        SelectedSnoc(available, s.activeNodes, i);
        if available[i] in s.activeNodes {
          chosen := chosen + [available[i]];
        }
      }
      assert available[..|available|] == available;
    }
    members := if chosen == [] && available != [] then Err("Selected proxy nodes are unavailable.") else Ok(chosen);
  }

  /** `build_value_with_nodes`: outbounds and rules pushed in order, the first error ends the build. */
  method BuildValue(s: Settings, x: Surroundings, hasRules: bool, inventory: seq<Json>) returns (r: Result<Built>)
    ensures r == Build(s, x, hasRules, inventory)
  {
    var bootstrap := BootstrapNodes(s, x);
    if bootstrap.Err? {
      return Err(bootstrap.error);
    }
    var nodes := [DirectOutbound(s, x)] + bootstrap.value;
    if s.subscriptions != [] {
      nodes := nodes + BindAll(inventory, s, x);
    }
    assert nodes == NodeOutbounds(s, x, bootstrap.value, inventory);
    var members := CollectMembers(s, inventory);
    if members.Err? {
      return Err(members.error);
    }
    var proxyFinal, groups := "direct", [];
    if members.value != [] {
      groups := groups + [UrlTest("Auto", members.value, s.healthCheckUrl, 300, 100)];
      groups := groups + [Selector(members.value)];
      proxyFinal := "Proxy";
    }
    assert groups == ProxyGroups(members.value, s.healthCheckUrl);
    var policies := BuildDomainRuleGroups(RuleTags(nodes + groups), proxyFinal, s, x);
    if policies.Err? {
      return Err(policies.error);
    }
    groups := groups + policies.value.outbounds;
    var peers := CollectPeerBypassRules(s, x);
    var early := MeshHealthRules(s, x, proxyFinal) + ProcessBypassRules(s, x) + peers;
    early := early + DnsHijackRules(s) + SniffRules(s) + policies.value.routes;
    var late := ModeRules(proxyFinal) + HealthRules(x, proxyFinal) + ListRules(s, x, hasRules, proxyFinal);
    var final := RouteFinal(hasRules, proxyFinal);
    late := late + [ItemRule("clash_mode", Str("rule"), final)];
    var dns := if TunEnabled(s) && (hasRules || s.subscriptions != []) then DnsRules(hasRules) else [];
    r := Ok(Built(nodes, groups, proxyFinal, early, late, final, if hasRules then DefinedSets(x) else {}, dns));
  }
}

/** The whole build: when it succeeds, what it emits and where each flow then goes. */
module BuildDecisions {
  import opened Wrappers
  import opened Text
  import opened Json
  import opened Positions
  import opened ProxySettings
  import opened ControlPlane
  import opened Routing
  import opened RuleSets
  import opened CustomRules
  import opened Builder
  import opened References
  import opened RoutingTable
  import opened RoutingDecisions
  import opened PolicyDecisions

  // ---------------------------------------------------------------- proxy members

  /** The positions of the inventory's nodes that may carry traffic. */
  function Usable(s: Settings, inventory: seq<Json>): set<nat> {
    UsableAmong(s, inventory, |inventory|)
  }

  function UsableAmong(s: Settings, inventory: seq<Json>, n: nat): set<nat>
    requires n <= |inventory|
  {
    set i: nat | i < n && IsUsable(s, inventory[i])
  }

  predicate IsUsable(s: Settings, node: Json) {
    && s.subscriptions != [] && TagOf(node).Some?
    && (s.activeNodes == [] || TagOf(node).value in s.activeNodes)
  }

  predicate AnyTagged(inventory: seq<Json>) {
    exists i :: 0 <= i < |inventory| && TagOf(inventory[i]).Some?
  }

  /** The tags of the usable nodes, in the order of the inventory. */
  ghost predicate MembersAt(s: Settings, inventory: seq<Json>, members: seq<string>, positions: seq<nat>) {
    Lists(positions, Usable(s, inventory)) && TagsAt(inventory, members, positions)
  }

  predicate TagsAt(inventory: seq<Json>, tags: seq<string>, positions: seq<nat>) {
    && |tags| == |positions|
    && forall k :: 0 <= k < |tags| ==> positions[k] < |inventory| && TagOf(inventory[positions[k]]) == Some(tags[k])
  }

  function MembersOf(s: Settings, inventory: seq<Json>): seq<string> {
    var available := if s.subscriptions == [] then [] else TagsOf(inventory);
    if s.activeNodes == [] then available else Selected(available, s.activeNodes)
  }

  lemma MembersSnoc(s: Settings, inventory: seq<Json>, n: nat)
    requires n < |inventory|
    ensures MembersOf(s, inventory[..n + 1]) ==
      MembersOf(s, inventory[..n]) + if IsUsable(s, inventory[n]) then [TagOf(inventory[n]).value] else []
  {
    TagsSnoc(inventory, n);
    var tags := TagsOf(inventory[..n]);
    if TagOf(inventory[n]).Some? {
      var more := tags + [TagOf(inventory[n]).value];
      SelectedSnoc(more, s.activeNodes, |tags|);
      assert more[..|tags|] == tags && more[..|tags| + 1] == more;
    } else {
      assert TagsOf(inventory[..n + 1]) == tags;
    }
  }

  lemma UsableNext(s: Settings, inventory: seq<Json>, n: nat)
    requires n < |inventory|
    ensures UsableAmong(s, inventory, n + 1)
      == UsableAmong(s, inventory, n) + if IsUsable(s, inventory[n]) then {n} else {}
  {
  }

  lemma {:induction false} MembersPrefix(s: Settings, inventory: seq<Json>, n: nat) returns (positions: seq<nat>)
    requires n <= |inventory|
    ensures Lists(positions, UsableAmong(s, inventory, n))
    ensures TagsAt(inventory, MembersOf(s, inventory[..n]), positions)
  {
    if n == 0 {
      positions := [];
    } else {
      positions := MembersPrefix(s, inventory, n - 1);
      MembersSnoc(s, inventory, n - 1);
      UsableNext(s, inventory, n - 1);
      if IsUsable(s, inventory[n - 1]) {
        ListsSnoc(positions, UsableAmong(s, inventory, n - 1), n - 1);
        positions := positions + [n - 1];
      }
    }
  }

  lemma {:induction false} TaggedIff(inventory: seq<Json>)
    ensures TagsOf(inventory) != [] <==> AnyTagged(inventory)
  {
    if inventory != [] {
      TaggedIff(inventory[1..]);
      assert forall i :: 0 < i < |inventory| ==> inventory[i] == inventory[1..][i - 1];
    }
  }

  lemma EmptyTogether(s: Settings, inventory: seq<Json>, members: seq<string>, positions: seq<nat>)
    requires MembersAt(s, inventory, members, positions)
    ensures members == [] <==> Usable(s, inventory) == {}
  {
    assert forall i :: i in Usable(s, inventory) ==> i in positions;
    if members != [] {
      assert positions[0] in positions;
    }
  }

  /** A selection that leaves no node of a tagged inventory is refused; otherwise the members are the usable nodes. */
  lemma MembersInOrder(s: Settings, inventory: seq<Json>) returns (positions: seq<nat>)
    ensures MemberTags(s, inventory).Err?
      <==> s.subscriptions != [] && AnyTagged(inventory) && Usable(s, inventory) == {}
    ensures MemberTags(s, inventory).Ok? ==> MembersAt(s, inventory, MemberTags(s, inventory).value, positions)
  {
    positions := MembersPrefix(s, inventory, |inventory|);
    assert inventory[..|inventory|] == inventory;
    TaggedIff(inventory);
    EmptyTogether(s, inventory, MembersOf(s, inventory), positions);
  }

  // --------------------------------------------------------- success of a build

  /** The proxy group exists when some node may carry traffic. */
  function ProxyOf(s: Settings, inventory: seq<Json>): string {
    if Usable(s, inventory) == {} then "direct" else "Proxy"
  }

  function NodesOf(s: Settings, x: Surroundings, inventory: seq<Json>): seq<Json> {
    NodeOutbounds(s, x, if x.bootstrap.BootstrapNode? then BindAll([x.bootstrap.node], s, x) else [], inventory)
  }

  lemma ProxyExists(s: Settings, inventory: seq<Json>)
    requires MemberTags(s, inventory).Ok?
    ensures MemberTags(s, inventory).value == [] <==> Usable(s, inventory) == {}
  {
    var positions := MembersInOrder(s, inventory);
    EmptyTogether(s, inventory, MemberTags(s, inventory).value, positions);
  }

  /**
  A build succeeds exactly when the bootstrap node is readable, the selected nodes are not all
  missing and every enabled policy is acceptable after those before it.
  */
  lemma BuildSucceedsIff(s: Settings, x: Surroundings, hasRules: bool, inventory: seq<Json>)
    ensures Build(s, x, hasRules, inventory).Ok? <==>
      && !x.bootstrap.BadBootstrap?
      && !(s.subscriptions != [] && AnyTagged(inventory) && Usable(s, inventory) == {})
      && AllAcceptable(|s.domainRules|, NodesOf(s, x, inventory), ProxyOf(s, inventory), s, x)
  {
    var positions := MembersInOrder(s, inventory);
    if !x.bootstrap.BadBootstrap? && MemberTags(s, inventory).Ok? {
      var members := MemberTags(s, inventory).value;
      PoliciesOfBuild(s, x, inventory, members);
      assert BootstrapNodes(s, x).Ok?;
    }
  }

  lemma PoliciesOfBuild(s: Settings, x: Surroundings, inventory: seq<Json>, members: seq<string>)
    requires MemberTags(s, inventory) == Ok(members)
    ensures ProxyOf(s, inventory) == if members == [] then "direct" else "Proxy"
    ensures var nodes := NodesOf(s, x, inventory);
      var available := RuleTags(nodes + ProxyGroups(members, s.healthCheckUrl));
      AfterPolicies(|s.domainRules|, available, ProxyOf(s, inventory), s, x).Ok?
      <==> AllAcceptable(|s.domainRules|, nodes, ProxyOf(s, inventory), s, x)
  {
    ProxyExists(s, inventory);
    var nodes := NodesOf(s, x, inventory);
    var available := RuleTags(nodes + ProxyGroups(members, s.healthCheckUrl));
    OfferedByNodes(nodes, members, s.healthCheckUrl);
    PoliciesCompileIff(|s.domainRules|, available, nodes, ProxyOf(s, inventory), s, x);
  }

  /** The nodes and the proxy outbound of a build. */
  lemma BuildNodes(s: Settings, x: Surroundings, hasRules: bool, inventory: seq<Json>)
    requires Build(s, x, hasRules, inventory).Ok?
    ensures Build(s, x, hasRules, inventory).value.nodes == NodesOf(s, x, inventory)
    ensures Build(s, x, hasRules, inventory).value.proxyFinal == ProxyOf(s, inventory)
    ensures Build(s, x, hasRules, inventory).value.final == if hasRules then "direct" else ProxyOf(s, inventory)
  {
    ProxyExists(s, inventory);
  }

  lemma OfferedByNodes(nodes: seq<Json>, members: seq<string>, url: string)
    ensures Offered(RuleTags(nodes + ProxyGroups(members, url)), nodes)
  {
    forall tag ensures tag in RuleTags(nodes + ProxyGroups(members, url)) <==> Offers(nodes, tag) {
      OffersIff(nodes, members, url, tag);
    }
  }

  // ------------------------------------------------------------ where each flow goes

  /** Control plane and DNS first, then sniffing, then the first policy that takes the flow, then the table. */
  function Destination(
    s: Settings, x: Surroundings, hasRules: bool, nodes: seq<Json>, proxy: string, e: Engine, flow: Flow): Decision
  {
    var asked := Asked(s, x, proxy, e, flow);
    var first := FirstDecision(s, x, proxy, asked);
    var seen := if TunEnabled(s) then e.sniff(asked) else asked;
    var chosen := Chosen(nodes, proxy, s, x, e.mode, seen);
    if first.Some? then first.value
    else if chosen.Some? then Route(chosen.value)
    else Table(s, x, hasRules, proxy, e.mode, seen)
  }

  lemma EarlyRulesDecide(
    s: Settings, x: Surroundings, proxy: string, routes: seq<Json>, e: Engine, flow: Flow)
    ensures var asked := Asked(s, x, proxy, e, flow);
      var seen := if TunEnabled(s) then e.sniff(asked) else asked;
      Scan(EarlyRules(s, x, proxy, routes), e, flow) ==
      if FirstDecision(s, x, proxy, asked).Some? then Scanned(FirstDecision(s, x, proxy, asked), asked)
      else Scan(routes, e, seen)
  {
    var asked := Asked(s, x, proxy, e, flow);
    var control := MeshHealthRules(s, x, proxy) + ProcessBypassRules(s, x) + PeerBypassRules(s, x);
    var dns, sniff := DnsHijackRules(s), SniffRules(s);
    ControlRulesDecide(s, x, proxy, e, flow);
    DnsDecides(s, e, asked);
    SniffsUnderTun(s, e, asked);
    ScanSplits(control, dns, e, flow);
    ScanSplits(control + dns, sniff, e, flow);
    ScanSplits(control + dns + sniff, routes, e, flow);
  }

  /** The rules before the modes are those of the policies' routes. */
  lemma BuildRoutes(s: Settings, x: Surroundings, hasRules: bool, inventory: seq<Json>) returns (available: set<string>)
    requires Build(s, x, hasRules, inventory).Ok?
    ensures var b := Build(s, x, hasRules, inventory).value;
      var policies := AfterPolicies(|s.domainRules|, available, b.proxyFinal, s, x);
      Offered(available, b.nodes) && policies.Ok?
      && b.early == EarlyRules(s, x, b.proxyFinal, policies.value.routes)
  {
    var b := Build(s, x, hasRules, inventory).value;
    var members := MemberTags(s, inventory).value;
    available := RuleTags(b.nodes + ProxyGroups(members, s.healthCheckUrl));
    OfferedByNodes(b.nodes, members, s.healthCheckUrl);
  }

  /** For every build, mode, flow and sniffing result the compiled list decides as the procedure says. */
  lemma EveryFlowDecided(s: Settings, x: Surroundings, hasRules: bool, inventory: seq<Json>, e: Engine, flow: Flow)
    requires Build(s, x, hasRules, inventory).Ok?
    ensures var b := Build(s, x, hasRules, inventory).value;
      Evaluate(b.Rules(), b.final, e, flow) == Destination(s, x, hasRules, b.nodes, b.proxyFinal, e, flow)
  {
    var b := Build(s, x, hasRules, inventory).value;
    var available := BuildRoutes(s, x, hasRules, inventory);
    var routes := AfterPolicies(|s.domainRules|, available, b.proxyFinal, s, x).value.routes;
    var asked := Asked(s, x, b.proxyFinal, e, flow);
    var seen := if TunEnabled(s) then e.sniff(asked) else asked;
    EarlyRulesDecide(s, x, b.proxyFinal, routes, e, flow);
    PoliciesDecide(available, b.nodes, b.proxyFinal, s, x, e, seen);
    CompiledRulesRefineTable(s, x, hasRules, inventory, e, flow);
  }
}

/**
Where every flow goes: the whole compiled rule list against one decision procedure over the
settings, the surroundings and what a flow shows, with no rule and no rule list in it.
*/
module RoutingDecisions {
  import opened Wrappers
  import opened Text
  import opened Json
  import opened ProxySettings
  import opened ControlPlane
  import opened Routing
  import opened RuleSets
  import opened CustomRules
  import opened Builder
  import opened References
  import opened RoutingTable

  // ---------------------------------------------------------------- what a flow shows

  function OwnNames(x: Surroundings): seq<string> {
    if x.exeNames == [] then ["zay"] else x.exeNames
  }

  /** The flow entered through the tunnel from the process that hosts the mesh. */
  predicate FromOwnProcess(x: Surroundings, flow: Flow) {
    && flow.holds("inbound", Strs(["tun-in"])) && flow.holds("process_name", Strs(OwnNames(x)))
    && (x.exePaths != [] ==>
          flow.holds(if x.windows then "process_path_regex" else "process_path", Strs(x.exePaths)))
  }

  /** A TCP flow of that process to the port of the health check, when there is a proxy to check. */
  predicate AsksHealthPort(s: Settings, x: Surroundings, proxy: string, flow: Flow) {
    && FullCaptureMeshProxy(s) && proxy != "direct" && x.healthHost.Some? && x.healthPort.Some?
    && FromOwnProcess(x, flow)
    && flow.holds("network", Str("tcp")) && flow.holds("port", Arr([Num(x.healthPort.value)]))
  }

  /** Such a flow is sniffed when the health check names its host. */
  function Asked(s: Settings, x: Surroundings, proxy: string, e: Engine, flow: Flow): Flow {
    if AsksHealthPort(s, x, proxy, flow) && x.healthHost.value.Name? then e.sniff(flow) else flow
  }

  predicate ToPeer(s: Settings, x: Surroundings, flow: Flow) {
    MeshIsNode(s) && exists i :: 0 <= i < |x.peerCidrs| && flow.holds("ip_cidr", Strs([x.peerCidrs[i]]))
  }

  predicate IsDns(s: Settings, flow: Flow) {
    (TunEnabled(s) && flow.holds("port", Num(53))) || flow.holds("protocol", Str("dns"))
  }

  /** What the control plane and DNS decide of a flow, before any policy is looked at. */
  function FirstDecision(s: Settings, x: Surroundings, proxy: string, flow: Flow): Option<Decision> {
    if AsksHealthPort(s, x, proxy, flow) && HealthHit(x, proxy, flow) then Some(Route(proxy))
    else if FullCaptureMeshProxy(s) && FromOwnProcess(x, flow) then Some(Route("direct"))
    else if ToPeer(s, x, flow) then Some(Route("direct"))
    else if IsDns(s, flow) then Some(HijackDns)
    else None
  }

  // ------------------------------------------------------------------- control rules

  lemma ScanOne(rule: Json, e: Engine, flow: Flow)
    ensures Scan([rule], e, flow) ==
      if !Matches(rule, e.mode, flow) then Scanned(None, flow)
      else if DecisionOf(rule).Some? then Scanned(DecisionOf(rule), flow)
      else Scanned(None, e.sniff(flow))
  {
    assert [rule][1..] == [];
  }

  /** The items that pin a rule to the process. */
  predicate PinnedBy(fields: map<string, Json>, x: Surroundings) {
    var pathKey := if x.windows then "process_path_regex" else "process_path";
    && "inbound" in fields && fields["inbound"] == Strs(["tun-in"])
    && "process_name" in fields && fields["process_name"] == Strs(OwnNames(x))
    && (pathKey in fields <==> x.exePaths != [])
    && (pathKey in fields ==> fields[pathKey] == Strs(x.exePaths))
  }

  function PinKeys(x: Surroundings): set<string> {
    {"inbound", "process_name"}
    + if x.exePaths == [] then {} else {if x.windows then "process_path_regex" else "process_path"}
  }

  lemma ProcessBypassFields(s: Settings, x: Surroundings)
    requires FullCaptureMeshProxy(s)
    ensures |ProcessBypassRules(s, x)| == 1 && ProcessBypassRules(s, x)[0].Obj?
    ensures var fields := ProcessBypassRules(s, x)[0].fields;
      PinnedBy(fields, x) && fields.Keys == PinKeys(x) + {"action", "outbound"}
      && fields["action"] == Str("route") && fields["outbound"] == Str("direct")
  {
  }

  const PIN_KEYS := {"inbound", "process_name", "process_path", "process_path_regex"}

  /** The first rule is the second, pinned to the process. */
  predicate Pins(fields: map<string, Json>, rest: map<string, Json>, x: Surroundings) {
    && PinnedBy(fields, x) && fields.Keys == rest.Keys + PinKeys(x) && rest.Keys !! PIN_KEYS
    && forall k :: k in rest ==> fields[k] == rest[k]
  }

  lemma PinAdds(rule: map<string, Json>, s: Settings, x: Surroundings)
    requires FullCaptureMeshProxy(s) && rule.Keys !! PIN_KEYS
    ensures |ProcessBypassRules(s, x)| == 1 && ProcessBypassRules(s, x)[0].Obj?
    ensures "inbound" in ProcessBypassRules(s, x)[0].fields
    ensures Pins(PinToProcess(rule, ProcessBypassRules(s, x)[0].fields), rule, x)
  {
    ProcessBypassFields(s, x);
    var pathKey := if x.windows then "process_path_regex" else "process_path";
    assert pathKey in PIN_KEYS && pathKey !in rule;
  }

  predicate AddressPart(fields: map<string, Json>, mode: string, flow: Flow) {
    || (forall k :: k in fields ==> k !in ADDRESS_KEYS)
    || (exists k :: k in fields && k in ADDRESS_KEYS && ItemHolds(k, fields[k], mode, flow))
  }

  predicate ItemPart(fields: map<string, Json>, mode: string, flow: Flow) {
    forall k :: k in fields && k !in ADDRESS_KEYS && k !in LABEL_KEYS ==> ItemHolds(k, fields[k], mode, flow)
  }

  lemma PinnedAddress(fields: map<string, Json>, rest: map<string, Json>, x: Surroundings, mode: string, flow: Flow)
    requires Pins(fields, rest, x)
    ensures AddressPart(fields, mode, flow) <==> AddressPart(rest, mode, flow)
  {
    assert PinKeys(x) !! ADDRESS_KEYS;
    assert forall k :: k in fields && k in ADDRESS_KEYS <==> k in rest && k in ADDRESS_KEYS;
    if k :| k in rest && k in ADDRESS_KEYS && ItemHolds(k, rest[k], mode, flow) {
      assert ItemHolds(k, fields[k], mode, flow);
    }
  }

  lemma PinnedItems(fields: map<string, Json>, rest: map<string, Json>, x: Surroundings, mode: string, flow: Flow)
    requires Pins(fields, rest, x)
    ensures ItemPart(fields, mode, flow) <==> FromOwnProcess(x, flow) && ItemPart(rest, mode, flow)
  {
    var pathKey := if x.windows then "process_path_regex" else "process_path";
    assert PinKeys(x) !! ADDRESS_KEYS && PinKeys(x) !! LABEL_KEYS;
    assert ItemHolds("inbound", fields["inbound"], mode, flow) <==> flow.holds("inbound", Strs(["tun-in"]));
    assert ItemHolds("process_name", fields["process_name"], mode, flow)
      <==> flow.holds("process_name", Strs(OwnNames(x)));
    assert x.exePaths != [] ==>
      (ItemHolds(pathKey, fields[pathKey], mode, flow) <==> flow.holds(pathKey, Strs(x.exePaths)));
    assert forall k :: k in fields <==> k in rest || k in PinKeys(x);
  }

  /** A pinned rule matches the flows of the process that its other items match. */
  lemma PinnedMatches(fields: map<string, Json>, rest: map<string, Json>, x: Surroundings, mode: string, flow: Flow)
    requires Pins(fields, rest, x)
    ensures Matches(Obj(fields), mode, flow) <==> FromOwnProcess(x, flow) && Matches(Obj(rest), mode, flow)
  {
    PinnedAddress(fields, rest, x, mode, flow);
    PinnedItems(fields, rest, x, mode, flow);
    assert Matches(Obj(fields), mode, flow) <==> AddressPart(fields, mode, flow) && ItemPart(fields, mode, flow);
    assert Matches(Obj(rest), mode, flow) <==> AddressPart(rest, mode, flow) && ItemPart(rest, mode, flow);
  }

  /** What a pinned rule decides is what its other items decide, of the flows of the process. */
  lemma PinnedDecides(fields: map<string, Json>, rest: map<string, Json>, x: Surroundings, e: Engine, flow: Flow)
    requires Pins(fields, rest, x) && "action" in rest
    ensures DecisionOf(Obj(fields)) == DecisionOf(Obj(rest))
    ensures Scan([Obj(fields)], e, flow) ==
      if FromOwnProcess(x, flow) then Scan([Obj(rest)], e, flow) else Scanned(None, flow)
  {
    PinnedMatches(fields, rest, x, e.mode, flow);
    assert "outbound" in fields <==> "outbound" in rest;
    ScanOne(Obj(fields), e, flow);
    ScanOne(Obj(rest), e, flow);
  }

  lemma ProcessBypassPinned(s: Settings, x: Surroundings)
    requires FullCaptureMeshProxy(s)
    ensures |ProcessBypassRules(s, x)| == 1 && ProcessBypassRules(s, x)[0].Obj?
    ensures Pins(ProcessBypassRules(s, x)[0].fields, CatchAll("direct").fields, x)
  {
    ProcessBypassFields(s, x);
  }

  lemma ProcessBypassDecides(s: Settings, x: Surroundings, e: Engine, flow: Flow)
    ensures Scan(ProcessBypassRules(s, x), e, flow) ==
      if FullCaptureMeshProxy(s) && FromOwnProcess(x, flow) then Scanned(Some(Route("direct")), flow)
      else Scanned(None, flow)
  {
    if FullCaptureMeshProxy(s) {
      ProcessBypassPinned(s, x);
      var rule := ProcessBypassRules(s, x)[0];
      assert ProcessBypassRules(s, x) == [rule];
      PinnedDecides(rule.fields, CatchAll("direct").fields, x, e, flow);
      CatchAllMatches("direct", e.mode, flow);
      ScanOne(CatchAll("direct"), e, flow);
    }
  }

  /** The health rule and the sniffing before it, without the items that pin them. */
  function HealthItems(x: Surroundings, proxy: string): map<string, Json>
    requires proxy != "direct" && x.healthHost.Some? && x.healthPort.Some?
  {
    HealthCheckRule(x, proxy).value["network" := Str("tcp")]["port" := Arr([Num(x.healthPort.value)])]
  }

  function SniffItems(x: Surroundings): map<string, Json>
    requires x.healthPort.Some?
  {
    map["action" := Str("sniff"), "network" := Str("tcp"), "port" := Arr([Num(x.healthPort.value)]),
        "sniffer" := Strs(["http", "tls"]), "timeout" := Str("2s")]
  }

  predicate ToHealthPort(x: Surroundings, flow: Flow)
    requires x.healthPort.Some?
  {
    flow.holds("network", Str("tcp")) && flow.holds("port", Arr([Num(x.healthPort.value)]))
  }

  /** A rule with a network and a port in it matches what the rest of it matches there. */
  lemma PortedMatches(rest: map<string, Json>, x: Surroundings, mode: string, flow: Flow)
    requires x.healthPort.Some? && "network" !in rest && "port" !in rest
    ensures var fields := rest["network" := Str("tcp")]["port" := Arr([Num(x.healthPort.value)])];
      Matches(Obj(fields), mode, flow) <==> ToHealthPort(x, flow) && Matches(Obj(rest), mode, flow)
  {
    var fields := rest["network" := Str("tcp")]["port" := Arr([Num(x.healthPort.value)])];
    assert ItemHolds("network", fields["network"], mode, flow) <==> flow.holds("network", Str("tcp"));
    assert ItemHolds("port", fields["port"], mode, flow) <==> flow.holds("port", fields["port"]);
    assert forall k :: k in fields && k in ADDRESS_KEYS <==> k in rest && k in ADDRESS_KEYS;
    assert forall k :: k in rest ==> k in fields && fields[k] == rest[k];
    assert AddressPart(fields, mode, flow) <==> AddressPart(rest, mode, flow);
    assert ItemPart(fields, mode, flow) <==> ToHealthPort(x, flow) && ItemPart(rest, mode, flow);
  }

  lemma HealthItemsMatch(x: Surroundings, proxy: string, mode: string, flow: Flow)
    requires proxy != "direct" && x.healthHost.Some? && x.healthPort.Some?
    ensures Matches(Obj(HealthItems(x, proxy)), mode, flow) <==> ToHealthPort(x, flow) && HealthHit(x, proxy, flow)
  {
    var rule := HealthCheckRule(x, proxy).value;
    PortedMatches(rule, x, mode, flow);
    match x.healthHost.value
    case Address(cidr) =>
      assert Obj(rule) == ItemRule("ip_cidr", Strs([cidr]), proxy);
      ItemRuleMatches("ip_cidr", Strs([cidr]), proxy, mode, flow);
    case Name(name) =>
      assert Obj(rule) == ItemRule("domain", Strs([name]), proxy);
      ItemRuleMatches("domain", Strs([name]), proxy, mode, flow);
  }

  lemma SniffItemsMatch(x: Surroundings, mode: string, flow: Flow)
    requires x.healthPort.Some?
    ensures Matches(Obj(SniffItems(x)), mode, flow) <==> ToHealthPort(x, flow)
  {
    var rest := map["action" := Str("sniff"), "sniffer" := Strs(["http", "tls"]), "timeout" := Str("2s")];
    PortedMatches(rest, x, mode, flow);
    assert SniffItems(x) == rest["network" := Str("tcp")]["port" := Arr([Num(x.healthPort.value)])];
    assert Matches(Obj(rest), mode, flow);
  }

  predicate OneProcessRule(s: Settings, x: Surroundings) {
    var process := ProcessBypassRules(s, x);
    |process| == 1 && process[0].Obj? && "inbound" in process[0].fields
  }

  /** Pinning and adding the port commute. */
  lemma PinThenPort(rule: map<string, Json>, process: map<string, Json>, network: Json, port: Json)
    requires "inbound" in process
    ensures PinToProcess(rule, process)["network" := network]["port" := port]
      == PinToProcess(rule["network" := network]["port" := port], process)
  {
    assert "network" !in PROCESS_MATCH_KEYS && "port" !in PROCESS_MATCH_KEYS;
  }

  lemma PinKeepsDomain(rule: map<string, Json>, process: map<string, Json>)
    requires "inbound" in process
    ensures "domain" in PinToProcess(rule, process) <==> "domain" in rule
  {
    assert "domain" !in PROCESS_MATCH_KEYS;
  }

  /** The rules for the health request, as pinned forms of these items. */
  lemma MeshHealthShape(s: Settings, x: Surroundings, proxy: string)
    requires FullCaptureMeshProxy(s) && proxy != "direct" && x.healthHost.Some? && x.healthPort.Some?
    ensures OneProcessRule(s, x)
    ensures var process := ProcessBypassRules(s, x);
      var health := Obj(PinToProcess(HealthItems(x, proxy), process[0].fields));
      var sniff := Obj(PinToProcess(SniffItems(x), process[0].fields));
      MeshHealthRules(s, x, proxy) == if x.healthHost.value.Name? then [sniff, health] else [health]
  {
    ProcessBypassPinned(s, x);
    var process, health := ProcessBypassRules(s, x)[0].fields, HealthCheckRule(x, proxy).value;
    PinThenPort(health, process, Str("tcp"), Arr([Num(x.healthPort.value)]));
    PinKeepsDomain(HealthItems(x, proxy), process);
  }

  lemma HealthItemsRoute(x: Surroundings, proxy: string)
    requires proxy != "direct" && x.healthHost.Some? && x.healthPort.Some?
    ensures HealthItems(x, proxy).Keys !! PIN_KEYS && "action" in HealthItems(x, proxy)
    ensures DecisionOf(Obj(HealthItems(x, proxy))) == Some(Route(proxy))
  {
  }

  lemma HealthItemsDecide(x: Surroundings, proxy: string, e: Engine, flow: Flow)
    requires proxy != "direct" && x.healthHost.Some? && x.healthPort.Some?
    ensures Scan([Obj(HealthItems(x, proxy))], e, flow) ==
      if ToHealthPort(x, flow) && HealthHit(x, proxy, flow) then Scanned(Some(Route(proxy)), flow)
      else Scanned(None, flow)
  {
    HealthItemsRoute(x, proxy);
    HealthItemsMatch(x, proxy, e.mode, flow);
    ScanOne(Obj(HealthItems(x, proxy)), e, flow);
  }

  lemma SniffItemsDecide(x: Surroundings, e: Engine, flow: Flow)
    requires x.healthPort.Some?
    ensures SniffItems(x).Keys !! PIN_KEYS && "action" in SniffItems(x)
    ensures Scan([Obj(SniffItems(x))], e, flow) ==
      Scanned(None, if ToHealthPort(x, flow) then e.sniff(flow) else flow)
  {
    SniffItemsMatch(x, e.mode, flow);
    ScanOne(Obj(SniffItems(x)), e, flow);
  }

  lemma PinnedHealthDecides(
    s: Settings, x: Surroundings, proxy: string, fields: map<string, Json>, e: Engine, flow: Flow)
    requires FullCaptureMeshProxy(s) && proxy != "direct" && x.healthHost.Some? && x.healthPort.Some?
    requires Pins(fields, HealthItems(x, proxy), x)
    ensures Scan([Obj(fields)], e, flow) ==
      if AsksHealthPort(s, x, proxy, flow) && HealthHit(x, proxy, flow) then Scanned(Some(Route(proxy)), flow)
      else Scanned(None, flow)
  {
    HealthItemsRoute(x, proxy);
    HealthItemsDecide(x, proxy, e, flow);
    PinnedDecides(fields, HealthItems(x, proxy), x, e, flow);
  }

  lemma PinnedSniffs(s: Settings, x: Surroundings, proxy: string, fields: map<string, Json>, e: Engine, flow: Flow)
    requires FullCaptureMeshProxy(s) && proxy != "direct" && x.healthHost.Some? && x.healthPort.Some?
    requires x.healthHost.value.Name? && Pins(fields, SniffItems(x), x)
    ensures Scan([Obj(fields)], e, flow) == Scanned(None, Asked(s, x, proxy, e, flow))
  {
    SniffItemsDecide(x, e, flow);
    PinnedDecides(fields, SniffItems(x), x, e, flow);
  }

  lemma MeshHealthDecides(s: Settings, x: Surroundings, proxy: string, e: Engine, flow: Flow)
    ensures var seen := Asked(s, x, proxy, e, flow);
      Scan(MeshHealthRules(s, x, proxy), e, flow) ==
      if AsksHealthPort(s, x, proxy, seen) && HealthHit(x, proxy, seen) then Scanned(Some(Route(proxy)), seen)
      else Scanned(None, seen)
  {
    if FullCaptureMeshProxy(s) && proxy != "direct" && x.healthHost.Some? && x.healthPort.Some? {
      var seen := Asked(s, x, proxy, e, flow);
      var health, sniff := MeshHealthPins(s, x, proxy);
      PinnedHealthDecides(s, x, proxy, health, e, seen);
      if x.healthHost.value.Name? {
        PinnedSniffs(s, x, proxy, sniff, e, flow);
        ScanSplits([Obj(sniff)], [Obj(health)], e, flow);
        assert [Obj(sniff)] + [Obj(health)] == [Obj(sniff), Obj(health)];
      }
    }
  }

  lemma MeshHealthPins(s: Settings, x: Surroundings, proxy: string)
    returns (health: map<string, Json>, sniff: map<string, Json>)
    requires FullCaptureMeshProxy(s) && proxy != "direct" && x.healthHost.Some? && x.healthPort.Some?
    ensures Pins(health, HealthItems(x, proxy), x) && Pins(sniff, SniffItems(x), x)
    ensures MeshHealthRules(s, x, proxy) ==
      if x.healthHost.value.Name? then [Obj(sniff), Obj(health)] else [Obj(health)]
  {
    MeshHealthShape(s, x, proxy);
    health := PinHealth(s, x, proxy);
    sniff := PinSniff(s, x);
  }

  lemma PinHealth(s: Settings, x: Surroundings, proxy: string) returns (pinned: map<string, Json>)
    requires FullCaptureMeshProxy(s) && proxy != "direct" && x.healthHost.Some? && x.healthPort.Some?
    requires OneProcessRule(s, x)
    ensures Pins(pinned, HealthItems(x, proxy), x)
    ensures pinned == PinToProcess(HealthItems(x, proxy), ProcessBypassRules(s, x)[0].fields)
  {
    HealthItemsRoute(x, proxy);
    PinAdds(HealthItems(x, proxy), s, x);
    pinned := PinToProcess(HealthItems(x, proxy), ProcessBypassRules(s, x)[0].fields);
  }

  lemma PinSniff(s: Settings, x: Surroundings) returns (pinned: map<string, Json>)
    requires FullCaptureMeshProxy(s) && x.healthPort.Some? && OneProcessRule(s, x)
    ensures Pins(pinned, SniffItems(x), x)
    ensures pinned == PinToProcess(SniffItems(x), ProcessBypassRules(s, x)[0].fields)
  {
    assert SniffItems(x).Keys !! PIN_KEYS;
    PinAdds(SniffItems(x), s, x);
    pinned := PinToProcess(SniffItems(x), ProcessBypassRules(s, x)[0].fields);
  }

  // ------------------------------------------------------------------ peers and DNS

  predicate LeadsTo(cidr: string, flow: Flow) {
    flow.holds("ip_cidr", Strs([cidr]))
  }

  lemma PeerRuleMatches(cidr: string, i: nat, mode: string, flow: Flow)
    requires i < 3
    ensures DecisionOf(PeerRules(cidr)[i]) == Some(Route("direct"))
    ensures Matches(PeerRules(cidr)[i], mode, flow) ==> LeadsTo(cidr, flow)
    ensures i == 2 ==> (Matches(PeerRules(cidr)[i], mode, flow) <==> LeadsTo(cidr, flow))
  {
    var fields := PeerRules(cidr)[i].fields;
    assert "ip_cidr" in fields && fields["ip_cidr"] == Strs([cidr]);
    assert ItemHolds("ip_cidr", fields["ip_cidr"], mode, flow) <==> LeadsTo(cidr, flow);
  }

  lemma PeerDecides(cidr: string, e: Engine, flow: Flow)
    ensures Scan(PeerRules(cidr), e, flow) ==
      if LeadsTo(cidr, flow) then Scanned(Some(Route("direct")), flow) else Scanned(None, flow)
  {
    var rules := PeerRules(cidr);
    PeerRuleMatches(cidr, 0, e.mode, flow);
    PeerRuleMatches(cidr, 1, e.mode, flow);
    PeerRuleMatches(cidr, 2, e.mode, flow);
    ScanOne(rules[2], e, flow);
    assert rules[1..] == [rules[1], rules[2]] && rules[1..][1..] == [rules[2]];
  }

  lemma {:induction false} PeersDecide(cidrs: seq<string>, e: Engine, flow: Flow)
    ensures Scan(PeerRulesFor(cidrs), e, flow) ==
      if exists i :: 0 <= i < |cidrs| && LeadsTo(cidrs[i], flow) then Scanned(Some(Route("direct")), flow)
      else Scanned(None, flow)
  {
    if cidrs != [] {
      PeerDecides(cidrs[0], e, flow);
      PeersDecide(cidrs[1..], e, flow);
      ScanSplits(PeerRules(cidrs[0]), PeerRulesFor(cidrs[1..]), e, flow);
      assert forall i :: 0 < i < |cidrs| ==> cidrs[i] == cidrs[1..][i - 1];
    }
  }

  lemma PeerBypassDecides(s: Settings, x: Surroundings, e: Engine, flow: Flow)
    ensures Scan(PeerBypassRules(s, x), e, flow) ==
      if ToPeer(s, x, flow) then Scanned(Some(Route("direct")), flow) else Scanned(None, flow)
  {
    if MeshIsNode(s) {
      PeersDecide(x.peerCidrs, e, flow);
      assert forall i :: 0 <= i < |x.peerCidrs| ==>
        (LeadsTo(x.peerCidrs[i], flow) <==> flow.holds("ip_cidr", Strs([x.peerCidrs[i]])));
    }
  }

  lemma HijackDecides(key: string, value: Json, e: Engine, flow: Flow)
    requires key == "port" || key == "protocol"
    ensures Scan([Obj(map[key := value, "action" := Str("hijack-dns")])], e, flow) ==
      if flow.holds(key, value) then Scanned(Some(HijackDns), flow) else Scanned(None, flow)
  {
    var rule := Obj(map[key := value, "action" := Str("hijack-dns")]);
    assert key in rule.fields && rule.fields[key] == value;
    assert ItemHolds(key, value, e.mode, flow) <==> flow.holds(key, value);
    ScanOne(rule, e, flow);
  }

  lemma DnsDecides(s: Settings, e: Engine, flow: Flow)
    ensures Scan(DnsHijackRules(s), e, flow) ==
      if IsDns(s, flow) then Scanned(Some(HijackDns), flow) else Scanned(None, flow)
  {
    var port := [Obj(map["port" := Num(53), "action" := Str("hijack-dns")])];
    var protocol := [Obj(map["protocol" := Str("dns"), "action" := Str("hijack-dns")])];
    HijackDecides("port", Num(53), e, flow);
    HijackDecides("protocol", Str("dns"), e, flow);
    ScanSplits(port, protocol, e, flow);
    assert [] + protocol == protocol;
  }

  lemma SniffsUnderTun(s: Settings, e: Engine, flow: Flow)
    ensures Scan(SniffRules(s), e, flow) == Scanned(None, if TunEnabled(s) then e.sniff(flow) else flow)
  {
    if TunEnabled(s) {
      var rule := SniffRules(s)[0];
      assert forall k :: k in rule.fields ==> k in LABEL_KEYS;
      ScanOne(rule, e, flow);
      assert SniffRules(s) == [rule];
    }
  }

  /** The control rules: the health request to the proxy, the process and its peers direct. */
  lemma ControlRulesDecide(s: Settings, x: Surroundings, proxy: string, e: Engine, flow: Flow)
    ensures var seen := Asked(s, x, proxy, e, flow);
      Scan(MeshHealthRules(s, x, proxy) + ProcessBypassRules(s, x) + PeerBypassRules(s, x), e, flow) ==
      if AsksHealthPort(s, x, proxy, seen) && HealthHit(x, proxy, seen) then Scanned(Some(Route(proxy)), seen)
      else if FullCaptureMeshProxy(s) && FromOwnProcess(x, seen) then Scanned(Some(Route("direct")), seen)
      else if ToPeer(s, x, seen) then Scanned(Some(Route("direct")), seen)
      else Scanned(None, seen)
  {
    var seen := Asked(s, x, proxy, e, flow);
    var health, process, peers := MeshHealthRules(s, x, proxy), ProcessBypassRules(s, x), PeerBypassRules(s, x);
    MeshHealthDecides(s, x, proxy, e, flow);
    ProcessBypassDecides(s, x, e, seen);
    PeerBypassDecides(s, x, e, seen);
    ScanSplits(health, process, e, flow);
    ScanSplits(health + process, peers, e, flow);
  }
}

/** Route rules that keep the mesh and the health check on their own paths. */
module ControlPlane {
  import opened Wrappers
  import opened Json
  import opened ProxySettings

  const MESH_ENDPOINT_TAG := "easytier-wg"

  const PROCESS_MATCH_KEYS := {"process_name", "process_path", "process_path_regex"}

  function ProcessNames(x: Surroundings): (names: seq<string>)
    ensures names != []
  {
    if x.exeNames == [] then ["zay"] else x.exeNames
  }

  function ProcessBypassRules(s: Settings, x: Surroundings): seq<Json> {
    if !FullCaptureMeshProxy(s) then []
    else
      var rule := map[
        "action" := Str("route"),
        "inbound" := Strs(["tun-in"]),
        "process_name" := Strs(ProcessNames(x)),
        "outbound" := Str("direct")];
      var pathKey := if x.windows then "process_path_regex" else "process_path";
      [Obj(if x.exePaths == [] then rule else rule[pathKey := Strs(x.exePaths)])]
  }

  predicate IsProcessBypass(rule: Json) {
    && IsStr(Get(rule, "outbound"), "direct")
    && (match Get(rule, "process_name") case Some(Arr(names)) => names != [] case _ => false)
    && Get(rule, "ip_cidr").None?
    && Get(rule, "ip_is_private").None?
  }

  function PeerCidrs(s: Settings, x: Surroundings): seq<string> {
    if s.meshFlag.None? || s.meshRole.None? then [] else x.peerCidrs
  }

  function PeerRules(cidr: string): seq<Json> {
    [ Obj(map["action" := Str("route"), "network" := Str("icmp"),
              "ip_cidr" := Strs([cidr]), "outbound" := Str("direct")]),
      Obj(map["action" := Str("route"), "network" := Strs(["tcp", "udp"]),
              "ip_cidr" := Strs([cidr]), "outbound" := Str("direct")]),
      Obj(map["action" := Str("route"), "ip_cidr" := Strs([cidr]), "outbound" := Str("direct")]) ]
  }

  function PeerRulesFor(cidrs: seq<string>): seq<Json> {
    if cidrs == [] then [] else PeerRules(cidrs[0]) + PeerRulesFor(cidrs[1..])
  }

  function PeerBypassRules(s: Settings, x: Surroundings): seq<Json> {
    if MeshIsNode(s) then PeerRulesFor(PeerCidrs(s, x)) else []
  }

  predicate IsPeerBypass(rule: Json, s: Settings, x: Surroundings) {
    && IsStr(Get(rule, "outbound"), "direct")
    && match Get(rule, "ip_cidr")
       case Some(Arr(entries)) => exists i :: 0 <= i < |entries| && entries[i].Str? && entries[i].s in PeerCidrs(s, x)
       case _ => false
  }

  predicate IsMeshRule(rule: Json) {
    IsStr(Get(rule, "outbound"), MESH_ENDPOINT_TAG) && Get(rule, "ip_cidr").Some?
  }

  function HealthCheckRule(x: Surroundings, proxyTag: string): Option<map<string, Json>> {
    if proxyTag == "direct" then None
    else
      match x.healthHost
      case None => None
      case Some(Address(cidr)) =>
        Some(map["action" := Str("route"), "ip_cidr" := Strs([cidr]), "outbound" := Str(proxyTag)])
      case Some(Name(name)) =>
        Some(map["action" := Str("route"), "domain" := Strs([name]), "outbound" := Str(proxyTag)])
  }

  /** Pins a rule to the process named by the bypass rule. */
  function PinToProcess(rule: map<string, Json>, process: map<string, Json>): map<string, Json>
    requires "inbound" in process
  {
    rule["inbound" := process["inbound"]] + map k | k in process && k in PROCESS_MATCH_KEYS :: process[k]
  }

  /** The health request of the process that hosts the mesh enters the proxy before the bypass. */
  function MeshHealthRules(s: Settings, x: Surroundings, proxyTag: string): seq<Json> {
    var process := ProcessBypassRules(s, x);
    var health := HealthCheckRule(x, proxyTag);
    if process == [] || health.None? || x.healthPort.None? then []
    else
      var port := Arr([Num(x.healthPort.value)]);
      var pinned := PinToProcess(health.value, process[0].fields)["network" := Str("tcp")]["port" := port];
      if "domain" in pinned then
        var sniff := map[
          "action" := Str("sniff"), "network" := Str("tcp"), "port" := port,
          "sniffer" := Strs(["http", "tls"]), "timeout" := Str("2s")];
        [Obj(PinToProcess(sniff, process[0].fields)), Obj(pinned)]
      else [Obj(pinned)]
  }

  lemma {:induction false} PeerRulesSnoc(cidrs: seq<string>, i: nat)
    requires i < |cidrs|
    ensures PeerRulesFor(cidrs[..i + 1]) == PeerRulesFor(cidrs[..i]) + PeerRules(cidrs[i])
  {
    if i > 0 {
      PeerRulesSnoc(cidrs[1..], i - 1);
      assert cidrs[..i + 1][1..] == cidrs[1..][..i] && cidrs[..i][1..] == cidrs[1..][..i - 1];
    }
  }

  /** `peer_bypass_route_rules`: three rules pushed for each peer address. */
  method CollectPeerBypassRules(s: Settings, x: Surroundings) returns (rules: seq<Json>)
    ensures rules == PeerBypassRules(s, x)
  {
    rules := [];
    if !MeshIsNode(s) {
      return;
    }
    var cidrs := PeerCidrs(s, x);
    for i := 0 to |cidrs|
      invariant rules == PeerRulesFor(cidrs[..i])
    {
      PeerRulesSnoc(cidrs, i);
      rules := rules + PeerRules(cidrs[i]);
    }
    assert cidrs[..|cidrs|] == cidrs;
  }

  /** Every generated bypass rule is recognised by the predicate that looks for it. */
  lemma ProcessRulesRecognised(s: Settings, x: Surroundings)
    ensures forall i :: 0 <= i < |ProcessBypassRules(s, x)| ==> IsProcessBypass(ProcessBypassRules(s, x)[i])
  {
    var names := ProcessNames(x);
    assert |Strs(names).items| == |names|;
  }

  lemma {:induction false} PeerRulesRecognised(cidrs: seq<string>, s: Settings, x: Surroundings)
    requires forall i :: 0 <= i < |cidrs| ==> cidrs[i] in PeerCidrs(s, x)
    ensures forall i :: 0 <= i < |PeerRulesFor(cidrs)| ==> IsPeerBypass(PeerRulesFor(cidrs)[i], s, x)
  {
    if cidrs != [] {
      var cidr := cidrs[0];
      assert Strs([cidr]).items[0] == Str(cidr);
      forall i | 0 <= i < 3 ensures IsPeerBypass(PeerRules(cidr)[i], s, x) {
        assert Get(PeerRules(cidr)[i], "ip_cidr") == Some(Strs([cidr]));
      }
      PeerRulesRecognised(cidrs[1..], s, x);
    }
  }
}

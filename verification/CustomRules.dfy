/** User-defined policies compiled to route rules, and what such a rule matches. */
module CustomRules {
  import opened Wrappers
  import opened Text
  import opened Json
  import opened ProxySettings
  import opened ControlPlane
  import opened Routing

  datatype Matchers = Matchers(
    domains: seq<string>,
    suffixes: seq<string>,
    regexes: seq<string>,
    names: seq<string>,
    paths: seq<string>,
    sourceCidrs: seq<string>,
    sourcePorts: seq<nat>,
    cidrs: seq<string>,
    ports: seq<nat>)

  function RegexOf(x: Surroundings, pattern: string): string {
    "^" + (if pattern in x.escaped then x.escaped[pattern] else pattern) + "$"
  }

  function HostPattern(raw: string): string {
    TrimEndChar(Trim(raw), '.')
  }

  // ------------------------------------------------------------- single entries

  /** What one host pattern asks for. */
  datatype HostEntry = NoHost | Exactly(name: string) | Below(suffix: string) | Pattern(regex: string)

  function HostEntryOf(raw: string, x: Surroundings): HostEntry {
    var pattern := HostPattern(raw);
    if "*." <= pattern then Below(pattern[2..])
    else if '*' in pattern then Pattern(RegexOf(x, pattern))
    else if pattern != [] then Exactly(pattern)
    else NoHost
  }

  /** What one process entry asks for: a bare name, or a path. */
  datatype ProcessEntry = NoProcess | ByName(name: string) | ByPath(path: string)

  function ProcessEntryOf(raw: string): ProcessEntry {
    var process := Trim(raw);
    if '/' in process || '\\' in process then ByPath(process)
    else if process != [] then ByName(process)
    else NoProcess
  }

  /** What one endpoint asks for: an address, perhaps with a port, or a name. */
  datatype EndpointEntry = NoEndpoint | At(cidr: string, port: Option<nat>) | Called(name: string)

  function EndpointEntryOf(raw: string, x: Surroundings): EndpointEntry {
    var value := Trim(raw);
    if value == [] then NoEndpoint
    else
      match if value in x.endpoints then x.endpoints[value] else Other
      case Socket(cidr, port) => At(cidr, Some(port))
      case Ip(cidr) => At(cidr, None)
      case Other => if '/' in value then At(value, None) else Called(value)
  }

  // --------------------------------------------------------------- whole lists

  function HostEntries(hosts: seq<string>, x: Surroundings): seq<HostEntry> {
    seq(|hosts|, i requires 0 <= i < |hosts| => HostEntryOf(hosts[i], x))
  }

  function ProcessEntries(processes: seq<string>): seq<ProcessEntry> {
    seq(|processes|, i requires 0 <= i < |processes| => ProcessEntryOf(processes[i]))
  }

  function EndpointEntries(values: seq<string>, x: Surroundings): seq<EndpointEntry> {
    seq(|values|, i requires 0 <= i < |values| => EndpointEntryOf(values[i], x))
  }

  /** The exact names among the first `n` hosts, in order; the other lists are alike. */
  function Names(entries: seq<HostEntry>, n: nat): seq<string>
    requires n <= |entries|
  {
    if n == 0 then [] else Names(entries, n - 1) + if entries[n - 1].Exactly? then [entries[n - 1].name] else []
  }

  function Suffixes(entries: seq<HostEntry>, n: nat): seq<string>
    requires n <= |entries|
  {
    if n == 0 then [] else Suffixes(entries, n - 1) + if entries[n - 1].Below? then [entries[n - 1].suffix] else []
  }

  function Regexes(entries: seq<HostEntry>, n: nat): seq<string>
    requires n <= |entries|
  {
    if n == 0 then [] else Regexes(entries, n - 1) + if entries[n - 1].Pattern? then [entries[n - 1].regex] else []
  }

  function BareNames(entries: seq<ProcessEntry>, n: nat): seq<string>
    requires n <= |entries|
  {
    if n == 0 then [] else BareNames(entries, n - 1) + if entries[n - 1].ByName? then [entries[n - 1].name] else []
  }

  function Paths(entries: seq<ProcessEntry>, n: nat): seq<string>
    requires n <= |entries|
  {
    if n == 0 then [] else Paths(entries, n - 1) + if entries[n - 1].ByPath? then [entries[n - 1].path] else []
  }

  function Addresses(entries: seq<EndpointEntry>, n: nat): seq<string>
    requires n <= |entries|
  {
    if n == 0 then [] else Addresses(entries, n - 1) + if entries[n - 1].At? then [entries[n - 1].cidr] else []
  }

  function Ports(entries: seq<EndpointEntry>, n: nat): seq<nat>
    requires n <= |entries|
  {
    if n == 0 then [] else Ports(entries, n - 1) + PortOf(entries[n - 1])
  }

  function PortOf(entry: EndpointEntry): seq<nat> {
    if entry.At? && entry.port.Some? then [entry.port.value] else []
  }

  function Destinations(entries: seq<EndpointEntry>, n: nat): seq<string>
    requires n <= |entries|
  {
    if n == 0 then [] else Destinations(entries, n - 1) + if entries[n - 1].Called? then [entries[n - 1].name] else []
  }

  const SOURCE_ERROR := "source matcher must be an IP, CIDR, or socket address"

  /** A source must be an address. */
  predicate NoneCalled(entries: seq<EndpointEntry>) {
    forall i :: 0 <= i < |entries| ==> !entries[i].Called?
  }

  /** Which entries of a policy end up in which list of its rule, in order. */
  function Sorted(
    bySuffix: seq<string>, hosts: seq<HostEntry>, processes: seq<ProcessEntry>,
    sources: seq<EndpointEntry>, destinations: seq<EndpointEntry>): Matchers
  {
    Matchers(
      Names(hosts, |hosts|) + Destinations(destinations, |destinations|),
      bySuffix + Suffixes(hosts, |hosts|),
      Regexes(hosts, |hosts|),
      BareNames(processes, |processes|),
      Paths(processes, |processes|),
      Addresses(sources, |sources|),
      Ports(sources, |sources|),
      Addresses(destinations, |destinations|),
      Ports(destinations, |destinations|))
  }

  function MatchersOf(policy: DomainRule, x: Surroundings): Result<Matchers> {
    if !NoneCalled(EndpointEntries(policy.source, x)) then Err(SOURCE_ERROR)
    else
      Ok(Sorted(
        policy.bySuffix, HostEntries(policy.host, x), ProcessEntries(policy.process),
        EndpointEntries(policy.source, x), EndpointEntries(policy.destination, x)))
  }

  function Listed(values: seq<string>): Option<Json> {
    if values == [] then None else Some(Strs(values))
  }

  function ListedPorts(ports: seq<nat>): Option<Json> {
    if ports == [] then None else Some(Arr(seq(|ports|, i requires 0 <= i < |ports| => Num(ports[i]))))
  }

  const RULE_KEYS := {
    "action", "outbound", "domain", "domain_suffix", "domain_regex", "process_name", "process_path",
    "source_ip_cidr", "source_port", "ip_cidr", "port"}

  /** The member a rule has under a key: a list is inserted only when it is not empty. */
  function RuleField(m: Matchers, outbound: string, key: string): Option<Json> {
    if key == "action" then Some(Str("route"))
    else if key == "outbound" then Some(Str(outbound))
    else if key == "domain" then Listed(m.domains)
    else if key == "domain_suffix" then Listed(m.suffixes)
    else if key == "domain_regex" then Listed(m.regexes)
    else if key == "process_name" then Listed(m.names)
    else if key == "process_path" then Listed(m.paths)
    else if key == "source_ip_cidr" then Listed(m.sourceCidrs)
    else if key == "source_port" then ListedPorts(m.sourcePorts)
    else if key == "ip_cidr" then Listed(m.cidrs)
    else if key == "port" then ListedPorts(m.ports)
    else None
  }

  function RuleFields(m: Matchers, outbound: string): map<string, Json> {
    map k | k in RULE_KEYS && RuleField(m, outbound, k).Some? :: RuleField(m, outbound, k).value
  }

  function CustomRule(policy: DomainRule, outbound: string, x: Surroundings): Result<Json> {
    match MatchersOf(policy, x)
    case Err(e) => Err(e)
    case Ok(m) => Ok(Obj(RuleFields(m, outbound)))
  }

  // ------------------------------------------------------------------- building

  /** Sorts hosts by what they ask for: each list holds its own entries, in order. */
  method SortHosts(bySuffix: seq<string>, hosts: seq<HostEntry>)
    returns (domains: seq<string>, suffixes: seq<string>, regexes: seq<string>)
    ensures domains == Names(hosts, |hosts|) && regexes == Regexes(hosts, |hosts|)
    ensures suffixes == bySuffix + Suffixes(hosts, |hosts|)
  {
    domains, suffixes, regexes := [], bySuffix, [];
    for i := 0 to |hosts|
      invariant domains == Names(hosts, i) && regexes == Regexes(hosts, i)
      invariant suffixes == bySuffix + Suffixes(hosts, i)
    {
      match hosts[i]
      case NoHost =>
      case Exactly(name) => domains := domains + [name];
      case Below(suffix) => suffixes := suffixes + [suffix];
      case Pattern(regex) => regexes := regexes + [regex];
    }
  }

  /** Separates bare process names from paths, each in order. */
  method SortProcesses(processes: seq<ProcessEntry>) returns (names: seq<string>, paths: seq<string>)
    ensures names == BareNames(processes, |processes|) && paths == Paths(processes, |processes|)
  {
    names, paths := [], [];
    for i := 0 to |processes|
      invariant names == BareNames(processes, i) && paths == Paths(processes, i)
    {
      match processes[i]
      case NoProcess =>
      case ByName(name) => names := names + [name];
      case ByPath(path) => paths := paths + [path];
    }
  }

  /** `insert_endpoint_matches`: addresses, ports and names in order; a source that is no address is an error. */
  method SortEndpoints(values: seq<EndpointEntry>, source: bool)
    returns (ok: bool, cidrs: seq<string>, ports: seq<nat>, names: seq<string>)
    ensures ok <==> !source || NoneCalled(values)
    ensures ok ==> cidrs == Addresses(values, |values|) && ports == Ports(values, |values|)
    ensures ok ==> names == Destinations(values, |values|)
  {
    cidrs, ports, names := [], [], [];
    for i := 0 to |values|
      invariant source ==> forall j :: 0 <= j < i ==> !values[j].Called?
      invariant cidrs == Addresses(values, i) && ports == Ports(values, i) && names == Destinations(values, i)
    {
      match values[i]
      case NoEndpoint =>
      case At(cidr, port) =>
        cidrs := cidrs + [cidr];
        if port.Some? {
          ports := ports + [port.value];
        }
      case Called(name) =>
        if source {
          return false, [], [], [];
        }
        names := names + [name];
    }
    ok := true;
  }

  /** `custom_rule_route`: one loop over the hosts, one over the processes, one over each endpoint list. */
  method BuildCustomRule(policy: DomainRule, outbound: string, x: Surroundings) returns (rule: Result<Json>)
    ensures rule == CustomRule(policy, outbound, x)
  {
    var domains, suffixes, regexes := SortHosts(policy.bySuffix, HostEntries(policy.host, x));
    var names, paths := SortProcesses(ProcessEntries(policy.process));
    var ok, sourceCidrs, sourcePorts, _ := SortEndpoints(EndpointEntries(policy.source, x), true);
    if !ok {
      return Err(SOURCE_ERROR);
    }
    var _, cidrs, ports, called := SortEndpoints(EndpointEntries(policy.destination, x), false);
    var m := Matchers(domains + called, suffixes, regexes, names, paths, sourceCidrs, sourcePorts, cidrs, ports);
    rule := Ok(Obj(RuleFields(m, outbound)));
  }

  // ------------------------------------------------------------- what the rules mean

  /** Entries that validation accepts but that contribute no matcher. */
  predicate AllBlank(policy: DomainRule) {
    && policy.bySuffix == []
    && (forall i :: 0 <= i < |policy.host| ==> HostPattern(policy.host[i]) == [])
    && (forall i :: 0 <= i < |policy.process| ==> Trim(policy.process[i]) == [])
    && (forall i :: 0 <= i < |policy.source| ==> Trim(policy.source[i]) == [])
    && (forall i :: 0 <= i < |policy.destination| ==> Trim(policy.destination[i]) == [])
  }

  predicate NoneListed(m: Matchers) {
    && m.domains == [] && m.suffixes == [] && m.regexes == [] && m.names == [] && m.paths == []
    && m.sourceCidrs == [] && m.sourcePorts == [] && m.cidrs == [] && m.ports == []
  }

  lemma {:induction false} NoNames(hosts: seq<HostEntry>, n: nat)
    requires n <= |hosts|
    ensures Names(hosts, n) == [] <==> forall i :: 0 <= i < n ==> !hosts[i].Exactly?
  {
    if n > 0 {
      NoNames(hosts, n - 1);
    }
  }

  lemma {:induction false} NoSuffixes(hosts: seq<HostEntry>, n: nat)
    requires n <= |hosts|
    ensures Suffixes(hosts, n) == [] <==> forall i :: 0 <= i < n ==> !hosts[i].Below?
  {
    if n > 0 {
      NoSuffixes(hosts, n - 1);
    }
  }

  lemma {:induction false} NoRegexes(hosts: seq<HostEntry>, n: nat)
    requires n <= |hosts|
    ensures Regexes(hosts, n) == [] <==> forall i :: 0 <= i < n ==> !hosts[i].Pattern?
  {
    if n > 0 {
      NoRegexes(hosts, n - 1);
    }
  }

  lemma {:induction false} NoProcesses(processes: seq<ProcessEntry>, n: nat)
    requires n <= |processes|
    ensures BareNames(processes, n) == [] <==> forall i :: 0 <= i < n ==> !processes[i].ByName?
    ensures Paths(processes, n) == [] <==> forall i :: 0 <= i < n ==> !processes[i].ByPath?
  {
    if n > 0 {
      NoProcesses(processes, n - 1);
    }
  }

  lemma {:induction false} NoEndpoints(values: seq<EndpointEntry>, n: nat)
    requires n <= |values|
    ensures Addresses(values, n) == [] <==> forall i :: 0 <= i < n ==> !values[i].At?
    ensures Destinations(values, n) == [] <==> forall i :: 0 <= i < n ==> !values[i].Called?
    ensures Addresses(values, n) == [] ==> Ports(values, n) == []
  {
    if n > 0 {
      NoEndpoints(values, n - 1);
    }
  }

  lemma {:induction false} AddressesFrom(values: seq<EndpointEntry>, n: nat, cidr: string)
    requires n <= |values|
    ensures cidr in Addresses(values, n) <==> exists i :: 0 <= i < n && values[i].At? && values[i].cidr == cidr
  {
    if n > 0 {
      AddressesFrom(values, n - 1, cidr);
    }
  }

  lemma NothingSorted(
    bySuffix: seq<string>, hosts: seq<HostEntry>, processes: seq<ProcessEntry>,
    sources: seq<EndpointEntry>, destinations: seq<EndpointEntry>)
    requires NoneCalled(sources)
    ensures NoneListed(Sorted(bySuffix, hosts, processes, sources, destinations))
      <==> (&& bySuffix == []
            && (forall i :: 0 <= i < |hosts| ==> hosts[i].NoHost?)
            && (forall i :: 0 <= i < |processes| ==> processes[i].NoProcess?)
            && (forall i :: 0 <= i < |sources| ==> sources[i].NoEndpoint?)
            && (forall i :: 0 <= i < |destinations| ==> destinations[i].NoEndpoint?))
  {
    NoNames(hosts, |hosts|);
    NoSuffixes(hosts, |hosts|);
    NoRegexes(hosts, |hosts|);
    NoProcesses(processes, |processes|);
    NoEndpoints(sources, |sources|);
    NoEndpoints(destinations, |destinations|);
  }

  /** Blank entries are the ones that ask for nothing. */
  lemma BlankHosts(hosts: seq<string>, x: Surroundings)
    ensures (forall i :: 0 <= i < |hosts| ==> HostEntries(hosts, x)[i].NoHost?)
      <==> forall i :: 0 <= i < |hosts| ==> HostPattern(hosts[i]) == []
  {
    assert forall i :: 0 <= i < |hosts| ==> HostEntries(hosts, x)[i] == HostEntryOf(hosts[i], x);
    assert forall i :: 0 <= i < |hosts| ==> (HostEntryOf(hosts[i], x).NoHost? <==> HostPattern(hosts[i]) == []);
  }

  lemma BlankProcesses(processes: seq<string>)
    ensures (forall i :: 0 <= i < |processes| ==> ProcessEntries(processes)[i].NoProcess?)
      <==> forall i :: 0 <= i < |processes| ==> Trim(processes[i]) == []
  {
    assert forall i :: 0 <= i < |processes| ==> ProcessEntries(processes)[i] == ProcessEntryOf(processes[i]);
    assert forall i :: 0 <= i < |processes| ==> (ProcessEntryOf(processes[i]).NoProcess? <==> Trim(processes[i]) == []);
  }

  lemma BlankEndpoints(values: seq<string>, x: Surroundings)
    ensures (forall i :: 0 <= i < |values| ==> EndpointEntries(values, x)[i].NoEndpoint?)
      <==> forall i :: 0 <= i < |values| ==> Trim(values[i]) == []
  {
    assert forall i :: 0 <= i < |values| ==> EndpointEntries(values, x)[i] == EndpointEntryOf(values[i], x);
    assert forall i :: 0 <= i < |values| ==> (EndpointEntryOf(values[i], x).NoEndpoint? <==> Trim(values[i]) == []);
  }

  /** The rule restricts nothing. */
  predicate NoMatcher(rule: Json) {
    rule.Obj? && forall k :: k in rule.fields ==> k in LABEL_KEYS
  }

  lemma NoMatcherTakesAll(rule: Json, mode: string, flow: Flow)
    requires NoMatcher(rule)
    ensures Matches(rule, mode, flow)
  {
  }

  lemma FieldPresent(m: Matchers, outbound: string, key: string)
    requires key in RULE_KEYS
    ensures key in RuleFields(m, outbound) <==> RuleField(m, outbound, key).Some?
  {
  }

  lemma NoMatcherIffNoneListed(m: Matchers, outbound: string)
    ensures NoMatcher(Obj(RuleFields(m, outbound))) <==> NoneListed(m)
  {
    var f := RuleFields(m, outbound);
    if NoMatcher(Obj(f)) {
      assert "domain" !in f && "domain_suffix" !in f && "domain_regex" !in f && "process_name" !in f
        && "process_path" !in f && "source_ip_cidr" !in f && "source_port" !in f && "ip_cidr" !in f && "port" !in f;
      assert m.domains == [] && m.suffixes == [] && m.regexes == [] by {
        FieldPresent(m, outbound, "domain");
        FieldPresent(m, outbound, "domain_suffix");
        FieldPresent(m, outbound, "domain_regex");
      }
      assert m.names == [] && m.paths == [] by {
        FieldPresent(m, outbound, "process_name");
        FieldPresent(m, outbound, "process_path");
      }
      assert m.sourceCidrs == [] && m.sourcePorts == [] by {
        FieldPresent(m, outbound, "source_ip_cidr");
        FieldPresent(m, outbound, "source_port");
      }
      assert m.cidrs == [] && m.ports == [] by {
        FieldPresent(m, outbound, "ip_cidr");
        FieldPresent(m, outbound, "port");
      }
    }
  }

  /**
  A policy that passes validation can still compile to a rule without a matcher, which
  takes every flow: exactly when all its entries are blank.
  */
  lemma CatchAllIffBlank(policy: DomainRule, outbound: string, x: Surroundings)
    requires CustomRule(policy, outbound, x).Ok?
    ensures NoMatcher(CustomRule(policy, outbound, x).value) <==> AllBlank(policy)
  {
    NoMatcherIffNoneListed(MatchersOf(policy, x).value, outbound);
    var hosts, processes := HostEntries(policy.host, x), ProcessEntries(policy.process);
    var sources, destinations := EndpointEntries(policy.source, x), EndpointEntries(policy.destination, x);
    NothingSorted(policy.bySuffix, hosts, processes, sources, destinations);
    BlankHosts(policy.host, x);
    BlankProcesses(policy.process);
    BlankEndpoints(policy.source, x);
    BlankEndpoints(policy.destination, x);
  }

  // ------------------------------------------------ policies and the control plane

  /** Some process entry of the policy is a bare name. */
  predicate NamesProcess(policy: DomainRule) {
    exists i :: 0 <= i < |policy.process| && ProcessEntryOf(policy.process[i]).ByName?
  }

  /** Some destination of the policy is an address. */
  predicate HasAddress(policy: DomainRule, x: Surroundings) {
    exists i :: 0 <= i < |policy.destination| && EndpointEntryOf(policy.destination[i], x).At?
  }

  predicate IsPeer(entry: EndpointEntry, s: Settings, x: Surroundings) {
    entry.At? && entry.cidr in PeerCidrs(s, x)
  }

  /** Some destination of the policy is the address of a peer. */
  predicate LeadsToPeer(policy: DomainRule, s: Settings, x: Surroundings) {
    exists i :: 0 <= i < |policy.destination| && IsPeer(EndpointEntryOf(policy.destination[i], x), s, x)
  }

  lemma NamesCompiled(policy: DomainRule)
    ensures BareNames(ProcessEntries(policy.process), |policy.process|) != [] <==> NamesProcess(policy)
  {
    var entries := ProcessEntries(policy.process);
    NoProcesses(entries, |entries|);
    assert forall i :: 0 <= i < |entries| ==> entries[i] == ProcessEntryOf(policy.process[i]);
  }

  lemma AddressesCompiled(policy: DomainRule, x: Surroundings)
    ensures Addresses(EndpointEntries(policy.destination, x), |policy.destination|) != [] <==> HasAddress(policy, x)
  {
    var entries := EndpointEntries(policy.destination, x);
    NoEndpoints(entries, |entries|);
    assert forall i :: 0 <= i < |entries| ==> entries[i] == EndpointEntryOf(policy.destination[i], x);
  }

  /** The members of a rule that the control-plane predicates look at. */
  lemma FieldsOf(m: Matchers, outbound: string)
    ensures var rule := Obj(RuleFields(m, outbound));
      && Get(rule, "outbound") == Some(Str(outbound))
      && Get(rule, "process_name") == Listed(m.names) && Get(rule, "ip_cidr") == Listed(m.cidrs)
      && Get(rule, "ip_is_private").None? && Get(rule, "inbound").None?
  {
    FieldPresent(m, outbound, "outbound");
    FieldPresent(m, outbound, "process_name");
    FieldPresent(m, outbound, "ip_cidr");
    assert "ip_is_private" !in RULE_KEYS && "inbound" !in RULE_KEYS;
  }

  lemma ProcessBypassOf(m: Matchers, outbound: string)
    ensures IsProcessBypass(Obj(RuleFields(m, outbound))) <==> outbound == "direct" && m.names != [] && m.cidrs == []
  {
    FieldsOf(m, outbound);
    assert |Strs(m.names).items| == |m.names|;
  }

  lemma PeerBypassOf(m: Matchers, outbound: string, s: Settings, x: Surroundings)
    ensures IsPeerBypass(Obj(RuleFields(m, outbound)), s, x)
      <==> outbound == "direct" && exists cidr :: cidr in m.cidrs && cidr in PeerCidrs(s, x)
  {
    FieldsOf(m, outbound);
    var items := Strs(m.cidrs).items;
    assert forall i :: 0 <= i < |items| ==> items[i] == Str(m.cidrs[i]);
    if cidr :| cidr in m.cidrs && cidr in PeerCidrs(s, x) {
      var i :| 0 <= i < |m.cidrs| && m.cidrs[i] == cidr;
      assert items[i].s == cidr;
    }
  }

  /**
  The predicate meant for the mesh's own process bypass also recognises a user's rule: exactly
  the direct ones that name a process and lead to no address.
  */
  lemma TakenForProcessBypass(policy: DomainRule, outbound: string, x: Surroundings)
    requires CustomRule(policy, outbound, x).Ok?
    ensures IsProcessBypass(CustomRule(policy, outbound, x).value)
      <==> outbound == "direct" && NamesProcess(policy) && !HasAddress(policy, x)
  {
    ProcessBypassOf(MatchersOf(policy, x).value, outbound);
    NamesCompiled(policy);
    AddressesCompiled(policy, x);
  }

  /** And the one meant for peers recognises exactly the direct ones that lead to a peer's address. */
  lemma TakenForPeerBypass(policy: DomainRule, outbound: string, s: Settings, x: Surroundings)
    requires CustomRule(policy, outbound, x).Ok?
    ensures IsPeerBypass(CustomRule(policy, outbound, x).value, s, x)
      <==> outbound == "direct" && LeadsToPeer(policy, s, x)
  {
    PeerBypassOf(MatchersOf(policy, x).value, outbound, s, x);
    PeersCompiled(EndpointEntries(policy.destination, x), s, x);
    var entries := EndpointEntries(policy.destination, x);
    assert forall i :: 0 <= i < |entries| ==> entries[i] == EndpointEntryOf(policy.destination[i], x);
  }

  lemma PeersCompiled(entries: seq<EndpointEntry>, s: Settings, x: Surroundings)
    ensures (exists cidr :: cidr in Addresses(entries, |entries|) && cidr in PeerCidrs(s, x))
      <==> exists i :: 0 <= i < |entries| && IsPeer(entries[i], s, x)
  {
    if cidr :| cidr in Addresses(entries, |entries|) && cidr in PeerCidrs(s, x) {
      AddressesFrom(entries, |entries|, cidr);
    }
    if i :| 0 <= i < |entries| && IsPeer(entries[i], s, x) {
      AddressesFrom(entries, |entries|, entries[i].cidr);
    }
  }

  /** The one meant for mesh routes recognises rules for the mesh endpoint that lead to an address. */
  lemma TakenForMeshRule(policy: DomainRule, outbound: string, x: Surroundings)
    requires CustomRule(policy, outbound, x).Ok?
    ensures IsMeshRule(CustomRule(policy, outbound, x).value)
      <==> outbound == MESH_ENDPOINT_TAG && HasAddress(policy, x)
  {
    FieldsOf(MatchersOf(policy, x).value, outbound);
    AddressesCompiled(policy, x);
  }
}

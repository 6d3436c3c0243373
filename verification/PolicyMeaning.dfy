/** Which connections a policy takes, read off the text of its entries. */
module PolicyMeaning {
  import opened Wrappers
  import opened Text
  import opened Json
  import opened ProxySettings
  import opened Routing
  import opened CustomRules
  import ClashRules

  /** A connection: its ends, its process, and the ranges and patterns that cover it. */
  datatype Packet = Packet(
    host: string, port: nat, to: set<string>, patterns: set<string>,
    process: string, path: string, sourcePort: nat, from: set<string>)

  predicate SameName(a: string, b: string) {
    ClashRules.Normal(a) == ClashRules.Normal(b)
  }

  predicate OneHolds(p: Packet, key: string, value: Json) {
    if value.Str? then TextHolds(p, key, value.s)
    else if key == "source_port" then value == Num(p.sourcePort)
    else key == "port" && value == Num(p.port)
  }

  predicate TextHolds(p: Packet, key: string, text: string) {
    if key == "domain" then SameName(p.host, text)
    else if key == "domain_suffix" then ClashRules.SuffixMatches(text, p.host)
    else if key == "domain_regex" then text in p.patterns
    else if key == "ip_cidr" then text in p.to
    else if key == "process_name" then text == p.process
    else if key == "process_path" then text == p.path
    else key == "source_ip_cidr" && text in p.from
  }

  /** What rules see of a connection: a list of values holds when one of them does. */
  predicate AnyHolds(p: Packet, key: string, value: Json) {
    value.Arr? && exists i :: 0 <= i < |value.items| && OneHolds(p, key, value.items[i])
  }

  function Shown(p: Packet): Flow {
    Flow({}, false, (key, value) => AnyHolds(p, key, value))
  }

  lemma TextsHold(p: Packet, key: string, texts: seq<string>)
    ensures Shown(p).holds(key, Strs(texts)) <==> exists i :: 0 <= i < |texts| && OneHolds(p, key, Str(texts[i]))
  {
    var items := Strs(texts).items;
    assert forall i :: 0 <= i < |items| ==> items[i] == Str(texts[i]);
  }

  lemma NumbersHold(p: Packet, key: string, numbers: seq<nat>)
    requires numbers != []
    ensures Shown(p).holds(key, ListedPorts(numbers).value)
      <==> exists i :: 0 <= i < |numbers| && OneHolds(p, key, Num(numbers[i]))
  {
    var items := ListedPorts(numbers).value.items;
    assert forall i :: 0 <= i < |items| ==> items[i] == Num(numbers[i]);
  }

  // ------------------------------------------------------------------ sorted lists

  predicate NoAddresses(m: Matchers) {
    m.domains == [] && m.suffixes == [] && m.regexes == [] && m.cidrs == []
  }

  predicate SomeText(flow: Flow, key: string, texts: seq<string>) {
    texts != [] && flow.holds(key, Strs(texts))
  }

  predicate SomeNumber(flow: Flow, key: string, numbers: seq<nat>) {
    numbers != [] && flow.holds(key, ListedPorts(numbers).value)
  }

  predicate AddressHolds(m: Matchers, flow: Flow) {
    || SomeText(flow, "domain", m.domains) || SomeText(flow, "domain_suffix", m.suffixes)
    || SomeText(flow, "domain_regex", m.regexes) || SomeText(flow, "ip_cidr", m.cidrs)
  }

  predicate RestHolds(m: Matchers, flow: Flow) {
    && (m.names == [] || SomeText(flow, "process_name", m.names))
    && (m.paths == [] || SomeText(flow, "process_path", m.paths))
    && (m.sourceCidrs == [] || SomeText(flow, "source_ip_cidr", m.sourceCidrs))
    && (m.sourcePorts == [] || SomeNumber(flow, "source_port", m.sourcePorts))
    && (m.ports == [] || SomeNumber(flow, "port", m.ports))
  }

  /** A field stands for a list: it is there when the list is not empty, and holds when the list does. */
  predicate StandsFor(fields: map<string, Json>, key: string, listed: bool, holds: bool, mode: string, flow: Flow) {
    (key in fields <==> listed) && (key in fields ==> (ItemHolds(key, fields[key], mode, flow) <==> holds))
  }

  lemma TextField(m: Matchers, outbound: string, key: string, texts: seq<string>, mode: string, flow: Flow)
    requires key in RULE_KEYS && RuleField(m, outbound, key) == Listed(texts)
    ensures StandsFor(RuleFields(m, outbound), key, texts != [], SomeText(flow, key, texts), mode, flow)
  {
    FieldPresent(m, outbound, key);
    assert key != "clash_mode" && key != "rule_set" && key != "ip_is_private";
  }

  lemma NumberField(m: Matchers, outbound: string, key: string, numbers: seq<nat>, mode: string, flow: Flow)
    requires key in RULE_KEYS && RuleField(m, outbound, key) == ListedPorts(numbers)
    ensures StandsFor(RuleFields(m, outbound), key, numbers != [], SomeNumber(flow, key, numbers), mode, flow)
  {
    FieldPresent(m, outbound, key);
    assert key != "clash_mode" && key != "rule_set" && key != "ip_is_private";
  }

  /** Matching by fields, once it is known what each field stands for. */
  lemma AddressFields(fields: map<string, Json>, m: Matchers, mode: string, flow: Flow)
    requires fields.Keys <= RULE_KEYS
    requires StandsFor(fields, "domain", m.domains != [], SomeText(flow, "domain", m.domains), mode, flow)
    requires StandsFor(
      fields, "domain_suffix", m.suffixes != [], SomeText(flow, "domain_suffix", m.suffixes), mode, flow)
    requires StandsFor(fields, "domain_regex", m.regexes != [], SomeText(flow, "domain_regex", m.regexes), mode, flow)
    requires StandsFor(fields, "ip_cidr", m.cidrs != [], SomeText(flow, "ip_cidr", m.cidrs), mode, flow)
    ensures (forall k :: k in fields ==> k !in ADDRESS_KEYS) <==> NoAddresses(m)
    ensures (exists k :: k in fields && k in ADDRESS_KEYS && ItemHolds(k, fields[k], mode, flow))
      <==> AddressHolds(m, flow)
  {
    assert RULE_KEYS * ADDRESS_KEYS == {"domain", "domain_suffix", "domain_regex", "ip_cidr"};
    assert forall k :: k in fields && k in ADDRESS_KEYS ==> k in RULE_KEYS * ADDRESS_KEYS;
  }

  lemma RestFields(fields: map<string, Json>, m: Matchers, mode: string, flow: Flow)
    requires fields.Keys <= RULE_KEYS
    requires StandsFor(fields, "process_name", m.names != [], SomeText(flow, "process_name", m.names), mode, flow)
    requires StandsFor(fields, "process_path", m.paths != [], SomeText(flow, "process_path", m.paths), mode, flow)
    requires StandsFor(
      fields, "source_ip_cidr", m.sourceCidrs != [], SomeText(flow, "source_ip_cidr", m.sourceCidrs), mode, flow)
    requires StandsFor(
      fields, "source_port", m.sourcePorts != [], SomeNumber(flow, "source_port", m.sourcePorts), mode, flow)
    requires StandsFor(fields, "port", m.ports != [], SomeNumber(flow, "port", m.ports), mode, flow)
    ensures (forall k :: k in fields && k !in ADDRESS_KEYS && k !in LABEL_KEYS ==> ItemHolds(k, fields[k], mode, flow))
      <==> RestHolds(m, flow)
  {
    var rest := RULE_KEYS - ADDRESS_KEYS - LABEL_KEYS;
    assert rest == {"process_name", "process_path", "source_ip_cidr", "source_port", "port"};
    assert forall k :: k in fields && k !in ADDRESS_KEYS && k !in LABEL_KEYS ==> k in rest;
  }

  lemma AddressParts(m: Matchers, outbound: string, mode: string, flow: Flow)
    ensures var fields := RuleFields(m, outbound);
      && ((forall k :: k in fields ==> k !in ADDRESS_KEYS) <==> NoAddresses(m))
      && ((exists k :: k in fields && k in ADDRESS_KEYS && ItemHolds(k, fields[k], mode, flow))
          <==> AddressHolds(m, flow))
  {
    TextField(m, outbound, "domain", m.domains, mode, flow);
    TextField(m, outbound, "domain_suffix", m.suffixes, mode, flow);
    TextField(m, outbound, "domain_regex", m.regexes, mode, flow);
    TextField(m, outbound, "ip_cidr", m.cidrs, mode, flow);
    AddressFields(RuleFields(m, outbound), m, mode, flow);
  }

  lemma RestParts(m: Matchers, outbound: string, mode: string, flow: Flow)
    ensures var fields := RuleFields(m, outbound);
      (forall k :: k in fields && k !in ADDRESS_KEYS && k !in LABEL_KEYS ==> ItemHolds(k, fields[k], mode, flow))
      <==> RestHolds(m, flow)
  {
    TextField(m, outbound, "process_name", m.names, mode, flow);
    TextField(m, outbound, "process_path", m.paths, mode, flow);
    TextField(m, outbound, "source_ip_cidr", m.sourceCidrs, mode, flow);
    NumberField(m, outbound, "source_port", m.sourcePorts, mode, flow);
    NumberField(m, outbound, "port", m.ports, mode, flow);
    RestFields(RuleFields(m, outbound), m, mode, flow);
  }

  lemma RuleHolds(m: Matchers, outbound: string, mode: string, flow: Flow)
    ensures Matches(Obj(RuleFields(m, outbound)), mode, flow)
      <==> (NoAddresses(m) || AddressHolds(m, flow)) && RestHolds(m, flow)
  {
    AddressParts(m, outbound, mode, flow);
    RestParts(m, outbound, mode, flow);
  }

  // -------------------------------------------------------------- lists and entries

  lemma {:induction false} HostListsFrom(entries: seq<HostEntry>, n: nat, v: string)
    requires n <= |entries|
    ensures v in Names(entries, n) <==> Exactly(v) in entries[..n]
    ensures v in Suffixes(entries, n) <==> Below(v) in entries[..n]
    ensures v in Regexes(entries, n) <==> Pattern(v) in entries[..n]
  {
    if n > 0 {
      HostListsFrom(entries, n - 1, v);
      assert entries[..n] == entries[..n - 1] + [entries[n - 1]];
    }
  }

  lemma {:induction false} ProcessListsFrom(entries: seq<ProcessEntry>, n: nat, v: string)
    requires n <= |entries|
    ensures v in BareNames(entries, n) <==> ByName(v) in entries[..n]
    ensures v in Paths(entries, n) <==> ByPath(v) in entries[..n]
  {
    if n > 0 {
      ProcessListsFrom(entries, n - 1, v);
      assert entries[..n] == entries[..n - 1] + [entries[n - 1]];
    }
  }

  lemma {:induction false} DestinationsFrom(entries: seq<EndpointEntry>, n: nat, v: string)
    requires n <= |entries|
    ensures v in Destinations(entries, n) <==> Called(v) in entries[..n]
  {
    if n > 0 {
      DestinationsFrom(entries, n - 1, v);
      assert entries[..n] == entries[..n - 1] + [entries[n - 1]];
    }
  }

  lemma {:induction false} PortsFrom(entries: seq<EndpointEntry>, n: nat, port: nat)
    requires n <= |entries|
    ensures port in Ports(entries, n)
      <==> exists i :: 0 <= i < n && HasPort(entries[i]) && entries[i].port.value == port
  {
    if n > 0 {
      PortsFrom(entries, n - 1, port);
    }
  }

  // ------------------------------------------------------------------ policies

  /** The connection goes to what the host entry asks for. */
  predicate HostHit(entry: HostEntry, p: Packet) {
    match entry
    case NoHost => false
    case Exactly(name) => SameName(p.host, name)
    case Below(suffix) => ClashRules.SuffixMatches(suffix, p.host)
    case Pattern(regex) => regex in p.patterns
  }

  predicate DestinationHit(entry: EndpointEntry, p: Packet) {
    match entry
    case NoEndpoint => false
    case At(cidr, _) => cidr in p.to
    case Called(name) => SameName(p.host, name)
  }

  /** Some entry names where to. */
  predicate NamesWhereTo(suffixes: seq<string>, hosts: seq<HostEntry>, destinations: seq<EndpointEntry>) {
    || suffixes != []
    || (exists i :: 0 <= i < |hosts| && !hosts[i].NoHost?)
    || (exists i :: 0 <= i < |destinations| && !destinations[i].NoEndpoint?)
  }

  predicate GoesThere(suffixes: seq<string>, hosts: seq<HostEntry>, destinations: seq<EndpointEntry>, p: Packet) {
    || (exists i :: 0 <= i < |suffixes| && ClashRules.SuffixMatches(suffixes[i], p.host))
    || (exists i :: 0 <= i < |hosts| && HostHit(hosts[i], p))
    || (exists i :: 0 <= i < |destinations| && DestinationHit(destinations[i], p))
  }

  /** Bare names and paths are asked for separately: each list that is not empty must hold the process. */
  predicate ComesFromProcess(processes: seq<ProcessEntry>, p: Packet) {
    && ((exists i :: 0 <= i < |processes| && processes[i].ByName?) ==> ByName(p.process) in processes)
    && ((exists i :: 0 <= i < |processes| && processes[i].ByPath?) ==> ByPath(p.path) in processes)
  }

  predicate InRange(entry: EndpointEntry, ranges: set<string>) {
    entry.At? && entry.cidr in ranges
  }

  predicate ComesFromSource(sources: seq<EndpointEntry>, p: Packet) {
    (exists i :: 0 <= i < |sources| && sources[i].At?) ==> exists i :: 0 <= i < |sources| && InRange(sources[i], p.from)
  }

  predicate HasPort(entry: EndpointEntry) {
    entry.At? && entry.port.Some?
  }

  /** One port on any entry restricts them all. */
  predicate UsesPort(entries: seq<EndpointEntry>, port: nat) {
    (exists i :: 0 <= i < |entries| && HasPort(entries[i])) ==>
      exists i :: 0 <= i < |entries| && HasPort(entries[i]) && entries[i].port.value == port
  }

  /** What the entries of a policy say of a connection. */
  predicate Wants(policy: DomainRule, x: Surroundings, p: Packet) {
    var hosts, processes := HostEntries(policy.host, x), ProcessEntries(policy.process);
    var sources, destinations := EndpointEntries(policy.source, x), EndpointEntries(policy.destination, x);
    && (NamesWhereTo(policy.bySuffix, hosts, destinations) ==> GoesThere(policy.bySuffix, hosts, destinations, p))
    && ComesFromProcess(processes, p)
    && ComesFromSource(sources, p) && UsesPort(sources, p.sourcePort) && UsesPort(destinations, p.port)
  }

  // ------------------------------------------------------------------ the connection

  lemma SomeTextHolds(p: Packet, key: string, texts: seq<string>)
    ensures SomeText(Shown(p), key, texts) <==> exists v :: v in texts && TextHolds(p, key, v)
  {
    TextsHold(p, key, texts);
    if v :| v in texts && TextHolds(p, key, v) {
      var i :| 0 <= i < |texts| && texts[i] == v;
      assert OneHolds(p, key, Str(texts[i]));
    }
  }

  lemma NumberHolds(p: Packet, key: string, numbers: seq<nat>)
    ensures SomeNumber(Shown(p), key, numbers) <==> exists v :: v in numbers && OneHolds(p, key, Num(v))
  {
    if numbers != [] {
      NumbersHold(p, key, numbers);
      if v :| v in numbers && OneHolds(p, key, Num(v)) {
        var i :| 0 <= i < |numbers| && numbers[i] == v;
        assert OneHolds(p, key, Num(numbers[i]));
      }
    }
  }

  /** The names of a rule, and where they come from. */
  lemma NamesHold(p: Packet, hosts: seq<HostEntry>, destinations: seq<EndpointEntry>)
    ensures SomeText(Shown(p), "domain", Names(hosts, |hosts|) + Destinations(destinations, |destinations|)) <==>
      || (exists i :: 0 <= i < |hosts| && hosts[i].Exactly? && SameName(p.host, hosts[i].name))
      || (exists i :: 0 <= i < |destinations| && destinations[i].Called? && SameName(p.host, destinations[i].name))
  {
    var names, called := Names(hosts, |hosts|), Destinations(destinations, |destinations|);
    SomeTextHolds(p, "domain", names + called);
    assert hosts[..|hosts|] == hosts && destinations[..|destinations|] == destinations;
    forall v ensures v in names + called <==> Exactly(v) in hosts || Called(v) in destinations {
      HostListsFrom(hosts, |hosts|, v);
      DestinationsFrom(destinations, |destinations|, v);
    }
    NamesIn(p.host, names + called, hosts, destinations);
  }

  lemma NamesIn(host: string, names: seq<string>, hosts: seq<HostEntry>, destinations: seq<EndpointEntry>)
    requires forall v :: v in names <==> Exactly(v) in hosts || Called(v) in destinations
    ensures (exists v :: v in names && SameName(host, v)) <==>
      || (exists i :: 0 <= i < |hosts| && hosts[i].Exactly? && SameName(host, hosts[i].name))
      || (exists i :: 0 <= i < |destinations| && destinations[i].Called? && SameName(host, destinations[i].name))
  {
    if v :| v in names && SameName(host, v) {
      if Exactly(v) in hosts {
        var i :| 0 <= i < |hosts| && hosts[i] == Exactly(v);
      } else {
        var i :| 0 <= i < |destinations| && destinations[i] == Called(v);
      }
    }
    if i :| 0 <= i < |hosts| && hosts[i].Exactly? && SameName(host, hosts[i].name) {
      assert hosts[i] == Exactly(hosts[i].name);
    }
    if i :| 0 <= i < |destinations| && destinations[i].Called? && SameName(host, destinations[i].name) {
      assert destinations[i] == Called(destinations[i].name);
    }
  }

  lemma SuffixesHold(p: Packet, suffixes: seq<string>, hosts: seq<HostEntry>)
    ensures SomeText(Shown(p), "domain_suffix", suffixes + Suffixes(hosts, |hosts|)) <==>
      || (exists i :: 0 <= i < |suffixes| && ClashRules.SuffixMatches(suffixes[i], p.host))
      || (exists i :: 0 <= i < |hosts| && hosts[i].Below? && ClashRules.SuffixMatches(hosts[i].suffix, p.host))
  {
    var below := Suffixes(hosts, |hosts|);
    SomeTextHolds(p, "domain_suffix", suffixes + below);
    assert hosts[..|hosts|] == hosts;
    forall v ensures v in suffixes + below <==> v in suffixes || Below(v) in hosts {
      HostListsFrom(hosts, |hosts|, v);
    }
    SuffixesIn(p.host, suffixes + below, suffixes, hosts);
  }

  lemma SuffixesIn(host: string, all: seq<string>, suffixes: seq<string>, hosts: seq<HostEntry>)
    requires forall v :: v in all <==> v in suffixes || Below(v) in hosts
    ensures (exists v :: v in all && ClashRules.SuffixMatches(v, host)) <==>
      || (exists i :: 0 <= i < |suffixes| && ClashRules.SuffixMatches(suffixes[i], host))
      || (exists i :: 0 <= i < |hosts| && hosts[i].Below? && ClashRules.SuffixMatches(hosts[i].suffix, host))
  {
    if v :| v in all && ClashRules.SuffixMatches(v, host) {
      if v in suffixes {
        var i :| 0 <= i < |suffixes| && suffixes[i] == v;
      } else {
        var i :| 0 <= i < |hosts| && hosts[i] == Below(v);
      }
    }
    if i :| 0 <= i < |suffixes| && ClashRules.SuffixMatches(suffixes[i], host) {
      assert suffixes[i] in all;
    }
    if i :| 0 <= i < |hosts| && hosts[i].Below? && ClashRules.SuffixMatches(hosts[i].suffix, host) {
      assert hosts[i] == Below(hosts[i].suffix);
    }
  }

  lemma RegexesHold(p: Packet, hosts: seq<HostEntry>)
    ensures SomeText(Shown(p), "domain_regex", Regexes(hosts, |hosts|)) <==>
      exists i :: 0 <= i < |hosts| && hosts[i].Pattern? && hosts[i].regex in p.patterns
  {
    var regexes := Regexes(hosts, |hosts|);
    SomeTextHolds(p, "domain_regex", regexes);
    assert hosts[..|hosts|] == hosts;
    forall v ensures v in regexes <==> Pattern(v) in hosts {
      HostListsFrom(hosts, |hosts|, v);
    }
    if v :| v in regexes && TextHolds(p, "domain_regex", v) {
      var i :| 0 <= i < |hosts| && hosts[i] == Pattern(v);
    }
    if i :| 0 <= i < |hosts| && hosts[i].Pattern? && hosts[i].regex in p.patterns {
      assert hosts[i] == Pattern(hosts[i].regex) && TextHolds(p, "domain_regex", hosts[i].regex);
    }
  }

  lemma RangesHold(p: Packet, key: string, entries: seq<EndpointEntry>)
    requires key == "ip_cidr" || key == "source_ip_cidr"
    ensures var ranges := if key == "ip_cidr" then p.to else p.from;
      SomeText(Shown(p), key, Addresses(entries, |entries|)) <==>
      exists i :: 0 <= i < |entries| && InRange(entries[i], ranges)
  {
    var cidrs, ranges := Addresses(entries, |entries|), if key == "ip_cidr" then p.to else p.from;
    SomeTextHolds(p, key, cidrs);
    if v :| v in cidrs && TextHolds(p, key, v) {
      AddressesFrom(entries, |entries|, v);
      var i :| 0 <= i < |entries| && entries[i].At? && entries[i].cidr == v;
      assert InRange(entries[i], ranges);
    }
    if i :| 0 <= i < |entries| && InRange(entries[i], ranges) {
      AddressesFrom(entries, |entries|, entries[i].cidr);
      assert TextHolds(p, key, entries[i].cidr);
    }
  }

  lemma ProcessesHold(p: Packet, processes: seq<ProcessEntry>)
    ensures SomeText(Shown(p), "process_name", BareNames(processes, |processes|)) <==> ByName(p.process) in processes
    ensures SomeText(Shown(p), "process_path", Paths(processes, |processes|)) <==> ByPath(p.path) in processes
  {
    var names, paths := BareNames(processes, |processes|), Paths(processes, |processes|);
    SomeTextHolds(p, "process_name", names);
    SomeTextHolds(p, "process_path", paths);
    assert processes[..|processes|] == processes;
    ProcessListsFrom(processes, |processes|, p.process);
    ProcessListsFrom(processes, |processes|, p.path);
    assert TextHolds(p, "process_name", p.process) && TextHolds(p, "process_path", p.path);
  }

  lemma {:induction false} NoPorts(entries: seq<EndpointEntry>, n: nat)
    requires n <= |entries|
    ensures Ports(entries, n) == [] <==> forall i :: 0 <= i < n ==> !HasPort(entries[i])
  {
    if n > 0 {
      NoPorts(entries, n - 1);
      assert |Ports(entries, n)| == |Ports(entries, n - 1)| + |PortOf(entries[n - 1])|;
    }
  }

  lemma PortsHold(p: Packet, key: string, entries: seq<EndpointEntry>)
    requires key == "port" || key == "source_port"
    ensures var port := if key == "port" then p.port else p.sourcePort;
      var ports := Ports(entries, |entries|);
      ports == [] || SomeNumber(Shown(p), key, ports) <==> UsesPort(entries, port)
  {
    var ports, port := Ports(entries, |entries|), if key == "port" then p.port else p.sourcePort;
    NumberHolds(p, key, ports);
    NoPorts(entries, |entries|);
    PortsFrom(entries, |entries|, port);
    assert forall v :: OneHolds(p, key, Num(v)) <==> v == port;
  }

  lemma HostHits(p: Packet, hosts: seq<HostEntry>)
    ensures (exists i :: 0 <= i < |hosts| && HostHit(hosts[i], p)) <==>
      || (exists i :: 0 <= i < |hosts| && hosts[i].Exactly? && SameName(p.host, hosts[i].name))
      || (exists i :: 0 <= i < |hosts| && hosts[i].Below? && ClashRules.SuffixMatches(hosts[i].suffix, p.host))
      || (exists i :: 0 <= i < |hosts| && hosts[i].Pattern? && hosts[i].regex in p.patterns)
  {
    if i :| 0 <= i < |hosts| && hosts[i].Exactly? && SameName(p.host, hosts[i].name) {
      assert HostHit(hosts[i], p);
    }
    if i :| 0 <= i < |hosts| && hosts[i].Below? && ClashRules.SuffixMatches(hosts[i].suffix, p.host) {
      assert HostHit(hosts[i], p);
    }
    if i :| 0 <= i < |hosts| && hosts[i].Pattern? && hosts[i].regex in p.patterns {
      assert HostHit(hosts[i], p);
    }
  }

  lemma DestinationHits(p: Packet, destinations: seq<EndpointEntry>)
    ensures (exists i :: 0 <= i < |destinations| && DestinationHit(destinations[i], p)) <==>
      || (exists i :: 0 <= i < |destinations| && InRange(destinations[i], p.to))
      || (exists i :: 0 <= i < |destinations| && destinations[i].Called? && SameName(p.host, destinations[i].name))
  {
    if i :| 0 <= i < |destinations| && InRange(destinations[i], p.to) {
      assert DestinationHit(destinations[i], p);
    }
    if i :| 0 <= i < |destinations| && destinations[i].Called? && SameName(p.host, destinations[i].name) {
      assert DestinationHit(destinations[i], p);
    }
    if i :| 0 <= i < |destinations| && DestinationHit(destinations[i], p) {
      assert destinations[i].At? ==> InRange(destinations[i], p.to);
    }
  }

  lemma NothingListed(m: Matchers, suffixes: seq<string>, hosts: seq<HostEntry>, destinations: seq<EndpointEntry>)
    requires m.domains == Names(hosts, |hosts|) + Destinations(destinations, |destinations|)
    requires m.suffixes == suffixes + Suffixes(hosts, |hosts|) && m.regexes == Regexes(hosts, |hosts|)
    requires m.cidrs == Addresses(destinations, |destinations|)
    ensures NoAddresses(m) <==> !NamesWhereTo(suffixes, hosts, destinations)
  {
    NoNames(hosts, |hosts|);
    NoSuffixes(hosts, |hosts|);
    NoRegexes(hosts, |hosts|);
    NoEndpoints(destinations, |destinations|);
  }

  lemma AddressSide(
    p: Packet, m: Matchers, suffixes: seq<string>, hosts: seq<HostEntry>, destinations: seq<EndpointEntry>)
    requires m.domains == Names(hosts, |hosts|) + Destinations(destinations, |destinations|)
    requires m.suffixes == suffixes + Suffixes(hosts, |hosts|) && m.regexes == Regexes(hosts, |hosts|)
    requires m.cidrs == Addresses(destinations, |destinations|)
    ensures AddressHolds(m, Shown(p)) <==> GoesThere(suffixes, hosts, destinations, p)
  {
    NamesHold(p, hosts, destinations);
    SuffixesHold(p, suffixes, hosts);
    RegexesHold(p, hosts);
    RangesHold(p, "ip_cidr", destinations);
    HostHits(p, hosts);
    DestinationHits(p, destinations);
  }

  lemma OtherSide(
    p: Packet, m: Matchers, processes: seq<ProcessEntry>, sources: seq<EndpointEntry>,
    destinations: seq<EndpointEntry>)
    requires m.names == BareNames(processes, |processes|) && m.paths == Paths(processes, |processes|)
    requires m.sourceCidrs == Addresses(sources, |sources|) && m.sourcePorts == Ports(sources, |sources|)
    requires m.ports == Ports(destinations, |destinations|)
    ensures RestHolds(m, Shown(p)) <==>
      && ComesFromProcess(processes, p) && ComesFromSource(sources, p)
      && UsesPort(sources, p.sourcePort) && UsesPort(destinations, p.port)
  {
    NoProcesses(processes, |processes|);
    NoEndpoints(sources, |sources|);
    ProcessesHold(p, processes);
    RangesHold(p, "source_ip_cidr", sources);
    PortsHold(p, "source_port", sources);
    PortsHold(p, "port", destinations);
  }

  /** The rule of a policy matches exactly the connections its entries ask for, in every mode. */
  lemma PolicyTakesWhatItWants(policy: DomainRule, outbound: string, x: Surroundings, mode: string, p: Packet)
    requires CustomRule(policy, outbound, x).Ok?
    ensures Matches(CustomRule(policy, outbound, x).value, mode, Shown(p)) <==> Wants(policy, x, p)
  {
    var m := MatchersOf(policy, x).value;
    var hosts, processes := HostEntries(policy.host, x), ProcessEntries(policy.process);
    var sources, destinations := EndpointEntries(policy.source, x), EndpointEntries(policy.destination, x);
    RuleHolds(m, outbound, mode, Shown(p));
    NothingListed(m, policy.bySuffix, hosts, destinations);
    AddressSide(p, m, policy.bySuffix, hosts, destinations);
    OtherSide(p, m, processes, sources, destinations);
  }

  // ------------------------------------------------------------------ spellings

  predicate Clean(text: string) {
    text != [] && NoSpace(text)
  }

  lemma UndottedEnd(text: string)
    requires text == [] || text[|text| - 1] != '.'
    ensures TrimEndChar(text, '.') == text && TrimEndChar(text + ".", '.') == text
  {
    assert (text + ".")[..|text|] == text;
  }

  /** A name stands for itself, also with a final dot; behind `*.` it is a suffix; other stars make a pattern. */
  lemma HostSpellings(name: string, x: Surroundings)
    requires Clean(name) && name[|name| - 1] != '.'
    ensures '*' !in name ==> HostEntryOf(name, x) == Exactly(name) && HostEntryOf(name + ".", x) == Exactly(name)
    ensures HostEntryOf("*." + name, x) == Below(name)
    ensures '*' in name && !("*." <= name) ==>
      HostEntryOf(name, x) == Pattern("^" + (if name in x.escaped then x.escaped[name] else name) + "$")
  {
    TrimNothing(name);
    TrimNothing(name + ".");
    TrimNothing("*." + name);
    UndottedEnd(name);
    UndottedEnd("*." + name);
    assert ("*." + name)[2..] == name;
    assert "*." <= name ==> name[0] == '*';
  }

  /** A process is a path when there is a slash of either kind in it, and a bare name otherwise. */
  lemma ProcessSpellings(text: string)
    requires Clean(text)
    ensures ProcessEntryOf(text) == if '/' in text || '\\' in text then ByPath(text) else ByName(text)
    ensures ProcessEntryOf("") == NoProcess
  {
    TrimNothing(text);
  }

  /** An endpoint is what its parser says, then a range when there is a slash in it, then a name. */
  lemma EndpointSpellings(text: string, x: Surroundings)
    requires Clean(text)
    ensures var parsed := if text in x.endpoints then x.endpoints[text] else Other;
      && (parsed.Socket? ==> EndpointEntryOf(text, x) == At(parsed.cidr, Some(parsed.port)))
      && (parsed.Ip? ==> EndpointEntryOf(text, x) == At(parsed.cidr, None))
      && (parsed.Other? && '/' in text ==> EndpointEntryOf(text, x) == At(text, None))
      && (parsed.Other? && '/' !in text ==> EndpointEntryOf(text, x) == Called(text))
    ensures EndpointEntryOf("", x) == NoEndpoint
  {
    TrimNothing(text);
  }

  /** A policy for `*.name` alone takes the name itself as well as everything below it. */
  lemma WildcardTakesApex(policy: DomainRule, name: string, x: Surroundings, p: Packet)
    requires Clean(name) && name[0] != '.' && name[|name| - 1] != '.' && policy.host == ["*." + name]
    requires policy.bySuffix == [] && policy.process == [] && policy.source == [] && policy.destination == []
    ensures Wants(policy, x, p) <==>
      ClashRules.Normal(p.host) == ClashRules.Normal(name)
      || ClashRules.IsBelow(ClashRules.Normal(p.host), ClashRules.Normal(name))
  {
    HostSpellings(name, x);
    assert HostEntries(policy.host, x) == [Below(name)];
    OneHostOnly(policy, Below(name), x, p);
    PlainSuffix(name, p.host);
  }

  lemma PlainSuffix(name: string, host: string)
    requires name != [] && name[0] != '.'
    ensures ClashRules.SuffixMatches(name, host) <==>
      ClashRules.Normal(host) == ClashRules.Normal(name)
      || ClashRules.IsBelow(ClashRules.Normal(host), ClashRules.Normal(name))
  {
    assert TrimStartChar(name, '.') == name;
  }

  lemma OneHostOnly(policy: DomainRule, entry: HostEntry, x: Surroundings, p: Packet)
    requires HostEntries(policy.host, x) == [entry] && !entry.NoHost?
    requires policy.bySuffix == [] && policy.process == [] && policy.source == [] && policy.destination == []
    ensures Wants(policy, x, p) <==> HostHit(entry, p)
  {
    var hosts := HostEntries(policy.host, x);
    assert hosts[0] == entry;
  }
}

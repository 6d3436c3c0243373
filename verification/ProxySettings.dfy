/** The settings and surroundings the routing compiler reads. */
module ProxySettings {
  import opened Wrappers
  import opened Json

  datatype MeshRole = Relay | Node

  /** One user-defined routing policy. */
  datatype DomainRule = DomainRule(
    enabled: bool,
    name: string,
    bySuffix: seq<string>,
    host: seq<string>,
    process: seq<string>,
    source: seq<string>,
    destination: seq<string>,
    outbounds: seq<string>,
    healthCheckUrl: Option<string>,
    interval: Option<nat>,
    tolerance: Option<nat>)

  datatype Settings = Settings(
    subscriptions: seq<string>,
    activeNodes: seq<string>,
    tun: bool,
    stackTun: bool,
    meshFlag: Option<MeshRole>,
    meshRole: Option<MeshRole>,
    gateway: bool,
    healthCheckUrl: string,
    domainRules: seq<DomainRule>)

  /** The host of the health-check URL: an address with its prefix, or a name. */
  datatype Host = Address(cidr: string) | Name(name: string)

  /** A source or destination matcher as the address parsers read it. */
  datatype Endpoint = Socket(cidr: string, port: nat) | Ip(cidr: string) | Other

  datatype Bootstrap = NoBootstrap | BadBootstrap(error: string) | SkippedBootstrap | BootstrapNode(node: Json)

  /** Lookups that the compiler treats as fixed: the executable, peers, URLs, files, parsers. */
  datatype Surroundings = Surroundings(
    exeNames: seq<string>,
    exePaths: seq<string>,
    windows: bool,
    peerCidrs: seq<string>,
    healthHost: Option<Host>,
    healthPort: Option<nat>,
    interface: Option<string>,
    loopbackServers: set<string>,
    loopbackInterface: string,
    bootstrap: Bootstrap,
    ruleFiles: set<string>,
    endpoints: map<string, Endpoint>,
    escaped: map<string, string>)

  predicate MeshIsNode(s: Settings) {
    s.meshFlag.Some? && s.meshRole == Some(Node)
  }

  predicate MeshIsRelay(s: Settings) {
    s.meshFlag.Some? && s.meshRole == Some(Relay)
  }

  predicate MeshOnlyNoProxy(s: Settings) {
    MeshIsNode(s) && s.subscriptions == [] && !s.gateway
  }

  predicate TunEnabled(s: Settings) {
    (s.tun || s.stackTun) && !MeshIsRelay(s) && !MeshOnlyNoProxy(s)
  }

  /** Full-capture TUN beside an in-process mesh node: the mesh's own sockets must stay direct. */
  predicate FullCaptureMeshProxy(s: Settings) {
    TunEnabled(s) && MeshIsNode(s) && s.subscriptions != [] && !s.gateway
  }

  /**
  A tunnel captures everything when it is asked for, unless the mesh makes this a relay, or a
  node that neither has a subscription nor is a gateway.
  */
  lemma CaptureIff(s: Settings)
    ensures TunEnabled(s) <==>
      && (s.tun || s.stackTun)
      && (s.meshFlag.None? || s.meshRole.None?
          || (s.meshRole.value.Node? && (s.subscriptions != [] || s.gateway)))
    ensures FullCaptureMeshProxy(s) <==>
      && (s.tun || s.stackTun) && s.meshFlag.Some? && s.meshRole == Some(Node)
      && s.subscriptions != [] && !s.gateway
  {
    if s.meshRole.Some? {
      assert s.meshRole.value.Relay? || s.meshRole.value.Node?;
    }
  }
}

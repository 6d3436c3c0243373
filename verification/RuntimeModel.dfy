/**
The configuration-driven component runtime: what a configuration asks for, what a change
of configuration replaces, and the effect of each lifecycle operation on the recorded
state and on the outside world. Every await that may fail has its outcome supplied by a
fault record, so a claim over all fault records is a claim over all failures.
*/
module RuntimeModel {
  import opened Wrappers

  // ------------------------------------------------------------ configuration

  datatype MeshRole = Relay | Node

  datatype MeshConfig = MeshConfig(
    role: MeshRole,
    name: Option<string>,
    networkName: string,
    networkSecret: string,
    dhcp: Option<bool>,
    ipv4: Option<string>,
    listeners: Option<seq<string>>,
    peers: Option<seq<string>>,
    proxyNetworks: Option<seq<string>>,
    meshRoutes: Option<seq<string>>,
    wireguardListen: Option<string>,
    wireguardClientCidr: Option<string>,
    wireguardClientAddress: Option<string>)

  /** The proxy section; `rest` stands for the fields that are only compared. */
  datatype ProxyConfig = ProxyConfig(
    enabled: bool,
    paused: bool,
    meshPaused: bool,
    mixedPort: Option<nat>,
    updateInterval: Option<nat>,
    healthCheckUrl: Option<string>,
    logLevel: Option<string>,
    mesh: Option<MeshConfig>,
    rest: seq<string>)

  datatype Item = Item(enabled: bool, settings: string)

  datatype Config = Config(
    stack: ProxyConfig,
    mesh: Option<MeshConfig>,
    http: seq<Item>,
    fwd: seq<Item>,
    ssh: seq<Item>)

  /** The mesh fields that shape the proxy's addresses, exclusions and bypass rules. */
  datatype MeshRoutes = MeshRoutes(
    role: MeshRole,
    ipv4: Option<string>,
    peers: Option<seq<string>>,
    listeners: Option<seq<string>>,
    meshRoutes: Option<seq<string>>,
    wireguardClientAddress: Option<string>)

  function RoutesOf(mesh: Option<MeshConfig>): Option<MeshRoutes> {
    match mesh
    case None => None
    case Some(m) => Some(MeshRoutes(m.role, m.ipv4, m.peers, m.listeners, m.meshRoutes, m.wireguardClientAddress))
  }

  function OrDefault<T>(value: Option<T>, default: T): Option<T> {
    if value.Some? then value else Some(default)
  }

  datatype ProxyView = ProxyView(proxy: ProxyConfig, routes: Option<MeshRoutes>)

  /** What a running proxy depends on: labels dropped, defaults filled in, mesh routes added. */
  function View(cfg: Config): ProxyView {
    ProxyView(
      cfg.stack.(
        mesh := None,
        paused := false,
        meshPaused := false,
        mixedPort := OrDefault(cfg.stack.mixedPort, 7890),
        updateInterval := OrDefault(cfg.stack.updateInterval, 3600),
        logLevel := OrDefault(cfg.stack.logLevel, "info"),
        healthCheckUrl := OrDefault(cfg.stack.healthCheckUrl, "http://cp.cloudflare.com/generate_204")),
      RoutesOf(cfg.mesh))
  }

  datatype ChangePlan = ChangePlan(proxy: bool, mesh: bool, http: bool, fwd: bool, ssh: bool)

  function Between(current: Config, next: Config, forceProxy: bool): ChangePlan {
    ChangePlan(
      (current.stack.enabled || next.stack.enabled) && (forceProxy || View(current) != View(next)),
      current.mesh != next.mesh,
      current.http != next.http,
      current.fwd != next.fwd,
      current.ssh != next.ssh)
  }

  // ------------------------------------------------------- the outside world

  /** A proxy controller, the configuration it was started from and whether its start finished. */
  datatype Proxy = Proxy(id: nat, config: Config, started: bool)

  datatype Task = Task(id: nat, settings: string)

  /** `lost` holds the controllers whose stop failed: nobody holds them, yet they may live on. */
  datatype World = World(mesh: Option<MeshConfig>, proxies: set<Proxy>, lost: set<nat>, nextId: nat)

  datatype ProxyStop = ProxyDown | ProxyLost(alive: bool)
  datatype MeshStop = MeshDown | MeshStopFailed(alive: bool)
  datatype MeshStart = MeshUp | MeshStartFailed(partial: bool)

  function StopProxy(w: World, p: Proxy, outcome: ProxyStop): World {
    match outcome
    case ProxyDown => w.(proxies := w.proxies - {p})
    case ProxyLost(alive) => w.(proxies := if alive then w.proxies else w.proxies - {p}, lost := w.lost + {p.id})
  }

  function StopMesh(w: World, outcome: MeshStop): World {
    w.(mesh := if outcome.MeshStopFailed? && outcome.alive then w.mesh else None)
  }

  /** A failed start may leave the new mesh up: the wait for its address comes after the launch. */
  function StartMesh(w: World, mesh: Option<MeshConfig>, outcome: MeshStart): World {
    if mesh.None? then w
    else if outcome.MeshUp? || outcome.partial then w.(mesh := mesh)
    else w
  }

  function StartProxy(w: World, cfg: Config, started: bool): World {
    w.(proxies := w.proxies + {Proxy(w.nextId, cfg, started)}, nextId := w.nextId + 1)
  }

  function Enabled(items: seq<Item>): seq<Item> {
    if items == [] then []
    else if items[0].enabled then [items[0]] + Enabled(items[1..])
    else Enabled(items[1..])
  }

  lemma {:induction false} EnabledSnoc(items: seq<Item>, i: nat)
    requires i < |items|
    ensures Enabled(items[..i + 1]) == Enabled(items[..i]) + (if items[i].enabled then [items[i]] else [])
  {
    if i > 0 {
      EnabledSnoc(items[1..], i - 1);
      assert items[..i + 1][1..] == items[1..][..i] && items[..i][1..] == items[1..][..i - 1];
    }
  }

  function SpawnTasks(items: seq<Item>, firstId: nat): seq<Task> {
    var run := Enabled(items);
    seq(|run|, i requires 0 <= i < |run| => Task(firstId + i, run[i].settings))
  }

  // --------------------------------------------------------- held components

  datatype Components = Components(
    stack: Option<Proxy>,
    http: seq<Task>,
    fwd: seq<Task>,
    ssh: seq<Task>,
    config: Config)

  datatype ApplyFaults = ApplyFaults(
    meshTomlOk: bool,
    stopProxy: ProxyStop,
    stopMesh: MeshStop,
    startMesh: MeshStart,
    proxyStarts: bool)

  /** Nothing goes wrong. */
  const NO_FAULTS := ApplyFaults(true, ProxyDown, MeshDown, MeshUp, true)

  /** Components and world after an operation, its success, and every world it passed through. */
  datatype Effect = Effect(held: Components, world: World, ok: bool, trace: seq<World>)

  function ReplaceTasks(c: Components, w: World, cfg: Config, plan: ChangePlan): (Components, World) {
    var (http, id1) :=
      if plan.http then (SpawnTasks(cfg.http, w.nextId), w.nextId + |Enabled(cfg.http)|) else (c.http, w.nextId);
    var (fwd, id2) := if plan.fwd then (SpawnTasks(cfg.fwd, id1), id1 + |Enabled(cfg.fwd)|) else (c.fwd, id1);
    var (ssh, id3) := if plan.ssh then (SpawnTasks(cfg.ssh, id2), id2 + |Enabled(cfg.ssh)|) else (c.ssh, id2);
    (Components(c.stack, http, fwd, ssh, cfg), w.(nextId := id3))
  }

  /** `RunningComponents::apply` after the proxy and the mesh have been dealt with. */
  function ApplyRest(
    c: Components, w: World, cfg: Config, plan: ChangePlan, f: ApplyFaults, trace: seq<World>): Effect
  {
    var started := plan.proxy && cfg.stack.enabled;
    // The controller is recorded before the start is known to have worked.
    var c' := if started then c.(stack := Some(Proxy(w.nextId, cfg, f.proxyStarts))) else c;
    var w' := if started then StartProxy(w, cfg, f.proxyStarts) else w;
    if started && !f.proxyStarts then Effect(c', w', false, trace + [w'])
    else
      var (c'', w'') := ReplaceTasks(c', w', cfg, plan);
      Effect(c'', w'', true, trace + [w', w''])
  }

  /** `RunningComponents::apply` after the proxy has been stopped. */
  function ApplyMesh(
    c: Components, w: World, cfg: Config, plan: ChangePlan, f: ApplyFaults, trace: seq<World>): Effect
  {
    if !plan.mesh then ApplyRest(c, w, cfg, plan, f, trace)
    else
      var down := StopMesh(w, f.stopMesh);
      if f.stopMesh.MeshStopFailed? then Effect(c, down, false, trace + [down])
      else
        var up := StartMesh(down, cfg.mesh, f.startMesh);
        // The recorded mesh changes only when the new one is up.
        if cfg.mesh.Some? && f.startMesh.MeshStartFailed? then Effect(c, up, false, trace + [down, up])
        else ApplyRest(c.(config := c.config.(mesh := cfg.mesh)), up, cfg, plan, f, trace + [down, up])
  }

  function ApplyComponents(c: Components, w: World, cfg: Config, force: bool, f: ApplyFaults): Effect {
    var plan := Between(c.config, cfg, force);
    if cfg.mesh.Some? && !f.meshTomlOk then Effect(c, w, false, [w])
    else if plan.proxy && c.stack.Some? then
      var down := StopProxy(w, c.stack.value, f.stopProxy);
      if f.stopProxy.ProxyLost? then Effect(c.(stack := None), down, false, [w, down])
      else ApplyMesh(c.(stack := None), down, cfg, plan, f, [w, down])
    else ApplyMesh(c, w, cfg, plan, f, [w])
  }

  // ------------------------------------------------------------ core runtime

  datatype Core = Core(running: Option<Components>, applyError: bool, pendingProxy: bool, world: World)

  datatype StartFaults = StartFaults(startMesh: MeshStart, meshSurvives: bool, proxyStarts: bool)

  /** `meshSurvives`: the mesh outlives both the stop and the retry made when the components are dropped. */
  datatype StopFaults = StopFaults(stopProxy: ProxyStop, stopMesh: MeshStop, meshSurvives: bool)

  datatype CoreEffect = CoreEffect(core: Core, ok: bool, trace: seq<World>)

  const EMPTY_PLAN := ChangePlan(false, false, true, true, true)

  function StartCore(core: Core, load: Option<Config>, f: StartFaults): CoreEffect {
    if core.running.Some? then CoreEffect(core, true, [core.world])
    else if load.None? then CoreEffect(core, false, [core.world])
    else
      var cfg := load.value;
      var w := StartMesh(core.world, cfg.mesh, f.startMesh);
      if cfg.mesh.Some? && f.startMesh.MeshStartFailed? then
        var w' := w.(mesh := if f.meshSurvives then w.mesh else None);
        CoreEffect(Core(None, true, core.pendingProxy, w'), false, [core.world, w, w'])
      else
        var stack := if cfg.stack.enabled then Some(Proxy(w.nextId, cfg, f.proxyStarts)) else None;
        var w' := if cfg.stack.enabled then StartProxy(w, cfg, f.proxyStarts) else w;
        var (c, w'') := ReplaceTasks(Components(stack, [], [], [], cfg), w', cfg, EMPTY_PLAN);
        var failed := cfg.stack.enabled && !f.proxyStarts;
        CoreEffect(Core(Some(c), failed, failed, w''), !failed, [core.world, w, w', w''])
  }

  function StopCore(core: Core, f: StopFaults): CoreEffect {
    if core.running.None? then CoreEffect(Core(None, false, false, core.world), true, [core.world])
    else
      var c := core.running.value;
      var w := if c.stack.Some? then StopProxy(core.world, c.stack.value, f.stopProxy) else core.world;
      var lost := c.stack.Some? && f.stopProxy.ProxyLost?;
      var stuck := c.config.mesh.Some? && f.stopMesh.MeshStopFailed?;
      var w' := if c.config.mesh.Some? && (lost || stuck) && f.meshSurvives then w
                else if c.config.mesh.Some? then w.(mesh := None)
                else w;
      if lost || stuck then CoreEffect(Core(None, core.applyError, core.pendingProxy, w'), false, [core.world, w, w'])
      else CoreEffect(Core(None, false, false, w'), true, [core.world, w, w'])
  }

  function RestartCore(
    core: Core, check: Option<Config>, stop: StopFaults, load: Option<Config>, start: StartFaults): CoreEffect
  {
    if check.None? then CoreEffect(core, false, [core.world])
    else
      var stopped := StopCore(core, stop);
      if !stopped.ok then stopped
      else
        var started := StartCore(stopped.core, load, start);
        CoreEffect(started.core, started.ok, stopped.trace + started.trace)
  }

  function ApplyCore(core: Core, load: Option<Config>, force: bool, f: ApplyFaults): CoreEffect {
    if load.None? then CoreEffect(core, false, [core.world])
    else if core.running.None? then CoreEffect(core, true, [core.world])
    else
      var e := ApplyComponents(core.running.value, core.world, load.value, core.pendingProxy || force, f);
      CoreEffect(Core(Some(e.held), !e.ok, !e.ok, e.world), e.ok, e.trace)
  }

  /** One lifecycle request, the configuration it reads (None: unreadable) and what goes wrong. */
  datatype Op =
    | Start(load: Option<Config>, startFaults: StartFaults)
    | Stop(stopFaults: StopFaults)
    | Restart(check: Option<Config>, stopFaults: StopFaults, load: Option<Config>, startFaults: StartFaults)
    | Apply(load: Option<Config>, force: bool, applyFaults: ApplyFaults)

  function Step(core: Core, op: Op): CoreEffect {
    match op
    case Start(load, f) => StartCore(core, load, f)
    case Stop(f) => StopCore(core, f)
    case Restart(check, s, load, f) => RestartCore(core, check, s, load, f)
    case Apply(load, force, f) => ApplyCore(core, load, force, f)
  }

  const IDLE := Core(None, false, false, World(None, {}, {}, 0))

  function Run(core: Core, ops: seq<Op>): Core
    decreases |ops|
  {
    if ops == [] then core else Run(Step(core, ops[0]).core, ops[1..])
  }
}

/** What every run of start, stop, restart and apply keeps, whatever fails on the way. */
module RuntimeProofs {
  import opened Wrappers
  import opened RuntimeModel

  // --------------------------------------------- what every operation keeps

  /** A held proxy whose start finished was started from a configuration the recorded one agrees with. */
  predicate HeldProxyCurrent(c: Components) {
    c.stack.Some? && c.stack.value.started ==>
      c.config.stack.enabled && View(c.stack.value.config) == View(c.config)
  }

  /** The record promises a proxy, so there is one. */
  predicate ProxyPresent(c: Components) {
    c.config.stack.enabled ==> c.stack.Some? && c.stack.value.started
  }

  /** Every live proxy whose start finished is the held one, or was lost by a failed stop. */
  predicate OnlyHeldLive(stack: Option<Proxy>, w: World) {
    forall p :: p in w.proxies && p.started && p.id !in w.lost ==> stack == Some(p)
  }

  predicate FreshIds(stack: Option<Proxy>, w: World) {
    && (forall p :: p in w.proxies ==> p.id < w.nextId)
    && (forall i :: i in w.lost ==> i < w.nextId)
    && (stack.Some? ==> stack.value.id < w.nextId && stack.value.id !in w.lost)
  }

  predicate CoreInv(core: Core) {
    match core.running
    case None => OnlyHeldLive(None, core.world) && FreshIds(None, core.world)
    case Some(c) =>
      && HeldProxyCurrent(c)
      && OnlyHeldLive(c.stack, core.world) && FreshIds(c.stack, core.world)
      && (core.pendingProxy <==> core.applyError)
      && (!core.pendingProxy ==> ProxyPresent(c))
  }

  lemma StopProxyLeavesNone(p: Proxy, w: World, outcome: ProxyStop)
    requires OnlyHeldLive(Some(p), w) && FreshIds(Some(p), w)
    ensures var w' := StopProxy(w, p, outcome);
      OnlyHeldLive(None, w') && FreshIds(None, w') && w'.mesh == w.mesh
  {
  }

  lemma StartProxyHeld(w: World, cfg: Config, started: bool)
    requires OnlyHeldLive(None, w) && FreshIds(None, w)
    ensures var w' := StartProxy(w, cfg, started); var p := Proxy(w.nextId, cfg, started);
      OnlyHeldLive(Some(p), w') && FreshIds(Some(p), w') && w'.mesh == w.mesh
  {
  }

  /** Components and world are consistent, and consistent with the change about to be made. */
  predicate ReadyFor(c: Components, w: World, cfg: Config, plan: ChangePlan) {
    && HeldProxyCurrent(c) && OnlyHeldLive(c.stack, w) && FreshIds(c.stack, w)
    && (plan.proxy ==> c.stack.None?)
    && (!plan.proxy && c.config.stack.enabled ==> ProxyPresent(c))
    && (!plan.proxy && (c.config.stack.enabled || cfg.stack.enabled) ==> View(c.config) == View(cfg))
  }

  predicate Kept(e: Effect) {
    && HeldProxyCurrent(e.held) && OnlyHeldLive(e.held.stack, e.world) && FreshIds(e.held.stack, e.world)
    && (e.ok ==> ProxyPresent(e.held))
  }

  lemma ApplyRestKeeps(c: Components, w: World, cfg: Config, plan: ChangePlan, f: ApplyFaults, trace: seq<World>)
    requires ReadyFor(c, w, cfg, plan)
    ensures Kept(ApplyRest(c, w, cfg, plan, f, trace))
  {
    if plan.proxy && cfg.stack.enabled {
      StartProxyHeld(w, cfg, f.proxyStarts);
    }
  }

  /** A proxy that survives the plan does not notice the recorded mesh being replaced. */
  lemma MeshSwapUnseen(current: Config, next: Config)
    requires View(current) == View(next)
    ensures View(current.(mesh := next.mesh)) == View(current)
  {
  }

  lemma ApplyMeshKeeps(c: Components, w: World, cfg: Config, plan: ChangePlan, f: ApplyFaults, trace: seq<World>)
    requires ReadyFor(c, w, cfg, plan)
    ensures Kept(ApplyMesh(c, w, cfg, plan, f, trace))
  {
    if !plan.mesh {
      ApplyRestKeeps(c, w, cfg, plan, f, trace);
    } else {
      var down := StopMesh(w, f.stopMesh);
      var up := StartMesh(down, cfg.mesh, f.startMesh);
      if View(c.config) == View(cfg) {
        MeshSwapUnseen(c.config, cfg);
      }
      ApplyRestKeeps(c.(config := c.config.(mesh := cfg.mesh)), up, cfg, plan, f, trace + [down, up]);
    }
  }

  lemma ApplyKeeps(c: Components, w: World, cfg: Config, force: bool, f: ApplyFaults)
    requires HeldProxyCurrent(c) && OnlyHeldLive(c.stack, w) && FreshIds(c.stack, w)
    requires !force ==> ProxyPresent(c)
    ensures Kept(ApplyComponents(c, w, cfg, force, f))
  {
    var plan := Between(c.config, cfg, force);
    if plan.proxy && c.stack.Some? {
      var down := StopProxy(w, c.stack.value, f.stopProxy);
      StopProxyLeavesNone(c.stack.value, w, f.stopProxy);
      ApplyMeshKeeps(c.(stack := None), down, cfg, plan, f, [w, down]);
    } else {
      ApplyMeshKeeps(c, w, cfg, plan, f, [w]);
    }
  }

  lemma StartKeeps(core: Core, load: Option<Config>, f: StartFaults)
    requires CoreInv(core)
    ensures CoreInv(StartCore(core, load, f).core)
  {
    if core.running.None? && load.Some? {
      var w := StartMesh(core.world, load.value.mesh, f.startMesh);
      StartProxyHeld(w, load.value, f.proxyStarts);
    }
  }

  lemma StopKeeps(core: Core, f: StopFaults)
    requires CoreInv(core)
    ensures CoreInv(StopCore(core, f).core) && StopCore(core, f).core.running.None?
  {
    if core.running.Some? && core.running.value.stack.Some? {
      StopProxyLeavesNone(core.running.value.stack.value, core.world, f.stopProxy);
    }
  }

  lemma StepKeeps(core: Core, op: Op)
    requires CoreInv(core)
    ensures CoreInv(Step(core, op).core)
  {
    match op
    case Start(load, f) => StartKeeps(core, load, f);
    case Stop(f) => StopKeeps(core, f);
    case Restart(check, s, load, f) =>
      StopKeeps(core, s);
      StartKeeps(StopCore(core, s).core, load, f);
    case Apply(load, force, f) =>
      if load.Some? && core.running.Some? {
        ApplyKeeps(core.running.value, core.world, load.value, core.pendingProxy || force, f);
      }
  }

  lemma {:induction false} RunKeeps(core: Core, ops: seq<Op>)
    requires CoreInv(core)
    ensures CoreInv(Run(core, ops))
    decreases |ops|
  {
    if ops != [] {
      StepKeeps(core, ops[0]);
      RunKeeps(Step(core, ops[0]).core, ops[1..]);
    }
  }

  /**
  In every run, with any configurations and any failures: while components are held, a
  proxy restart is pending exactly when the last apply left an error, and when none is
  pending and the recorded configuration enables the proxy, the held controller finished
  starting from a configuration with the recorded proxy view.
  */
  lemma RecordedProxyIsRunning(ops: seq<Op>)
    ensures var end := Run(IDLE, ops);
      end.running.Some? ==>
        && (end.pendingProxy <==> end.applyError)
        && (!end.pendingProxy && end.running.value.config.stack.enabled ==>
              && end.running.value.stack.Some? && end.running.value.stack.value.started
              && View(end.running.value.stack.value.config) == View(end.running.value.config))
  {
    RunKeeps(IDLE, ops);
  }
}

/**
When a proxy and the mesh it runs beside agree on the fields the proxy's routes are built
from: in which worlds of which runs, and what a caller can check before a request.
*/
module RuntimeAgreement {
  import opened Wrappers
  import opened RuntimeModel
  import opened RuntimeProofs

  /** Every live proxy that finished starting uses the routes of the mesh that is up. */
  predicate Agree(w: World) {
    w.mesh.Some? ==> forall p :: p in w.proxies && p.started ==> RoutesOf(p.config.mesh) == RoutesOf(w.mesh)
  }

  predicate AllAgree(trace: seq<World>) {
    forall i :: 0 <= i < |trace| ==> Agree(trace[i])
  }

  /** The proxies that live on after a failed stop, held by nobody, would agree with a mesh. */
  predicate StraysFit(w: World, mesh: Option<MeshConfig>) {
    forall p :: p in w.proxies && p.started && p.id in w.lost ==> RoutesOf(p.config.mesh) == RoutesOf(mesh)
  }

  // ---------------------------------------------------------- exactly when they do not

  /** A mesh is up at some point of its start, also of one that fails in the end. */
  predicate ComesUp(mesh: Option<MeshConfig>, outcome: MeshStart) {
    mesh.Some? && (outcome.MeshUp? || outcome.partial)
  }

  /** A mesh that strays do not fit, or a proxy without a mesh beside one that is still up. */
  predicate StartBreaks(w: World, cfg: Config, f: StartFaults) {
    || (ComesUp(cfg.mesh, f.startMesh) && !StraysFit(w, cfg.mesh))
    || (cfg.mesh.None? && w.mesh.Some? && cfg.stack.enabled && f.proxyStarts)
  }

  /** The same for a change: of the mesh, or of the proxy beside a mesh that is not the recorded one. */
  predicate ApplyBreaks(c: Components, w: World, cfg: Config, force: bool, f: ApplyFaults) {
    var plan := Between(c.config, cfg, force);
    && (cfg.mesh.Some? ==> f.meshTomlOk)
    && !(plan.proxy && c.stack.Some? && f.stopProxy.ProxyLost?)
    && (if plan.mesh then f.stopMesh.MeshDown? && ComesUp(cfg.mesh, f.startMesh) && !StraysFit(w, cfg.mesh)
        else && plan.proxy && cfg.stack.enabled && f.proxyStarts
             && w.mesh.Some? && RoutesOf(w.mesh) != RoutesOf(cfg.mesh))
  }

  predicate Breaks(core: Core, op: Op) {
    match op
    case Start(load, f) => core.running.None? && load.Some? && StartBreaks(core.world, load.value, f)
    case Stop(_) => false
    case Restart(check, s, load, f) =>
      && check.Some? && StopCore(core, s).ok
      && load.Some? && StartBreaks(StopCore(core, s).core.world, load.value, f)
    case Apply(load, force, f) =>
      && load.Some? && core.running.Some?
      && ApplyBreaks(core.running.value, core.world, load.value, core.pendingProxy || force, f)
  }

  // ------------------------------------------------------------- single changes

  lemma AgreeMore(trace: seq<World>, more: seq<World>)
    ensures AllAgree(trace + more) <==> AllAgree(trace) && AllAgree(more)
  {
    if AllAgree(trace + more) {
      forall i | 0 <= i < |more|
        ensures Agree(more[i])
      {
        assert (trace + more)[|trace| + i] == more[i];
      }
      forall i | 0 <= i < |trace|
        ensures Agree(trace[i])
      {
        assert (trace + more)[i] == trace[i];
      }
    }
  }

  lemma OneAgrees(w: World)
    ensures AllAgree([w]) <==> Agree(w)
  {
    assert [w][0] == w;
  }

  lemma TwoAgree(a: World, b: World)
    ensures AllAgree([a, b]) <==> Agree(a) && Agree(b)
  {
    assert [a, b][0] == a && [a, b][1] == b;
  }

  /** Stopping keeps agreement: there are fewer proxies, or no mesh. */
  lemma FewerAgree(w: World, w': World)
    requires Agree(w) && w'.proxies <= w.proxies && (w'.mesh.Some? ==> w'.mesh == w.mesh)
    ensures Agree(w')
  {
  }

  lemma StartedProxyAgrees(w: World, cfg: Config, started: bool)
    ensures Agree(StartProxy(w, cfg, started))
      <==> Agree(w) && (started && w.mesh.Some? ==> RoutesOf(cfg.mesh) == RoutesOf(w.mesh))
  {
    var w' := StartProxy(w, cfg, started);
    assert Proxy(w.nextId, cfg, started) in w'.proxies;
    assert forall p :: p in w.proxies ==> p in w'.proxies;
  }

  /** A held proxy that fits a mesh leaves it to the strays whether everybody agrees. */
  lemma MeshComesUp(stack: Option<Proxy>, w: World, mesh: Option<MeshConfig>)
    requires OnlyHeldLive(stack, w) && mesh.Some?
    requires stack.Some? && stack.value.started ==> RoutesOf(stack.value.config.mesh) == RoutesOf(mesh)
    ensures Agree(w.(mesh := mesh)) <==> StraysFit(w, mesh)
  {
  }

  // ------------------------------------------------------------------- start, stop

  lemma StartAgreesIff(core: Core, load: Option<Config>, f: StartFaults)
    requires CoreInv(core)
    ensures AllAgree(StartCore(core, load, f).trace) <==> Agree(core.world) && !Breaks(core, Start(load, f))
  {
    OneAgrees(core.world);
    if core.running.None? && load.Some? {
      IdleStartAgreesIff(core, load.value, f);
    }
  }

  lemma IdleStartAgreesIff(core: Core, cfg: Config, f: StartFaults)
    requires CoreInv(core) && core.running.None?
    ensures AllAgree(StartCore(core, Some(cfg), f).trace) <==> Agree(core.world) && !StartBreaks(core.world, cfg, f)
  {
    var w := StartMesh(core.world, cfg.mesh, f.startMesh);
    var trace := StartCore(core, Some(cfg), f).trace;
    assert trace[0] == core.world && trace[1] == w;
    if ComesUp(cfg.mesh, f.startMesh) {
      MeshComesUp(None, core.world, cfg.mesh);
    }
    if cfg.mesh.Some? && f.startMesh.MeshStartFailed? {
      assert Agree(w) ==> Agree(trace[2]);
    } else {
      StartedProxyAgrees(w, cfg, f.proxyStarts);
      assert Agree(trace[2]) <==> Agree(trace[3]);
    }
  }

  /** An idle core whose mesh starts: agreement throughout, read off the world and the configuration. */
  lemma CleanStartAgreesIff(core: Core, cfg: Config, f: StartFaults)
    requires CoreInv(core) && core.running.None? && f.startMesh.MeshUp?
    requires Agree(core.world) && StraysFit(core.world, cfg.mesh)
    ensures AllAgree(StartCore(core, Some(cfg), f).trace)
      <==> core.world.mesh.None? || cfg.mesh.Some? || !cfg.stack.enabled || !f.proxyStarts
  {
    IdleStartAgreesIff(core, cfg, f);
  }

  lemma StopAgreesIff(core: Core, f: StopFaults)
    ensures AllAgree(StopCore(core, f).trace) <==> Agree(core.world)
  {
    var trace := StopCore(core, f).trace;
    assert trace[0] == core.world;
    if Agree(core.world) {
      forall i | 0 <= i < |trace|
        ensures Agree(trace[i])
      {
        FewerAgree(core.world, trace[i]);
      }
    }
  }

  // ------------------------------------------------------------------------- apply

  lemma ApplyRestAgreesIff(c: Components, w: World, cfg: Config, plan: ChangePlan, f: ApplyFaults, trace: seq<World>)
    ensures AllAgree(ApplyRest(c, w, cfg, plan, f, trace).trace)
      <==> (&& AllAgree(trace) && Agree(w)
            && (plan.proxy && cfg.stack.enabled && f.proxyStarts && w.mesh.Some? ==>
                  RoutesOf(cfg.mesh) == RoutesOf(w.mesh)))
  {
    var started := plan.proxy && cfg.stack.enabled;
    var w' := if started then StartProxy(w, cfg, f.proxyStarts) else w;
    StartedProxyAgrees(w, cfg, f.proxyStarts);
    OneAgrees(w');
    AgreeMore(trace, [w']);
    if !started || f.proxyStarts {
      var w'' := ReplaceTasks(if started then c.(stack := Some(Proxy(w.nextId, cfg, true))) else c, w', cfg, plan).1;
      TwoAgree(w', w'');
      AgreeMore(trace, [w', w'']);
    }
  }

  lemma ApplyMeshAgreesIff(c: Components, w: World, cfg: Config, plan: ChangePlan, f: ApplyFaults, trace: seq<World>)
    requires ReadyFor(c, w, cfg, plan) && plan.mesh
    ensures AllAgree(ApplyMesh(c, w, cfg, plan, f, trace).trace)
      <==> (&& AllAgree(trace) && (f.stopMesh == MeshStopFailed(true) ==> Agree(w))
            && (f.stopMesh.MeshDown? && ComesUp(cfg.mesh, f.startMesh) ==> StraysFit(w, cfg.mesh)))
  {
    var down := StopMesh(w, f.stopMesh);
    OneAgrees(down);
    AgreeMore(trace, [down]);
    if f.stopMesh.MeshDown? {
      var up := StartMesh(down, cfg.mesh, f.startMesh);
      if cfg.mesh.Some? {
        MeshComesUp(c.stack, down, cfg.mesh);
      }
      TwoAgree(down, up);
      AgreeMore(trace, [down, up]);
      ApplyRestAgreesIff(c.(config := c.config.(mesh := cfg.mesh)), up, cfg, plan, f, trace + [down, up]);
    }
  }

  lemma ApplyAgreesIff(c: Components, w: World, cfg: Config, force: bool, f: ApplyFaults)
    requires HeldProxyCurrent(c) && OnlyHeldLive(c.stack, w) && FreshIds(c.stack, w)
    requires !force ==> ProxyPresent(c)
    ensures AllAgree(ApplyComponents(c, w, cfg, force, f).trace) <==> Agree(w) && !ApplyBreaks(c, w, cfg, force, f)
  {
    var plan := Between(c.config, cfg, force);
    OneAgrees(w);
    if plan.proxy && c.stack.Some? {
      var down := StopProxy(w, c.stack.value, f.stopProxy);
      TwoAgree(w, down);
      assert Agree(w) ==> Agree(down);
      StopProxyLeavesNone(c.stack.value, w, f.stopProxy);
      if f.stopProxy.ProxyDown? {
        assert StraysFit(down, cfg.mesh) <==> StraysFit(w, cfg.mesh);
        ChangeAgreesIff(c.(stack := None), down, cfg, plan, f, [w, down]);
      }
    } else {
      ChangeAgreesIff(c, w, cfg, plan, f, [w]);
    }
  }

  lemma ChangeAgreesIff(c: Components, w: World, cfg: Config, plan: ChangePlan, f: ApplyFaults, trace: seq<World>)
    requires ReadyFor(c, w, cfg, plan) && (AllAgree(trace) ==> Agree(w))
    ensures AllAgree(ApplyMesh(c, w, cfg, plan, f, trace).trace)
      <==> (&& AllAgree(trace)
            && (if plan.mesh then f.stopMesh.MeshDown? && ComesUp(cfg.mesh, f.startMesh) ==> StraysFit(w, cfg.mesh)
                else (plan.proxy && cfg.stack.enabled && f.proxyStarts && w.mesh.Some? ==>
                        RoutesOf(cfg.mesh) == RoutesOf(w.mesh))))
  {
    if plan.mesh {
      ApplyMeshAgreesIff(c, w, cfg, plan, f, trace);
    } else {
      ApplyRestAgreesIff(c, w, cfg, plan, f, trace);
    }
  }

  // -------------------------------------------------------------------------- runs

  /**
  One operation, whatever fails in it: its worlds agree exactly when it starts from agreement
  and does not break it.
  */
  lemma StepAgreesIff(core: Core, op: Op)
    requires CoreInv(core)
    ensures AllAgree(Step(core, op).trace) <==> Agree(core.world) && !Breaks(core, op)
  {
    match op
    case Start(load, f) => StartAgreesIff(core, load, f);
    case Stop(f) => StopAgreesIff(core, f);
    case Restart(check, s, load, f) =>
      OneAgrees(core.world);
      var stopped := StopCore(core, s);
      StopAgreesIff(core, s);
      StopKeeps(core, s);
      StopEnds(core, s);
      StartAgreesIff(stopped.core, load, f);
      AgreeMore(stopped.trace, StartCore(stopped.core, load, f).trace);
    case Apply(load, force, f) =>
      OneAgrees(core.world);
      if load.Some? && core.running.Some? {
        ApplyAgreesIff(core.running.value, core.world, load.value, core.pendingProxy || force, f);
      }
  }

  lemma StopEnds(core: Core, f: StopFaults)
    ensures StopCore(core, f).core.world in StopCore(core, f).trace
  {
    var e := StopCore(core, f);
    assert e.trace[|e.trace| - 1] == e.core.world;
  }

  lemma StartEnds(core: Core, load: Option<Config>, f: StartFaults)
    ensures StartCore(core, load, f).core.world in StartCore(core, load, f).trace
  {
    var e := StartCore(core, load, f);
    assert e.trace[|e.trace| - 1] == e.core.world;
  }

  predicate Ends(e: Effect) {
    e.trace != [] && e.trace[|e.trace| - 1] == e.world
  }

  lemma ApplyMeshEnds(c: Components, w: World, cfg: Config, plan: ChangePlan, f: ApplyFaults, trace: seq<World>)
    ensures Ends(ApplyMesh(c, w, cfg, plan, f, trace))
  {
    var down := StopMesh(w, f.stopMesh);
    var up := StartMesh(down, cfg.mesh, f.startMesh);
    ApplyRestEnds(c, w, cfg, plan, f, trace);
    ApplyRestEnds(c.(config := c.config.(mesh := cfg.mesh)), up, cfg, plan, f, trace + [down, up]);
  }

  lemma ApplyRestEnds(c: Components, w: World, cfg: Config, plan: ChangePlan, f: ApplyFaults, trace: seq<World>)
    ensures Ends(ApplyRest(c, w, cfg, plan, f, trace))
  {
  }

  lemma ApplyEnds(c: Components, w: World, cfg: Config, force: bool, f: ApplyFaults)
    ensures Ends(ApplyComponents(c, w, cfg, force, f))
  {
    var plan := Between(c.config, cfg, force);
    if plan.proxy && c.stack.Some? {
      var down := StopProxy(w, c.stack.value, f.stopProxy);
      ApplyMeshEnds(c.(stack := None), down, cfg, plan, f, [w, down]);
    } else {
      ApplyMeshEnds(c, w, cfg, plan, f, [w]);
    }
  }

  lemma StepEnds(core: Core, op: Op)
    ensures Step(core, op).core.world in Step(core, op).trace
  {
    match op
    case Start(load, f) => StartEnds(core, load, f);
    case Stop(f) => StopEnds(core, f);
    case Restart(_, s, load, f) =>
      StopEnds(core, s);
      StartEnds(StopCore(core, s).core, load, f);
    case Apply(load, force, f) =>
      if load.Some? && core.running.Some? {
        ApplyEnds(core.running.value, core.world, load.value, core.pendingProxy || force, f);
      }
  }

  /** Every world a run passes through, also in the middle of its operations. */
  function RunTrace(core: Core, ops: seq<Op>): seq<World>
    decreases |ops|
  {
    if ops == [] then [core.world]
    else Step(core, ops[0]).trace + RunTrace(Step(core, ops[0]).core, ops[1..])
  }

  predicate NeverBreaks(core: Core, ops: seq<Op>)
    decreases |ops|
  {
    ops != [] ==> !Breaks(core, ops[0]) && NeverBreaks(Step(core, ops[0]).core, ops[1..])
  }

  lemma {:induction false} RunAgreesIff(core: Core, ops: seq<Op>)
    requires CoreInv(core)
    ensures AllAgree(RunTrace(core, ops)) <==> Agree(core.world) && NeverBreaks(core, ops)
    decreases |ops|
  {
    if ops == [] {
      OneAgrees(core.world);
    } else {
      var e := Step(core, ops[0]);
      StepKeeps(core, ops[0]);
      StepAgreesIff(core, ops[0]);
      StepEnds(core, ops[0]);
      RunAgreesIff(e.core, ops[1..]);
      AgreeMore(e.trace, RunTrace(e.core, ops[1..]));
    }
  }

  /**
  Every run, with any configurations and any failures: proxies and mesh agree in all its
  worlds exactly when no operation of it meets the condition under which it breaks agreement.
  */
  lemma AgreeExactlyWhenNothingBreaks(ops: seq<Op>)
    ensures AllAgree(RunTrace(IDLE, ops)) <==> NeverBreaks(IDLE, ops)
  {
    RunAgreesIff(IDLE, ops);
  }

  // ------------------------------------------------- what a caller can check before a request

  /** The request is the same; what goes wrong may differ. */
  predicate SameRequest(op: Op, other: Op) {
    match op
    case Start(load, _) => other.Start? && other.load == load
    case Stop(_) => other.Stop?
    case Restart(check, _, load, _) => other.Restart? && other.check == check && other.load == load
    case Apply(load, force, _) => other.Apply? && other.load == load && other.force == force
  }

  /** The strays fit the mesh asked for; without one no mesh is up when a proxy is asked for. */
  predicate SafeToStart(w: World, cfg: Config) {
    if cfg.mesh.Some? then StraysFit(w, cfg.mesh) else w.mesh.None? || !cfg.stack.enabled
  }

  /** The strays fit a new mesh; a new proxy beside an old mesh fits the mesh that is really up. */
  predicate SafeToApply(c: Components, w: World, cfg: Config, force: bool) {
    var plan := Between(c.config, cfg, force);
    if plan.mesh then cfg.mesh.Some? ==> StraysFit(w, cfg.mesh)
    else plan.proxy && cfg.stack.enabled && w.mesh.Some? ==> RoutesOf(w.mesh) == RoutesOf(cfg.mesh)
  }

  const CLEAN_STOP := StopFaults(ProxyDown, MeshDown, false)
  const CLEAN_START := StartFaults(MeshUp, false, true)

  predicate Safe(core: Core, op: Op) {
    match op
    case Start(load, _) => core.running.None? && load.Some? ==> SafeToStart(core.world, load.value)
    case Stop(_) => true
    case Restart(check, _, load, _) =>
      check.Some? && load.Some? ==> SafeToStart(StopCore(core, CLEAN_STOP).core.world, load.value)
    case Apply(load, force, _) =>
      (load.Some? && core.running.Some? ==>
         SafeToApply(core.running.value, core.world, load.value, core.pendingProxy || force))
  }

  /** A stop that succeeds leaves the same world whatever could have failed. */
  lemma CleanStopWorld(core: Core, f: StopFaults)
    requires StopCore(core, f).ok
    ensures StopCore(core, CLEAN_STOP).ok && StopCore(core, f).core.world == StopCore(core, CLEAN_STOP).core.world
  {
  }

  lemma StartSafe(w: World, cfg: Config, f: StartFaults)
    ensures SafeToStart(w, cfg) ==> !StartBreaks(w, cfg, f)
    ensures !SafeToStart(w, cfg) ==> StartBreaks(w, cfg, CLEAN_START)
  {
  }

  lemma ApplySafe(c: Components, w: World, cfg: Config, force: bool, f: ApplyFaults)
    ensures SafeToApply(c, w, cfg, force) ==> !ApplyBreaks(c, w, cfg, force, f)
    ensures !SafeToApply(c, w, cfg, force) ==> ApplyBreaks(c, w, cfg, force, NO_FAULTS)
  {
  }

  lemma SafeSuffices(core: Core, op: Op)
    requires Safe(core, op)
    ensures !Breaks(core, op)
  {
    match op
    case Start(load, f) => if load.Some? { StartSafe(core.world, load.value, f); }
    case Stop(_) =>
    case Restart(_, s, load, f) =>
      if StopCore(core, s).ok && load.Some? {
        CleanStopWorld(core, s);
        StartSafe(StopCore(core, s).core.world, load.value, f);
      }
    case Apply(load, force, f) =>
      if load.Some? && core.running.Some? {
        ApplySafe(core.running.value, core.world, load.value, core.pendingProxy || force, f);
      }
  }

  /** When the check fails, the request breaks agreement even if nothing goes wrong. */
  lemma UnsafeBreaks(core: Core, op: Op) returns (smooth: Op)
    requires !Safe(core, op)
    ensures SameRequest(op, smooth) && Breaks(core, smooth)
  {
    match op
    case Start(load, _) =>
      smooth := Start(load, CLEAN_START);
      StartSafe(core.world, load.value, CLEAN_START);
    case Restart(check, _, load, _) =>
      smooth := Restart(check, CLEAN_STOP, load, CLEAN_START);
      StartSafe(StopCore(core, CLEAN_STOP).core.world, load.value, CLEAN_START);
    case Apply(load, force, _) =>
      smooth := Apply(load, force, NO_FAULTS);
      ApplySafe(core.running.value, core.world, load.value, core.pendingProxy || force, NO_FAULTS);
  }

  /**
  From agreement, a request keeps proxies and mesh in agreement at every step whatever fails
  if and only if the world and the configuration pass the check.
  */
  lemma AgreesWhateverFailsIffSafe(core: Core, op: Op)
    requires CoreInv(core) && Agree(core.world)
    ensures (forall other :: SameRequest(op, other) ==> AllAgree(Step(core, other).trace)) <==> Safe(core, op)
  {
    if Safe(core, op) {
      forall other | SameRequest(op, other)
        ensures AllAgree(Step(core, other).trace)
      {
        SafeSuffices(core, other);
        StepAgreesIff(core, other);
      }
    } else {
      var smooth := UnsafeBreaks(core, op);
      StepAgreesIff(core, smooth);
    }
  }

  // ------------------------------------------------------------ runs that never go wrong

  predicate NoStrays(w: World) {
    forall p :: p in w.proxies && p.started ==> p.id !in w.lost
  }

  predicate Recorded(w: World, mesh: Option<MeshConfig>) {
    w.mesh.Some? ==> w.mesh == mesh
  }

  /** The mesh that is up, if any, is the recorded one, and nobody is lost alive. */
  predicate Tidy(core: Core) {
    NoStrays(core.world) && Recorded(core.world, if core.running.Some? then core.running.value.config.mesh else None)
  }

  /** Mesh starts succeed, stopped meshes go down and a proxy whose stop fails is dead. */
  predicate StaysTidy(op: Op) {
    match op
    case Start(_, f) => f.startMesh.MeshUp?
    case Stop(s) => !s.meshSurvives && s.stopProxy != ProxyLost(true)
    case Restart(_, s, _, f) => f.startMesh.MeshUp? && !s.meshSurvives && s.stopProxy != ProxyLost(true)
    case Apply(_, _, f) => f.startMesh.MeshUp? && f.stopProxy != ProxyLost(true)
  }

  lemma TidyIsSafe(core: Core, op: Op)
    requires CoreInv(core) && Tidy(core)
    ensures Safe(core, op) && Agree(core.world)
  {
  }

  lemma StartTidy(core: Core, load: Option<Config>, f: StartFaults)
    requires CoreInv(core) && Tidy(core) && f.startMesh.MeshUp?
    ensures Tidy(StartCore(core, load, f).core)
  {
  }

  lemma StopTidy(core: Core, f: StopFaults)
    requires CoreInv(core) && Tidy(core) && !f.meshSurvives && f.stopProxy != ProxyLost(true)
    ensures Tidy(StopCore(core, f).core)
  {
  }

  lemma ApplyRestTidy(c: Components, w: World, cfg: Config, plan: ChangePlan, f: ApplyFaults, trace: seq<World>)
    requires NoStrays(w) && FreshIds(None, w) && Recorded(w, cfg.mesh) && c.config.mesh == cfg.mesh
    ensures var e := ApplyRest(c, w, cfg, plan, f, trace); NoStrays(e.world) && Recorded(e.world, e.held.config.mesh)
  {
  }

  lemma ApplyMeshTidy(c: Components, w: World, cfg: Config, plan: ChangePlan, f: ApplyFaults, trace: seq<World>)
    requires NoStrays(w) && FreshIds(None, w) && Recorded(w, c.config.mesh)
    requires f.startMesh.MeshUp? && (plan.mesh <==> c.config.mesh != cfg.mesh)
    ensures var e := ApplyMesh(c, w, cfg, plan, f, trace); NoStrays(e.world) && Recorded(e.world, e.held.config.mesh)
  {
    if !plan.mesh {
      ApplyRestTidy(c, w, cfg, plan, f, trace);
    } else if f.stopMesh.MeshDown? {
      var down := StopMesh(w, f.stopMesh);
      var up := StartMesh(down, cfg.mesh, f.startMesh);
      ApplyRestTidy(c.(config := c.config.(mesh := cfg.mesh)), up, cfg, plan, f, trace + [down, up]);
    }
  }

  lemma ApplyTidy(c: Components, w: World, cfg: Config, force: bool, f: ApplyFaults)
    requires OnlyHeldLive(c.stack, w) && FreshIds(c.stack, w) && NoStrays(w) && Recorded(w, c.config.mesh)
    requires f.startMesh.MeshUp? && f.stopProxy != ProxyLost(true)
    ensures var e := ApplyComponents(c, w, cfg, force, f); NoStrays(e.world) && Recorded(e.world, e.held.config.mesh)
  {
    var plan := Between(c.config, cfg, force);
    if plan.proxy && c.stack.Some? {
      var down := StopProxy(w, c.stack.value, f.stopProxy);
      assert NoStrays(down);
      StopProxyLeavesNone(c.stack.value, w, f.stopProxy);
      ApplyMeshTidy(c.(stack := None), down, cfg, plan, f, [w, down]);
    } else {
      ApplyMeshTidy(c, w, cfg, plan, f, [w]);
    }
  }

  lemma StepTidy(core: Core, op: Op)
    requires CoreInv(core) && Tidy(core) && StaysTidy(op)
    ensures Tidy(Step(core, op).core)
  {
    match op
    case Start(load, f) => StartTidy(core, load, f);
    case Stop(f) => StopTidy(core, f);
    case Restart(_, s, load, f) =>
      StopTidy(core, s);
      StopKeeps(core, s);
      StartTidy(StopCore(core, s).core, load, f);
    case Apply(load, force, f) =>
      if load.Some? && core.running.Some? {
        ApplyTidy(core.running.value, core.world, load.value, core.pendingProxy || force, f);
      }
  }

  lemma {:induction false} TidyRunNeverBreaks(core: Core, ops: seq<Op>)
    requires CoreInv(core) && Tidy(core) && forall i :: 0 <= i < |ops| ==> StaysTidy(ops[i])
    ensures NeverBreaks(core, ops)
    decreases |ops|
  {
    if ops != [] {
      TidyIsSafe(core, ops[0]);
      SafeSuffices(core, ops[0]);
      StepKeeps(core, ops[0]);
      StepTidy(core, ops[0]);
      TidyRunNeverBreaks(Step(core, ops[0]).core, ops[1..]);
    }
  }

  /**
  In every run in which mesh starts succeed, stopped meshes go down and no proxy survives a
  failed stop, at every intermediate step, every live proxy that finished starting agrees
  with the mesh that is up.
  */
  lemma ProxyAndMeshAgree(ops: seq<Op>)
    requires forall i :: 0 <= i < |ops| ==> StaysTidy(ops[i])
    ensures AllAgree(RunTrace(IDLE, ops))
  {
    TidyRunNeverBreaks(IDLE, ops);
    RunAgreesIff(IDLE, ops);
  }

  // ------------------------------------------------------------------ and ones that do

  lemma RunOfThree(core: Core, a: Op, b: Op, c: Op)
    ensures Run(core, [a, b, c]) == Step(Step(Step(core, a).core, b).core, c).core
  {
    var ops := [a, b, c];
    var one := Step(core, a).core;
    var two := Step(one, b).core;
    assert ops[1..] == [b, c] && [b, c][1..] == [c] && [c][1..] == [];
    assert Run(core, ops) == Run(one, [b, c]) == Run(two, [c]) == Run(Step(two, c).core, []);
  }

  /** A mesh that came up in a failed apply is not recorded, so the next stop succeeds and leaves it up. */
  lemma UnrecordedMeshOutlivesStop(first: Config, second: Config)
    requires first.mesh.None? && second.mesh.Some?
    ensures var partial := NO_FAULTS.(startMesh := MeshStartFailed(true));
      var failed := Run(IDLE, [Start(Some(first), CLEAN_START), Apply(Some(second), false, partial)]);
      var stopped := Step(failed, Stop(CLEAN_STOP));
      stopped.ok && stopped.core.running.None? && stopped.core.world.mesh == second.mesh
  {
    var partial := NO_FAULTS.(startMesh := MeshStartFailed(true));
    var ops := [Start(Some(first), CLEAN_START), Apply(Some(second), false, partial)];
    var up := Step(IDLE, ops[0]).core;
    var failed := Step(up, ops[1]).core;
    assert ops[1..] == [ops[1]] && [ops[1]][1..] == [];
    assert Run(IDLE, ops) == Run(up, [ops[1]]) == Run(failed, []) == failed;
    assert failed.world.mesh == second.mesh && failed.running.value.config.mesh.None?;
  }

  /** A mesh whose stop fails is still up when the next configuration starts a proxy without one. */
  lemma SurvivingMeshDisagrees(first: Config, second: Config)
    requires first.mesh.Some? && second.mesh.None? && second.stack.enabled
    ensures var stuck := StopFaults(ProxyDown, MeshStopFailed(true), true);
      !Agree(Run(IDLE, [Start(Some(first), CLEAN_START), Stop(stuck), Start(Some(second), CLEAN_START)]).world)
  {
    var stuck := StopFaults(ProxyDown, MeshStopFailed(true), true);
    RunOfThree(IDLE, Start(Some(first), CLEAN_START), Stop(stuck), Start(Some(second), CLEAN_START));
    var up := Step(IDLE, Start(Some(first), CLEAN_START)).core;
    var down := Step(up, Stop(stuck)).core;
    assert down.world.mesh == first.mesh && down.running.None?;
    assert Proxy(down.world.nextId, second, true) in Step(down, Start(Some(second), CLEAN_START)).core.world.proxies;
  }

  /** A proxy whose stop fails lives on beside the mesh of the next configuration. */
  lemma LostProxyDisagrees(first: Config, second: Config)
    requires first.stack.enabled && second.mesh.Some? && RoutesOf(first.mesh) != RoutesOf(second.mesh)
    ensures var lost := NO_FAULTS.(stopProxy := ProxyLost(true));
      !Agree(Run(IDLE, [Start(Some(first), CLEAN_START), Apply(Some(second), false, lost),
                        Apply(Some(second), false, NO_FAULTS)]).world)
  {
    var lost := NO_FAULTS.(stopProxy := ProxyLost(true));
    RunOfThree(IDLE, Start(Some(first), CLEAN_START), Apply(Some(second), false, lost),
               Apply(Some(second), false, NO_FAULTS));
    var up := Step(IDLE, Start(Some(first), CLEAN_START)).core;
    var failed := Step(up, Apply(Some(second), false, lost)).core;
    var p := up.running.value.stack.value;
    assert p in failed.world.proxies && p.started && failed.running.value.stack.None?;
    var end := Step(failed, Apply(Some(second), false, NO_FAULTS)).core;
    assert end.world.mesh == second.mesh && p in end.world.proxies;
  }
}

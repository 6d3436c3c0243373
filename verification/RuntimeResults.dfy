/** What each lifecycle operation leaves behind, said of the record, the tasks and the world. */
module RuntimeResults {
  import opened Wrappers
  import opened RuntimeModel
  import opened RuntimeProofs
  import opened RuntimeRetry

  // -------------------------------------------------------------------- start

  /**
  A start of an idle runtime holds components unless the mesh failed; they record the configuration
  that was read and run its enabled items, also when the proxy did not start.
  */
  lemma StartHolds(core: Core, cfg: Config, f: StartFaults)
    requires core.running.None?
    ensures var e := StartCore(core, Some(cfg), f);
      && (e.core.running.Some? <==> cfg.mesh.None? || f.startMesh.MeshUp?)
      && (e.ok <==> e.core.running.Some? && (cfg.stack.enabled ==> f.proxyStarts))
      && e.core.applyError == !e.ok
    ensures var core' := StartCore(core, Some(cfg), f).core;
      core'.running.Some? ==>
        && core'.running.value.config == cfg && AllFollow(core'.running.value, cfg)
        && core'.running.value.stack ==
             (if cfg.stack.enabled then Some(Proxy(core.world.nextId, cfg, f.proxyStarts)) else None)
        && (core'.pendingProxy <==> cfg.stack.enabled && !f.proxyStarts)
  {
    var w := StartMesh(core.world, cfg.mesh, f.startMesh);
    var stack := if cfg.stack.enabled then Some(Proxy(w.nextId, cfg, f.proxyStarts)) else None;
    var w' := if cfg.stack.enabled then StartProxy(w, cfg, f.proxyStarts) else w;
    ReplacedFollow(Components(stack, [], [], [], cfg), w', cfg, EMPTY_PLAN);
  }

  /** A start that succeeds matches its configuration exactly when it started a mesh or found none up. */
  lemma StartMatchesIff(core: Core, cfg: Config, f: StartFaults)
    requires core.running.None? && StartCore(core, Some(cfg), f).ok
    ensures var core' := StartCore(core, Some(cfg), f).core;
      && core'.running.Some?
      && (Matches(core'.running.value, core'.world) <==> cfg.mesh.Some? || core.world.mesh.None?)
  {
    StartHolds(core, cfg, f);
  }

  // --------------------------------------------------------------------- stop

  /** What goes wrong in a stop concerns only what the components hold. */
  predicate StopFails(c: Components, f: StopFaults) {
    (c.stack.Some? && f.stopProxy.ProxyLost?) || (c.config.mesh.Some? && f.stopMesh.MeshStopFailed?)
  }

  /**
  A stop always lets the components go. It succeeds exactly when everything held was stopped, and
  then only the held controller and the recorded mesh are gone; a failed one keeps its flags.
  */
  lemma StopLetsGo(core: Core, f: StopFaults)
    requires core.running.Some?
    ensures var e, c := StopCore(core, f), core.running.value;
      && e.core.running.None?
      && (e.ok <==> !StopFails(c, f))
      && (e.ok ==> !e.core.applyError && !e.core.pendingProxy)
      && (!e.ok ==> e.core.applyError == core.applyError && e.core.pendingProxy == core.pendingProxy)
      && (e.ok ==> e.core.world == World(
            if c.config.mesh.Some? then None else core.world.mesh,
            core.world.proxies - (if c.stack.Some? then {c.stack.value} else {}),
            core.world.lost,
            core.world.nextId))
  {
  }

  // ------------------------------------------------------------------ restart

  /**
  A restart with an unreadable configuration changes nothing; one that succeeds has replaced the
  components by those of the configuration it read.
  */
  lemma RestartReplaces(core: Core, check: Option<Config>, s: StopFaults, load: Option<Config>, f: StartFaults)
    requires core.running.Some?
    ensures var e := RestartCore(core, check, s, load, f);
      && (check.None? ==> e.core == core && !e.ok)
      && (e.ok <==> check.Some? && !StopFails(core.running.value, s) && load.Some?
                    && (load.value.mesh.None? || f.startMesh.MeshUp?) && (load.value.stack.enabled ==> f.proxyStarts))
    ensures var e := RestartCore(core, check, s, load, f);
      e.ok && (core.world.mesh.Some? ==> core.running.value.config.mesh.Some?) ==>
        && e.core.running.Some? && e.core.running.value.config == load.value
        && Matches(e.core.running.value, e.core.world)
        && (load.value.stack.enabled ==> e.core.running.value.stack.value.id == core.world.nextId)
  {
    StopLetsGo(core, s);
    if check.Some? && load.Some? && !StopFails(core.running.value, s) {
      var stopped := StopCore(core, s).core;
      StartHolds(stopped, load.value, f);
      if StartCore(stopped, load, f).ok {
        StartMatchesIff(stopped, load.value, f);
      }
    }
  }

  // ----------------------------------------------------- what a change replaces

  function PortOf(stack: ProxyConfig): nat {
    match stack.mixedPort case Some(port) => port case None => 7890
  }

  function IntervalOf(stack: ProxyConfig): nat {
    match stack.updateInterval case Some(seconds) => seconds case None => 3600
  }

  function LevelOf(stack: ProxyConfig): string {
    match stack.logLevel case Some(level) => level case None => "info"
  }

  function UrlOf(stack: ProxyConfig): string {
    match stack.healthCheckUrl case Some(url) => url case None => "http://cp.cloudflare.com/generate_204"
  }

  /** The settings a proxy runs with, whether written out or left to their defaults. */
  predicate SameSettings(a: ProxyConfig, b: ProxyConfig) {
    && a.enabled == b.enabled && a.rest == b.rest
    && PortOf(a) == PortOf(b) && IntervalOf(a) == IntervalOf(b) && LevelOf(a) == LevelOf(b) && UrlOf(a) == UrlOf(b)
  }

  /** The part of the mesh that shapes a proxy's addresses, exclusions and bypass rules. */
  predicate SameRoutes(a: Option<MeshConfig>, b: Option<MeshConfig>) {
    && (a.Some? <==> b.Some?)
    && (a.Some? ==>
          && a.value.role == b.value.role && a.value.ipv4 == b.value.ipv4 && a.value.peers == b.value.peers
          && a.value.listeners == b.value.listeners && a.value.meshRoutes == b.value.meshRoutes
          && a.value.wireguardClientAddress == b.value.wireguardClientAddress)
  }

  lemma ViewsAgreeIff(a: Config, b: Config)
    ensures View(a) == View(b) <==> SameSettings(a.stack, b.stack) && SameRoutes(a.mesh, b.mesh)
  {
    if SameSettings(a.stack, b.stack) && SameRoutes(a.mesh, b.mesh) {
      assert View(a).proxy == View(b).proxy;
    }
  }

  /** The proxy is restarted exactly when one is asked for and it is forced or its settings change. */
  predicate RestartsProxy(current: Config, next: Config, force: bool) {
    && (current.stack.enabled || next.stack.enabled)
    && (force || !SameSettings(current.stack, next.stack) || !SameRoutes(current.mesh, next.mesh))
  }

  /** What a successful apply does to the held controller. */
  lemma ApplyRestartsIff(c: Components, w: World, target: Config, force: bool, f: ApplyFaults)
    requires ApplyComponents(c, w, target, force, f).ok
    ensures var h := ApplyComponents(c, w, target, force, f).held;
      && (RestartsProxy(c.config, target, force) ==>
            h.stack == if target.stack.enabled then Some(Proxy(w.nextId, target, true)) else None)
      && (!RestartsProxy(c.config, target, force) ==> h.stack == c.stack)
  {
    ViewsAgreeIff(c.config, target);
  }

  /** Lists, mesh and controller of what is applied again, unforced and with nothing pending, stay as they are. */
  lemma SameConfigChangesNothing(core: Core, f: ApplyFaults)
    requires core.running.Some? && !core.pendingProxy
    ensures var cfg := core.running.value.config;
      var e := ApplyCore(core, Some(cfg), false, f);
      && e.core.running == core.running && e.core.world == core.world
      && (e.ok <==> cfg.mesh.None? || f.meshTomlOk)
      && e.core.applyError == !e.ok && e.core.pendingProxy == !e.ok
  {
  }

  // ---------------------------------------------------- tasks over whole runs

  predicate Since(tasks: seq<Task>, id: nat) {
    forall i :: 0 <= i < |tasks| ==> tasks[i].id >= id
  }

  predicate Before(tasks: seq<Task>, id: nat) {
    forall i :: 0 <= i < |tasks| ==> tasks[i].id < id
  }

  predicate Distinct(tasks: seq<Task>) {
    forall i, j :: 0 <= i < j < |tasks| ==> tasks[i].id != tasks[j].id
  }

  predicate Apart(a: seq<Task>, b: seq<Task>) {
    forall i, j :: 0 <= i < |a| && 0 <= j < |b| ==> a[i].id != b[j].id
  }

  /** No two held tasks share an identity, the next identity is free, and a held controller lives. */
  predicate TasksInv(c: Components, w: World) {
    && Distinct(c.http) && Distinct(c.fwd) && Distinct(c.ssh)
    && Apart(c.http, c.fwd) && Apart(c.http, c.ssh) && Apart(c.fwd, c.ssh)
    && Before(c.http, w.nextId) && Before(c.fwd, w.nextId) && Before(c.ssh, w.nextId)
    && (c.stack.Some? ==> c.stack.value in w.proxies)
  }

  /** A list is kept as it is, or made of new tasks only. */
  predicate ListStep(was: seq<Task>, now: seq<Task>, changed: bool, id: nat) {
    if changed then Since(now, id) else now == was
  }

  predicate ListsStep(c: Components, h: Components, plan: ChangePlan, id: nat) {
    && ListStep(c.http, h.http, plan.http, id)
    && ListStep(c.fwd, h.fwd, plan.fwd, id)
    && ListStep(c.ssh, h.ssh, plan.ssh, id)
  }

  lemma ReplaceStep(c: Components, w: World, cfg: Config, plan: ChangePlan)
    requires TasksInv(c, w)
    ensures var (h, w') := ReplaceTasks(c, w, cfg, plan); TasksInv(h, w') && ListsStep(c, h, plan, w.nextId)
  {
  }

  predicate EffectStep(c: Components, w: World, plan: ChangePlan, e: Effect) {
    TasksInv(e.held, e.world) && (e.ok ==> ListsStep(c, e.held, plan, w.nextId))
  }

  lemma RestStep(c: Components, w: World, cfg: Config, plan: ChangePlan, f: ApplyFaults, trace: seq<World>)
    requires TasksInv(c, w)
    ensures EffectStep(c, w, plan, ApplyRest(c, w, cfg, plan, f, trace))
  {
    var started := plan.proxy && cfg.stack.enabled;
    var c' := if started then c.(stack := Some(Proxy(w.nextId, cfg, f.proxyStarts))) else c;
    var w' := if started then StartProxy(w, cfg, f.proxyStarts) else w;
    assert TasksInv(c', w');
    ReplaceStep(c', w', cfg, plan);
  }

  lemma MeshStep(c: Components, w: World, cfg: Config, plan: ChangePlan, f: ApplyFaults, trace: seq<World>)
    requires TasksInv(c, w)
    ensures EffectStep(c, w, plan, ApplyMesh(c, w, cfg, plan, f, trace))
  {
    if !plan.mesh {
      RestStep(c, w, cfg, plan, f, trace);
    } else {
      var down := StopMesh(w, f.stopMesh);
      var up := StartMesh(down, cfg.mesh, f.startMesh);
      var c' := c.(config := c.config.(mesh := cfg.mesh));
      assert up.proxies == w.proxies && up.nextId == w.nextId;
      assert TasksInv(c', up) && TasksInv(c, up) && TasksInv(c, down);
      RestStep(c', up, cfg, plan, f, trace + [down, up]);
      assert forall h, id :: ListsStep(c', h, plan, id) ==> ListsStep(c, h, plan, id);
    }
  }

  /** A successful apply keeps every list whose items are unchanged and makes new tasks for the others. */
  lemma ApplyReplacesChangedLists(c: Components, w: World, target: Config, force: bool, f: ApplyFaults)
    requires TasksInv(c, w)
    ensures var e := ApplyComponents(c, w, target, force, f);
      && TasksInv(e.held, e.world)
      && (e.ok ==>
            && ListStep(c.http, e.held.http, c.config.http != target.http, w.nextId)
            && ListStep(c.fwd, e.held.fwd, c.config.fwd != target.fwd, w.nextId)
            && ListStep(c.ssh, e.held.ssh, c.config.ssh != target.ssh, w.nextId))
  {
    ApplyStep(c, w, target, force, f);
  }

  lemma ApplyStep(c: Components, w: World, target: Config, force: bool, f: ApplyFaults)
    requires TasksInv(c, w)
    ensures EffectStep(c, w, Between(c.config, target, force), ApplyComponents(c, w, target, force, f))
  {
    var plan := Between(c.config, target, force);
    if plan.proxy && c.stack.Some? {
      var down := StopProxy(w, c.stack.value, f.stopProxy);
      MeshStep(c.(stack := None), down, target, plan, f, [w, down]);
    } else {
      MeshStep(c, w, target, plan, f, [w]);
    }
  }

  predicate CoreTasks(core: Core) {
    core.running.Some? ==> TasksInv(core.running.value, core.world)
  }

  lemma StartTasksInv(core: Core, load: Option<Config>, f: StartFaults)
    requires CoreTasks(core)
    ensures CoreTasks(StartCore(core, load, f).core)
  {
    if core.running.None? && load.Some? {
      var cfg := load.value;
      var w := StartMesh(core.world, cfg.mesh, f.startMesh);
      var stack := if cfg.stack.enabled then Some(Proxy(w.nextId, cfg, f.proxyStarts)) else None;
      var w' := if cfg.stack.enabled then StartProxy(w, cfg, f.proxyStarts) else w;
      ReplaceStep(Components(stack, [], [], [], cfg), w', cfg, EMPTY_PLAN);
    }
  }

  lemma StepTasksInv(core: Core, op: Op)
    requires CoreTasks(core)
    ensures CoreTasks(Step(core, op).core)
  {
    match op
    case Start(load, f) => StartTasksInv(core, load, f);
    case Stop(_) =>
    case Restart(_, s, load, f) =>
      if StopCore(core, s).ok {
        StartTasksInv(StopCore(core, s).core, load, f);
      }
    case Apply(load, force, f) =>
      if core.running.Some? && load.Some? {
        ApplyReplacesChangedLists(core.running.value, core.world, load.value, core.pendingProxy || force, f);
      }
  }

  /** In every run, whatever fails, held tasks are told apart by identity and a held controller lives. */
  lemma {:induction false} TasksStayDistinct(core: Core, ops: seq<Op>)
    requires CoreTasks(core)
    ensures CoreTasks(Run(core, ops))
    decreases |ops|
  {
    if ops != [] {
      StepTasksInv(core, ops[0]);
      TasksStayDistinct(Step(core, ops[0]).core, ops[1..]);
    }
  }

  /** A start of what runs, and a stop or an apply of what does not, change nothing but the flags a stop clears. */
  lemma NothingToDo(core: Core, load: Option<Config>, start: StartFaults, stop: StopFaults, force: bool, f: ApplyFaults)
    ensures core.running.Some? ==> StartCore(core, load, start) == CoreEffect(core, true, [core.world])
    ensures core.running.None? ==>
      StopCore(core, stop) == CoreEffect(core.(applyError := false, pendingProxy := false), true, [core.world])
    ensures core.running.None? && load.None? ==> StartCore(core, load, start) == CoreEffect(core, false, [core.world])
    ensures load.None? ==> ApplyCore(core, load, force, f) == CoreEffect(core, false, [core.world])
    ensures core.running.None? && load.Some? ==> ApplyCore(core, load, force, f) == CoreEffect(core, true, [core.world])
  {
  }
}

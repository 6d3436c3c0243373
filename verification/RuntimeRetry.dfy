/**
Applying one configuration until it succeeds, and what a failed apply leaves behind for a
different one.
*/
module RuntimeRetry {
  import opened Wrappers
  import opened Positions
  import opened RuntimeModel
  import opened RuntimeProofs

  /** The positions of the enabled items among the first `n`. */
  function Wanted(items: seq<Item>, n: nat): set<nat>
    requires n <= |items|
  {
    set i: nat | i < n && items[i].enabled
  }

  predicate SettingsAt(tasks: seq<Task>, items: seq<Item>, positions: seq<nat>) {
    && |tasks| == |positions|
    && forall k :: 0 <= k < |tasks| ==> positions[k] < |items| && tasks[k].settings == items[positions[k]].settings
  }

  /** Task by task, the items at these positions. */
  ghost predicate RunsAt(tasks: seq<Task>, items: seq<Item>, positions: seq<nat>) {
    Lists(positions, Wanted(items, |items|)) && SettingsAt(tasks, items, positions)
  }

  /** One task for each enabled item, in the order of the items. */
  ghost predicate TasksFollow(tasks: seq<Task>, items: seq<Item>) {
    exists positions :: RunsAt(tasks, items, positions)
  }

  /** Mesh, proxy and task lists are what the recorded configuration says. */
  ghost predicate Matches(c: Components, w: World) {
    && w.mesh == c.config.mesh
    && (if c.config.stack.enabled
        then c.stack.Some? && c.stack.value.started && View(c.stack.value.config) == View(c.config)
        else c.stack.None?)
    && AllFollow(c, c.config)
  }

  predicate SameTasks(a: Components, b: Components) {
    a.http == b.http && a.fwd == b.fwd && a.ssh == b.ssh
  }

  /** What holds between attempts to move from the components `was` to the target. */
  predicate RetryState(was: Components, c: Components, w: World, target: Config) {
    && SameTasks(c, was)
    && c.config.stack == was.config.stack
    && c.config.http == was.config.http && c.config.fwd == was.config.fwd && c.config.ssh == was.config.ssh
    && (c.config.mesh == target.mesh ==> w.mesh == target.mesh)
    && (!was.config.stack.enabled && !target.stack.enabled ==> c.stack.None?)
  }

  predicate Retrying(was: Components, core: Core, target: Config) {
    core.running.Some? && RetryState(was, core.running.value, core.world, target)
  }

  /** A request to apply the target; the file may also be unreadable for a while. */
  predicate Targets(op: Op, target: Config) {
    op.Apply? && (op.load.Some? ==> op.load.value == target)
  }

  lemma FailedMeshRetries(
    was: Components, c: Components, w: World, target: Config, plan: ChangePlan, f: ApplyFaults, trace: seq<World>)
    requires RetryState(was, c, w, target) && !ApplyMesh(c, w, target, plan, f, trace).ok
    requires plan.mesh <==> c.config.mesh != target.mesh
    requires !was.config.stack.enabled && !target.stack.enabled ==> !plan.proxy
    ensures var e := ApplyMesh(c, w, target, plan, f, trace); RetryState(was, e.held, e.world, target)
  {
  }

  lemma FailedApplyRetries(was: Components, core: Core, target: Config, force: bool, f: ApplyFaults)
    requires Retrying(was, core, target) && !ApplyCore(core, Some(target), force, f).ok
    ensures Retrying(was, ApplyCore(core, Some(target), force, f).core, target)
  {
    var c, w := core.running.value, core.world;
    var plan := Between(c.config, target, core.pendingProxy || force);
    if target.mesh.Some? && !f.meshTomlOk {
    } else if plan.proxy && c.stack.Some? {
      if !f.stopProxy.ProxyLost? {
        var down := StopProxy(w, c.stack.value, f.stopProxy);
        FailedMeshRetries(was, c.(stack := None), down, target, plan, f, [w, down]);
      }
    } else {
      FailedMeshRetries(was, c, w, target, plan, f, [w]);
    }
  }

  /** Every operation of a run asks for the target and fails. */
  predicate AllFail(core: Core, ops: seq<Op>, target: Config)
    decreases |ops|
  {
    ops != [] ==>
      && Targets(ops[0], target) && !Step(core, ops[0]).ok
      && AllFail(Step(core, ops[0]).core, ops[1..], target)
  }

  lemma {:induction false} RetriesKeep(was: Components, core: Core, target: Config, ops: seq<Op>)
    requires Retrying(was, core, target) && CoreInv(core) && AllFail(core, ops, target)
    ensures Retrying(was, Run(core, ops), target) && CoreInv(Run(core, ops))
    decreases |ops|
  {
    if ops != [] {
      StepKeeps(core, ops[0]);
      if ops[0].load.Some? {
        FailedApplyRetries(was, core, target, ops[0].force, ops[0].applyFaults);
      }
      RetriesKeep(was, Step(core, ops[0]).core, target, ops[1..]);
    }
  }

  lemma WantedNext(items: seq<Item>, n: nat)
    requires n < |items|
    ensures Wanted(items, n + 1) == Wanted(items, n) + if items[n].enabled then {n} else {}
  {
  }

  lemma {:induction false} SpawnedAt(items: seq<Item>, n: nat, id: nat) returns (positions: seq<nat>)
    requires n <= |items|
    ensures Lists(positions, Wanted(items, n)) && SettingsAt(SpawnTasks(items[..n], id), items, positions)
  {
    if n == 0 {
      positions := [];
    } else {
      positions := SpawnedAt(items, n - 1, id);
      EnabledSnoc(items, n - 1);
      WantedNext(items, n - 1);
      if items[n - 1].enabled {
        ListsSnoc(positions, Wanted(items, n - 1), n - 1);
        positions := positions + [n - 1];
      }
    }
  }

  lemma SpawnedFollow(items: seq<Item>, id: nat)
    ensures TasksFollow(SpawnTasks(items, id), items)
  {
    var positions := SpawnedAt(items, |items|, id);
    assert items[..|items|] == items;
    assert RunsAt(SpawnTasks(items, id), items, positions);
  }

  /** The recorded items of a task list and the tasks run for it. */
  ghost predicate AllFollow(c: Components, cfg: Config) {
    TasksFollow(c.http, cfg.http) && TasksFollow(c.fwd, cfg.fwd) && TasksFollow(c.ssh, cfg.ssh)
  }

  ghost predicate PlansTasks(c: Components, cfg: Config, plan: ChangePlan) {
    && (!plan.http ==> TasksFollow(c.http, cfg.http))
    && (!plan.fwd ==> TasksFollow(c.fwd, cfg.fwd))
    && (!plan.ssh ==> TasksFollow(c.ssh, cfg.ssh))
  }

  lemma ReplacedFollow(c: Components, w: World, cfg: Config, plan: ChangePlan)
    requires PlansTasks(c, cfg, plan)
    ensures ReplaceTasks(c, w, cfg, plan).0.config == cfg && AllFollow(ReplaceTasks(c, w, cfg, plan).0, cfg)
  {
    var id1 := if plan.http then w.nextId + |Enabled(cfg.http)| else w.nextId;
    var id2 := if plan.fwd then id1 + |Enabled(cfg.fwd)| else id1;
    SpawnedFollow(cfg.http, w.nextId);
    SpawnedFollow(cfg.fwd, id1);
    SpawnedFollow(cfg.ssh, id2);
  }

  lemma ApplyRestFollow(c: Components, w: World, cfg: Config, plan: ChangePlan, f: ApplyFaults, trace: seq<World>)
    requires PlansTasks(c, cfg, plan)
    ensures var e := ApplyRest(c, w, cfg, plan, f, trace); e.ok ==> e.held.config == cfg && AllFollow(e.held, cfg)
  {
    var started := plan.proxy && cfg.stack.enabled;
    var c' := if started then c.(stack := Some(Proxy(w.nextId, cfg, f.proxyStarts))) else c;
    var w' := if started then StartProxy(w, cfg, f.proxyStarts) else w;
    ReplacedFollow(c', w', cfg, plan);
  }

  lemma ApplyMeshFollow(c: Components, w: World, cfg: Config, plan: ChangePlan, f: ApplyFaults, trace: seq<World>)
    requires PlansTasks(c, cfg, plan)
    ensures var e := ApplyMesh(c, w, cfg, plan, f, trace); e.ok ==> e.held.config == cfg && AllFollow(e.held, cfg)
  {
    var down := StopMesh(w, f.stopMesh);
    var up := StartMesh(down, cfg.mesh, f.startMesh);
    ApplyRestFollow(c, w, cfg, plan, f, trace);
    ApplyRestFollow(c.(config := c.config.(mesh := cfg.mesh)), up, cfg, plan, f, trace + [down, up]);
  }

  /** A successful apply records the target and leaves every task list as the target says. */
  lemma ApplyTasksResult(c: Components, w: World, target: Config, force: bool, f: ApplyFaults)
    requires ApplyComponents(c, w, target, force, f).ok && AllFollow(c, c.config)
    ensures var h := ApplyComponents(c, w, target, force, f).held; h.config == target && AllFollow(h, target)
  {
    var plan := Between(c.config, target, force);
    ApplyMeshFollow(c, w, target, plan, f, [w]);
    if c.stack.Some? {
      var down := StopProxy(w, c.stack.value, f.stopProxy);
      ApplyMeshFollow(c.(stack := None), down, target, plan, f, [w, down]);
    }
  }

  lemma SuccessfulApplyMatches(
    was: Components, wasWorld: World, core: Core, target: Config, force: bool, f: ApplyFaults)
    requires Matches(was, wasWorld) && Retrying(was, core, target) && CoreInv(core)
    requires ApplyCore(core, Some(target), force, f).ok
    ensures var end := ApplyCore(core, Some(target), force, f).core;
      end.running.Some? && end.running.value.config == target && Matches(end.running.value, end.world)
  {
    var c, w := core.running.value, core.world;
    var force' := core.pendingProxy || force;
    ApplyKeeps(c, w, target, force', f);
    ApplyMeshResult(c, w, target, force', f);
    if !target.stack.enabled {
      ApplyStackResult(c, w, target, force', f);
    }
    ApplyTasksResult(c, w, target, force', f);
  }

  /** A successful apply leaves the target's mesh up exactly when it replaced the mesh or found it up. */
  lemma ApplyMeshResult(c: Components, w: World, target: Config, force: bool, f: ApplyFaults)
    requires ApplyComponents(c, w, target, force, f).ok
    ensures ApplyComponents(c, w, target, force, f).world.mesh == target.mesh
      <==> c.config.mesh != target.mesh || w.mesh == target.mesh
  {
  }

  /**
  A successful apply of a disabled proxy lets go of the controller exactly when the record had
  it enabled or none was held.
  */
  lemma ApplyStackResult(c: Components, w: World, target: Config, force: bool, f: ApplyFaults)
    requires ApplyComponents(c, w, target, force, f).ok && !target.stack.enabled
    ensures ApplyComponents(c, w, target, force, f).held.stack.None?
      <==> c.config.stack.enabled || c.stack.None?
  {
    assert c.config.stack.enabled ==> View(c.config).proxy.enabled != View(target).proxy.enabled;
  }

  /** Failed applies of one configuration, failing at any await, leave the task lists untouched. */
  lemma FailedAppliesKeepTasks(core: Core, target: Config, ops: seq<Op>)
    requires core.running.Some? && Matches(core.running.value, core.world) && CoreInv(core)
    requires AllFail(core, ops, target)
    ensures Run(core, ops).running.Some? && SameTasks(Run(core, ops).running.value, core.running.value)
  {
    RetriesKeep(core.running.value, core, target, ops);
  }

  /**
  Same-target convergence: from components that match their record, a success after any
  number of failed applies of one configuration leaves mesh, proxy and every task list as
  that configuration says, with nothing pending.
  */
  lemma SameTargetConverges(core: Core, target: Config, ops: seq<Op>, last: Op)
    requires core.running.Some? && Matches(core.running.value, core.world) && CoreInv(core)
    requires AllFail(core, ops, target)
    requires Targets(last, target) && Step(Run(core, ops), last).ok
    ensures var end := Step(Run(core, ops), last).core;
      && end.running.Some? && end.running.value.config == target && Matches(end.running.value, end.world)
      && !end.pendingProxy && !end.applyError
  {
    RetriesKeep(core.running.value, core, target, ops);
    SuccessfulApplyMatches(core.running.value, core.world, Run(core, ops), target, last.force, last.applyFaults);
  }

  // ------------------------------------- what a failed apply leaves for another target

  /**
  Going back to the recorded configuration after a failed mesh start reports success with
  nothing pending, and yet the recorded mesh is not up.
  */
  lemma RevertLeavesMeshDown(core: Core, target: Config)
    requires core.running.Some? && Matches(core.running.value, core.world)
    requires core.running.value.config.mesh.Some? && target.mesh.Some? && target.mesh != core.running.value.config.mesh
    ensures var was := core.running.value.config;
      var failed := ApplyCore(core, Some(target), false, NO_FAULTS.(startMesh := MeshStartFailed(false)));
      var reverted := ApplyCore(failed.core, Some(was), false, NO_FAULTS);
      && !failed.ok && reverted.ok && !reverted.core.pendingProxy && !reverted.core.applyError
      && reverted.core.running.Some? && reverted.core.running.value.config == was
      && reverted.core.world.mesh != was.mesh
  {
  }

  /** Going back to a disabled proxy after it failed to start keeps the failed controller held. */
  lemma RevertKeepsFailedProxy(core: Core, target: Config)
    requires core.running.Some? && Matches(core.running.value, core.world)
    requires !core.running.value.config.stack.enabled && target == core.running.value.config.(stack := target.stack)
    requires target.stack.enabled
    ensures var was := core.running.value.config;
      var failed := ApplyCore(core, Some(target), false, NO_FAULTS.(proxyStarts := false));
      var reverted := ApplyCore(failed.core, Some(was), false, NO_FAULTS);
      && !failed.ok && reverted.ok && reverted.core.running.Some?
      && reverted.core.running.value.config == was && reverted.core.running.value.stack.Some?
  {
  }

  /** A successful stop takes the mesh down exactly when one was recorded or none was up. */
  lemma StopMeshResult(core: Core, f: StopFaults)
    requires core.running.Some? && StopCore(core, f).ok
    ensures StopCore(core, f).core.world.mesh.None? <==> core.running.value.config.mesh.Some? || core.world.mesh.None?
  {
  }
}

/**
The runtime objects themselves, updated in place await by await, each method proved to do
what `RuntimeModel` says, including every intermediate world.
*/
module Runtime {
  import opened Wrappers
  import opened RuntimeModel
  import opened RuntimeProofs

  /** The machine the components run on, with a record of the worlds passed through. */
  class Host {
    var world: World
    ghost var trace: seq<World>

    constructor (world: World)
      ensures this.world == world && trace == []
    {
      this.world := world;
      trace := [];
    }

    method Set(world: World)
      modifies this
      ensures this.world == world && trace == old(trace) + [world]
    {
      this.world := world;
      trace := trace + [world];
    }

    /** Records the world once more where the model names it and nothing is done to it. */
    ghost method Note()
      modifies this`trace
      ensures trace == old(trace) + [world]
    {
      trace := trace + [world];
    }
  }

  /** Spawns a task for each enabled item, in order, from the next free id. */
  method StartTasks(items: seq<Item>, firstId: nat) returns (tasks: seq<Task>)
    ensures tasks == SpawnTasks(items, firstId)
  {
    tasks := [];
    for i := 0 to |items|
      invariant tasks == SpawnTasks(items[..i], firstId)
    {
      EnabledSnoc(items, i);
      if items[i].enabled {
        tasks := tasks + [Task(firstId + |tasks|, items[i].settings)];
      }
    }
    assert items[..|items|] == items;
  }

  /** What was recorded before an apply stays in front of what the apply records. */
  lemma ApplyMeshTrace(
    c: Components, w: World, cfg: Config, plan: ChangePlan, f: ApplyFaults, earlier: seq<World>, seen: seq<World>)
    ensures var e := ApplyMesh(c, w, cfg, plan, f, seen);
      ApplyMesh(c, w, cfg, plan, f, earlier + seen) == e.(trace := earlier + e.trace)
  {
    var down := StopMesh(w, f.stopMesh);
    var up := StartMesh(down, cfg.mesh, f.startMesh);
    assert earlier + seen + [down] == earlier + (seen + [down]);
    assert earlier + seen + [down, up] == earlier + (seen + [down, up]);
    ApplyRestTrace(c, w, cfg, plan, f, earlier, seen);
    ApplyRestTrace(c.(config := c.config.(mesh := cfg.mesh)), up, cfg, plan, f, earlier, seen + [down, up]);
  }

  lemma ApplyRestTrace(
    c: Components, w: World, cfg: Config, plan: ChangePlan, f: ApplyFaults, earlier: seq<World>, seen: seq<World>)
    ensures var e := ApplyRest(c, w, cfg, plan, f, seen);
      ApplyRest(c, w, cfg, plan, f, earlier + seen) == e.(trace := earlier + e.trace)
  {
    var e := ApplyRest(c, w, cfg, plan, f, seen);
    assert earlier + seen + e.trace[|seen|..] == earlier + (seen + e.trace[|seen|..]);
    assert e.trace == seen + e.trace[|seen|..];
  }

  class RunningComponents {
    const host: Host
    var stack: Option<Proxy>
    var httpTasks: seq<Task>
    var fwdTasks: seq<Task>
    var sshTasks: seq<Task>
    var config: Config

    constructor (host: Host, cfg: Config)
      ensures this.host == host && Held() == Components(None, [], [], [], cfg)
    {
      this.host := host;
      stack, httpTasks, fwdTasks, sshTasks, config := None, [], [], [], cfg;
    }

    function Held(): Components
      reads this
    {
      Components(stack, httpTasks, fwdTasks, sshTasks, config)
    }

    /** Records the controller, then waits: a failed wait leaves the controller recorded. */
    method StartStack(cfg: Config, starts: bool) returns (ok: bool)
      modifies this`stack, host
      ensures ok == starts && stack == Some(Proxy(old(host.world.nextId), cfg, starts))
      ensures host.world == StartProxy(old(host.world), cfg, starts) && host.trace == old(host.trace) + [host.world]
    {
      stack := Some(Proxy(host.world.nextId, cfg, starts));
      host.Set(StartProxy(host.world, cfg, starts));
      ok := starts;
    }

    method ReplaceTaskLists(cfg: Config, plan: ChangePlan)
      modifies this, host
      ensures (Held(), host.world) == ReplaceTasks(old(Held()), old(host.world), cfg, plan)
      ensures host.trace == old(host.trace) + [host.world]
    {
      var id := host.world.nextId;
      if plan.http {
        httpTasks := StartTasks(cfg.http, id);
        id := id + |httpTasks|;
      }
      if plan.fwd {
        fwdTasks := StartTasks(cfg.fwd, id);
        id := id + |fwdTasks|;
      }
      if plan.ssh {
        sshTasks := StartTasks(cfg.ssh, id);
        id := id + |sshTasks|;
      }
      config := cfg;
      host.Set(host.world.(nextId := id));
    }

    method FinishApply(cfg: Config, plan: ChangePlan, f: ApplyFaults) returns (ok: bool)
      modifies this, host
      ensures Effect(Held(), host.world, ok, host.trace)
           == ApplyRest(old(Held()), old(host.world), cfg, plan, f, old(host.trace))
    {
      if plan.proxy && cfg.stack.enabled {
        ok := StartStack(cfg, f.proxyStarts);
        if !ok {
          return;
        }
      } else {
        host.Note();
      }
      ReplaceTaskLists(cfg, plan);
      ok := true;
    }

    /** Replaces the mesh if planned, then goes on with what depends on it. */
    method ReplaceMesh(cfg: Config, plan: ChangePlan, f: ApplyFaults) returns (ok: bool)
      modifies this, host
      ensures Effect(Held(), host.world, ok, host.trace)
           == ApplyMesh(old(Held()), old(host.world), cfg, plan, f, old(host.trace))
    {
      if plan.mesh {
        host.Set(StopMesh(host.world, f.stopMesh));
        if f.stopMesh.MeshStopFailed? {
          return false;
        }
        ghost var down := host.world;
        host.Set(StartMesh(host.world, cfg.mesh, f.startMesh));
        assert host.trace == old(host.trace) + [down, host.world];
        if cfg.mesh.Some? && f.startMesh.MeshStartFailed? {
          return false;
        }
        config := config.(mesh := cfg.mesh);
      }
      ok := FinishApply(cfg, plan, f);
    }

    method Apply(cfg: Config, force: bool, f: ApplyFaults) returns (ok: bool)
      modifies this, host
      ensures var e := ApplyComponents(old(Held()), old(host.world), cfg, force, f);
        Held() == e.held && host.world == e.world && ok == e.ok && host.trace == old(host.trace) + e.trace
    {
      ghost var c, w, earlier := Held(), host.world, host.trace;
      var plan := Between(config, cfg, force);
      host.Note();
      if cfg.mesh.Some? && !f.meshTomlOk {
        return false;
      }
      ghost var seen := [w];
      if plan.proxy && stack.Some? {
        var controller := stack.value;
        stack := None;
        host.Set(StopProxy(host.world, controller, f.stopProxy));
        seen := [w, host.world];
        assert host.trace == earlier + seen;
        if f.stopProxy.ProxyLost? {
          return false;
        }
      }
      ApplyMeshTrace(Held(), host.world, cfg, plan, f, earlier, seen);
      ok := ReplaceMesh(cfg, plan, f);
    }

    /** Stops everything held; on a failure the drop of the components retries the mesh. */
    method Stop(f: StopFaults) returns (ok: bool)
      modifies this, host
      ensures var e := StopCore(Core(Some(old(Held())), false, false, old(host.world)), f);
        ok == e.ok && host.world == e.core.world && host.trace == old(host.trace) + e.trace
    {
      host.Note();
      httpTasks, fwdTasks, sshTasks := [], [], [];
      var failed := false;
      if stack.Some? {
        var controller := stack.value;
        stack := None;
        host.Set(StopProxy(host.world, controller, f.stopProxy));
        failed := f.stopProxy.ProxyLost?;
      } else {
        host.Note();
      }
      ghost var down, untouched := host.world, true;
      if !failed && config.mesh.Some? {
        if f.stopMesh.MeshStopFailed? {
          failed := true;
        } else {
          host.Set(StopMesh(host.world, f.stopMesh));
          config := config.(mesh := None);
          untouched := false;
        }
      }
      if failed && config.mesh.Some? && !f.meshSurvives {
        host.Set(StopMesh(host.world, MeshDown));
        untouched := false;
      }
      if untouched {
        host.Note();
      }
      assert host.trace == old(host.trace) + [old(host.world), down, host.world];
      ok := !failed;
    }
  }

  /** `from_config`: mesh, proxy, tasks; without its mesh nothing is held. */
  method FromConfig(host: Host, cfg: Config, f: StartFaults) returns (components: RunningComponents?, ok: bool)
    modifies host
    ensures components != null ==> fresh(components) && components.host == host
    ensures var e := StartCore(Core(None, false, false, old(host.world)), Some(cfg), f);
      && ok == e.ok && host.world == e.core.world && host.trace == old(host.trace) + e.trace
      && e.core.running == (if components == null then None else Some(components.Held()))
  {
    host.Note();
    host.Set(StartMesh(host.world, cfg.mesh, f.startMesh));
    ghost var up := host.world;
    if cfg.mesh.Some? && f.startMesh.MeshStartFailed? {
      if f.meshSurvives {
        host.Note();
      } else {
        host.Set(StopMesh(host.world, MeshDown));
      }
      assert host.trace == old(host.trace) + [old(host.world), up, host.world];
      return null, false;
    }
    components := new RunningComponents(host, cfg);
    ok := true;
    if cfg.stack.enabled {
      ok := components.StartStack(cfg, f.proxyStarts);
    } else {
      host.Note();
    }
    ghost var started := host.world;
    components.ReplaceTaskLists(cfg, EMPTY_PLAN);
    assert host.trace == old(host.trace) + [old(host.world), up, started, host.world];
  }

  class CoreRuntime {
    const host: Host
    var running: RunningComponents?
    var applyError: bool
    var pendingProxy: bool

    /** The held components run on this host, and what every run keeps holds. */
    ghost predicate Valid()
      reads this, running, host
    {
      (running != null ==> running.host == host) && CoreInv(View())
    }

    function View(): Core
      reads this, running, host
    {
      Core(if running == null then None else Some(running.Held()), applyError, pendingProxy, host.world)
    }

    constructor (host: Host)
      requires host.world == IDLE.world
      ensures Valid() && View() == IDLE && this.host == host
    {
      this.host := host;
      running := null;
      applyError, pendingProxy := false, false;
    }

    method Start(load: Option<Config>, f: StartFaults) returns (ok: bool)
      requires Valid()
      modifies this, host
      ensures Valid() && View() == StartCore(old(View()), load, f).core && ok == StartCore(old(View()), load, f).ok
      ensures host.trace == old(host.trace) + StartCore(old(View()), load, f).trace
      ensures running == old(running) || fresh(running)
    {
      StartKeeps(View(), load, f);
      if running != null {
        host.Note();
        return true;
      }
      if load.None? {
        host.Note();
        return false;
      }
      ok := Launch(load.value, f);
    }

    /** The part of a start that follows a readable configuration. */
    method Launch(cfg: Config, f: StartFaults) returns (ok: bool)
      requires running == null
      modifies this, host
      ensures View() == StartCore(old(View()), Some(cfg), f).core && ok == StartCore(old(View()), Some(cfg), f).ok
      ensures host.trace == old(host.trace) + StartCore(old(View()), Some(cfg), f).trace
      ensures running != null ==> fresh(running) && running.host == host
    {
      var components: RunningComponents?;
      components, ok := FromConfig(host, cfg, f);
      if components == null {
        applyError := true;
        return;
      }
      running := components;
      applyError, pendingProxy := !ok, !ok;
    }

    method Stop(f: StopFaults) returns (ok: bool)
      requires Valid()
      modifies this, running, host
      ensures Valid() && View() == StopCore(old(View()), f).core && ok == StopCore(old(View()), f).ok
      ensures host.trace == old(host.trace) + StopCore(old(View()), f).trace
      ensures running == null
    {
      StopKeeps(View(), f);
      if running != null {
        var components := running;
        running := null;
        ok := components.Stop(f);
        if !ok {
          return;
        }
      } else {
        host.Note();
      }
      applyError, pendingProxy := false, false;
      ok := true;
    }

    method Restart(check: Option<Config>, s: StopFaults, load: Option<Config>, f: StartFaults) returns (ok: bool)
      requires Valid()
      modifies this, running, host
      ensures Valid() && View() == RestartCore(old(View()), check, s, load, f).core
      ensures ok == RestartCore(old(View()), check, s, load, f).ok
      ensures host.trace == old(host.trace) + RestartCore(old(View()), check, s, load, f).trace
    {
      ghost var core, earlier := View(), host.trace;
      if check.None? {
        host.Note();
        return false;
      }
      ok := Stop(s);
      if ok {
        ghost var stopped := View();
        ok := Start(load, f);
        assert earlier + StopCore(core, s).trace + StartCore(stopped, load, f).trace
          == earlier + (StopCore(core, s).trace + StartCore(stopped, load, f).trace);
      }
    }

    method Apply(load: Option<Config>, force: bool, f: ApplyFaults) returns (ok: bool)
      requires Valid()
      modifies this, running, host
      ensures Valid() && View() == ApplyCore(old(View()), load, force, f).core
      ensures ok == ApplyCore(old(View()), load, force, f).ok
      ensures host.trace == old(host.trace) + ApplyCore(old(View()), load, force, f).trace
      ensures running == old(running)
    {
      StepKeeps(View(), RuntimeModel.Apply(load, force, f));
      if load.None? {
        host.Note();
        return false;
      }
      if running == null {
        host.Note();
        return true;
      }
      pendingProxy := pendingProxy || force;
      ok := running.Apply(load.value, pendingProxy, f);
      applyError, pendingProxy := !ok, !ok;
    }
  }
}

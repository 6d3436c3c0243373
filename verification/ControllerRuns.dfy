/**
What the lifecycle reports: where each status comes from, in every run, and runs that take a
start to `Running` on either path, to `Degraded` on a conflict and to the report of its end.
*/
module ControllerRuns {
  import opened Wrappers
  import opened Controller

  // ---------------------------------------------------- where a status comes from

  /**
  A health result that meets a live status decides it: `Running`, ready and without an error
  when it passed, `Degraded`, not ready and with the failure in both error fields when not.
  */
  lemma HealthIsReported(s: State, healthy: bool, probed: bool, message: string)
    requires s.monitor == ApplyHealth(healthy)
    ensures Enabled(s, MonitorStep(probed, message))
    ensures var before, after := s.status, Next(s, MonitorStep(probed, message)).status;
      && (Terminal(before.state) || before.state.Stopping? ==> after == before)
      && (!Terminal(before.state) && !before.state.Stopping? && healthy ==>
            after == Status(Running, before.pid, true, None, None))
      && (!Terminal(before.state) && !before.state.Stopping? && !healthy ==>
            after == Status(Degraded, before.pid, false, Some(message), Some(message)))
  {
  }

  /** A step in which the monitor writes a result, or the worker finds a conflicting tunnel. */
  predicate ReportsHealthy(s: State, e: Event) {
    e.MonitorStep? && s.monitor == ApplyHealth(true)
  }

  predicate ReportsFailure(s: State, e: Event, message: string) {
    || (e.MonitorStep? && s.monitor == ApplyHealth(false) && e.message == message)
    || (e.WorkerStep? && s.worker == Setup(Degrade(message)))
  }

  lemma SetupStatus(s: State, o: Outcome)
    requires Inv(s) && s.worker.Setup? && WorkerEnabled(s, o)
    ensures StepExplains(s, WorkerStep(o), SetupStepped(s, o).status)
  {
    assert !SetupStepped(s, o).status.state.Running?;
  }

  /** Past its setup the worker writes a terminal status, or the pid of its child while starting. */
  lemma WorkerStatus(s: State, o: Outcome)
    requires Inv(s) && WorkerEnabled(s, o) && !s.worker.Setup?
    ensures StepExplains(s, WorkerStep(o), WorkerStepped(s, o).status)
  {
    var t := WorkerStepped(s, o).status;
    assert t == s.status || Terminal(t.state) || s.status.state.Starting? || s.status.state.Stopping?;
  }

  /** What a step can do to a status that is, after it, `Running` or `Degraded`. */
  predicate StepExplains(s: State, e: Event, t: Status) {
    && (t.state.Running? ==> t == s.status || ReportsHealthy(s, e))
    && (t.state.Degraded? && t.error.Some? ==> t == s.status || ReportsFailure(s, e, t.error.value))
  }

  lemma MonitorStatus(s: State, healthy: bool, message: string)
    requires Inv(s) && MonitorEnabled(s)
    ensures StepExplains(s, MonitorStep(healthy, message), MonitorStepped(s, healthy, message).status)
  {
    match s.monitor
    case InitialProbe =>
    case InitialCheck(_) =>
    case ApplyHealth(_) =>
    case Idle =>
    case Probe =>
  }

  lemma StopStatus(s: State)
    requires Inv(s) && StopEnabled(s)
    ensures StepExplains(s, StopStep, StopStepped(s).status)
  {
    match s.caller
    case MarkStopping =>
    case RequestStop =>
    case SignalPid =>
    case TakeHandle =>
    case StopMesh =>
    case Join =>
    case StoreNotRunning =>
    case StorePidZero =>
    case MarkStopped =>
  }

  lemma StepIsExplained(s: State, e: Event)
    requires Inv(s) && Enabled(s, e)
    ensures StepExplains(s, e, Next(s, e).status)
  {
    match e
    case StartCall =>
    case StopCall =>
    case StopStep => StopStatus(s);
    case WorkerStep(o) =>
      if s.worker.Setup? {
        SetupStatus(s, o);
      } else {
        WorkerStatus(s, o);
      }
    case EngineEnds(_) =>
    case MonitorStep(h, m) => MonitorStatus(s, h, m);
    case LeftoverStep(_, _) =>
  }

  /** In every clean run a `Running` status is the one written by some earlier passed health check. */
  lemma {:induction false} RunningWasProbed(states: seq<State>, events: seq<Event>, i: nat)
    requires IsCleanRun(states, events) && i < |states| && states[i].status.state.Running?
    ensures exists j :: 0 <= j < i && ReportsHealthy(states[j], events[j]) && states[j + 1].status == states[i].status
  {
    if i > 0 {
      assert states[i] == Next(states[i - 1], events[i - 1]);
      PathInv(states, events, i - 1);
      StepIsExplained(states[i - 1], events[i - 1]);
      if states[i].status == states[i - 1].status {
        RunningWasProbed(states, events, i - 1);
      } else {
        assert ReportsHealthy(states[i - 1], events[i - 1]) && states[i - 1 + 1].status == states[i].status;
      }
    }
  }

  /** In every clean run a `Degraded` status is the one written by the failure whose message it carries. */
  lemma {:induction false} DegradedWasReported(states: seq<State>, events: seq<Event>, i: nat)
    requires IsCleanRun(states, events) && i < |states| && states[i].status.state.Degraded?
    ensures states[i].status.error.Some?
    ensures exists j :: && 0 <= j < i && ReportsFailure(states[j], events[j], states[i].status.error.value)
                        && states[j + 1].status == states[i].status
  {
    StatusAlwaysMeaningful(states, events, i);
    if i > 0 {
      assert states[i] == Next(states[i - 1], events[i - 1]);
      PathInv(states, events, i - 1);
      StepIsExplained(states[i - 1], events[i - 1]);
      if states[i].status == states[i - 1].status {
        DegradedWasReported(states, events, i - 1);
      } else {
        assert ReportsFailure(states[i - 1], events[i - 1], states[i].status.error.value)
          && states[i - 1 + 1].status == states[i].status;
      }
    }
  }

  // ------------------------------------------------------------------- readiness

  /** The engine has been published, or the child has been watched, since the start. */
  predicate ReadyInv(s: State) {
    s.ready ==>
      && !s.worker.NoWorker? && !s.worker.Setup?
      && (s.worker.Native? ==> !s.worker.native.StartEngine? && !s.worker.native.PublishHandle?)
      && (s.worker.Native? ==> !s.worker.native.SetReady?)
      && (s.worker.Tun? ==> StageOf(s.worker).DuringMonitor?)
  }

  lemma PathStepKeepsReady(s: State, o: Outcome)
    requires Inv(s) && ReadyInv(s) && WorkerEnabled(s, o) && (s.worker.Native? || s.worker.Tun?)
    ensures ReadyInv(WorkerStepped(s, o))
  {
    if s.worker.Native? {
      assert !NativeStepped(s, o).worker.Setup? && !NativeStepped(s, o).worker.NoWorker?;
    }
  }

  lemma WorkerStepKeepsReady(s: State, o: Outcome)
    requires Inv(s) && ReadyInv(s) && WorkerEnabled(s, o)
    ensures ReadyInv(WorkerStepped(s, o))
  {
    if s.worker.Native? || s.worker.Tun? {
      PathStepKeepsReady(s, o);
    } else if s.worker.Setup? {
      assert !SetupStepped(s, o).ready;
    } else {
      assert TailStepped(s, o).worker.Tail? || TailStepped(s, o).worker.Finished?;
    }
  }

  lemma StopStepKeepsReady(s: State)
    requires Inv(s) && ReadyInv(s) && StopEnabled(s)
    ensures ReadyInv(StopStepped(s))
  {
    match s.caller
    case MarkStopping =>
    case RequestStop =>
    case SignalPid =>
    case TakeHandle =>
    case StopMesh =>
    case Join =>
    case StoreNotRunning =>
    case StorePidZero =>
    case MarkStopped =>
  }

  lemma StepKeepsReady(s: State, e: Event)
    requires Inv(s) && ReadyInv(s) && Enabled(s, e)
    ensures ReadyInv(Next(s, e))
  {
    match e
    case StartCall =>
    case StopCall =>
    case StopStep => StopStepKeepsReady(s);
    case WorkerStep(o) => WorkerStepKeepsReady(s, o);
    case EngineEnds(_) =>
    case MonitorStep(_, _) =>
    case LeftoverStep(_, _) =>
  }

  /** In every clean run readiness is reported only once the proxy of that start is up. */
  lemma {:induction false} ReadyMeansStarted(states: seq<State>, events: seq<Event>, i: nat)
    requires IsCleanRun(states, events) && i < |states|
    ensures ReadyInv(states[i])
  {
    if i > 0 {
      assert ReadyInv(Next(states[i - 1], events[i - 1])) by {
        ReadyMeansStarted(states, events, i - 1);
        PathInv(states, events, i - 1);
        StepKeepsReady(states[i - 1], events[i - 1]);
      }
      assert states[i] == Next(states[i - 1], events[i - 1]);
    }
  }

  // -------------------------------------------------------- nothing outlives the worker

  /** An engine lives only while the worker is between starting it and dropping its handle. */
  predicate EngineInv(s: State) {
    s.engine.Live? || s.engine.Cancelled? ==>
      s.worker.Native? && !s.worker.native.StartEngine? && !s.worker.native.DropHandle?
  }

  lemma NativeStepKeepsEngine(s: State, o: Outcome)
    requires Inv(s) && EngineInv(s) && s.worker.Native? && WorkerEnabled(s, o)
    ensures EngineInv(NativeStepped(s, o))
  {
    match s.worker.native
    case StartEngine =>
    case PublishHandle =>
    case SetReady =>
    case StopCheck =>
    case SpawnMonitor =>
    case WaitEngine =>
    case DropHandle(_) =>
  }

  lemma OtherStepKeepsEngine(s: State, o: Outcome)
    requires Inv(s) && EngineInv(s) && !s.worker.Native? && WorkerEnabled(s, o)
    ensures EngineInv(WorkerStepped(s, o))
  {
    assert WorkerStepped(s, o).engine == s.engine;
  }

  lemma StopStepKeepsEngine(s: State)
    requires Inv(s) && EngineInv(s) && StopEnabled(s)
    ensures EngineInv(StopStepped(s))
  {
    match s.caller
    case MarkStopping =>
    case RequestStop =>
    case SignalPid =>
    case TakeHandle =>
    case StopMesh =>
    case Join =>
    case StoreNotRunning =>
    case StorePidZero =>
    case MarkStopped =>
  }

  lemma StepKeepsEngine(s: State, e: Event)
    requires Inv(s) && EngineInv(s) && Enabled(s, e)
    ensures EngineInv(Next(s, e))
  {
    match e
    case StartCall =>
    case StopCall =>
    case StopStep => StopStepKeepsEngine(s);
    case WorkerStep(o) =>
      if s.worker.Native? {
        NativeStepKeepsEngine(s, o);
      } else {
        OtherStepKeepsEngine(s, o);
      }
    case EngineEnds(_) =>
    case MonitorStep(_, _) =>
    case LeftoverStep(_, _) =>
  }

  lemma {:induction false} PathEngine(states: seq<State>, events: seq<Event>, i: nat)
    requires IsCleanRun(states, events) && i < |states|
    ensures EngineInv(states[i])
  {
    if i > 0 {
      assert EngineInv(Next(states[i - 1], events[i - 1])) by {
        PathEngine(states, events, i - 1);
        PathInv(states, events, i - 1);
        StepKeepsEngine(states[i - 1], events[i - 1]);
      }
      assert states[i] == Next(states[i - 1], events[i - 1]);
    }
  }

  /** In every clean run, once the worker has finished neither its engine nor its monitor is left. */
  lemma NothingOutlivesWorker(states: seq<State>, events: seq<Event>, i: nat)
    requires IsCleanRun(states, events) && i < |states|
    requires states[i].worker.NoWorker? || states[i].worker.Finished?
    ensures !states[i].engine.Live? && !states[i].engine.Cancelled?
    ensures states[i].monitor.NoMonitor? || states[i].monitor.MonitorDone?
  {
    PathInv(states, events, i);
    PathEngine(states, events, i);
  }

  // ---------------------------------------------------------------- runs as folds

  function Fold<S, E>(s: S, events: seq<E>, step: (S, E) -> Option<S>): Option<S>
    decreases |events|
  {
    if events == [] then Some(s)
    else
      match step(s, events[0])
      case None => None
      case Some(t) => Fold(t, events[1..], step)
  }

  lemma {:induction false} FoldPlus<S, E>(s: S, first: seq<E>, rest: seq<E>, step: (S, E) -> Option<S>)
    requires Fold(s, first, step).Some?
    ensures Fold(s, first + rest, step) == Fold(Fold(s, first, step).value, rest, step)
    decreases |first|
  {
    if first == [] {
      assert first + rest == rest;
    } else {
      FoldPlus(step(s, first[0]).value, first[1..], rest, step);
      assert (first + rest)[1..] == first[1..] + rest;
    }
  }

  lemma {:induction false} FoldStates<S, E>(s: S, events: seq<E>, step: (S, E) -> Option<S>) returns (states: seq<S>)
    requires Fold(s, events, step).Some?
    ensures |states| == |events| + 1 && states[0] == s && states[|events|] == Fold(s, events, step).value
    ensures forall i {:trigger events[i]} :: 0 <= i < |events| ==> step(states[i], events[i]) == Some(states[i + 1])
    decreases |events|
  {
    if events == [] {
      states := [s];
    } else {
      var rest := FoldStates(step(s, events[0]).value, events[1..], step);
      states := [s] + rest;
      assert forall i {:trigger events[i]} :: 0 < i < |events| ==>
        events[i] == events[1..][i - 1] && states[i] == rest[i - 1] && states[i + 1] == rest[i];
    }
  }

  function TryNext(s: State, e: Event): Option<State> {
    if Enabled(s, e) then Some(Next(s, e)) else None
  }

  /** The state after a list of events, if each of them is possible in its turn. */
  function After(s: State, events: seq<Event>): Option<State> {
    Fold(s, events, TryNext)
  }

  lemma Step(s: State, e: Event, rest: seq<Event>)
    requires Enabled(s, e)
    ensures After(s, [e] + rest) == After(Next(s, e), rest)
  {
    assert ([e] + rest)[1..] == rest;
  }

  lemma Steps(s: State, first: seq<Event>, rest: seq<Event>)
    requires After(s, first).Some?
    ensures After(s, first + rest) == After(After(s, first).value, rest)
  {
    FoldPlus(s, first, rest, TryNext);
  }

  /** A fold that goes through is a path of the state machine. */
  lemma FoldIsPath(s: State, events: seq<Event>) returns (states: seq<State>)
    requires After(s, events).Some?
    ensures IsPath(states, events) && states[0] == s && states[|events|] == After(s, events).value
  {
    states := FoldStates(s, events, TryNext);
    forall i | 0 <= i < |events|
      ensures Enabled(states[i], events[i]) && states[i + 1] == Next(states[i], events[i])
    {
      assert TryNext(states[i], events[i]) == Some(states[i + 1]);
    }
  }

  // ------------------------------------------------------------- starts that succeed

  const GO := WorkerStep(Proceed)
  const PASS := MonitorStep(true, "")

  predicate Startable(s: State) {
    Inv(s) && s.caller.Free? && !s.running && (s.worker.NoWorker? || s.worker.Finished?)
  }

  /** A new start, prepared and about to choose its path. */
  function Prepared(s: State): State {
    State(Status(Starting, None, false, None, None), true, false, false, s.pidCell, s.handle, true, false,
          Setup(ConflictCheck), NoEngine, NoMonitor, Free, s.leftovers, false)
  }

  const PREPARE := [StartCall] + ([GO] + ([GO] + []))

  lemma StartPrepares(s: State)
    requires Startable(s)
    ensures After(s, PREPARE) == Some(Prepared(s))
  {
    var t := Prepared(s).(worker := Setup(Prepare));
    assert Next(s, StartCall) == t;
    Step(s, StartCall, [GO] + ([GO] + []));
    Step(t, GO, [GO] + []);
    Step(t.(worker := Setup(InitStatus)), GO, []);
  }

  const START_NATIVE := [WorkerStep(UseNative)] + ([GO] + ([GO] + ([GO] + ([GO] + ([GO] + [])))))

  lemma NativeStarts(s: State)
    requires s.worker == Setup(ConflictCheck) && !s.stopRequested
    ensures After(s, START_NATIVE) == Some(s.(ready := true, handle := true, monitorStop := false,
      worker := Native(WaitEngine), engine := Live, monitor := InitialProbe))
  {
    var t := s.(worker := Native(StartEngine));
    Step(s, WorkerStep(UseNative), [GO] + ([GO] + ([GO] + ([GO] + ([GO] + [])))));
    Step(t, GO, [GO] + ([GO] + ([GO] + ([GO] + []))));
    var u := t.(engine := Live, worker := Native(PublishHandle));
    Step(u, GO, [GO] + ([GO] + ([GO] + [])));
    var v := u.(handle := true, worker := Native(SetReady));
    Step(v, GO, [GO] + ([GO] + []));
    var w := v.(ready := true, worker := Native(StopCheck));
    Step(w, GO, [GO] + []);
    Step(w.(worker := Native(SpawnMonitor)), GO, []);
  }

  const WATCH := [GO] + ([GO] + ([GO] + []))

  function SpawnEvents(pid: nat): seq<Event> {
    [WorkerStep(UseTun)] + ([WorkerStep(Spawned(pid))] + WATCH)
  }

  lemma ChildIsWatched(s: State, pid: nat)
    requires s.worker == Tun(StorePid(pid))
    ensures After(s, WATCH) == Some(s.(status := s.status.(pid := Some(pid)), pidCell := pid,
      monitorStop := false, worker := Tun(Poll), monitor := InitialProbe))
  {
    Step(s, GO, [GO] + ([GO] + []));
    var t := s.(pidCell := pid, worker := Tun(ReportPid(pid)));
    Step(t, GO, [GO] + []);
    Step(t.(status := t.status.(pid := Some(pid)), worker := Tun(WatchChild)), GO, []);
  }

  lemma TunSpawns(s: State, pid: nat)
    requires s.worker == Setup(ConflictCheck)
    ensures After(s, SpawnEvents(pid)) == Some(s.(status := s.status.(pid := Some(pid)), pidCell := pid,
      monitorStop := false, worker := Tun(Poll), monitor := InitialProbe))
  {
    var t := s.(worker := Tun(SpawnChild));
    Step(s, WorkerStep(UseTun), [WorkerStep(Spawned(pid))] + WATCH);
    Step(t, WorkerStep(Spawned(pid)), WATCH);
    ChildIsWatched(t.(worker := Tun(StorePid(pid))), pid);
  }

  const POLL_ROUND := [GO] + ([GO] + ([GO] + []))

  lemma PollRound(s: State)
    requires s.worker == Tun(Poll) && !s.stopRequested
    ensures After(s, POLL_ROUND) == Some(s.(ready := true))
  {
    Step(s, GO, [GO] + ([GO] + []));
    Step(s.(worker := Tun(CheckReady)), GO, [GO] + []);
    Step(s.(worker := Tun(CheckStop), ready := true), GO, []);
  }

  function HealthRound(healthy: bool, message: string): seq<Event> {
    [MonitorStep(healthy, "")] + ([PASS] + ([MonitorStep(true, message)] + []))
  }

  /** The status a finished health check leaves. */
  function Checked(pid: Option<nat>, healthy: bool, message: string): Status {
    if healthy then Status(Running, pid, true, None, None)
    else Status(Degraded, pid, false, Some(message), Some(message))
  }

  /** The first health check of a start decides between `Running` and `Degraded`. */
  lemma FirstHealthRound(s: State, healthy: bool, message: string)
    requires s.monitor.InitialProbe? && !s.monitorStop && s.status.state.Starting?
    ensures After(s, HealthRound(healthy, message)) ==
      Some(s.(status := Checked(s.status.pid, healthy, message), monitor := Idle))
  {
    Step(s, MonitorStep(healthy, ""), [PASS] + ([MonitorStep(true, message)] + []));
    Step(s.(monitor := InitialCheck(healthy)), PASS, [MonitorStep(true, message)] + []);
    var t := s.(monitor := ApplyHealth(healthy));
    Step(t, MonitorStep(true, message), []);
    HealthIsReported(t, healthy, true, message);
  }

  /** Every later check decides again, so a degraded proxy recovers. */
  lemma LaterHealthRound(s: State, healthy: bool, message: string)
    requires s.monitor.Idle? && !s.monitorStop && (s.status.state.Running? || s.status.state.Degraded?)
    ensures After(s, [PASS] + ([MonitorStep(healthy, "")] + ([MonitorStep(true, message)] + []))) ==
      Some(s.(status := Checked(s.status.pid, healthy, message)))
  {
    Step(s, PASS, [MonitorStep(healthy, "")] + ([MonitorStep(true, message)] + []));
    Step(s.(monitor := Probe), MonitorStep(healthy, ""), [MonitorStep(true, message)] + []);
    var t := s.(monitor := ApplyHealth(healthy));
    Step(t, MonitorStep(true, message), []);
    HealthIsReported(t, healthy, true, message);
  }

  lemma OnlyFirstStarts(s: State, rest: seq<Event>) returns (states: seq<State>)
    requires Startable(s) && After(s, [StartCall] + rest).Some?
    requires forall i :: 0 <= i < |rest| ==> !rest[i].StartCall?
    ensures IsPath(states, [StartCall] + rest) && states[0] == s && AllStartsClean(states, [StartCall] + rest)
    ensures states[|rest| + 1] == After(s, [StartCall] + rest).value
  {
    states := FoldIsPath(s, [StartCall] + rest);
  }

  /**
  From every state in which a start is clean, and so from the initial one, the in-process path
  gets to the status its first health check decides, with the engine live and readiness reported.
  */
  lemma NativeStartRuns(s: State, healthy: bool, message: string) returns (states: seq<State>, events: seq<Event>)
    requires Startable(s)
    ensures IsPath(states, events) && states[0] == s && AllStartsClean(states, events)
    ensures events == PREPARE + START_NATIVE + HealthRound(healthy, message)
    ensures states[|events|] == Prepared(s).(status := Checked(None, healthy, message),
      ready := true, handle := true, worker := Native(WaitEngine), engine := Live, monitor := Idle)
  {
    StartPrepares(s);
    NativeStarts(Prepared(s));
    Steps(s, PREPARE, START_NATIVE);
    FirstHealthRound(After(s, PREPARE + START_NATIVE).value, healthy, message);
    Steps(s, PREPARE + START_NATIVE, HealthRound(healthy, message));
    events := PREPARE + START_NATIVE + HealthRound(healthy, message);
    var rest := events[1..];
    assert events == [StartCall] + rest;
    states := OnlyFirstStarts(s, rest);
  }

  /** The same on the path of the privileged child, whose process id the status then carries. */
  lemma TunStartRuns(s: State, pid: nat, healthy: bool, message: string)
    returns (states: seq<State>, events: seq<Event>)
    requires Startable(s)
    ensures IsPath(states, events) && states[0] == s && AllStartsClean(states, events)
    ensures events == PREPARE + SpawnEvents(pid) + POLL_ROUND + HealthRound(healthy, message)
    ensures states[|events|] == Prepared(s).(status := Checked(Some(pid), healthy, message),
      ready := true, pidCell := pid, worker := Tun(Poll), monitor := Idle)
  {
    StartPrepares(s);
    TunSpawns(Prepared(s), pid);
    Steps(s, PREPARE, SpawnEvents(pid));
    PollRound(After(s, PREPARE + SpawnEvents(pid)).value);
    Steps(s, PREPARE + SpawnEvents(pid), POLL_ROUND);
    FirstHealthRound(After(s, PREPARE + SpawnEvents(pid) + POLL_ROUND).value, healthy, message);
    Steps(s, PREPARE + SpawnEvents(pid) + POLL_ROUND, HealthRound(healthy, message));
    events := PREPARE + SpawnEvents(pid) + POLL_ROUND + HealthRound(healthy, message);
    var rest := events[1..];
    assert events == [StartCall] + rest;
    states := OnlyFirstStarts(s, rest);
  }

  /** A conflicting tunnel degrades the start and leaves it waiting for a stop. */
  lemma ConflictDegrades(s: State, message: string)
    requires Startable(s)
    ensures After(s, PREPARE + ([WorkerStep(Fail(message))] + ([GO] + []))) == Some(Prepared(s).(
      status := Status(Degraded, None, false, Some(message), Some(message)), worker := Setup(ConflictPoll)))
  {
    StartPrepares(s);
    var t := Prepared(s);
    Step(t, WorkerStep(Fail(message)), [GO] + []);
    Step(t.(worker := Setup(Degrade(message))), GO, []);
    Steps(s, PREPARE, [WorkerStep(Fail(message))] + ([GO] + []));
  }

  // ------------------------------------------------------------------ ends of a worker

  const STOP_MONITOR := [GO] + ([PASS] + ([GO] + []))

  function ReportEvents(ok: bool, message: string): seq<Event> {
    [GO] + ([GO] + ([if ok then GO else WorkerStep(Fail(message))] + []))
  }

  function TailEvents(ok: bool, message: string): seq<Event> {
    STOP_MONITOR + ReportEvents(ok, message)
  }

  /** The end of a worker: nothing running, no pid, and `Stopped`, or `Failed` with the failure. */
  function Done(s: State, ok: bool, message: string): State {
    s.(status := Status(if ok then Stopped else Failed, None, s.status.proxyReady, s.status.proxyError,
                        if ok then s.status.error else Some(message)),
       running := false, pidCell := 0, worker := Finished)
  }

  /** The same for a worker with a monitor. */
  function Over(s: State, ok: bool, message: string): State {
    Done(s.(monitorStop := true, monitor := MonitorDone), ok, message)
  }

  lemma MonitorStops(s: State, ok: bool)
    requires s.worker == Tail(StopMonitor(ok)) && s.monitor.Idle?
    ensures After(s, STOP_MONITOR) ==
      Some(s.(monitorStop := true, worker := Tail(ClearRunning(ok)), monitor := MonitorDone))
  {
    Step(s, GO, [PASS] + ([GO] + []));
    var t := s.(monitorStop := true, worker := Tail(JoinMonitor(ok)));
    Step(t, PASS, [GO] + []);
    Step(t.(monitor := MonitorDone), GO, []);
  }

  lemma WorkerReports(s: State, ok: bool, message: string)
    requires s.worker == Tail(ClearRunning(ok))
    ensures After(s, ReportEvents(ok, message)) == Some(Done(s, ok, message))
  {
    var last := if ok then GO else WorkerStep(Fail(message));
    Step(s, GO, [GO] + ([last] + []));
    Step(s.(running := false, worker := Tail(ClearPid(ok))), GO, [last] + []);
    Step(s.(running := false, pidCell := 0, worker := Tail(Report(ok))), last, []);
  }

  lemma TailReports(s: State, ok: bool, message: string)
    requires s.worker == Tail(StopMonitor(ok)) && s.monitor.Idle?
    ensures After(s, TailEvents(ok, message)) == Some(Over(s, ok, message))
  {
    MonitorStops(s, ok);
    Steps(s, STOP_MONITOR, ReportEvents(ok, message));
    WorkerReports(After(s, STOP_MONITOR).value, ok, message);
  }

  /**
  A child that exits is a failure exactly when the mesh shutdown after it fails, or when no stop
  was asked for and its code is not zero.
  */
  lemma ChildExitIsReported(s: State, code: int, stopped: bool, message: string)
    requires s.worker == Tun(Poll) && s.monitor.Idle?
    ensures var ok := stopped && (s.stopRequested || code == 0);
      var shutdown := WorkerStep(if stopped then Proceed else Fail(""));
      After(s, [WorkerStep(Exited(code))] + ([shutdown] + TailEvents(ok, message))) == Some(Over(s, ok, message))
  {
    var ok := stopped && (s.stopRequested || code == 0);
    var shutdown := WorkerStep(if stopped then Proceed else Fail(""));
    Step(s, WorkerStep(Exited(code)), [shutdown] + TailEvents(ok, message));
    ExitIsJudged(s.(worker := Tun(ChildExit(code))), code, stopped, message);
  }

  lemma ExitIsJudged(s: State, code: int, stopped: bool, message: string)
    requires s.worker == Tun(ChildExit(code)) && s.monitor.Idle?
    ensures var ok := stopped && (s.stopRequested || code == 0);
      After(s, [WorkerStep(if stopped then Proceed else Fail(""))] + TailEvents(ok, message))
      == Some(Over(s, ok, message))
  {
    var ok := stopped && (s.stopRequested || code == 0);
    Step(s, WorkerStep(if stopped then Proceed else Fail("")), TailEvents(ok, message));
    TailReports(s.(worker := Tail(StopMonitor(ok))), ok, message);
  }

  /** So is a child that cannot be waited for. */
  lemma WaitFailureIsReported(s: State, message: string)
    requires (s.worker == Tun(Poll) || s.worker == Tun(Reap)) && s.monitor.Idle?
    ensures After(s, [WorkerStep(Fail(""))] + TailEvents(false, message)) == Some(Over(s, false, message))
  {
    Step(s, WorkerStep(Fail("")), TailEvents(false, message));
    TailReports(s.(worker := Tail(StopMonitor(false))), false, message);
  }

  /** A start whose preparation, engine or child fails is reported as failed. */
  lemma FailedStartIsReported(s: State, message: string)
    requires s.worker == Setup(Prepare) || s.worker == Native(StartEngine) || s.worker == Tun(SpawnChild)
    ensures After(s, [WorkerStep(Fail(""))] + ReportEvents(false, message)) == Some(Done(s, false, message))
  {
    Step(s, WorkerStep(Fail("")), ReportEvents(false, message));
    WorkerReports(s.(worker := Tail(ClearRunning(false))), false, message);
  }

  /** A start that waits on a conflict ends when a stop is asked for, well unless the mesh shutdown fails. */
  lemma ConflictEndIsReported(s: State, stopped: bool, message: string)
    requires s.worker == Setup(ConflictPoll)
    ensures Enabled(s, GO) <==> s.stopRequested
    ensures s.stopRequested ==>
      After(s, [WorkerStep(if stopped then Proceed else Fail(""))] + ReportEvents(stopped, message))
      == Some(Done(s, stopped, message))
  {
    if s.stopRequested {
      Step(s, WorkerStep(if stopped then Proceed else Fail("")), ReportEvents(stopped, message));
      WorkerReports(s.(worker := Tail(ClearRunning(stopped))), stopped, message);
    }
  }

  lemma HandleIsDropped(s: State, ok: bool, message: string)
    requires s.worker == Native(DropHandle(ok)) && s.monitor.Idle?
    ensures After(s, [GO] + TailEvents(ok, message)) == Some(Over(s.(handle := false), ok, message))
  {
    Step(s, GO, TailEvents(ok, message));
    TailReports(s.(handle := false, worker := Tail(StopMonitor(ok))), ok, message);
  }

  /** An engine that ends is a failure exactly when it, or the mesh shutdown after it, failed. */
  lemma EngineEndIsReported(s: State, ended: bool, stopped: bool, message: string)
    requires s.worker == Native(WaitEngine) && s.monitor.Idle? && (s.engine.Live? || s.engine.Cancelled?)
    ensures var outcome := if stopped then Proceed else Fail("");
      After(s, [EngineEnds(ended)] + ([WorkerStep(outcome)] + ([GO] + TailEvents(ended && stopped, message))))
      == Some(Over(s.(engine := Ended(ended), handle := false), ended && stopped, message))
  {
    var ok, outcome := ended && stopped, if stopped then Proceed else Fail("");
    var t := s.(engine := Ended(ended));
    Step(s, EngineEnds(ended), [WorkerStep(outcome)] + ([GO] + TailEvents(ok, message)));
    Step(t, WorkerStep(outcome), [GO] + TailEvents(ok, message));
    HandleIsDropped(t.(worker := Native(DropHandle(ok))), ok, message);
  }

  // ------------------------------------------------------------------- whole stops

  const MARK := [StopCall] + ([StopStep] + ([StopStep] + []))
  const TAKE := [StopStep] + ([StopStep] + ([StopStep] + []))
  const RETURN := [StopStep] + ([StopStep] + ([StopStep] + ([StopStep] + [])))

  /** A stop first says so, then asks the worker to end. */
  lemma StopIsMarked(s: State)
    requires s.running && s.caller.Free?
    ensures After(s, MARK) ==
      Some(s.(status := s.status.(state := Stopping), stopRequested := true, caller := SignalPid))
  {
    Step(s, StopCall, [StopStep] + ([StopStep] + []));
    Step(s.(caller := MarkStopping), StopStep, [StopStep] + []);
    Step(s.(status := s.status.(state := Stopping), caller := RequestStop), StopStep, []);
  }

  /** Then it cancels the engine and waits for the worker. */
  lemma StopCancels(s: State)
    requires s.caller.SignalPid?
    ensures After(s, TAKE) == Some(s.(handle := false,
      engine := if s.handle && s.engine.Live? then Cancelled else s.engine, caller := Join))
  {
    Step(s, StopStep, [StopStep] + ([StopStep] + []));
    var t := s.(caller := TakeHandle);
    Step(t, StopStep, [StopStep] + []);
    var engine := if s.handle && s.engine.Live? then Cancelled else s.engine;
    Step(t.(handle := false, engine := engine, caller := StopMesh), StopStep, []);
  }

  function Asked(s: State): State {
    s.(status := s.status.(state := Stopping), stopRequested := true, handle := false,
       engine := if s.handle && s.engine.Live? then Cancelled else s.engine, caller := Join)
  }

  lemma StopIsAsked(s: State)
    requires s.running && s.caller.Free?
    ensures After(s, MARK + TAKE) == Some(Asked(s))
  {
    StopIsMarked(s);
    Steps(s, MARK, TAKE);
    StopCancels(After(s, MARK).value);
  }

  /** Once the worker has finished, the stop returns with everything cleared. */
  lemma StopReturns(s: State)
    requires s.caller.Join? && s.worker.Finished?
    ensures After(s, RETURN) == Some(s.(status := s.status.(state := Stopped, pid := None), joinHandle := false,
      running := false, pidCell := 0, caller := Free, quiet := true))
  {
    Step(s, StopStep, [StopStep] + ([StopStep] + ([StopStep] + [])));
    var t := s.(joinHandle := false, caller := StoreNotRunning);
    Step(t, StopStep, [StopStep] + ([StopStep] + []));
    var u := t.(running := false, caller := StorePidZero);
    Step(u, StopStep, [StopStep] + []);
    Step(u.(pidCell := 0, caller := MarkStopped), StopStep, []);
  }

  /** What a stop that has returned leaves. */
  predicate IsStopped(s: State) {
    && s.status.state.Stopped? && s.status.pid == None && s.quiet && !s.running && s.pidCell == 0
    && s.worker.Finished? && s.monitor.MonitorDone? && s.caller.Free? && !s.handle
  }

  /** The worker's last events, between the request to stop and the return. */
  lemma StopCompletes(s: State, work: seq<Event>)
    requires s.running && s.caller.Free? && After(Asked(s), work).Some?
    requires var t := After(Asked(s), work).value;
      t.caller.Join? && t.worker.Finished? && t.monitor.MonitorDone? && !t.handle
    ensures var end := After(s, MARK + TAKE + work + RETURN); end.Some? && IsStopped(end.value)
  {
    StopIsAsked(s);
    Steps(s, MARK + TAKE, work);
    Steps(s, MARK + TAKE + work, RETURN);
    StopReturns(After(Asked(s), work).value);
  }

  /** A stop of the in-process path runs to its end, however the engine and the mesh end. */
  lemma NativeStopRuns(s: State, ended: bool, stopped: bool, message: string)
    requires s.running && s.caller.Free? && s.worker == Native(WaitEngine) && s.monitor.Idle? && s.engine.Live?
    ensures var outcome := if stopped then Proceed else Fail("");
      var work := [EngineEnds(ended)] + ([WorkerStep(outcome)] + ([GO] + TailEvents(ended && stopped, message)));
      var end := After(s, MARK + TAKE + work + RETURN); end.Some? && IsStopped(end.value)
  {
    var outcome := if stopped then Proceed else Fail("");
    var work := [EngineEnds(ended)] + ([WorkerStep(outcome)] + ([GO] + TailEvents(ended && stopped, message)));
    EngineEndIsReported(Asked(s), ended, stopped, message);
    StopCompletes(s, work);
  }

  const KILL := [GO] + ([WorkerStep(Skip)] + ([GO] + []))

  lemma PollSeesStop(s: State)
    requires s.worker == Tun(Poll) && s.stopRequested
    ensures After(s, KILL) == Some(s.(worker := Tun(Reap)))
  {
    Step(s, GO, [WorkerStep(Skip)] + ([GO] + []));
    Step(s.(worker := Tun(CheckReady)), WorkerStep(Skip), [GO] + []);
    Step(s.(worker := Tun(CheckStop)), GO, []);
  }

  function ReapEvents(code: int): seq<Event> {
    [WorkerStep(Exited(code))] + ([GO] + TailEvents(true, ""))
  }

  lemma ChildIsReaped(s: State, code: int)
    requires s.worker == Tun(Reap) && s.stopRequested && s.monitor.Idle?
    ensures After(s, ReapEvents(code)) == Some(Over(s, true, ""))
  {
    Step(s, WorkerStep(Exited(code)), [GO] + TailEvents(true, ""));
    Step(s.(worker := Tun(ChildExit(code))), GO, TailEvents(true, ""));
    TailReports(s.(worker := Tail(StopMonitor(true))), true, "");
  }

  /** A stop of the child's path runs to its end, whatever the code of the child it kills. */
  lemma TunStopRuns(s: State, code: int)
    requires s.running && s.caller.Free? && s.worker == Tun(Poll) && s.monitor.Idle? && !s.handle
    ensures var end := After(s, MARK + TAKE + (KILL + ReapEvents(code)) + RETURN); end.Some? && IsStopped(end.value)
  {
    PollSeesStop(Asked(s));
    Steps(Asked(s), KILL, ReapEvents(code));
    ChildIsReaped(Asked(s).(worker := Tun(Reap)), code);
    StopCompletes(s, KILL + ReapEvents(code));
  }
}

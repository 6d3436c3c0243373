/**
The proxy lifecycle of `StackController`: a caller that starts and stops, a worker
thread, a health-monitor thread and the runtime or child process they supervise.
Every atomic access to a shared flag, the cancel handle or the status record is one
event, so a run is an arbitrary interleaving of the threads' events.
*/
module Controller {
  import opened Wrappers

  datatype RunState = Stopped | Starting | Running | Degraded | Failed | Stopping

  datatype Status = Status(
    state: RunState,
    pid: Option<nat>,
    proxyReady: bool,
    proxyError: Option<string>,
    error: Option<string>)

  const DEFAULT_STATUS := Status(Stopped, None, false, None, None)

  // A program point names the access the worker makes next.
  datatype SetupPoint = Prepare | InitStatus | ConflictCheck | Degrade(message: string) | ConflictPoll
  datatype NativePoint =
    | StartEngine | PublishHandle | SetReady | StopCheck | SpawnMonitor | WaitEngine | DropHandle(ok: bool)
  datatype TunPoint =
    | SpawnChild | StorePid(pid: nat) | ReportPid(pid: nat) | WatchChild
    | Poll | CheckReady | CheckStop | Reap | ChildExit(code: int)
  datatype TailPoint =
    | StopMonitor(ok: bool) | JoinMonitor(ok: bool) | ClearRunning(ok: bool) | ClearPid(ok: bool) | Report(ok: bool)

  datatype Worker =
    | NoWorker
    | Setup(setup: SetupPoint)
    | Native(native: NativePoint)
    | Tun(tun: TunPoint)
    | Tail(tail: TailPoint)
    | Finished

  /** The in-process engine; `cancel` only asks, the engine ends on its own. */
  datatype Engine = NoEngine | Live | Cancelled | Ended(ok: bool)

  datatype Monitor =
    | NoMonitor
    | InitialProbe
    | InitialCheck(healthy: bool)
    | ApplyHealth(healthy: bool)
    | Idle
    | Probe
    | MonitorDone

  /** Where a `stop` call stands; start and stop calls are serialised. */
  datatype Caller =
    | Free
    | MarkStopping
    | RequestStop
    | SignalPid
    | TakeHandle
    | StopMesh
    | Join
    | StoreNotRunning
    | StorePidZero
    | MarkStopped

  /** A worker of an earlier start that has cleared `running` but not yet finished. */
  datatype Leftover = LeftoverPid(ok: bool) | LeftoverReport(ok: bool)

  datatype State = State(
    status: Status,
    running: bool,
    stopRequested: bool,
    ready: bool,
    pidCell: nat,
    handle: bool,
    joinHandle: bool,
    monitorStop: bool,
    worker: Worker,
    engine: Engine,
    monitor: Monitor,
    caller: Caller,
    leftovers: seq<Leftover>,
    // Set when a stop that joined its worker has returned, cleared by the next start.
    quiet: bool)

  const INIT := State(
    DEFAULT_STATUS, false, false, false, 0, false, false, false,
    NoWorker, NoEngine, NoMonitor, Free, [], false)

  /** What the environment decides when the worker makes a step. */
  datatype Outcome =
    | Proceed
    | Skip
    | Fail(message: string)
    | UseTun
    | UseNative
    | Spawned(pid: nat)
    | Exited(code: int)

  datatype Event =
    | StartCall
    | StopCall
    | StopStep
    | WorkerStep(outcome: Outcome)
    | EngineEnds(ok: bool)
    | MonitorStep(healthy: bool, message: string)
    | LeftoverStep(index: nat, message: string)

  // ---------------------------------------------------------------- steps

  predicate Terminal(state: RunState) {
    state.Stopped? || state.Failed?
  }

  predicate WorkerEnabled(s: State, o: Outcome) {
    match s.worker
    case NoWorker => false
    case Finished => false
    case Setup(Prepare) => o.Proceed? || o.Fail?
    case Setup(ConflictCheck) => o.Fail? || o.UseTun? || o.UseNative?
    // A worker on the conflict path polls the flag; a round that reads `false` changes nothing.
    case Setup(ConflictPoll) => s.stopRequested && (o.Proceed? || o.Fail?)
    case Native(StartEngine) => o.Proceed? || o.Fail?
    case Native(WaitEngine) => s.engine.Ended? && (o.Proceed? || o.Fail?)
    case Tun(SpawnChild) => o.Spawned? || o.Fail?
    case Tun(Poll) => o.Proceed? || o.Fail? || o.Exited?
    case Tun(CheckReady) => o.Proceed? || o.Skip?
    case Tun(Reap) => o.Exited? || o.Fail?
    case Tun(ChildExit(_)) => o.Proceed? || o.Fail?
    case Tail(JoinMonitor(_)) => o.Proceed? && s.monitor.MonitorDone?
    case Tail(Report(ok)) => if ok then o.Proceed? else o.Fail?
    case _ => o.Proceed?
  }

  function SetupStepped(s: State, o: Outcome): State
    requires s.worker.Setup? && WorkerEnabled(s, o)
  {
    match s.worker.setup
    case Prepare => s.(worker := if o.Proceed? then Setup(InitStatus) else Tail(ClearRunning(false)))
    case InitStatus =>
      s.(status := s.status.(proxyReady := false, proxyError := None, error := None), worker := Setup(ConflictCheck))
    case ConflictCheck =>
      s.(worker :=
        if o.Fail? then Setup(Degrade(o.message)) else if o.UseTun? then Tun(SpawnChild) else Native(StartEngine))
    case Degrade(m) =>
      s.(status := s.status.(state := Degraded, proxyError := Some(m), error := Some(m)), worker := Setup(ConflictPoll))
    case ConflictPoll => s.(worker := Tail(ClearRunning(o.Proceed?)))
  }

  function NativeStepped(s: State, o: Outcome): State
    requires s.worker.Native? && WorkerEnabled(s, o)
  {
    match s.worker.native
    case StartEngine =>
      if o.Proceed? then s.(engine := Live, worker := Native(PublishHandle))
      else s.(worker := Tail(ClearRunning(false)))
    case PublishHandle => s.(handle := true, worker := Native(SetReady))
    case SetReady => s.(ready := true, worker := Native(StopCheck))
    case StopCheck =>
      s.(engine := if s.stopRequested && s.engine.Live? then Cancelled else s.engine, worker := Native(SpawnMonitor))
    case SpawnMonitor => s.(monitorStop := false, monitor := InitialProbe, worker := Native(WaitEngine))
    // A failing mesh shutdown turns the engine's result into an error.
    case WaitEngine => s.(worker := Native(DropHandle(s.engine.ok && o.Proceed?)))
    case DropHandle(ok) => s.(handle := false, worker := Tail(StopMonitor(ok)))
  }

  function TunStepped(s: State, o: Outcome): State
    requires s.worker.Tun? && WorkerEnabled(s, o)
  {
    match s.worker.tun
    case SpawnChild => s.(worker := if o.Spawned? then Tun(StorePid(o.pid)) else Tail(ClearRunning(false)))
    case StorePid(p) => s.(pidCell := p, worker := Tun(ReportPid(p)))
    case ReportPid(p) => s.(status := s.status.(pid := Some(p)), worker := Tun(WatchChild))
    case WatchChild => s.(monitorStop := false, monitor := InitialProbe, worker := Tun(Poll))
    case Poll =>
      s.(worker :=
        if o.Proceed? then Tun(CheckReady) else if o.Fail? then Tail(StopMonitor(false)) else Tun(ChildExit(o.code)))
    case CheckReady => s.(ready := s.ready || o.Proceed?, worker := Tun(CheckStop))
    case CheckStop => s.(worker := if s.stopRequested then Tun(Reap) else Tun(Poll))
    case Reap => s.(worker := if o.Exited? then Tun(ChildExit(o.code)) else Tail(StopMonitor(false)))
    case ChildExit(code) => s.(worker := Tail(StopMonitor(o.Proceed? && (s.stopRequested || code == 0))))
  }

  function TailStepped(s: State, o: Outcome): State
    requires s.worker.Tail? && WorkerEnabled(s, o)
  {
    match s.worker.tail
    case StopMonitor(ok) => s.(monitorStop := true, worker := Tail(JoinMonitor(ok)))
    case JoinMonitor(ok) => s.(worker := Tail(ClearRunning(ok)))
    case ClearRunning(ok) => s.(running := false, worker := Tail(ClearPid(ok)))
    case ClearPid(ok) => s.(pidCell := 0, worker := Tail(Report(ok)))
    case Report(ok) => s.(status := Reported(s.status, ok, if ok then "" else o.message), worker := Finished)
  }

  function WorkerStepped(s: State, o: Outcome): State
    requires WorkerEnabled(s, o)
  {
    match s.worker
    case Setup(_) => SetupStepped(s, o)
    case Native(_) => NativeStepped(s, o)
    case Tun(_) => TunStepped(s, o)
    case Tail(_) => TailStepped(s, o)
  }

  function Reported(st: Status, ok: bool, message: string): Status {
    if ok then st.(state := Stopped, pid := None)
    else st.(state := Failed, error := Some(message), pid := None)
  }

  function ApplyProxyHealth(st: Status, healthy: bool, message: string): Status {
    if st.state.Stopped? || st.state.Failed? || st.state.Stopping? then st
    else if healthy then
      st.(proxyReady := true, proxyError := None, error := None,
          state := if st.state.Starting? || st.state.Degraded? then Running else st.state)
    else
      st.(proxyReady := false, proxyError := Some(message), error := Some(message), state := Degraded)
  }

  predicate MonitorEnabled(s: State) {
    !s.monitor.NoMonitor? && !s.monitor.MonitorDone?
  }

  function MonitorStepped(s: State, healthy: bool, message: string): State
    requires MonitorEnabled(s)
  {
    match s.monitor
    case InitialProbe => s.(monitor := InitialCheck(healthy))
    case InitialCheck(h) => s.(monitor := if s.monitorStop then MonitorDone else ApplyHealth(h))
    case ApplyHealth(h) => s.(status := ApplyProxyHealth(s.status, h, message), monitor := Idle)
    case Idle => s.(monitor := if s.monitorStop then MonitorDone else Probe)
    case Probe => s.(monitor := ApplyHealth(healthy))
  }

  predicate StopEnabled(s: State) {
    !s.caller.Free? && (s.caller.Join? ==> !s.joinHandle || s.worker.Finished?)
  }

  function StopStepped(s: State): State
    requires StopEnabled(s)
  {
    match s.caller
    case MarkStopping => s.(status := s.status.(state := Stopping), caller := RequestStop)
    case RequestStop => s.(stopRequested := true, caller := SignalPid)
    // Signalling the child is a courtesy: the worker's own loop kills it.
    case SignalPid => s.(caller := TakeHandle)
    case TakeHandle =>
      s.(handle := false,
         engine := if s.handle && s.engine.Live? then Cancelled else s.engine,
         caller := StopMesh)
    case StopMesh => s.(caller := Join)
    case Join => s.(joinHandle := false, caller := StoreNotRunning)
    case StoreNotRunning => s.(running := false, caller := StorePidZero)
    case StorePidZero => s.(pidCell := 0, caller := MarkStopped)
    case MarkStopped =>
      s.(status := s.status.(state := Stopped, pid := None), caller := Free, quiet := true)
  }

  function LeftoverOf(w: Worker): seq<Leftover> {
    match w
    case Tail(ClearPid(ok)) => [LeftoverPid(ok)]
    case Tail(Report(ok)) => [LeftoverReport(ok)]
    case _ => []
  }

  predicate Enabled(s: State, e: Event) {
    match e
    case StartCall => s.caller.Free?
    case StopCall => s.caller.Free?
    case StopStep => StopEnabled(s)
    case WorkerStep(o) => WorkerEnabled(s, o)
    case EngineEnds(_) => s.engine.Live? || s.engine.Cancelled?
    case MonitorStep(_, _) => MonitorEnabled(s)
    case LeftoverStep(i, _) => i < |s.leftovers|
  }

  function Next(s: State, e: Event): State
    requires Enabled(s, e)
  {
    match e
    case StartCall =>
      if s.running then s
      else
        State(DEFAULT_STATUS.(state := Starting), true, false, false, s.pidCell, s.handle, true, false,
              Setup(Prepare), NoEngine, NoMonitor, Free, s.leftovers + LeftoverOf(s.worker), false)
    case StopCall => if s.running then s.(caller := MarkStopping) else s
    case StopStep => StopStepped(s)
    case WorkerStep(o) => WorkerStepped(s, o)
    case EngineEnds(ok) => s.(engine := Ended(ok))
    case MonitorStep(h, m) => MonitorStepped(s, h, m)
    case LeftoverStep(i, m) =>
      match s.leftovers[i]
      case LeftoverPid(ok) => s.(pidCell := 0, leftovers := s.leftovers[i := LeftoverReport(ok)])
      case LeftoverReport(ok) =>
        s.(status := Reported(s.status, ok, m), leftovers := s.leftovers[..i] + s.leftovers[i + 1..])
  }

  /** The previous worker, if any, has returned before a new start is issued. */
  predicate CleanStart(s: State, e: Event) {
    e.StartCall? && !s.running ==> s.worker.NoWorker? || s.worker.Finished?
  }

  ghost predicate IsPath(states: seq<State>, events: seq<Event>) {
    && |states| == |events| + 1
    && forall i {:trigger events[i]} :: 0 <= i < |events| ==>
      Enabled(states[i], events[i]) && states[i + 1] == Next(states[i], events[i])
  }

  ghost predicate AllStartsClean(states: seq<State>, events: seq<Event>)
    requires IsPath(states, events)
  {
    forall i {:trigger events[i]} :: 0 <= i < |events| ==> CleanStart(states[i], events[i])
  }

  /** A run in which no start overlaps the tail of an earlier worker. */
  ghost predicate IsCleanRun(states: seq<State>, events: seq<Event>) {
    IsPath(states, events) && states[0] == INIT && AllStartsClean(states, events)
  }

  // ------------------------------------------------------------ invariants

  /** What the status record means to its readers. */
  predicate StatusMeaning(st: Status) {
    && (st.state.Running? ==> st.proxyReady && st.error == None)
    && (st.state.Degraded? ==> !st.proxyReady && st.error.Some?)
    && (st.pid.Some? ==> !Terminal(st.state))
  }

  /** The part of the worker's life a program point belongs to. */
  datatype Stage = Absent | BeforeMonitor | DuringMonitor | AfterMonitor | Returned

  function StageOf(w: Worker): Stage {
    match w
    case NoWorker => Absent
    case Finished => Returned
    case Setup(_) => BeforeMonitor
    case Native(p) => if p.WaitEngine? || p.DropHandle? then DuringMonitor else BeforeMonitor
    case Tun(p) =>
      if p.SpawnChild? || p.StorePid? || p.ReportPid? || p.WatchChild? then BeforeMonitor else DuringMonitor
    case Tail(p) => if p.StopMonitor? || p.JoinMonitor? then DuringMonitor else AfterMonitor
  }

  /** The engine is reachable through the slot from the publish until someone cancels it. */
  predicate HandlePublished(w: Worker) {
    w.Native? && (w.native.SetReady? || w.native.StopCheck? || w.native.SpawnMonitor? || w.native.WaitEngine?)
  }

  predicate PastStopCheck(w: Worker) {
    w.Native? && (w.native.SpawnMonitor? || w.native.WaitEngine?)
  }

  predicate PastTake(c: Caller) {
    c.StopMesh? || c.Join?
  }

  predicate PastJoin(c: Caller) {
    c.StoreNotRunning? || c.StorePidZero? || c.MarkStopped?
  }

  predicate MonitorInv(s: State) {
    var stage := StageOf(s.worker);
    && (stage.DuringMonitor? ==> !s.monitor.NoMonitor?)
    && (!stage.DuringMonitor? ==> s.monitor.NoMonitor? || s.monitor.MonitorDone?)
    && (s.worker.Tail? && s.worker.tail.JoinMonitor? ==> s.monitorStop)
  }

  predicate JoinInv(s: State) {
    var stage := StageOf(s.worker);
    && s.leftovers == []
    && (s.running ==> !stage.Absent?)
    && (stage.BeforeMonitor? || stage.DuringMonitor? ==> s.running)
    && (s.worker.Tail? && s.worker.tail.ClearRunning? ==> s.running)
    && (!s.caller.Free? && !PastJoin(s.caller) ==> s.joinHandle && !stage.Absent?)
    && (s.running && s.caller.Free? ==> s.joinHandle)
    && (PastJoin(s.caller) ==> stage.Returned?)
    && (s.caller.StorePidZero? || s.caller.MarkStopped? ==> !s.running)
  }

  predicate StatusInv(s: State) {
    var stage := StageOf(s.worker);
    && StatusMeaning(s.status)
    && (stage.BeforeMonitor? ==> !s.status.proxyReady)
    && (stage.BeforeMonitor? && s.worker != Setup(ConflictPoll) ==>
          s.status.state.Starting? || s.status.state.Stopping?)
    && (stage.BeforeMonitor? || stage.DuringMonitor? || stage.AfterMonitor? ==> !Terminal(s.status.state))
  }

  predicate CancelInv(s: State) {
    && (HandlePublished(s.worker) && s.engine.Live? ==> s.handle)
    && (s.caller.SignalPid? || s.caller.TakeHandle? || PastTake(s.caller) ==> s.stopRequested)
    && (PastStopCheck(s.worker) && PastTake(s.caller) ==> !s.engine.Live?)
    && (HandlePublished(s.worker) || s.worker == Native(PublishHandle) ==> !s.engine.NoEngine?)
  }

  predicate QuietInv(s: State) {
    s.quiet ==>
      && s.status.state.Stopped? && s.status.pid == None
      && s.worker.Finished? && s.caller.Free? && !s.running
  }

  predicate Inv(s: State) {
    MonitorInv(s) && JoinInv(s) && StatusInv(s) && CancelInv(s) && QuietInv(s)
  }

  // ------------------------------------------------- every step keeps the invariant

  lemma SetupStepKeepsInv(s: State, o: Outcome)
    requires Inv(s) && s.worker.Setup? && WorkerEnabled(s, o)
    ensures Inv(SetupStepped(s, o))
  {
  }

  lemma NativeStepKeepsInv(s: State, o: Outcome)
    requires Inv(s) && s.worker.Native? && WorkerEnabled(s, o)
    ensures Inv(NativeStepped(s, o))
  {
    match s.worker.native
    case StartEngine =>
    case PublishHandle =>
    case SetReady =>
    case StopCheck =>
    case SpawnMonitor =>
    case WaitEngine =>
    case DropHandle(_) =>
  }

  lemma SpawnStepKeepsInv(s: State, o: Outcome)
    requires Inv(s) && s.worker.Tun? && WorkerEnabled(s, o) && StageOf(s.worker).BeforeMonitor?
    ensures Inv(TunStepped(s, o))
  {
    match s.worker.tun
    case SpawnChild =>
    case StorePid(_) =>
    case ReportPid(_) =>
    case WatchChild =>
  }

  lemma PollStepKeepsInv(s: State, o: Outcome)
    requires Inv(s) && s.worker.Tun? && WorkerEnabled(s, o) && StageOf(s.worker).DuringMonitor?
    ensures Inv(TunStepped(s, o))
  {
    var t := TunStepped(s, o);
    assert t.status == s.status && StageOf(t.worker).DuringMonitor?;
  }

  lemma ReportKeepsInv(s: State, o: Outcome)
    requires Inv(s) && s.worker.Tail? && s.worker.tail.Report? && WorkerEnabled(s, o)
    ensures Inv(TailStepped(s, o))
  {
    var t := TailStepped(s, o);
    assert Terminal(t.status.state) && t.status.pid == None && t.worker.Finished?;
  }

  lemma TailStepKeepsInv(s: State, o: Outcome)
    requires Inv(s) && s.worker.Tail? && WorkerEnabled(s, o)
    ensures Inv(TailStepped(s, o))
  {
    match s.worker.tail
    case StopMonitor(_) =>
    case JoinMonitor(_) =>
    case ClearRunning(_) =>
    case ClearPid(_) =>
    case Report(_) => ReportKeepsInv(s, o);
  }

  lemma MonitorStepKeepsInv(s: State, healthy: bool, message: string)
    requires Inv(s) && MonitorEnabled(s)
    ensures Inv(MonitorStepped(s, healthy, message))
  {
    match s.monitor
    case InitialProbe =>
    case InitialCheck(_) =>
    case ApplyHealth(_) =>
    case Idle =>
    case Probe =>
  }

  lemma StopStepBeforeJoinKeepsInv(s: State)
    requires Inv(s) && StopEnabled(s) && !s.caller.Join? && !PastJoin(s.caller)
    ensures Inv(StopStepped(s))
  {
    match s.caller
    case MarkStopping =>
    case RequestStop =>
    case SignalPid =>
    case TakeHandle =>
    case StopMesh =>
  }

  lemma StopStepFromJoinKeepsInv(s: State)
    requires Inv(s) && StopEnabled(s) && (s.caller.Join? || PastJoin(s.caller))
    ensures Inv(StopStepped(s))
  {
    match s.caller
    case Join =>
    case StoreNotRunning =>
    case StorePidZero =>
    case MarkStopped =>
  }

  lemma StepKeepsInv(s: State, e: Event)
    requires Inv(s) && Enabled(s, e) && CleanStart(s, e)
    ensures Inv(Next(s, e))
  {
    match e
    case StopStep =>
      if s.caller.Join? || PastJoin(s.caller) {
        StopStepFromJoinKeepsInv(s);
      } else {
        StopStepBeforeJoinKeepsInv(s);
      }
    case WorkerStep(o) =>
      match s.worker {
        case Setup(_) => SetupStepKeepsInv(s, o);
        case Native(_) => NativeStepKeepsInv(s, o);
        case Tun(_) =>
          if StageOf(s.worker).BeforeMonitor? {
            SpawnStepKeepsInv(s, o);
          } else {
            PollStepKeepsInv(s, o);
          }
        case Tail(_) => TailStepKeepsInv(s, o);
      }
    case MonitorStep(h, m) => MonitorStepKeepsInv(s, h, m);
    case _ =>
  }

  lemma {:induction false} PathInv(states: seq<State>, events: seq<Event>, i: nat)
    requires IsPath(states, events) && Inv(states[0]) && AllStartsClean(states, events) && i < |states|
    ensures Inv(states[i])
  {
    if i > 0 {
      PathInv(states, events, i - 1);
      StepKeepsInv(states[i - 1], events[i - 1]);
    }
  }

  // ----------------------------------------------------------- main results

  /** Every status a reader can observe, in every interleaving, says what it means. */
  lemma StatusAlwaysMeaningful(states: seq<State>, events: seq<Event>, i: nat)
    requires IsCleanRun(states, events) && i < |states|
    ensures StatusMeaning(states[i].status)
  {
    PathInv(states, events, i);
  }

  /** The worker never waits on an engine that a stop past its handle-take left uncancelled. */
  lemma NoStopIsLost(states: seq<State>, events: seq<Event>, i: nat)
    requires IsCleanRun(states, events) && i < |states|
    requires PastTake(states[i].caller) && PastStopCheck(states[i].worker)
    ensures states[i].engine.Cancelled? || states[i].engine.Ended?
  {
    PathInv(states, events, i);
  }

  // The join is reached with the stop flag set; from there every step of the worker, and every
  // step of the thread it waits for, brings the worker nearer to its end.

  function PointRank(w: Worker): nat {
    match w
    case NoWorker => 0
    case Finished => 0
    case Setup(p) =>
      (match p
       case Prepare => 30 case InitStatus => 29 case ConflictCheck => 28 case Degrade(_) => 27 case ConflictPoll => 26)
    case Native(p) =>
      (match p
       case StartEngine => 26 case PublishHandle => 25 case SetReady => 24 case StopCheck => 23
       case SpawnMonitor => 22 case WaitEngine => 21 case DropHandle(_) => 20)
    case Tun(p) =>
      (match p
       case SpawnChild => 26 case StorePid(_) => 25 case ReportPid(_) => 24 case WatchChild => 23 case Poll => 22
       case CheckReady => 21 case CheckStop => 20 case Reap => 19 case ChildExit(_) => 18)
    case Tail(p) =>
      (match p
       case StopMonitor(_) => 5 case JoinMonitor(_) => 4 case ClearRunning(_) => 3
       case ClearPid(_) => 2 case Report(_) => 1)
  }

  function MonitorRank(m: Monitor): nat {
    match m
    case NoMonitor => 0
    case MonitorDone => 0
    case Idle => 1
    case InitialCheck(_) => 1
    case ApplyHealth(_) => 2
    case InitialProbe => 2
    case Probe => 3
  }

  predicate AwaitsMonitor(s: State) {
    s.worker.Tail? && s.worker.tail.JoinMonitor?
  }

  predicate AwaitsEngine(s: State) {
    s.worker == Native(WaitEngine)
  }

  function StopRank(s: State): nat {
    4 * PointRank(s.worker)
    + (if AwaitsMonitor(s) then MonitorRank(s.monitor) else 0)
    + (if AwaitsEngine(s) && !s.engine.Ended? then 1 else 0)
  }

  /** An event of the worker, or of the thread the worker is blocked on. */
  predicate Helpful(s: State, e: Event) {
    || e.WorkerStep?
    || (AwaitsMonitor(s) && e.MonitorStep?)
    || (AwaitsEngine(s) && e.EngineEnds?)
  }

  function HelpfulEvent(s: State): Event {
    match s.worker
    case Setup(ConflictCheck) => WorkerStep(UseNative)
    case Native(WaitEngine) => if s.engine.Ended? then WorkerStep(Proceed) else EngineEnds(true)
    case Tun(SpawnChild) => WorkerStep(Spawned(1))
    case Tun(Reap) => WorkerStep(Exited(0))
    case Tail(JoinMonitor(_)) => if s.monitor.MonitorDone? then WorkerStep(Proceed) else MonitorStep(true, "")
    case Tail(Report(ok)) => if ok then WorkerStep(Proceed) else WorkerStep(Fail(""))
    case _ => WorkerStep(Proceed)
  }

  /** While a stop waits at the join, the worker has finished or a helpful event is possible. */
  lemma JoinNeverStuck(states: seq<State>, events: seq<Event>, i: nat)
    requires IsCleanRun(states, events) && i < |states|
    requires states[i].caller.Join?
    ensures || StopEnabled(states[i])
            || (Helpful(states[i], HelpfulEvent(states[i])) && Enabled(states[i], HelpfulEvent(states[i])))
  {
    PathInv(states, events, i);
    var s := states[i];
    match s.worker
    case Setup(_) =>
    case Native(_) =>
    case Tun(_) =>
    case Tail(_) =>
    case Finished =>
  }

  lemma PathStepLowersRank(s: State, o: Outcome)
    requires Inv(s) && s.stopRequested && WorkerEnabled(s, o) && (s.worker.Native? || s.worker.Tun?)
    ensures StopRank(WorkerStepped(s, o)) < StopRank(s)
  {
    if s.worker.Native? {
      assert NativeStepped(s, o).worker.Native? || NativeStepped(s, o).worker.Tail?;
    }
  }

  lemma WorkerStepLowersRank(s: State, o: Outcome)
    requires Inv(s) && s.stopRequested && WorkerEnabled(s, o)
    ensures StopRank(WorkerStepped(s, o)) < StopRank(s)
  {
    if s.worker.Native? || s.worker.Tun? {
      PathStepLowersRank(s, o);
    } else if s.worker.Setup? {
      assert !SetupStepped(s, o).worker.Finished?;
    } else {
      assert TailStepped(s, o).worker.Tail? || TailStepped(s, o).worker.Finished?;
    }
  }

  lemma JoinStepLowersRank(s: State, e: Event)
    requires Inv(s) && s.caller.Join? && Enabled(s, e) && !e.StopStep?
    ensures Next(s, e).caller.Join?
    ensures StopRank(Next(s, e)) <= StopRank(s)
    ensures Helpful(s, e) ==> StopRank(Next(s, e)) < StopRank(s)
  {
    match e
    case WorkerStep(o) => WorkerStepLowersRank(s, o);
    case MonitorStep(h, m) =>
    case _ =>
  }

  lemma RankBound(s: State)
    ensures StopRank(s) <= 123
  {
  }

  function HelpfulCount(states: seq<State>, events: seq<Event>): nat
    requires |states| == |events| + 1
  {
    if events == [] then 0
    else (if Helpful(states[0], events[0]) then 1 else 0) + HelpfulCount(states[1..], events[1..])
  }

  /**
  However the threads are scheduled while a stop waits at the join, no more than
  `StopRank` (at most 123) helpful events happen; as one is always possible until the
  worker finishes, no fair schedule waits for ever.
  */
  lemma {:induction false} JoinWaitIsBounded(states: seq<State>, events: seq<Event>)
    requires IsPath(states, events) && Inv(states[0]) && AllStartsClean(states, events)
    requires states[0].caller.Join? && forall i :: 0 <= i < |events| ==> !events[i].StopStep?
    ensures HelpfulCount(states, events) + StopRank(states[|events|]) <= StopRank(states[0]) <= 123
  {
    RankBound(states[0]);
    if events != [] {
      StepKeepsInv(states[0], events[0]);
      JoinStepLowersRank(states[0], events[0]);
      var rest, todo := states[1..], events[1..];
      assert forall i {:trigger todo[i]} :: 0 <= i < |todo| ==> todo[i] == events[i + 1];
      JoinWaitIsBounded(rest, todo);
    }
  }

  lemma QuietStep(s: State, e: Event)
    requires Inv(s) && s.quiet && Enabled(s, e) && !e.StartCall?
    ensures Next(s, e).status == s.status && Next(s, e).quiet
  {
  }

  /** The status written by a stop that joined its worker stays until the next start. */
  lemma {:induction false} StoppedStaysStopped(states: seq<State>, events: seq<Event>, i: nat, j: nat)
    requires IsCleanRun(states, events) && i < j < |states|
    requires states[i].caller.MarkStopped? && events[i].StopStep?
    requires forall k :: i < k < j ==> !events[k].StartCall?
    ensures states[j].quiet && states[j].worker.Finished?
    ensures states[j].status == states[i + 1].status && states[j].status.state.Stopped? && states[j].status.pid == None
  {
    PathInv(states, events, j);
    if j == i + 1 {
      assert states[j] == StopStepped(states[i]);
    } else {
      StoppedStaysStopped(states, events, i, j - 1);
      assert var t := Next(states[j - 1], events[j - 1]); t.status == states[j - 1].status && t.quiet by {
        PathInv(states, events, j - 1);
        QuietStep(states[j - 1], events[j - 1]);
      }
    }
  }

  lemma ExtendPath(states: seq<State>, events: seq<Event>, e: Event)
    requires IsPath(states, events) && Enabled(states[|events|], e)
    ensures IsPath(states + [Next(states[|events|], e)], events + [e])
  {
  }

  lemma PidAfterReport(s: State)
    requires |s.leftovers| == 1 && s.leftovers[0].LeftoverReport? && s.worker.Tun? && s.worker.tun.ReportPid?
    ensures var t := Next(s, LeftoverStep(0, ""));
      Enabled(t, WorkerStep(Proceed)) && !StatusMeaning(Next(t, WorkerStep(Proceed)).status)
  {
    assert Terminal(Next(s, LeftoverStep(0, "")).status.state);
  }

  /** The earlier worker reports its end, then the new one reports the child it has spawned. */
  lemma LeftoverReports(states: seq<State>, events: seq<Event>) returns (states': seq<State>, events': seq<Event>)
    requires IsPath(states, events)
    requires var s := states[|events|];
      |s.leftovers| == 1 && s.leftovers[0].LeftoverReport? && s.worker.Tun? && s.worker.tun.ReportPid?
    ensures IsPath(states', events') && states'[0] == states[0]
    ensures events' == events + [LeftoverStep(0, ""), WorkerStep(Proceed)]
    ensures !StatusMeaning(states'[|events'|].status)
  {
    var e, f := LeftoverStep(0, ""), WorkerStep(Proceed);
    var t := Next(states[|events|], e);
    PidAfterReport(states[|events|]);
    ExtendPath(states, events, e);
    ExtendPath(states + [t], events + [e], f);
    states', events' := states + [t] + [Next(t, f)], events + [e] + [f];
    assert events' == events + [e, f];
  }

  /**
  Why starts must be clean: whenever a start overlaps the tail of an earlier worker, some
  continuation reports a pid in a terminal state.
  */
  lemma OverlappingStartBreaksStatus(s: State) returns (states: seq<State>, events: seq<Event>)
    requires Inv(s) && s.caller.Free? && !CleanStart(s, StartCall)
    ensures IsPath(states, events) && |events| > 0 && states[0] == s && events[0] == StartCall
    ensures forall i :: 0 < i < |events| ==> !events[i].StartCall?
    ensures !StatusMeaning(states[|events|].status)
  {
    var s1 := Next(s, StartCall);
    assert |s1.leftovers| == 1;
    var s2 := Next(s1, WorkerStep(Proceed));
    var s3 := Next(s2, WorkerStep(Proceed));
    var s4 := Next(s3, WorkerStep(UseTun));
    var s5 := Next(s4, WorkerStep(Spawned(7)));
    var s6 := Next(s5, WorkerStep(Proceed));
    events := [StartCall, WorkerStep(Proceed), WorkerStep(Proceed),
               WorkerStep(UseTun), WorkerStep(Spawned(7)), WorkerStep(Proceed)];
    states := [s, s1, s2, s3, s4, s5, s6];
    assert IsPath(states, events);
    if s6.leftovers[0].LeftoverPid? {
      ExtendPath(states, events, LeftoverStep(0, ""));
      states, events := states + [Next(s6, LeftoverStep(0, ""))], events + [LeftoverStep(0, "")];
    }
    states, events := LeftoverReports(states, events);
  }

  ghost predicate FirstEventStarts(s: State, states: seq<State>, events: seq<Event>) {
    && IsPath(states, events) && states[0] == s
    && |events| > 0 && events[0].StartCall?
    && forall i :: 0 < i < |events| ==> !events[i].StartCall?
  }

  /** Nothing that can follow this start leaves the status record inconsistent. */
  ghost predicate StartIsSafe(s: State) {
    forall states: seq<State>, events: seq<Event> :: FirstEventStarts(s, states, events) ==>
      StatusMeaning(states[|events|].status)
  }

  lemma StartIsSafeIffClean(s: State)
    requires Inv(s) && s.caller.Free? && !s.running
    ensures StartIsSafe(s) <==> s.worker.NoWorker? || s.worker.Finished?
  {
    if CleanStart(s, StartCall) {
      forall states: seq<State>, events: seq<Event> | FirstEventStarts(s, states, events)
        ensures StatusMeaning(states[|events|].status)
      {
        assert AllStartsClean(states, events);
        PathInv(states, events, |events|);
      }
    } else {
      var states, events := OverlappingStartBreaksStatus(s);
      assert FirstEventStarts(s, states, events);
    }
  }

  // ------------------------------------------------------- what a caller can see of it

  /** Between calls a status that is not terminal means that a worker has not finished. */
  predicate EndedInv(s: State) {
    (s.worker.NoWorker? || s.worker.Finished?) && (s.caller.Free? || s.caller.MarkStopping?) ==>
      Terminal(s.status.state)
  }

  /** A worker step finishes the worker only by its report. */
  lemma WorkerStepKeepsEnded(s: State, o: Outcome)
    requires Inv(s) && EndedInv(s) && WorkerEnabled(s, o)
    ensures EndedInv(WorkerStepped(s, o))
  {
    assert WorkerStepped(s, o).worker.Finished? ==> s.worker.Tail? && s.worker.tail.Report?;
  }

  lemma StopStepKeepsEnded(s: State)
    requires Inv(s) && EndedInv(s) && StopEnabled(s)
    ensures EndedInv(StopStepped(s))
  {
    assert s.caller.MarkStopped? ==> StopStepped(s).status.state.Stopped?;
  }

  lemma StepKeepsEnded(s: State, e: Event)
    requires Inv(s) && EndedInv(s) && Enabled(s, e)
    ensures EndedInv(Next(s, e))
  {
    match e
    case StartCall =>
    case StopCall =>
    case StopStep => StopStepKeepsEnded(s);
    case WorkerStep(o) => WorkerStepKeepsEnded(s, o);
    case EngineEnds(_) =>
    case MonitorStep(_, _) => assert StageOf(s.worker).DuringMonitor?;
    case LeftoverStep(_, _) =>
  }

  lemma {:induction false} PathEnded(states: seq<State>, events: seq<Event>, i: nat)
    requires IsCleanRun(states, events) && i < |states|
    ensures EndedInv(states[i])
  {
    if i > 0 {
      PathEnded(states, events, i - 1);
      PathInv(states, events, i - 1);
      assert states[i] == Next(states[i - 1], events[i - 1]);
      StepKeepsEnded(states[i - 1], events[i - 1]);
    }
  }

  /** In every clean run a start that is not refused is safe exactly when the status it finds is terminal. */
  lemma StartIsSafeIffTerminal(states: seq<State>, events: seq<Event>, i: nat)
    requires IsCleanRun(states, events) && i < |states|
    requires states[i].caller.Free? && !states[i].running
    ensures StartIsSafe(states[i]) <==> Terminal(states[i].status.state)
  {
    PathInv(states, events, i);
    PathEnded(states, events, i);
    StartIsSafeIffClean(states[i]);
  }

  /** A first start whose preparation fails can be overtaken by a second one before the failure is reported. */
  lemma OverlapIsReachable() returns (states: seq<State>, events: seq<Event>)
    ensures IsCleanRun(states, events)
    ensures var s := states[|events|]; s.caller.Free? && !s.running && !StartIsSafe(s)
  {
    var s1 := Next(INIT, StartCall);
    var s2 := Next(s1, WorkerStep(Fail("")));
    var s3 := Next(s2, WorkerStep(Proceed));
    states, events := [INIT, s1, s2, s3], [StartCall, WorkerStep(Fail("")), WorkerStep(Proceed)];
    assert IsPath(states, events);
    StartIsSafeIffTerminal(states, events, 3);
  }
}

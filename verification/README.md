# Zay, verified

A model in Dafny of the parts of Zay that are hard to get right: the state machines that
supervise its network stack and the compiler that turns settings into a sing-box
configuration, with proofs of what they promise. `dafny verify dfyconfig.toml` verifies
the project.

Blocking calls, the clock, the network, the file system and foreign libraries appear as
parameters: an outcome for each step of a thread, a set of failures for each operation, a
script of replies for each server.

| files | what they model |
|---|---|
| `Controller`, `ControllerRuns` | the proxy lifecycle: caller, worker, health monitor and engine as an interleaving of atomic steps; where each status comes from, and whole runs |
| `RuntimeModel`, `RuntimeProofs`, `RuntimeRetry`, `RuntimeResults`, `RuntimeAgreement`, `Runtime` | a running set of components moved from one configuration to another while any await may fail; the last file holds the classes, proved against the first |
| `Json`, `Mixin`, `MixinShape`, `Priority`, `ControlPlane`, `DocumentDecisions` | user mixins merged into a document, the pass that puts control-plane rules back in front, and what the result decides |
| `ProxySettings`, `CustomRules`, `RuleSets`, `Builder`, `References`, `Routing`, `RoutingTable` | the routing compiler, its references, and the meaning of its rules under first-match evaluation |
| `RoutingDecisions`, `PolicyDecisions`, `PolicyMeaning`, `BuildDecisions`, `BuildOutbounds` | the compiled document against settings and connections alone: when a build succeeds, where each flow goes, what a policy takes and which outbounds there are |
| `EventLines`, `ProcessSelection`, `ProcessAttribution`, `ProcessMonitoring`, `ProcessEvidence` | tailing an event file, caching decoded flows and choosing the process of a flow |
| `ClashRules`, `ClashMeaning`, `SuffixMigration` | Clash lists converted to rule-sets, and the migration of stored suffixes |
| `SshTunnel`, `ForwardSpec` | reconnecting with remote forwards, and forward specifications |
| `LogBudget` | rolling logs under one disk budget |
| `Redirects` | bounded retries and redirects with an authorization header |
| `Wrappers`, `Text`, `Positions` | shared datatypes, string helpers and filtered lists |

## What the proofs show

Some properties one would expect do not hold of the code in general. For each of these a
lemma exhibits the failure and another gives the exact condition under which it holds.

- One controller is started again before its previous worker has reported its end: the old
  report can land on the new status. Starts are safe exactly when the previous worker is
  absent or finished (`StartIsSafeIffClean`), which a caller sees as a terminal status
  (`StartIsSafeIffTerminal`).
- After a mesh replacement fails, going back to the previous configuration reports success
  with the mesh down (`RevertLeavesMeshDown`, `ApplyMeshResult`). After a proxy start fails,
  going back to a disabled proxy keeps the failed controller (`RevertKeepsFailedProxy`,
  `ApplyStackResult`). A mesh that came up in a failed apply is not recorded, and the next
  stop succeeds and leaves it up (`UnrecordedMeshOutlivesStop`, `StopMeshResult`).
- A live proxy can disagree with the mesh that is up: when a mesh survives its failed stop
  (`SurvivingMeshDisagrees`), and when a proxy does (`LostProxyDisagrees`). Over all runs with
  all failures, `AgreeExactlyWhenNothingBreaks` says when this happens, and
  `AgreesWhateverFailsIffSafe` what to check before a request.
- Mixins compose exactly when they are compatible (`MixinsComposeIffCompatible`).
- A policy with only blank fields becomes a rule that takes every flow
  (`BlankPolicyTakesEverything`, `CatchAllIffBlank`).
- A direct policy can look like one of the mesh's own bypass rules and be dropped when
  control-plane rules are put in front: when it names a process and no address, and when one of
  its addresses is a peer's, its other addresses with it. `UserRuleRetainedIff` is exact.
- A policy for everything below a name takes the name itself too (`WildcardTakesApex`), and a port
  on one of its destinations restricts all of them (`PolicyTakesWhatItWants`).
- The presence check also asks for the `google` rule-set, which no rule uses
  (`RuleSetTagsDefined` names the files that matter).
- The dot migration is documented to leave no leading dot; the code removes one, and not a
  lone one. The model follows the code: `LeadingDotLeft` shows what is left and
  `NoLeadingDotLeftIff` says exactly when nothing is; `CoversApexIff` and
  `MigrationIdempotentIff` say when this makes a difference to matching and to a second pass.
- A list line without a host makes the converted rule-set unusable
  (`HollowLines`, `HollowLineMakesListUnusable`); `LoadsIffNoLineHollow` is exact.
- A line longer than 16 MiB is written whole and can break the disk bound
  (`DiskBoundKeptIffLineFits`).
- An empty host is accepted beside a plain one and refused beside a bracketed one
  (`RoundTripIff`).

## Model

| member | source | states |
|---|---|---|
| `Controller.StepKeepsInv` | src/stack/controller.rs:157-499 | every atomic step of caller, worker, engine, monitor and a clean start keeps one joint invariant over flags, handle slot, status and program points |
| `Controller.PathInv` | src/stack/controller.rs:157-499 | the invariant holds in every state of every interleaving, of any length, from any state that has it |
| `Controller.NoStopIsLost` | src/stack/controller.rs:230-260 | once a stop has passed its handle-take and the worker its stop check, the engine the worker waits on is cancelled or has ended, in every interleaving |
| `Controller.JoinNeverStuck` | src/stack/controller.rs:245-260 | whenever a stop waits at the join, the worker has finished or an event that moves it towards its end is possible, on the in-process, TUN-child and conflict paths |
| `Controller.WorkerStepLowersRank` | src/stack/controller.rs:262-453 | after a stop request every worker step, on every path, lowers one rank |
| `Controller.JoinStepLowersRank` | src/stack/controller.rs:230-260 | no event of another thread raises that rank while a stop waits, and every helpful one lowers it |
| `Controller.JoinWaitIsBounded` | src/stack/controller.rs:245-260 | at most 123 helpful events fit into any wait at the join |
| `Controller.StatusAlwaysMeaningful` | src/stack/controller.rs:582-636 | in every state of every interleaving Running implies ready without error, Degraded implies not ready with an error, and a pid implies a non-terminal state |
| `Controller.QuietStep` | src/stack/controller.rs:230-260 | after a stop that joined its worker no event but a start changes the status |
| `Controller.StoppedStaysStopped` | src/stack/controller.rs:230-260 | the status written by such a stop is Stopped without pid and stays so, in every continuation, until the next start |
| `Controller.OverlappingStartBreaksStatus` | src/stack/controller.rs:157-228 | from any state in which a start overlaps the tail of the previous worker there is a run without further starts that ends in a status with a pid and a terminal state |
| `Controller.StartIsSafeIffClean` | src/stack/controller.rs:157-228 | a start that is not refused leads to meaningful statuses in every continuation exactly when there is no previous worker or it has finished |
| `Controller.StartIsSafeIffTerminal` | src/stack/controller.rs:98-110 | in every clean run a start that is not refused is safe if and only if the status a caller reads is terminal |
| `Controller.PathEnded` | src/stack/controller.rs:198-225 | in every clean run, between calls, a worker that is absent or finished has left a terminal status |
| `Controller.OverlapIsReachable` | src/stack/controller.rs:157-228 | a run from the initial state to a start that is not refused and not safe |
| `ControllerRuns.HealthIsReported` | src/stack/controller.rs:582-636 | over one step of the machine: a health result that meets a live status leaves Running, ready and without errors when it passed, Degraded, not ready and with its message in both error fields when not; it leaves a stopping or terminal status alone |
| `ControllerRuns.RunningWasProbed` | src/stack/controller.rs:582-616 | in every clean run each Running status is the one written by an earlier passed health check |
| `ControllerRuns.DegradedWasReported` | src/stack/controller.rs:307-331 | in every clean run each Degraded status was written by a failed check or a tunnel conflict, and carries its message |
| `ControllerRuns.ReadyMeansStarted` | src/stack/controller.rs:341-356 | in every clean run readiness is set only after the engine of that start was published or its child was being watched |
| `ControllerRuns.NothingOutlivesWorker` | src/stack/controller.rs:373-379 | in every clean run a finished worker has left no live engine and no monitor |
| `ControllerRuns.NativeStartRuns` | src/stack/controller.rs:336-375 | from every state in which a start is clean, and so from the initial one, a run to Running (or to Degraded, as the first check says) on the in-process path, with engine live, handle published and readiness set |
| `ControllerRuns.TunStartRuns` | src/stack/controller.rs:381-437 | the same on the path of the child, whose pid the status and the pid cell then hold |
| `ControllerRuns.LaterHealthRound` | src/stack/controller.rs:455-508 | every later check decides the status again, so a degraded proxy recovers |
| `ControllerRuns.ConflictDegrades` | src/stack/controller.rs:307-331 | a conflicting tunnel leads from a clean start to Degraded with its message and a worker that waits for a stop |
| `ControllerRuns.ChildExitIsReported` | src/stack/controller.rs:419-453 | a child that exits leads to Failed with the failure if and only if the mesh shutdown fails, or no stop was asked for and its code is not zero; to Stopped otherwise |
| `ControllerRuns.FailedStartIsReported` | src/stack/controller.rs:281-296 | a start whose preparation, engine or child fails ends as Failed with the failure, without pid, not running |
| `ControllerRuns.ConflictEndIsReported` | src/stack/controller.rs:325-331 | a start that waits on a conflict ends only when a stop is asked for, as Stopped unless the mesh shutdown fails |
| `ControllerRuns.EngineEndIsReported` | src/stack/controller.rs:373-379 | an engine that ends leads to Failed if and only if it or the mesh shutdown failed |
| `ControllerRuns.NativeStopRuns` | src/stack/controller.rs:230-260 | a stop on the in-process path runs to its end: Stopped, no pid, no handle, worker and monitor done, however engine and mesh end |
| `ControllerRuns.TunStopRuns` | src/stack/controller.rs:419-437 | the same on the path of the child, whatever its exit code |
| `RuntimeProofs.StepKeeps` | src/runtime.rs:483-553 | start, stop, restart and apply, with any configuration and any failure, keep the invariant on recorded config, held controller, pending flag and live proxies |
| `RuntimeProofs.RunKeeps` | src/runtime.rs:483-553 | so does every run of operations |
| `RuntimeProofs.RecordedProxyIsRunning` | src/runtime.rs:204-261 | after every run, while components are held: the pending flag is set exactly when an apply error is, and otherwise an enabled recorded proxy has a controller that finished starting with the same proxy view |
| `RuntimeProofs.MeshSwapUnseen` | src/runtime.rs:394-420 | configurations with equal proxy views stay equal when only the recorded mesh is replaced |
| `RuntimeAgreement.IdleStartAgreesIff` | src/runtime.rs:150-180 | all worlds of a start agree if and only if the first one does, the strays fit a mesh that comes up, and no proxy without a mesh starts beside one still up |
| `RuntimeAgreement.CleanStartAgreesIff` | src/runtime.rs:150-180 | for a mesh that starts and fitting strays: no mesh was up, or one is configured, or no proxy starts |
| `RuntimeAgreement.StopAgreesIff` | src/runtime.rs:317-355 | a stop never breaks agreement, whatever fails in it |
| `RuntimeAgreement.ApplyAgreesIff` | src/runtime.rs:204-251 | the exact condition for an apply: a new mesh meets strays that do not fit it, or a new proxy starts beside a mesh with other routes than the recorded one |
| `RuntimeAgreement.StepAgreesIff` | src/runtime.rs:483-553 | every intermediate world of an operation, with any failure, agrees for all live started proxies if and only if it starts from agreement and the condition for that operation does not hold |
| `RuntimeAgreement.AgreeExactlyWhenNothingBreaks` | src/runtime.rs:204-355 | over every run with any failures: all worlds agree if and only if no operation meets its breaking condition |
| `RuntimeAgreement.AgreesWhateverFailsIffSafe` | src/runtime.rs:394-420 | a request keeps agreement whatever fails in it if and only if the world and the configuration pass a check made before it |
| `RuntimeAgreement.ProxyAndMeshAgree` | src/runtime.rs:213-226 | in every run whose mesh starts succeed, whose stopped meshes go down and whose lost proxies are dead, every live started proxy agrees with the mesh at every intermediate step |
| `RuntimeAgreement.SurvivingMeshDisagrees` | src/runtime.rs:317-355 | a recorded mesh whose stop fails and which survives is up when the next start brings a proxy without one |
| `RuntimeAgreement.LostProxyDisagrees` | src/runtime.rs:213-217 | a proxy whose stop fails and which survives is live beside the mesh of the retried apply |
| `RuntimeAgreement.UnrecordedMeshOutlivesStop` | src/runtime.rs:317-336 | a mesh that came up in a failed apply is up after the next, successful stop |
| `RuntimeRetry.RetriesKeep` | src/runtime.rs:532-553 | any number of failed applies of one target keeps what a later success needs |
| `RuntimeRetry.FailedAppliesKeepTasks` | src/runtime.rs:204-251 | failed applies, failing at any await, leave the http, fwd and ssh task lists untouched |
| `RuntimeRetry.SameTargetConverges` | src/runtime.rs:204-251 | failed applies of one target and then a success leave mesh, proxy and all task lists as the target says, with no error pending |
| `RuntimeRetry.SuccessfulApplyMatches` | src/runtime.rs:532-553 | a success after such retries leaves a state that matches the target |
| `RuntimeRetry.ApplyTasksResult` | src/runtime.rs:227-251 | a successful apply records the target and leaves every task list running exactly its enabled items |
| `RuntimeRetry.ApplyMeshResult` | src/runtime.rs:219-223 | after a successful apply the target mesh is up if and only if the recorded mesh differed from it or it was up already |
| `RuntimeRetry.ApplyStackResult` | src/runtime.rs:204-251 | after a successful apply of a disabled proxy no controller is held if and only if the record had it enabled or none was held |
| `RuntimeRetry.RevertLeavesMeshDown` | src/runtime.rs:219-223 | after a failed mesh replacement, going back to the previous configuration succeeds with the mesh still down |
| `RuntimeRetry.RevertKeepsFailedProxy` | src/runtime.rs:253-261 | after a failed proxy start, going back to a disabled proxy succeeds with the failed controller still held |
| `RuntimeRetry.StopMeshResult` | src/runtime.rs:317-336 | a successful stop leaves no mesh if and only if one was recorded or none was up |
| `RuntimeResults.StartHolds` | src/runtime.rs:150-180 | a start of an idle runtime holds components if and only if its mesh came up; they record the configuration read, run one task for each enabled item at ascending positions of each list, also when the proxy failed, and the flags say whether it did |
| `RuntimeResults.StartMatchesIff` | src/runtime.rs:483-512 | a successful start matches its configuration if and only if it started a mesh or found none up |
| `RuntimeResults.StopLetsGo` | src/runtime.rs:317-355 | a stop succeeds if and only if everything held was stopped; then exactly the held controller and the recorded mesh are gone and the flags are clear, else the flags stay |
| `RuntimeResults.NothingToDo` | src/runtime.rs:483-553 | a start of what runs, a stop and an apply of what does not, and an unreadable configuration leave everything as it is, but for the flags a stop clears |
| `RuntimeResults.RestartReplaces` | src/runtime.rs:522-531 | a restart with an unreadable configuration changes nothing; the exact condition for success, and then the components match the configuration read, with a new controller |
| `RuntimeResults.ViewsAgreeIff` | src/runtime.rs:395-420 | two configurations have the same proxy view if and only if enabled flag, effective port, interval, log level and URL, the other settings and six mesh fields agree |
| `RuntimeResults.ApplyRestartsIff` | src/runtime.rs:389-430 | a successful apply replaces the controller if and only if a proxy is asked for and it is forced or one of those settings differs; otherwise the held one stays |
| `RuntimeResults.SameConfigChangesNothing` | src/runtime.rs:532-553 | applying the recorded configuration, unforced and with nothing pending, changes no task, mesh or controller |
| `RuntimeResults.ApplyReplacesChangedLists` | src/runtime.rs:227-245 | a successful apply keeps every task list whose items are unchanged and fills the others with new tasks |
| `RuntimeResults.TasksStayDistinct` | src/runtime.rs:204-355 | in every run, whatever fails, no two held tasks share an identity and a held controller is live |
| `Runtime.StartTasks` | src/runtime.rs:150-180 | one task for each enabled item, in order, with consecutive fresh ids |
| `Runtime.FromConfig` | src/runtime.rs:150-180 | result and world equal the model of a start and its worlds are appended to the trace in order; without its mesh nothing is held |
| `Runtime.RunningComponents.StartStack` | src/runtime.rs:253-261 | the controller is recorded before the start is known to have worked |
| `Runtime.RunningComponents.ReplaceTaskLists` | src/runtime.rs:227-245 | only planned task lists are replaced, and the configuration is recorded last |
| `Runtime.RunningComponents.FinishApply` | src/runtime.rs:224-251 | fields, world and trace equal the model of the part after the mesh |
| `Runtime.RunningComponents.ReplaceMesh` | src/runtime.rs:219-223 | fields, world and trace equal the model, with the recorded mesh unchanged when the start fails |
| `Runtime.RunningComponents.Apply` | src/runtime.rs:204-251 | fields, result and world equal the model the proofs are about, and the worlds passed through are appended to those before |
| `Runtime.RunningComponents.Stop` | src/runtime.rs:317-355 | result and world equal the model, including the retry when the components are dropped, and its worlds are appended to the trace in order |
| `Runtime.CoreRuntime.constructor` | src/runtime.rs:472-482 | a new core is idle and has the invariant |
| `Runtime.CoreRuntime.Start` | src/runtime.rs:483-512 | the new state equals the model, its worlds are appended to the trace in order, and the invariant of all runs is kept |
| `Runtime.CoreRuntime.Stop` | src/runtime.rs:513-521 | the new state equals the model, its worlds are appended to the trace in order; nothing is held afterwards and the invariant is kept |
| `Runtime.CoreRuntime.Restart` | src/runtime.rs:522-531 | the new state equals the model, its worlds are appended to the trace in order, and the invariant is kept |
| `Runtime.CoreRuntime.Apply` | src/runtime.rs:532-553 | the new state and flags equal the model, its worlds are appended to the trace, and the invariant is kept |
| `Mixin.MergeJsonInPlace` | src/singbox/mixin.rs:73-91 | visiting the overlay keys in any order gives the recursive merge |
| `Mixin.MergeRouteInPlace` | src/singbox/mixin.rs:93-109 | the same for the route object with its own list rules |
| `Mixin.MergeIntoNull` | src/singbox/mixin.rs:73-132 | merging into nothing keeps the overlay, in all four merges |
| `Mixin.ListsCompose` | src/singbox/mixin.rs:111-132 | appending and prepending lists compose |
| `Mixin.RoutesCompose` | src/singbox/mixin.rs:93-109 | route merges compose on compatible overlays |
| `Mixin.MixinsCompose` | src/singbox/mixin.rs:73-132 | merging one overlay and then another equals merging their merge, for every base and all compatible overlays |
| `Mixin.MixinCounterexample` | src/singbox/mixin.rs:73-132 | for every incompatible pair a base on which the two differ |
| `Mixin.MixinsComposeIffCompatible` | src/singbox/mixin.rs:73-132 | two overlays compose on every base if and only if they are compatible |
| `MixinShape.OverlayValuesReplace` | src/singbox/mixin.rs:73-109 | at every path, a scalar of the overlay, or a list of it that is not joined, is the value of the merged document |
| `MixinShape.UnnamedPathsStay` | src/singbox/mixin.rs:73-109 | at every path the overlay says nothing about, the merged document holds what the base held |
| `MixinShape.OverlayRulesFirst` | src/singbox/mixin.rs:111-120 | the merged route rules are the rules of the overlay followed by those of the base |
| `MixinShape.OverlayRulesDecideFirst` | src/singbox/mixin.rs:111-120 | a flow that a rule of the overlay decides keeps that decision in the merged list, and the base decides the others |
| `MixinShape.OverlayEntriesLast` | src/singbox/mixin.rs:122-132 | outbounds, inbounds and endpoints are those of the base followed by those of the overlay |
| `ControlPlane.CollectPeerBypassRules` | src/singbox/mesh.rs:100-126 | three rules for each peer address, in address order |
| `ControlPlane.ProcessRulesRecognised` | src/singbox/mesh.rs:16-90 | every generated process bypass rule is recognised by the predicate that removes it |
| `ControlPlane.PeerRulesRecognised` | src/singbox/mesh.rs:100-143 | every generated peer bypass rule is recognised by its predicate |
| `Priority.Prioritize` | src/singbox/mixin.rs:27-71 | one retaining pass and a splice give the prioritised document |
| `Priority.RetainedSelects` | src/singbox/mixin.rs:27-71 | the retained rules are exactly those no removal predicate holds of, at strictly ascending original positions |
| `Priority.PrioritizedShape` | src/singbox/mixin.rs:27-71 | after any mixin that leaves a rule list, the list is the health, process and peer rules and then exactly the retained rules in order |
| `Priority.RetainedExtremes` | src/singbox/mixin.rs:27-71 | retaining drops a list of removable rules entirely, keeps one without any, and leaves none |
| `Priority.PrioritizeTwice` | src/singbox/mixin.rs:27-71 | a second pass changes nothing, for every document |
| `Routing.ScanSplits` | src/singbox/builder.rs:125-175 | first-match evaluation of two lists is that of the first, then of the second on the flow as sniffed by then |
| `RuleSets.BuiltinRulesRefineBlacklist` | src/singbox/rules.rs:429-455 | under first-match evaluation the built-in list is the blacklist decision table, whatever direct rules follow |
| `RuleSets.FetchRulesRefine` | src/singbox/rules.rs:457-473 | rule-fetch traffic goes to the proxy and other traffic on to what follows |
| `CustomRules.BuildCustomRule` | src/singbox/builder.rs:457-509 | which host, process and endpoint entries of a policy end up in which list of its rule, in order; an error if and only if some source is no address |
| `CustomRules.CatchAllIffBlank` | src/singbox/builder.rs:457-558 | a policy compiles to a rule without matchers if and only if all its fields are blank |
| `CustomRules.NoMatcherTakesAll` | src/singbox/builder.rs:457-509 | such a rule matches every flow |
| `RoutingTable.BlankPolicyTakesEverything` | src/singbox/builder.rs:364-455 | a policy whose only matcher is a blank host passes validation and becomes a rule that takes every flow |
| `CustomRules.TakenForProcessBypass` | src/singbox/mesh.rs:82-90 | a policy rule is taken for the process bypass if and only if it is direct, some process entry is a bare name and no destination is an address |
| `CustomRules.TakenForPeerBypass` | src/singbox/mesh.rs:128-143 | a policy rule is taken for a peer bypass if and only if it is direct and some destination is the address of a peer |
| `CustomRules.TakenForMeshRule` | src/singbox/mesh.rs:150-153 | a policy rule is taken for a mesh route if and only if it leads to the mesh endpoint and some destination is an address |
| `Builder.BuildDomainRuleGroups` | src/singbox/builder.rs:364-455 | policies in order; the first invalid one ends the build |
| `Builder.CollectMembers` | src/singbox/builder.rs:24-124 | the tags that may carry traffic, in inventory order, or the error when none is left |
| `Builder.BuildValue` | src/singbox/builder.rs:24-243 | outbounds, rules and rule-sets pushed in order equal the compiled document |
| `References.NoDanglingOutbounds` | src/singbox/builder.rs:24-243 | for all settings and inventories on which the build succeeds, every route outbound, the final, and every urltest and selector member and default is emitted |
| `References.RuleSetTagsDefined` | src/singbox/rules.rs:273-292 | every rule-set tag used by route and DNS rules is defined if and only if rule mode is off or all used files are present |
| `References.RuleSetTagsDefinedWhenPresent` | src/singbox/rules.rs:91-99 | with the flag the program computes, every used tag is defined |
| `References.DnsRulesDefined` | src/singbox/rules.rs:379-410 | the DNS rules use no rule-set the route rules do not |
| `DocumentDecisions.NamesResolved` | src/singbox/rules.rs:379-410 | which name server a build assigns to a query: local names and listed names are resolved for real, other addresses are fake ones; no DNS rules without full capture |
| `RoutingTable.LateRulesRefineTable` | src/singbox/builder.rs:125-175 | the rules after the early ones, under first-match evaluation, are the decision table |
| `RoutingTable.CompiledRulesRefineTable` | src/singbox/builder.rs:125-212 | the whole compiled list decides as its control-plane, DNS and custom rules, then as the table |
| `RoutingTable.TableHighlights` | src/singbox/rules.rs:429-473 | past the early rules: global mode yields the proxy, direct mode direct; in rule mode a gfw or proxy flow missed by earlier rules is proxied even on cncidr or geoip-cn addresses, and an unmatched flow is direct |
| `RoutingTable.ControlPlaneSurvivesMixin` | src/singbox/mixin.rs:27-71 | whatever a mixin does to the rule list, a flow the control rules decide is decided the same in the final document |
| `RoutingTable.UserRuleRetainedIff` | src/singbox/mixin.rs:27-71 | a policy rule in the list is retained if and only if it is not direct, or it names no process or has an address and leads to no peer (and is no mesh rule); it is in the final list if and only if retained or equal to a peer rule |
| `RoutingTable.PeerPolicyLosesOtherAddresses` | src/singbox/mixin.rs:27-71 | a direct policy with the address of a peer and another address is gone from the final list |
| `ProxySettings.CaptureIff` | src/singbox/tun_route.rs:175-187 | on the settings: when a tunnel captures everything, and when it does so beside a mesh node with a proxy |
| `RoutingDecisions.MeshHealthDecides` | src/singbox/builder.rs:313-362 | the health request of the process that hosts the mesh, sniffed first when the check names its host, goes to the proxy; no other flow does |
| `RoutingDecisions.ProcessBypassDecides` | src/singbox/mesh.rs:16-59 | a flow of that process through the tunnel goes direct, under full capture beside a mesh node |
| `RoutingDecisions.PeerBypassDecides` | src/singbox/mesh.rs:100-126 | a flow to the address of a peer goes direct, on a node |
| `RoutingDecisions.DnsDecides` | src/singbox/builder.rs:134-138 | port 53 under a tunnel, and DNS anywhere, is hijacked |
| `RoutingDecisions.ControlRulesDecide` | src/singbox/builder.rs:125-133 | the order of these: health request, process, peers |
| `PolicyDecisions.AddPolicyResult` | src/singbox/builder.rs:375-452 | a policy is accepted if and only if it is disabled, or named anew with a matcher, an outbound and sources that are addresses; it adds one rule, for the outbound its nodes leave it, or none |
| `PolicyDecisions.PoliciesCompileIff` | src/singbox/builder.rs:364-455 | all policies compile if and only if each is acceptable after those before it |
| `PolicyDecisions.PoliciesDecide` | src/singbox/builder.rs:364-455 | the compiled policies send a flow to the outbound of the first one whose rule matches it, and decide no other flow |
| `PolicyDecisions.ChosenIsFirst` | src/singbox/builder.rs:139-140 | that outbound is the one of the first policy that takes the flow |
| `BuildDecisions.MembersInOrder` | src/singbox/builder.rs:50-83 | the proxy members are the tags of the usable inventory nodes at ascending positions; the error if and only if the selection leaves none of a tagged inventory |
| `BuildDecisions.BuildSucceedsIff` | src/singbox/builder.rs:24-123 | a build succeeds if and only if the bootstrap node is readable, the selected nodes are not all missing and every policy is acceptable |
| `BuildDecisions.EveryFlowDecided` | src/singbox/builder.rs:125-212 | for every build, mode, flow and sniffing result the compiled list sends the flow where one procedure over settings and flow says: health request, own process, peers, DNS, the first policy that takes the sniffed flow, then the table |
| `BuildOutbounds.NodesCarryInventory` | src/singbox/builder.rs:40-67 | the emitted nodes are the direct one, the bootstrap node and every inventory node in order, unchanged but for the interface it is pinned to |
| `BuildOutbounds.ProxyGroupsOverUsable` | src/singbox/builder.rs:84-112 | the two proxy groups and their members, default and test settings |
| `BuildOutbounds.PolicyGroupsOverOffered` | src/singbox/builder.rs:410-452 | every policy with nodes to choose from has a group over exactly those it names that exist, in its order, with its own or the default test settings, and its flows are routed to that group |
| `BuildOutbounds.RuleSetsOfBuild` | src/singbox/rules.rs:273-292 | the rule-sets of a build: those of twelve names with a valid file and two remote ones, with rules on |
| `PolicyMeaning.PolicyTakesWhatItWants` | src/singbox/builder.rs:457-558 | the rule of a policy matches exactly the connections its entries ask for: one of the hosts, suffixes, patterns, ranges or names, and a listed process name, path, source and ports where there are any |
| `PolicyMeaning.HostSpellings` | src/singbox/builder.rs:468-477 | from text: a name stands for itself, behind an asterisk and a dot it is a suffix, with other asterisks a pattern |
| `PolicyMeaning.ProcessSpellings` | src/singbox/builder.rs:488-497 | from text: a process with a slash of either kind is a path, any other a name |
| `PolicyMeaning.EndpointSpellings` | src/singbox/builder.rs:519-546 | from text: a socket, an address, a range or a name |
| `PolicyMeaning.WildcardTakesApex` | src/singbox/builder.rs:468-477 | a policy for everything below a name takes the name itself as well |
| `DocumentDecisions.PeerBypassIff` | src/singbox/mesh.rs:128-143 | a rule is taken for a peer bypass if and only if there is a mesh, it is direct and it lists the address of a peer |
| `DocumentDecisions.PrioritizedDecides` | src/singbox/mixin.rs:27-71 | in every prioritised document the health request goes to the proxy, the process and flows to peers go direct, and the retained rules decide the rest |
| `DocumentDecisions.HealthRequestReachesProxy` | src/singbox/mixin.rs:27-71 | whatever the overlay, the health request of the bypassed process reaches the proxy |
| `DocumentDecisions.ActiveIff` | src/singbox/mixin.rs:27-45 | the pass has something to do if and only if there is a rule list and full capture beside a mesh node, or a node with peers |
| `EventLines.LinesAppend` | src/platform/process_attribution.rs:137-155 | reading in two pieces gives the lines and the rest of reading at once |
| `EventLines.CutsDoNotMatter` | src/platform/process_attribution.rs:137-155 | however a stream is cut into reads, the lines delivered are those of the whole stream |
| `EventLines.TakeComplete` | src/platform/process_attribution.rs:137-155 | everything up to the last newline is split off |
| `EventLines.SplitLines` | src/platform/process_attribution.rs:137-155 | the terminated lines, in order |
| `EventLines.ReadAppended` | src/platform/process_attribution.rs:137-155 | one read gives the lines it completes and keeps the rest |
| `ProcessEvidence.LinesRebuild` | src/platform/process_attribution.rs:137-155 | the lines with their newlines, and the rest, are the stream |
| `ProcessEvidence.LinesHoldNoNewline` | src/platform/process_attribution.rs:137-155 | the stream is cut at every newline and nowhere else |
| `ProcessEvidence.DecodedInOrder` | src/platform/process_attribution.rs:236-267 | the decoded events are those described by the lines at ascending positions, none left out: a version 1 event of a named process on TCP or UDP in at most 64 KiB, with ends that parse and have a port |
| `ProcessEvidence.LiveInOrder` | src/platform/process_attribution.rs:342-349 | the live events are those observed less than a minute ago, at ascending positions |
| `ProcessAttribution.LiveLater` | src/platform/process_attribution.rs:342-349 | events dropped early would be dropped later: filtering twice is filtering at the later time |
| `ProcessAttribution.PushedLive` | src/platform/process_attribution.rs:236-267 | an event too old to be converted is not live either |
| `ProcessAttribution.ForgetFirst` | src/platform/process_attribution.rs:342-349 | popping live events off the front is forgetting a prefix of all events read |
| `ProcessAttribution.Resolver.constructor` | src/platform/process_attribution.rs:88-100 | a new resolver keeps its codec, has read nothing and forgotten nothing |
| `ProcessAttribution.Resolver.Prune` | src/platform/process_attribution.rs:342-349 | keeps the last live events up to the limit and says which it dropped; none unless the cache is full |
| `ProcessAttribution.Resolver.Push` | src/platform/process_attribution.rs:137-165 | appends what the batch decodes to, up to events that are not live |
| `ProcessAttribution.Resolver.ReadTail` | src/platform/process_attribution.rs:120-155 | what has been read afterwards (file, bytes, lines of earlier files) is fixed by the view; the lines delivered are exactly those it completes |
| `ProcessAttribution.Resolver.Absorb` | src/platform/process_attribution.rs:137-165 | the cache is what is live of the events not forgotten; nothing more is forgotten while all live events fit |
| `ProcessAttribution.Resolver.Refresh` | src/platform/process_attribution.rs:120-165 | the same for what has been read, with the cache what is live of the events not forgotten |
| `ProcessAttribution.Resolver.Lookup` | src/platform/process_attribution.rs:167-178 | what has been read is fixed by the view; with a monotone clock the answer is that of selecting on every complete line read, decoded and filtered by age, once everything forgotten has expired; nothing is forgotten while the live events fit, and a minute after the last overflow all has expired unless dated ahead |
| `ProcessMonitoring.FlowsKept` | src/platform/process_attribution.rs:120-165 | the events described by what has been read only grow, over any orderly sequence of visits |
| `ProcessMonitoring.ForgottenExpired` | src/platform/process_attribution.rs:342-349 | when the live events have fitted for a minute and none is dated ahead, everything ever forgotten has expired |
| `ProcessMonitoring.Answer` | src/platform/process_attribution.rs:167-178 | one more visit of a run keeps the resolver where the visits lead and answers as a full re-read |
| `ProcessMonitoring.Monitor` | src/platform/process_attribution.rs:120-178 | for every sequence of visits, with the file cut in any way into writes and visits, absent, unreadable, replaced or cut short in between, every undisturbed answer is that of the selection on all complete lines read so far, decoded and live |
| `ProcessMonitoring.MonitorGrowingFile` | src/platform/process_attribution.rs:120-178 | for one file that only grows, a monotone clock and at most 8192 live events, every answer is that of the selection on the complete lines of the file as it then was |
| `ProcessSelection.StrongNamesBothEnds` | src/platform/process_attribution.rs:318-340 | a match is strong if and only if the event names both ends |
| `ProcessSelection.SelectProcess` | src/platform/process_attribution.rs:283-316 | the running best and the vote give an answer in the sense of the definition |
| `ProcessSelection.Vote` | src/platform/process_attribution.rs:307-316 | weak matches answer if and only if there are some and they all name one process |
| `ProcessSelection.AnswerUnique` | src/platform/process_attribution.rs:283-316 | the definition fixes the answer for each event order |
| `ProcessSelection.StrongAnswers` | src/platform/process_attribution.rs:283-316 | a strong match beats all weak ones and is the lexicographic maximum of score and time |
| `ProcessSelection.OrderDoesNotMatter` | src/platform/process_attribution.rs:283-316 | unless strong matches tie, reordering the events does not change the answer |
| `ProcessSelection.ChampionReadLast` | src/platform/process_attribution.rs:283-316 | any of tied strong matches is the answer for some order |
| `ProcessSelection.OrderMattersOnlyForTies` | src/platform/process_attribution.rs:283-316 | the answer is the same for all orders if and only if tied strong matches name one process |
| `ProcessEvidence.ScoredIffConcerned` | src/platform/process_attribution.rs:318-340 | an event has a score if and only if the network and every end it names agree and it names one; it is strong if and only if it names both, and a vote if and only if it names one and is less than three seconds old |
| `ProcessEvidence.AtLeastIff` | src/platform/process_attribution.rs:291-304 | between strong events the exact source counts first and the time second |
| `ProcessEvidence.AnswerByFields` | src/platform/process_attribution.rs:283-340 | an answer in the sense of the definition is exactly the one read off the fields of the events, without scores |
| `ClashRules.PushChunks` | shared/clash_rules_convert.rs:151-155 | appends the chunks of 512 values and a last shorter one |
| `ClashRules.ConvertLines` | shared/clash_rules_convert.rs:72-109 | filling six lists line by line and chunking them gives the converted rules, or the error when there are none |
| `ClashRules.ChunksKeepEverything` | shared/clash_rules_convert.rs:151-155 | chunking loses, repeats and reorders nothing; every chunk but the last is full and none is empty |
| `ClashRules.ChunksInLineOrder` | shared/clash_rules_convert.rs:72-109 | the chunks of a kind put together are its contributions in line order |
| `ClashRules.ConversionKeepsMeaning` | shared/clash_rules_convert.rs:72-109 | a name, address or process matches the emitted rule-set if and only if it matches the entry of some line; the conversion fails if and only if no line has an entry |
| `ClashRules.SpellingsAgree` | shared/clash_rules_convert.rs:157-251 | all spellings of a host and its subdomains contribute the same suffix |
| `ClashRules.SuffixLinesCoverApexAndSubdomains` | shared/clash_rules_convert.rs:253-260 | in every spelling a host line matches exactly the host and its subdomains |
| `ClashRules.LoadsIffEveryEntryLoads` | crates/singbox/src/route/mod.rs:3924-3935 | the engine accepts the emitted rule-set if and only if every line contributes a value it accepts |
| `ClashRules.ContributesNothingIff` | shared/clash_rules_convert.rs:157-260 | a line contributes an empty host or suffix if and only if its text is hollow: a typed rule with a blank field, or for suffixes one of dots, or an untyped line of dots, also after plus signs |
| `ClashRules.LoadsIffNoLineHollow` | crates/singbox/src/route/mod.rs:3924-3935 | the engine accepts the emitted rule-set if and only if no line is hollow and it can read the contributed patterns and ranges |
| `ClashRules.HollowLineMakesListUnusable` | crates/singbox/src/route/mod.rs:3924-3935 | a list with one hollow line converts, and the result cannot be loaded |
| `ClashRules.HollowLines` | shared/clash_rules_convert.rs:157-260 | eight such lines |
| `ClashMeaning.TypedLinesMatch` | shared/clash_rules_convert.rs:170-211 | what each typed line matches, with or without a policy: the name, the part of a name, the pattern, the range if it is one, the program |
| `ClashMeaning.PlainRange` | shared/clash_rules_convert.rs:230-233 | an untyped range is kept as it is |
| `ClashMeaning.RangeSpelling` | shared/clash_rules_convert.rs:262-272 | a range is an address, a slash and a 16-bit number |
| `ClashMeaning.IgnoredLines` | shared/clash_rules_convert.rs:166-228 | comments and ten kinds of rules, in any case, contribute nothing |
| `ClashMeaning.DocumentKeepsMeaning` | shared/clash_rules_convert.rs:72-109 | the emitted document, read by its keys and in version 4, matches exactly what the entries of the lines match |
| `SuffixMigration.StripLeadingDots` | shared/clash_rules_convert.rs:119-149 | the new document if any suffix was stripped, and nothing otherwise |
| `SuffixMigration.StrippedSuffix` | crates/singbox/src/route/mod.rs:3912-3922 | for every suffix: stripping keeps what the engine matches and gains exactly the suffix itself when it had one dot |
| `SuffixMigration.CoversApexIff` | shared/clash_rules_convert.rs:253-260 | a migrated suffix matches its own apex name if and only if it did not start with two dots |
| `SuffixMigration.NoLeadingDotLeftIff` | shared/clash_rules_convert.rs:119-149 | after the migration no listed suffix has a leading dot if and only if none was a lone dot or started with two |
| `SuffixMigration.LeadingDotLeft` | shared/clash_rules_convert.rs:137-142 | three documents that keep a leading dot |
| `SuffixMigration.MigrationKeepsTheRest` | shared/clash_rules_convert.rs:119-149 | everything but suffix lists is as before |
| `SuffixMigration.MigrationAddsApexNames` | shared/clash_rules_convert.rs:119-149 | for every document the migration adds exactly the names that were listed with one dot |
| `SuffixMigration.MigrationIdempotentIff` | shared/clash_rules_convert.rs:119-149 | a second migration changes nothing if and only if no suffix starts with two dots and has more characters |
| `SuffixMigration.ConverterOutputUnchanged` | shared/clash_rules_convert.rs:72-109 | converter output is a fixed point of the migration |
| `SshTunnel.Tunnel.constructor` | src/ssh/tunnel.rs:57-66 | all ports start forgotten and nothing is published |
| `SshTunnel.Tunnel.ResetAll` | src/ssh/client.rs:283-287 | every remembered port becomes 0 |
| `SshTunnel.Tunnel.CancelAll` | src/ssh/client.rs:261-281 | one cancel for each remembered port, then all are 0 |
| `SshTunnel.Tunnel.Rollback` | src/ssh/tunnel.rs:254-277 | one cancel for each registered forward with a port, then all are 0 |
| `SshTunnel.Tunnel.SetUp` | src/ssh/tunnel.rs:206-252 | succeeds if and only if every forward is granted; a failure has asked up to the refused one, cancelled what was granted and forgotten all ports |
| `SshTunnel.Tunnel.ConnectAndRun` | src/ssh/tunnel.rs:279-349 | publishes if and only if connected and fully set up |
| `SshTunnel.Tunnel.Try` | src/ssh/tunnel.rs:98-120 | after an attempt nothing is published or remembered, and its requests are those of the specification |
| `SshTunnel.Tunnel.Pass` | src/ssh/tunnel.rs:94-157 | one pass of the loop: its verdict, its wait and its requests |
| `SshTunnel.Tunnel.Run` | src/ssh/tunnel.rs:90-161 | for every script: how far the run gets, with what verdict, what every wait sees, and every request sent |
| `SshTunnel.WaitsAreClean` | src/ssh/tunnel.rs:129-155 | the waits that the contract of Run records, one by one: no session published, every bound port 0, and a delay between 1 and 60 seconds |
| `SshTunnel.DelayIsBackoff` | src/ssh/tunnel.rs:136-155 | the delay is the power of two of the quick failures in a row, capped at 60 seconds |
| `SshTunnel.BackoffBounded` | src/ssh/tunnel.rs:136-155 | the delay stays within 1 to 60 seconds, never shrinks by a quick failure and is 60 seconds exactly from the sixth quick failure in a row on |
| `SshTunnel.FailsIffFirstAttemptFails` | src/ssh/tunnel.rs:128-134 | a run returns an error if and only if its first attempt ended by itself before publishing |
| `SshTunnel.GrantedForwardsCancelledOnce` | src/ssh/tunnel.rs:206-277 | whichever way an attempt ends, each forward granted with a non-zero port is cancelled exactly once and nothing else is |
| `SshTunnel.RunCancelsEveryGrant` | src/ssh/tunnel.rs:90-161 | over a whole run cancels and grants balance for every forward and port |
| `SshTunnel.ForwardsAskedOnce` | src/ssh/tunnel.rs:206-252 | every forward is asked for once, unless the attempt does not connect or an earlier one is refused |
| `SshTunnel.PortsRemembered` | src/ssh/tunnel.rs:206-252 | a granted port is remembered by its last sixteen bits |
| `SshTunnel.RunGoesOnIff` | src/ssh/tunnel.rs:94-157 | on the script: when an attempt lets the run go on, fails it or is followed by a wait |
| `SshTunnel.DelayTable` | src/ssh/tunnel.rs:136-155 | the waits in seconds, 1, 2, 4, 8, 16, 32 and then 60, starting over with every attempt of more than ten seconds |
| `LogBudget.Logs.constructor` | src/logging.rs:55-60 | opening starts from a directory within the budget rules |
| `LogBudget.Logs.EnforceBudget` | src/logging.rs:275-312 | the eviction loop over the archives, oldest first, with saturating totals and undeletable files |
| `LogBudget.Logs.Rotate` | src/logging.rs:255-272 | the active file becomes an archive and the budget is enforced |
| `LogBudget.Logs.WriteLine` | src/logging.rs:239-249 | rolls first when the line does not fit, then grows the file |
| `LogBudget.Logs.Serve` | src/logging.rs:194-213 | all records in turn |
| `LogBudget.SortedByAge` | src/logging.rs:303 | sorting keeps every archive and puts the oldest first |
| `LogBudget.ComputedTotalSaturates` | src/logging.rs:280-302 | the computed total is the real one, cut at the largest 64-bit number |
| `LogBudget.EvictsShortestPrefix` | src/logging.rs:304-311 | eviction removes the shortest prefix that meets the budget, or everything |
| `LogBudget.EnforcementEvictsOldest` | src/logging.rs:275-312 | one enforcement removes the shortest oldest-first prefix of the archives that meets the budget, or all of them |
| `LogBudget.EnforcedMeetsBudget` | src/logging.rs:275-312 | with active files within their limit an enforcement meets the budget |
| `LogBudget.WriteKeepsBounds` | src/logging.rs:239-272 | every write keeps the bounds at each of its moments, and a roll ends within the budget |
| `LogBudget.DiskBoundKeptIffLineFits` | src/logging.rs:239-249 | a line keeps every bounded directory within the disk bound if and only if it fits a file by itself |
| `LogBudget.RunStaysBounded` | src/logging.rs:239-312 | over every run total bytes never exceed 200 MiB and three times 16 MiB, and are at most 200 MiB right after each rotation |
| `LogBudget.RunStaysWithinLimits` | src/logging.rs:239-312 | the same in bytes: 16777216 in each file, 209715200 in archives, 260046848 in all |
| `LogBudget.EnforcementOnlyDeletes` | src/logging.rs:275-312 | enforcement deletes archives only, none that cannot be deleted and none within the budget |
| `LogBudget.LineGoesToItsFile` | src/logging.rs:239-272 | a line is appended to its own file while it fits, else it is the first of the emptied file and the old contents are one more archive; other files stay |
| `Redirects.FollowRedirects` | src/fwd/server.rs:280-322 | one retry sends exactly the requests of the specification |
| `Redirects.Connect` | src/fwd/server.rs:268-351 | the nested loops send exactly the specified requests and end as the last reply says |
| `Redirects.AtMostEighteen` | src/fwd/server.rs:268-351 | at most 18 connection attempts for any server behaviour |
| `Redirects.EndlessRedirects` | src/fwd/server.rs:268-322 | a server that redirects for ever is tried exactly as often as the bound allows |
| `Redirects.HeaderIffHostKept` | src/fwd/server.rs:353-399 | a request carries the authorization header if and only if one was given and no redirect before it left the host |
| `Redirects.HeaderStaysOnHost` | src/fwd/server.rs:353-399 | when a request carries the header, every URL visited so far, across retries, has the original host |
| `Redirects.EachRequestFollows` | src/fwd/server.rs:280-322 | each request of a connect goes where a followed redirect (301, 302, 303, 307, 308) led, or repeats the one before |
| `Redirects.RefusalsTriedThrice` | src/fwd/server.rs:268-351 | a server that only refuses is asked three times, at the same place with the same header |
| `Redirects.FiveRedirectsFollowed` | src/fwd/server.rs:280-322 | up to five redirects in a row are followed to the server that accepts |
| `Redirects.SixthRedirectRetries` | src/fwd/server.rs:280-322 | a sixth one makes the next retry start over from where the fifth led |
| `Redirects.SameHostIgnoresCase` | src/fwd/server.rs:497-513 | hosts agree if and only if they differ in nothing but the case of ASCII letters |
| `ForwardSpec.PortRoundTrip` | src/ssh/forward.rs:45-90 | every 16-bit port is printed and read back |
| `ForwardSpec.AddressParses` | src/ssh/forward.rs:93-125 | a printed address is read back whatever follows it, in brackets or not; an empty host is refused |
| `ForwardSpec.RoundTripIff` | src/ssh/forward.rs:33-125 | printing and parsing a specification, for all ports and hosts without brackets and white space, gives it back if and only if no empty host stands beside a bracketed one |
| `ForwardSpec.DefaultBindAddress` | src/ssh/forward.rs:53-64 | without a bind address the forward listens on 127.0.0.1 |
| `ForwardSpec.PartsRebuild` | src/ssh/forward.rs:45-64 | the parts of a text are what stands between its colons |
| `ForwardSpec.TrailingDataRefused` | src/ssh/forward.rs:66-90 | with brackets, anything after the second port is refused |
| `ForwardSpec.PlainAcceptedIff` | src/ssh/forward.rs:45-90 | without brackets a text is accepted if and only if it has three or four parts with readable ports |

## Left out

- The sing-box engine, EasyTier, russh, tungstenite and URL parsing: their calls are outcomes, replies and oracles.
- Privilege elevation, helper processes, signals, the WebUI, the desktop and mobile applications and the command line.
- Downloading subscriptions and rule files: the node inventory and the set of valid rule files are inputs.
- The `download_detour` tag of the remote geoip and geosite rule-sets is not part of the reference closure.
- Deadlines and probe timing: every blocking call is taken to return.
- In `Controller`, a start is one atomic step, and the status record is reduced to state, pid, readiness and the two error fields.
- In `Controller`, start and stop calls are serialised by their caller; two concurrent stops are not modelled.
- RuntimeAgreement.ProxyAndMeshAgree: assumes that nothing survives a failed stop; `AgreeExactlyWhenNothingBreaks` covers the other runs.
- In `Runtime`, tasks are known by their ids; what a task does is not modelled.
- In `Builder`, inbounds, log, cache and DNS server settings are not modelled; outbounds, route rules, DNS rules and rule-sets are.
- In `ProcessAttribution`, an event file truncated and regrown past the old offset between two refreshes is not seen by the reader; rotation is a new file identity.
- ProcessAttribution.Resolver.Lookup: promises no answer while an event the cache had to forget is still live, and neither does ProcessMonitoring.Monitor.
- In `ClashRules`, which texts are IP addresses, and which patterns and ranges the engine accepts, are parameters, and reading YAML payloads and printing JSON are not modelled.
- In `SshTunnel`, what an attempt leaves behind when the user interrupts its setup is not specified; the process ends there.
- In `SshTunnel`, a request names its forward by index instead of carrying its host and configured port.
- In `LogBudget`, failing flush, rename and open calls are not modelled; failing deletions are.
- LogBudget.RunStaysBounded: assumes deletions succeed and lines and initial active files fit 16 MiB, as the bound itself does.
- Local forward listeners, duplicate-bind checks and matching of incoming SSH channels: they would add easy members only.

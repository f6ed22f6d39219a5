# Praetor: a Dafny model of its reconciliation protocol

Praetor runs processes on network devices through three parties. The **controller** turns a
DeviceProcessDeployment into one DeviceProcess per matched switch and counts the rollout. The
**gateway** serves each device its desired processes under an ETag, writes their status from the
agent's reports and decides which devices are stale. The **agent** polls, renders systemd units,
starts, restarts and repairs them, fetches OCI artifacts, and reports what it saw.

This project models those parties in Dafny and proves what they guarantee, for every input, every
interleaving or every run. Check it with `dafny verify dfyconfig.toml`.

| module | what it holds |
|---|---|
| `Prelude`, `Text`, `Sorting` | options, trimming, string order, unique splitting, decimal numbers, sorting by a pair of strings |
| `Conditions` | the condition list and its history laws |
| `ApiTypes` | specs, statuses, desired items, observations |
| `StatusTransform`, `StatusLaws`, `StatusMeaning` | what an observation, a connect or a disconnect does to a status, its laws, and what each field, condition and event then says |
| `StatusStore` | all interleavings of handlers on the versioned store |
| `StatusUpdate` | the retry loop as code, against a store that others write to |
| `Liveness`, `LivenessLaws` | the lastSeen / lastReport / heartbeatHints tracker and the sweep |
| `Desired`, `CachedResponse` | the ETag, the desired response, the agent's cache, runs of polls; that reconcile leaves the cached slices alone |
| `Render`, `ReadBack`, `Units` | unit and environment texts, and a reader of them; unit names, paths, files |
| `AgentPass`, `AgentLaws`, `AgentMeaning` | one reconcile pass of the agent, laws over any run of passes, and what calls, observations and files mean |
| `Artifact`, `ArtifactStore` | layer extraction and Ensure; the crash-prone publish protocol |
| `Selectors` | label selectors, the selector-key index, enqueueing |
| `Controller`, `ControllerLaws`, `ProcessNames` | one reconcile of a deployment, its owned set, counters and stored conditions; the names of processes |
| `EndToEnd` | controller, gateway and agents together |

Code that changes state is a class or a method with loops, proved equal to a function on values
(for example `AgentPass.Agent.Reconcile` against `PassItems` and `AfterCleanup`,
`Liveness.Gateway.HandleReport` against `Reported`); the laws are lemmas about those functions and
about runs built from them. Protocols whose point is interleaving or crashing (`StatusStore`,
`ArtifactStore`, `EndToEnd`) are step machines. What those functions compute is said a second time
without them, in terms of the inputs alone: `StatusMeaning`, `ReadBack`, `AgentMeaning`,
`Artifact.IsExtraction` and `Artifact.Acceptable`, `Desired.ItemsTell`, `ControllerLaws.LabelsTell`.

## Where the code falls short of what it seems to promise

- `updateStatus` copies the deployment's status with its condition slice and sets the two
  conditions in the array both copies share. Once both types are present, neither the comparison
  nor the merge patch sees a change of them: only the counters are written, and over any run of
  reconciles from an empty status both stored conditions stay what the first one wrote
  (`ControllerLaws.FirstVerdictStays`). A deployment whose process was not ready at first keeps
  Available False when everything is ready (`ControllerLaws.StuckConditions`, at a concrete store
  in `ControllerLaws.StuckIsReachable`). A stored condition is right exactly when a type was
  missing or it was right already (`ControllerLaws.RolloutTells`).
- Start times are stored in whole seconds, so an observation with a fractional start time is
  patched, with its events, on every report; exactly those are (`StatusLaws.ObserveStoredIff`). The
  agent prints whole seconds.
- The status comparison ignores a condition's `observedGeneration`, which every write resets to
  zero. So "equal" means truly equal exactly when the conditions the observation touches carry no
  generation (`StatusLaws.ComparisonExact`, with `StatusLaws.ComparisonBlindSpot` as the
  counterexample).
- `changedLabelKeys` reads a missing label as "". An update enqueues every deployment whose match
  changes exactly when no label is absent on one side and empty on the other
  (`Selectors.UpdateCoversIff`, `Selectors.BlurredIsMissed`).
- The index misses a matching deployment exactly when its selector mentions keys but none the
  switch has, which needs an unsupported operator (`Selectors.LookupExact`); a deployment that asks
  for the absence of a label is missed on every switch without it (`Selectors.AbsenceIsMissed`).
- `sanitizedBase` can give different processes the same unit name. `Units.SharedUnitExact` says
  when, for all names; for clean names that are not shortened it is exactly when one key's
  namespace goes on, at a dash, where the other's ends (`Units.PlainKeysShareExact`), so dash-free
  namespaces of bases that are not shortened share a unit only when their sanitized parts are the
  same (`Units.DashFreeNeverShares`). The agent's file laws ask for
  distinct names, and `AgentLaws.ApartExactly` says exactly when they have them.
- `deviceProcessName` has the same ambiguity: `ProcessNames.SharedNameExact` says exactly when two
  devices of two deployments get one process name (`ProcessNames.DeploymentsShare`), and
  `ProcessNames.DistinctNamesExactly` when one deployment's names are distinct.
- The 5 second drift interval is measured from a time cut to whole seconds: an action is allowed
  exactly when 5 seconds less the cut-off fraction have passed (`AgentLaws.RateLimitExact`), so 5
  seconds are guaranteed exactly after an action on a whole second, and more than 4 always
  (`AgentLaws.RateLimitBounds`, `AgentLaws.DriftSpacing`).
- A connect whose status patch is refused still refreshes `lastSeen`, so a process can read
  disconnected although its device is not silent (`LivenessLaws.RefusedMarkLingers`, reached from
  the start in `LivenessLaws.LingeringIsReachable`). `LivenessLaws.TruthfulRunIff` says exactly
  which runs avoid that, and `LivenessLaws.ContactLeavesExactly` which processes a contact leaves.

## Model

| member | source | states |
|---|---|---|
| `Conditions.ConditionList.FindCondition` | pkg/conditions/conditions.go:11-19 | the first entry of the type, or none |
| `Conditions.ConditionList.SetCondition` | pkg/conditions/conditions.go:21-41 | the entry of the type is replaced in place or appended, its transition time kept unless the status changes |
| `Conditions.ConditionList.MarkTrue` | pkg/conditions/conditions.go:43-51 | sets the type True with the reason and message |
| `Conditions.ConditionList.MarkFalse` | pkg/conditions/conditions.go:53-60 | sets the type False with the reason and message |
| `Conditions.SetConditionShared` | pkg/conditions/conditions.go:21-41 | the same on a shared slice: every holder of the array sees an overwritten entry, and none sees an appended one |
| `Conditions.SetFind` | pkg/conditions/conditions.go:21-41 | after a set the type reads back as set, and every other type reads as before |
| `Conditions.EntryHistory` | pkg/conditions/conditions.go:21-41 | over any calls from an empty list, an entry holds what the latest call for its type passed, and its transition time is that of the latest call that changed the status |
| `Conditions.EntriesHaveDistinctTypes` | pkg/conditions/conditions.go:21-41 | over any calls from an empty list types stay unique |
| `Conditions.FirstSetOrder` | pkg/conditions/conditions.go:21-41 | over any calls from an empty list entries stand in the order in which their types were first set |
| `Conditions.NoEntryNoCall` | pkg/conditions/conditions.go:21-41 | a type without an entry was never set |
| `Conditions.LastChangeMeaning` | pkg/conditions/conditions.go:21-41 | the call EntryHistory speaks of is really the last one that changed the type's status |
| `StatusTransform.SetAgentConnected` | gateway/server.go:782-802 | the AgentConnected entry is set, and the result tells whether it was missing or differed in status, reason or message |
| `StatusTransform.MarkSpec` | gateway/server.go:436-503 | the connection, spec and artifact conditions of an observation, and which of them changed |
| `StatusTransform.MarkProcess` | gateway/server.go:504-562 | the started, warning and healthy conditions of an observation on top of those |
| `StatusTransform.ComputePhase` | gateway/server.go:518-562 | the phase `StatusMeaning.PhaseExact` speaks of |
| `StatusTransform.EventsFor` | gateway/server.go:588-611 | the events of a committed observation, in order |
| `StatusTransform.ComputeStatus` | gateway/server.go:427-575 | the whole new status and its events, or the refusal of a malformed start time |
| `StatusTransform.ConditionsEqualLoop` | gateway/server.go:844-854 | equal exactly when same length and every entry agrees in type, status, reason and message |
| `StatusTransform.ReflectDeepEqualStatus` | gateway/server.go:827-842 | equal exactly when all fields and, by the loop, all conditions agree |
| `StatusLaws.MarksStand` | gateway/server.go:436-564 | no condition an observation sets is overwritten by a later one of the same observation |
| `StatusLaws.ObserveTwice` | gateway/server.go:427-578 | applying an observation twice: the second changes nothing at all |
| `StatusLaws.ObserveStoredIff` | gateway/server.go:565-578 | applied again to its stored result, an observation changes nothing exactly when its start time is a whole second |
| `StatusLaws.ComparisonExact` | gateway/server.go:576-578 | when the comparison says equal, the new status is the old one if and only if the touched entries carry no generation |
| `StatusLaws.ComparisonSound` | gateway/server.go:827-854 | on statuses only the gateway wrote, equal means identical, transition times included |
| `StatusLaws.ComparisonBlindSpot` | gateway/server.go:844-854 | a status for which the comparison says equal although the new one differs |
| `StatusLaws.ReachableCoherent` | gateway/server.go:504-574 | in every status reached by agent-made observations, connects and disconnects: Running iff ProcessStarted True iff Healthy True iff PID > 0; a start time means Running; once observed, Failed iff ReconcileError and Pending iff ProcessNotStarted; ready iff Running and connected |
| `StatusMeaning.FieldsTell` | gateway/server.go:427-574 | which observation field each scalar field of the status holds, and which fields stay |
| `StatusMeaning.PhaseExact` | gateway/server.go:518-557 | Failed iff there is an error message, else Running iff started or healthy, else Pending |
| `StatusMeaning.ProcessConditionsTell` | gateway/server.go:504-562 | status, reason and message of AgentConnected, ProcessStarted and Healthy for every observation |
| `StatusMeaning.SpecConditionsTell` | gateway/server.go:438-549 | the same of SpecObserved and SpecWarning |
| `StatusMeaning.ArtifactConditionsTell` | gateway/server.go:448-497 | the artifact conditions: success never reads as failure, given reasons and messages stand, the last error stands in for a missing message |
| `StatusMeaning.EventsTell` | gateway/server.go:587-611 | exactly which events a patched observation emits, each at most once |
| `StatusMeaning.MarkingTells` | gateway/server.go:617-708 | what a connect and a disconnect write, and that they write nothing else |
| `StatusMeaning.MarkEventsTell` | gateway/server.go:633-706 | the event of a patched connect and of a patched disconnect |
| `StatusMeaning.OpsTell` | gateway/server.go:413-636 | the operations of the interleaving theorem are these transforms with these events |
| `StatusStore.Serializable` | gateway/server.go:413-636 | from every store and in every interleaving of any number of handlers and other writers, with reads from a cache of any age, statuses and events are those of the successful patches, their transforms applied one after another in commit order |
| `StatusStore.SerializableWithNoOps` | gateway/server.go:576-578 | from generation-free statuses the handlers that found nothing to change in the current object fit into the same serial order |
| `StatusStore.ExactlyOnce` | gateway/server.go:413-615 | an observation handler reads at most three times; a nil return took effect exactly once, on its own process, by a patch or as a no-op on what it read; an error return had no effect; a conflict return read exactly three times |
| `StatusStore.OnlyOwnProcesses` | gateway/server.go:423-425 | at any point of any run a handler's step changes at most the status of a process that belongs to its device at that moment |
| `StatusStore.FreshReadsAreCurrent` | gateway/server.go:418-421 | with reads from the server such a no-op was one on the current object |
| `StatusStore.ConflictIsHarmless` | gateway/server.go:580-585 | at any point of any run a conflicting patch changes no object and emits no event, and its handler gives up exactly when it has read three times |
| `StatusStore.LogOnlyGrows` | gateway/server.go:413-615 | committed effects are never withdrawn or reordered |
| `StatusUpdate.VersionTells` | gateway/server.go:580-585 | an unchanged version means an unchanged object, whatever others wrote |
| `StatusUpdate.Api.TryOnce` | gateway/server.go:417-585 | one attempt: the status computed from the object that was read reaches the store only while that object is unchanged, or nothing does |
| `StatusUpdate.Api.UpdateStatusForObservation` | gateway/server.go:413-615 | the loop ends within three attempts; the store is what others made of it plus, on success only, this observation's transform of the status then stored, with its events; a conflict is returned only after three attempts |
| `Liveness.Gateway.RecordHeartbeat` | gateway/server.go:773-780 | lastSeen is now, and a positive hint is stored |
| `Liveness.Gateway.RecordReport` | gateway/server.go:761-765 | lastReport is now |
| `Liveness.Gateway.MarkProcesses` | gateway/server.go:622-633 | processes are marked along the list up to the first refused patch |
| `Liveness.Gateway.HandleConnect` | gateway/server.go:334-345 | tracker and processes after a connect |
| `Liveness.Gateway.HandleReport` | gateway/server.go:297-329 | tracker and processes after a report: marking only after a silence, observations only after a complete marking |
| `Liveness.Gateway.HandleDesired` | gateway/server.go:379-385 | the hint is settled and lastSeen moves only within the allowance after a report |
| `Liveness.Gateway.MarkStaleDevices` | gateway/server.go:655-684 | the sweep marks the processes of exactly the devices past their allowance, patches permitting |
| `Liveness.MarkAlongMarks` | gateway/server.go:617-636 | when no patch is refused every listed process carries the mark |
| `Liveness.MarkAlongTouches` | gateway/server.go:686-708 | only listed processes change, and only by the mark |
| `Liveness.MarkAlongExact` | gateway/server.go:622-633 | a listed process keeps its status exactly when a patch up to its own is needed and refused, and carries the mark otherwise |
| `Liveness.ObservedConnects` | gateway/server.go:436-437 | a process an observation was applied to reads connected, whether or not it was patched |
| `Liveness.ObservedAlongFacts` | gateway/server.go:312-329 | observations leave other devices' processes alone and never disconnect one |
| `Liveness.ObservedAlongExact` | gateway/server.go:312-329 | a process observed before the report ends reads connected, any other keeps its status |
| `LivenessLaws.HintFixed` | gateway/server.go:379-385 | a positive hint never changes |
| `LivenessLaws.FirstHint` | gateway/server.go:379-385 | the first contact settles the default interval, the first poll 15 seconds |
| `Liveness.Normalize` | gateway/server.go:743-751 | a positive hint, else the default interval in whole seconds, else 15 |
| `LivenessLaws.TrackerInvariant` | gateway/server.go:713-780 | in every reachable state lastSeen and lastReport have the same keys, hints there are positive, and lastReport <= lastSeen <= lastReport + S |
| `LivenessLaws.LastContact` | gateway/server.go:761-765 | lastReport is the time of the device's latest report or connect, and S is unchanged since |
| `LivenessLaws.SilenceIsFound` | gateway/server.go:668-679 | silent on reports for more than 2S: found stale by every sweep however often it polls; reported within S: never |
| `LivenessLaws.SweepExact` | gateway/server.go:655-708 | after a sweep exactly the silent devices' processes read disconnected, all others are untouched |
| `LivenessLaws.SilentUntilContact` | gateway/server.go:713-731 | once stale, a device stays stale and its lastSeen stands still until its next report or connect |
| `LivenessLaws.NextContactReconnects` | gateway/server.go:297-345 | the next report or connect after a stale sweep sets AgentConnected True on every process of the device |
| `LivenessLaws.ContactLeavesExactly` | gateway/server.go:297-345 | exactly when a connect, a report after a silence or any other report leaves a process disconnected |
| `LivenessLaws.TruthfulRunIff` | gateway/server.go:617-708 | AgentConnected False is read only while the device is silent, in every state of a run, if and only if no marking is refused a needed patch at or before a disconnected process and no such reading comes from outside |
| `LivenessLaws.DisconnectedMeansSilent` | gateway/server.go:617-708 | in runs whose patches go through, AgentConnected False is read only while the device is silent |
| `LivenessLaws.RefusedMarkLingers` | gateway/server.go:334-345 | after a refused patch a process stays disconnected through the next report although its device is not silent |
| `LivenessLaws.LingeringIsReachable` | gateway/server.go:334-345 | such a state is reached from an empty tracker, for every device and process |
| `Desired.ComputeItems` | gateway/server.go:352-377 | the device's processes as items, sorted by namespace and name |
| `Desired.HashDesired` | gateway/server.go:810-825 | the ETag of the items |
| `Desired.HandleDesired` | gateway/server.go:251-272 | 304 or the full response, by the If-None-Match header |
| `Desired.OfDeviceFacts` | gateway/server.go:397-411 | exactly the listed processes of the device become items |
| `Desired.ItemsTell` | gateway/server.go:361-369 | a response has, for each stored process of the device and no other, an item with its UID, name, generation, spec and spec hash |
| `Desired.ByName` | gateway/server.go:372-377 | items in the order of namespace and name |
| `Desired.TextUnique` | gateway/server.go:810-823 | the text under the ETag is uniquely decodable: equal texts exactly for equal names, generations and hashes |
| `Desired.ListOrderIrrelevant` | gateway/server.go:372-377 | the response does not depend on the order in which the API server lists |
| `Desired.ETagExact` | gateway/server.go:810-825 | equal ETags exactly for equal namespace, name, generation and spec |
| `Desired.PollingAgent.PollDesired` | agent/main.go:166-235 | the cache and the heartbeat after a poll, and the items reconcile is given |
| `Desired.NotModifiedExactly` | gateway/server.go:262-265 | after every run of polls, creates, updates and deletes, 304 is answered exactly when the cached items equal the current ones |
| `Desired.CacheIsTransparent` | agent/main.go:166-197 | at every poll of every run the agent acts on items equal to the current ones, and acts whenever an agent without a cache would |
| `CachedResponse.ResolveCommand` | agent/main.go:565-598 | the resolved command, in the same slice when absolute and in a new one otherwise; the given slice is untouched |
| `CachedResponse.RenderItem` | agent/main.go:246-348 | an item is rendered with its resolved command and sorted environment, and the cached item says what it said |
| `CachedResponse.RenderAll` | agent/main.go:246-348 | after a pass the cached response is what it was, item by item and slice by slice |
| `Render.RenderExecStart` | agent/main.go:551-562 | the escaped argument line, or an error exactly when an argument holds a newline |
| `Render.EscapeIsOnePass` | agent/main.go:607-611 | escaping backslashes and then quotes is one pass over the characters |
| `Render.QuotedUnique` | agent/main.go:607-611 | a quoted text is uniquely decodable |
| `Render.ExecLineUnique` | agent/main.go:551-562 | equal argument lines come from equal argument vectors |
| `Render.RenderEnvFile` | agent/envfile.go:14-39 | the variables' lines sorted by name, or an error exactly when a name or value is invalid |
| `Render.EnvTextExact` | agent/envfile.go:14-39 | equal environment texts exactly for equal sets of variables |
| `Render.ValidateUnitField` | agent/main.go:617-624 | accepts exactly the values without control characters |
| `Render.RenderUnitFiles` | agent/main.go:514-549 | both texts, or an error exactly for an execution that cannot be rendered |
| `Render.RenderExact` | agent/main.go:514-562 | texts of two renderable executions under one name are equal exactly when argument vector, trimmed directory, trimmed user, restart mode and variables agree |
| `ReadBack.ArgsReadBack` | agent/main.go:551-615 | the rendered command line reads back as the argument vector |
| `ReadBack.EnvReadsBack` | agent/envfile.go:24-36 | the environment file reads back as its variables |
| `ReadBack.FilesReadBack` | agent/main.go:514-549 | read back, the unit has the command and arguments, the trimmed directory and user (absent iff blank), the environment path and the restart mode of the policy, and the environment file the variables sorted by name |
| `Units.SharedUnitExact` | agent/systemd/manager.go:222-245 | for all ASCII names, exactly when two processes share a unit: both bases fit, both are shortened, or one of each |
| `Units.PlainKeysShareExact` | agent/systemd/manager.go:222-245 | clean, unshortened keys share a unit exactly when equal or when one namespace goes on at a dash where the other ends |
| `Units.DashFreeNeverShares` | agent/systemd/manager.go:222-245 | of bases that are not shortened, dash-free sanitized namespaces share a unit only with equal sanitized parts; clean keys only when equal |
| `Units.SanitizedBaseCollides` | agent/systemd/manager.go:222-245 | for all clean parts x, y, z the keys (x-y, z) and (x, y-z) share a unit |
| `Units.SanitizedIsClean` | agent/systemd/manager.go:222-245 | a sanitized name is clean, and sanitizing again changes nothing |
| `Units.PlainBase` | agent/systemd/manager.go:222-245 | clean, unshortened names are joined as they are |
| `Units.PathsDisjoint` | agent/systemd/manager.go:55-63 | distinct bases have distinct unit names and files |
| `Units.SplitItemKey` | agent/main.go:740-746 | splitting undoes joining exactly for non-empty parts and a namespace without a slash |
| `Units.JoinSplitKey` | agent/main.go:740-746 | joining undoes splitting |
| `Units.ItemKeyInjective` | agent/main.go:803-805 | keys of slash-free namespaces are unambiguous |
| `Units.FileSystem.WriteIfChanged` | agent/systemd/manager.go:265-302 | changed exactly when the content differed and the write worked; a failure leaves the old content |
| `Units.FileSystem.RemoveIfExists` | agent/systemd/manager.go:304-312 | the file is gone unless the removal fails, and the result tells whether it was there |
| `Units.FileSystem.EnsureUnit` | agent/systemd/manager.go:72-91 | both files, with an early return on each error |
| `Units.EnsureWrites` | agent/systemd/manager.go:72-91 | without an error both files hold their texts, nothing else changed, and the flags say what did |
| `Units.FileSystem.RemoveUnit` | agent/systemd/manager.go:100-113 | the two files are gone, or those before the first failure |
| `AgentPass.Agent.SettleUnit` | agent/main.go:420-471 | show, at most one drift correction, and the observation |
| `AgentPass.Agent.StartUnit` | agent/main.go:393-419 | a new unit is started, a changed one restarted, an unchanged one left alone |
| `AgentPass.Agent.DriveUnit` | agent/main.go:376-419 | files, daemon-reload, then start or restart |
| `AgentPass.Agent.ReconcileItem` | agent/main.go:246-474 | one turn of the item loop: disk, managed entry, observation, calls |
| `AgentPass.Agent.Reconcile` | agent/main.go:237-511 | the whole pass: items in order, then a cleanup that stops every dropped unit, removes its files after that and reloads, and names only dropped units and files |
| `AgentPass.Agent.CleanupKey` | agent/main.go:480-504 | a dropped key is stopped first, loses exactly its two files, and a removed unit file is followed by a reload |
| `AgentLaws.PassItemResult` | agent/main.go:246-474 | every observation is well formed (started iff healthy iff PID > 0, an error means not started), names its item and hash; an item touches only its own two files |
| `AgentLaws.SettleCalls` | agent/main.go:427-452 | settling acts only on a unit that is not running: restart when active without a process, start otherwise, and stop exactly when that failed |
| `AgentLaws.ItemCallsAreOwn` | agent/main.go:246-474 | an item's pass issues no call on another unit or another unit's files |
| `AgentLaws.PassAccounts` | agent/main.go:258-263 | managed keys are exactly the desired keys with their unit names; one observation per item in order with its hash |
| `AgentLaws.FilesAreDesired` | agent/main.go:476-511 | after any run of passes from an empty disk every file belongs to an item of the last pass |
| `AgentLaws.CleanupSparesItems` | agent/main.go:476-504 | cleanup leaves the files of every desired item as they are |
| `AgentLaws.CleanupSparesUnits` | agent/main.go:476-504 | after any run from an empty state, the next cleanup stops no desired item's unit and removes none of its files |
| `AgentLaws.LiveUnitsAreDesired` | agent/main.go:476-504 | after any run from an empty state every unit started and not stopped since is that of an item of the last pass |
| `AgentLaws.ApartExactly` | agent/systemd/manager.go:222-245 | with the source's names, the distinctness the file laws ask for holds exactly when keys are distinct and none straddles another |
| `AgentLaws.Converges` | agent/main.go:355-474 | after an all-successful pass a second one changes no file, issues no call and reports every item started |
| `AgentLaws.FilesChangeIffMeaningChanged` | agent/main.go:376-391 | over a previous render, a successful write changes a file exactly when the meaning of the execution changed |
| `AgentLaws.RestartBranchExact` | agent/main.go:407-418 | for a managed item with working writes, whatever becomes of its unit: a restart follows the writes and the reload exactly when the meaning changed, and otherwise the item is merely settled |
| `AgentLaws.RestartIffMeaningChanged` | agent/main.go:407-418 | with the unit running, Restart is called exactly when the meaning changed and nothing is done otherwise |
| `AgentLaws.DriftSpacing` | agent/main.go:421-452 | two drift corrections of a key under one spec hash are more than 4 seconds apart in every run |
| `AgentLaws.RateLimitExact` | agent/main.go:642-661 | after an action at t the next is allowed exactly when 5 seconds less the fraction of t have passed |
| `AgentLaws.RateLimitBounds` | agent/main.go:642-661 | 5 seconds are guaranteed exactly when t is a whole second, more than 4 always, and 5 always suffice |
| `AgentMeaning.NewUnitIsStarted` | agent/main.go:396-406 | an unmanaged unit is enabled right after its files; when that fails it is stopped and reported failed |
| `AgentMeaning.FailedFetchStops` | agent/main.go:292-346 | a failed fetch or an unresolvable command stops the unit and touches no file |
| `AgentMeaning.UnrenderableIsRemoved` | agent/main.go:351-374 | an execution that cannot be rendered is stopped, removed and reported |
| `AgentMeaning.FailedWriteStops` | agent/main.go:376-385 | a failed write stops the unit and starts nothing |
| `AgentMeaning.OtherBackendIsLeft` | agent/main.go:271-277 | an unsupported backend is only reported |
| `AgentMeaning.FetchTells` | agent/main.go:279-347 | whatever becomes of the item, its observation reports the fetch field by field, and a warning iff the policy is Never |
| `AgentMeaning.ShownIsReported` | agent/main.go:420-467 | the observation has the PID and start time of the unit state shown last, or says not started |
| `AgentMeaning.NewSpecActsAtOnce` | agent/main.go:649-661 | a stopped unit under a new spec hash is corrected without waiting |
| `AgentMeaning.DiskSaysDesired` | agent/main.go:351-391 | after a successful pass the files on disk read back as what the items asked for |
| `Artifact.Directory.ExtractLayer` | agent/artifact_oci.go:276-344 | succeeds exactly when the whole layer is readable and acceptable; then the directory is its extraction, entry by entry, and the total its size |
| `Artifact.AcceptedExactly` | agent/artifact_oci.go:298-341 | which layers are accepted: entry limit, safe names, files and directories only, no path both, byte limit |
| `Artifact.CompleteIsExtraction` | agent/artifact_oci.go:317-337 | every file holds the content of the last entry of its name, folders are the directory entries and what lies above an entry, and there is nothing else |
| `Artifact.ExtractionUnique` | agent/artifact_oci.go:317-337 | a layer has at most one such tree |
| `Artifact.Directory.Enter` | agent/artifact_oci.go:298-341 | one entry: the file with its content, or the folder, with everything above it; or the reason to stop |
| `Artifact.PathsAreSafe` | agent/artifact_oci.go:303-314 | every extracted path is safe, and is an entry name or its ancestor |
| `Artifact.TotalIsSize` | agent/artifact_oci.go:298-336 | the total is the size of all files, within both limits |
| `Artifact.Fetcher.Download` | agent/artifact_oci.go:134-157 | up to three tries, ending at the first that is not worth retrying |
| `Artifact.Fetcher.Ensure` | agent/artifact_oci.go:107-261 | nil exactly when cached, or when the pinned digest arrives as one acceptable layer, which is then extracted; a failure leaves the published state and has its verdict and attempts |
| `ArtifactStore.ReadyMeansComplete` | agent/artifact_oci.go:99-120 | any number of agents, crashes anywhere: READY and rootfs mean that rootfs is the extraction of an acceptable layer, and a nil return leaves that state |
| `ArtifactStore.PublishedStays` | agent/artifact_oci.go:201-252 | once published, always published, with the same files |
| `ArtifactStore.OneHolder` | agent/artifact_oci.go:99-107 | at most one agent is past the lock |
| `ArtifactStore.Recovers` | agent/artifact_oci.go:201-262 | from every reachable state with a free lock a new agent can publish an acceptable layer |
| `Selectors.OperatorsTell` | controller/reconcilers/deviceprocessdeployment_controller.go:442-450 | the algebra of the operators: In with one value is a matchLabels entry, more values a choice, NotIn and DoesNotExist the negations |
| `Selectors.SelectorsConjoin` | controller/reconcilers/deviceprocessdeployment_controller.go:442-450 | requirements are conjoined, and an empty selector matches everything |
| `Selectors.HasUnsupportedSelector` | controller/reconcilers/deviceprocessdeployment_controller.go:519-530 | true exactly for a selector with NotIn or DoesNotExist |
| `Selectors.SelectorLabelKeys` | controller/reconcilers/deviceprocessdeployment_controller.go:588-607 | the keys the selector mentions, or the sentinel when there are none |
| `Selectors.RequestsForNetworkSwitch` | controller/reconcilers/deviceprocessdeployment_controller.go:407-461 | without duplicates, exactly the matching deployments indexed under a checked key |
| `Selectors.EnqueueRequests` | controller/reconcilers/deviceprocessdeployment_controller.go:463-476 | each request once |
| `Selectors.ChangedLabelKeys` | controller/reconcilers/deviceprocessdeployment_controller.go:478-496 | the keys that read differently on the two sides |
| `Selectors.OnCreateOrDelete` | controller/reconcilers/deviceprocessdeployment_controller.go:113-129 | no duplicates, and for supported selectors exactly the brute-force set |
| `Selectors.LookupExact` | controller/reconcilers/deviceprocessdeployment_controller.go:407-461 | for all selectors, when the index finds a matching deployment and when not |
| `Selectors.AbsenceIsMissed` | controller/reconcilers/deviceprocessdeployment_controller.go:407-461 | a deployment asking for the absence of a label is missed on every switch without it |
| `Selectors.OnUpdate` | controller/reconcilers/deviceprocessdeployment_controller.go:117-125 | each at most once, and each matches the old or the new labels |
| `Selectors.UpdateCovers` | controller/reconcilers/deviceprocessdeployment_controller.go:117-125 | a deployment whose match changes is enqueued when no label is blurred |
| `Selectors.UpdateCoversIff` | controller/reconcilers/deviceprocessdeployment_controller.go:478-496 | all deployments whose match changes are enqueued if and only if no label is absent on one side and empty on the other |
| `Controller.Cluster.ApplyDeviceProcess` | controller/reconcilers/deviceprocessdeployment_controller.go:208-279 | the upsert, and whether it created |
| `Controller.Cluster.CleanupStale` | controller/reconcilers/deviceprocessdeployment_controller.go:285-313 | exactly the owned processes without a desired name are deleted, and counted |
| `Controller.Cluster.UpdateStatus` | controller/reconcilers/deviceprocessdeployment_controller.go:315-388 | the counters over the labelled list; what is computed, and what is stored: the counters, and the conditions only when a type was missing; a patch exactly when a type was missing or a counter or the generation differs |
| `Controller.Cluster.ComputeConditions` | controller/reconcilers/deviceprocessdeployment_controller.go:354-379 | the two marks on the shared slice: the deployment read from the server shows the new list exactly when both types were there |
| `Controller.Cluster.Reconcile` | controller/reconcilers/deviceprocessdeployment_controller.go:134-206 | skipped exactly for a malformed or unsupported selector, else the reconciled store, the created and deleted counts and the stored rollout status |
| `ControllerLaws.MatchedExactly` | controller/reconcilers/deviceprocessdeployment_controller.go:498-517 | the targets are exactly the matching switches |
| `ControllerLaws.OwnedExactly` | controller/reconcilers/deviceprocessdeployment_controller.go:157-190 | after a reconcile the owned processes are exactly one per matched device, each running the template's artifact, execution, restart policy and health check on its device, with the status it had |
| `ControllerLaws.LabelsTell` | controller/reconcilers/deviceprocessdeployment_controller.go:532-551 | each label of the process: copied device label, own three, template, what was there, in that order; and its annotations |
| `ControllerLaws.ForeignIsSpared` | controller/reconcilers/deviceprocessdeployment_controller.go:285-313 | nothing is changed in another namespace, without the label, with another UID label or another controller |
| `ControllerLaws.OthersAreSpared` | controller/reconcilers/deviceprocessdeployment_controller.go:285-313 | processes with another UID label or controller, and those not labelled, stay as they are |
| `ControllerLaws.SecondReconcileIsIdle` | controller/reconcilers/deviceprocessdeployment_controller.go:157-190 | a second reconcile creates, deletes and changes nothing |
| `ControllerLaws.RolloutTells` | controller/reconcilers/deviceprocessdeployment_controller.go:330-388 | stored counters: current = desired = available + unavailable; a stored condition is right (Available True iff there are targets and all are ready, Progressing False iff none or all updated and ready) exactly when a type was missing or it was right before |
| `ControllerLaws.StoredConditionsIff` | controller/reconcilers/deviceprocessdeployment_controller.go:381-388 | the stored conditions are the computed ones exactly when a type was missing or the list did not change |
| `ControllerLaws.FirstVerdictStays` | controller/reconcilers/deviceprocessdeployment_controller.go:354-388 | over any run of reconciles from an empty status the counters are the last ones and both conditions those of the first |
| `ControllerLaws.StuckConditions` | controller/reconcilers/deviceprocessdeployment_controller.go:354-388 | first something not ready, then all ready and updated: the counters say so, Available stays False and Progressing True |
| `ControllerLaws.StuckIsReachable` | controller/reconcilers/deviceprocessdeployment_controller.go:354-388 | one device and two reconciles are enough |
| `ControllerLaws.CountersAreSizes` | controller/reconcilers/deviceprocessdeployment_controller.go:330-346 | the counters are the numbers of ready and of updated processes |
| `ControllerLaws.SecondStatusIsSame` | controller/reconcilers/deviceprocessdeployment_controller.go:381-388 | a second reconcile, whatever the order of its list and however late, finds the status that was stored and patches nothing |
| `ControllerLaws.CountedIsDevice` | controller/reconcilers/deviceprocessdeployment_controller.go:315-346 | every process counted as updated is a device's |
| `ProcessNames.SharedNameExact` | controller/reconcilers/deviceprocessdeployment_controller.go:567-586 | exactly when two devices of two deployments get one process name |
| `ProcessNames.DeploymentsShare` | controller/reconcilers/deviceprocessdeployment_controller.go:567-586 | deployments x-y and x share the process of devices z and y-z |
| `ProcessNames.DistinctNamesExactly` | controller/reconcilers/deviceprocessdeployment_controller.go:567-586 | the names within a deployment are distinct exactly when no two devices clash in lowered name or hash |
| `EndToEnd.UpdatedWasServed` | controller/reconcilers/deviceprocessdeployment_controller.go:315-346 | in every run with reports late, repeated or lost, a process counted as updated carries the hash of exactly the desired spec, and the gateway served that spec under that name to that device at an earlier step |
| `EndToEnd.CountedWasServed` | controller/reconcilers/deviceprocessdeployment_controller.go:330-346 | the same for every process in the updated count, found rather than given |
| `EndToEnd.ServedEarlier` | gateway/server.go:361-369 | what counts as served was in a full response to that device while the process had that spec |
| `EndToEnd.HashAfter` | gateway/server.go:438-446 | an observation leaves the observed hash or sets it to its own |
| `EndToEnd.StatusesCoherent` | agent/main.go:248-474 | in every run of the whole system every status is coherent |

## Left out

- HTTP routing, JSON, body limits, tickers, backoff, server start and shutdown: plumbing.
- Tokens and HMAC checks: access control, not part of the functional core.
- SHA-256, SHA-1 and JSON encoding: injective function parameters (`hash`, `digest`) or free parameters (`nameOf`, the digest in `SanitizedBase`). Names with a slash are excluded where the ETag text is decoded.
- RFC 3339 parsing and formatting: a start time is blank, an instant or malformed; report times are texts.
- resolveCommand: its path cleaning is an input, its result is an input of the pass, and the convergence law asks that it is the same in both passes.
- Registry download, manifest and tar decoding, error classification, jitter: inputs of the fetch. Header names are given as `filepath.Clean` leaves them. File modes are not modelled.
- systemctl execution and output parsing: each call's outcome and each shown unit state is an input of the pass.
- AgentPass.Agent.Reconcile: takes the stops and removals of the cleanup as successful, because the agent drops the key anyway; removals after a render error may fail. The state file is not modelled: the managed map survives from pass to pass.
- AgentPass.Agent.CleanupKey: likewise.
- Render.RenderEnvFile: for two variables with one name it takes the stable order, while the source's sort may take another fixed one; the exact laws ask for distinct, trimmed names.
- Units.SharedUnitExact: lower-casing is modelled for ASCII letters only.
- Power loss: a crash stops an agent between steps but loses no completed file operation; unique names of temporary directories are assumed.
- Artifact.Fetcher.Ensure: assumes that the removals, the rename and the two final writes succeed; `ArtifactStore` covers their failure.
- Gateway restarts: they empty the tracker's maps; the liveness laws are about one gateway life. The tracker's handlers are atomic with one clock reading each.
- Liveness.Gateway.HandleReport: takes each observation's update as atomic, done or ended by an API error; its races and retries are in `StatusStore` and `StatusUpdate`.
- Controller.Cluster.ApplyDeviceProcess: one upsert, as in the path without server-side apply; field ownership and the fallbacks are not modelled.
- Controller.Cluster.Reconcile: API errors inside a reconcile and stale informer caches of the controller are not modelled; a switch kind that is not installed or a deployment that is gone ends it without any effect.
- deviceProcessName: a parameter of the reconcile; `ProcessNames` says when it meets the distinctness the laws ask for. Its DNS check and SHA-1 are parameters. The owned-set laws also ask that selectors leave the controller's own label keys alone, since device labels override those.
- Syntax rules of label keys and values: one predicate parameter. LabelSelectorAsSelector is reduced to its rule on values per operator.
- 32-bit counters: rollout counts are unbounded here.
- The uid of an item and the heartbeat interval are not covered by the ETag, so equality of cached and current items leaves them out.
- Aliasing: statuses, items and stores are values, except where sharing matters: the condition slice of `Conditions.SetConditionShared` and the cached response of `CachedResponse`.
- Fractions of seconds in stored times: only `StatusLaws.ObserveStoredIff` cuts them; elsewhere stored times keep them.
- Generated code, manifests, command-line entry points.

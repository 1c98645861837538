# proj-esp32: verified model of the local-automation and update firmware

The firmware keeps a small automation configuration in flash, runs its one rule and its one
delayed action against virtual inputs and outputs, and installs signed firmware images. This
project models its four connected state machines and proves what they keep over whole runs.

Every source file that changes state step by step appears twice. A class has the source's own
fields and methods, and each method `ensures` that the new state is a named function of the old
one. A datatype holds the same state as a value, and the run-level theorems are about the
functions on it. The history a theorem speaks about (deliveries, firings, durable states, images
selected for boot) is part of the value and a ghost field of the class.

| file | models |
|---|---|
| `event_bus.dfy`, `fsm.dfy` | the 24-slot ring whose handlers post and subscribe; the transition table |
| `configuration_validation.dfy`, `configuration_store.dfy`, `configuration_runs.dfy`, `configuration_laws.dfy` | the two-slot transactional store, over runs with crashes at every durable step, and what its calls do to documents |
| `rule_engine.dfy`, `fault_policy.dfy`, `virtual_components.dfy`, `rule_runtime.dfy`, `persisted_rules.dfy`, `control_loop.dfy`, `fault_recovery.dfy` | input, event, one-shot task, hysteresis rule or fault policy, heater |
| `local_schedule.dfy` | the delayed action |
| `device.dfy`, `device_passes.dfy`, `device_laws.dfy`, `firmware.dfy` | the wiring in `main.cpp`: what runs is what is persisted and what documents say, and passes of its main loop |
| `device_budget.dfy`, `device_limits.dfy` | how much may be posted without loss, and runs in which something is lost |
| `firmware_package.dfy`, `firmware_update.dfy`, `remote_update.dfy` | signed packages, the install session shared by two transports, the worker protocol |
| `update_policy.dfy`, `update_scheduler.dfy`, `update_laws.dfy` | the update policy, the automatic checks, and updates from the form to the boot image |
| `supervisor.dfy` | the component registry and the health summary |
| `prelude.dfy`, `json.dfy`, `identifiers.dfy` | options, 32-bit counters, parsed documents, the identifier rule |

## Main results

- **Crash atomicity** (`ConfigurationRuns.CrashAtomicity`): whatever durable state an apply or
  rollback is interrupted in, the next boot loads exactly the old document or exactly the verified
  new one, without taking a recovery branch. Flash is adversarial: a slot write may leave any text
  and report any length.
- **Revisions** (`ConfigurationRuns.RunsAreSafe`): over any run the active revision is the initial
  one plus the number of commits, without wrapping.
- **An apply commits the candidate** (`ConfigurationLaws.ApplyCommitsCandidate`, `ApplySucceedsIff`,
  `DeviceLaws.ApplyRunsCandidate`): the active document becomes the candidate with the next revision
  and nothing else changed, exactly when the stated conditions hold, and the rule, policy and action
  its members say are the running ones.
- **Boot recovery** (`ConfigurationLaws.BootLoads`, `BootRecovers`, `BootKeepsSlots`,
  `BootCreatesDefaults`): the slot pointed to, else the other one, exactly as stored; a boot that finds
  a usable document leaves both slots alone.
- **Undo** (`ConfigurationRuns.RollbacksAlternate`, `CleanMeansPreviousKept`, `RollbackRestoresIff`).
- **Convergence** (`ControlLoop.RunsConverge`, `NothingRefusedConverges`): in every reachable state in
  which the rule is enabled, nothing relevant waits and the bus has refused no value or health event
  of the input, the heater is where rule, value and fault policy put it.
- **Settling time** (`DevicePasses.DeviceSettles`, `DeviceQuiesces`): after four passes of the main
  loop it is, whatever the other tasks post and whether or not a waiting action becomes due in them;
  five passes without posts of other tasks empty the queue.
- **Nothing is lost within a budget** (`PostingBudget.HeaterSettlesWhenSpaced`): as long as at most
  eight events are posted between two passes, no announcement is lost, over any run from power-on with
  reconfigurations, power failures and restarts, and four passes put the heater where the durable
  active rule wants it.
- **Running is persisted** (`DeviceModel.RunsAreConsistent`, `HeaterObeysUnlessRefused`,
  `WaitingActionIsPersisted`, `DevicePasses.HeaterSettles`): from any flash contents, through
  reconfigurations, power failures and restarts, engine, policy, loader and delayed action are those
  of the durable active document, and four passes put the heater where its rule wants it.
- **Running is what the document says** (`DeviceLaws.RunningIsSaid`, `HeaterSettlesAsSaid`,
  `PersistedRules.ParseFindsWhatIsSaid`, `LocalSchedule.ParseFindsWhatIsSaid`): the same member by
  member, down to the thresholds, the spelled fault policy, `desired_on` and the delay.
- **Faults come and go** (`FaultRecovery.FaultComesAndGoes`, `DeviceLaws.DeviceFaultComesAndGoes`): with
  room in the queue, a value is followed, a fault is answered as the policy says, and a recovery arms
  the rule again, each within four passes and under every policy.
- **Bounded FIFO** (`Events.ProcessIsFifo`): whatever the handlers post and subscribe, every accepted
  event is delivered once, in order, to every handler subscribed by the end of its delivery.
- **Authentic images** (`RemoteUpdate.BothTransportsSelectAuthenticImages`): every image ever
  selected for boot has the `size` and `sha256` of one signed manifest for this device, newer than
  what runs.
- **Genuine images install** (`FirmwareUpdate.PreparedInstallsIff`, `UploadInstallsIff`,
  `UpdateLaws.CheckThenApplyInstallsIff`): where nothing fails, an upload or a remote update selects
  its bytes if and only if the manifest promises them.
- **Policy to check** (`UpdateLaws.FormIsChecked`, `DueCheckRequests`, `RunsStayLocated`): what a policy
  update asks for is what a due check fetches, at the interval it asks for.
- **One worker** (`RemoteUpdate.SplitRunsKeepOneWorkerIff`): over every interleaving of half requests
  and worker steps the protocol holds if and only if no launch that finds the handle set records its
  failure.
- **Scheduler agrees with policy** (`UpdateScheduler.RunsAgreeIff`): after any run, a readable watch
  leaves the timer as the policy demands if and only if no step has put the scheduler to sleep since
  the policy last changed.
- **Checks never install** (`UpdateScheduler.AutomaticChecksNeverInstall`).

## Where the code does not do what is promised

Each is a lemma with the failing family, beside the theorem that holds otherwise.

- The documentation (`docs/architecture.md:341`) says the old slot remains the rollback source. After
  an attempt that failed once its slot write had begun, the inactive slot holds that attempt's
  candidate, and a rollback activates it (`ConfigurationRuns.FailedApplyThenRollback`). Apply one
  document, then another with a pointer write that fails, then roll back: the document first replaced
  is gone (`ConfigurationRuns.ReplacedDocumentLost`). On flash whose writes leave the old text, the new
  one or nothing that parses, a rollback restores the replaced payload if and only if the inactive
  revision is below the active one, or the candidate found there has that payload anyway
  (`ConfigurationRuns.RollbackRestoresIff`).
- The documentation (`docs/configuration.md:24`) says that a boot creates the default document only if
  neither slot is usable. A boot with a pointer above 1 takes slot 0 for the other one and never looks
  at slot 1: a usable document there, with slot 0 unusable, is cleared and the defaults run. On flash
  that keeps what it is given, a boot changes slots although one is usable if and only if this is so
  (`ConfigurationLaws.UsableDocumentLostIff`).
- A value set, or a fault, recovery or disabling of the input, is lost when the event queue has no
  slot for its announcement and nothing relevant waits. The heater then never follows it: under
  SAFE_OFF a lost fault leaves the heater ON through any number of passes
  (`ControlLoop.LostFaultLeavesHeaterOn`, `LostValueNeverSettles`). An announcement leaves something
  relevant waiting if and only if something did before, or a slot is left once the state change has
  been posted (`ControlLoop.HeardIff`), and it is followed within four passes if and only if that is
  so or the heater is right already (`DevicePasses.DeviceFollowsIff`). After any pass, with at most six
  events of others posted since, every announcement is heard (`ControlLoop.HeardAfterPass`). The
  scheduler's tasks post within a pass, so the loss takes the laboratory build, whose endpoints call
  the input and evaluate the rule between two passes: from power-on with any document whose rule is
  enabled, enough such evaluations fill the queue
  (`DeviceLimits.FullQueueIsReachable`, `LostFaultIsReachable`, `LostValueIsReachable`).
- Slot verification compares validity and revision, not bytes. On flash that verifies but reads back
  something else, the running rule and the active document can part
  (`DeviceLimits.RunningCanDifferFromPersisted`); exactly when is `DeviceModel.CommitRunsIff`.
- A remote download that loses its stream leaves the install session open. From then on every check
  fails as busy until the web transport calls an install operation or the device restarts
  (`RemoteUpdate.LostDownloadBlocksRemoteUpdates`); it is the only failure that does so
  (`RemoteUpdate.SessionLeftOpenIff`).
- Two check requests that both pass the first lock before either starts its worker leave a worker
  without a handle, and a third request starts a second one
  (`RemoteUpdate.ConcurrentChecksLoseTheHandle`). A step breaks the protocol if and only if it is a
  launch that finds the handle set and records its failure (`RemoteUpdate.SplitStepKeepsIff`).
- One watch or one due check that cannot read the update policy disarms the scheduler until the
  policy changes (`UpdateScheduler.UnreadableReadDisarms`, `RearmsIff`). These two, and an update whose
  wrapped revision matches an old observation, are the only steps that do
  (`UpdateScheduler.StepSleepsIff`).
- An install call in the boot-validation window leaves the image without a verdict
  (`FirmwareUpdate.InstallCallEndsTheWindow`): it is given up unjudged if and only if a begin of either
  transport comes before any tick that decides (`FirmwareUpdate.VerdictIff`). A tick exactly 2^32 ms
  late decides nothing (`FirmwareUpdate.WrappedTickDecidesNothing`).

## Model

| member | source | states |
|---|---|---|
| `Prelude.Inc32Counts` | include/core/event_bus.h:34-34 | a 32-bit counter shows the true count modulo 2^32 |
| `Identifiers.CheckId` | src/configuration_store.cpp:50-59 | accepts exactly 1 to 48 characters of the allowed alphabet |
| `Fsm.NextIsFirstMatch` | src/rules/rule_runtime.cpp:39-45 | the transition taken is the first matching table entry |
| `Fsm.NoMatch` | src/rules/rule_runtime.cpp:39-45 | an event without an entry changes nothing |
| `Fsm.Machine.constructor` | src/core/supervisor.cpp:10-19 | a machine starts in its initial state, not yet run |
| `Fsm.Machine.AddTransition` | src/core/supervisor.cpp:21-34 | entries are searched in the order they were added |
| `Fsm.Machine.RunMachine` | src/core/supervisor.cpp:36-40 | the first run enters the initial state, later runs nothing |
| `Fsm.Machine.Trigger` | src/core/supervisor.cpp:82-97 | takes the first match and reports the state entered; nothing before the first run |
| `Events.EmptyLedger` | include/core/event_bus.h:27-34 | a new bus satisfies the ledger |
| `Events.FitKeeps` | src/core/event_bus.cpp:17-31 | what is queued of an event is its kind, its value and the first 23 characters of its source |
| `Events.EventBus.constructor` | include/core/event_bus.h:27-34 | a new ring represents the empty bus |
| `Events.EventBus.Subscribe` | src/core/event_bus.cpp:8-15 | the handler joins at the end unless null, full or already there |
| `Events.EventBus.Append` | src/core/event_bus.cpp:23-29 | the ring represents the old sequence with the event at its end |
| `Events.EventBus.Post` | src/core/event_bus.cpp:17-31 | accepts and truncates the source exactly when a slot is free, else counts a drop |
| `Events.EventBus.Take` | src/core/event_bus.cpp:36-38 | removes exactly the oldest event and begins its delivery, with nobody invoked yet |
| `Events.EventBus.Note` | src/core/event_bus.cpp:39-39 | one handler is added to the receivers of the delivery in progress |
| `Events.EventBus.Invoke` | src/core/event_bus.cpp:39-39 | a handler is invoked and then acts on the bus |
| `Events.EventBus.React` | src/core/event_bus.cpp:8-31 | a handler that posts and subscribes acts on the bus in call order |
| `Events.EventBus.Dispatch` | src/core/event_bus.cpp:39-39 | the handler in each slot is invoked in turn, those subscribed meanwhile included |
| `Events.EventBus.Process` | src/core/event_bus.cpp:33-43 | equals taking and delivering events one by one, and returns how many |
| `Events.NothingLeft` | src/core/event_bus.cpp:35-35 | once the queue is empty further processing does nothing |
| `Events.SubscribeKeeps` | src/core/event_bus.cpp:8-15 | subscribing keeps the ledger; a new handler joins while there is room |
| `Events.PostKeeps` | src/core/event_bus.cpp:17-31 | posting keeps the ledger: attempts = accepted + refused, dropped = refused modulo 2^32 |
| `Events.CallsKeeps` | src/core/event_bus.cpp:8-31 | any calls a handler makes keep the ledger and deliver nothing |
| `Events.BeginKeeps` | src/core/event_bus.cpp:36-38 | the event whose delivery begins is the oldest accepted one not yet delivered |
| `Events.InvokeKeeps` | src/core/event_bus.cpp:39-39 | invoking the next handler in line makes the receivers so far the first i + 1 handlers |
| `Events.CallsKeepProgress` | src/core/event_bus.cpp:8-31 | what a handler posts and subscribes leaves the delivery in progress where it is |
| `Events.DeliverKeeps` | src/core/event_bus.cpp:39-39 | a delivery ends once every handler subscribed by then has been invoked exactly once, in subscription order |
| `Events.NextIsOldest` | src/core/event_bus.cpp:35-40 | the event delivered is the oldest accepted one not yet delivered |
| `Events.ProcessIsFifo` | src/core/event_bus.cpp:33-43 | at most `maxEvents` deliveries, in acceptance order, each exactly once, to all handlers, whatever handlers post and subscribe; fewer only if the queue ran empty |
| `ConfigurationValidation.ArrayErrorIsExact` | src/configuration_store.cpp:61-91 | an array passes if and only if it is within the limit, every entry is well formed and ids are pairwise distinct |
| `ConfigurationValidation.DocumentErrorIsExact` | src/configuration_store.cpp:93-117 | a document passes if and only if schema, revision and both arrays are well formed |
| `ConfigurationValidation.ValidateEntryArray` | src/configuration_store.cpp:61-91 | the nested loops find exactly the first error in the source's order |
| `ConfigurationValidation.ValidateDocument` | src/configuration_store.cpp:93-117 | the document check finds exactly the first error |
| `ConfigurationStore.Nvs.constructor` | src/configuration_store.cpp:214-216 | the namespace starts with any contents |
| `ConfigurationStore.Nvs.GetString` | src/configuration_store.cpp:174-179 | reads exactly one slot |
| `ConfigurationStore.Nvs.PutString` | src/configuration_store.cpp:181-186 | touches one slot only, through an arbitrary torn text to an arbitrary stored one |
| `ConfigurationStore.Nvs.PutPointer` | src/configuration_store.cpp:367-370 | the pointer byte changes exactly when 1 is returned |
| `ConfigurationStore.Nvs.Remove` | src/configuration_store.cpp:258-258 | clears one slot or nothing |
| `ConfigurationStore.ParseStored` | src/configuration_store.cpp:119-135 | accepts exactly texts within the size limit that parse and validate, and returns their revision |
| `ConfigurationStore.CanonicalizeCandidate` | src/configuration_store.cpp:137-161 | rejects in the source's order, else the candidate with schema and the next revision, if it fits |
| `ConfigurationStore.ConfigurationStore.constructor` | src/configuration_store.cpp:14-21 | RAM starts not ready, whatever is in flash |
| `ConfigurationStore.ConfigurationStore.SetLifecycleCallbacks` | src/configuration_store.cpp:385-390 | installs both callbacks, or nothing when the lock times out |
| `ConfigurationStore.ConfigurationStore.LoadSlot` | src/configuration_store.cpp:174-179 | the text of a slot and its revision if it passes |
| `ConfigurationStore.ConfigurationStore.PersistSlotVerified` | src/configuration_store.cpp:181-194 | two durable steps on one slot; succeeds exactly when length, validity and revision agree |
| `ConfigurationStore.ConfigurationStore.Begin` | src/configuration_store.cpp:209-267 | recovery: pointer, other slot, defaults, with every durable step in order |
| `ConfigurationStore.ConfigurationStore.CreateDefaults` | src/configuration_store.cpp:250-266 | the default document is written, verified and pointed to, then the other slot cleared |
| `ConfigurationStore.ConfigurationStore.FinishTransaction` | src/configuration_store.cpp:354-381 | validator, slot write, read back, pointer flip, RAM, in this order |
| `ConfigurationStore.ConfigurationStore.Apply` | src/configuration_store.cpp:333-383 | the whole new state, durable trace, error and activation of an apply |
| `ConfigurationStore.ConfigurationStore.Rollback` | src/configuration_store.cpp:392-461 | the same of a rollback |
| `ConfigurationRuns.RevisionsFitIn32Bits` | src/configuration_store.cpp:93-117 | a stored revision is below 2^32 |
| `ConfigurationRuns.WithRevisionStaysValid` | src/configuration_store.cpp:137-161 | setting the revision keeps a document well formed |
| `ConfigurationRuns.TextCarriesRevision` | src/configuration_store.cpp:137-161 | the text about to be written passes every check and carries the next revision |
| `ConfigurationRuns.FailsOrCommits` | src/configuration_store.cpp:333-383 | an operation fails before it touches flash, or is one commit |
| `ConfigurationRuns.CommitIsTransactional` | src/configuration_store.cpp:362-381 | success exactly when the pointer flips, revision + 1, old document kept in the other slot; else active document and RAM stay |
| `ConfigurationRuns.OperationKeeps` | src/configuration_store.cpp:333-461 | every apply and rollback is transactional on adversarial flash |
| `ConfigurationRuns.CommittedText` | src/configuration_store.cpp:354-366 | a committed text passed every check, the validator included |
| `ConfigurationRuns.CrashAtomicity` | src/configuration_store.cpp:181-267 | after a crash at any durable step the next boot loads exactly the old or exactly the new document and takes no recovery branch |
| `ConfigurationRuns.BootEstablishesSafety` | src/configuration_store.cpp:209-267 | a successful boot from any flash contents gives a ready store that mirrors the pointer |
| `ConfigurationRuns.CrashPointKeeps` | src/configuration_store.cpp:362-370 | every interrupted state designates the old document, or the new one at revision + 1 |
| `ConfigurationRuns.StepKeeps` | src/configuration_store.cpp:209-461 | calls, crashes and resets keep safety and move the revision only with the pointer |
| `ConfigurationRuns.RunsAreSafe` | src/configuration_store.cpp:209-461 | over any run: pointer in {0,1}, RAM mirrors it, active revision = initial + commits < 2^32 |
| `ConfigurationRuns.ReadyMeansSafe` | src/configuration_store.cpp:209-461 | from any flash contents, ready implies safe |
| `ConfigurationRuns.RollbackSucceedsIff` | src/configuration_store.cpp:392-461 | on honest flash a rollback succeeds exactly when revision, inactive document, size and validator allow it |
| `ConfigurationRuns.RollbackExchangesPayloads` | src/configuration_store.cpp:392-461 | a rollback exchanges the two payloads at revision + 1 |
| `ConfigurationRuns.ApplyThenRollback` | src/configuration_store.cpp:333-461 | apply then rollback restores the earlier payload at revision + 2 |
| `ConfigurationRuns.RollbacksAlternate` | src/configuration_store.cpp:392-461 | n rollbacks alternate between the same two payloads, one revision each |
| `ConfigurationRuns.CleanMeansPreviousKept` | src/configuration_store.cpp:333-461 | while no attempt failed after starting its slot write, the inactive slot holds the last replaced document |
| `ConfigurationRuns.UnwrittenOrFlipped` | src/configuration_store.cpp:362-370 | without a slot write flash is untouched; a flip leaves the old document in the other slot |
| `ConfigurationRuns.FailedApplyThenRollback` | src/configuration_store.cpp:364-447 | after an apply that failed once it had written, a rollback activates what that apply left in the slot, one revision on |
| `ConfigurationRuns.RunsStayTidy` | src/configuration_store.cpp:333-461 | on plausible flash the inactive slot is unusable, the replaced document, or an uncommitted candidate at the next revision |
| `ConfigurationRuns.PreviousRevisionTells` | src/configuration_store.cpp:285-331 | on plausible flash a usable inactive slot holds the replaced document if and only if its revision is below the active one |
| `ConfigurationRuns.RollbackRestoresIff` | src/configuration_store.cpp:392-461 | after a plausible run a successful rollback restores the replaced payload if and only if the inactive revision is below the active one, or the candidate there has that payload |
| `ConfigurationRuns.ReplacedDocumentLost` | src/configuration_store.cpp:333-461 | an apply, an apply whose pointer write fails, a rollback: the replaced payload is not restored |
| `ConfigurationLaws.StoredIsExact` | src/configuration_store.cpp:119-135 | a stored text passes if and only if it has 1 to 3072 bytes and parses to a well-formed document, whose revision is found |
| `ConfigurationLaws.CanonicalIsStamped` | src/configuration_store.cpp:137-161 | the text an apply writes is the candidate with its revision set and the same payload; there is one if and only if the candidate is well formed and both lengths are legal |
| `ConfigurationLaws.ApplySucceedsIff` | src/configuration_store.cpp:333-383 | on honest flash an apply succeeds if and only if a revision is left, the candidate is well formed, both lengths are legal and the validator accepts what will be written |
| `ConfigurationLaws.ApplyCommitsCandidate` | src/configuration_store.cpp:333-383 | after a successful apply on honest flash the active document is the candidate at the next revision, the replaced one is in the other slot and the pointer has flipped |
| `ConfigurationLaws.ApplyIsRefused` | src/configuration_store.cpp:333-352 | without the lock, before the store is ready or with the last revision in use, an apply changes nothing and says which |
| `ConfigurationLaws.ApplyRejects` | src/configuration_store.cpp:137-161 | a candidate that is not acceptable is rejected with the first error, and nothing is written |
| `ConfigurationLaws.ApplyFails` | src/configuration_store.cpp:354-370 | an acceptable candidate fails for the validator, the slot write, the read back or the pointer write, in this order; only the validator leaves flash untouched |
| `ConfigurationLaws.RollbackReports` | src/configuration_store.cpp:392-461 | a successful rollback flips the pointer and reports itself |
| `ConfigurationLaws.BootNeedsAccess` | src/configuration_store.cpp:209-219 | without the lock or the namespace nothing is loaded or written |
| `ConfigurationLaws.BootLoads` | src/configuration_store.cpp:221-232 | a usable document in the slot pointed to is loaded as it is, and flash is not touched |
| `ConfigurationLaws.BootRecovers` | src/configuration_store.cpp:234-248 | else a usable document in the other slot is loaded and pointed to, both slots unchanged; with the pointer write refused the store is not ready and flash is unchanged |
| `ConfigurationLaws.BootKeepsSlots` | src/configuration_store.cpp:221-248 | no boot that finds a usable document writes or clears a slot, in any state it passes through |
| `ConfigurationLaws.BootCreatesDefaults` | src/configuration_store.cpp:250-266 | when nothing usable is found, honest flash gets schema 1, revision 0 and two empty arrays in slot 0, and slot 1 is cleared |
| `ConfigurationLaws.FailedDefaults` | src/configuration_store.cpp:250-258 | defaults that cannot be verified or pointed to leave the store not ready and pointer and slot 1 as they were |
| `ConfigurationLaws.UsableDocumentLostIff` | src/configuration_store.cpp:224-259 | a boot on honest flash changes slots although one is usable if and only if the pointer is above 1 and only slot 1 is usable |
| `FaultPolicy.PolicyNamesParse` | src/rules/actuator_fault_policy.cpp:5-41 | every policy parses from its own name |
| `FaultPolicy.ParseIsExact` | src/rules/actuator_fault_policy.cpp:16-41 | a value parses to a policy if and only if it is its name, in either case, with any space around it |
| `Rules.OutputFollowsLastCrossing` | src/rules/rule_engine.cpp:71-113 | over any inputs the output is ON exactly when the last threshold crossed was onBelow, or none was and it started ON |
| `Rules.ConfiguresIff` | src/rules/rule_engine.cpp:24-43 | a rule is taken if and only if its id is valid and its thresholds leave a band, and otherwise the one in force stays |
| `Rules.DecisionsAreAnnounced` | src/rules/rule_engine.cpp:93-112 | a decision says how the output changes, is counted, and is posted once with the rule's id and its code |
| `Rules.IdleEvaluations` | src/rules/rule_engine.cpp:76-91 | an evaluation that computes nothing leaves output, counter and queue alone |
| `Rules.RuleEngine.constructor` | src/rules/rule_engine.cpp:10-13 | starts unconfigured |
| `Rules.RuleEngine.Configure` | src/rules/rule_engine.cpp:24-43 | accepts exactly valid ids with a finite dead band, else changes nothing |
| `Rules.RuleEngine.Clear` | src/rules/rule_engine.cpp:45-54 | back to the unconfigured state |
| `Rules.RuleEngine.EvaluateInput` | src/rules/rule_engine.cpp:71-113 | decision, counters and announcement of an evaluation |
| `VirtualComponents.PostChanges` | src/components/virtual_input_component.cpp:38-55 | a change of state is posted first, then one of health |
| `VirtualComponents.ValueIsTaken` | src/components/virtual_input_component.cpp:58-67 | a finite value makes the input READY and healthy with that value and is announced last; any other changes nothing |
| `VirtualComponents.MilliIsClose` | src/components/virtual_input_component.cpp:63-63 | a value in thousandths is off by less than one, toward zero |
| `VirtualComponents.RecoveryHealsInput` | src/components/virtual_input_component.cpp:77-83 | recovery makes an input with a value READY with OK health and keeps the value; one without is disabled |
| `VirtualComponents.FaultCodeIsGiven` | src/components/virtual_input_component.cpp:69-75 | a fault code is the text given without the space around it, or `virtual_fault` if nothing is left |
| `VirtualComponents.TransitionPosts` | src/components/virtual_input_component.cpp:48-55 | a change of state and a change of health are posted in this order, each only if there is one |
| `VirtualComponents.CodesAreDistinct` | src/components/virtual_input_component.cpp:21-28 | distinct states are announced with distinct codes |
| `VirtualComponents.CommandsSwitch` | src/components/virtual_actuator_component.cpp:55-67 | a command puts an enabled actuator ON or OFF as it says, and a disabled one refuses it |
| `VirtualComponents.VirtualInputComponent.constructor` | src/components/virtual_input_component.cpp:9-11 | starts DISABLED without a value |
| `VirtualComponents.VirtualInputComponent.Begin` | src/components/virtual_input_component.cpp:13-19 | resets state, health and value flag without announcing |
| `VirtualComponents.VirtualInputComponent.TransitionTo` | src/components/virtual_input_component.cpp:30-56 | announces a changed state, then a changed health |
| `VirtualComponents.VirtualInputComponent.SetValue` | src/components/virtual_input_component.cpp:58-67 | refuses non-finite values, else value, OK health and the value event last |
| `VirtualComponents.VirtualInputComponent.InjectFault` | src/components/virtual_input_component.cpp:69-75 | FAULT with the trimmed code or `virtual_fault` |
| `VirtualComponents.VirtualInputComponent.Recover` | src/components/virtual_input_component.cpp:77-83 | READY and OK with a value, DISABLED without |
| `VirtualComponents.VirtualInputComponent.Disable` | src/components/virtual_input_component.cpp:85-88 | forgets that there is a value |
| `VirtualComponents.VirtualActuatorComponent.constructor` | src/components/virtual_actuator_component.cpp:7-9 | starts DISABLED |
| `VirtualComponents.VirtualActuatorComponent.Begin` | src/components/virtual_actuator_component.cpp:11-16 | DISABLED without announcing |
| `VirtualComponents.VirtualActuatorComponent.TransitionTo` | src/components/virtual_actuator_component.cpp:27-53 | announces a changed state, then a changed health |
| `VirtualComponents.VirtualActuatorComponent.Enable` | src/components/virtual_actuator_component.cpp:55-57 | ON or OFF with OK health |
| `VirtualComponents.VirtualActuatorComponent.ApplyDesired` | src/components/virtual_actuator_component.cpp:63-67 | refused exactly while DISABLED |
| `RuleExecution.RunTableGives` | src/rules/rule_runtime.cpp:39-45 | the transition each state makes on each event |
| `RuleExecution.RuleRuntime.constructor` | src/rules/rule_runtime.cpp:11-37 | wired to its bus, engine, input and output, DISABLED, task idle |
| `RuleExecution.RuleRuntime.Begin` | src/rules/rule_runtime.cpp:47-58 | subscribes, enters the initial state, checks eligibility |
| `RuleExecution.RuleRuntime.Trigger` | src/rules/rule_runtime.cpp:60-75 | the mirror of the state follows the machine |
| `RuleExecution.RuleRuntime.RefreshEligibility` | src/rules/rule_runtime.cpp:90-117 | disarms and cancels, or arms, as rule, policy and health say |
| `RuleExecution.RuleRuntime.SetFaultPolicy` | src/rules/rule_runtime.cpp:85-88 | stores the policy and rechecks eligibility |
| `RuleExecution.RuleRuntime.Schedule` | src/rules/rule_runtime.cpp:145-164 | one queued task: a further request is coalesced |
| `RuleExecution.RuleRuntime.RequestEvaluation` | src/rules/rule_runtime.cpp:119-164 | counts, rejects, coalesces or schedules a request; accepted exactly when it is not rejected |
| `RuleExecution.RuleRuntime.HandleEvent` | src/rules/rule_runtime.cpp:166-181 | only value and health events of the source request an evaluation |
| `RuleExecution.RuleRuntime.ActOnPolicy` | src/rules/rule_runtime.cpp:222-236 | a policy commands the output, raises the alarm or leaves both |
| `RuleExecution.RuleRuntime.ExecutePolicy` | src/rules/rule_runtime.cpp:201-242 | the callback on an unhealthy input |
| `RuleExecution.RuleRuntime.EvaluateNow` | src/rules/rule_runtime.cpp:253-257 | one evaluation with the current value and output |
| `RuleExecution.RuleRuntime.ActOn` | src/rules/rule_runtime.cpp:259-271 | applies a decision or counts a rejection |
| `RuleExecution.RuleRuntime.ExecuteRule` | src/rules/rule_runtime.cpp:244-280 | the callback on a healthy input |
| `RuleExecution.RuleRuntime.ExecuteEvaluation` | src/rules/rule_runtime.cpp:187-280 | the whole callback |
| `RuleExecution.RuleRuntime.FireTask` | src/rules/rule_runtime.cpp:183-185 | a queued one-shot task runs once and is disabled when it returns |
| `PersistedRules.ParsedRulesConfigure` | src/rules/persisted_rule_loader.cpp:19-107 | a rule the loader accepts always passes the engine's checks and has a dead band |
| `PersistedRules.EntrySays` | src/rules/persisted_rule_loader.cpp:44-107 | an entry gives a rule and a policy if and only if its members say them: type, input, output, id, two numbers with a band, `enabled`, and the spelled `fault_policy` or SAFE_OFF |
| `PersistedRules.ParseFindsWhatIsSaid` | src/rules/persisted_rule_loader.cpp:19-107 | a document gives a rule and a policy if and only if its single entry says them, and none if and only if it lists none |
| `PersistedRules.RuleRoundTrip` | src/rules/persisted_rule_loader.cpp:19-107 | every rule the engine takes, under every policy, comes back from the document that writes it |
| `PersistedRules.ActivatesIff` | src/rules/persisted_rule_loader.cpp:147-165 | an activation succeeds if and only if the document parses and has the revision it is activated as; otherwise the loop stays as it is |
| `PersistedRules.AppliedRuns` | src/rules/persisted_rule_loader.cpp:117-145 | an accepted parse leaves its rule, policy and revision in force, or none under SAFE_OFF |
| `PersistedRules.ParseRule` | src/rules/persisted_rule_loader.cpp:44-107 | checks of one rule entry in the source's order |
| `PersistedRules.ParseDocument` | src/rules/persisted_rule_loader.cpp:19-107 | error, no rule, or exactly one rule |
| `PersistedRules.PersistedRuleLoader.constructor` | include/rules/persisted_rule_loader.h:11-41 | nothing loaded, SAFE_OFF |
| `PersistedRules.PersistedRuleLoader.ApplyNothing` | src/rules/persisted_rule_loader.cpp:117-131 | clears the engine and falls back to SAFE_OFF |
| `PersistedRules.PersistedRuleLoader.ApplyRule` | src/rules/persisted_rule_loader.cpp:133-145 | configures, sets the policy, rechecks, requests one evaluation |
| `PersistedRules.PersistedRuleLoader.ActivateDocument` | src/rules/persisted_rule_loader.cpp:147-165 | parse, compare the revision, apply |
| `ControlLoop.RequestQueues` | src/rules/rule_runtime.cpp:119-164 | a request on an enabled rule queues the task, or disarms it when the policy suspends it |
| `ControlLoop.DispatchedOnce` | src/core/event_bus.cpp:39-39 | every handler is called once, in order, and so the runtime handles the event exactly once |
| `ControlLoop.HandledNextIs` | src/core/event_bus.cpp:35-41 | what handling one event changes, and that the loop stays sound |
| `ControlLoop.TransitionAnnounces` | src/components/virtual_input_component.cpp:30-56 | a change of health is queued exactly when a slot is left after the change of state, and otherwise refused |
| `ControlLoop.InputStepSound` | src/components/virtual_input_component.cpp:58-88 | input calls keep the loop sound; what they announce waits or has been refused |
| `ControlLoop.HeardIff` | src/components/virtual_input_component.cpp:58-88 | after an input call something relevant waits if and only if it did before, or a slot is left for the announcement |
| `ControlLoop.FiredSettles` | src/rules/rule_runtime.cpp:187-280 | a fired task leaves the heater as rule, value, health and policy demand and posts at most two irrelevant events |
| `ControlLoop.FiredPolicySettles` | src/rules/rule_runtime.cpp:201-242 | on an unhealthy input nothing is evaluated, and three policies leave the heater alone |
| `ControlLoop.FiredRuleSettles` | src/rules/rule_runtime.cpp:244-280 | on a healthy input exactly one evaluation, of the newest value, drives the heater |
| `ControlLoop.ActivateSettles` | src/rules/persisted_rule_loader.cpp:117-165 | a successful activation queues an evaluation or suspends the rule; a failed one changes nothing |
| `ControlLoop.WatchKeepsConverging` | src/rules/rule_runtime.cpp:90-280 | every step keeps: something relevant waits, the last announcement was refused, or the heater is settled |
| `ControlLoop.RunsConverge` | src/rules/rule_runtime.cpp:90-280 | in every reachable state with nothing relevant waiting and no announcement refused, the heater is settled |
| `ControlLoop.LostMeansRefused` | src/core/event_bus.cpp:18-21 | an announcement is lost only if the bus has refused a relevant event since the start of the run |
| `ControlLoop.NothingRefusedConverges` | src/rules/rule_runtime.cpp:90-280 | over a run in which the bus refuses no relevant event, the heater is settled whenever nothing relevant waits |
| `ControlLoop.StepSound` | src/rules/rule_runtime.cpp:90-280 | never EVALUATING between steps, pending = task queued, queued implies ARMED |
| `ControlLoop.RunSound` | src/rules/rule_runtime.cpp:90-280 | the same over runs |
| `ControlLoop.PassDrains` | src/main.cpp:1196-1197 | a pass brings every relevant event eight places nearer the head, whatever is posted behind it |
| `ControlLoop.PassesReach` | src/main.cpp:1196-1197 | after four passes nothing that was relevant at the start still waits |
| `ControlLoop.FivePassesQuiesce` | src/main.cpp:1196-1197 | five passes empty the queue and idle the task, from any state, unless other tasks post more than two events in a pass |
| `ControlLoop.SettlesWithinFourPasses` | src/main.cpp:1196-1197 | four or more passes after the last outside influence the heater is settled, whatever other tasks post |
| `ControlLoop.AsleepStaysAsleep` | src/main.cpp:1196-1197 | with nothing relevant waiting, passes change neither heater nor runtime, whatever other tasks post |
| `ControlLoop.LostValueNeverSettles` | src/core/event_bus.cpp:18-21 | a value set while the queue is full of other events is never followed |
| `ControlLoop.FollowedIff` | src/main.cpp:1196-1197 | an input call is followed within four passes if and only if something relevant waited, a slot is left for its announcement, or the heater is right already |
| `ControlLoop.UnheardChangesNothing` | src/core/event_bus.cpp:18-21 | an announcement without a slot while nothing relevant waits is refused, and no pass moves heater or runtime |
| `ControlLoop.LostFaultLeavesHeaterOn` | src/core/event_bus.cpp:18-21 | a fault injected while the queue is full of other events leaves a heater under SAFE_OFF ON through any number of passes |
| `ControlLoop.HeardAfterPass` | src/main.cpp:1196-1197 | after a pass, with at most six events of others posted since, every input call that announces something is heard |
| `ControlLoop.RunsKeepBooks` | src/rules/rule_runtime.cpp:119-280 | requests = scheduled + coalesced + rejected; scheduled = fired + cancelled + queued; counters modulo 2^32 |
| `ControlLoop.OnlyFiringEvaluates` | src/rules/rule_runtime.cpp:183-280 | only a firing evaluates, once, whatever came between two firings |
| `ControlLoop.FaultsAreIsolated` | src/rules/rule_runtime.cpp:201-242 | while the input is unhealthy nothing is evaluated; under three policies the heater ends as it began |
| `ControlLoop.LoopKeepsConfiguration` | src/main.cpp:1196-1197 | no loop step but an activation changes rule, policy or loader |
| `ControlLoop.RunKeepsConfiguration` | src/main.cpp:1196-1197 | nor does any run without an activation |
| `ControlLoop.RuleSurvivesFault` | src/rules/rule_runtime.cpp:90-242 | through an unhealthy segment without an activation nothing is evaluated, rule, policy and loader stay, and under three policies the heater too |
| `ControlLoop.RecoveryRearms` | src/rules/rule_runtime.cpp:90-117 | handling the recovery event re-arms the unchanged rule and queues an evaluation |
| `FaultRecovery.FiredRuleCounts` | src/rules/rule_runtime.cpp:244-280 | on a healthy input a firing completes one evaluation and counts nothing else |
| `FaultRecovery.FiredPolicyCounts` | src/rules/rule_runtime.cpp:201-242 | on an unhealthy one it counts a policy action, under ALARM_ONLY an alarm, under DISABLE_RULE a rejection |
| `FaultRecovery.ValueIsFollowed` | src/components/virtual_input_component.cpp:58-67 | a value set while there is room is followed within four passes, the rule armed |
| `FaultRecovery.FaultIsAnswered` | src/components/virtual_input_component.cpp:69-75 | a fault injected while there is room is answered within four passes as the policy says, value kept |
| `FaultRecovery.DisablingIsAnswered` | src/components/virtual_input_component.cpp:85-88 | so is the disabling of the input, which forgets that there is a value |
| `FaultRecovery.RecoveryIsFollowed` | src/components/virtual_input_component.cpp:77-83 | a recovery while there is room arms the rule again under every policy, DISABLE_RULE included, and the heater follows the value |
| `FaultRecovery.FaultComesAndGoes` | src/components/virtual_input_component.cpp:58-83 | value, fault, recovery, four or more passes after each: the heater follows the value, then the policy, then the value again, rule and policy unchanged |
| `ControlLoop.LoopProcessesLikeBus` | src/core/event_bus.cpp:33-43 | seen from the bus the loop processes events as the FIFO theorem describes |
| `LocalSchedule.ScheduleTableGives` | src/schedules/local_schedule_service.cpp:43-53 | the transition each state makes on each event |
| `LocalSchedule.ActivateKeepsLedger` | src/schedules/local_schedule_service.cpp:138-190 | activation keeps the ledger and fires nothing |
| `LocalSchedule.FireKeepsLedger` | src/schedules/local_schedule_service.cpp:196-211 | a firing keeps the ledger and is the waiting action's |
| `LocalSchedule.ActivationReplaces` | src/schedules/local_schedule_service.cpp:138-190 | an accepted activation cancels what waited and waits exactly for its own enabled action |
| `LocalSchedule.EntrySays` | src/schedules/local_schedule_service.cpp:92-129 | an entry gives an action if and only if its members say id, type, target, `enabled`, `desired_on` and a delay of at most a day |
| `LocalSchedule.ParseFindsWhatIsSaid` | src/schedules/local_schedule_service.cpp:72-130 | a document gives an action if and only if its single entry says it, and none if and only if it lists none |
| `LocalSchedule.RefusedActivation` | src/schedules/local_schedule_service.cpp:142-145 | a refused document changes nothing, whatever was waiting |
| `LocalSchedule.FiringIsAnswered` | src/schedules/local_schedule_service.cpp:196-211 | a waiting action fires once, and is completed if and only if the output takes the command |
| `LocalSchedule.ScheduleRunsKeepLedger` | src/schedules/local_schedule_service.cpp:138-211 | WAITING = queued, never FIRING; armed = completed + failed + cancelled + waiting; each arming fires at most once, with the latest action |
| `LocalSchedule.ParseScheduleObject` | src/schedules/local_schedule_service.cpp:92-130 | checks of one entry in the source's order |
| `LocalSchedule.ParseDocument` | src/schedules/local_schedule_service.cpp:72-130 | error, no action, or exactly one |
| `LocalSchedule.AddTransitions` | src/schedules/local_schedule_service.cpp:43-53 | the transitions in the source's order |
| `LocalSchedule.LocalScheduleService.constructor` | src/schedules/local_schedule_service.cpp:29-41 | DISABLED, nothing configured |
| `LocalSchedule.LocalScheduleService.Begin` | src/schedules/local_schedule_service.cpp:55-59 | enters the initial state |
| `LocalSchedule.LocalScheduleService.Enter` | src/schedules/local_schedule_service.cpp:43-53 | the machine moves as the table says |
| `LocalSchedule.LocalScheduleService.Trigger` | src/schedules/local_schedule_service.cpp:61-70 | the mirror follows the machine |
| `LocalSchedule.LocalScheduleService.Arm` | src/schedules/local_schedule_service.cpp:170-189 | leaves WAITING first if need be, then arms once |
| `LocalSchedule.LocalScheduleService.ActivateDocument` | src/schedules/local_schedule_service.cpp:138-190 | cancels, loads, arms or disables; a refused document changes nothing |
| `LocalSchedule.LocalScheduleService.FireTask` | src/schedules/local_schedule_service.cpp:192-211 | one firing of the waiting action, completed or failed as the output answers |
| `DeviceModel.ActivationRuns` | src/main.cpp:311-321 | activating an executable document makes rule, policy, loader and action its own |
| `DeviceModel.CommittedIsExecutable` | src/main.cpp:305-309 | a committed document passed both semantic validators |
| `DeviceModel.SetUpIsWired` | src/main.cpp:1097-1110 | what set-up leaves before the first activation is a sound, idle loop |
| `DeviceModel.ColdOutputsAreOff` | src/main.cpp:1105-1109 | before the first activation both outputs are OFF and the input has no value |
| `DeviceModel.BootIsConsistent` | src/main.cpp:1090-1121 | set-up from any flash contents establishes the invariant |
| `DeviceModel.StepIsConsistent` | src/main.cpp:305-321 | every device step keeps: running is persisted, and the loop converges |
| `DeviceModel.RunsAreConsistent` | src/main.cpp:305-321 | the same from power-on over any run with reconfigurations, power failures and restarts |
| `DeviceModel.HeaterObeysPersistedRule` | src/main.cpp:305-321 | whenever ready and asleep, with the last announcement not refused, the heater is where the durable active rule puts it |
| `DeviceModel.RunsStayOnRecord` | src/core/event_bus.cpp:18-21 | on a device an announcement is lost only if the bus has refused a relevant event since the last boot |
| `DeviceModel.HeaterObeysUnlessRefused` | src/main.cpp:305-321 | the same as long as the bus has refused no relevant event since the last boot |
| `DeviceModel.RunsKeepDeviceScheduleLedger` | src/schedules/local_schedule_service.cpp:138-211 | the delayed-action ledger over device runs |
| `DeviceModel.WaitingActionIsPersisted` | src/schedules/local_schedule_service.cpp:138-190 | an action waiting to fire is the enabled action of the durable active document |
| `DeviceModel.ActivationRunsIff` | src/main.cpp:311-321 | an activation leaves the document running if and only if it is executable or replaces nothing |
| `DeviceModel.CommitRunsIff` | src/configuration_store.cpp:181-194 | after a commit running is persisted if and only if what reads back is executable or replaces nothing |
| `MainProgram.ValidatePersistedConfiguration` | src/main.cpp:305-309 | accepts exactly documents that both parsers accept |
| `DevicePasses.PassIsLoopPass` | src/main.cpp:1196-1197 | a pass of the device is a pass of its control loop in which the delayed action, if it is due, is one more task that posts |
| `DevicePasses.ActionFiresWhenDue` | src/schedules/local_schedule_service.cpp:170-211 | a waiting action waits through any passes in which it is not due, and fires once in the first in which it is; then the output, unless disabled, is where the action wants it |
| `DevicePasses.DeviceSettles` | src/main.cpp:1196-1197 | four or more passes after the last outside influence the heater is settled, whatever other tasks post and whether or not a waiting action becomes due in them |
| `DevicePasses.DeviceQuiesces` | src/main.cpp:1196-1197 | five passes without further posts of other tasks empty the queue and idle the task, in whichever of them a waiting action becomes due |
| `DevicePasses.HeaterSettles` | src/main.cpp:1196-1197 | on a device that has run from power-on in any way, with no announcement refused, four passes, a waiting action due in them or not, put the heater where the durable active rule wants it |
| `DevicePasses.DeviceFollowsIff` | src/main.cpp:1196-1197 | an input call on the device is followed within four passes if and only if something relevant waited, a slot is left, or the heater is right already |
| `DevicePasses.PassIsRun` | src/main.cpp:1196-1197 | a pass of the main loop, with the delayed action due or not, is a run of device steps |
| `DevicePasses.PassesAreRuns` | src/main.cpp:1196-1197 | the same of any number of passes |
| `DeviceLaws.RunningIsSaid` | src/main.cpp:305-321 | over any run from power-on, rule, policy and action are what the members of the active document say, if both validators accept it |
| `DeviceLaws.ApplyRunsCandidate` | src/main.cpp:311-321 | an apply that succeeds on honest flash makes what the candidate's members say the running rule, policy and action; an enabled action waits |
| `DeviceLaws.HeaterSettlesAsSaid` | src/main.cpp:1196-1197 | after any run with no announcement lost, four passes put the heater where the thresholds and the fault policy of the active document's entry want it |
| `DeviceLaws.DeviceFaultComesAndGoes` | src/main.cpp:1196-1197 | value, fault and recovery on the device, four passes of its main loop after each, whatever other tasks post: followed, answered as the policy says, followed again |
| `PostingBudget.InputPosts` | src/components/virtual_input_component.cpp:30-88 | an input call with room for its posts has none of them refused |
| `PostingBudget.StepKeepsLevel` | src/main.cpp:1196-1197 | every device step keeps: no announcement lost, and the queue within the level read off the steps |
| `PostingBudget.BudgetKeepsAll` | src/main.cpp:1196-1197 | over any run from power-on whose input calls stay within the budget no announcement is lost |
| `PostingBudget.HeaterSettlesWithinBudget` | src/main.cpp:1196-1197 | after such a run four passes put the heater where the durable active rule wants it |
| `PostingBudget.PassLevels` | src/main.cpp:1196-1197 | a pass leaves at most sixteen events, from any level |
| `PostingBudget.HeaterSettlesWhenSpaced` | src/main.cpp:1196-1197 | the same for any run with at most eight events posted between two passes |
| `PostingBudget.SetUpLeavesRoom` | src/main.cpp:1097-1109 | set-up leaves the queue within that budget |
| `DeviceLimits.EvaluatingAgainHolds` | src/main.cpp:940-963 | the laboratory endpoint, on a settled loop, posts exactly one HOLD event and commands nothing new |
| `DeviceLimits.FullQueueIsReachable` | src/core/event_bus.cpp:18-21 | from power-on with any document whose rule is enabled and any irrelevant event, a run leads to a settled loop with a queue full of such events and an idle task |
| `DeviceLimits.LostFaultIsReachable` | src/core/event_bus.cpp:18-21 | filled with HOLD events, the queue loses a fault, and under SAFE_OFF the heater stays ON through any number of passes |
| `DeviceLimits.LostValueIsReachable` | src/core/event_bus.cpp:18-21 | filled with HOLD events, the queue loses a value below onBelow, and the heater never follows it |
| `DeviceLimits.DemoBoots` | src/main.cpp:1090-1121 | a device with a one-rule document in flash boots into it, its rule enabled |
| `DeviceLimits.RunningCanDifferFromPersisted` | src/configuration_store.cpp:181-194 | from that device an apply that succeeds and reads back a two-rule document leaves the old rule running beside an active document without one |
| `MainProgram.Firmware.constructor` | src/main.cpp:64-83 | the global objects, wired to one bus |
| `MainProgram.Firmware.SetUp` | src/main.cpp:1090-1121 | set-up equals the boot of the device specification, from the store to the supervisor's first announcement |
| `MainProgram.Firmware.BeginSupervisor` | src/main.cpp:1121-1121 | the supervisor's first announcement is a post of another component |
| `MainProgram.Firmware.StartComponents` | src/main.cpp:1097-1110 | handlers subscribed, components begun, both outputs enabled OFF |
| `MainProgram.Firmware.SetValue` | src/components/virtual_input_component.cpp:58-67 | is the set-value step of the device |
| `MainProgram.Firmware.InjectFault` | src/components/virtual_input_component.cpp:69-75 | is the fault step of the device |
| `MainProgram.Firmware.Recover` | src/components/virtual_input_component.cpp:77-83 | is the recovery step of the device |
| `MainProgram.Firmware.DisableInput` | src/components/virtual_input_component.cpp:85-88 | is the disable step of the device |
| `MainProgram.Firmware.CallHandler` | src/core/event_bus.cpp:39-39 | one handler is invoked; only the rule runtime reacts |
| `MainProgram.Firmware.Dispatch` | src/core/event_bus.cpp:39-39 | the handler loop with the real handlers |
| `MainProgram.Firmware.ProcessEvents` | src/core/event_bus.cpp:33-43 | equals handling up to max events one by one |
| `MainProgram.Firmware.ExecuteScheduler` | src/main.cpp:1196-1196 | the rule task, the delayed action if it is due, then whatever the other tasks post |
| `MainProgram.Firmware.Pass` | src/main.cpp:1196-1197 | is the pass the settling theorems are about: scheduler, then up to eight events |
| `MainProgram.Firmware.ActivatePersistedConfiguration` | src/main.cpp:311-321 | loader, then schedule service, with the same document |
| `MainProgram.Firmware.CallBack` | src/configuration_store.cpp:376-381 | what a commit activates reaches loader and schedule service, and nothing does otherwise |
| `MainProgram.Firmware.Apply` | src/configuration_store.cpp:333-383 | an apply and its lifecycle callback are one device step |
| `MainProgram.Firmware.Rollback` | src/configuration_store.cpp:392-461 | a rollback and its lifecycle callback are one device step |
| `FirmwarePackage.CheckToken` | src/firmware_package_verifier.cpp:17-29 | accepts exactly 1 to maxLength safe characters |
| `FirmwarePackage.DigestRoundTrip` | src/firmware_package_verifier.cpp:31-47 | parsing undoes writing a digest in hexadecimal |
| `FirmwarePackage.ParsedDigestIsWritten` | src/firmware_package_verifier.cpp:31-47 | what parses is the hexadecimal form of the result, in either case |
| `FirmwarePackage.ParseSha256` | src/firmware_package_verifier.cpp:38-47 | fills the buffer exactly when 64 hexadecimal characters are given |
| `FirmwarePackage.InspectionIsExact` | src/firmware_package_verifier.cpp:126-221 | a package is accepted, with some metadata, if and only if sizes are right, it is signed, and its members say these metadata for this device |
| `FirmwarePackage.FieldsSay` | src/firmware_package_verifier.cpp:147-217 | the metadata of an accepted manifest are its own members: schema, model, hardware revision, version, build, channel, size, digest |
| `FirmwarePackage.DescribedOnce` | src/firmware_package_verifier.cpp:126-221 | the metadata a manifest describes are unique |
| `FirmwarePackage.DescribedIsPromised` | src/firmware_package_verifier.cpp:126-221 | a manifest promises an image if and only if the image has the size and digest of what it describes |
| `FirmwarePackage.PackageVerifier.constructor` | src/firmware_package_verifier.cpp:15-15 | nothing prepared |
| `FirmwarePackage.PackageVerifier.Clear` | src/firmware_package_verifier.cpp:114-116 | nothing prepared |
| `FirmwarePackage.PackageVerifier.CheckFields` | src/firmware_package_verifier.cpp:147-207 | field checks in the source's order |
| `FirmwarePackage.PackageVerifier.Prepare` | src/firmware_package_verifier.cpp:126-221 | keeps the metadata of an accepted package and nothing of a refused one |
| `FirmwareUpdate.PrepareKeeps` | src/update_service.cpp:206-232 | preparing keeps streaming and trust, and changes nothing while RECEIVING |
| `FirmwareUpdate.BeginKeeps` | src/update_service.cpp:234-267 | beginning keeps both; a second begin fails and closes the session |
| `FirmwareUpdate.WriteKeeps` | src/update_service.cpp:269-298 | a chunk is appended to flash, hash and count alike, or the session fails, also when the size check wraps |
| `FirmwareUpdate.FinishKeeps` | src/update_service.cpp:300-336 | only a finish selects, and exactly the bytes in flash |
| `FirmwareUpdate.UpdateStepKeeps` | src/update_service.cpp:94-425 | every step keeps: RECEIVING = session open, hash and count describe what was streamed, selections authentic |
| `FirmwareUpdate.RunsSelectAuthenticImages` | src/update_service.cpp:206-336 | over any interleaving every selected image has the size and sha256 that some signed manifest for this device gives |
| `FirmwareUpdate.WritesConcatenate` | src/update_service.cpp:269-298 | chunks are concatenated while they fit, else the session fails |
| `FirmwareUpdate.InstallSucceedsIff` | src/update_service.cpp:234-336 | however cut into chunks, an install selects the bytes if and only if size and digest match |
| `FirmwareUpdate.PreparedInstallsIff` | src/update_service.cpp:206-336 | from manifest to boot image: an install of a prepared manifest selects the bytes if and only if the size and sha256 members of that manifest are theirs |
| `FirmwareUpdate.BeginOpensIff` | src/update_service.cpp:234-267 | a begin opens a session if and only if a prepared package fits, no session is open and hash and library start; otherwise the update has failed |
| `FirmwareUpdate.ChunkIsTakenIff` | src/update_service.cpp:269-298 | a chunk is taken if and only if all of it fits and hash and library take it; otherwise the update has failed |
| `FirmwareUpdate.FinishSelectsIff` | src/update_service.cpp:300-336 | a finish selects the bytes if and only if size and digest match and hash and library finish; otherwise the update has failed |
| `FirmwareUpdate.UploadInstallsIff` | src/update_service.cpp:366-390 | an upload, however cut into chunks, selects its bytes if and only if they have the size and digest of the prepared package |
| `FirmwareUpdate.SelectedIsRebootedInto` | src/update_service.cpp:393-398 | a selected image is rebooted into once 750 ms have passed, and nothing else changes |
| `FirmwareUpdate.BootOpensTheWindow` | src/update_service.cpp:151-173 | a boot into a pending image opens its window at that time; any other boot starts idle, with nothing prepared |
| `FirmwareUpdate.FirstVerdictIsFirst` | src/update_service.cpp:404-424 | the verdict is that of the first tick that decides |
| `FirmwareUpdate.FirstVerdictStands` | src/update_service.cpp:393-425 | after the window the state is the first verdict; until then nothing changes |
| `FirmwareUpdate.VerdictIsTimely` | src/update_service.cpp:404-424 | VALID only with storage ready, 60000 bytes of heap and at least 10 s in, ROLLBACK only without one of these and at least 30 s in; modular 30 s always decides |
| `FirmwareUpdate.VerdictIsReached` | src/update_service.cpp:404-424 | with regular ticks the window closes once 30 s have passed |
| `FirmwareUpdate.WrappedTickDecidesNothing` | src/update_service.cpp:404-404 | a tick exactly 2^32 ms in decides nothing |
| `FirmwareUpdate.InstallCallEndsTheWindow` | src/update_service.cpp:234-243 | in the window nothing can be prepared, and a begin leaves the image without a verdict |
| `FirmwareUpdate.WindowLasts` | src/update_service.cpp:206-425 | over any mixture of ticks and calls the window stays open, with nothing changed, until a begin or a deciding tick, and is then closed for good |
| `FirmwareUpdate.VerdictIff` | src/update_service.cpp:206-425 | over any such mixture: judged if and only if a deciding tick comes before any begin, given up unjudged if and only if a begin comes before any deciding tick |
| `FirmwareUpdate.FirmwareUpdater.constructor` | src/update_service.cpp:25-32 | IDLE, no session |
| `FirmwareUpdate.FirmwareUpdater.BeginService` | src/update_service.cpp:151-173 | PENDING_VERIFY or IDLE, nothing prepared |
| `FirmwareUpdate.FirmwareUpdater.FailUpdate` | src/update_service.cpp:94-102 | aborts an open session, clears the hash, FAILED |
| `FirmwareUpdate.FirmwareUpdater.PreparePackage` | src/update_service.cpp:206-232 | only in IDLE, VALID or FAILED, and only if it fits the partition |
| `FirmwareUpdate.FirmwareUpdater.BeginPreparedInstall` | src/update_service.cpp:234-267 | the whole new state of a begin, in every branch |
| `FirmwareUpdate.FirmwareUpdater.WritePreparedChunk` | src/update_service.cpp:269-298 | the same of a chunk |
| `FirmwareUpdate.FirmwareUpdater.FinishPreparedInstall` | src/update_service.cpp:300-336 | the same of a finish |
| `FirmwareUpdate.FirmwareUpdater.UploadChunk` | src/update_service.cpp:372-390 | begin at index 0, write, finish at the final chunk |
| `FirmwareUpdate.FirmwareUpdater.Tick` | src/update_service.cpp:393-425 | restart after the reboot delay; verdict in the window |
| `RemoteUpdate.BaseOfManifestUrl` | src/remote_update_service.cpp:64-75 | the base of a valid URL is that URL without its last segment, except for the one without a host |
| `RemoteUpdate.WorkerKeepsOne` | src/remote_update_service.cpp:209-372 | a worker step keeps the protocol |
| `RemoteUpdate.RunsKeepOneWorker` | src/remote_update_service.cpp:189-486 | at most one unpublished worker, handle set exactly then, CHECKING or DOWNLOADING only with one |
| `RemoteUpdate.AtomicRequest` | src/remote_update_service.cpp:434-486 | a request whose two halves follow each other is the atomic request |
| `RemoteUpdate.SplitStepKeepsIff` | src/remote_update_service.cpp:374-463 | a step breaks the protocol if and only if it is a launch that finds the handle set and records its failure |
| `RemoteUpdate.SplitRunsKeepOneWorkerIff` | src/remote_update_service.cpp:189-486 | over every interleaving of half requests, worker steps, uploads and resets: the protocol holds throughout if and only if no launch that finds the handle set records its failure |
| `RemoteUpdate.ConcurrentChecksLoseTheHandle` | src/remote_update_service.cpp:443-463 | two interleaved requests clear the handle of a live worker |
| `RemoteUpdate.ChecksNeverInstall` | src/remote_update_service.cpp:209-266 | without apply requests and uploads nothing is downloaded, opened or selected |
| `RemoteUpdate.WorkerCalls` | src/remote_update_service.cpp:209-372 | a worker touches the updater only through the four operations |
| `RemoteUpdate.BothTransportsSelectAuthenticImages` | src/remote_update_service.cpp:268-372 | authenticity with web uploads and workers interleaved |
| `RemoteUpdate.RunsFromPowerOn` | src/remote_update_service.cpp:189-486 | from power-on over any run: one worker, authentic images only, and none selected without an apply request or upload |
| `RemoteUpdate.DownloadAppends` | src/remote_update_service.cpp:325-350 | the loop streams exactly the bytes read, never more than expected |
| `RemoteUpdate.ApplyInstallsIff` | src/remote_update_service.cpp:268-372 | an apply left alone installs if and only if size and digest match |
| `RemoteUpdate.SessionLeftOpenIff` | src/remote_update_service.cpp:325-367 | a worker gives up with the session open if and only if it lost its stream |
| `RemoteUpdate.LostDownloadBlocksRemoteUpdates` | src/remote_update_service.cpp:328-362 | after a lost download no check prepares and no apply is accepted |
| `RemoteUpdate.RemoteUpdater.constructor` | src/remote_update_service.cpp:400-410 | IDLE, no worker |
| `RemoteUpdate.RemoteUpdater.CheckUrl` | src/remote_update_service.cpp:64-70 | accepts exactly valid HTTPS manifest URLs |
| `RemoteUpdate.RemoteUpdater.SetFailed` | src/remote_update_service.cpp:189-199 | FAILED and no handle, or nothing when the lock times out |
| `RemoteUpdate.RemoteUpdater.StartWorker` | src/remote_update_service.cpp:374-394 | refused while there is a handle, without the lock, or when the task cannot be created |
| `RemoteUpdate.RemoteUpdater.RequestCheck` | src/remote_update_service.cpp:434-465 | the whole new state and the answer of a check request, whichever of its locks time out |
| `RemoteUpdate.RemoteUpdater.RequestApply` | src/remote_update_service.cpp:467-486 | accepted only when AVAILABLE and idle and with both locks |
| `RemoteUpdate.RemoteUpdater.FinishWorker` | src/remote_update_service.cpp:189-207 | publishes a result and frees the handle |
| `RemoteUpdate.RemoteUpdater.RunCheck` | src/remote_update_service.cpp:209-266 | the check worker is its three protocol steps |
| `RemoteUpdate.RemoteUpdater.OpenDownload` | src/remote_update_service.cpp:268-318 | the apply worker up to the loop |
| `RemoteUpdate.RemoteUpdater.ReadChunk` | src/remote_update_service.cpp:326-349 | one read: at most a buffer and what is missing |
| `RemoteUpdate.RemoteUpdater.Download` | src/remote_update_service.cpp:320-350 | the download loop |
| `RemoteUpdate.RemoteUpdater.Conclude` | src/remote_update_service.cpp:353-371 | incomplete or unfinished downloads fail, else IDLE |
| `RemoteUpdate.RemoteUpdater.RunApply` | src/remote_update_service.cpp:268-372 | the apply worker from start to end |
| `UpdatePolicy.ValidIntervalsDoNotWrap` | src/update_scheduler.cpp:51-53 | a valid interval in milliseconds fits 32 bits |
| `UpdatePolicy.PolicyRoundTrip` | src/update_policy.cpp:85-125 | a serialized policy that fits deserializes to itself |
| `UpdatePolicy.RunsKeepPolicyValid` | src/update_policy.cpp:127-331 | every policy ever in force is valid, on any flash |
| `UpdatePolicy.UpdateMovesRevision` | src/update_policy.cpp:298-325 | an update in force moves the revision by one modulo 2^32 |
| `UpdatePolicy.UpdateChangesIff` | src/update_policy.cpp:267-331 | the policy in force changes if and only if the update succeeds, and then to the one requested |
| `UpdatePolicy.RecordKeepsConfig` | src/update_policy.cpp:258-265 | a recorded result changes nothing the scheduler reads |
| `UpdatePolicy.PolicySurvivesRestart` | src/update_policy.cpp:127-183 | a persisted policy is in force again after a restart |
| `UpdatePolicy.CheckUrl` | src/update_policy.cpp:50-59 | accepts exactly the empty URL and valid printable HTTPS ones |
| `UpdatePolicy.CheckResult` | src/update_policy.cpp:61-70 | accepts exactly 1 to 64 result characters |
| `UpdatePolicy.CheckPolicy` | src/update_policy.cpp:72-83 | accepts exactly valid policies |
| `UpdatePolicy.PolicyService.constructor` | src/update_policy.cpp:14-28 | defaults, not ready |
| `UpdatePolicy.PolicyService.BeginService` | src/update_policy.cpp:153-183 | loads, or falls back to the defaults |
| `UpdatePolicy.PolicyService.Load` | src/update_policy.cpp:100-125 | deserializes exactly well-typed valid policies |
| `UpdatePolicy.PolicyService.Persist` | src/update_policy.cpp:127-133 | flash first, RAM only if the length agrees; succeeds exactly then |
| `UpdatePolicy.PolicyService.RecordResult` | src/update_policy.cpp:258-265 | only the last result changes; succeeds exactly when it is valid, the store ready and the write complete |
| `UpdatePolicy.PolicyService.UpdatePolicy` | src/update_policy.cpp:267-331 | revision + 1 and the requested fields, if valid and persisted; succeeds exactly then |
| `UpdatePolicy.PolicyService.AutomaticCheckConfig` | src/update_policy.cpp:232-256 | what the scheduler reads, or nothing |
| `UpdateScheduler.WatchAgrees` | src/update_scheduler.cpp:64-105 | after a watch timer, flag and policy agree; an unchanged policy moves nothing |
| `UpdateScheduler.RunsStayInStep` | src/update_scheduler.cpp:51-170 | the same after every watch of any run with a readable policy and fewer than 2^32 updates between watches |
| `UpdateScheduler.BeginIsInStep` | src/update_scheduler.cpp:176-201 | the first watch establishes it |
| `UpdateScheduler.BeginIsAwake` | src/update_scheduler.cpp:176-201 | set-up leaves the scheduler coherent and awake, readable policy or not |
| `UpdateScheduler.StepKeepsCoherent` | src/update_scheduler.cpp:51-206 | every step keeps: armed = timer enabled, and an enabled timer means an enabled observed policy |
| `UpdateScheduler.WatchAgreesIff` | src/update_scheduler.cpp:64-105 | a readable watch leaves scheduler and policy in agreement if and only if the scheduler was not asleep |
| `UpdateScheduler.StepSleepsIff` | src/update_scheduler.cpp:51-170 | the scheduler is asleep after a step if and only if it was and the policy stays, or the step is one of the three that put it to sleep |
| `UpdateScheduler.RunSleepsIff` | src/update_scheduler.cpp:51-206 | over any run it is asleep in the end if and only if some step put it to sleep and no later one changed the policy |
| `UpdateScheduler.RunsAgreeIff` | src/update_scheduler.cpp:51-206 | after any run a readable watch leaves the timer as the policy demands if and only if no step has put the scheduler to sleep since the policy last changed |
| `UpdateScheduler.RecordsNeverMoveTheDueTime` | src/update_scheduler.cpp:64-105 | recorded results and watches leave the scheduler unchanged |
| `UpdateScheduler.UnreadableReadDisarms` | src/update_scheduler.cpp:55-121 | one watch or due check that cannot read the policy keeps an enabled policy unarmed until it changes |
| `UpdateScheduler.RearmsIff` | src/update_scheduler.cpp:64-105 | the next readable watch arms a sleeping scheduler if and only if an update that succeeds asks for an enabled policy |
| `UpdateScheduler.AutomaticChecksNeverInstall` | src/update_scheduler.cpp:107-170 | automatic checks never download, open a session or select an image |
| `UpdateLaws.CheckIsAcceptedIff` | src/remote_update_service.cpp:434-465 | a check request is accepted if and only if its URL is valid, nobody is at work and locks and task are granted; then one worker is created for that URL |
| `UpdateLaws.CheckIsBusyIff` | src/remote_update_service.cpp:434-465 | it is worth trying again if and only if the URL is valid and a worker or a lock was in the way |
| `UpdateLaws.CheckPublishesIff` | src/remote_update_service.cpp:209-266 | a check publishes AVAILABLE if and only if what it fetches offers a package for this device; the base URL is then the manifest's URL without its last segment |
| `UpdateLaws.ApplyIsAccepted` | src/remote_update_service.cpp:467-486 | an apply request is accepted if and only if a package is AVAILABLE, nobody is at work and locks and task are granted |
| `UpdateLaws.ApplyLoadsIff` | src/remote_update_service.cpp:268-318 | an apply starts to load if and only if the declared length is the prepared size and its session opens; otherwise it publishes FAILED, and a wrong length leaves the updater alone |
| `UpdateLaws.BytesAreGiven` | src/remote_update_service.cpp:320-350 | the loop takes exactly what the reads give, as long as no read exceeds the buffer and all together the image |
| `UpdateLaws.CheckThenApplyInstallsIff` | src/remote_update_service.cpp:209-372 | from the request of a check to the boot image: what is downloaded is selected if and only if the fetched manifest promises it |
| `UpdateLaws.RunsStayLocated` | src/remote_update_service.cpp:209-486 | over any interleaving a check fetches the manifest URL last accepted, and an image is downloaded from the directory of that manifest |
| `UpdateLaws.EnabledIsExact` | src/update_policy.cpp:135-148 | the field `enabled` is one of six words, in either case, with any space around it |
| `UpdateLaws.LoadsWhatIsSaid` | src/update_policy.cpp:100-125 | a stored policy is loaded if and only if it has 1 to 1024 bytes, says every field and is valid |
| `UpdateLaws.SerializedSays` | src/update_policy.cpp:85-98 | what is persisted says the policy, field by field |
| `UpdateLaws.BeginLoads` | src/update_policy.cpp:153-183 | after a reset the policy is the stored one, or the defaults, marked as such if something else was stored |
| `UpdateLaws.RecordChangesResult` | src/update_policy.cpp:258-265 | a recorded result changes the last result only |
| `UpdateLaws.UpdateTakesForm` | src/update_policy.cpp:267-331 | a form takes effect if and only if it is sensible, the store is ready and it is persisted; then every field is what the form asks for |
| `UpdateLaws.DueCheckRequests` | src/update_scheduler.cpp:107-170 | a due check starts a worker if and only if the policy is readable and enabled, with a network, nobody at work and the request granted; it is for the policy's URL, and the next is due an interval later |
| `UpdateLaws.DueCheckRetries` | src/update_scheduler.cpp:123-170 | it tries again after 15 s if and only if there is no network, somebody is at work or a lock is missing |
| `UpdateLaws.DueCheckDisarms` | src/update_scheduler.cpp:107-121 | a due check that cannot read the policy, or reads a disabled one, turns the timer off and requests nothing |
| `UpdateLaws.DueCheckPublishesIff` | src/update_scheduler.cpp:107-170 | a due check and its worker publish AVAILABLE if and only if what is fetched from the policy's URL offers a package |
| `UpdateLaws.FormIsChecked` | src/update_policy.cpp:267-331 | end to end: the next watch arms the timer for the interval the form asks for, and a check due then publishes AVAILABLE if and only if what is fetched from the form's URL offers a package |
| `UpdateScheduler.CheckScheduler.constructor` | src/update_scheduler.cpp:176-201 | initial state and first watch |
| `UpdateScheduler.CheckScheduler.SetNetworkAvailable` | src/update_scheduler.cpp:203-206 | only the network flag |
| `UpdateScheduler.CheckScheduler.Disarm` | src/update_scheduler.cpp:55-62 | timer off, flag and due time cleared, observation kept |
| `UpdateScheduler.CheckScheduler.ApplyPolicy` | src/update_scheduler.cpp:64-91 | nothing for an observed policy, else disarm or re-arm |
| `UpdateScheduler.CheckScheduler.WatchPolicy` | src/update_scheduler.cpp:93-105 | read, then disarm or apply |
| `UpdateScheduler.CheckScheduler.Retry` | src/update_scheduler.cpp:135-139 | the timer restarts with the short delay, and the due time says so |
| `UpdateScheduler.CheckScheduler.CheckNow` | src/update_scheduler.cpp:123-170 | with an enabled policy: retry later without network, when busy or without a lock, else request a check |
| `UpdateScheduler.CheckScheduler.CheckIfDue` | src/update_scheduler.cpp:107-170 | disarm, restart with the short delay, or request a check |
| `Supervision.SupervisorTableReaches` | src/core/supervisor.cpp:21-34 | from every other state the table leads to the requested one |
| `Supervision.CountsSumToSize` | src/core/supervisor.cpp:67-80 | the five counts sum to the registry size |
| `Supervision.CountsAreExact` | src/core/supervisor.cpp:67-80 | each count is how often the registry reports that health |
| `Supervision.StartAnnouncesOnce` | src/core/supervisor.cpp:36-40 | starting announces INITIALIZING, once; before it, and over an empty registry, evaluations change neither state nor queue |
| `Supervision.SupervisorCodesAreDistinct` | src/core/supervisor.cpp:58-65 | distinct states are announced with distinct codes |
| `Supervision.EvaluationIsTheFold` | src/core/supervisor.cpp:99-115 | after an evaluation the state is the fold of the healths, announced exactly when it changed |
| `Supervision.SupervisorFollowsHealth` | src/core/supervisor.cpp:58-115 | over runs the state follows the latest healths, with one post per change |
| `Supervision.ComponentRegistry.constructor` | include/core/component_registry.h:19-22 | empty |
| `Supervision.ComponentRegistry.Find` | src/core/component_registry.cpp:25-31 | the component with the id, or null exactly when there is none |
| `Supervision.ComponentRegistry.At` | src/core/component_registry.cpp:21-23 | null beyond the count |
| `Supervision.ComponentRegistry.Add` | src/core/component_registry.cpp:7-11 | added exactly when there is room and the id is new; ids stay unique |
| `Supervision.AddTransitions` | src/core/supervisor.cpp:21-34 | the transitions in the source's order |
| `Supervision.Supervisor.constructor` | src/core/supervisor.cpp:9-19 | INITIALIZING, not started |
| `Supervision.Supervisor.SetState` | src/core/supervisor.cpp:58-65 | announces a change, and the very first state |
| `Supervision.Supervisor.Begin` | src/core/supervisor.cpp:36-40 | enters the initial state once |
| `Supervision.Supervisor.CountHealth` | src/core/supervisor.cpp:67-80 | the loop counts exactly what the components report |
| `Supervision.Supervisor.Enter` | src/core/supervisor.cpp:21-34 | the machine reaches the state the event names and reports a change |
| `Supervision.Supervisor.Trigger` | src/core/supervisor.cpp:42-56 | the mirror follows the machine |
| `Supervision.Supervisor.RequestState` | src/core/supervisor.cpp:82-97 | moves to the desired state unless it is there or INITIALIZING |
| `Supervision.Supervisor.Evaluate` | src/core/supervisor.cpp:99-115 | count, decide, move |

## Left out

- Wi-Fi, MQTT, mDNS, web pages, status JSON, double-reset detection and the restart service: plumbing and presentation.
- ArduinoJson: a stored or received string is its length and what it parses to; printing gives a text that parses back, of an arbitrary length. Its memory pools, and so every `overflowed()` error, are not modelled.
- ECDSA, SHA-256 and base64: an arbitrary predicate and an arbitrary function. The three signature failures after the length check are one error.
- Flash writing and the bootloader: the `Update` library is a session that refuses a second begin and an oversized write; what a later session writes over an image already selected for boot is not modelled.
- TaskScheduler and arduino-fsm: the one-shot task is disabled when its callback returns (`docs/configuration.md:181`), restarting a task succeeds, and a machine takes the first matching transition and runs its on-enter action.
- The clock of the delayed action: in which pass its delay is over is a parameter of the pass.
- The clock inside the timer task: its interval, its last restart delay and the scheduler's own `nextDueMs` are modelled, not the moment it fires.
- Locks: a lock that times out is modelled where it is a parameter of the call (configuration store, reading the update policy, requests to the remote service); the scheduler's own lock and those of a remote worker are always granted, and requests are atomic except in `RemoteUpdate.AfterSplit` and what is proved about it.
- Data races between the web task and the main loop: every public call is one step.
- Floating point: finite floats are reals with a flag for the others; the conversion of a value to milli-units does not overflow.
- Timestamps of events, rules and transitions, and the texts of last errors and last results: observation only. The scheduler's last request result is among them.
- Handlers of the runtime that are null pointers (`no provider`): the wiring in `main.cpp` sets all of them.
- The endpoints under `PROJ_RULE_ENGINE_TEST_ENDPOINTS` and the `PROJ_OTA_TEST` switches: laboratory builds. Of the former the model has their calls on the input and the events they post, each as a step of its own between two passes, not those that configure, evaluate or reset the rule directly. `ALLOW_HTTP` and `FORCE_VALIDATION_FAILURE` are false.
- The rollback's second parse of the previous document, which cannot fail where the first succeeded.
- The connectivity component: it reports a health like any other component.
- The network inside a remote worker: each fetch gives an arbitrary result or none; timeouts and status codes are one failure.
- RuleExecution.RuleRuntime.Schedule: the branch for a task that refuses to restart is missing, because restarting succeeds for a task that has a scheduler, which the constructor gives it.
- RuleExecution.RuleRuntime.RequestEvaluation: the same branch is missing.
- RuleExecution.RuleRuntime.ExecuteEvaluation: the branch for missing output providers is missing, because `main.cpp` sets both.
- LocalSchedule.LocalScheduleService.Arm: the branch for a task that refuses to restart is missing, for the same reason.
- LocalSchedule.LocalScheduleService.ActivateDocument: the same branch is missing.
- Events.EventBus.React: a handler that calls `process` itself is not modelled; no handler in the repository does, and with one the outer call could exceed its maximum.
- Events.ProcessIsFifo: the same, so the claim is about handlers that post and subscribe.
- MainProgram.Firmware.SetUp: the connectivity component, the component registry and the network services are not part of it; what they post at set-up is covered by `DeviceModel.Wired`, which allows any events and handlers of other components.
- MainProgram.Firmware.StartComponents: the connectivity component and the registry are not part of it.
- MainProgram.Firmware.ExecuteScheduler: the other tasks appear only as the events they post, which in the settling theorems are not the input's own; a call on the input is a step of its own.
- MainProgram.Firmware.Pass: the same; of the main loop it is the scheduler and the event queue.
- RemoteUpdate.RemoteUpdater.FinishWorker: the branch for a worker whose lock times out when it publishes, which leaves the handle set, is missing.
- RemoteUpdate.RemoteUpdater.RunCheck: the same, and likewise for the lock it takes first.
- RemoteUpdate.RemoteUpdater.RunApply: the same.

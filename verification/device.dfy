// The device of main.cpp: the configuration store, the control loop and the delayed action,
// joined by the lifecycle callbacks. What runs is what is persisted, over whole runs with
// reconfigurations, power failures and restarts.
module DeviceModel {
  import opened Prelude
  import opened JsonModel
  import opened ConfigurationStore
  import opened ConfigurationRuns
  import opened Events
  import opened FaultPolicy
  import opened Rules
  import opened VirtualComponents
  import opened RuleExecution
  import opened PersistedRules
  import opened ControlLoop
  import LocalSchedule
  import ConfigurationValidation
  import Supervision

  datatype Device = Device(store: Store, world: World, schedule: LocalSchedule.Schedule, output: Actuator)

  /** `validatePersistedConfiguration` */
  function Executable(raw: Raw): bool {
    !ParseRules(raw).ParseFailed? && !LocalSchedule.ParseSchedule(raw).ScheduleFailed?
  }

  /** What the device is made of: the serialized length of documents, and the loop and the
      delayed-action output as set-up has them before the first activation. */
  datatype Board = Board(sizeOf: Json -> nat, loop: Loop, output: Actuator)

  function HostOf(board: Board): Host {
    Host(board.sizeOf, Some(Executable))
  }

  // ---- Set-up and steps ------------------------------------------------------

  /** `activeJson()` and `revision()`; "{}" and 0 before the store is ready. */
  function ActiveJson(s: Store): Raw {
    if s.ready then s.raw else Raw(2, Some(Object(map[])))
  }

  function StoreRevision(s: Store): nat {
    if s.ready then s.revision else 0
  }

  const COLD_INPUT := Input(INPUT_ID, InputDisabled, DISABLED_HEALTH, false, 0.0)
  const COLD_HEATER := Actuator(OUTPUT_ID, ActuatorDisabled, DISABLED_HEALTH)
  const COLD_OUTPUT := Actuator(LocalSchedule.TARGET_ID, ActuatorDisabled, DISABLED_HEALTH)

  /** The bus when set-up reaches the first activation: handlers subscribed, both actuators
      enabled OFF. */
  function ColdBus(): Bus {
    var b0 := AfterSubscribe(AfterSubscribe(EMPTY_BUS, LOG_HANDLER), RULE_HANDLER);
    EnablePosts(EnablePosts(b0, COLD_HEATER, false), COLD_OUTPUT, false)
  }

  /** The loop at that point: components begun, no rule configured. */
  function ColdLoop(b: Bus): Loop {
    Loop(b, COLD_INPUT, CLEARED_ENGINE, AfterEnable(COLD_HEATER, false), NEW_RUNTIME.(started := true))
  }

  /** `activatePersistedConfiguration` */
  function WithConfiguration(w: World, schedule: LocalSchedule.Schedule, raw: Raw, revision: nat): Configured {
    Configured(AfterLoopStep(w, Activate(raw, revision)), LocalSchedule.AfterActivateSchedule(schedule, raw, revision))
  }

  datatype Configured = Configured(world: World, schedule: LocalSchedule.Schedule)

  ghost predicate OutputSound(a: Actuator) {
    a.id == LocalSchedule.TARGET_ID
  }

  /** What set-up leaves. Other components may have subscribed and posted too. */
  ghost predicate Wired(board: Board) {
    Sound(board.loop) && IdleRules(board.loop) && OutputSound(board.output)
  }

  /** What the supervisor announces at the end of set-up. */
  const SUPERVISOR_BEGINS := Event(Supervision.SUPERVISOR_STATE_CHANGED, "supervisor", 0)

  /** The store begins, and what it loads, if anything, is activated. */
  ghost function BootActivated(d: Durable, env: BootEnv, board: Board): Device {
    var store := AfterBegin(PowerOn(d), env, board.sizeOf).store;
    var c := WithConfiguration(World(board.loop, NEW_LOADER), LocalSchedule.NEW_SCHEDULE, ActiveJson(store), StoreRevision(store));
    Device(store, c.world, c.schedule, board.output)
  }

  /** Then the supervisor begins. */
  ghost function Booted(d: Durable, env: BootEnv, board: Board): Device {
    var dv := BootActivated(d, env, board);
    dv.(world := AfterLoopStep(dv.world, ForeignPost(SUPERVISOR_BEGINS)))
  }

  /** One thing that happens to the device: a step of the control loop, the scheduler running
      the delayed action, a reconfiguration, a power failure at a durable step of one, or a
      restart. */
  datatype DeviceStep =
    | LoopEvent(step: LoopStep)
    | FireSchedule
    | Reconfigure(op: Operation, env: OpEnv)
    | PowerFailure(op: Operation, env: OpEnv, at: nat, boot: BootEnv)
    | Restart(boot: BootEnv)

  ghost function AfterOutcome(dv: Device, o: Outcome): Device {
    if o.activation.None? then dv.(store := o.store)
    else
      var c := WithConfiguration(dv.world, dv.schedule, o.activation.value.raw, o.activation.value.revision);
      dv.(store := o.store, world := c.world, schedule := c.schedule)
  }

  function ScheduleFired(dv: Device): Device {
    if !dv.schedule.queued then dv
    else
      var l := dv.world.loop;
      dv.(schedule := LocalSchedule.AfterFireSchedule(dv.schedule, dv.output.Enabled()),
          output := AfterApplyDesired(dv.output, dv.schedule.action.desiredOn),
          world := dv.world.(loop := l.(bus := ApplyDesiredPosts(l.bus, dv.output, dv.schedule.action.desiredOn))))
  }

  /** The configuration changes only through the store, so activations are not loop events. */
  ghost function AfterDeviceStep(dv: Device, step: DeviceStep, board: Board): Device {
    match step
    case LoopEvent(loopStep) =>
      if loopStep.Activate? then dv else dv.(world := AfterLoopStep(dv.world, loopStep))
    case FireSchedule => ScheduleFired(dv)
    case Reconfigure(op, env) => AfterOutcome(dv, AfterOp(dv.store, op, env, HostOf(board)))
    case PowerFailure(op, env, at, boot) =>
      Booted(CrashPoint(dv.store, AfterOp(dv.store, op, env, HostOf(board)), at), boot, board)
    case Restart(boot) => Booted(dv.store.durable, boot, board)
  }

  // ---- What runs is what is persisted ----------------------------------------

  /** The engine, the policy and the loader are those of a document. One that is not
      executable (stored before semantic validation existed) leaves the engine unconfigured. */
  ghost predicate RunsRules(w: World, raw: Raw, revision: nat) {
    match ParseRules(raw)
    case ParseFailed(_) => IdleRules(w.loop) && w.loader.revision == revision
    case NoRule(_) => IdleRules(w.loop) && w.loader == Loader(revision, "", SafeOff)
    case OneRule(_, rule, policy) =>
      && w.loop.engine.configured && w.loop.engine.rule == rule && w.loop.runtime.policy == policy
      && w.loader == Loader(revision, rule.id, policy)
  }

  predicate IdleRules(l: Loop) {
    !l.engine.configured && l.runtime.policy == SafeOff
  }

  /** The delayed action is that of a document. */
  ghost predicate RunsSchedule(s: LocalSchedule.Schedule, raw: Raw, revision: nat) {
    match LocalSchedule.ParseSchedule(raw)
    case ScheduleFailed(_) => !s.configured
    case NoSchedule => !s.configured && s.revision == revision
    case OneSchedule(action) => s.configured && s.action == action && s.revision == revision
  }

  ghost predicate RunsDocument(w: World, s: LocalSchedule.Schedule, raw: Raw, revision: nat) {
    RunsRules(w, raw, revision) && RunsSchedule(s, raw, revision)
  }

  ghost predicate RunningIsPersisted(dv: Device) {
    dv.store.ready ==>
      Safe(dv.store) && RunsDocument(dv.world, dv.schedule, dv.store.durable.Active(), dv.store.revision)
  }

  lemma ParsedRevisionIsStored(raw: Raw)
    requires StoredRevision(raw).Some?
    ensures ParseRules(raw).ParseFailed? || ParseRules(raw).revision == StoredRevision(raw).value
  {
    ConfigurationValidation.DocumentErrorIsExact(raw.parsed.value, true);
  }

  lemma RulesRun(w: World, raw: Raw)
    requires StoredRevision(raw).Some?
    requires ParseRules(raw).ParseFailed? ==> IdleRules(w.loop)
    ensures RunsRules(AfterLoopStep(w, Activate(raw, StoredRevision(raw).value)), raw, StoredRevision(raw).value)
  {
    ParsedRevisionIsStored(raw);
    ParsedRulesConfigure(raw);
    if !ParseRules(raw).ParseFailed? {
      AppliedRuns(w.loop, w.loader, ParseRules(raw));
    }
  }

  lemma ScheduleRuns(s: LocalSchedule.Schedule, raw: Raw, revision: nat)
    requires LocalSchedule.ParseSchedule(raw).ScheduleFailed? ==> !s.configured
    ensures RunsSchedule(LocalSchedule.AfterActivateSchedule(s, raw, revision), raw, revision)
  {
  }

  /** Activating an executable document makes it the running one; a stored document that is
      not executable runs nothing if nothing ran before. */
  lemma ActivationRuns(w: World, s: LocalSchedule.Schedule, raw: Raw)
    requires StoredRevision(raw).Some?
    requires Executable(raw) || (IdleRules(w.loop) && !s.configured)
    ensures var c := WithConfiguration(w, s, raw, StoredRevision(raw).value);
      RunsDocument(c.world, c.schedule, raw, StoredRevision(raw).value)
  {
    RulesRun(w, raw);
    ScheduleRuns(s, raw, StoredRevision(raw).value);
  }

  /** A slot write that passes verification reads back as the text that was written. */
  ghost predicate Trustworthy(dv: Device, step: DeviceStep, board: Board) {
    step.Reconfigure? && TextOf(dv.store, step.op, HostOf(board)).Accepted?
      && StoredRevision(step.env.write.stored) == Some(dv.store.revision + 1) ==>
      step.env.write.stored == TextOf(dv.store, step.op, HostOf(board)).text
  }

  /** A document accepted by apply or rollback is one both validators accept. */
  lemma CommittedIsExecutable(s: Store, op: Operation, env: OpEnv, board: Board)
    requires Safe(s) && AfterOp(s, op, env, HostOf(board)).error == None
    requires TextOf(s, op, HostOf(board)) == Accepted(env.write.stored)
    ensures var o := AfterOp(s, op, env, HostOf(board));
      && Executable(o.store.raw) && StoredRevision(o.store.raw) == Some(o.store.revision)
  {
    OperationKeeps(s, op, env, HostOf(board));
  }

  // ---- The cold loop ---------------------------------------------------------

  /** Enabling an actuator posts nothing relevant. */
  lemma EnableExtends(b: Bus, a: Actuator, on: bool)
    requires Subscribed(b) && a.id != INPUT_ID && |a.id| <= SOURCE_CHARS
    ensures Extended(b, EnablePosts(b, a, on)) && Subscribed(EnablePosts(b, a, on))
  {
    var moved := Event(STATE_CHANGED, a.id, ActuatorCode(OnOff(on)));
    var b1 := if a.state != OnOff(on) then AfterPost(b, moved) else b;
    ForeignPostExtends(b, moved);
    ForeignPostExtends(b1, Event(HEALTH_CHANGED, a.id, HealthCode(Ok)));
    ExtendedTwice(b, b1, EnablePosts(b, a, on));
  }

  lemma ColdBusIsQuiet()
    ensures Subscribed(ColdBus()) && !RelevantQueued(ColdBus())
  {
    var b := AfterSubscribe(EMPTY_BUS, LOG_HANDLER);
    assert b.handlers == [LOG_HANDLER];
    var b0 := AfterSubscribe(b, RULE_HANDLER);
    assert b0.handlers == [LOG_HANDLER, RULE_HANDLER];
    EnableExtends(b0, COLD_HEATER, false);
    EnableExtends(EnablePosts(b0, COLD_HEATER, false), COLD_OUTPUT, false);
    ExtendedKeepsRelevance(b0, EnablePosts(b0, COLD_HEATER, false));
    ExtendedKeepsRelevance(EnablePosts(b0, COLD_HEATER, false), ColdBus());
  }

  lemma ColdLoopIsSound(b: Bus)
    requires Subscribed(b)
    ensures Sound(ColdLoop(b)) && IdleRules(ColdLoop(b)) && Books(ColdLoop(b).runtime)
  {
  }

  /** The wiring in main.cpp. */
  lemma SetUpIsWired(sizeOf: Json -> nat)
    ensures Wired(Board(sizeOf, ColdLoop(ColdBus()), AfterEnable(COLD_OUTPUT, false)))
  {
    ColdBusIsQuiet();
    ColdLoopIsSound(ColdBus());
  }

  /** Before the first activation both outputs are OFF and the input has no value. */
  lemma ColdOutputsAreOff(b: Bus)
    ensures ColdLoop(b).heater == Actuator("virtual.heater", Off, Health(Ok, ""))
    ensures AfterEnable(COLD_OUTPUT, false) == Actuator("virtual.schedule_output", Off, Health(Ok, ""))
    ensures ColdLoop(b).input == Input("virtual.temperature", InputDisabled, Health(Disabled, ""), false, 0.0)
  {
  }

  // ---- Runs ------------------------------------------------------------------

  /** A device and whether its input's last announcement was lost (see Watched). */
  datatype DeviceRun = DeviceRun(device: Device, lost: bool)

  ghost function WatchDevice(x: DeviceRun, step: DeviceStep, board: Board): DeviceRun {
    var dv' := AfterDeviceStep(x.device, step, board);
    match step
    case LoopEvent(loopStep) =>
      if loopStep.Activate? then x else DeviceRun(dv', Watch(Watched(x.device.world, x.lost), loopStep).lost)
    case FireSchedule => DeviceRun(dv', x.lost)
    case Reconfigure(op, env) =>
      var o := AfterOp(x.device.store, op, env, HostOf(board));
      DeviceRun(dv', if o.activation.None? then x.lost
                     else Watch(Watched(x.device.world, x.lost),
                                Activate(o.activation.value.raw, o.activation.value.revision)).lost)
    case PowerFailure(_, _, _, _) => DeviceRun(dv', false)
    case Restart(_) => DeviceRun(dv', false)
  }

  ghost function WatchDeviceRun(x: DeviceRun, steps: seq<DeviceStep>, board: Board): DeviceRun {
    if steps == [] then x
    else WatchDevice(WatchDeviceRun(x, steps[..|steps| - 1], board), steps[|steps| - 1], board)
  }

  /** The invariant of the device. */
  ghost predicate Consistent(x: DeviceRun) {
    && RunningIsPersisted(x.device)
    && Converging(Watched(x.device.world, x.lost))
    && OutputSound(x.device.output)
  }

  /** The first activation, on an idle loop and an unconfigured schedule. */
  lemma FirstActivation(store: Store, w: World, s: LocalSchedule.Schedule)
    requires Sound(w.loop) && IdleRules(w.loop) && !s.configured
    requires store.ready ==> Safe(store)
    ensures var c := WithConfiguration(w, s, ActiveJson(store), StoreRevision(store));
      && Converging(Watched(c.world, false))
      && (store.ready ==> RunsDocument(c.world, c.schedule, store.durable.Active(), store.revision))
  {
    WatchKeepsConverging(Watched(w, false), Activate(ActiveJson(store), StoreRevision(store)));
    if store.ready {
      ActivationRuns(w, s, store.raw);
    }
  }

  lemma SupervisorBeginsQuietly(w: World)
    requires Converging(Watched(w, false))
    ensures var w' := AfterLoopStep(w, ForeignPost(SUPERVISOR_BEGINS));
      Converging(Watched(w', false)) && w' == w.(loop := w.loop.(bus := w'.loop.bus))
  {
    WatchKeepsConverging(Watched(w, false), ForeignPost(SUPERVISOR_BEGINS));
  }

  lemma BootIsConsistent(d: Durable, env: BootEnv, board: Board)
    requires Wired(board)
    ensures Consistent(DeviceRun(Booted(d, env, board), false))
  {
    BootEstablishesSafety(d, env, board.sizeOf);
    var store := AfterBegin(PowerOn(d), env, board.sizeOf).store;
    var w := World(board.loop, NEW_LOADER);
    FirstActivation(store, w, LocalSchedule.NEW_SCHEDULE);
    SupervisorBeginsQuietly(AfterLoopStep(w, Activate(ActiveJson(store), StoreRevision(store))));
  }

  lemma ScheduleFiresQuietly(dv: Device)
    requires Sound(dv.world.loop) && OutputSound(dv.output)
    ensures var dv' := ScheduleFired(dv);
      && dv' == dv.(schedule := dv'.schedule, output := dv'.output, world := dv'.world)
      && dv'.world == dv.world.(loop := dv.world.loop.(bus := dv'.world.loop.bus))
      && Sound(dv'.world.loop) && OutputSound(dv'.output)
      && (RelevantQueued(dv'.world.loop.bus) <==> RelevantQueued(dv.world.loop.bus))
      && dv'.schedule.configured == dv.schedule.configured && dv'.schedule.action == dv.schedule.action
      && dv'.schedule.revision == dv.schedule.revision
  {
    if dv.schedule.queued && dv.output.Enabled() {
      EnableExtends(dv.world.loop.bus, dv.output, dv.schedule.action.desiredOn);
      ExtendedKeepsRelevance(dv.world.loop.bus, ScheduleFired(dv).world.loop.bus);
    }
  }

  ghost predicate ConfiguredFrom(x: DeviceRun, store: Store, c: Configured) {
    && RunsDocument(c.world, c.schedule, store.raw, store.revision)
    && Converging(Watch(Watched(x.device.world, x.lost), Activate(store.raw, store.revision)))
  }

  lemma ActivationIsConsistent(x: DeviceRun, store: Store)
    requires Converging(Watched(x.device.world, x.lost))
    requires Executable(store.raw) && StoredRevision(store.raw) == Some(store.revision)
    ensures ConfiguredFrom(x, store, WithConfiguration(x.device.world, x.device.schedule, store.raw, store.revision))
  {
    ActivationRuns(x.device.world, x.device.schedule, store.raw);
    WatchKeepsConverging(Watched(x.device.world, x.lost), Activate(store.raw, store.revision));
  }

  lemma Assembled(dv: Device, store: Store, c: Configured, lost: bool)
    requires Safe(store) && store.ready && RunsDocument(c.world, c.schedule, store.raw, store.revision)
    requires Converging(Watched(c.world, lost)) && OutputSound(dv.output)
    ensures Consistent(DeviceRun(dv.(store := store, world := c.world, schedule := c.schedule), lost))
  {
  }

  lemma CommitIsConsistent(x: DeviceRun, op: Operation, env: OpEnv, board: Board)
    requires Consistent(x) && Trustworthy(x.device, Reconfigure(op, env), board)
    requires Safe(x.device.store) && AfterOp(x.device.store, op, env, HostOf(board)).error == None
    ensures Consistent(WatchDevice(x, Reconfigure(op, env), board))
  {
    var dv, store := x.device, AfterOp(x.device.store, op, env, HostOf(board)).store;
    OperationKeeps(dv.store, op, env, HostOf(board));
    CommittedText(dv.store, op, env, HostOf(board));
    CommittedIsExecutable(dv.store, op, env, board);
    ActivationIsConsistent(x, store);
    CommittedStep(x, op, env, board);
    Assembled(dv, store, WithConfiguration(dv.world, dv.schedule, store.raw, store.revision),
              Watch(Watched(dv.world, x.lost), Activate(store.raw, store.revision)).lost);
  }

  /** A commit moves the store and activates what it committed. */
  lemma CommittedStep(x: DeviceRun, op: Operation, env: OpEnv, board: Board)
    requires Safe(x.device.store) && AfterOp(x.device.store, op, env, HostOf(board)).error == None
    ensures var store := AfterOp(x.device.store, op, env, HostOf(board)).store;
      var c := WithConfiguration(x.device.world, x.device.schedule, store.raw, store.revision);
      WatchDevice(x, Reconfigure(op, env), board) ==
        DeviceRun(x.device.(store := store, world := c.world, schedule := c.schedule),
                  Watch(Watched(x.device.world, x.lost), Activate(store.raw, store.revision)).lost)
  {
    OperationKeeps(x.device.store, op, env, HostOf(board));
  }

  lemma ReconfigureIsConsistent(x: DeviceRun, op: Operation, env: OpEnv, board: Board)
    requires Consistent(x) && Trustworthy(x.device, Reconfigure(op, env), board)
    ensures Consistent(WatchDevice(x, Reconfigure(op, env), board))
  {
    if x.device.store.ready {
      OperationKeeps(x.device.store, op, env, HostOf(board));
      if AfterOp(x.device.store, op, env, HostOf(board)).error == None {
        CommitIsConsistent(x, op, env, board);
      }
    }
  }

  lemma StepIsConsistent(x: DeviceRun, step: DeviceStep, board: Board)
    requires Wired(board) && Consistent(x) && Trustworthy(x.device, step, board)
    ensures Consistent(WatchDevice(x, step, board))
  {
    match step
    case LoopEvent(loopStep) =>
      if !loopStep.Activate? {
        WatchKeepsConverging(Watched(x.device.world, x.lost), loopStep);
        LoopKeepsConfiguration(x.device.world, loopStep);
      }
    case FireSchedule => ScheduleFiresQuietly(x.device);
    case Reconfigure(op, env) => ReconfigureIsConsistent(x, op, env, board);
    case PowerFailure(op, env, at, boot) =>
      BootIsConsistent(CrashPoint(x.device.store, AfterOp(x.device.store, op, env, HostOf(board)), at), boot, board);
    case Restart(boot) => BootIsConsistent(x.device.store.durable, boot, board);
  }

  ghost predicate TrustworthyThroughout(x: DeviceRun, steps: seq<DeviceStep>, board: Board) {
    forall i :: 0 <= i < |steps| ==> Trustworthy(WatchDeviceRun(x, steps[..i], board).device, steps[i], board)
  }

  /** Running configuration equals persisted configuration: from power-on with any flash
      contents, through any mixture of control-loop steps, reconfigurations, power failures
      and restarts, the device stays consistent, provided a slot write that verifies reads
      back what was written. */
  lemma {:induction false} RunsAreConsistent(d: Durable, boot: BootEnv, steps: seq<DeviceStep>, board: Board)
    requires Wired(board) && TrustworthyThroughout(DeviceRun(Booted(d, boot, board), false), steps, board)
    ensures Consistent(WatchDeviceRun(DeviceRun(Booted(d, boot, board), false), steps, board))
  {
    var x := DeviceRun(Booted(d, boot, board), false);
    if steps == [] {
      BootIsConsistent(d, boot, board);
    } else {
      var front := steps[..|steps| - 1];
      assert forall i :: 0 <= i < |front| ==> front[..i] == steps[..i];
      RunsAreConsistent(d, boot, front, board);
      StepIsConsistent(WatchDeviceRun(x, front, board), steps[|steps| - 1], board);
    }
  }

  /** The heater is where a document puts it. */
  ghost predicate ObeysRule(l: Loop, parsed: Parsed)
    requires parsed.OneRule?
  {
    if l.input.health.state == Ok then
      && (Below(Finite(l.input.value), parsed.rule.onBelow) ==> l.heater.IsOn())
      && (Below(parsed.rule.offAbove, Finite(l.input.value)) ==> !l.heater.IsOn())
    else
      && (parsed.policy == SafeOff ==> !l.heater.IsOn())
      && (parsed.policy == SafeOn ==> l.heater.IsOn())
      && (parsed.policy == DisableRule ==> l.runtime.state == RunDisabled)
  }

  /** End to end: whenever the store is ready and the control loop is asleep, the heater is
      where the enabled rule of the durable active document puts it. */
  lemma HeaterObeysPersistedRule(d: Durable, boot: BootEnv, steps: seq<DeviceStep>, board: Board)
    requires Wired(board) && TrustworthyThroughout(DeviceRun(Booted(d, boot, board), false), steps, board)
    ensures var x := WatchDeviceRun(DeviceRun(Booted(d, boot, board), false), steps, board);
      var l, parsed := x.device.world.loop, ParseRules(x.device.store.durable.Active());
      x.device.store.ready && !x.lost && !Awake(l) && parsed.OneRule? && parsed.rule.enabled ==> ObeysRule(l, parsed)
  {
    RunsAreConsistent(d, boot, steps, board);
  }

  /** A lost announcement is on record: since the last boot the bus has refused an
      input-value or health event of the input. */
  ghost predicate OnRecord(x: DeviceRun) {
    x.lost ==> RefusedRelevant(EMPTY_BUS, x.device.world.loop.bus)
  }

  lemma RefusalsStayOnDevice(dv: Device, step: DeviceStep, board: Board)
    requires Sound(dv.world.loop) && OutputSound(dv.output) && !step.PowerFailure? && !step.Restart?
    ensures dv.world.loop.bus.refused <= AfterDeviceStep(dv, step, board).world.loop.bus.refused
  {
    match step
    case LoopEvent(loopStep) => RefusalsStay(dv.world, loopStep);
    case FireSchedule =>
      if dv.schedule.queued && dv.output.Enabled() {
        EnableExtends(dv.world.loop.bus, dv.output, dv.schedule.action.desiredOn);
      }
    case Reconfigure(op, env) => OutcomeKeepsBus(dv, AfterOp(dv.store, op, env, HostOf(board)));
  }

  lemma OutcomeKeepsBus(dv: Device, o: Outcome)
    requires Sound(dv.world.loop)
    ensures AfterOutcome(dv, o).world.loop.bus == dv.world.loop.bus
  {
    if o.activation.Some? {
      ActivateSettles(dv.world.loop, dv.world.loader, o.activation.value.raw, o.activation.value.revision);
    }
  }

  lemma StepStaysOnRecord(x: DeviceRun, step: DeviceStep, board: Board)
    requires Consistent(x) && OnRecord(x)
    ensures OnRecord(WatchDevice(x, step, board))
  {
    if !step.PowerFailure? && !step.Restart? {
      var b, b' := x.device.world.loop.bus, AfterDeviceStep(x.device, step, board).world.loop.bus;
      RefusalsStayOnDevice(x.device, step, board);
      WatchedDeviceSteps(x, step, board);
      RefusedLater(EMPTY_BUS, b, b');
    }
  }

  lemma {:induction false} RunsStayOnRecord(d: Durable, boot: BootEnv, steps: seq<DeviceStep>, board: Board)
    requires Wired(board) && TrustworthyThroughout(DeviceRun(Booted(d, boot, board), false), steps, board)
    ensures OnRecord(WatchDeviceRun(DeviceRun(Booted(d, boot, board), false), steps, board))
  {
    if steps != [] {
      var x, front := DeviceRun(Booted(d, boot, board), false), steps[..|steps| - 1];
      assert forall i :: 0 <= i < |front| ==> front[..i] == steps[..i];
      RunsStayOnRecord(d, boot, front, board);
      RunsAreConsistent(d, boot, front, board);
      StepStaysOnRecord(WatchDeviceRun(x, front, board), steps[|steps| - 1], board);
    }
  }

  /** The same in terms of the event queue: as long as the bus has refused no input-value or
      health event of the input since the last boot. */
  lemma HeaterObeysUnlessRefused(d: Durable, boot: BootEnv, steps: seq<DeviceStep>, board: Board)
    requires Wired(board) && TrustworthyThroughout(DeviceRun(Booted(d, boot, board), false), steps, board)
    ensures var dv := WatchDeviceRun(DeviceRun(Booted(d, boot, board), false), steps, board).device;
      var l, parsed := dv.world.loop, ParseRules(dv.store.durable.Active());
      dv.store.ready && !RefusedRelevant(EMPTY_BUS, l.bus) && !Awake(l) && parsed.OneRule? && parsed.rule.enabled ==>
        ObeysRule(l, parsed)
  {
    RunsStayOnRecord(d, boot, steps, board);
    HeaterObeysPersistedRule(d, boot, steps, board);
  }

  lemma BootActivatesStored(d: Durable, boot: BootEnv, board: Board) returns (raw: Raw, revision: nat)
    ensures Booted(d, boot, board).schedule
         == LocalSchedule.AfterActivateSchedule(LocalSchedule.NEW_SCHEDULE, raw, revision)
  {
    var store := AfterBegin(PowerOn(d), boot, board.sizeOf).store;
    raw, revision := ActiveJson(store), StoreRevision(store);
  }

  lemma BootKeepsScheduleLedger(d: Durable, boot: BootEnv, board: Board)
    ensures LocalSchedule.ScheduleLedger(Booted(d, boot, board).schedule)
  {
    var raw, revision := BootActivatesStored(d, boot, board);
    LocalSchedule.ActivateKeepsLedger(LocalSchedule.NEW_SCHEDULE, raw, revision);
  }

  lemma OutcomeKeepsScheduleLedger(dv: Device, o: Outcome)
    requires LocalSchedule.ScheduleLedger(dv.schedule)
    ensures LocalSchedule.ScheduleLedger(AfterOutcome(dv, o).schedule)
  {
    if o.activation.Some? {
      LocalSchedule.ActivateKeepsLedger(dv.schedule, o.activation.value.raw, o.activation.value.revision);
    }
  }

  lemma FiringKeepsScheduleLedger(dv: Device)
    requires LocalSchedule.ScheduleLedger(dv.schedule)
    ensures LocalSchedule.ScheduleLedger(ScheduleFired(dv).schedule)
  {
    LocalSchedule.FireKeepsLedger(dv.schedule, dv.output.Enabled());
  }

  lemma WatchedDeviceSteps(x: DeviceRun, step: DeviceStep, board: Board)
    ensures WatchDevice(x, step, board).device == AfterDeviceStep(x.device, step, board)
  {
  }

  lemma StepKeepsScheduleLedger(dv: Device, step: DeviceStep, board: Board)
    requires LocalSchedule.ScheduleLedger(dv.schedule)
    ensures LocalSchedule.ScheduleLedger(AfterDeviceStep(dv, step, board).schedule)
  {
    match step
    case FireSchedule => FiringKeepsScheduleLedger(dv);
    case Reconfigure(op, env) => OutcomeKeepsScheduleLedger(dv, AfterOp(dv.store, op, env, HostOf(board)));
    case PowerFailure(op, env, at, boot) =>
      BootKeepsScheduleLedger(CrashPoint(dv.store, AfterOp(dv.store, op, env, HostOf(board)), at), boot, board);
    case Restart(boot) =>
      assert AfterDeviceStep(dv, step, board) == Booted(dv.store.durable, boot, board);
      BootKeepsScheduleLedger(dv.store.durable, boot, board);
    case LoopEvent(_) =>
  }

  lemma {:induction false} RunsKeepDeviceScheduleLedger(d: Durable, boot: BootEnv, steps: seq<DeviceStep>, board: Board)
    ensures LocalSchedule.ScheduleLedger(
      WatchDeviceRun(DeviceRun(Booted(d, boot, board), false), steps, board).device.schedule)
  {
    var x := DeviceRun(Booted(d, boot, board), false);
    if steps == [] {
      BootKeepsScheduleLedger(d, boot, board);
    } else {
      RunsKeepDeviceScheduleLedger(d, boot, steps[..|steps| - 1], board);
      var before, step := WatchDeviceRun(x, steps[..|steps| - 1], board), steps[|steps| - 1];
      WatchedDeviceSteps(before, step, board);
      StepKeepsScheduleLedger(before.device, step, board);
    }
  }

  /** End to end for the delayed action: whatever happens, an action that is waiting to fire
      on a device whose store is ready is the enabled action of the durable active document. */
  lemma WaitingActionIsPersisted(d: Durable, boot: BootEnv, steps: seq<DeviceStep>, board: Board)
    requires Wired(board) && TrustworthyThroughout(DeviceRun(Booted(d, boot, board), false), steps, board)
    ensures var dv := WatchDeviceRun(DeviceRun(Booted(d, boot, board), false), steps, board).device;
      dv.store.ready && dv.schedule.queued ==>
        LocalSchedule.ParseSchedule(dv.store.durable.Active()) == LocalSchedule.OneSchedule(dv.schedule.action)
        && dv.schedule.action.enabled
  {
    RunsAreConsistent(d, boot, steps, board);
    RunsKeepDeviceScheduleLedger(d, boot, steps, board);
  }

  /** What activating a document leaves is that document, or nothing ran that it replaces. */
  ghost predicate Replaceable(w: World, s: LocalSchedule.Schedule, raw: Raw) {
    && (ParseRules(raw).ParseFailed? ==> IdleRules(w.loop))
    && (LocalSchedule.ParseSchedule(raw).ScheduleFailed? ==> !s.configured)
  }

  lemma ActivationRunsIff(w: World, s: LocalSchedule.Schedule, raw: Raw)
    requires StoredRevision(raw).Some?
    ensures var c := WithConfiguration(w, s, raw, StoredRevision(raw).value);
      RunsDocument(c.world, c.schedule, raw, StoredRevision(raw).value) <==> Replaceable(w, s, raw)
  {
    if ParseRules(raw).ParseFailed? {
      FailedParseChangesNothing(w, raw, StoredRevision(raw).value);
    } else {
      RulesRun(w, raw);
    }
    if !LocalSchedule.ParseSchedule(raw).ScheduleFailed? {
      ScheduleRuns(s, raw, StoredRevision(raw).value);
    }
  }

  /** The storage hypothesis cannot be dropped. After a commit, the running configuration is
      the persisted one if and only if what the slot reads back as is executable, or nothing
      ran before that it leaves in place. */
  lemma CommitRunsIff(dv: Device, op: Operation, env: OpEnv, board: Board)
    requires Safe(dv.store) && AfterOp(dv.store, op, env, HostOf(board)).error == None
    ensures RunningIsPersisted(AfterDeviceStep(dv, Reconfigure(op, env), board))
      <==> Replaceable(dv.world, dv.schedule, env.write.stored)
  {
    OperationKeeps(dv.store, op, env, HostOf(board));
    CommittedText(dv.store, op, env, HostOf(board));
    ActivationRunsIff(dv.world, dv.schedule, env.write.stored);
  }

  lemma FailedParseChangesNothing(w: World, raw: Raw, revision: nat)
    requires ParseRules(raw).ParseFailed?
    ensures AfterLoopStep(w, Activate(raw, revision)) == World(w.loop, w.loader.(revision := revision))
  {
  }
}

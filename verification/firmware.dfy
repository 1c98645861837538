// The globals of main.cpp, wired and stepped as setup() and loop() do it. Every method is
// tied to a step of the device specification, so the run-level theorems speak about it.
module MainProgram {
  import opened Prelude
  import opened JsonModel
  import opened ConfigurationStore
  import opened ConfigurationRuns
  import opened Events
  import opened Rules
  import opened VirtualComponents
  import opened RuleExecution
  import opened PersistedRules
  import opened ControlLoop
  import opened DeviceModel
  import opened DevicePasses
  import LocalSchedule
  import ConfigurationValidation

  /** `validatePersistedConfiguration`: the two semantic validators in turn. */
  method ValidatePersistedConfiguration(raw: Raw) returns (ok: bool)
    ensures ok == Executable(raw)
  {
    var rules := PersistedRules.ParseDocument(raw);
    if rules.ParseFailed? {
      return false;
    }
    var schedules := LocalSchedule.ParseDocument(raw);
    return !schedules.ScheduleFailed?;
  }

  lemma {:induction false} NothingLeftToHandle(l: Loop, k: nat, max: nat)
    requires k <= max && Processed(l, k).bus.pending == []
    ensures Processed(l, max) == Processed(l, k)
    decreases max
  {
    if k < max {
      NothingLeftToHandle(l, k, max - 1);
    }
  }

  lemma NextDispatch(l: Loop, event: Event, i: nat)
    requires i < |l.bus.handlers| <= MAX_HANDLERS
    ensures Dispatched(l, event, i) == Dispatched(Called(l, l.bus.handlers[i], event), event, i + 1)
  {
  }

  lemma LastDispatch(l: Loop, event: Event, i: nat)
    requires |l.bus.handlers| <= i
    ensures Dispatched(l, event, i) == l
  {
  }

  lemma ActivationStartsNothing(l: Loop, loader: Loader, raw: Raw, revision: nat)
    ensures AfterActivate(l, loader, raw, revision).loop.runtime.started == l.runtime.started
  {
    var parsed := ParseRules(raw);
    if parsed.OneRule? {
      var l1 := Refreshed(WithPolicy(l.(engine := AfterConfigure(l.engine, parsed.rule)), parsed.policy));
      assert l1.runtime.started == l.runtime.started;
      assert Requested(l1).runtime.started == l1.runtime.started;
    }
  }

  class Firmware {
    const bus: EventBus
    const input: VirtualInputComponent
    const heater: VirtualActuatorComponent
    const output: VirtualActuatorComponent
    const engine: RuleEngine
    const runtime: RuleRuntime
    const loader: PersistedRuleLoader
    const schedule: LocalSchedule.LocalScheduleService
    const nvs: Nvs
    const store: ConfigurationStore
    const sizeOf: Json -> nat

    ghost predicate Wired()
      reads this
    {
      && runtime.bus == bus && runtime.engine == engine && runtime.input == input && runtime.heater == heater
      && runtime.inputSourceId == INPUT_ID && runtime.handler == RULE_HANDLER
      && loader.runtime == runtime && schedule.output == output && output.bus == bus && output != heater
      && store.nvs == nvs && store.sizeOf == sizeOf
    }

    ghost predicate Valid()
      reads this, bus, runtime, runtime.machine, schedule, schedule.machine, store
    {
      && Wired() && runtime.Valid() && schedule.Valid() && runtime.started && schedule.machine.initialized
      && store.validator == Some(Executable) && store.activates
    }

    ghost function Snapshot(): Device
      requires Wired() && runtime.Valid()
      reads this, bus, bus.queue, bus.slots, runtime, runtime.machine, input, engine, heater, loader, schedule, output, store, nvs
    {
      Device(store.Snapshot(), World(runtime.Snapshot(), loader.Snapshot()), schedule.Snapshot(), output.Snapshot())
    }

    ghost function Self(): Board
      reads this
    {
      Board(sizeOf, ColdLoop(ColdBus()), AfterEnable(COLD_OUTPUT, false))
    }

    /** The global objects. */
    constructor (nvs: Nvs, sizeOf: Json -> nat)
      ensures PoweredOn() && this.nvs == nvs && this.sizeOf == sizeOf
    {
      this.nvs, this.sizeOf := nvs, sizeOf;
      store := new ConfigurationStore(nvs, sizeOf);
      var b := new EventBus();
      var i := new VirtualInputComponent(b, INPUT_ID);
      var h := new VirtualActuatorComponent(b, OUTPUT_ID);
      var o := new VirtualActuatorComponent(b, LocalSchedule.TARGET_ID);
      var e := new RuleEngine(b);
      var r := new RuleRuntime(b, e, i, h, INPUT_ID, RULE_HANDLER);
      bus, input, heater, output, engine, runtime := b, i, h, o, e, r;
      loader := new PersistedRuleLoader(r);
      schedule := new LocalSchedule.LocalScheduleService(o);
    }

    /** Everything is as the constructor has it. */
    ghost predicate PoweredOn()
      reads this, bus, bus.queue, bus.slots, runtime, runtime.machine, input, engine, heater, loader, schedule, schedule.machine
      reads output, store, nvs
    {
      && Wired() && runtime.Valid() && schedule.Valid()
      && store.Snapshot() == PowerOn(nvs.Contents()) && output.Snapshot() == COLD_OUTPUT
      && runtime.Snapshot() == Loop(EMPTY_BUS, COLD_INPUT, CLEARED_ENGINE, COLD_HEATER, NEW_RUNTIME)
      && loader.Snapshot() == NEW_LOADER && schedule.Snapshot() == LocalSchedule.NEW_SCHEDULE
    }

    /** Set-up, as far as this model reaches. */
    method SetUp(boot: BootEnv)
      requires PoweredOn()
      modifies nvs, store, bus, bus.queue, bus.slots, runtime, runtime.machine, input, engine, heater
      modifies output, loader, schedule, schedule.machine
      ensures Valid() && Snapshot() == Booted(old(nvs.Contents()), boot, Self())
    {
      ActivateAtBoot(boot);
      BeginSupervisor();
    }

    method ActivateAtBoot(boot: BootEnv)
      requires PoweredOn()
      modifies nvs, store, bus, bus.queue, bus.slots, runtime, runtime.machine, input, engine, heater
      modifies output, loader, schedule, schedule.machine
      ensures Valid() && Snapshot() == BootActivated(old(nvs.Contents()), boot, Self())
    {
      var _ := store.Begin(boot);
      StartComponents();
      StartConfiguration();
    }

    /** The supervisor announces that it is initializing. */
    method BeginSupervisor()
      requires Valid()
      modifies bus, bus.queue
      ensures Valid()
      ensures Snapshot() == AfterDeviceStep(old(Snapshot()), LoopEvent(ForeignPost(SUPERVISOR_BEGINS)), Self())
    {
      var _ := bus.Post(SUPERVISOR_BEGINS);
    }

    /** Install the lifecycle callbacks, then activate what the store has loaded. */
    method StartConfiguration()
      requires Wired() && runtime.Valid() && schedule.Valid() && runtime.started && schedule.machine.initialized
      modifies store, loader, runtime, runtime.machine, engine, schedule, schedule.machine
      ensures Valid() && store.Snapshot() == old(store.Snapshot())
      ensures Configured(World(runtime.Snapshot(), loader.Snapshot()), schedule.Snapshot())
           == WithConfiguration(old(World(runtime.Snapshot(), loader.Snapshot())), old(schedule.Snapshot()),
                                ActiveJson(old(store.Snapshot())), StoreRevision(old(store.Snapshot())))
    {
      store.SetLifecycleCallbacks(Some(Executable), true, true);
      ActivateStored();
    }

    method SubscribeHandlers()
      requires Wired() && runtime.Valid()
      requires bus.Snapshot() == EMPTY_BUS && engine.Snapshot() == CLEARED_ENGINE && runtime.Own() == NEW_RUNTIME
      modifies bus, bus.slots, runtime, runtime.machine
      ensures runtime.Valid() && runtime.Own() == NEW_RUNTIME.(started := true)
      ensures bus.Snapshot() == AfterSubscribe(AfterSubscribe(EMPTY_BUS, LOG_HANDLER), RULE_HANDLER)
    {
      var _ := bus.Subscribe(LOG_HANDLER);
      var started := runtime.Begin();
    }

    method EnableOutputs()
      requires Wired() && runtime.Valid()
      modifies heater, output, bus, bus.queue
      ensures runtime.Valid()
      ensures heater.Snapshot() == AfterEnable(old(heater.Snapshot()), false)
      ensures output.Snapshot() == AfterEnable(old(output.Snapshot()), false)
      ensures bus.Snapshot()
           == EnablePosts(EnablePosts(old(bus.Snapshot()), old(heater.Snapshot()), false), old(output.Snapshot()), false)
    {
      heater.Enable(false);
      output.Enable(false);
    }

    /** Subscribe the handlers, begin the components, enable both actuators OFF. */
    method StartComponents()
      requires Wired() && runtime.Valid() && schedule.Valid()
      requires runtime.Snapshot() == Loop(EMPTY_BUS, COLD_INPUT, CLEARED_ENGINE, COLD_HEATER, NEW_RUNTIME)
      requires output.Snapshot() == COLD_OUTPUT
      modifies bus, bus.queue, bus.slots, runtime, runtime.machine, input, heater, output, schedule, schedule.machine
      ensures runtime.Valid() && schedule.Valid() && runtime.started && schedule.machine.initialized
      ensures runtime.Snapshot() == ColdLoop(ColdBus())
      ensures output.Snapshot() == AfterEnable(COLD_OUTPUT, false) && schedule.Snapshot() == old(schedule.Snapshot())
    {
      SubscribeHandlers();
      var inputOk := input.Begin();
      var heaterOk := heater.Begin();
      var outputOk := output.Begin();
      EnableOutputs();
      var _ := schedule.Begin();
    }

    method SetValue(value: Float) returns (ok: bool)
      requires Valid()
      modifies input, bus, bus.queue
      ensures Valid() && ok == value.Finite?
      ensures Snapshot() == AfterDeviceStep(old(Snapshot()), LoopEvent(ControlLoop.SetValue(value)), Self())
    {
      ok := input.SetValue(value);
    }

    method InjectFault(code: string)
      requires Valid()
      modifies input, bus, bus.queue
      ensures Valid()
      ensures Snapshot() == AfterDeviceStep(old(Snapshot()), LoopEvent(ControlLoop.InjectFault(code)), Self())
    {
      var _ := input.InjectFault(code);
    }

    method Recover()
      requires Valid()
      modifies input, bus, bus.queue
      ensures Valid()
      ensures Snapshot() == AfterDeviceStep(old(Snapshot()), LoopEvent(ControlLoop.Recover), Self())
    {
      input.Recover();
    }

    method DisableInput()
      requires Valid()
      modifies input, bus, bus.queue
      ensures Valid()
      ensures Snapshot() == AfterDeviceStep(old(Snapshot()), LoopEvent(ControlLoop.DisableInput), Self())
    {
      input.Disable();
    }

    /** The handlers of the event whose delivery is in progress. */
    method Dispatch(event: Event)
      requires Valid()
      modifies runtime, runtime.machine, bus`delivered
      ensures Valid() && runtime.Snapshot() == Dispatched(old(runtime.Snapshot()), event, 0)
    {
      var i := 0;
      ghost var whole := Dispatched(runtime.Snapshot(), event, 0);
      while i < bus.handlerCount
        invariant Valid() && i <= bus.handlerCount
        invariant whole == Dispatched(runtime.Snapshot(), event, i)
      {
        NextDispatch(runtime.Snapshot(), event, i);
        CallHandler(bus.slots[i], event);
        i := i + 1;
      }
      LastDispatch(runtime.Snapshot(), event, i);
    }

    method CallHandler(handler: Handler, event: Event)
      requires Valid()
      modifies runtime, runtime.machine, bus`delivered
      ensures Valid() && runtime.Snapshot() == Called(old(runtime.Snapshot()), handler, event)
    {
      bus.Note(handler);
      if handler == RULE_HANDLER {
        runtime.HandleEvent(event);
      }
    }

    method HandleOldest()
      requires Valid() && bus.count > 0
      modifies runtime, runtime.machine, bus
      ensures Valid() && runtime.Snapshot() == HandledNext(old(runtime.Snapshot()))
    {
      var event := bus.Take();
      Dispatch(event);
    }

    method ProcessEvents(max: nat)
      requires Valid()
      modifies runtime, runtime.machine, bus
      ensures Valid() && runtime.Snapshot() == Processed(old(runtime.Snapshot()), max)
    {
      var processed := 0;
      while bus.count > 0 && processed < max
        invariant Valid() && processed <= max
        invariant runtime.Snapshot() == Processed(old(runtime.Snapshot()), processed)
        decreases max - processed
      {
        HandleOldest();
        processed := processed + 1;
      }
      if processed < max {
        NothingLeftToHandle(old(runtime.Snapshot()), processed, max);
      }
    }

    /** One pass of the scheduler: the rule task, the delayed action if it is due, then the other
        tasks of main.cpp, which were added after them, as far as they post events. */
    method ExecuteScheduler(round: Round)
      requires Valid()
      modifies runtime, runtime.machine, engine, heater, output, bus, bus.queue, schedule, schedule.machine
      ensures Valid() && Snapshot() == Scheduled(old(Snapshot()), round)
    {
      ExecuteRuleTask();
      if round.due {
        ExecuteScheduleTask();
      }
      ExecuteOthers(round.others);
    }

    method ExecuteOthers(events: seq<Event>)
      requires Valid()
      modifies bus, bus.queue
      ensures Valid() && Snapshot() == WithLoop(old(Snapshot()), Posted(old(Snapshot()).world.loop, events))
    {
      for i := 0 to |events|
        invariant Valid()
        invariant Snapshot() == WithLoop(old(Snapshot()), Posted(old(Snapshot()).world.loop, events[..i]))
      {
        assert events[..i + 1][..i] == events[..i];
        var _ := bus.Post(events[i]);
      }
      assert events[..|events|] == events;
    }

    method ExecuteRuleTask()
      requires Valid()
      modifies runtime, runtime.machine, engine, heater, bus, bus.queue
      ensures Valid() && Snapshot() == WithLoop(old(Snapshot()), Fired(old(Snapshot()).world.loop))
    {
      runtime.FireTask();
    }

    method ExecuteScheduleTask()
      requires Valid()
      modifies output, bus, bus.queue, schedule, schedule.machine
      ensures Valid() && Snapshot() == ScheduleFired(old(Snapshot()))
    {
      schedule.FireTask();
    }

    /** One pass of the main loop, from the scheduler to the event queue. */
    method Pass(round: Round)
      requires Valid()
      modifies runtime, runtime.machine, engine, heater, output, bus, bus.queue, schedule, schedule.machine
      ensures Valid() && Snapshot() == AfterPass(old(Snapshot()), round)
    {
      ExecuteScheduler(round);
      ProcessEvents(8);
    }

    method ActivateRules(revision: nat, raw: Raw)
      requires Wired() && runtime.Valid()
      modifies loader, runtime, runtime.machine, engine
      ensures runtime.Valid() && runtime.started == old(runtime.started)
      ensures World(runtime.Snapshot(), loader.Snapshot())
           == AfterLoopStep(old(World(runtime.Snapshot(), loader.Snapshot())), Activate(raw, revision))
    {
      ghost var w := World(runtime.Snapshot(), loader.Snapshot());
      var _ := loader.ActivateDocument(raw, revision);
      ActivationStartsNothing(w.loop, w.loader, raw, revision);
    }

    /** `activatePersistedConfiguration` */
    method ActivatePersistedConfiguration(revision: nat, raw: Raw)
      requires Wired() && runtime.Valid() && schedule.Valid() && schedule.machine.initialized
      modifies loader, runtime, runtime.machine, engine, schedule, schedule.machine
      ensures runtime.Valid() && schedule.Valid()
      ensures runtime.started == old(runtime.started) && schedule.machine.initialized
      ensures Configured(World(runtime.Snapshot(), loader.Snapshot()), schedule.Snapshot())
           == WithConfiguration(old(World(runtime.Snapshot(), loader.Snapshot())), old(schedule.Snapshot()), raw, revision)
    {
      ActivateRules(revision, raw);
      var _ := schedule.ActivateDocument(raw, revision);
    }

    /** The same at set-up, with `ConfigurationStore::activeJson()` and `revision()`. */
    method ActivateStored()
      requires Wired() && runtime.Valid() && schedule.Valid() && schedule.machine.initialized
      modifies loader, runtime, runtime.machine, engine, schedule, schedule.machine
      ensures runtime.Valid() && schedule.Valid()
      ensures runtime.started == old(runtime.started) && schedule.machine.initialized
      ensures Configured(World(runtime.Snapshot(), loader.Snapshot()), schedule.Snapshot())
           == WithConfiguration(old(World(runtime.Snapshot(), loader.Snapshot())), old(schedule.Snapshot()),
                                ActiveJson(store.Snapshot()), StoreRevision(store.Snapshot()))
    {
      if store.ready {
        ActivatePersistedConfiguration(store.revision, store.raw);
      } else {
        ActivatePersistedConfiguration(0, Raw(2, Some(Object(map[]))));
      }
    }

    /** The store's activation callback, when a commit has something to activate. */
    method CallBack(activation: Option<Activation>)
      requires Valid()
      modifies loader, runtime, runtime.machine, engine, schedule, schedule.machine
      ensures Valid()
      ensures Configured(World(runtime.Snapshot(), loader.Snapshot()), schedule.Snapshot())
           == if activation.None? then old(Configured(World(runtime.Snapshot(), loader.Snapshot()), schedule.Snapshot()))
              else WithConfiguration(old(World(runtime.Snapshot(), loader.Snapshot())), old(schedule.Snapshot()),
                                     activation.value.raw, activation.value.revision)
    {
      if activation.Some? && store.activates {
        ActivatePersistedConfiguration(activation.value.revision, activation.value.raw);
      }
    }

    method Apply(candidate: Raw, env: OpEnv) returns (error: Option<ConfigurationValidation.ConfigError>)
      requires Valid()
      modifies store, nvs, loader, runtime, runtime.machine, engine, schedule, schedule.machine
      ensures Valid()
      ensures error == AfterApply(old(store.Snapshot()), candidate, env, HostOf(Self())).error
      ensures Snapshot() == AfterDeviceStep(old(Snapshot()), Reconfigure(ApplyOp(candidate), env), Self())
    {
      var activation;
      error, activation := store.Apply(candidate, env);
      CallBack(activation);
    }

    method Rollback(env: OpEnv) returns (error: Option<ConfigurationValidation.ConfigError>)
      requires Valid()
      modifies store, nvs, loader, runtime, runtime.machine, engine, schedule, schedule.machine
      ensures Valid()
      ensures error == AfterRollback(old(store.Snapshot()), env, HostOf(Self())).error
      ensures Snapshot() == AfterDeviceStep(old(Snapshot()), Reconfigure(RollbackOp, env), Self())
    {
      var activation;
      error, activation := store.Rollback(env);
      CallBack(activation);
    }
  }
}

// Rules::RuleRuntime: turns bus events into at most one queued one-shot evaluation, and an
// evaluation into an actuator command or a fault-policy action. Its providers are those
// wired by main.cpp: the virtual temperature input and the virtual heater.
module RuleExecution {
  import opened Prelude
  import opened Events
  import opened Fsm
  import opened FaultPolicy
  import opened Rules
  import opened VirtualComponents

  datatype RunState = RunDisabled | Armed | Evaluating
  datatype RunEvent = EventArm | EventDisarm | EventEvaluate | EventDone

  const RUN_TABLE: seq<Transition<RunState, RunEvent>> := [
    Transition(RunDisabled, EventArm, Armed),
    Transition(Armed, EventDisarm, RunDisabled),
    Transition(Armed, EventEvaluate, Evaluating),
    Transition(Evaluating, EventDone, Armed),
    Transition(Evaluating, EventDisarm, RunDisabled)]

  /** What the table amounts to. */
  function RunNext(state: RunState, event: RunEvent): RunState {
    match (state, event)
    case (RunDisabled, EventArm) => Armed
    case (Armed, EventDisarm) => RunDisabled
    case (Armed, EventEvaluate) => Evaluating
    case (Evaluating, EventDone) => Armed
    case (Evaluating, EventDisarm) => RunDisabled
    case _ => state
  }

  lemma RunTableGives(state: RunState, event: RunEvent)
    ensures After(RUN_TABLE, state, event) == RunNext(state, event)
  {
    var t := RUN_TABLE;
    if i :| 0 <= i < |t| && t[i].from == state && t[i].event == event {
      NextIsFirstMatch(t, state, event, i);
    } else {
      NoMatch(t, state, event);
    }
  }

  /** A TaskScheduler one-shot task: enabled while queued and while its callback runs,
      disabled once the callback has returned. */
  datatype Task = Idle | Queued | Running {
    predicate IsEnabled() {
      !Idle?
    }
  }

  /** The 32-bit counters of the status page. */
  datatype Counters = Counters(
    request: nat, scheduled: nat, coalesced: nat, completed: nat, rejected: nat, policyAction: nat, alarm: nat)

  /** History, counted without bound. */
  datatype Tally = Tally(
    requests: nat, scheduled: nat, coalesced: nat, requestRejections: nat,
    firings: nat, cancellations: nat, evaluations: nat, runRejections: nat)

  datatype Runtime = Runtime(
    state: RunState, policy: Policy, started: bool, pending: bool, task: Task, counters: Counters, tally: Tally)

  const NEW_RUNTIME := Runtime(
    RunDisabled, SafeOff, false, false, Idle, Counters(0, 0, 0, 0, 0, 0, 0), Tally(0, 0, 0, 0, 0, 0, 0, 0))

  /** The bus, the input, the engine, the heater and the runtime between them. */
  datatype Loop = Loop(bus: Bus, input: Input, engine: Engine, heater: Actuator, runtime: Runtime)

  function CountRequest(r: Runtime): Runtime {
    r.(counters := r.counters.(request := Inc32(r.counters.request)),
       tally := r.tally.(requests := r.tally.requests + 1))
  }

  function CountScheduled(r: Runtime): Runtime {
    r.(counters := r.counters.(scheduled := Inc32(r.counters.scheduled)),
       tally := r.tally.(scheduled := r.tally.scheduled + 1))
  }

  function CountCoalesced(r: Runtime): Runtime {
    r.(counters := r.counters.(coalesced := Inc32(r.counters.coalesced)),
       tally := r.tally.(coalesced := r.tally.coalesced + 1))
  }

  function RejectRequest(r: Runtime): Runtime {
    r.(counters := r.counters.(rejected := Inc32(r.counters.rejected)),
       tally := r.tally.(requestRejections := r.tally.requestRejections + 1))
  }

  function RejectRun(r: Runtime): Runtime {
    r.(counters := r.counters.(rejected := Inc32(r.counters.rejected)),
       tally := r.tally.(runRejections := r.tally.runRejections + 1))
  }

  function CountPolicyAction(r: Runtime): Runtime {
    r.(counters := r.counters.(policyAction := Inc32(r.counters.policyAction)))
  }

  function CountAlarm(r: Runtime): Runtime {
    r.(counters := r.counters.(alarm := Inc32(r.counters.alarm)))
  }

  function CountCompleted(r: Runtime): Runtime {
    r.(counters := r.counters.(completed := Inc32(r.counters.completed)))
  }

  function Move(r: Runtime, event: RunEvent): Runtime {
    r.(state := RunNext(r.state, event))
  }

  /** The task is disabled; dropping a queued firing is a cancellation. */
  function Cancel(r: Runtime): Runtime {
    r.(pending := false, task := Idle,
       tally := if r.task.Queued? then r.tally.(cancellations := r.tally.cancellations + 1) else r.tally)
  }

  predicate Suspended(r: Runtime, health: HealthState) {
    r.policy == DisableRule && health != Ok
  }

  function AfterRefresh(r: Runtime, enabled: bool, health: HealthState): Runtime {
    if !r.started then r
    else if !enabled || Suspended(r, health) then
      if r.state != RunDisabled then Move(Cancel(r), EventDisarm) else Cancel(r)
    else if r.state == RunDisabled then Move(r, EventArm)
    else r
  }

  function AfterRequest(r: Runtime, enabled: bool, health: HealthState, ready: bool): Runtime {
    var r1 := AfterRefresh(CountRequest(r), enabled, health);
    if !enabled then RejectRequest(r1)
    else if Suspended(r1, health) then RejectRequest(r1)
    else if health == Ok && !ready then RejectRequest(r1)
    else if r1.state != Armed then RejectRequest(r1)
    else if r1.task.IsEnabled() then CountCoalesced(r1.(pending := true))
    else CountScheduled(r1.(pending := true, task := Queued))
  }

  function AfterPolicy(r: Runtime, policy: Policy, enabled: bool, health: HealthState): Runtime {
    AfterRefresh(r.(policy := policy), enabled, health)
  }

  predicate Relevant(source: string, event: Event) {
    (source == "" || event.source == source)
    && (event.kind == INPUT_VALUE_CHANGED || event.kind == HEALTH_CHANGED)
  }

  function Refreshed(l: Loop): Loop {
    l.(runtime := AfterRefresh(l.runtime, l.engine.Enabled(), l.input.health.state))
  }

  function Requested(l: Loop): Loop {
    l.(runtime := AfterRequest(l.runtime, l.engine.Enabled(), l.input.health.state, l.input.hasValue))
  }

  function Handled(l: Loop, source: string, event: Event): Loop {
    if Relevant(source, event) then Requested(l) else l
  }

  /** A command to the heater. */
  function Driven(l: Loop, on: bool): Loop {
    l.(heater := AfterApplyDesired(l.heater, on), bus := ApplyDesiredPosts(l.bus, l.heater, on))
  }

  /** The action of a policy that does not suspend the rule. */
  function PolicyActed(l: Loop, resolution: Resolution): Loop {
    if resolution.applyDesired then
      if l.heater.Enabled() then Driven(l, resolution.desiredOn)
      else l.(runtime := RejectRun(l.runtime))
    else if resolution.alarmOnly then l.(runtime := CountAlarm(l.runtime))
    else l
  }

  function Moved(l: Loop, event: RunEvent): Loop {
    l.(runtime := Move(l.runtime, event))
  }

  /** The callback while the dependency is not healthy. */
  function ExecutedPolicy(l: Loop): Loop {
    var counted := l.(runtime := CountPolicyAction(l.runtime));
    var resolution := Resolve(l.runtime.policy, l.heater.IsOn());
    if resolution.suspendRule then Refreshed(counted.(runtime := RejectRun(counted.runtime)))
    else Moved(PolicyActed(Moved(counted, EventEvaluate), resolution), EventDone)
  }

  function CountEvaluation(r: Runtime): Runtime {
    r.(tally := r.tally.(evaluations := r.tally.evaluations + 1))
  }

  /** The call of `engine_.evaluate` on the current value and output. */
  function Evaluated(l: Loop): Loop {
    l.(runtime := CountEvaluation(l.runtime),
       engine := AfterEvaluate(l.engine, Finite(l.input.value), l.heater.IsOn()),
       bus := EvaluatePosts(l.bus, l.engine, Finite(l.input.value), l.heater.IsOn()))
  }

  function ActedOn(l: Loop, result: Evaluation): Loop {
    if !result.ok || result.decision == RuleDisabled || !l.heater.Enabled() then
      l.(runtime := RejectRun(l.runtime))
    else
      var driven := Driven(l, result.desired);
      driven.(runtime := CountCompleted(driven.runtime))
  }

  /** The callback while the dependency is healthy. */
  function ExecutedRule(l: Loop): Loop {
    if !l.input.hasValue then l.(runtime := RejectRun(l.runtime))
    else
      var result := Evaluate(l.engine, Finite(l.input.value), l.heater.IsOn());
      var l2 := ActedOn(Evaluated(Moved(l, EventEvaluate)), result);
      Moved(l2, if l2.engine.Enabled() then EventDone else EventDisarm)
  }

  function Executed(l: Loop): Loop {
    var l1 := l.(runtime := l.runtime.(pending := false));
    if !l1.engine.Enabled() then Refreshed(l1.(runtime := RejectRun(l1.runtime)))
    else if l1.input.health.state != Ok then ExecutedPolicy(l1)
    else ExecutedRule(l1)
  }

  function Starts(r: Runtime): Runtime {
    r.(task := Running, tally := r.tally.(firings := r.tally.firings + 1))
  }

  function Returned(l: Loop): Loop {
    l.(runtime := l.runtime.(task := Idle))
  }

  /** One scheduler pass over the one-shot task. */
  function Fired(l: Loop): Loop {
    if l.runtime.task != Queued then l
    else Returned(Executed(l.(runtime := Starts(l.runtime))))
  }

  function AfterBeginRuntime(l: Loop, handler: Handler): Loop {
    if l.runtime.started then l
    else
      var subscribed := l.(bus := AfterSubscribe(l.bus, handler));
      if handler == 0 || |l.bus.handlers| >= MAX_HANDLERS then subscribed
      else Refreshed(subscribed.(runtime := l.runtime.(started := true)))
  }

  // ---- The class -------------------------------------------------------------

  class RuleRuntime {
    const bus: EventBus
    const engine: RuleEngine
    const input: VirtualInputComponent
    const heater: VirtualActuatorComponent
    const inputSourceId: string
    const machine: Machine<RunState, RunEvent>
    const handler: Handler
    var state: RunState
    var policy: Policy
    var started: bool
    var pending: bool
    var task: Task
    var counters: Counters
    ghost var tally: Tally

    ghost function Own(): Runtime
      reads this
    {
      Runtime(state, policy, started, pending, task, counters, tally)
    }

    /** The objects of the loop are wired to one bus, and the state mirror agrees with the
        state machine. */
    ghost predicate Valid()
      reads this, bus, machine
    {
      && bus.Valid() && engine.bus == bus && input.bus == bus && heater.bus == bus
      && machine.table == RUN_TABLE && machine.current == state
      && machine.initialized == started
      && (!started ==> state == RunDisabled && task == Idle)
    }

    ghost function Snapshot(): Loop
      requires Valid()
      reads this, bus, bus.queue, bus.slots, machine, input, engine, heater
    {
      Loop(bus.Snapshot(), input.Snapshot(), engine.Snapshot(), heater.Snapshot(), Own())
    }

    constructor (bus: EventBus, engine: RuleEngine, input: VirtualInputComponent,
                 heater: VirtualActuatorComponent, inputSourceId: string, handler: Handler)
      requires bus.Valid() && engine.bus == bus && input.bus == bus && heater.bus == bus
      ensures Valid() && Own() == NEW_RUNTIME && fresh(machine)
      ensures this.bus == bus && this.engine == engine && this.input == input && this.heater == heater
      ensures this.inputSourceId == inputSourceId && this.handler == handler
    {
      this.bus, this.engine, this.input, this.heater := bus, engine, input, heater;
      this.inputSourceId, this.handler := inputSourceId, handler;
      state, policy, started, pending, task := RunDisabled, SafeOff, false, false, Idle;
      counters := Counters(0, 0, 0, 0, 0, 0, 0);
      tally := Tally(0, 0, 0, 0, 0, 0, 0, 0);
      var m := new Machine<RunState, RunEvent>(RunDisabled);
      m.AddTransition(RunDisabled, Armed, EventArm);
      m.AddTransition(Armed, RunDisabled, EventDisarm);
      m.AddTransition(Armed, Evaluating, EventEvaluate);
      m.AddTransition(Evaluating, Armed, EventDone);
      m.AddTransition(Evaluating, RunDisabled, EventDisarm);
      machine := m;
    }

    /** Subscribes, enters the initial state and checks eligibility, the first time. */
    method Begin() returns (ok: bool)
      requires Valid()
      modifies this, machine, bus, bus.slots
      ensures Valid()
      ensures Snapshot() == AfterBeginRuntime(old(Snapshot()), handler)
      ensures ok == started
    {
      if started {
        return true;
      }
      ok := bus.Subscribe(handler);
      if !ok {
        return;
      }
      var entered := machine.RunMachine();
      if entered.Some? {
        state := entered.value;
      }
      started := true;
      RefreshEligibility();
    }

    /** An event for the machine: the on-enter action of the new state sets the mirror. */
    method Trigger(event: RunEvent)
      requires Valid() && started
      modifies this`state, machine
      ensures Valid() && Own() == Move(old(Own()), event)
    {
      RunTableGives(state, event);
      var entered := machine.Trigger(event);
      if entered.Some? {
        state := entered.value;
      }
    }

    method RefreshEligibility()
      requires Valid()
      modifies this, machine
      ensures Valid()
      ensures Own() == AfterRefresh(old(Own()), engine.Snapshot().Enabled(), input.health.state)
    {
      if !started {
        return;
      }
      var suspends := policy == DisableRule && input.health.state != Ok;
      if !(engine.configured && engine.rule.enabled) || suspends {
        pending := false;
        if task.IsEnabled() {
          if task.Queued? {
            tally := tally.(cancellations := tally.cancellations + 1);
          }
          task := Idle;
        }
        if state != RunDisabled {
          Trigger(EventDisarm);
        }
        return;
      }
      if state == RunDisabled {
        Trigger(EventArm);
      }
    }

    method SetFaultPolicy(policy: Policy)
      requires Valid()
      modifies this, machine
      ensures Valid()
      ensures Own() == AfterPolicy(old(Own()), policy, engine.Snapshot().Enabled(), input.health.state)
    {
      this.policy := policy;
      RefreshEligibility();
    }

    method RejectTheRequest()
      modifies this`counters, this`tally
      ensures Own() == RejectRequest(old(Own()))
    {
      counters := counters.(rejected := Inc32(counters.rejected));
      tally := tally.(requestRejections := tally.requestRejections + 1);
    }

    method RejectTheRun()
      modifies this`counters, this`tally
      ensures Own() == RejectRun(old(Own()))
    {
      counters := counters.(rejected := Inc32(counters.rejected));
      tally := tally.(runRejections := tally.runRejections + 1);
    }

    /** The part of a request that comes once the rule is eligible. */
    method Schedule()
      modifies this`pending, this`task, this`counters, this`tally
      ensures Own() == if old(task).IsEnabled() then CountCoalesced(old(Own()).(pending := true))
                       else CountScheduled(old(Own()).(pending := true, task := Queued))
    {
      pending := true;
      if task.IsEnabled() {
        counters := counters.(coalesced := Inc32(counters.coalesced));
        tally := tally.(coalesced := tally.coalesced + 1);
      } else {
        task := Queued;
        counters := counters.(scheduled := Inc32(counters.scheduled));
        tally := tally.(scheduled := tally.scheduled + 1);
      }
    }

    method RequestEvaluation() returns (accepted: bool)
      requires Valid()
      modifies this, machine
      ensures Valid()
      ensures Own() == AfterRequest(old(Own()), engine.Snapshot().Enabled(), input.health.state, input.hasValue)
      ensures accepted <==> Own().tally.requestRejections == old(Own()).tally.requestRejections
      ensures accepted ==> pending && task.IsEnabled() && state == Armed
    {
      counters := counters.(request := Inc32(counters.request));
      tally := tally.(requests := tally.requests + 1);
      assert Own() == CountRequest(old(Own()));
      RefreshEligibility();
      var healthy := input.health.state == Ok;
      if !(engine.configured && engine.rule.enabled)
        || (!healthy && policy == DisableRule)
        || (healthy && !input.hasValue)
        || state != Armed
      {
        RejectTheRequest();
        return false;
      }
      Schedule();
      return true;
    }

    method HandleEvent(event: Event)
      requires Valid()
      modifies this, machine
      ensures Valid() && Snapshot() == Handled(old(Snapshot()), inputSourceId, event)
    {
      if inputSourceId != "" && event.source != inputSourceId {
        return;
      }
      if event.kind == INPUT_VALUE_CHANGED {
        var _ := RequestEvaluation();
        return;
      }
      if event.kind == HEALTH_CHANGED {
        var _ := RequestEvaluation();
      }
    }

    method ActOnPolicy(resolution: Resolution)
      requires Valid() && started
      modifies this`counters, this`tally, heater, bus, bus.queue
      ensures Valid() && Snapshot() == PolicyActed(old(Snapshot()), resolution)
    {
      if resolution.applyDesired {
        var applied := heater.ApplyDesired(resolution.desiredOn);
        if !applied {
          RejectTheRun();
        }
      } else if resolution.alarmOnly {
        counters := counters.(alarm := Inc32(counters.alarm));
      }
    }

    method ExecutePolicy()
      requires Valid() && started
      modifies this, machine, heater, bus, bus.queue
      ensures Valid() && Snapshot() == ExecutedPolicy(old(Snapshot()))
    {
      var resolution := Resolve(policy, heater.state == On);
      counters := counters.(policyAction := Inc32(counters.policyAction));
      if resolution.suspendRule {
        RejectTheRun();
        RefreshEligibility();
        return;
      }
      Trigger(EventEvaluate);
      ActOnPolicy(resolution);
      Trigger(EventDone);
    }

    method EvaluateNow() returns (result: Evaluation)
      requires Valid() && started
      modifies this`tally, engine, bus, bus.queue
      ensures Valid() && Snapshot() == Evaluated(old(Snapshot()))
      ensures result == Evaluate(old(engine.Snapshot()), Finite(input.value), heater.Snapshot().IsOn())
    {
      tally := tally.(evaluations := tally.evaluations + 1);
      result := engine.EvaluateInput(Finite(input.value), heater.state == On);
    }

    method ActOn(result: Evaluation)
      requires Valid() && started
      modifies this`counters, this`tally, heater, bus, bus.queue
      ensures Valid() && Snapshot() == ActedOn(old(Snapshot()), result)
    {
      var applied := false;
      if result.ok && result.decision != RuleDisabled {
        applied := heater.ApplyDesired(result.desired);
      }
      if applied {
        counters := counters.(completed := Inc32(counters.completed));
      } else {
        RejectTheRun();
      }
    }

    method ExecuteRule()
      requires Valid() && started
      modifies this, machine, engine, heater, bus, bus.queue
      ensures Valid() && Snapshot() == ExecutedRule(old(Snapshot()))
    {
      if !input.hasValue {
        RejectTheRun();
        return;
      }
      Trigger(EventEvaluate);
      assert Snapshot() == Moved(old(Snapshot()), EventEvaluate);
      var result := EvaluateNow();
      ActOn(result);
      if engine.configured && engine.rule.enabled {
        Trigger(EventDone);
      } else {
        Trigger(EventDisarm);
      }
    }

    method ExecuteEvaluation()
      requires Valid() && started
      modifies this, machine, engine, heater, bus, bus.queue
      ensures Valid() && Snapshot() == Executed(old(Snapshot()))
    {
      pending := false;
      if !(engine.configured && engine.rule.enabled) {
        RejectTheRun();
        RefreshEligibility();
        return;
      }
      if input.health.state != Ok {
        ExecutePolicy();
      } else {
        ExecuteRule();
      }
    }

    /** The scheduler runs the callback of a queued task and disables it afterwards. */
    method FireTask()
      requires Valid()
      modifies this, machine, engine, heater, bus, bus.queue
      ensures Valid() && Snapshot() == Fired(old(Snapshot()))
    {
      if task == Queued {
        task := Running;
        tally := tally.(firings := tally.firings + 1);
        assert Snapshot() == old(Snapshot()).(runtime := Starts(old(Own())));
        ExecuteEvaluation();
        assert Snapshot() == Executed(old(Snapshot()).(runtime := Starts(old(Own()))));
        task := Idle;
      }
    }
  }
}

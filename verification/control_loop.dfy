// The local control loop as main.cpp wires it: input -> event bus -> rule runtime ->
// one-shot task -> rule engine or fault policy -> heater.
module ControlLoop {
  import opened Prelude
  import opened JsonModel
  import opened Events
  import opened FaultPolicy
  import opened Rules
  import opened VirtualComponents
  import opened RuleExecution
  import opened PersistedRules

  const LOG_HANDLER: Handler := 1
  const RULE_HANDLER: Handler := 2

  datatype World = World(loop: Loop, loader: Loader)

  // ---- Delivery --------------------------------------------------------------

  /** One handler is called; only the rule runtime reacts. */
  function Called(l: Loop, handler: Handler, event: Event): Loop {
    var noted := l.(bus := Invoked(l.bus, handler));
    if handler == RULE_HANDLER then Handled(noted, INPUT_ID, event) else noted
  }

  /** Handlers i, i + 1, ... are called with the event whose delivery is in progress. */
  function Dispatched(l: Loop, event: Event, i: nat): Loop
    decreases MAX_HANDLERS - i
  {
    if i < |l.bus.handlers| && i < MAX_HANDLERS then Dispatched(Called(l, l.bus.handlers[i], event), event, i + 1)
    else l
  }

  /** The oldest pending event, if any, is taken and handled. */
  function HandledNext(l: Loop): Loop {
    if l.bus.pending == [] then l
    else Dispatched(l.(bus := Begun(l.bus)), l.bus.pending[0], 0)
  }

  function Processed(l: Loop, k: nat): Loop {
    if k == 0 then l else HandledNext(Processed(l, k - 1))
  }

  // ---- Steps -----------------------------------------------------------------

  /** One thing that happens: a call on the input, a post by some other component, the
      handling of one event, a scheduler pass, or the activation of a document. */
  datatype LoopStep =
    | SetValue(value: Float)
    | InjectFault(code: string)
    | Recover
    | DisableInput
    | ForeignPost(event: Event)
    | HandleNext
    | Fire
    | Activate(raw: Raw, revision: nat)

  function InputMoved(l: Loop, state: InputState, health: Health): Loop {
    l.(input := AfterInputTransition(l.input, state, health),
       bus := InputTransitionPosts(l.bus, l.input, state, health))
  }

  function ValueSet(l: Loop, value: Float): Loop {
    l.(input := AfterSetValue(l.input, value), bus := SetValuePosts(l.bus, l.input, value))
  }

  function AfterLoopStep(w: World, step: LoopStep): World {
    var l := w.loop;
    match step
    case SetValue(value) => w.(loop := ValueSet(l, value))
    case InjectFault(code) => w.(loop := InputMoved(l, InputFault, Health(Fault, FaultCode(code))))
    case Recover => w.(loop := InputMoved(l, RecoveredState(l.input), RecoveredHealth(l.input)))
    case DisableInput =>
      w.(loop := InputMoved(l.(input := l.input.(hasValue := false)), InputDisabled, DISABLED_HEALTH))
    case ForeignPost(event) => w.(loop := l.(bus := AfterPost(l.bus, event)))
    case HandleNext => w.(loop := HandledNext(l))
    case Fire => w.(loop := Fired(l))
    case Activate(raw, revision) =>
      var a := AfterActivate(l, w.loader, raw, revision);
      World(a.loop, a.loader)
  }

  function AfterLoopRun(w: World, steps: seq<LoopStep>): World {
    if steps == [] then w else AfterLoopStep(AfterLoopRun(w, steps[..|steps| - 1]), steps[|steps| - 1])
  }

  // ---- What every step keeps -------------------------------------------------

  ghost predicate InputSound(i: Input) {
    i.id == INPUT_ID && (i.health.state == Ok ==> i.hasValue)
  }

  ghost predicate HeaterSound(a: Actuator) {
    a.id == OUTPUT_ID && a.Enabled() && a.health == OK_HEALTH
  }

  ghost predicate EngineSound(e: Engine) {
    e.configured ==> Banded(e.rule)
  }

  /** Between steps the runtime is never EVALUATING, the task never mid-callback, pending
      agrees with the task, and a queued task means ARMED. */
  ghost predicate RuntimeTidy(r: Runtime) {
    && r.started && r.state != Evaluating && r.task != Running
    && (r.pending <==> r.task == Queued)
    && (r.task == Queued ==> r.state == Armed)
  }

  ghost predicate RuntimeSound(r: Runtime, enabled: bool) {
    RuntimeTidy(r) && (r.state == Armed ==> enabled)
  }

  ghost predicate Subscribed(b: Bus) {
    && Distinct(b.handlers) && RULE_HANDLER in b.handlers && |b.handlers| <= MAX_HANDLERS
    && |b.pending| <= QUEUE_SIZE
  }

  ghost predicate Sound(l: Loop) {
    && InputSound(l.input) && HeaterSound(l.heater) && EngineSound(l.engine)
    && RuntimeSound(l.runtime, l.engine.Enabled()) && Subscribed(l.bus)
  }

  lemma RefreshSound(r: Runtime, enabled: bool, health: HealthState)
    requires RuntimeTidy(r)
    ensures var r' := AfterRefresh(r, enabled, health);
      && RuntimeSound(r', enabled)
      && (r'.state == Armed <==> enabled && !Suspended(r, health))
      && r'.policy == r.policy
  {
  }

  /** A request on an enabled rule with a usable input queues the task, unless the policy
      suspends the rule, which is then disarmed. */
  lemma RequestQueues(l: Loop)
    requires Sound(l)
    ensures var l' := Requested(l);
      && Sound(l') && l' == l.(runtime := l'.runtime) && l'.runtime.policy == l.runtime.policy
      && (l.engine.Enabled() && !Suspended(l.runtime, l.input.health.state) ==> l'.runtime.task == Queued)
      && (Suspended(l.runtime, l.input.health.state) ==> l'.runtime.state == RunDisabled)
  {
    RefreshSound(CountRequest(l.runtime), l.engine.Enabled(), l.input.health.state);
  }

  lemma CalledIs(l: Loop, done: seq<Delivery>, event: Event, i: nat)
    requires Sound(l) && InProgress(l.bus, done, event, i) && i < |l.bus.handlers|
    ensures var handler := l.bus.handlers[i];
      var l' := Called(l, handler, event);
      && Sound(l') && InProgress(l'.bus, done, event, i + 1)
      && l' == (if handler == RULE_HANDLER then Handled(l, INPUT_ID, event) else l).(bus := l'.bus)
      && l'.bus == l.bus.(delivered := l'.bus.delivered)
  {
    RequestQueues(l);
    assert l.bus.delivered[..|l.bus.delivered| - 1] == done;
    assert l.bus.handlers[..i] + [l.bus.handlers[i]] == l.bus.handlers[..i + 1];
  }

  /** Distinct handlers: each is called once, in order, and so the runtime handles the event
      exactly once. */
  lemma {:induction false} DispatchedOnce(l: Loop, done: seq<Delivery>, event: Event, i: nat)
    requires Sound(l) && InProgress(l.bus, done, event, i)
    ensures Dispatched(l, event, i) ==
      (if RULE_HANDLER in l.bus.handlers[i..] then Handled(l, INPUT_ID, event) else l)
        .(bus := l.bus.(delivered := done + [Delivery(event, l.bus.handlers)]))
    decreases |l.bus.handlers| - i
  {
    if i < |l.bus.handlers| {
      CalledIs(l, done, event, i);
      DispatchedOnce(Called(l, l.bus.handlers[i], event), done, event, i + 1);
      assert l.bus.handlers[i..] == [l.bus.handlers[i]] + l.bus.handlers[i + 1..];
    } else {
      assert l.bus.handlers[..i] == l.bus.handlers;
    }
  }

  lemma HandledNextIs(l: Loop)
    requires Sound(l) && l.bus.pending != []
    ensures var event := l.bus.pending[0];
      HandledNext(l) == Handled(l, INPUT_ID, event).(bus := l.bus.(
        pending := l.bus.pending[1..],
        delivered := l.bus.delivered + [Delivery(event, l.bus.handlers)]))
    ensures Sound(HandledNext(l))
  {
    var begun := l.(bus := Begun(l.bus));
    DispatchedOnce(begun, l.bus.delivered, l.bus.pending[0], 0);
    assert begun.bus.handlers[0..] == l.bus.handlers;
    RequestQueues(l);
  }

  // ---- Convergence -----------------------------------------------------------

  /** Some event the rule runtime reacts to is waiting. */
  ghost predicate RelevantQueued(b: Bus) {
    exists i :: 0 <= i < |b.pending| && Relevant(INPUT_ID, b.pending[i])
  }

  /** The heater is as the current rule, value and health demand. */
  ghost predicate Settled(l: Loop) {
    if l.input.health.state == Ok then
      && (Below(Finite(l.input.value), l.engine.rule.onBelow) ==> l.heater.IsOn())
      && (Below(l.engine.rule.offAbove, Finite(l.input.value)) ==> !l.heater.IsOn())
    else
      match l.runtime.policy
      case SafeOff => !l.heater.IsOn()
      case SafeOn => l.heater.IsOn()
      case DisableRule => l.runtime.state == RunDisabled
      case KeepLastState => true
      case AlarmOnly => true
  }

  ghost predicate Awake(l: Loop) {
    RelevantQueued(l.bus) || l.runtime.task == Queued
  }

  predicate InputStep(step: LoopStep) {
    step.SetValue? || step.InjectFault? || step.Recover? || step.DisableInput?
  }

  /** From b to b' the queue was full for some event the rule runtime would have reacted to. */
  ghost predicate RefusedRelevant(b: Bus, b': Bus) {
    exists i :: |b.refused| <= i < |b'.refused| && Relevant(INPUT_ID, b'.refused[i])
  }

  /** A world and whether an announcement of its input was lost: the bus refused a relevant
      event of an input step, and since then no relevant event was handled, no task fired and
      no document was activated. */
  datatype Watched = Watched(world: World, lost: bool)

  ghost function Watch(x: Watched, step: LoopStep): Watched {
    var l, w' := x.world.loop, AfterLoopStep(x.world, step);
    var lost' :=
      match step
      case HandleNext => x.lost && !(l.bus.pending != [] && Relevant(INPUT_ID, l.bus.pending[0]))
      case Fire => x.lost && l.runtime.task != Queued
      case Activate(raw, revision) => x.lost && AfterActivate(l, x.world.loader, raw, revision).error.Some?
      case ForeignPost(_) => x.lost
      case _ => x.lost || RefusedRelevant(l.bus, w'.loop.bus);
    Watched(w', lost')
  }

  ghost function WatchRun(x: Watched, steps: seq<LoopStep>): Watched {
    if steps == [] then x else Watch(WatchRun(x, steps[..|steps| - 1]), steps[|steps| - 1])
  }

  /** The loop is sound and, once nothing relevant waits, the heater is settled. */
  ghost predicate Converging(x: Watched) {
    && Sound(x.world.loop)
    && (x.world.loop.engine.Enabled() ==> Awake(x.world.loop) || x.lost || Settled(x.world.loop))
  }

  /** From b to b' events were posted, none of them relevant. */
  ghost predicate Extended(b: Bus, b': Bus) {
    && b'.handlers == b.handlers && b.pending <= b'.pending && |b'.pending| <= QUEUE_SIZE && b.refused <= b'.refused
    && (forall i :: |b.pending| <= i < |b'.pending| ==> !Relevant(INPUT_ID, b'.pending[i]))
  }

  lemma ForeignPostExtends(b: Bus, event: Event)
    requires Subscribed(b) && !Relevant(INPUT_ID, Fit(event))
    ensures Extended(b, AfterPost(b, event)) && Subscribed(AfterPost(b, event))
    ensures |AfterPost(b, event).pending| <= |b.pending| + 1
  {
  }

  lemma ExtendedTwice(b0: Bus, b1: Bus, b2: Bus)
    requires Extended(b0, b1) && Extended(b1, b2)
    ensures Extended(b0, b2)
  {
  }

  lemma ExtendedKeepsRelevance(b: Bus, b': Bus)
    requires Extended(b, b')
    ensures RelevantQueued(b) <==> RelevantQueued(b')
  {
    if RelevantQueued(b) {
      var i :| 0 <= i < |b.pending| && Relevant(INPUT_ID, b.pending[i]);
      assert Relevant(INPUT_ID, b'.pending[i]);
    }
    if RelevantQueued(b') {
      var i :| 0 <= i < |b'.pending| && Relevant(INPUT_ID, b'.pending[i]);
      assert Relevant(INPUT_ID, b.pending[i]);
    }
  }

  /** Since b0, something relevant waits or has been refused. */
  ghost predicate Announced(b0: Bus, b: Bus) {
    RelevantQueued(b) || RefusedRelevant(b0, b)
  }

  /** A post keeps what waits and what has been refused on record; a relevant one is queued
      exactly when there is room, and otherwise it is refused. */
  lemma PostAnnounces(b0: Bus, b: Bus, event: Event)
    requires Subscribed(b) && b0.refused <= b.refused
    ensures var b' := AfterPost(b, event);
      && Subscribed(b') && b0.refused <= b'.refused && b'.handlers == b.handlers
      && (RelevantQueued(b) ==> RelevantQueued(b'))
      && (Announced(b0, b) ==> Announced(b0, b'))
      && (Relevant(INPUT_ID, Fit(event)) ==> Announced(b0, b'))
      && (RelevantQueued(b') <==> RelevantQueued(b) || (Relevant(INPUT_ID, Fit(event)) && |b.pending| < QUEUE_SIZE))
      && |b'.pending| == (if |b.pending| < QUEUE_SIZE then |b.pending| + 1 else QUEUE_SIZE)
  {
    var b' := AfterPost(b, event);
    if RelevantQueued(b) {
      var i :| 0 <= i < |b.pending| && Relevant(INPUT_ID, b.pending[i]);
      assert Relevant(INPUT_ID, b'.pending[i]);
    }
    if RefusedRelevant(b0, b) {
      var i :| |b0.refused| <= i < |b.refused| && Relevant(INPUT_ID, b.refused[i]);
      assert Relevant(INPUT_ID, b'.refused[i]);
    }
    if |b.pending| < QUEUE_SIZE {
      assert b'.pending[|b.pending|] == Fit(event);
      if RelevantQueued(b') && !Relevant(INPUT_ID, Fit(event)) {
        var i :| 0 <= i < |b'.pending| && Relevant(INPUT_ID, b'.pending[i]);
        assert Relevant(INPUT_ID, b.pending[i]);
      }
    } else {
      assert b'.refused[|b.refused|] == Fit(event);
    }
  }

  /** Whether an input step moves the state of the input, and whether it announces anything
      the rule runtime reacts to. */
  predicate StateMoves(l: Loop, step: LoopStep) {
    match step
    case SetValue(value) => value.Finite? && l.input.state != InputReady
    case InjectFault(_) => l.input.state != InputFault
    case Recover => l.input.state != RecoveredState(l.input)
    case DisableInput => l.input.state != InputDisabled
    case _ => false
  }

  predicate Announces(l: Loop, step: LoopStep) {
    match step
    case SetValue(value) => value.Finite?
    case InjectFault(code) => l.input.health != Health(Fault, FaultCode(code))
    case Recover => l.input.health != RecoveredHealth(l.input)
    case DisableInput => l.input.health != DISABLED_HEALTH
    case _ => false
  }

  /** The announcement finds a slot: one is left once the move of the state, if any, has been
      posted. */
  predicate Heard(l: Loop, step: LoopStep) {
    Announces(l, step) && |l.bus.pending| + (if StateMoves(l, step) then 1 else 0) < QUEUE_SIZE
  }

  function Capped(n: nat): nat {
    if n < QUEUE_SIZE then n else QUEUE_SIZE
  }

  function One(b: bool): nat {
    if b then 1 else 0
  }

  /** A transition of the input posts up to two events; the second, a change of health, is
      relevant, and queued exactly when a slot is left after the first. */
  lemma TransitionAnnounces(l: Loop, state: InputState, health: Health)
    requires Sound(l)
    ensures var b, b' := l.bus, InputTransitionPosts(l.bus, l.input, state, health);
      var moves, changes := One(state != l.input.state), health != l.input.health;
      && Subscribed(b') && b.refused <= b'.refused && b'.handlers == b.handlers
      && (changes ==> Announced(b, b'))
      && (RelevantQueued(b') <==> RelevantQueued(b) || (changes && |b.pending| + moves < QUEUE_SIZE))
      && |b'.pending| == Capped(|b.pending| + moves + One(changes))
  {
    var moved := Event(STATE_CHANGED, l.input.id, InputCode(state));
    var b1 := if state != l.input.state then AfterPost(l.bus, moved) else l.bus;
    PostAnnounces(l.bus, l.bus, moved);
    PostAnnounces(l.bus, b1, Event(HEALTH_CHANGED, l.input.id, HealthCode(health.state)));
  }

  /** An input step keeps the loop sound; something relevant waits afterwards exactly if it
      did before or the announcement was heard; what it announces waits or has been refused,
      and a step that announces nothing leaves health and value alone. */
  ghost predicate InputStepped(l: Loop, step: LoopStep, l': Loop) {
    && Sound(l') && l' == l.(input := l'.input, bus := l'.bus) && l.bus.refused <= l'.bus.refused
    && (RelevantQueued(l'.bus) <==> RelevantQueued(l.bus) || Heard(l, step))
    && (if Announces(l, step) then Announced(l.bus, l'.bus)
        else l'.input.health == l.input.health && l'.input.value == l.input.value)
  }

  lemma ValueStepSound(l: Loop, value: Float)
    requires Sound(l)
    ensures InputStepped(l, SetValue(value), ValueSet(l, value))
  {
    if value.Finite? {
      TransitionAnnounces(l, InputReady, OK_HEALTH);
      PostAnnounces(l.bus, InputTransitionPosts(l.bus, l.input, InputReady, OK_HEALTH),
                    Event(INPUT_VALUE_CHANGED, l.input.id, Milli(value.r)));
    }
  }

  lemma InputStepSound(w: World, step: LoopStep)
    requires Sound(w.loop) && InputStep(step)
    ensures InputStepped(w.loop, step, AfterLoopStep(w, step).loop)
  {
    var l := w.loop;
    match step
    case SetValue(value) => ValueStepSound(l, value);
    case InjectFault(code) => TransitionAnnounces(l, InputFault, Health(Fault, FaultCode(code)));
    case Recover => TransitionAnnounces(l, RecoveredState(l.input), RecoveredHealth(l.input));
    case DisableInput => TransitionAnnounces(l, InputDisabled, DISABLED_HEALTH);
  }

  /** Something relevant waits after an input step if and only if it did before, or the
      announcement finds a slot. */
  lemma HeardIff(w: World, step: LoopStep)
    requires Sound(w.loop) && InputStep(step)
    ensures Awake(AfterLoopStep(w, step).loop) <==> Awake(w.loop) || Heard(w.loop, step)
  {
    InputStepSound(w, step);
  }

  /** The heater answers a command; what it posts is not relevant to the runtime. */
  lemma DrivenSound(l: Loop, on: bool)
    requires HeaterSound(l.heater) && Subscribed(l.bus)
    ensures var l' := Driven(l, on);
      && HeaterSound(l'.heater) && l'.heater.IsOn() == on && Subscribed(l'.bus)
      && l' == l.(heater := l'.heater, bus := l'.bus)
      && Extended(l.bus, l'.bus) && |l'.bus.pending| <= |l.bus.pending| + 1
  {
    ForeignPostExtends(l.bus, Event(STATE_CHANGED, l.heater.id, ActuatorCode(OnOff(on))));
  }

  /** The callback of a queued task leaves the heater settled, posts at most two events, none
      of them relevant, and ends armed or, if the policy suspends the rule, disarmed. */
  lemma FiredSettles(l: Loop)
    requires Sound(l) && l.runtime.task == Queued
    ensures var l' := Fired(l);
      && Sound(l') && Settled(l') && l'.runtime.task == Idle
      && l'.input == l.input && l'.engine.rule == l.engine.rule && l'.engine.configured == l.engine.configured
      && l'.runtime.policy == l.runtime.policy
      && Extended(l.bus, l'.bus) && |l'.bus.pending| <= |l.bus.pending| + 2
  {
    if l.input.health.state != Ok {
      FiredPolicySettles(l);
    } else {
      FiredRuleSettles(l);
    }
  }

  lemma FiredPolicySettles(l: Loop)
    requires Sound(l) && l.runtime.task == Queued && l.input.health.state != Ok
    ensures var l' := Fired(l);
      && Sound(l') && Settled(l') && l'.runtime.task == Idle
      && l' == l.(heater := l'.heater, bus := l'.bus, runtime := l'.runtime)
      && l'.runtime.policy == l.runtime.policy
      && l'.runtime.tally.evaluations == l.runtime.tally.evaluations
      && (l.runtime.policy in {KeepLastState, DisableRule, AlarmOnly} ==> l'.heater == l.heater && l'.bus == l.bus)
      && Extended(l.bus, l'.bus) && |l'.bus.pending| <= |l.bus.pending| + 1
  {
    DrivenSound(l, Resolve(l.runtime.policy, l.heater.IsOn()).desiredOn);
  }

  lemma FiredRuleSettles(l: Loop)
    requires Sound(l) && l.runtime.task == Queued && l.input.health.state == Ok
    ensures var l' := Fired(l);
      && Sound(l') && Settled(l') && l'.runtime.task == Idle
      && l'.input == l.input && l'.engine.rule == l.engine.rule && l'.engine.configured == l.engine.configured
      && l'.runtime.policy == l.runtime.policy
      && l'.runtime.tally.evaluations == l.runtime.tally.evaluations + 1
      && l'.heater.IsOn() == Evaluate(l.engine, Finite(l.input.value), l.heater.IsOn()).desired
      && Extended(l.bus, l'.bus) && |l'.bus.pending| <= |l.bus.pending| + 2
  {
    var value, current := Finite(l.input.value), l.heater.IsOn();
    var result := Evaluate(l.engine, value, current);
    ForeignPostExtends(l.bus, EvaluatedEvent(l.engine, result.decision));
    var posted := l.(bus := EvaluatePosts(l.bus, l.engine, value, current));
    DrivenSound(posted, result.desired);
    ExtendedTwice(l.bus, posted.bus, Driven(posted, result.desired).bus);
  }

  /** An activation that succeeds with an enabled rule queues an evaluation, or disarms the
      rule if its policy suspends it. */
  lemma ActivateSettles(l: Loop, loader: Loader, raw: Raw, revision: nat)
    requires Sound(l)
    ensures var a := AfterActivate(l, loader, raw, revision);
      && Sound(a.loop)
      && (a.error.Some? ==> a.loop == l)
      && (a.error == None && a.loop.engine.Enabled() ==> a.loop.runtime.task == Queued || Settled(a.loop))
      && a.loop == l.(engine := a.loop.engine, runtime := a.loop.runtime)
  {
    ParsedRulesConfigure(raw);
    var parsed := ParseRules(raw);
    if !parsed.ParseFailed? && parsed.revision == revision {
      var l1 := if parsed.OneRule? then l.(engine := AfterConfigure(l.engine, parsed.rule)) else l.(engine := CLEARED_ENGINE);
      var policy := if parsed.OneRule? then parsed.policy else SafeOff;
      var enabled, health := l1.engine.Enabled(), l.input.health.state;
      RefreshSound(l1.runtime.(policy := policy), enabled, health);
      RefreshSound(WithPolicy(l1, policy).runtime, enabled, health);
      RequestQueues(Refreshed(WithPolicy(l1, policy)));
    }
  }

  lemma WatchKeepsConverging(x: Watched, step: LoopStep)
    requires Converging(x)
    ensures Converging(Watch(x, step))
  {
    var l := x.world.loop;
    match step
    case ForeignPost(event) => PostAnnounces(l.bus, l.bus, event);
    case HandleNext => HandleKeepsConverging(x);
    case Fire =>
      if l.runtime.task == Queued {
        FiredSettles(l);
      }
    case Activate(raw, revision) => ActivateSettles(l, x.world.loader, raw, revision);
    case _ => InputStepSound(x.world, step);
  }

  lemma HandleKeepsConverging(x: Watched)
    requires Converging(x)
    ensures Converging(Watch(x, HandleNext))
  {
    var l := x.world.loop;
    if l.bus.pending != [] {
      HandledNextIs(l);
      RequestQueues(l);
      if RelevantQueued(l.bus) && !Relevant(INPUT_ID, l.bus.pending[0]) {
        var i :| 0 <= i < |l.bus.pending| && Relevant(INPUT_ID, l.bus.pending[i]);
        assert Relevant(INPUT_ID, l.bus.pending[1..][i - 1]);
      }
    }
  }

  /** Control-loop convergence. In every state a run reaches: if the rule is enabled, the task
      is idle, no input-value or health event of the input waits, and the last announcement
      was not lost, then the heater is ON below onBelow and OFF above offAbove on a healthy
      input, and as the fault policy says on an unhealthy one. */
  lemma {:induction false} RunsConverge(x: Watched, steps: seq<LoopStep>)
    requires Converging(x)
    ensures var x' := WatchRun(x, steps);
      && Converging(x')
      && (x'.world.loop.engine.Enabled() && !Awake(x'.world.loop) && !x'.lost ==> Settled(x'.world.loop))
  {
    if steps != [] {
      RunsConverge(x, steps[..|steps| - 1]);
      WatchKeepsConverging(WatchRun(x, steps[..|steps| - 1]), steps[|steps| - 1]);
    }
  }

  /** No step takes a refusal off the record. */
  lemma RefusalsStay(w: World, step: LoopStep)
    requires Sound(w.loop)
    ensures w.loop.bus.refused <= AfterLoopStep(w, step).loop.bus.refused
  {
    match step
    case HandleNext =>
      if w.loop.bus.pending != [] {
        HandledNextIs(w.loop);
      }
    case Fire =>
      if w.loop.runtime.task == Queued {
        FiredSettles(w.loop);
      }
    case Activate(raw, revision) => ActivateSettles(w.loop, w.loader, raw, revision);
    case ForeignPost(_) =>
    case _ => InputStepSound(w, step);
  }

  lemma RefusedLater(b0: Bus, b: Bus, b': Bus)
    requires b0.refused <= b.refused <= b'.refused
    ensures RefusedRelevant(b0, b) || RefusedRelevant(b, b') ==> RefusedRelevant(b0, b')
  {
    if RefusedRelevant(b0, b) {
      var i :| |b0.refused| <= i < |b.refused| && Relevant(INPUT_ID, b.refused[i]);
      assert Relevant(INPUT_ID, b'.refused[i]);
    }
    if RefusedRelevant(b, b') {
      var i :| |b.refused| <= i < |b'.refused| && Relevant(INPUT_ID, b'.refused[i]);
      assert |b0.refused| <= i && Relevant(INPUT_ID, b'.refused[i]);
    }
  }

  /** An announcement is lost only if the bus has refused a relevant event. */
  lemma {:induction false} LostMeansRefused(x: Watched, steps: seq<LoopStep>)
    requires Converging(x) && !x.lost
    ensures var b, x' := x.world.loop.bus, WatchRun(x, steps);
      b.refused <= x'.world.loop.bus.refused && (x'.lost ==> RefusedRelevant(b, x'.world.loop.bus))
  {
    if steps != [] {
      var front, step := steps[..|steps| - 1], steps[|steps| - 1];
      LostMeansRefused(x, front);
      RunsConverge(x, front);
      var mid := WatchRun(x, front);
      RefusalsStay(mid.world, step);
      RefusedLater(x.world.loop.bus, mid.world.loop.bus, AfterLoopStep(mid.world, step).loop.bus);
    }
  }

  /** Convergence in terms of the event queue alone: over a run in which the bus refuses no
      input-value or health event of the input, whenever the rule is enabled and nothing
      relevant waits, the heater is settled. */
  lemma NothingRefusedConverges(x: Watched, steps: seq<LoopStep>)
    requires Converging(x) && !x.lost && !RefusedRelevant(x.world.loop.bus, WatchRun(x, steps).world.loop.bus)
    ensures var l := WatchRun(x, steps).world.loop; l.engine.Enabled() && !Awake(l) ==> Settled(l)
  {
    RunsConverge(x, steps);
    LostMeansRefused(x, steps);
  }

  lemma StepSound(w: World, step: LoopStep)
    requires Sound(w.loop)
    ensures Sound(AfterLoopStep(w, step).loop)
  {
    WatchKeepsConverging(Watched(w, true), step);
    assert Watch(Watched(w, true), step).world == AfterLoopStep(w, step);
  }

  lemma {:induction false} RunSound(w: World, steps: seq<LoopStep>)
    requires Sound(w.loop)
    ensures Sound(AfterLoopRun(w, steps).loop)
  {
    if steps != [] {
      RunSound(w, steps[..|steps| - 1]);
      StepSound(AfterLoopRun(w, steps[..|steps| - 1]), steps[|steps| - 1]);
    }
  }

  lemma {:induction false} WatchRunIsRun(x: Watched, steps: seq<LoopStep>)
    ensures WatchRun(x, steps).world == AfterLoopRun(x.world, steps)
  {
    if steps != [] {
      WatchRunIsRun(x, steps[..|steps| - 1]);
    }
  }

  // ---- Settling time ---------------------------------------------------------

  function PostAll(b: Bus, events: seq<Event>): Bus {
    if events == [] then b else AfterPost(PostAll(b, events[..|events| - 1]), events[|events| - 1])
  }

  /** Events the rule runtime does not react to. */
  ghost predicate Foreign(events: seq<Event>) {
    forall i :: 0 <= i < |events| ==> !Relevant(INPUT_ID, Fit(events[i]))
  }

  ghost predicate AllForeign(os: seq<seq<Event>>) {
    forall i :: 0 <= i < |os| ==> Foreign(os[i])
  }

  function Posted(l: Loop, events: seq<Event>): Loop {
    l.(bus := PostAll(l.bus, events))
  }

  /** One pass of the main loop: the scheduler runs the rule task and the other tasks, which
      post the given events; then up to eight events are handled. */
  function Pass(l: Loop, others: seq<Event>): Loop {
    Processed(Posted(Fired(l), others), 8)
  }

  function Passes(l: Loop, os: seq<seq<Event>>): Loop {
    if os == [] then l else Pass(Passes(l, os[..|os| - 1]), os[|os| - 1])
  }

  /** What no loop pass changes. */
  ghost predicate SameDemand(l: Loop, l': Loop) {
    && l'.input == l.input && l'.engine.rule == l.engine.rule && l'.engine.configured == l.engine.configured
    && l'.runtime.policy == l.runtime.policy
  }

  lemma {:induction false} PostAllExtends(b: Bus, events: seq<Event>)
    requires Subscribed(b) && Foreign(events)
    ensures Extended(b, PostAll(b, events)) && Subscribed(PostAll(b, events))
    ensures |PostAll(b, events).pending| <= |b.pending| + |events|
  {
    if events != [] {
      var front := events[..|events| - 1];
      PostAllExtends(b, front);
      ForeignPostExtends(PostAll(b, front), events[|events| - 1]);
      ExtendedTwice(b, PostAll(b, front), PostAll(b, events));
    }
  }

  lemma {:induction false} PostAllJoins(b: Bus, first: seq<Event>, second: seq<Event>)
    ensures PostAll(b, first + second) == PostAll(PostAll(b, first), second)
  {
    if second == [] {
      assert first + second == first;
    } else {
      var n := |second| - 1;
      PostAllJoins(b, first, second[..n]);
      assert (first + second)[..|first + second| - 1] == first + second[..n];
    }
  }

  /** l' is l after k events have been handled: k of them (or all) are gone and none was
      posted; with nothing relevant among them the task stays as it was. */
  ghost predicate Drained(l: Loop, l': Loop, k: nat) {
    && Sound(l') && SameDemand(l, l') && l'.heater == l.heater
    && l'.bus.pending == (if k <= |l.bus.pending| then l.bus.pending[k..] else [])
    && (!RelevantQueued(l.bus) ==> l'.runtime == l.runtime)
  }

  lemma DrainOne(l: Loop, l1: Loop, k: nat)
    requires Drained(l, l1, k)
    ensures Drained(l, HandledNext(l1), k + 1)
  {
    if l1.bus.pending != [] {
      HandledNextIs(l1);
      RequestQueues(l1);
      assert l1.bus.pending[0] == l.bus.pending[k];
      assert l1.bus.pending[1..] == l.bus.pending[k + 1..];
    }
  }

  lemma {:induction false} ProcessedDrains(l: Loop, k: nat)
    requires Sound(l)
    ensures Drained(l, Processed(l, k), k)
  {
    if k > 0 {
      ProcessedDrains(l, k - 1);
      DrainOne(l, Processed(l, k - 1), k - 1);
    }
  }

  /** The state of the loop when the scheduler is done. */
  lemma ScheduledIs(l: Loop, others: seq<Event>)
    requires Sound(l) && Foreign(others)
    ensures var l1 := Posted(Fired(l), others);
      && Sound(l1) && SameDemand(l, l1) && l1.runtime.task == Idle && Extended(l.bus, l1.bus)
      && |l1.bus.pending| <= |l.bus.pending| + 2 + |others|
      && (l.runtime.task != Queued ==> l1 == Posted(l, others))
  {
    if l.runtime.task == Queued {
      FiredSettles(l);
    }
    PostAllExtends(Fired(l).bus, others);
    ExtendedTwice(l.bus, Fired(l).bus, PostAll(Fired(l).bus, others));
  }

  /** No relevant event waits at position m or beyond. */
  ghost predicate RelevantWithin(b: Bus, m: nat) {
    forall i :: m <= i < |b.pending| ==> !Relevant(INPUT_ID, b.pending[i])
  }

  /** A pass brings every relevant event eight places closer to the head of the queue,
      however many others are posted behind it, and shrinks the queue unless they are many. */
  lemma PassDrains(l: Loop, others: seq<Event>, m: nat)
    requires Sound(l) && Foreign(others) && RelevantWithin(l.bus, m)
    ensures var l' := Pass(l, others);
      && Sound(l') && SameDemand(l, l')
      && RelevantWithin(l'.bus, if m <= 8 then 0 else m - 8)
      && |l'.bus.pending| <= (if |l.bus.pending| + |others| <= 6 then 0 else |l.bus.pending| + |others| - 6)
      && |l'.bus.pending| <= QUEUE_SIZE - 8
      && (m == 0 ==> l'.runtime.task == Idle)
      && (m == 0 && l.runtime.task != Queued ==> l'.heater == l.heater && l'.runtime == l.runtime)
  {
    var l1 := Posted(Fired(l), others);
    ScheduledIs(l, others);
    ProcessedDrains(l1, 8);
    if m == 0 {
      ExtendedKeepsRelevance(l.bus, l1.bus);
    }
    var l' := Pass(l, others);
    forall i | (if m <= 8 then 0 else m - 8) <= i < |l'.bus.pending|
      ensures !Relevant(INPUT_ID, l'.bus.pending[i])
    {
      assert l'.bus.pending[i] == l1.bus.pending[i + 8];
      assert i + 8 < |l.bus.pending| ==> l1.bus.pending[i + 8] == l.bus.pending[i + 8];
    }
  }

  function Reach(n: nat): nat {
    if n >= 3 then 0 else QUEUE_SIZE - 8 * n
  }

  /** After three passes every event of the start has been handled; after four the task is
      idle as well. */
  lemma {:induction false} PassesReach(l: Loop, os: seq<seq<Event>>)
    requires Sound(l) && AllForeign(os)
    ensures var l' := Passes(l, os);
      && Sound(l') && SameDemand(l, l') && RelevantWithin(l'.bus, Reach(|os|))
      && (|os| >= 4 ==> !Awake(l'))
  {
    if os != [] {
      var front := os[..|os| - 1];
      assert forall i :: 0 <= i < |front| ==> front[i] == os[i];
      PassesReach(l, front);
      assert Foreign(os[|os| - 1]);
      PassDrains(Passes(l, front), os[|os| - 1], Reach(|front|));
    }
  }

  function Budget(n: nat): nat {
    match n
    case 0 => QUEUE_SIZE
    case 1 => 16
    case 2 => 12
    case 3 => 8
    case 4 => 4
    case _ => 0
  }

  /** After the first pass the other tasks post at most two events in each. */
  ghost predicate FewPosts(os: seq<seq<Event>>) {
    forall i :: 1 <= i < |os| ==> |os[i]| <= 2
  }

  lemma DrainsOnce(l: Loop, others: seq<Event>, n: nat) returns (l': Loop)
    requires Sound(l) && Foreign(others) && |l.bus.pending| <= Budget(n) && (n > 0 ==> |others| <= 2)
    ensures l' == Pass(l, others) && Sound(l') && |l'.bus.pending| <= Budget(n + 1)
  {
    l' := Pass(l, others);
    PassDrains(l, others, QUEUE_SIZE);
  }

  lemma {:induction false} PassesDrain(l: Loop, os: seq<seq<Event>>) returns (l': Loop)
    requires Sound(l) && AllForeign(os) && FewPosts(os)
    ensures l' == Passes(l, os)
    ensures Sound(l') && |l'.bus.pending| <= Budget(|os|)
  {
    l' := l;
    if os != [] {
      var front := os[..|os| - 1];
      assert forall i :: 0 <= i < |front| ==> front[i] == os[i];
      l' := PassesDrain(l, front);
      assert Foreign(os[|os| - 1]);
      l' := DrainsOnce(l', os[|os| - 1], |front|);
    }
  }

  /** Bounded quiescence: from any state the loop can be in, five passes empty the event queue
      and idle the task, unless the other tasks post more than two events in a pass. */
  lemma FivePassesQuiesce(l: Loop, os: seq<seq<Event>>)
    requires Sound(l) && AllForeign(os) && FewPosts(os) && |os| == 5
    ensures var l' := Passes(l, os);
      Sound(l') && SameDemand(l, l') && l'.bus.pending == [] && l'.runtime.task == Idle
  {
    var _ := PassesDrain(l, os);
    PassesReach(l, os);
  }

  lemma {:induction false} PostAllConverges(l: Loop, loader: Loader, events: seq<Event>)
    requires Converging(Watched(World(l, loader), false))
    ensures Converging(Watched(World(Posted(l, events), loader), false))
  {
    if events != [] {
      var front := events[..|events| - 1];
      PostAllConverges(l, loader, front);
      WatchKeepsConverging(Watched(World(Posted(l, front), loader), false), ForeignPost(events[|events| - 1]));
    }
  }

  lemma {:induction false} ProcessedConverges(l: Loop, loader: Loader, k: nat)
    requires Converging(Watched(World(l, loader), false))
    ensures Converging(Watched(World(Processed(l, k), loader), false))
  {
    if k > 0 {
      ProcessedConverges(l, loader, k - 1);
      WatchKeepsConverging(Watched(World(Processed(l, k - 1), loader), false), HandleNext);
    }
  }

  lemma PassConverges(l: Loop, loader: Loader, others: seq<Event>)
    requires Converging(Watched(World(l, loader), false))
    ensures Converging(Watched(World(Pass(l, others), loader), false))
  {
    WatchKeepsConverging(Watched(World(l, loader), false), Fire);
    PostAllConverges(Fired(l), loader, others);
    ProcessedConverges(Posted(Fired(l), others), loader, 8);
  }

  lemma {:induction false} PassesConverge(l: Loop, loader: Loader, os: seq<seq<Event>>)
    requires Converging(Watched(World(l, loader), false))
    ensures Converging(Watched(World(Passes(l, os), loader), false))
  {
    if os != [] {
      PassesConverge(l, loader, os[..|os| - 1]);
      PassConverges(Passes(l, os[..|os| - 1]), loader, os[|os| - 1]);
    }
  }

  /** Bounded settling: four or more passes of the main loop after the last outside influence,
      the heater is as the rule, the value and the fault policy demand, whatever the other
      tasks post in between. */
  lemma SettlesWithinFourPasses(l: Loop, loader: Loader, os: seq<seq<Event>>)
    requires Converging(Watched(World(l, loader), false)) && l.engine.Enabled()
    requires AllForeign(os) && |os| >= 4
    ensures Settled(Passes(l, os)) && SameDemand(l, Passes(l, os)) && !Awake(Passes(l, os))
  {
    PassesReach(l, os);
    PassesConverge(l, loader, os);
  }

  /** Without outside influence a loop with nothing relevant waiting does nothing. */
  lemma {:induction false} AsleepStaysAsleep(l: Loop, os: seq<seq<Event>>)
    requires Sound(l) && !Awake(l) && AllForeign(os)
    ensures var l' := Passes(l, os);
      Sound(l') && !Awake(l') && SameDemand(l, l') && l'.heater == l.heater && l'.runtime == l.runtime
  {
    if os != [] {
      var front := os[..|os| - 1];
      assert forall i :: 0 <= i < |front| ==> front[i] == os[i];
      AsleepStaysAsleep(l, front);
      assert Foreign(os[|os| - 1]);
      PassDrains(Passes(l, front), os[|os| - 1], 0);
    }
  }

  // ---- Announcements that are lost -------------------------------------------

  lemma AwakeSettles(l: Loop, os: seq<seq<Event>>)
    requires Sound(l) && l.engine.Enabled() && Awake(l) && AllForeign(os) && |os| >= 4
    ensures Settled(Passes(l, os))
  {
    SettlesWithinFourPasses(l, NEW_LOADER, os);
  }

  lemma AsleepSettlesIff(l: Loop, os: seq<seq<Event>>)
    requires Sound(l) && !Awake(l) && AllForeign(os)
    ensures Settled(Passes(l, os)) <==> Settled(l)
  {
    AsleepStaysAsleep(l, os);
  }

  /** A call on the input is followed, within four passes, if and only if something relevant
      waited already, its announcement finds a slot in the queue, or the heater happens to be
      right already. */
  lemma FollowedIff(w: World, step: LoopStep, os: seq<seq<Event>>)
    requires Sound(w.loop) && w.loop.engine.Enabled() && InputStep(step) && AllForeign(os) && |os| >= 4
    ensures var l' := AfterLoopStep(w, step).loop;
      Settled(Passes(l', os)) <==> Awake(w.loop) || Heard(w.loop, step) || Settled(l')
  {
    var l' := AfterLoopStep(w, step).loop;
    HeardIff(w, step);
    InputStepSound(w, step);
    if Awake(l') {
      AwakeSettles(l', os);
    } else {
      AsleepSettlesIff(l', os);
    }
  }

  /** After a pass there is room: with at most six events posted since by others, every call
      on the input that announces something is heard. */
  lemma HeardAfterPass(l: Loop, others: seq<Event>, since: seq<Event>, step: LoopStep)
    requires Sound(l) && Foreign(others) && Foreign(since) && |since| <= 6
    requires InputStep(step) && Announces(Posted(Pass(l, others), since), step)
    ensures Heard(Posted(Pass(l, others), since), step)
    ensures Awake(AfterLoopStep(World(Posted(Pass(l, others), since), NEW_LOADER), step).loop)
  {
    PassDrains(l, others, QUEUE_SIZE);
    PostAllExtends(Pass(l, others).bus, since);
    HeardIff(World(Posted(Pass(l, others), since), NEW_LOADER), step);
  }

  /** An announcement that is not heard while nothing relevant waits is lost: the bus refuses
      it, if there was one to make, and no number of passes moves the heater. */
  lemma UnheardChangesNothing(l: Loop, loader: Loader, step: LoopStep, os: seq<seq<Event>>)
    requires Sound(l) && !Awake(l) && InputStep(step) && !Heard(l, step) && AllForeign(os)
    ensures var x := Watch(Watched(World(l, loader), false), step);
      var l' := Passes(x.world.loop, os);
      && (Announces(l, step) ==> x.lost)
      && l'.heater == l.heater && l'.runtime == l.runtime && l'.input == x.world.loop.input
  {
    InputStepSound(World(l, loader), step);
    AsleepStaysAsleep(AfterLoopStep(World(l, loader), step).loop, os);
  }

  /** A value set while the queue is full of other events, with the task idle: the heater
      stays OFF below onBelow through any number of passes. */
  lemma LostValueNeverSettles(l: Loop, value: real, os: seq<seq<Event>>)
    requires Sound(l) && !Awake(l) && |l.bus.pending| == QUEUE_SIZE && AllForeign(os)
    requires l.engine.Enabled() && Below(Finite(value), l.engine.rule.onBelow) && !l.heater.IsOn()
    ensures var x := Watch(Watched(World(l, NEW_LOADER), false), SetValue(Finite(value)));
      x.lost && !Settled(Passes(x.world.loop, os)) && !Passes(x.world.loop, os).heater.IsOn()
  {
    var step := SetValue(Finite(value));
    UnheardChangesNothing(l, NEW_LOADER, step, os);
    InputStepSound(World(l, NEW_LOADER), step);
    AsleepStaysAsleep(AfterLoopStep(World(l, NEW_LOADER), step).loop, os);
  }

  /** A fault injected in such a state: under SAFE_OFF a heater that is ON stays ON through any
      number of passes. */
  lemma LostFaultLeavesHeaterOn(l: Loop, code: string, os: seq<seq<Event>>)
    requires Sound(l) && !Awake(l) && |l.bus.pending| == QUEUE_SIZE && AllForeign(os)
    requires l.engine.Enabled() && l.runtime.policy == SafeOff && l.input.health.state == Ok && l.heater.IsOn()
    ensures var x := Watch(Watched(World(l, NEW_LOADER), false), InjectFault(code));
      x.lost && !Settled(Passes(x.world.loop, os)) && Passes(x.world.loop, os).heater.IsOn()
  {
    UnheardChangesNothing(l, NEW_LOADER, InjectFault(code), os);
    InputStepSound(World(l, NEW_LOADER), InjectFault(code));
    AsleepStaysAsleep(AfterLoopStep(World(l, NEW_LOADER), InjectFault(code)).loop, os);
  }

  // ---- The evaluation ledger -------------------------------------------------

  /** Requests were scheduled, coalesced or rejected; what was scheduled fired, was cancelled
      or still waits; the 32-bit counters show the true counts. */
  ghost predicate Books(r: Runtime) {
    && r.tally.requests == r.tally.scheduled + r.tally.coalesced + r.tally.requestRejections
    && r.tally.scheduled == r.tally.firings + r.tally.cancellations + (if r.task == Queued then 1 else 0)
    && r.tally.evaluations <= r.tally.firings
    && r.counters.request == r.tally.requests % UINT32_LIMIT
    && r.counters.scheduled == r.tally.scheduled % UINT32_LIMIT
    && r.counters.coalesced == r.tally.coalesced % UINT32_LIMIT
    && r.counters.rejected == (r.tally.requestRejections + r.tally.runRejections) % UINT32_LIMIT
  }

  /** The books while one request has been counted but not yet answered. */
  ghost predicate BooksOwing(r: Runtime) {
    r.tally.requests > 0 &&
    Books(r.(tally := r.tally.(requests := r.tally.requests - 1),
             counters := r.counters.(request := (r.tally.requests - 1) % UINT32_LIMIT)))
    && r.counters.request == r.tally.requests % UINT32_LIMIT
  }

  lemma RefreshKeepsBooks(r: Runtime, enabled: bool, health: HealthState)
    ensures Books(r) ==> Books(AfterRefresh(r, enabled, health))
    ensures BooksOwing(r) ==> BooksOwing(AfterRefresh(r, enabled, health))
    ensures AfterRefresh(r, enabled, health).tally.evaluations == r.tally.evaluations
  {
  }

  lemma AnswerSettlesBooks(r: Runtime)
    requires BooksOwing(r)
    ensures Books(RejectRequest(r))
    ensures Books(CountCoalesced(r.(pending := true)))
    ensures r.task == Idle ==> Books(CountScheduled(r.(pending := true, task := Queued)))
  {
    Inc32Counts(r.tally.scheduled);
    Inc32Counts(r.tally.coalesced);
    Inc32Counts(r.tally.requestRejections + r.tally.runRejections);
  }

  lemma RejectRunKeepsBooks(r: Runtime)
    requires Books(r)
    ensures Books(RejectRun(r))
  {
    Inc32Counts(r.tally.requestRejections + r.tally.runRejections);
  }

  lemma RequestKeepsBooks(l: Loop)
    requires Books(l.runtime)
    ensures Books(Requested(l).runtime)
    ensures Requested(l).runtime.tally.evaluations == l.runtime.tally.evaluations
  {
    Inc32Counts(l.runtime.tally.requests);
    RefreshKeepsBooks(CountRequest(l.runtime), l.engine.Enabled(), l.input.health.state);
    AnswerSettlesBooks(AfterRefresh(CountRequest(l.runtime), l.engine.Enabled(), l.input.health.state));
  }

  lemma FiredRuleKeepsBooks(l: Loop)
    requires Sound(l) && Books(l.runtime) && l.runtime.task == Queued && l.input.health.state == Ok
    ensures Books(Fired(l).runtime)
  {
    var r := Starts(l.runtime).(pending := false);
    Inc32Counts(r.tally.requestRejections + r.tally.runRejections);
  }

  lemma FiredPolicyKeepsBooks(l: Loop)
    requires Sound(l) && Books(l.runtime) && l.runtime.task == Queued && l.input.health.state != Ok
    ensures Books(Fired(l).runtime)
  {
    var r := Starts(l.runtime).(pending := false);
    Inc32Counts(r.tally.requestRejections + r.tally.runRejections);
    RejectRunKeepsBooks(CountPolicyAction(r));
    RefreshKeepsBooks(RejectRun(CountPolicyAction(r)), true, l.input.health.state);
  }

  lemma FireKeepsBooks(l: Loop)
    requires Sound(l) && Books(l.runtime)
    ensures Books(Fired(l).runtime)
  {
    if l.runtime.task == Queued {
      if l.input.health.state == Ok {
        FiredRuleKeepsBooks(l);
      } else {
        FiredPolicyKeepsBooks(l);
      }
    }
  }

  lemma StepKeepsBooks(w: World, step: LoopStep)
    requires Sound(w.loop) && Books(w.loop.runtime)
    ensures Books(AfterLoopStep(w, step).loop.runtime)
  {
    var l := w.loop;
    match step
    case HandleNext =>
      if l.bus.pending != [] {
        HandledNextIs(l);
        RequestKeepsBooks(l);
      }
    case Fire => FireKeepsBooks(l);
    case Activate(raw, revision) => ActivateKeepsBooks(l, w.loader, raw, revision);
    case _ =>
  }

  lemma ActivateKeepsBooks(l: Loop, loader: Loader, raw: Raw, revision: nat)
    requires Books(l.runtime)
    ensures var a := AfterActivate(l, loader, raw, revision);
      Books(a.loop.runtime) && a.loop.runtime.tally.evaluations == l.runtime.tally.evaluations
  {
    var parsed := ParseRules(raw);
    if !parsed.ParseFailed? && parsed.revision == revision {
      var engine := if parsed.OneRule? then AfterConfigure(l.engine, parsed.rule) else CLEARED_ENGINE;
      var policy := if parsed.OneRule? then parsed.policy else SafeOff;
      ReconfigureKeepsBooks(l.(engine := engine), policy);
    }
  }

  lemma ReconfigureKeepsBooks(l: Loop, policy: Policy)
    requires Books(l.runtime)
    ensures BooksFrom(l, Refreshed(WithPolicy(l, policy)))
    ensures BooksFrom(l, Requested(Refreshed(WithPolicy(l, policy))))
  {
    RefreshKeepsBooks(l.runtime.(policy := policy), l.engine.Enabled(), l.input.health.state);
    var l1 := WithPolicy(l, policy);
    assert BooksFrom(l, l1);
    RefreshKeepsBooks(l1.runtime, l.engine.Enabled(), l.input.health.state);
    var l2 := Refreshed(l1);
    assert BooksFrom(l, l2);
    RequestKeepsBooks(l2);
  }

  ghost predicate BooksFrom(l: Loop, l': Loop) {
    Books(l'.runtime) && l'.runtime.tally.evaluations == l.runtime.tally.evaluations
  }

  /** One-shot evaluation ledger, over any run. */
  lemma {:induction false} RunsKeepBooks(w: World, steps: seq<LoopStep>)
    requires Sound(w.loop) && Books(w.loop.runtime)
    ensures var l := AfterLoopRun(w, steps).loop;
      && Books(l.runtime) && RuntimeSound(l.runtime, l.engine.Enabled())
  {
    RunSound(w, steps);
    if steps != [] {
      var front := AfterLoopRun(w, steps[..|steps| - 1]);
      RunSound(w, steps[..|steps| - 1]);
      RunsKeepBooks(w, steps[..|steps| - 1]);
      StepKeepsBooks(front, steps[|steps| - 1]);
    }
  }

  /** However many requests come between two firings, only a firing evaluates, at most once,
      and then with the value the input has at that moment. */
  lemma OnlyFiringEvaluates(w: World, step: LoopStep)
    requires Sound(w.loop) && Books(w.loop.runtime)
    ensures var l, l' := w.loop, AfterLoopStep(w, step).loop;
      && (l'.runtime.tally.evaluations != l.runtime.tally.evaluations ==>
            && step.Fire? && l.runtime.task == Queued && l'.runtime.task == Idle
            && l.input.health.state == Ok
            && l'.runtime.tally.evaluations == l.runtime.tally.evaluations + 1
            && l'.heater.IsOn() == Evaluate(l.engine, Finite(l.input.value), l.heater.IsOn()).desired)
  {
    var l := w.loop;
    match step
    case HandleNext =>
      if l.bus.pending != [] {
        HandledNextIs(l);
      }
    case Fire =>
      if l.runtime.task == Queued {
        if l.input.health.state == Ok {
          FiredRuleSettles(l);
        } else {
          FiredPolicySettles(l);
        }
      }
    case Activate(raw, revision) => ActivateKeepsBooks(l, w.loader, raw, revision);
    case _ =>
  }

  // ---- Fault isolation -------------------------------------------------------

  /** The input is unhealthy in every state the steps start from. */
  ghost predicate UnhealthyThroughout(w: World, steps: seq<LoopStep>) {
    forall i :: 0 <= i < |steps| ==> AfterLoopRun(w, steps[..i]).loop.input.health.state != Ok
  }

  /** In every state the steps start from, the policy is one that leaves the output alone. */
  ghost predicate HandsOffThroughout(w: World, steps: seq<LoopStep>) {
    forall i :: 0 <= i < |steps| ==>
      AfterLoopRun(w, steps[..i]).loop.runtime.policy in {KeepLastState, DisableRule, AlarmOnly}
  }

  lemma SegmentPrefix(w: World, steps: seq<LoopStep>, n: nat)
    requires n < |steps|
    ensures UnhealthyThroughout(w, steps) ==>
      UnhealthyThroughout(w, steps[..n]) && AfterLoopRun(w, steps[..n]).loop.input.health.state != Ok
    ensures HandsOffThroughout(w, steps) ==>
      && HandsOffThroughout(w, steps[..n])
      && AfterLoopRun(w, steps[..n]).loop.runtime.policy in {KeepLastState, DisableRule, AlarmOnly}
  {
    assert forall i :: 0 <= i < n ==> steps[..n][..i] == steps[..i];
  }

  /** While the input is unhealthy no step evaluates the rule; under KEEP_LAST_STATE,
      ALARM_ONLY and DISABLE_RULE the heater ends such a segment as it began it. */
  lemma {:induction false} FaultsAreIsolated(w: World, steps: seq<LoopStep>)
    requires Sound(w.loop) && Books(w.loop.runtime) && UnhealthyThroughout(w, steps)
    ensures var w' := AfterLoopRun(w, steps);
      && w'.loop.runtime.tally.evaluations == w.loop.runtime.tally.evaluations
      && (HandsOffThroughout(w, steps) ==> w'.loop.heater == w.loop.heater)
  {
    if steps != [] {
      var n := |steps| - 1;
      SegmentPrefix(w, steps, n);
      FaultsAreIsolated(w, steps[..n]);
      RunSound(w, steps[..n]);
      RunsKeepBooks(w, steps[..n]);
      UnhealthyStep(AfterLoopRun(w, steps[..n]), steps[n]);
    }
  }

  lemma UnhealthyStep(w: World, step: LoopStep)
    requires Sound(w.loop) && Books(w.loop.runtime) && w.loop.input.health.state != Ok
    ensures var l, l' := w.loop, AfterLoopStep(w, step).loop;
      && l'.runtime.tally.evaluations == l.runtime.tally.evaluations
      && (l.runtime.policy in {KeepLastState, DisableRule, AlarmOnly} ==> l'.heater == l.heater)
  {
    OnlyFiringEvaluates(w, step);
    match step
    case HandleNext =>
      if w.loop.bus.pending != [] {
        HandledNextIs(w.loop);
      }
    case Fire =>
      if w.loop.runtime.task == Queued {
        FiredPolicySettles(w.loop);
      }
    case _ =>
  }

  /** No step of the control loop but an activation changes rule, policy or loader. */
  lemma LoopKeepsConfiguration(w: World, step: LoopStep)
    requires Sound(w.loop) && !step.Activate?
    ensures var w' := AfterLoopStep(w, step);
      && w'.loader == w.loader
      && w'.loop.engine.configured == w.loop.engine.configured && w'.loop.engine.rule == w.loop.engine.rule
      && w'.loop.runtime.policy == w.loop.runtime.policy
  {
    match step
    case HandleNext =>
      if w.loop.bus.pending != [] {
        HandledNextIs(w.loop);
        RequestQueues(w.loop);
      }
    case Fire =>
      if w.loop.runtime.task == Queued {
        FiredSettles(w.loop);
      }
    case _ =>
  }

  /** No configuration is activated. */
  predicate NoActivation(steps: seq<LoopStep>) {
    forall i :: 0 <= i < |steps| ==> !steps[i].Activate?
  }

  lemma {:induction false} RunKeepsConfiguration(w: World, steps: seq<LoopStep>)
    requires Sound(w.loop) && NoActivation(steps)
    ensures var w' := AfterLoopRun(w, steps);
      && w'.loader == w.loader
      && w'.loop.engine.configured == w.loop.engine.configured && w'.loop.engine.rule == w.loop.engine.rule
      && w'.loop.runtime.policy == w.loop.runtime.policy
  {
    if steps != [] {
      var n := |steps| - 1;
      RunKeepsConfiguration(w, steps[..n]);
      RunSound(w, steps[..n]);
      LoopKeepsConfiguration(AfterLoopRun(w, steps[..n]), steps[n]);
    }
  }

  lemma {:induction false} PolicyStays(w: World, steps: seq<LoopStep>)
    requires Sound(w.loop) && NoActivation(steps) && w.loop.runtime.policy in {KeepLastState, DisableRule, AlarmOnly}
    ensures HandsOffThroughout(w, steps)
  {
    forall i | 0 <= i < |steps|
      ensures AfterLoopRun(w, steps[..i]).loop.runtime.policy in {KeepLastState, DisableRule, AlarmOnly}
    {
      RunKeepsConfiguration(w, steps[..i]);
    }
  }

  /** A fault leaves the rule alone: through any unhealthy segment in which no configuration is
      activated nothing is evaluated, and rule, policy and loader end as they began; so does
      the heater under KEEP_LAST_STATE, ALARM_ONLY and DISABLE_RULE. */
  lemma RuleSurvivesFault(w: World, steps: seq<LoopStep>)
    requires Sound(w.loop) && Books(w.loop.runtime) && UnhealthyThroughout(w, steps) && NoActivation(steps)
    ensures var w' := AfterLoopRun(w, steps);
      && w'.loader == w.loader && w'.loop.runtime.policy == w.loop.runtime.policy
      && w'.loop.engine.configured == w.loop.engine.configured && w'.loop.engine.rule == w.loop.engine.rule
      && w'.loop.runtime.tally.evaluations == w.loop.runtime.tally.evaluations
      && (w.loop.runtime.policy in {KeepLastState, DisableRule, AlarmOnly} ==> w'.loop.heater == w.loop.heater)
  {
    RunKeepsConfiguration(w, steps);
    FaultsAreIsolated(w, steps);
    if w.loop.runtime.policy in {KeepLastState, DisableRule, AlarmOnly} {
      PolicyStays(w, steps);
    }
  }

  /** Handling the event that announces recovery re-arms the rule, which DISABLE_RULE has
      left as it was, and queues an evaluation. */
  lemma RecoveryRearms(l: Loop)
    requires Sound(l) && l.engine.Enabled() && l.input.health.state == Ok
    requires l.bus.pending != [] && Relevant(INPUT_ID, l.bus.pending[0])
    ensures var l' := HandledNext(l);
      l'.runtime.state == Armed && l'.runtime.task == Queued && l'.engine == l.engine
  {
    HandledNextIs(l);
    RequestQueues(l);
  }

  // ---- The loop and the bus --------------------------------------------------

  /** The oldest event delivered to handlers that make no calls. */
  function QuietlyHandled(b: Bus): Bus {
    if b.pending == [] then b
    else b.(pending := b.pending[1..], delivered := b.delivered + [Delivery(b.pending[0], b.handlers)])
  }

  function QuietlyProcessed(b: Bus, k: nat): Bus {
    if k == 0 then b else QuietlyHandled(QuietlyProcessed(b, k - 1))
  }

  lemma LoopHandlesQuietly(l: Loop)
    requires Sound(l)
    ensures HandledNext(l).bus == QuietlyHandled(l.bus) && Sound(HandledNext(l))
  {
    if l.bus.pending != [] {
      HandledNextIs(l);
    }
  }

  /** l' is a sound loop whose bus is as expected. */
  ghost predicate OnBus(l': Loop, b: Bus) {
    Sound(l') && l'.bus == b
  }

  lemma QuietStep(l: Loop, b: Bus)
    requires OnBus(l, b)
    ensures OnBus(HandledNext(l), QuietlyHandled(b))
  {
    LoopHandlesQuietly(l);
  }

  lemma {:induction false} LoopProcessesQuietly(l: Loop, k: nat) returns (b: Bus)
    requires Sound(l)
    ensures b == QuietlyProcessed(l.bus, k) && OnBus(Processed(l, k), b)
  {
    if k == 0 {
      b := l.bus;
    } else {
      var before := LoopProcessesQuietly(l, k - 1);
      QuietStep(Processed(l, k - 1), before);
      b := QuietlyHandled(before);
    }
  }

  ghost predicate BusIsQuiet(b: Bus, t: Turn, k: nat) {
    |t.bus.handlers| <= MAX_HANDLERS && t.bus == QuietlyProcessed(b, k)
  }

  lemma BusHandlesQuietly(b: Bus, t: Turn, k: nat) returns (t': Turn)
    requires BusIsQuiet(b, t, k)
    ensures t' == AfterNext(t, []) && BusIsQuiet(b, t', k + 1)
  {
    t' := AfterNext(t, []);
    if t.bus.pending != [] {
      SilentDelivery(Begun(t.bus), t.bus.delivered, t.bus.pending[0], 0, t.calls);
    }
  }

  lemma {:induction false} BusProcessesQuietly(b: Bus, k: nat) returns (t: Turn)
    requires |b.handlers| <= MAX_HANDLERS
    ensures t == AfterProcess(b, k, [])
    ensures BusIsQuiet(b, t, k)
  {
    if k == 0 {
      t := Turn(b, 0);
    } else {
      var before := BusProcessesQuietly(b, k - 1);
      t := BusHandlesQuietly(b, before, k - 1);
    }
  }

  /** Seen from the bus, the loop processes events as any bus does whose handlers post
      nothing. */
  lemma LoopProcessesLikeBus(l: Loop, k: nat)
    requires Sound(l)
    ensures Processed(l, k).bus == AfterProcess(l.bus, k, []).bus
  {
    var b := LoopProcessesQuietly(l, k);
    var t := BusProcessesQuietly(l.bus, k);
  }

  lemma {:induction false} SilentDelivery(b: Bus, done: seq<Delivery>, event: Event, i: nat, n: nat)
    requires |b.handlers| <= MAX_HANDLERS && InProgress(b, done, event, i)
    ensures AfterDeliver(b, i, n, []).bus == b.(delivered := done + [Delivery(event, b.handlers)])
    decreases MAX_HANDLERS - i
  {
    if i < |b.handlers| {
      var invoked := Invoked(b, b.handlers[i]);
      assert b.delivered[..|b.delivered| - 1] == done;
      assert b.handlers[..i] + [b.handlers[i]] == b.handlers[..i + 1];
      assert AfterCalls(invoked, CallsOf([], n)) == invoked;
      SilentDelivery(invoked, done, event, i + 1, n + 1);
    } else {
      assert b.handlers[..i] == b.handlers;
    }
  }
}

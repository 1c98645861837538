// The virtual temperature input and the virtual actuators. Every transition announces a
// changed state and a changed health, in that order.
module VirtualComponents {
  import opened Prelude
  import opened Events

  const STATE_CHANGED: nat := 100
  const HEALTH_CHANGED: nat := 101
  const INPUT_VALUE_CHANGED: nat := 200

  datatype HealthState = Ok | Degraded | Fault | Recovering | Disabled

  datatype Health = Health(state: HealthState, faultCode: string)

  function HealthCode(state: HealthState): int {
    match state
    case Ok => 0
    case Degraded => 1
    case Fault => 2
    case Recovering => 3
    case Disabled => 4
  }

  const DISABLED_HEALTH := Health(Disabled, "")
  const OK_HEALTH := Health(Ok, "")

  datatype InputState = InputDisabled | InputReady | InputFault

  datatype Input = Input(id: string, state: InputState, health: Health, hasValue: bool, value: real)

  datatype ActuatorState = ActuatorDisabled | Off | On

  datatype Actuator = Actuator(id: string, state: ActuatorState, health: Health) {
    predicate Enabled() {
      state != ActuatorDisabled
    }

    predicate IsOn() {
      state == On
    }
  }

  function InputCode(state: InputState): int {
    match state
    case InputDisabled => 0
    case InputReady => 1
    case InputFault => 2
  }

  function ActuatorCode(state: ActuatorState): int {
    match state
    case ActuatorDisabled => 0
    case Off => 1
    case On => 2
  }

  /** The events of a transition. */
  function Announce(b: Bus, id: string, stateChanged: bool, stateCode: int, healthChanged: bool, health: HealthState): Bus {
    var b1 := if stateChanged then AfterPost(b, Event(STATE_CHANGED, id, stateCode)) else b;
    if healthChanged then AfterPost(b1, Event(HEALTH_CHANGED, id, HealthCode(health))) else b1
  }

  /** A value in thousandths, truncated toward zero. */
  function Milli(value: real): int {
    if value >= 0.0 then (value * 1000.0).Floor else -(-value * 1000.0).Floor
  }

  // ---- The input -------------------------------------------------------------

  function AfterInputTransition(i: Input, state: InputState, health: Health): Input {
    i.(state := state, health := health)
  }

  function InputTransitionPosts(b: Bus, i: Input, state: InputState, health: Health): Bus {
    Announce(b, i.id, state != i.state, InputCode(state), health != i.health, health.state)
  }

  function AfterSetValue(i: Input, value: Float): Input {
    if value.NonFinite? then i
    else AfterInputTransition(i.(value := value.r, hasValue := true), InputReady, OK_HEALTH)
  }

  function SetValuePosts(b: Bus, i: Input, value: Float): Bus {
    if value.NonFinite? then b
    else AfterPost(InputTransitionPosts(b, i, InputReady, OK_HEALTH), Event(INPUT_VALUE_CHANGED, i.id, Milli(value.r)))
  }

  function FaultCode(code: string): string {
    if Trim(code) == "" then "virtual_fault" else Trim(code)
  }

  function RecoveredState(i: Input): InputState {
    if i.hasValue then InputReady else InputDisabled
  }

  function RecoveredHealth(i: Input): Health {
    if i.hasValue then OK_HEALTH else DISABLED_HEALTH
  }

  // ---- What the calls on the input mean ---------------------------------------

  /** A finite value makes the input READY and healthy with that value, and is announced last;
      any other value changes nothing. */
  lemma ValueIsTaken(b: Bus, i: Input, value: Float)
    ensures var i' := AfterSetValue(i, value);
      if value.Finite? then
        && i' == Input(i.id, InputReady, Health(Ok, ""), true, value.r)
        && SetValuePosts(b, i, value) == AfterPost(InputTransitionPosts(b, i, InputReady, Health(Ok, "")), Event(200, i.id, Milli(value.r)))
      else i' == i && SetValuePosts(b, i, value) == b
  {
  }

  /** A value in thousandths is off by less than one, toward zero. */
  lemma MilliIsClose(value: real)
    ensures value >= 0.0 ==> 0.0 <= value * 1000.0 - Milli(value) as real < 1.0
    ensures value < 0.0 ==> 0.0 <= Milli(value) as real - value * 1000.0 < 1.0
  {
  }

  /** Recovery heals an input that has a value, and keeps the value; one without a value is
      disabled. */
  lemma RecoveryHealsInput(i: Input)
    ensures i.hasValue ==>
      RecoveredState(i) == InputReady && RecoveredHealth(i).state == Ok && RecoveredHealth(i).faultCode == ""
    ensures !i.hasValue ==> RecoveredState(i) == InputDisabled && RecoveredHealth(i).state == Disabled
    ensures var i' := AfterInputTransition(i, RecoveredState(i), RecoveredHealth(i));
      i'.value == i.value && i'.hasValue == i.hasValue && i'.id == i.id
  {
  }

  /** The code of a fault is never empty: the text given, without the space around it, or a
      standard one if nothing is left. */
  lemma FaultCodeIsGiven(code: string)
    ensures FaultCode(code) != ""
    ensures Blank(code) ==> FaultCode(code) == "virtual_fault"
    ensures !Blank(code) ==>
      exists i, j :: 0 <= i <= j <= |code| && FaultCode(code) == code[i..j] && Blank(code[..i]) && Blank(code[j..])
  {
    var i, j := TrimFinds(code);
    assert i == j ==> code == code[..i] + code[j..];
    if Blank(code) {
      BlankTrims(code);
    }
  }

  /** A transition posts a change of state, then a change of health, each only if there is one. */
  lemma TransitionPosts(b: Bus, i: Input, state: InputState, health: Health)
    ensures var b' := InputTransitionPosts(b, i, state, health);
      && b'.attempts == b.attempts + (if state != i.state then 1 else 0) + (if health != i.health then 1 else 0)
      && (state == i.state && health == i.health ==> b' == b)
      && (state == i.state && health != i.health ==> b' == AfterPost(b, Event(101, i.id, HealthCode(health.state))))
      && (state != i.state && health == i.health ==> b' == AfterPost(b, Event(100, i.id, InputCode(state))))
      && (state != i.state && health != i.health ==>
            b' == AfterPost(AfterPost(b, Event(100, i.id, InputCode(state))), Event(101, i.id, HealthCode(health.state))))
  {
  }

  /** Distinct states have distinct codes. */
  lemma CodesAreDistinct(h: HealthState, h': HealthState, i: InputState, i': InputState, a: ActuatorState, a': ActuatorState)
    ensures HealthCode(h) == HealthCode(h') <==> h == h'
    ensures InputCode(i) == InputCode(i') <==> i == i'
    ensures ActuatorCode(a) == ActuatorCode(a') <==> a == a'
  {
  }

  /** Both components post a change of state, then one of health. */
  method PostChanges(
    bus: EventBus, id: string, stateChanged: bool, stateCode: int, healthChanged: bool, health: HealthState)
    requires bus.Valid()
    modifies bus, bus.queue
    ensures bus.Valid()
    ensures bus.Snapshot() == Announce(old(bus.Snapshot()), id, stateChanged, stateCode, healthChanged, health)
  {
    if stateChanged {
      var _ := bus.Post(Event(STATE_CHANGED, id, stateCode));
    }
    if healthChanged {
      var _ := bus.Post(Event(HEALTH_CHANGED, id, HealthCode(health)));
    }
  }

  class VirtualInputComponent {
    const bus: EventBus
    const id: string
    var state: InputState
    var health: Health
    var hasValue: bool
    var value: real

    ghost function Snapshot(): Input
      reads this
    {
      Input(id, state, health, hasValue, value)
    }

    constructor (bus: EventBus, id: string)
      ensures this.bus == bus && Snapshot() == Input(id, InputDisabled, DISABLED_HEALTH, false, 0.0)
    {
      this.bus, this.id := bus, id;
      state, health, hasValue, value := InputDisabled, DISABLED_HEALTH, false, 0.0;
    }

    method Begin() returns (ok: bool)
      modifies this
      ensures ok && Snapshot() == old(Snapshot()).(state := InputDisabled, health := DISABLED_HEALTH, hasValue := false)
    {
      state, health, hasValue := InputDisabled, DISABLED_HEALTH, false;
      return true;
    }

    method TransitionTo(nextState: InputState, nextHealth: Health)
      requires bus.Valid()
      modifies this, bus, bus.queue
      ensures bus.Valid()
      ensures Snapshot() == AfterInputTransition(old(Snapshot()), nextState, nextHealth)
      ensures bus.Snapshot() == InputTransitionPosts(old(bus.Snapshot()), old(Snapshot()), nextState, nextHealth)
    {
      var stateChanged, healthChanged := nextState != state, nextHealth != health;
      state, health := nextState, nextHealth;
      PostChanges(bus, id, stateChanged, InputCode(state), healthChanged, health.state);
    }

    method SetValue(v: Float) returns (ok: bool)
      requires bus.Valid()
      modifies this, bus, bus.queue
      ensures bus.Valid() && ok == v.Finite?
      ensures Snapshot() == AfterSetValue(old(Snapshot()), v)
      ensures bus.Snapshot() == SetValuePosts(old(bus.Snapshot()), old(Snapshot()), v)
    {
      if v.NonFinite? {
        return false;
      }
      value, hasValue := v.r, true;
      TransitionTo(InputReady, OK_HEALTH);
      var _ := bus.Post(Event(INPUT_VALUE_CHANGED, id, Milli(v.r)));
      return true;
    }

    method InjectFault(code: string) returns (ok: bool)
      requires bus.Valid()
      modifies this, bus, bus.queue
      ensures bus.Valid() && ok
      ensures Snapshot() == AfterInputTransition(old(Snapshot()), InputFault, Health(Fault, FaultCode(code)))
      ensures bus.Snapshot()
           == InputTransitionPosts(old(bus.Snapshot()), old(Snapshot()), InputFault, Health(Fault, FaultCode(code)))
    {
      var trimmed := Trim(code);
      if |trimmed| == 0 {
        trimmed := "virtual_fault";
      }
      TransitionTo(InputFault, Health(Fault, trimmed));
      return true;
    }

    method Recover()
      requires bus.Valid()
      modifies this, bus, bus.queue
      ensures bus.Valid()
      ensures Snapshot() == AfterInputTransition(old(Snapshot()), RecoveredState(old(Snapshot())), RecoveredHealth(old(Snapshot())))
      ensures bus.Snapshot() == InputTransitionPosts(
        old(bus.Snapshot()), old(Snapshot()), RecoveredState(old(Snapshot())), RecoveredHealth(old(Snapshot())))
    {
      if hasValue {
        TransitionTo(InputReady, OK_HEALTH);
      } else {
        TransitionTo(InputDisabled, DISABLED_HEALTH);
      }
    }

    method Disable()
      requires bus.Valid()
      modifies this, bus, bus.queue
      ensures bus.Valid()
      ensures Snapshot() == AfterInputTransition(old(Snapshot()).(hasValue := false), InputDisabled, DISABLED_HEALTH)
      ensures bus.Snapshot() == InputTransitionPosts(old(bus.Snapshot()), old(Snapshot()), InputDisabled, DISABLED_HEALTH)
    {
      hasValue := false;
      TransitionTo(InputDisabled, DISABLED_HEALTH);
    }
  }

  // ---- The actuators ---------------------------------------------------------

  function AfterActuatorTransition(a: Actuator, state: ActuatorState, health: Health): Actuator {
    a.(state := state, health := health)
  }

  function ActuatorTransitionPosts(b: Bus, a: Actuator, state: ActuatorState, health: Health): Bus {
    Announce(b, a.id, state != a.state, ActuatorCode(state), health != a.health, health.state)
  }

  function OnOff(on: bool): ActuatorState {
    if on then On else Off
  }

  /** Enabled, ON or OFF. */
  function AfterEnable(a: Actuator, on: bool): Actuator {
    AfterActuatorTransition(a, OnOff(on), OK_HEALTH)
  }

  function EnablePosts(b: Bus, a: Actuator, on: bool): Bus {
    ActuatorTransitionPosts(b, a, OnOff(on), OK_HEALTH)
  }

  function AfterApplyDesired(a: Actuator, on: bool): Actuator {
    if a.Enabled() then AfterEnable(a, on) else a
  }

  function ApplyDesiredPosts(b: Bus, a: Actuator, on: bool): Bus {
    if a.Enabled() then EnablePosts(b, a, on) else b
  }

  /** Enabling switches the output as asked and makes it healthy, also if it was disabled; a
      command does the same to an enabled output and nothing to a disabled one. */
  lemma CommandsSwitch(b: Bus, a: Actuator, on: bool)
    ensures AfterEnable(a, on).IsOn() == on && AfterEnable(a, on).Enabled()
    ensures AfterEnable(a, on).health == Health(Ok, "") && AfterEnable(a, on).id == a.id
    ensures a.Enabled() ==>
      AfterApplyDesired(a, on) == AfterEnable(a, on) && ApplyDesiredPosts(b, a, on) == EnablePosts(b, a, on)
    ensures !a.Enabled() ==> AfterApplyDesired(a, on) == a && ApplyDesiredPosts(b, a, on) == b
    ensures a == AfterEnable(a, on) ==> EnablePosts(b, a, on) == b
    ensures a.state != AfterEnable(a, on).state && a.health == OK_HEALTH ==>
      EnablePosts(b, a, on) == AfterPost(b, Event(100, a.id, if on then 2 else 1))
  {
  }

  class VirtualActuatorComponent {
    const bus: EventBus
    const id: string
    var state: ActuatorState
    var health: Health

    ghost function Snapshot(): Actuator
      reads this
    {
      Actuator(id, state, health)
    }

    constructor (bus: EventBus, id: string)
      ensures this.bus == bus && Snapshot() == Actuator(id, ActuatorDisabled, DISABLED_HEALTH)
    {
      this.bus, this.id, state, health := bus, id, ActuatorDisabled, DISABLED_HEALTH;
    }

    method Begin() returns (ok: bool)
      modifies this
      ensures ok && Snapshot() == old(Snapshot()).(state := ActuatorDisabled, health := DISABLED_HEALTH)
    {
      state, health := ActuatorDisabled, DISABLED_HEALTH;
      return true;
    }

    method TransitionTo(nextState: ActuatorState, nextHealth: Health)
      requires bus.Valid()
      modifies this, bus, bus.queue
      ensures bus.Valid()
      ensures Snapshot() == AfterActuatorTransition(old(Snapshot()), nextState, nextHealth)
      ensures bus.Snapshot() == ActuatorTransitionPosts(old(bus.Snapshot()), old(Snapshot()), nextState, nextHealth)
    {
      var stateChanged, healthChanged := nextState != state, nextHealth != health;
      state, health := nextState, nextHealth;
      PostChanges(bus, id, stateChanged, ActuatorCode(state), healthChanged, health.state);
    }

    method Enable(initialOn: bool)
      requires bus.Valid()
      modifies this, bus, bus.queue
      ensures bus.Valid()
      ensures Snapshot() == AfterEnable(old(Snapshot()), initialOn)
      ensures bus.Snapshot() == EnablePosts(old(bus.Snapshot()), old(Snapshot()), initialOn)
    {
      TransitionTo(OnOff(initialOn), OK_HEALTH);
    }

    method ApplyDesired(desiredOn: bool) returns (ok: bool)
      requires bus.Valid()
      modifies this, bus, bus.queue
      ensures bus.Valid() && ok == old(Snapshot()).Enabled()
      ensures Snapshot() == AfterApplyDesired(old(Snapshot()), desiredOn)
      ensures bus.Snapshot() == ApplyDesiredPosts(old(bus.Snapshot()), old(Snapshot()), desiredOn)
    {
      if state == ActuatorDisabled {
        return false;
      }
      TransitionTo(OnOff(desiredOn), OK_HEALTH);
      return true;
    }
  }
}

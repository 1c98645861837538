// The calls on the input, end to end: a value is followed, a fault is answered as the policy
// says, and a recovery re-arms the rule, under every fault policy.
module FaultRecovery {
  import opened Prelude
  import opened Events
  import opened FaultPolicy
  import opened Rules
  import opened VirtualComponents
  import opened RuleExecution
  import opened PersistedRules
  import opened ControlLoop

  // ---- What a firing counts ---------------------------------------------------

  /** On a healthy input a firing completes one evaluation and counts nothing else. */
  lemma FiredRuleCounts(l: Loop)
    requires Sound(l) && l.runtime.task == Queued && l.input.health.state == Ok
    ensures var c, c' := l.runtime.counters, Fired(l).runtime.counters;
      && c'.completed == Inc32(c.completed) && c'.rejected == c.rejected
      && c'.policyAction == c.policyAction && c'.alarm == c.alarm
  {
  }

  /** On an unhealthy one it counts a policy action; ALARM_ONLY raises the alarm, DISABLE_RULE
      counts a rejection. */
  lemma FiredPolicyCounts(l: Loop)
    requires Sound(l) && l.runtime.task == Queued && l.input.health.state != Ok
    ensures var c, c' := l.runtime.counters, Fired(l).runtime.counters;
      && c'.completed == c.completed && c'.policyAction == Inc32(c.policyAction)
      && c'.alarm == (if l.runtime.policy == AlarmOnly then Inc32(c.alarm) else c.alarm)
      && c'.rejected == (if l.runtime.policy == DisableRule then Inc32(c.rejected) else c.rejected)
  {
  }

  // ---- The rule is armed ------------------------------------------------------

  /** On a healthy input an enabled rule is armed, unless something relevant still waits. */
  ghost predicate Alert(l: Loop) {
    l.engine.Enabled() && l.input.health.state == Ok ==> RelevantQueued(l.bus) || l.runtime.state == Armed
  }

  lemma FiringKeepsAlert(l: Loop)
    requires Sound(l) && Alert(l)
    ensures Sound(Fired(l)) && Alert(Fired(l))
  {
    if l.runtime.task == Queued {
      FiredSettles(l);
      ExtendedKeepsRelevance(l.bus, Fired(l).bus);
    }
  }

  lemma PostsKeepAlert(l: Loop, others: seq<Event>)
    requires Sound(l) && Alert(l) && Foreign(others)
    ensures Sound(Posted(l, others)) && Alert(Posted(l, others))
  {
    PostAllExtends(l.bus, others);
    ExtendedKeepsRelevance(l.bus, PostAll(l.bus, others));
  }

  lemma HandlingKeepsAlert(l: Loop) returns (l': Loop)
    requires Sound(l) && Alert(l)
    ensures l' == HandledNext(l) && Sound(l') && Alert(l')
  {
    l' := HandledNext(l);
    if l.bus.pending != [] {
      HandledNextIs(l);
      RequestQueues(l);
      if RelevantQueued(l.bus) && !Relevant(INPUT_ID, l.bus.pending[0]) {
        var i :| 0 <= i < |l.bus.pending| && Relevant(INPUT_ID, l.bus.pending[i]);
        assert Relevant(INPUT_ID, l.bus.pending[1..][i - 1]);
      }
    }
  }

  lemma {:induction false} ProcessingKeepsAlert(l: Loop, k: nat) returns (l': Loop)
    requires Sound(l) && Alert(l)
    ensures l' == Processed(l, k)
    ensures Sound(l') && Alert(l')
  {
    if k == 0 {
      l' := l;
    } else {
      var before := ProcessingKeepsAlert(l, k - 1);
      l' := HandlingKeepsAlert(before);
    }
  }

  lemma PassKeepsAlert(l: Loop, others: seq<Event>) returns (l': Loop)
    requires Sound(l) && Alert(l) && Foreign(others)
    ensures l' == Pass(l, others)
    ensures Sound(l') && Alert(l')
  {
    FiringKeepsAlert(l);
    PostsKeepAlert(Fired(l), others);
    l' := ProcessingKeepsAlert(Posted(Fired(l), others), 8);
  }

  lemma {:induction false} PassesKeepAlert(l: Loop, os: seq<seq<Event>>) returns (l': Loop)
    requires Sound(l) && Alert(l) && AllForeign(os)
    ensures l' == Passes(l, os)
    ensures Sound(l') && Alert(l')
  {
    l' := l;
    if os != [] {
      var front := os[..|os| - 1];
      assert forall i :: 0 <= i < |front| ==> front[i] == os[i];
      assert Foreign(os[|os| - 1]);
      var before := PassesKeepAlert(l, front);
      l' := PassKeepsAlert(before, os[|os| - 1]);
    }
  }

  // ---- Values, faults and recoveries ------------------------------------------

  /** The rule is armed and the heater is where a value puts it. */
  ghost predicate Follows(l: Loop, rule: Rule, value: real)
    requires rule.onBelow.Finite? && rule.offAbove.Finite?
  {
    && l.runtime.state == Armed
    && (value < rule.onBelow.r ==> l.heater.state == On)
    && (value > rule.offAbove.r ==> l.heater.state == Off)
  }

  /** The heater is where a policy puts it that was at `before`. */
  ghost predicate Answers(l: Loop, policy: Policy, before: ActuatorState) {
    match policy
    case SafeOff => l.heater.state == Off
    case SafeOn => l.heater.state == On
    case KeepLastState => l.heater.state == before
    case DisableRule => l.heater.state == before && l.runtime.state == RunDisabled
    case AlarmOnly => l.heater.state == before
  }

  function Set(l: Loop, value: real): Loop {
    AfterLoopStep(World(l, NEW_LOADER), SetValue(Finite(value))).loop
  }

  function Faulted(l: Loop, code: string): Loop {
    AfterLoopStep(World(l, NEW_LOADER), InjectFault(code)).loop
  }

  function Recovered(l: Loop): Loop {
    AfterLoopStep(World(l, NEW_LOADER), Recover).loop
  }

  function Disconnected(l: Loop): Loop {
    AfterLoopStep(World(l, NEW_LOADER), DisableInput).loop
  }

  /** The rule is enabled, and the queue has room for what a call on the input posts. */
  ghost predicate Roomy(l: Loop) {
    Sound(l) && l.engine.Enabled() && |l.bus.pending| + 3 <= 24
  }

  lemma HealthyFollows(l: Loop, os: seq<seq<Event>>)
    requires Sound(l) && RelevantQueued(l.bus) && l.engine.Enabled() && l.input.health.state == Ok
    requires AllForeign(os) && |os| >= 4
    ensures var l' := Passes(l, os);
      && Sound(l') && SameDemand(l, l') && Follows(l', l.engine.rule, l.input.value) && |l'.bus.pending| <= 16
  {
    SettlesWithinFourPasses(l, NEW_LOADER, os);
    var l' := PassesKeepAlert(l, os);
    PassesLeaveRoom(l, os);
  }

  lemma PassesLeaveRoom(l: Loop, os: seq<seq<Event>>)
    requires Sound(l) && AllForeign(os) && os != []
    ensures |Passes(l, os).bus.pending| <= 16
  {
    var front := os[..|os| - 1];
    assert forall i :: 0 <= i < |front| ==> front[i] == os[i];
    PassesReach(l, front);
    assert Foreign(os[|os| - 1]);
    PassDrains(Passes(l, front), os[|os| - 1], QUEUE_SIZE);
  }

  /** A value set while there is room is followed. */
  lemma ValueIsFollowed(l: Loop, value: real, os: seq<seq<Event>>)
    requires Roomy(l) && AllForeign(os) && |os| >= 4
    ensures var l1, l' := Set(l, value), Passes(Set(l, value), os);
      && l1.input == l.input.(state := InputReady, health := Health(Ok, ""), hasValue := true, value := value)
      && Sound(l') && SameDemand(l1, l') && Follows(l', l.engine.rule, value) && |l'.bus.pending| <= 16
  {
    InputStepSound(World(l, NEW_LOADER), SetValue(Finite(value)));
    HealthyFollows(Set(l, value), os);
  }

  /** A recovery while there is room heals an input that has a value: the rule is armed again,
      whatever the fault policy, and the heater follows the value. */
  lemma RecoveryIsFollowed(l: Loop, os: seq<seq<Event>>)
    requires Roomy(l) && l.input.hasValue && l.input.health.state != Ok && AllForeign(os) && |os| >= 4
    ensures var l1, l' := Recovered(l), Passes(Recovered(l), os);
      && l1.input == l.input.(state := InputReady, health := Health(Ok, ""))
      && Sound(l') && SameDemand(l1, l') && Follows(l', l.engine.rule, l.input.value) && |l'.bus.pending| <= 16
  {
    InputStepSound(World(l, NEW_LOADER), Recover);
    HealthyFollows(Recovered(l), os);
  }

  lemma HandsOffPass(l: Loop, others: seq<Event>)
    requires Sound(l) && Foreign(others) && l.input.health.state != Ok
    requires l.runtime.policy in {KeepLastState, DisableRule, AlarmOnly}
    ensures var l' := Pass(l, others); Sound(l') && SameDemand(l, l') && l'.heater == l.heater
  {
    if l.runtime.task == Queued {
      FiredPolicySettles(l);
    }
    ScheduledIs(l, others);
    ProcessedDrains(Posted(Fired(l), others), 8);
  }

  lemma {:induction false} HandsOffPasses(l: Loop, os: seq<seq<Event>>) returns (l': Loop)
    requires Sound(l) && AllForeign(os) && l.input.health.state != Ok
    requires l.runtime.policy in {KeepLastState, DisableRule, AlarmOnly}
    ensures l' == Passes(l, os)
    ensures Sound(l') && SameDemand(l, l') && l'.heater == l.heater
  {
    l' := l;
    if os != [] {
      var front := os[..|os| - 1];
      assert forall i :: 0 <= i < |front| ==> front[i] == os[i];
      assert Foreign(os[|os| - 1]);
      var before := HandsOffPasses(l, front);
      HandsOffPass(before, os[|os| - 1]);
      l' := Pass(before, os[|os| - 1]);
    }
  }

  lemma UnhealthyAnswers(l: Loop, os: seq<seq<Event>>)
    requires Sound(l) && RelevantQueued(l.bus) && l.engine.Enabled() && l.input.health.state != Ok
    requires AllForeign(os) && |os| >= 4
    ensures var l' := Passes(l, os);
      && Sound(l') && SameDemand(l, l') && Answers(l', l.runtime.policy, l.heater.state) && |l'.bus.pending| <= 16
  {
    SettlesWithinFourPasses(l, NEW_LOADER, os);
    PassesReach(l, os);
    PassesLeaveRoom(l, os);
    if l.runtime.policy in {KeepLastState, DisableRule, AlarmOnly} {
      var l' := HandsOffPasses(l, os);
    }
  }

  /** A fault of a healthy input, injected while there is room, is answered as the policy says. */
  lemma FaultIsAnswered(l: Loop, code: string, os: seq<seq<Event>>)
    requires Roomy(l) && l.input.health.state == Ok && AllForeign(os) && |os| >= 4
    ensures var l1, l' := Faulted(l, code), Passes(Faulted(l, code), os);
      && l1.input.state == InputFault && l1.input.health.state == Fault
      && l1.input.value == l.input.value && l1.input.hasValue == l.input.hasValue
      && Sound(l') && SameDemand(l1, l') && Answers(l', l.runtime.policy, l.heater.state) && |l'.bus.pending| <= 16
  {
    InputStepSound(World(l, NEW_LOADER), InjectFault(code));
    UnhealthyAnswers(Faulted(l, code), os);
  }

  /** So is the disabling of a healthy input, which also forgets that there is a value. */
  lemma DisablingIsAnswered(l: Loop, os: seq<seq<Event>>)
    requires Roomy(l) && l.input.health.state == Ok && AllForeign(os) && |os| >= 4
    ensures var l1, l' := Disconnected(l), Passes(Disconnected(l), os);
      && l1.input.state == InputDisabled && l1.input.health.state == Disabled && !l1.input.hasValue
      && Sound(l') && SameDemand(l1, l') && Answers(l', l.runtime.policy, l.heater.state) && |l'.bus.pending| <= 16
  {
    InputStepSound(World(l, NEW_LOADER), DisableInput);
    UnhealthyAnswers(Disconnected(l), os);
  }

  /** The rule and the policy in force, and the value of an input with this health. */
  ghost predicate Stage(l: Loop, rule: Rule, policy: Policy, value: real, health: HealthState) {
    && Roomy(l) && l.engine.rule == rule && l.runtime.policy == policy
    && l.input.hasValue && l.input.value == value && l.input.health.state == health
  }

  lemma ValueStage(l: Loop, value: real, os: seq<seq<Event>>) returns (l': Loop)
    requires Roomy(l) && AllForeign(os) && |os| >= 4
    ensures l' == Passes(Set(l, value), os)
    ensures Stage(l', l.engine.rule, l.runtime.policy, value, Ok) && Banded(l.engine.rule) && Follows(l', l.engine.rule, value)
  {
    ValueIsFollowed(l, value, os);
    l' := Passes(Set(l, value), os);
  }

  lemma FaultStage(l: Loop, rule: Rule, policy: Policy, value: real, code: string, os: seq<seq<Event>>) returns (l': Loop)
    requires Stage(l, rule, policy, value, Ok) && AllForeign(os) && |os| >= 4
    ensures l' == Passes(Faulted(l, code), os)
    ensures Stage(l', rule, policy, value, Fault) && Answers(l', policy, l.heater.state)
  {
    FaultIsAnswered(l, code, os);
    l' := Passes(Faulted(l, code), os);
  }

  lemma RecoveryStage(l: Loop, rule: Rule, policy: Policy, value: real, os: seq<seq<Event>>) returns (l': Loop)
    requires Stage(l, rule, policy, value, Fault) && Banded(rule) && AllForeign(os) && |os| >= 4
    ensures l' == Passes(Recovered(l), os)
    ensures Stage(l', rule, policy, value, Ok) && Follows(l', rule, value)
  {
    RecoveryIsFollowed(l, os);
    l' := Passes(Recovered(l), os);
  }

  /** A value, a fault, a recovery, with four or more passes after each: the heater follows the
      value, then the policy, then the value again, and the rule and its policy stay as they
      were, whichever policy it is. */
  lemma FaultComesAndGoes(
    l: Loop, value: real, code: string, first: seq<seq<Event>>, second: seq<seq<Event>>, third: seq<seq<Event>>)
    returns (l1: Loop, l2: Loop, l3: Loop)
    requires Roomy(l) && AllForeign(first) && AllForeign(second) && AllForeign(third)
    requires |first| >= 4 && |second| >= 4 && |third| >= 4
    ensures l1 == Passes(Set(l, value), first)
    ensures l2 == Passes(Faulted(l1, code), second)
    ensures l3 == Passes(Recovered(l2), third)
    ensures Banded(l.engine.rule)
    ensures Follows(l1, l.engine.rule, value)
    ensures Answers(l2, l.runtime.policy, l1.heater.state)
    ensures Follows(l3, l.engine.rule, value)
    ensures Stage(l3, l.engine.rule, l.runtime.policy, value, Ok)
  {
    l1 := ValueStage(l, value, first);
    l2 := FaultStage(l1, l.engine.rule, l.runtime.policy, value, code, second);
    l3 := RecoveryStage(l2, l.engine.rule, l.runtime.policy, value, third);
  }
}

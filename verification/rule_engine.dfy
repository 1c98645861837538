// Rules::RuleEngine: one hysteresis rule, configured or not. Evaluating it computes the
// desired output and announces the decision on the event bus.
module Rules {
  import opened Prelude
  import opened Identifiers
  import opened Events

  const RULE_EVALUATED: nat := 201

  datatype Decision = NoDecision | TurnOff | TurnOn | Hold | RuleDisabled

  datatype Rule = Rule(id: string, enabled: bool, onBelow: Float, offAbove: Float)

  const NO_RULE := Rule("", false, Finite(0.0), Finite(0.0))

  datatype RuleError = IdInvalid | ThresholdInvalid | HysteresisInvalid

  datatype Engine = Engine(configured: bool, rule: Rule, evaluations: nat, lastDecision: Decision) {
    predicate Enabled() {
      configured && rule.enabled
    }
  }

  const CLEARED_ENGINE := Engine(false, NO_RULE, 0, NoDecision)

  datatype Evaluation = Evaluation(ok: bool, desired: bool, decision: Decision)

  function DecisionCode(decision: Decision): int {
    match decision
    case NoDecision => 0
    case TurnOff => 1
    case TurnOn => 2
    case Hold => 3
    case RuleDisabled => 4
  }

  /** The thresholds are finite and leave a dead band. */
  predicate Banded(rule: Rule) {
    rule.onBelow.Finite? && rule.offAbove.Finite? && rule.onBelow.r < rule.offAbove.r
  }

  function ConfigureError(rule: Rule): Option<RuleError> {
    if !ValidId(rule.id) then Some(IdInvalid)
    else if !rule.onBelow.Finite? || !rule.offAbove.Finite? then Some(ThresholdInvalid)
    else if !(rule.onBelow.r < rule.offAbove.r) then Some(HysteresisInvalid)
    else None
  }

  function AfterConfigure(e: Engine, rule: Rule): Engine {
    if ConfigureError(rule).Some? then e
    else e.(rule := rule, configured := true, lastDecision := if rule.enabled then NoDecision else RuleDisabled)
  }

  function Evaluate(e: Engine, input: Float, current: bool): Evaluation {
    if !e.configured then Evaluation(false, current, NoDecision)
    else if !e.rule.enabled then Evaluation(true, current, RuleDisabled)
    else if !input.Finite? then Evaluation(false, current, NoDecision)
    else if Below(input, e.rule.onBelow) then Evaluation(true, true, if current then Hold else TurnOn)
    else if Below(e.rule.offAbove, input) then Evaluation(true, false, if current then TurnOff else Hold)
    else Evaluation(true, current, Hold)
  }

  /** `<` on floats: false when either side is not a number; infinities do not reach here. */
  predicate Below(a: Float, b: Float) {
    a.Finite? && b.Finite? && a.r < b.r
  }

  /** Whether an evaluation gets as far as computing and announcing a decision. */
  predicate Computes(e: Engine, input: Float) {
    e.Enabled() && input.Finite?
  }

  function AfterEvaluate(e: Engine, input: Float, current: bool): Engine {
    if Computes(e, input) then
      e.(evaluations := Inc32(e.evaluations), lastDecision := Evaluate(e, input, current).decision)
    else if e.configured && !e.rule.enabled then e.(lastDecision := RuleDisabled)
    else e
  }

  function EvaluatedEvent(e: Engine, decision: Decision): Event {
    Event(RULE_EVALUATED, e.rule.id, DecisionCode(decision))
  }

  function EvaluatePosts(b: Bus, e: Engine, input: Float, current: bool): Bus {
    if Computes(e, input) then AfterPost(b, EvaluatedEvent(e, Evaluate(e, input, current).decision)) else b
  }

  /** The engine takes a rule exactly when its id is valid and its thresholds leave a band, and
      otherwise keeps the one it has. */
  lemma ConfiguresIff(e: Engine, rule: Rule)
    ensures ConfigureError(rule) == None <==> ValidId(rule.id) && Banded(rule)
    ensures var e' := AfterConfigure(e, rule);
      && (ConfigureError(rule) == None ==> e'.configured && e'.rule == rule && e'.evaluations == e.evaluations)
      && (ConfigureError(rule).Some? ==> e' == e)
  {
  }

  /** A decision says how the output changes, and every evaluation that computes one counts it
      and posts exactly one event with the rule's id and the code of the decision. */
  lemma DecisionsAreAnnounced(b: Bus, e: Engine, input: Float, current: bool)
    requires e.configured && e.rule.enabled && input.Finite?
    ensures var result, e', b' := Evaluate(e, input, current), AfterEvaluate(e, input, current), EvaluatePosts(b, e, input, current);
      && result.ok
      && (result.decision == TurnOn <==> !current && result.desired)
      && (result.decision == TurnOff <==> current && !result.desired)
      && (result.decision == Hold <==> result.desired == current)
      && e'.lastDecision == result.decision && e'.evaluations == (e.evaluations + 1) % UINT32_LIMIT && e'.rule == e.rule
      && b' == AfterPost(b, Event(201, e.rule.id, if result.desired == current then 3 else if result.desired then 2 else 1))
  {
  }

  /** An evaluation that computes nothing leaves output and queue alone: without a rule or a
      finite input it fails, with a disabled rule it says so. */
  lemma IdleEvaluations(b: Bus, e: Engine, input: Float, current: bool)
    requires !(e.configured && e.rule.enabled && input.Finite?)
    ensures var result := Evaluate(e, input, current);
      && result.desired == current && EvaluatePosts(b, e, input, current) == b
      && AfterEvaluate(e, input, current).evaluations == e.evaluations
      && (result.ok <==> e.configured && !e.rule.enabled)
      && (result.decision == RuleDisabled <==> e.configured && !e.rule.enabled)
  {
  }

  /** The output after a run of evaluations that are all applied. */
  ghost function Outputs(e: Engine, inputs: seq<Float>, start: bool): bool {
    if inputs == [] then start
    else Evaluate(e, inputs[|inputs| - 1], Outputs(e, inputs[..|inputs| - 1], start)).desired
  }

  /** Input j fell below onBelow and none after it rose above offAbove. */
  ghost predicate SwitchedOn(e: Engine, inputs: seq<Float>, j: nat)
    requires j < |inputs|
  {
    Below(inputs[j], e.rule.onBelow) && forall k :: j < k < |inputs| ==> !Below(e.rule.offAbove, inputs[k])
  }

  /** Hysteresis over a run: the output is ON exactly when some input fell below onBelow
      after which none rose above offAbove, or it was ON at the start and none ever did. */
  lemma {:induction false} OutputFollowsLastCrossing(e: Engine, inputs: seq<Float>, start: bool)
    requires e.Enabled() && Banded(e.rule)
    requires forall i :: 0 <= i < |inputs| ==> inputs[i].Finite?
    ensures Outputs(e, inputs, start) <==>
      (start && forall k :: 0 <= k < |inputs| ==> !Below(e.rule.offAbove, inputs[k]))
      || exists j :: 0 <= j < |inputs| && SwitchedOn(e, inputs, j)
  {
    if inputs != [] {
      var n := |inputs| - 1;
      var front, last := inputs[..n], inputs[n];
      OutputFollowsLastCrossing(e, front, start);
      if Below(last, e.rule.onBelow) {
        assert SwitchedOn(e, inputs, n);
      } else if !Below(e.rule.offAbove, last) {
        forall j | 0 <= j < |front|
          ensures SwitchedOn(e, inputs, j) <==> SwitchedOn(e, front, j)
        {
          assert forall k :: j < k < |front| ==> inputs[k] == front[k];
        }
      }
    }
  }

  class RuleEngine {
    const bus: EventBus
    var rule: Rule
    var configured: bool
    var evaluations: nat
    var lastDecision: Decision

    ghost function Snapshot(): Engine
      reads this
    {
      Engine(configured, rule, evaluations, lastDecision)
    }

    constructor (bus: EventBus)
      ensures this.bus == bus && Snapshot() == CLEARED_ENGINE
    {
      this.bus := bus;
      rule, configured, evaluations, lastDecision := NO_RULE, false, 0, NoDecision;
    }

    method Configure(candidate: Rule) returns (error: Option<RuleError>)
      modifies this
      ensures error == ConfigureError(candidate)
      ensures Snapshot() == AfterConfigure(old(Snapshot()), candidate)
    {
      var idOk := CheckId(candidate.id);
      if !idOk {
        return Some(IdInvalid);
      }
      if !candidate.onBelow.Finite? || !candidate.offAbove.Finite? {
        return Some(ThresholdInvalid);
      }
      if !(candidate.onBelow.r < candidate.offAbove.r) {
        return Some(HysteresisInvalid);
      }
      rule, configured := candidate, true;
      lastDecision := if candidate.enabled then NoDecision else RuleDisabled;
      return None;
    }

    method Clear()
      modifies this
      ensures Snapshot() == CLEARED_ENGINE
    {
      rule, configured, evaluations, lastDecision := NO_RULE, false, 0, NoDecision;
    }

    method EvaluateInput(input: Float, current: bool) returns (result: Evaluation)
      requires bus.Valid()
      modifies this, bus, bus.queue
      ensures bus.Valid()
      ensures result == Evaluate(old(Snapshot()), input, current)
      ensures Snapshot() == AfterEvaluate(old(Snapshot()), input, current)
      ensures bus.Snapshot() == EvaluatePosts(old(bus.Snapshot()), old(Snapshot()), input, current)
    {
      if !configured {
        return Evaluation(false, current, NoDecision);
      }
      if !rule.enabled {
        lastDecision := RuleDisabled;
        return Evaluation(true, current, RuleDisabled);
      }
      if !input.Finite? {
        return Evaluation(false, current, NoDecision);
      }
      evaluations := Inc32(evaluations);
      var desired, decision := current, Hold;
      if Below(input, rule.onBelow) {
        desired, decision := true, if current then Hold else TurnOn;
      } else if Below(rule.offAbove, input) {
        desired, decision := false, if current then TurnOff else Hold;
      }
      lastDecision := decision;
      var _ := bus.Post(Event(RULE_EVALUATED, rule.id, DecisionCode(decision)));
      return Evaluation(true, desired, decision);
    }
  }
}

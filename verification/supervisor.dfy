// RuntimeCore::ComponentRegistry and RuntimeCore::Supervisor: at most 24 components with
// distinct ids, and one state that sums up their health.
module Supervision {
  import opened Prelude
  import opened Events
  import opened Fsm
  import opened VirtualComponents

  const MAX_COMPONENTS: nat := 24
  const SUPERVISOR_STATE_CHANGED: nat := 102

  datatype SupervisorState = Initializing | RunningWell | RunningDegraded | Faulted
  datatype SupervisorEvent = EventAllHealthy | EventDegraded | EventFault

  const SUPERVISOR_TABLE: seq<Transition<SupervisorState, SupervisorEvent>> := [
    Transition(Initializing, EventAllHealthy, RunningWell),
    Transition(Initializing, EventDegraded, RunningDegraded),
    Transition(Initializing, EventFault, Faulted),
    Transition(RunningWell, EventDegraded, RunningDegraded),
    Transition(RunningWell, EventFault, Faulted),
    Transition(RunningDegraded, EventAllHealthy, RunningWell),
    Transition(RunningDegraded, EventFault, Faulted),
    Transition(Faulted, EventAllHealthy, RunningWell),
    Transition(Faulted, EventDegraded, RunningDegraded)]

  function Target(event: SupervisorEvent): SupervisorState {
    match event
    case EventAllHealthy => RunningWell
    case EventDegraded => RunningDegraded
    case EventFault => Faulted
  }

  /** The table leads from every other state to the one an event names. */
  lemma SupervisorTableReaches(state: SupervisorState, event: SupervisorEvent)
    ensures After(SUPERVISOR_TABLE, state, event) == Target(event)
    ensures Next(SUPERVISOR_TABLE, state, event) == if state == Target(event) then None else Some(Target(event))
  {
    var t := SUPERVISOR_TABLE;
    if state == Target(event) {
      NoMatch(t, state, event);
    } else {
      assert t[Row(state, event)] == Transition(state, event, Target(event));
      NextIsFirstMatch(t, state, event, Row(state, event));
    }
  }

  /** Where the table takes a state by an event that does not name it. */
  function Row(state: SupervisorState, event: SupervisorEvent): nat {
    match (state, event)
    case (Initializing, EventAllHealthy) => 0
    case (Initializing, EventDegraded) => 1
    case (Initializing, EventFault) => 2
    case (RunningWell, EventDegraded) => 3
    case (RunningWell, _) => 4
    case (RunningDegraded, EventAllHealthy) => 5
    case (RunningDegraded, _) => 6
    case (Faulted, EventAllHealthy) => 7
    case (Faulted, _) => 8
  }

  function StateCode(state: SupervisorState): int {
    match state
    case Initializing => 0
    case RunningWell => 1
    case RunningDegraded => 2
    case Faulted => 3
  }

  datatype Counts = Counts(ok: nat, degraded: nat, fault: nat, recovering: nat, disabled: nat)

  function CountOf(healths: seq<HealthState>, state: HealthState): nat {
    if healths == [] then 0
    else CountOf(healths[..|healths| - 1], state) + if healths[|healths| - 1] == state then 1 else 0
  }

  function CountsOf(healths: seq<HealthState>): Counts {
    Counts(CountOf(healths, Ok), CountOf(healths, Degraded), CountOf(healths, Fault),
           CountOf(healths, Recovering), CountOf(healths, Disabled))
  }

  /** The state that sums up a number of healths. */
  ghost function Fold(healths: seq<HealthState>): SupervisorState {
    if Fault in healths then Faulted
    else if Degraded in healths || Recovering in healths then RunningDegraded
    else RunningWell
  }

  /** lastTransition is 0 until the first transition; evaluations is a 32-bit counter. */
  datatype Overseer = Overseer(
    state: SupervisorState, started: bool, lastTransition: nat, evaluations: nat, counts: Counts)

  const NEW_OVERSEER := Overseer(Initializing, false, 0, 0, Counts(0, 0, 0, 0, 0))

  datatype Oversight = Oversight(overseer: Overseer, bus: Bus)

  /** `setState` */
  function AfterSetState(x: Oversight, next: SupervisorState, now: nat): Oversight {
    var moved := x.(overseer := x.overseer.(state := next));
    if next == x.overseer.state && x.overseer.lastTransition != 0 then moved
    else
      Oversight(moved.overseer.(lastTransition := now),
                AfterPost(x.bus, Event(SUPERVISOR_STATE_CHANGED, "supervisor", StateCode(next))))
  }

  function AfterStart(x: Oversight, now: nat): Oversight {
    if x.overseer.started then x
    else AfterSetState(x.(overseer := x.overseer.(started := true)), Initializing, now)
  }

  function Desired(counts: Counts, size: nat): SupervisorState {
    if size == 0 then Initializing
    else if counts.fault > 0 then Faulted
    else if counts.degraded > 0 || counts.recovering > 0 then RunningDegraded
    else RunningWell
  }

  /** The part of an evaluation that follows the count. */
  function AfterDecision(x: Oversight, size: nat, now: nat): Oversight {
    var desired := Desired(x.overseer.counts, size);
    if desired == x.overseer.state || desired == Initializing then x else AfterSetState(x, desired, now)
  }

  function AfterEvaluation(x: Oversight, healths: seq<HealthState>, now: nat): Oversight {
    if !x.overseer.started then x
    else
      AfterDecision(
        x.(overseer := x.overseer.(evaluations := Inc32(x.overseer.evaluations), counts := CountsOf(healths))), |healths|, now)
  }

  // ---- The fold --------------------------------------------------------------

  lemma CountsExtend(healths: seq<HealthState>, i: nat)
    requires i < |healths|
    ensures CountsOf(healths[..i + 1]) == Counted(CountsOf(healths[..i]), healths[i])
  {
    assert healths[..i + 1][..i] == healths[..i];
  }

  function Counted(c: Counts, health: HealthState): Counts {
    match health
    case Ok => c.(ok := c.ok + 1)
    case Degraded => c.(degraded := c.degraded + 1)
    case Fault => c.(fault := c.fault + 1)
    case Recovering => c.(recovering := c.recovering + 1)
    case Disabled => c.(disabled := c.disabled + 1)
  }

  lemma {:induction false} CountMeansMember(healths: seq<HealthState>, state: HealthState)
    ensures CountOf(healths, state) > 0 <==> state in healths
    ensures CountOf(healths, state) <= |healths|
  {
    if healths != [] {
      CountMeansMember(healths[..|healths| - 1], state);
      assert healths == healths[..|healths| - 1] + [healths[|healths| - 1]];
    }
  }

  /** The five counts partition the registry. */
  lemma {:induction false} CountsSumToSize(healths: seq<HealthState>)
    ensures var c := CountsOf(healths); c.ok + c.degraded + c.fault + c.recovering + c.disabled == |healths|
  {
    if healths != [] {
      CountsSumToSize(healths[..|healths| - 1]);
    }
  }

  /** Each count is how often the registry reports that health. */
  lemma {:induction false} CountsAreExact(healths: seq<HealthState>, state: HealthState)
    ensures CountOf(healths, state) == multiset(healths)[state]
  {
    if healths != [] {
      CountsAreExact(healths[..|healths| - 1], state);
      assert healths == healths[..|healths| - 1] + [healths[|healths| - 1]];
    }
  }

  /** Starting announces INITIALIZING, once; before it, and over an empty registry, evaluations
      change neither state nor queue. */
  lemma StartAnnouncesOnce(x: Oversight, healths: seq<HealthState>, now: nat)
    requires x.overseer == NEW_OVERSEER
    ensures AfterEvaluation(x, healths, now) == x
    ensures var x1 := AfterStart(x, now);
      && x1.overseer.started && x1.overseer.state == Initializing
      && x1.bus == AfterPost(x.bus, Event(102, "supervisor", 0))
      && AfterStart(x1, now) == x1
      && AfterEvaluation(x1, [], now).overseer.state == Initializing && AfterEvaluation(x1, [], now).bus == x1.bus
  {
  }

  lemma SupervisorCodesAreDistinct(a: SupervisorState, b: SupervisorState)
    ensures StateCode(a) == StateCode(b) <==> a == b
  {
  }

  /** After any evaluation of a started supervisor over a non-empty registry the state is the
      fold of the healths, and an announcement was attempted exactly when it changed. */
  lemma EvaluationIsTheFold(x: Oversight, healths: seq<HealthState>, now: nat)
    requires x.overseer.started && healths != []
    ensures var x' := AfterEvaluation(x, healths, now);
      && x'.overseer.started && x'.overseer.state == Fold(healths)
      && x'.bus == if x'.overseer.state == x.overseer.state then x.bus
                   else AfterPost(x.bus, Event(SUPERVISOR_STATE_CHANGED, "supervisor", StateCode(Fold(healths))))
  {
    CountMeansMember(healths, Fault);
    CountMeansMember(healths, Degraded);
    CountMeansMember(healths, Recovering);
  }

  /** A run of evaluations, each over the healths at its time. */
  function AfterEvaluations(x: Oversight, run: seq<seq<HealthState>>, now: nat): Oversight {
    if run == [] then x
    else AfterEvaluation(AfterEvaluations(x, run[..|run| - 1], now), run[|run| - 1], now)
  }

  ghost function Changes(run: seq<seq<HealthState>>, initial: SupervisorState): nat {
    if run == [] then 0
    else
      var n := |run| - 1;
      var before := if n == 0 then initial else Fold(run[n - 1]);
      Changes(run[..n], initial) + if Fold(run[n]) == before then 0 else 1
  }

  /** Over a whole run the state follows the latest healths alone, and the posts attempted
      are as many as the changes of the fold. */
  lemma {:induction false} SupervisorFollowsHealth(x: Oversight, run: seq<seq<HealthState>>, now: nat)
    requires x.overseer.started && forall i :: 0 <= i < |run| ==> run[i] != []
    ensures var x' := AfterEvaluations(x, run, now);
      && x'.overseer.started
      && x'.overseer.state == (if run == [] then x.overseer.state else Fold(run[|run| - 1]))
      && x'.bus.attempts == x.bus.attempts + Changes(run, x.overseer.state)
  {
    if run != [] {
      var n := |run| - 1;
      SupervisorFollowsHealth(x, run[..n], now);
      EvaluationIsTheFold(AfterEvaluations(x, run[..n], now), run[n], now);
      assert n > 0 ==> run[..n][n - 1] == run[n - 1];
    }
  }

  // ---- The registry ----------------------------------------------------------

  class Component {
    const id: string
    var health: HealthState

    constructor (id: string, health: HealthState)
      ensures this.id == id && this.health == health
    {
      this.id, this.health := id, health;
    }
  }

  ghost predicate UniqueIds(components: seq<Component>) {
    forall i, j :: 0 <= i < j < |components| ==> components[i].id != components[j].id
  }

  class ComponentRegistry {
    const slots: array<Component?>
    var count: nat

    ghost predicate Valid()
      reads this, slots
    {
      && slots.Length == MAX_COMPONENTS && count <= MAX_COMPONENTS
      && (forall i :: 0 <= i < count ==> slots[i] != null)
      && UniqueIds(Components())
    }

    ghost function Components(): (s: seq<Component>)
      requires slots.Length == MAX_COMPONENTS && count <= MAX_COMPONENTS
      requires forall i :: 0 <= i < count ==> slots[i] != null
      reads this, slots
    {
      seq(count, i requires 0 <= i < count reads this, slots requires count <= slots.Length && slots[i] != null => slots[i])
    }

    /** What the components report as their health, in order of registration. */
    ghost predicate Reports(healths: seq<HealthState>)
      requires Valid()
      reads this, slots, Components()
    {
      && |healths| == |Components()|
      && forall i :: 0 <= i < |healths| ==> Components()[i].health == healths[i]
    }

    constructor ()
      ensures Valid() && Components() == [] && fresh(slots)
    {
      slots := new Component?[MAX_COMPONENTS](_ => null);
      count := 0;
    }

    /** The component with this id, if there is one. */
    method Find(id: string) returns (found: Component?)
      requires Valid()
      ensures found == null <==> forall c :: c in Components() ==> c.id != id
      ensures found != null ==> found in Components() && found.id == id
    {
      for i := 0 to count
        invariant forall k :: 0 <= k < i ==> Components()[k].id != id
      {
        if slots[i].id == id {
          assert Components()[i] == slots[i];
          return slots[i];
        }
      }
      return null;
    }

    method At(index: nat) returns (component: Component?)
      requires Valid()
      ensures component == if index < |Components()| then Components()[index] else null
    {
      component := if index < count then slots[index] else null;
    }

    method Add(component: Component) returns (ok: bool)
      requires Valid()
      modifies this`count, slots
      ensures Valid()
      ensures ok <==> |old(Components())| < MAX_COMPONENTS && forall c :: c in old(Components()) ==> c.id != component.id
      ensures Components() == if ok then old(Components()) + [component] else old(Components())
    {
      if count >= MAX_COMPONENTS {
        return false;
      }
      var same := Find(component.id);
      if same != null {
        return false;
      }
      slots[count] := component;
      count := count + 1;
      assert Components() == old(Components()) + [component];
      return true;
    }
  }

  // ---- The supervisor --------------------------------------------------------

  /** The transitions the constructor adds. */
  method AddTransitions(m: Machine<SupervisorState, SupervisorEvent>)
    requires m.table == []
    modifies m`table
    ensures m.table == SUPERVISOR_TABLE
  {
    m.AddTransition(Initializing, RunningWell, EventAllHealthy);
    m.AddTransition(Initializing, RunningDegraded, EventDegraded);
    m.AddTransition(Initializing, Faulted, EventFault);
    m.AddTransition(RunningWell, RunningDegraded, EventDegraded);
    m.AddTransition(RunningWell, Faulted, EventFault);
    m.AddTransition(RunningDegraded, RunningWell, EventAllHealthy);
    m.AddTransition(RunningDegraded, Faulted, EventFault);
    m.AddTransition(Faulted, RunningWell, EventAllHealthy);
    m.AddTransition(Faulted, RunningDegraded, EventDegraded);
  }

  class Supervisor {
    const registry: ComponentRegistry
    const bus: EventBus
    const machine: Machine<SupervisorState, SupervisorEvent>
    var state: SupervisorState
    var started: bool
    var lastTransition: nat
    var evaluations: nat
    var counts: Counts

    ghost predicate Valid()
      reads this, machine, bus, registry, registry.slots
    {
      && bus.Valid() && registry.Valid() && machine.table == SUPERVISOR_TABLE
      && machine.current == state && machine.initialized == started && (!started ==> state == Initializing)
      && registry.slots as object != bus.queue as object && registry.slots as object != bus.slots as object
    }

    ghost function Own(): Overseer
      reads this
    {
      Overseer(state, started, lastTransition, evaluations, counts)
    }

    ghost function Snapshot(): Oversight
      requires bus.Valid()
      reads this, bus, bus.queue, bus.slots
    {
      Oversight(Own(), bus.Snapshot())
    }

    constructor (registry: ComponentRegistry, bus: EventBus)
      requires registry.Valid() && bus.Valid()
      requires registry.slots as object != bus.queue as object && registry.slots as object != bus.slots as object
      ensures Valid() && Own() == NEW_OVERSEER && this.registry == registry && this.bus == bus && fresh(machine)
    {
      this.registry, this.bus := registry, bus;
      state, started, lastTransition, evaluations, counts := Initializing, false, 0, 0, Counts(0, 0, 0, 0, 0);
      var m := new Machine<SupervisorState, SupervisorEvent>(Initializing);
      AddTransitions(m);
      machine := m;
    }

    method SetState(next: SupervisorState, now: nat)
      requires bus.Valid()
      modifies this`state, this`lastTransition, bus, bus.queue
      ensures bus.Valid() && Snapshot() == AfterSetState(old(Snapshot()), next, now)
    {
      var changed := next != state;
      state := next;
      if !changed && lastTransition != 0 {
        return;
      }
      lastTransition := now;
      var _ := bus.Post(Event(SUPERVISOR_STATE_CHANGED, "supervisor", StateCode(state)));
    }

    method Begin(now: nat)
      requires Valid()
      modifies this, machine, bus, bus.queue
      ensures Valid() && Snapshot() == AfterStart(old(Snapshot()), now)
    {
      if started {
        return;
      }
      started := true;
      var entered := machine.RunMachine();
      if entered.Some? {
        SetState(entered.value, now);
      }
    }

    method CountHealth(ghost healths: seq<HealthState>)
      requires Valid() && registry.Reports(healths)
      modifies this`counts
      ensures counts == CountsOf(healths)
    {
      counts := Counts(0, 0, 0, 0, 0);
      for i := 0 to registry.count
        invariant counts == CountsOf(healths[..i])
      {
        CountsExtend(healths, i);
        var component := registry.At(i);
        if component != null {
          Count(component.health);
        }
      }
      assert healths[..|healths|] == healths;
    }

    method Count(health: HealthState)
      modifies this`counts
      ensures counts == Counted(old(counts), health)
    {
      match health
      case Ok => counts := counts.(ok := counts.ok + 1);
      case Degraded => counts := counts.(degraded := counts.degraded + 1);
      case Fault => counts := counts.(fault := counts.fault + 1);
      case Recovering => counts := counts.(recovering := counts.recovering + 1);
      case Disabled => counts := counts.(disabled := counts.disabled + 1);
    }

    /** The machine takes the event; the state whose on-enter action runs, if any. */
    method Enter(event: SupervisorEvent) returns (entered: Option<SupervisorState>)
      requires machine.table == SUPERVISOR_TABLE && machine.initialized
      modifies machine`current
      ensures machine.current == Target(event)
      ensures entered == if old(machine.current) == Target(event) then None else Some(Target(event))
    {
      SupervisorTableReaches(machine.current, event);
      entered := machine.Trigger(event);
    }

    method Trigger(event: SupervisorEvent, now: nat)
      requires Valid() && started
      modifies this`state, this`lastTransition, machine`current, bus, bus.queue
      ensures Valid()
      ensures Snapshot() == if old(state) == Target(event) then old(Snapshot())
                            else AfterSetState(old(Snapshot()), Target(event), now)
    {
      var entered := Enter(event);
      if entered.Some? {
        SetState(entered.value, now);
      }
    }

    method RequestState(desired: SupervisorState, now: nat)
      requires Valid() && started
      modifies this`state, this`lastTransition, machine`current, bus, bus.queue
      ensures Valid()
      ensures Snapshot() == if desired == old(state) || desired == Initializing then old(Snapshot())
                            else AfterSetState(old(Snapshot()), desired, now)
    {
      if desired == state {
        return;
      }
      match desired
      case RunningWell => Trigger(EventAllHealthy, now);
      case RunningDegraded => Trigger(EventDegraded, now);
      case Faulted => Trigger(EventFault, now);
      case Initializing =>
    }

    method Decide(now: nat)
      requires Valid() && started
      modifies this`state, this`lastTransition, machine, bus, bus.queue
      ensures Valid() && Snapshot() == AfterDecision(old(Snapshot()), registry.count, now)
    {
      var desired := RunningWell;
      if registry.count == 0 {
        desired := Initializing;
      } else if counts.fault > 0 {
        desired := Faulted;
      } else if counts.degraded > 0 || counts.recovering > 0 {
        desired := RunningDegraded;
      }
      RequestState(desired, now);
      var entered := machine.RunMachine();
    }

    method Evaluate(ghost healths: seq<HealthState>, now: nat)
      requires Valid() && registry.Reports(healths)
      modifies this, machine, bus, bus.queue
      ensures Valid() && Snapshot() == AfterEvaluation(old(Snapshot()), healths, now)
    {
      if !started {
        return;
      }
      evaluations := Inc32(evaluations);
      CountHealth(healths);
      Decide(now);
    }
  }
}

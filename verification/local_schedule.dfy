// Schedules::LocalScheduleService: one delayed action, armed when its document is activated
// and fired at most once by a one-shot task.
module LocalSchedule {
  import opened Prelude
  import opened JsonModel
  import opened Identifiers
  import opened Fsm
  import opened VirtualComponents

  const MAX_DELAY_MS: nat := 24 * 60 * 60 * 1000
  const TARGET_ID := "virtual.schedule_output"

  datatype ScheduleState = ScheduleDisabled | Waiting | Firing | Completed | Faulted
  datatype ScheduleEvent = EventDisable | EventArm | EventFire | EventDone | EventFail

  const SCHEDULE_TABLE: seq<Transition<ScheduleState, ScheduleEvent>> := [
    Transition(ScheduleDisabled, EventArm, Waiting),
    Transition(Waiting, EventDisable, ScheduleDisabled),
    Transition(Waiting, EventFire, Firing),
    Transition(Firing, EventDone, Completed),
    Transition(Firing, EventFail, Faulted),
    Transition(Completed, EventArm, Waiting),
    Transition(Completed, EventDisable, ScheduleDisabled),
    Transition(Faulted, EventArm, Waiting),
    Transition(Faulted, EventDisable, ScheduleDisabled)]

  function ScheduleNext(state: ScheduleState, event: ScheduleEvent): ScheduleState {
    match (state, event)
    case (ScheduleDisabled, EventArm) => Waiting
    case (Waiting, EventDisable) => ScheduleDisabled
    case (Waiting, EventFire) => Firing
    case (Firing, EventDone) => Completed
    case (Firing, EventFail) => Faulted
    case (Completed, EventArm) => Waiting
    case (Completed, EventDisable) => ScheduleDisabled
    case (Faulted, EventArm) => Waiting
    case (Faulted, EventDisable) => ScheduleDisabled
    case _ => state
  }

  lemma ScheduleTableGives(state: ScheduleState, event: ScheduleEvent)
    ensures After(SCHEDULE_TABLE, state, event) == ScheduleNext(state, event)
  {
    var t := SCHEDULE_TABLE;
    match ScheduleRow(state, event)
    case None => NoMatch(t, state, event);
    case Some(i) =>
      assert t[i] == Transition(state, event, ScheduleNext(state, event));
      NextIsFirstMatch(t, state, event, i);
  }

  /** Where the table takes a state by an event, if anywhere. */
  function ScheduleRow(state: ScheduleState, event: ScheduleEvent): Option<nat> {
    match (state, event)
    case (ScheduleDisabled, EventArm) => Some(0)
    case (Waiting, EventDisable) => Some(1)
    case (Waiting, EventFire) => Some(2)
    case (Firing, EventDone) => Some(3)
    case (Firing, EventFail) => Some(4)
    case (Completed, EventArm) => Some(5)
    case (Completed, EventDisable) => Some(6)
    case (Faulted, EventArm) => Some(7)
    case (Faulted, EventDisable) => Some(8)
    case _ => None
  }

  datatype Action = Action(id: string, enabled: bool, target: string, desiredOn: bool, delayMs: nat)

  const NO_ACTION := Action("", false, "", false, 0)

  datatype ScheduleError =
    | JsonInvalid | ArrayMissing | MultipleNotSupported | IdInvalid | TypeUnsupported | TargetUnsupported
    | EnabledInvalid | DesiredOnInvalid | DelayInvalid | DelayOutOfRange

  datatype ParsedSchedule = ScheduleFailed(error: ScheduleError) | NoSchedule | OneSchedule(action: Action)

  function ParseScheduleEntry(entry: Json): ParsedSchedule {
    if !ValidId(entry.Member("id").TextOrEmpty()) then ScheduleFailed(IdInvalid)
    else if entry.Member("type").TextOrEmpty() != "delay_after_activation" then ScheduleFailed(TypeUnsupported)
    else if entry.Member("target").TextOrEmpty() != TARGET_ID then ScheduleFailed(TargetUnsupported)
    else if entry.Has("enabled") && !entry.Member("enabled").Bool? then ScheduleFailed(EnabledInvalid)
    else if !entry.Member("desired_on").Bool? then ScheduleFailed(DesiredOnInvalid)
    else if !entry.Member("delay_ms").IsUInt32() then ScheduleFailed(DelayInvalid)
    else if entry.Member("delay_ms").i > MAX_DELAY_MS then ScheduleFailed(DelayOutOfRange)
    else OneSchedule(Action(entry.Member("id").TextOrEmpty(), entry.Member("enabled").BoolOr(true), TARGET_ID,
                            entry.Member("desired_on").b, entry.Member("delay_ms").i))
  }

  function ParseSchedule(raw: Raw): ParsedSchedule {
    if raw.parsed.None? then ScheduleFailed(JsonInvalid)
    else if !raw.parsed.value.Member("schedules").List? then ScheduleFailed(ArrayMissing)
    else
      var schedules := raw.parsed.value.Member("schedules").items;
      if schedules == [] then NoSchedule
      else if |schedules| > 1 then ScheduleFailed(MultipleNotSupported)
      else ParseScheduleEntry(schedules[0])
  }

  /** The entry asks for this action, enabled unless it says otherwise. */
  ghost predicate Says(entry: Json, action: Action) {
    && entry.Member("id") == Text(action.id) && ValidId(action.id)
    && entry.Member("type") == Text("delay_after_activation")
    && entry.Member("target") == Text("virtual.schedule_output") && action.target == "virtual.schedule_output"
    && (if entry.Has("enabled") then entry.Member("enabled") == Bool(action.enabled) else action.enabled)
    && entry.Member("desired_on") == Bool(action.desiredOn)
    && entry.Member("delay_ms") == Integer(action.delayMs) && action.delayMs <= 86_400_000
  }

  ghost predicate Lists(raw: Raw, schedules: seq<Json>) {
    raw.parsed.Some? && raw.parsed.value.Member("schedules") == List(schedules)
  }

  lemma EntrySays(entry: Json, action: Action)
    ensures ParseScheduleEntry(entry) == OneSchedule(action) <==> Says(entry, action)
  {
  }

  /** The service finds exactly the action the document asks for, and none exactly when the
      document lists none. */
  lemma ParseFindsWhatIsSaid(raw: Raw, action: Action)
    ensures ParseSchedule(raw) == OneSchedule(action) <==> exists entry :: Lists(raw, [entry]) && Says(entry, action)
    ensures ParseSchedule(raw) == NoSchedule <==> Lists(raw, [])
  {
    if raw.parsed.Some? && raw.parsed.value.Member("schedules").List? && |raw.parsed.value.Member("schedules").items| == 1 {
      var schedules := raw.parsed.value.Member("schedules").items;
      assert schedules == [schedules[0]];
      EntrySays(schedules[0], action);
      forall entry | Lists(raw, [entry])
        ensures entry == schedules[0]
      {
        assert [entry][0] == schedules[0];
      }
    }
  }

  /** One execution of the action: the arming it belongs to, the revision loaded at the
      time, and the state it asked for. */
  datatype FiringRecord = FiringRecord(arming: nat, revision: nat, desiredOn: bool)

  /** armed, completed and failed are the 32-bit counters; armings, completions, rejections,
      cancellations and firings are history. */
  datatype Schedule = Schedule(
    state: ScheduleState, action: Action, configured: bool, revision: nat, queued: bool,
    armed: nat, completed: nat, failed: nat,
    armings: nat, completions: nat, rejections: nat, cancellations: nat, firings: seq<FiringRecord>)

  const NEW_SCHEDULE := Schedule(ScheduleDisabled, NO_ACTION, false, 0, false, 0, 0, 0, 0, 0, 0, 0, [])

  function MoveSchedule(s: Schedule, event: ScheduleEvent): Schedule {
    s.(state := ScheduleNext(s.state, event))
  }

  function CancelAction(s: Schedule): Schedule {
    if s.queued then s.(queued := false, cancellations := s.cancellations + 1) else s
  }

  function Loaded(s: Schedule, parsed: ParsedSchedule, revision: nat): Schedule {
    s.(configured := parsed.OneSchedule?, revision := revision,
       action := if parsed.OneSchedule? then parsed.action else NO_ACTION)
  }

  function Disarmed(s: Schedule): Schedule {
    if s.state != ScheduleDisabled then MoveSchedule(s, EventDisable) else s
  }

  function ArmedAgain(s: Schedule): Schedule {
    var s1 := MoveSchedule(if s.state == Waiting then MoveSchedule(s, EventDisable) else s, EventArm);
    s1.(queued := true, armed := Inc32(s.armed), armings := s.armings + 1)
  }

  /** `activateDocument` */
  function AfterActivateSchedule(s: Schedule, raw: Raw, revision: nat): Schedule {
    var parsed := ParseSchedule(raw);
    if parsed.ScheduleFailed? then s
    else
      var s1 := Loaded(CancelAction(s), parsed, revision);
      if s1.configured && s1.action.enabled then ArmedAgain(s1) else Disarmed(s1)
  }

  function CompleteAction(s: Schedule): Schedule {
    MoveSchedule(s.(completed := Inc32(s.completed), completions := s.completions + 1), EventDone)
  }

  function FailAction(s: Schedule): Schedule {
    MoveSchedule(s.(failed := Inc32(s.failed), rejections := s.rejections + 1), EventFail)
  }

  function StartAction(s: Schedule): Schedule {
    MoveSchedule(s.(queued := false, firings := s.firings + [FiringRecord(s.armings, s.revision, s.action.desiredOn)]), EventFire)
  }

  /** One scheduler pass over the action task, with the target accepting or not. */
  function AfterFireSchedule(s: Schedule, accepted: bool): Schedule {
    if !s.queued then s
    else if accepted then CompleteAction(StartAction(s))
    else FailAction(StartAction(s))
  }

  // ---- What every step keeps -------------------------------------------------

  datatype ScheduleStep = ActivateStep(raw: Raw, revision: nat) | FireStep(accepted: bool)

  function AfterScheduleStep(s: Schedule, step: ScheduleStep): Schedule {
    match step
    case ActivateStep(raw, revision) => AfterActivateSchedule(s, raw, revision)
    case FireStep(accepted) => AfterFireSchedule(s, accepted)
  }

  function AfterScheduleRun(s: Schedule, steps: seq<ScheduleStep>): Schedule {
    if steps == [] then s else AfterScheduleStep(AfterScheduleRun(s, steps[..|steps| - 1]), steps[|steps| - 1])
  }

  /** WAITING exactly when the task is queued, FIRING never. */
  ghost predicate SchedulePhase(s: Schedule) {
    && (s.state == Waiting <==> s.queued)
    && s.state != Firing
    && (s.queued ==> s.configured && s.action.enabled)
  }

  /** Every arming is accounted for, and the 32-bit counters show the true counts. */
  ghost predicate ScheduleCounts(s: Schedule) {
    && s.armings == s.completions + s.rejections + s.cancellations + (if s.queued then 1 else 0)
    && |s.firings| == s.completions + s.rejections
    && s.armed == s.armings % UINT32_LIMIT
    && s.completed == s.completions % UINT32_LIMIT
    && s.failed == s.rejections % UINT32_LIMIT
  }

  /** Armings fire in order, each at most once, a queued one not yet. */
  ghost predicate FiringsInOrder(s: Schedule) {
    && (forall i, j :: 0 <= i < j < |s.firings| ==> s.firings[i].arming < s.firings[j].arming)
    && (forall i :: 0 <= i < |s.firings| ==>
          if s.queued then s.firings[i].arming < s.armings else s.firings[i].arming <= s.armings)
  }

  ghost predicate ScheduleLedger(s: Schedule) {
    SchedulePhase(s) && ScheduleCounts(s) && FiringsInOrder(s)
  }

  /** What a step adds to the firings: nothing, or the pending action of the document that
      was activated last. */
  ghost predicate FiresLatest(s: Schedule, s': Schedule) {
    || s'.firings == s.firings
    || (s.queued && s'.firings == s.firings + [FiringRecord(s.armings, s.revision, s.action.desiredOn)])
  }

  lemma ActivateKeepsLedger(s: Schedule, raw: Raw, revision: nat)
    requires ScheduleLedger(s)
    ensures ScheduleLedger(AfterActivateSchedule(s, raw, revision))
    ensures AfterActivateSchedule(s, raw, revision).firings == s.firings
  {
    Inc32Counts(s.armings);
  }

  lemma FireKeepsPhase(s: Schedule, accepted: bool)
    requires SchedulePhase(s)
    ensures SchedulePhase(AfterFireSchedule(s, accepted))
    ensures !AfterFireSchedule(s, accepted).queued
  {
  }

  lemma FireKeepsLedger(s: Schedule, accepted: bool)
    requires ScheduleLedger(s)
    ensures ScheduleLedger(AfterFireSchedule(s, accepted)) && FiresLatest(s, AfterFireSchedule(s, accepted))
  {
    FireKeepsPhase(s, accepted);
    Inc32Counts(s.completions);
    Inc32Counts(s.rejections);
  }

  lemma ScheduleStepKeeps(s: Schedule, step: ScheduleStep)
    requires ScheduleLedger(s)
    ensures ScheduleLedger(AfterScheduleStep(s, step)) && FiresLatest(s, AfterScheduleStep(s, step))
  {
    match step
    case ActivateStep(raw, revision) => ActivateKeepsLedger(s, raw, revision);
    case FireStep(accepted) => FireKeepsLedger(s, accepted);
  }

  /** An activation that is not refused replaces what was waiting: the old arming is never
      fired, and the task waits exactly when the new document has an enabled action. */
  lemma ActivationReplaces(s: Schedule, raw: Raw, revision: nat)
    requires ScheduleLedger(s) && !ParseSchedule(raw).ScheduleFailed?
    ensures var s' := AfterActivateSchedule(s, raw, revision);
      && s'.firings == s.firings && s'.revision == revision
      && (s'.queued <==> ParseSchedule(raw).OneSchedule? && ParseSchedule(raw).action.enabled)
      && (s'.queued ==> s'.action == ParseSchedule(raw).action && s'.armings == s.armings + 1)
      && s'.cancellations == s.cancellations + (if s.queued then 1 else 0)
      && s'.state == (if s'.queued then Waiting else ScheduleDisabled)
      && s'.configured == ParseSchedule(raw).OneSchedule?
  {
  }

  /** A refused document changes nothing, whatever was waiting. */
  lemma RefusedActivation(s: Schedule, raw: Raw, revision: nat)
    requires ParseSchedule(raw).ScheduleFailed?
    ensures AfterActivateSchedule(s, raw, revision) == s
  {
  }

  /** A waiting action that fires is completed exactly when the output takes the command. */
  lemma FiringIsAnswered(s: Schedule, accepted: bool)
    requires ScheduleLedger(s) && s.queued
    ensures var s' := AfterFireSchedule(s, accepted);
      && !s'.queued && |s'.firings| == |s.firings| + 1
      && s'.state == (if accepted then Completed else Faulted)
      && s'.completions == s.completions + (if accepted then 1 else 0)
      && s'.rejections == s.rejections + (if accepted then 0 else 1)
  {
  }

  /** Step i of the run started from the waiting state with exactly the arming, the revision
      and the action of this firing. */
  ghost predicate FiredAt(steps: seq<ScheduleStep>, i: nat, firing: FiringRecord)
    requires i < |steps|
  {
    var s := AfterScheduleRun(NEW_SCHEDULE, steps[..i]);
    s.queued && firing == FiringRecord(s.armings, s.revision, s.action.desiredOn)
  }

  ghost predicate Explained(steps: seq<ScheduleStep>, firing: FiringRecord) {
    exists i :: 0 <= i < |steps| && FiredAt(steps, i, firing)
  }

  lemma ExplainedLater(steps: seq<ScheduleStep>, n: nat, firing: FiringRecord)
    requires n <= |steps| && Explained(steps[..n], firing)
    ensures Explained(steps, firing)
  {
    var i :| 0 <= i < n && FiredAt(steps[..n], i, firing);
    assert steps[..n][..i] == steps[..i];
    assert FiredAt(steps, i, firing);
  }

  /** Delayed-action ledger over runs: along any run of activations and scheduler passes the
      ledger holds, and every firing happened in a step that started from the waiting state
      with exactly that arming, revision and action. */
  lemma {:induction false} ScheduleRunsKeepLedger(steps: seq<ScheduleStep>)
    ensures var s := AfterScheduleRun(NEW_SCHEDULE, steps);
      && ScheduleLedger(s)
      && (forall k :: 0 <= k < |s.firings| ==> Explained(steps, s.firings[k]))
  {
    if steps != [] {
      var n := |steps| - 1;
      ScheduleRunsKeepLedger(steps[..n]);
      var before := AfterScheduleRun(NEW_SCHEDULE, steps[..n]);
      ScheduleStepKeeps(before, steps[n]);
      var s := AfterScheduleRun(NEW_SCHEDULE, steps);
      assert FiresLatest(before, s);
      forall k | 0 <= k < |s.firings|
        ensures Explained(steps, s.firings[k])
      {
        if k < |before.firings| {
          assert s.firings[k] == before.firings[k];
          ExplainedLater(steps, n, s.firings[k]);
        } else {
          assert FiredAt(steps, n, s.firings[k]);
        }
      }
    }
  }

  // ---- The class -------------------------------------------------------------

  method ParseScheduleObject(entry: Json) returns (parsed: ParsedSchedule)
    ensures parsed == ParseScheduleEntry(entry)
  {
    var idOk := CheckId(entry.Member("id").TextOrEmpty());
    if !idOk {
      return ScheduleFailed(IdInvalid);
    }
    if entry.Member("type").TextOrEmpty() != "delay_after_activation" {
      return ScheduleFailed(TypeUnsupported);
    }
    if entry.Member("target").TextOrEmpty() != TARGET_ID {
      return ScheduleFailed(TargetUnsupported);
    }
    if entry.Has("enabled") && !entry.Member("enabled").Bool? {
      return ScheduleFailed(EnabledInvalid);
    }
    if !entry.Member("desired_on").Bool? {
      return ScheduleFailed(DesiredOnInvalid);
    }
    if !entry.Member("delay_ms").IsUInt32() {
      return ScheduleFailed(DelayInvalid);
    }
    var delayMs := entry.Member("delay_ms").i;
    if delayMs > MAX_DELAY_MS {
      return ScheduleFailed(DelayOutOfRange);
    }
    return OneSchedule(Action(entry.Member("id").TextOrEmpty(), entry.Member("enabled").BoolOr(true),
                              entry.Member("target").TextOrEmpty(), entry.Member("desired_on").b, delayMs));
  }

  method ParseDocument(raw: Raw) returns (parsed: ParsedSchedule)
    ensures parsed == ParseSchedule(raw)
  {
    if raw.parsed.None? {
      return ScheduleFailed(JsonInvalid);
    }
    if !raw.parsed.value.Member("schedules").List? {
      return ScheduleFailed(ArrayMissing);
    }
    var schedules := raw.parsed.value.Member("schedules").items;
    if |schedules| == 0 {
      return NoSchedule;
    }
    if |schedules| > 1 {
      return ScheduleFailed(MultipleNotSupported);
    }
    parsed := ParseScheduleObject(schedules[0]);
  }

  /** The transitions the constructor adds. */
  method AddTransitions(m: Machine<ScheduleState, ScheduleEvent>)
    requires m.table == []
    modifies m`table
    ensures m.table == SCHEDULE_TABLE
  {
    m.AddTransition(ScheduleDisabled, Waiting, EventArm);
    m.AddTransition(Waiting, ScheduleDisabled, EventDisable);
    m.AddTransition(Waiting, Firing, EventFire);
    m.AddTransition(Firing, Completed, EventDone);
    m.AddTransition(Firing, Faulted, EventFail);
    m.AddTransition(Completed, Waiting, EventArm);
    m.AddTransition(Completed, ScheduleDisabled, EventDisable);
    m.AddTransition(Faulted, Waiting, EventArm);
    m.AddTransition(Faulted, ScheduleDisabled, EventDisable);
  }

  class LocalScheduleService {
    const output: VirtualActuatorComponent
    const machine: Machine<ScheduleState, ScheduleEvent>
    var state: ScheduleState
    var action: Action
    var configured: bool
    var loadedRevision: nat
    var queued: bool
    var armed: nat
    var completed: nat
    var failed: nat
    ghost var armings: nat
    ghost var completions: nat
    ghost var rejections: nat
    ghost var cancellations: nat
    ghost var firings: seq<FiringRecord>

    ghost predicate Valid()
      reads this, machine
    {
      machine.table == SCHEDULE_TABLE && machine.current == state
    }

    ghost function Snapshot(): Schedule
      reads this
    {
      Schedule(state, action, configured, loadedRevision, queued, armed, completed, failed,
               armings, completions, rejections, cancellations, firings)
    }

    constructor (output: VirtualActuatorComponent)
      ensures Valid() && Snapshot() == NEW_SCHEDULE && this.output == output && fresh(machine)
      ensures !machine.initialized
    {
      this.output := output;
      state, action, configured, loadedRevision, queued := ScheduleDisabled, NO_ACTION, false, 0, false;
      armed, completed, failed := 0, 0, 0;
      armings, completions, rejections, cancellations, firings := 0, 0, 0, 0, [];
      var m := new Machine<ScheduleState, ScheduleEvent>(ScheduleDisabled);
      AddTransitions(m);
      machine := m;
    }

    method Begin() returns (ok: bool)
      requires Valid()
      modifies this`state, machine`initialized
      ensures Valid() && machine.initialized && ok && Snapshot() == old(Snapshot())
    {
      var entered := machine.RunMachine();
      if entered.Some? {
        state := entered.value;
      }
      return true;
    }

    /** The machine takes the event; the state whose on-enter action runs, if any. */
    method Enter(event: ScheduleEvent) returns (entered: Option<ScheduleState>)
      requires machine.table == SCHEDULE_TABLE && machine.initialized
      modifies machine`current
      ensures machine.current == ScheduleNext(old(machine.current), event)
      ensures machine.current == if entered.Some? then entered.value else old(machine.current)
    {
      ScheduleTableGives(machine.current, event);
      entered := machine.Trigger(event);
    }

    method Trigger(event: ScheduleEvent)
      requires Valid() && machine.initialized
      modifies this`state, machine`current
      ensures Valid() && Snapshot() == MoveSchedule(old(Snapshot()), event)
    {
      var entered := Enter(event);
      if entered.Some? {
        state := entered.value;
      }
    }

    method Arm()
      requires Valid() && machine.initialized
      modifies this, machine`current
      ensures Valid() && Snapshot() == ArmedAgain(old(Snapshot()))
    {
      if state == Waiting {
        Trigger(EventDisable);
      }
      Trigger(EventArm);
      queued := true;
      armed := Inc32(armed);
      armings := armings + 1;
    }

    method ActivateDocument(raw: Raw, revision: nat) returns (error: Option<ScheduleError>)
      requires Valid() && machine.initialized
      modifies this, machine`current
      ensures Valid() && Snapshot() == AfterActivateSchedule(old(Snapshot()), raw, revision)
      ensures error.Some? <==> ParseSchedule(raw).ScheduleFailed?
    {
      var parsed := ParseDocument(raw);
      if parsed.ScheduleFailed? {
        return Some(parsed.error);
      }
      if queued {
        queued := false;
        cancellations := cancellations + 1;
      }
      configured, loadedRevision := parsed.OneSchedule?, revision;
      action := if parsed.OneSchedule? then parsed.action else NO_ACTION;
      assert Snapshot() == Loaded(CancelAction(old(Snapshot())), parsed, revision);
      if !configured || !action.enabled {
        if state != ScheduleDisabled {
          Trigger(EventDisable);
        }
        return None;
      }
      Arm();
      return None;
    }

    method Start()
      requires Valid() && machine.initialized
      modifies this, machine`current
      ensures Valid() && Snapshot() == StartAction(old(Snapshot()))
    {
      queued := false;
      firings := firings + [FiringRecord(armings, loadedRevision, action.desiredOn)];
      Trigger(EventFire);
    }

    method Finish(ok: bool)
      requires Valid() && machine.initialized
      modifies this, machine`current
      ensures Valid() && Snapshot() == if ok then CompleteAction(old(Snapshot())) else FailAction(old(Snapshot()))
    {
      if ok {
        completed := Inc32(completed);
        completions := completions + 1;
        Trigger(EventDone);
      } else {
        failed := Inc32(failed);
        rejections := rejections + 1;
        Trigger(EventFail);
      }
    }

    /** The scheduler runs `executeAction` of a queued task and disables the task. */
    method FireTask()
      requires Valid() && machine.initialized && output.bus.Valid()
      modifies this, machine`current, output, output.bus, output.bus.queue
      ensures Valid() && output.bus.Valid()
      ensures Snapshot() == AfterFireSchedule(old(Snapshot()), old(output.Snapshot()).Enabled())
      ensures output.Snapshot() == if old(queued) then AfterApplyDesired(old(output.Snapshot()), old(action).desiredOn)
                                   else old(output.Snapshot())
      ensures output.bus.Snapshot() == if old(queued)
        then ApplyDesiredPosts(old(output.bus.Snapshot()), old(output.Snapshot()), old(action).desiredOn)
        else old(output.bus.Snapshot())
    {
      if queued {
        Start();
        var ok := output.ApplyDesired(action.desiredOn);
        Finish(ok);
      }
    }
  }
}

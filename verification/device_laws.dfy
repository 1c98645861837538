// The device, end to end, in terms of what documents say: an apply makes the candidate's own
// rule and action the running ones, the heater goes where the members of the active document
// put it, and a fault comes and goes.
module DeviceLaws {
  import opened Prelude
  import opened JsonModel
  import opened ConfigurationStore
  import opened ConfigurationRuns
  import opened ConfigurationLaws
  import opened Events
  import opened FaultPolicy
  import opened Rules
  import opened VirtualComponents
  import opened RuleExecution
  import opened PersistedRules
  import opened ControlLoop
  import opened DeviceModel
  import opened DevicePasses
  import opened FaultRecovery
  import LocalSchedule

  // ---- What runs is what a document says --------------------------------------

  /** The engine and the policy are what the rules of a document say. */
  ghost predicate RulesSaid(l: Loop, rules: seq<Json>) {
    if rules == [] then !l.engine.configured && l.runtime.policy == SafeOff
    else |rules| == 1 && l.engine.configured && PersistedRules.Says(rules[0], l.engine.rule, l.runtime.policy)
  }

  /** The action is what the schedules of a document say. */
  ghost predicate SchedulesSaid(s: LocalSchedule.Schedule, schedules: seq<Json>) {
    if schedules == [] then !s.configured
    else |schedules| == 1 && s.configured && LocalSchedule.Says(schedules[0], s.action)
  }

  lemma RunningRulesSaid(w: World, raw: Raw, revision: nat)
    requires RunsRules(w, raw, revision) && !ParseRules(raw).ParseFailed?
    ensures raw.parsed.Some? && raw.parsed.value.Member("rules").List?
    ensures RulesSaid(w.loop, raw.parsed.value.Member("rules").items)
  {
    var rules := raw.parsed.value.Member("rules").items;
    if rules != [] {
      assert ParseRules(raw) == ParseEntry(rules[0], ParseRules(raw).revision);
      EntrySays(rules[0], ParseRules(raw).revision, ParseRules(raw).rule, ParseRules(raw).policy);
    }
  }

  lemma RunningSchedulesSaid(s: LocalSchedule.Schedule, raw: Raw, revision: nat)
    requires RunsSchedule(s, raw, revision) && !LocalSchedule.ParseSchedule(raw).ScheduleFailed?
    ensures raw.parsed.Some? && raw.parsed.value.Member("schedules").List?
    ensures SchedulesSaid(s, raw.parsed.value.Member("schedules").items)
  {
    var schedules := raw.parsed.value.Member("schedules").items;
    if schedules != [] {
      LocalSchedule.EntrySays(schedules[0], s.action);
    }
  }

  /** Whatever has happened since power-on, on a device whose store is ready and whose active
      document both validators accept, rule, policy and action are what its members say. */
  lemma RunningIsSaid(d: Durable, boot: BootEnv, steps: seq<DeviceStep>, board: Board)
    requires Wired(board) && TrustworthyThroughout(DeviceRun(Booted(d, boot, board), false), steps, board)
    ensures var dv := WatchDeviceRun(DeviceRun(Booted(d, boot, board), false), steps, board).device;
      var active := dv.store.durable.Active();
      dv.store.ready && Executable(active) ==>
        && active.parsed.Some?
        && active.parsed.value.Member("rules").List? && RulesSaid(dv.world.loop, active.parsed.value.Member("rules").items)
        && active.parsed.value.Member("schedules").List?
        && SchedulesSaid(dv.schedule, active.parsed.value.Member("schedules").items)
  {
    RunsAreConsistent(d, boot, steps, board);
    var dv := WatchDeviceRun(DeviceRun(Booted(d, boot, board), false), steps, board).device;
    var active := dv.store.durable.Active();
    if dv.store.ready && Executable(active) {
      RunningRulesSaid(dv.world, active, dv.store.revision);
      RunningSchedulesSaid(dv.schedule, active, dv.store.revision);
    }
  }

  lemma StampedKeepsArrays(candidate: Raw, revision: nat)
    requires Acceptable(candidate)
    ensures var d, d' := candidate.parsed.value, Stamped(candidate, revision);
      && d'.Member("rules") == d.Member("rules") && d.Member("rules").List?
      && d'.Member("schedules") == d.Member("schedules") && d.Member("schedules").List?
  {
  }

  /** The store after an apply that succeeds: its document has the arrays of the candidate. */
  ghost predicate Adopted(s: Store, s': Store, candidate: Raw) {
    && Acceptable(candidate) && s'.ready && s'.revision == s.revision + 1
    && s'.raw.parsed.Some? && StoredRevision(s'.raw) == Some(s'.revision)
    && s'.raw.parsed.value.Member("rules") == candidate.parsed.value.Member("rules")
    && s'.raw.parsed.value.Member("schedules") == candidate.parsed.value.Member("schedules")
  }

  lemma ApplyAdopts(s: Store, candidate: Raw, env: OpEnv, h: Host) returns (s': Store)
    requires Safe(s) && AfterApply(s, candidate, env, h).error == None && Honest(env, WouldWrite(s, candidate, h))
    ensures s' == AfterApply(s, candidate, env, h).store && Adopted(s, s', candidate)
  {
    s' := AfterApply(s, candidate, env, h).store;
    ApplyCommitsCandidate(s, candidate, env, h);
    OperationKeeps(s, ApplyOp(candidate), env, h);
    ApplyTakesAcceptable(s, candidate, env, h);
    StampedKeepsArrays(candidate, s.revision + 1);
  }

  lemma ApplyTakesAcceptable(s: Store, candidate: Raw, env: OpEnv, h: Host)
    requires Safe(s) && AfterApply(s, candidate, env, h).error == None && Honest(env, WouldWrite(s, candidate, h))
    ensures s.ready && Acceptable(candidate)
    ensures TextOf(s, ApplyOp(candidate), h) == Accepted(env.write.stored)
  {
    CommittedText(s, ApplyOp(candidate), env, h);
    CanonicalIsStamped(candidate, s.revision + 1, h.sizeOf, Canonical(candidate, s.revision + 1, h.sizeOf).text);
  }

  /** The lifecycle callback gets the text that was committed. */
  lemma ApplyActivates(s: Store, candidate: Raw, env: OpEnv, board: Board) returns (o: Outcome)
    requires Safe(s) && AfterApply(s, candidate, env, HostOf(board)).error == None
    requires Honest(env, WouldWrite(s, candidate, HostOf(board)))
    ensures o == AfterApply(s, candidate, env, HostOf(board))
    ensures o.activation == Some(Activation(o.store.revision, o.store.raw)) && Executable(o.store.raw)
  {
    o := AfterApply(s, candidate, env, HostOf(board));
    ApplyTakesAcceptable(s, candidate, env, HostOf(board));
    OperationKeeps(s, ApplyOp(candidate), env, HostOf(board));
    CommittedIsExecutable(s, ApplyOp(candidate), env, board);
  }

  lemma ActivationIsSaid(w: World, schedule: LocalSchedule.Schedule, raw: Raw, revision: nat) returns (c: Configured)
    requires Executable(raw) && StoredRevision(raw) == Some(revision) && LocalSchedule.ScheduleLedger(schedule)
    ensures c == WithConfiguration(w, schedule, raw, revision)
    ensures raw.parsed.Some?
    ensures raw.parsed.value.Member("rules").List? && RulesSaid(c.world.loop, raw.parsed.value.Member("rules").items)
    ensures raw.parsed.value.Member("schedules").List?
    ensures SchedulesSaid(c.schedule, raw.parsed.value.Member("schedules").items)
    ensures c.schedule.queued <==> c.schedule.configured && c.schedule.action.enabled
  {
    c := WithConfiguration(w, schedule, raw, revision);
    ActivationRuns(w, schedule, raw);
    RunningRulesSaid(c.world, raw, revision);
    RunningSchedulesSaid(c.schedule, raw, revision);
    LocalSchedule.ActivationReplaces(schedule, raw, revision);
  }

  /** A device step that applies a candidate on honest flash, and succeeds, makes the
      candidate's rule, policy and action the running ones, and an enabled action waits. */
  lemma ApplyRunsCandidate(dv: Device, candidate: Raw, env: OpEnv, board: Board) returns (dv': Device)
    requires Safe(dv.store) && LocalSchedule.ScheduleLedger(dv.schedule)
    requires AfterApply(dv.store, candidate, env, HostOf(board)).error == None
    requires Honest(env, WouldWrite(dv.store, candidate, HostOf(board)))
    ensures dv' == AfterDeviceStep(dv, Reconfigure(ApplyOp(candidate), env), board)
    ensures Acceptable(candidate)
    ensures candidate.parsed.value.Member("rules").List?
    ensures RulesSaid(dv'.world.loop, candidate.parsed.value.Member("rules").items)
    ensures candidate.parsed.value.Member("schedules").List?
    ensures SchedulesSaid(dv'.schedule, candidate.parsed.value.Member("schedules").items)
    ensures dv'.schedule.queued <==> dv'.schedule.configured && dv'.schedule.action.enabled
    ensures dv'.store.revision == dv.store.revision + 1
  {
    dv' := AfterDeviceStep(dv, Reconfigure(ApplyOp(candidate), env), board);
    var s' := ApplyAdopts(dv.store, candidate, env, HostOf(board));
    var o := ApplyActivates(dv.store, candidate, env, board);
    var c := ActivationIsSaid(dv.world, dv.schedule, o.store.raw, o.store.revision);
  }

  /** The heater is where a value, or a fault policy, puts it under a rule with these
      thresholds. */
  ghost predicate Heeds(l: Loop, rule: Rule, policy: Policy)
    requires rule.onBelow.Finite? && rule.offAbove.Finite?
  {
    if l.input.health.state == Ok then
      && (l.input.value < rule.onBelow.r ==> l.heater.state == On)
      && (l.input.value > rule.offAbove.r ==> l.heater.state == Off)
    else
      && (policy == SafeOff ==> l.heater.state == Off)
      && (policy == SafeOn ==> l.heater.state == On)
      && (policy == DisableRule ==> l.runtime.state == RunDisabled)
  }

  lemma ObeyingHeeds(l: Loop, revision: nat, rule: Rule, policy: Policy)
    requires ObeysRule(l, OneRule(revision, rule, policy)) && l.heater.Enabled()
    requires rule.onBelow.Finite? && rule.offAbove.Finite?
    ensures Heeds(l, rule, policy)
  {
  }

  lemma PassesKeepHeaterEnabled(dv: Device, rounds: seq<Round>)
    requires Consistent(DeviceRun(dv, false)) && dv.world.loop.engine.Enabled()
    requires ForeignRounds(rounds) && |rounds| >= 4
    ensures AfterPasses(dv, rounds).world.loop.heater.Enabled()
  {
    DeviceSettles(dv, rounds);
  }

  /** On a device that has run from power-on in any way, with no announcement lost, four passes
      put the heater where the thresholds and the fault policy named by the one entry of the
      durable active document want it. */
  lemma HeaterSettlesAsSaid(
    d: Durable, boot: BootEnv, steps: seq<DeviceStep>, board: Board, rounds: seq<Round>,
    entry: Json, rule: Rule, policy: Policy, revision: nat) returns (x: DeviceRun)
    requires Wired(board) && TrustworthyThroughout(DeviceRun(Booted(d, boot, board), false), steps, board)
    requires ForeignRounds(rounds) && |rounds| >= 4
    requires PersistedRules.Says(entry, rule, policy) && rule.enabled
    ensures x == WatchDeviceRun(DeviceRun(Booted(d, boot, board), false), steps, board)
    ensures x.device.store.ready && !x.lost && PersistedRules.Lists(x.device.store.durable.Active(), revision, [entry]) ==>
      Heeds(AfterPasses(x.device, rounds).world.loop, rule, policy)
  {
    x := WatchDeviceRun(DeviceRun(Booted(d, boot, board), false), steps, board);
    var active := x.device.store.durable.Active();
    if x.device.store.ready && !x.lost && PersistedRules.Lists(active, revision, [entry]) {
      PersistedRules.ParseFindsWhatIsSaid(active, revision, rule, policy);
      HeaterSettles(d, boot, steps, board, rounds);
      RunsAreConsistent(d, boot, steps, board);
      GovernedIsEnabled(x.device);
      PassesKeepHeaterEnabled(x.device, rounds);
      ObeyingHeeds(AfterPasses(x.device, rounds).world.loop, revision, rule, policy);
    }
  }

  // ---- A fault comes and goes on the device -----------------------------------

  /** A call on the input is a step of the device. */
  ghost function Called(dv: Device, step: LoopStep, board: Board): Device {
    AfterDeviceStep(dv, LoopEvent(step), board)
  }

  lemma CalledPasses(dv: Device, step: LoopStep, board: Board, rounds: seq<Round>) returns (posts: seq<seq<Event>>)
    requires InputStep(step) && OutputSound(dv.output) && ForeignRounds(rounds)
    ensures |posts| == |rounds| && AllForeign(posts)
    ensures var dv' := AfterPasses(Called(dv, step, board), rounds);
      && OutputSound(dv'.output)
      && dv'.world.loop == Passes(AfterLoopStep(World(dv.world.loop, NEW_LOADER), step).loop, posts)
  {
    posts := PassesAreLoopPasses(Called(dv, step, board), rounds);
  }

  /** On any device whose enabled rule has room in the queue: a value, a fault and a recovery,
      with four or more passes of the main loop after each, whatever the other tasks post and
      whether or not a waiting action becomes due. */
  lemma DeviceFaultComesAndGoes(
    dv: Device, value: real, code: string, first: seq<Round>, second: seq<Round>, third: seq<Round>, board: Board)
    returns (dv1: Device, dv2: Device, dv3: Device)
    requires Roomy(dv.world.loop) && OutputSound(dv.output)
    requires ForeignRounds(first) && ForeignRounds(second) && ForeignRounds(third)
    requires |first| >= 4 && |second| >= 4 && |third| >= 4
    ensures dv1 == AfterPasses(Called(dv, SetValue(Finite(value)), board), first)
    ensures dv2 == AfterPasses(Called(dv1, InjectFault(code), board), second)
    ensures dv3 == AfterPasses(Called(dv2, Recover, board), third)
    ensures Banded(dv.world.loop.engine.rule)
    ensures Follows(dv1.world.loop, dv.world.loop.engine.rule, value)
    ensures Answers(dv2.world.loop, dv.world.loop.runtime.policy, dv1.world.loop.heater.state)
    ensures Follows(dv3.world.loop, dv.world.loop.engine.rule, value)
  {
    dv1 := AfterPasses(Called(dv, SetValue(Finite(value)), board), first);
    var posts1 := CalledPasses(dv, SetValue(Finite(value)), board, first);
    dv2 := AfterPasses(Called(dv1, InjectFault(code), board), second);
    var posts2 := CalledPasses(dv1, InjectFault(code), board, second);
    dv3 := AfterPasses(Called(dv2, Recover, board), third);
    var posts3 := CalledPasses(dv2, Recover, board, third);
    var l1, l2, l3 := FaultComesAndGoes(dv.world.loop, value, code, posts1, posts2, posts3);
  }
}

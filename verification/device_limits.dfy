// What the device does not do: announcements of the input that are never followed because
// the event queue is full, and a running configuration that is not the persisted one because
// a slot reads back as something else. Each comes with a run that leads there.
module DeviceLimits {
  import opened Prelude
  import opened JsonModel
  import opened ConfigurationStore
  import opened ConfigurationRuns
  import opened Events
  import opened FaultPolicy
  import opened Rules
  import opened VirtualComponents
  import opened RuleExecution
  import opened PersistedRules
  import opened ControlLoop
  import opened DeviceModel
  import opened DevicePasses
  import LocalSchedule
  import ConfigurationValidation

  // ---- A full queue is reachable ---------------------------------------------

  /** What an evaluation posts that finds the output as it should be. */
  function HoldEvent(rule: Rule): Event {
    Event(RULE_EVALUATED, rule.id, DecisionCode(Hold))
  }

  /** Evaluating the rule again on a settled loop, as the laboratory endpoint does, commands
      nothing new and posts exactly this event. */
  lemma EvaluatingAgainHolds(l: Loop)
    requires Sound(l) && Settled(l) && l.engine.Enabled() && l.input.health.state == Ok
    ensures var e := Evaluate(l.engine, Finite(l.input.value), l.heater.IsOn());
      && e.ok && e.decision == Hold && e.desired == l.heater.IsOn()
      && EvaluatePosts(l.bus, l.engine, Finite(l.input.value), l.heater.IsOn()) == AfterPost(l.bus, HoldEvent(l.engine.rule))
      && ApplyDesiredPosts(l.bus, l.heater, e.desired) == l.bus
  {
  }

  function Fillers(filler: Event, k: nat): seq<Event> {
    seq(k, _ => filler)
  }

  lemma {:induction false} FillersFill(b: Bus, filler: Event, k: nat)
    requires Subscribed(b) && |b.pending| + k <= QUEUE_SIZE
    ensures |PostAll(b, Fillers(filler, k)).pending| == |b.pending| + k
  {
    if k > 0 {
      FillersFill(b, filler, k - 1);
      assert Fillers(filler, k)[..k - 1] == Fillers(filler, k - 1);
    }
  }

  /** Passes in which nothing else happens. */
  function Quiet(n: nat): seq<Round> {
    seq(n, _ => Round(false, []))
  }

  /** Leave the device alone, set a value, leave it alone again, and let other components fill
      the queue. */
  function FillingSteps(value: real, filler: Event, k: nat): seq<DeviceStep> {
    PassesSteps(Quiet(5)) + [LoopEvent(SetValue(Finite(value)))] + PassesSteps(Quiet(4)) + Posts(Fillers(filler, k))
  }

  /** Settled on a value, nothing relevant waiting, and no slot left. */
  ghost predicate Stuffed(l: Loop, rule: Rule, policy: Policy, value: real) {
    && Sound(l) && Settled(l) && !Awake(l) && |l.bus.pending| == QUEUE_SIZE
    && l.engine.Enabled() && l.engine.rule == rule && l.runtime.policy == policy
    && l.input.health.state == Ok && l.input.value == value
  }

  /** After a quiet start a value is heard and followed. */
  lemma QuietValueIsFollowed(dv: Device, value: real)
    requires Converging(Watched(dv.world, false)) && OutputSound(dv.output) && dv.world.loop.engine.Enabled()
    ensures var quiet := AfterPasses(dv, Quiet(5));
      var l := AfterPasses(Touched(quiet, SetValue(Finite(value))), Quiet(4)).world.loop;
      && Sound(l) && Settled(l) && !Awake(l) && l.engine.Enabled()
      && l.engine.rule == dv.world.loop.engine.rule && l.runtime.policy == dv.world.loop.runtime.policy
      && l.input.health.state == Ok && l.input.value == value
  {
    var quiet := AfterPasses(dv, Quiet(5));
    var touched := Touched(quiet, SetValue(Finite(value)));
    var posts := PassesAreLoopPasses(dv, Quiet(5));
    DeviceQuiesces(dv, Quiet(5));
    InputStepSound(quiet.world, SetValue(Finite(value)));
    assert Awake(touched.world.loop) by {
      HeardIff(quiet.world, SetValue(Finite(value)));
    }
    DeviceSettles(touched, Quiet(4));
  }

  lemma FillingStuffs(l: Loop, filler: Event, rule: Rule, policy: Policy, value: real)
    requires Sound(l) && Settled(l) && !Awake(l) && l.engine.Enabled() && l.engine.rule == rule && l.runtime.policy == policy
    requires l.input.health.state == Ok && l.input.value == value && Foreign([filler])
    ensures Stuffed(Posted(l, Fillers(filler, QUEUE_SIZE - |l.bus.pending|)), rule, policy, value)
  {
    var fillers := Fillers(filler, QUEUE_SIZE - |l.bus.pending|);
    assert [filler][0] == filler;
    assert Foreign(fillers);
    PostAllExtends(l.bus, fillers);
    ExtendedKeepsRelevance(l.bus, PostAll(l.bus, fillers));
    FillersFill(l.bus, filler, |fillers|);
  }

  lemma FillingWorks(dv: Device, value: real, filler: Event, board: Board) returns (k: nat)
    requires Converging(Watched(dv.world, false)) && OutputSound(dv.output) && dv.world.loop.engine.Enabled()
    requires Foreign([filler])
    ensures Stuffed(AfterDeviceRun(dv, FillingSteps(value, filler, k), board).world.loop,
                    dv.world.loop.engine.rule, dv.world.loop.runtime.policy, value)
  {
    var settled := AfterPasses(Touched(AfterPasses(dv, Quiet(5)), SetValue(Finite(value))), Quiet(4));
    QuietValueIsFollowed(dv, value);
    k := QUEUE_SIZE - |settled.world.loop.bus.pending|;
    FillingStuffs(settled.world.loop, filler, dv.world.loop.engine.rule, dv.world.loop.runtime.policy, value);
    FillingIsRun(dv, value, filler, k, board);
  }

  /** From power-on, with any durable document whose rule is enabled, any value and any event
      the runtime ignores, a run leads to a settled loop with the queue full of such events. */
  lemma FullQueueIsReachable(d: Durable, boot: BootEnv, board: Board, value: real, filler: Event) returns (k: nat)
    requires Wired(board) && Governed(Booted(d, boot, board)) && Foreign([filler])
    ensures var dv := AfterDeviceRun(Booted(d, boot, board), FillingSteps(value, filler, k), board);
      var parsed := ParseRules(Booted(d, boot, board).store.durable.Active());
      Stuffed(dv.world.loop, parsed.rule, parsed.policy, value)
  {
    BootIsConsistent(d, boot, board);
    GovernedIsEnabled(Booted(d, boot, board));
    k := FillingWorks(Booted(d, boot, board), value, filler, board);
  }

  lemma FillingIsRun(dv: Device, value: real, filler: Event, k: nat, board: Board)
    ensures var touched := Touched(AfterPasses(dv, Quiet(5)), SetValue(Finite(value)));
      var settled := AfterPasses(touched, Quiet(4));
      AfterDeviceRun(dv, FillingSteps(value, filler, k), board) == WithLoop(settled, Posted(settled.world.loop, Fillers(filler, k)))
  {
    var first, step, second := PassesSteps(Quiet(5)), LoopEvent(SetValue(Finite(value))), PassesSteps(Quiet(4));
    PassesAreRuns(dv, Quiet(5), board);
    RunExtends(dv, first, step, board);
    RunJoins(dv, first + [step], second, board);
    var touched := AfterDeviceRun(dv, first + [step], board);
    PassesAreRuns(touched, Quiet(4), board);
    RunJoins(dv, first + [step] + second, Posts(Fillers(filler, k)), board);
    PostingIsRun(AfterPasses(touched, Quiet(4)), Fillers(filler, k), board);
  }

  /** The rule of the document a device boots into. */
  ghost function RuleAt(d: Durable, boot: BootEnv, board: Board): Rule
    requires Governed(Booted(d, boot, board))
  {
    ParseRules(Booted(d, boot, board).store.durable.Active()).rule
  }

  /** So from power-on a run leads to a state in which a fault under SAFE_OFF leaves the heater
      ON through any number of passes of the main loop. */
  lemma LostFaultIsReachable(d: Durable, boot: BootEnv, board: Board, value: real, code: string, rounds: seq<Round>)
    returns (k: nat)
    requires Wired(board) && Governed(Booted(d, boot, board)) && ForeignRounds(rounds)
    requires var parsed := ParseRules(Booted(d, boot, board).store.durable.Active());
      parsed.policy == SafeOff && Below(Finite(value), parsed.rule.onBelow)
    ensures var dv := AfterDeviceRun(Booted(d, boot, board), FillingSteps(value, HoldEvent(RuleAt(d, boot, board)), k), board);
      var faulted := Touched(dv, InjectFault(code));
      && faulted.world.loop.input.health.state == Fault
      && AfterPasses(faulted, rounds).world.loop.heater.IsOn() && !Settled(AfterPasses(faulted, rounds).world.loop)
  {
    var filler := HoldEvent(RuleAt(d, boot, board));
    k := FullQueueIsReachable(d, boot, board, value, filler);
    var dv := AfterDeviceRun(Booted(d, boot, board), FillingSteps(value, filler, k), board);
    FillingKeepsOutput(d, boot, board, value, filler, k);
    var posts := PassesAreLoopPasses(Touched(dv, InjectFault(code)), rounds);
    LostFaultLeavesHeaterOn(dv.world.loop, code, posts);
  }

  /** Nor is a value below onBelow followed in the state reached with one above offAbove. */
  lemma LostValueIsReachable(
    d: Durable, boot: BootEnv, board: Board, before: real, value: real, rounds: seq<Round>) returns (k: nat)
    requires Wired(board) && Governed(Booted(d, boot, board)) && ForeignRounds(rounds)
    requires var parsed := ParseRules(Booted(d, boot, board).store.durable.Active());
      Below(parsed.rule.offAbove, Finite(before)) && Below(Finite(value), parsed.rule.onBelow)
    ensures var dv := AfterDeviceRun(Booted(d, boot, board), FillingSteps(before, HoldEvent(RuleAt(d, boot, board)), k), board);
      var touched := Touched(dv, SetValue(Finite(value)));
      && touched.world.loop.input.health.state == Ok && touched.world.loop.input.value == value
      && !AfterPasses(touched, rounds).world.loop.heater.IsOn() && !Settled(AfterPasses(touched, rounds).world.loop)
  {
    var filler := HoldEvent(RuleAt(d, boot, board));
    k := FullQueueIsReachable(d, boot, board, before, filler);
    var dv := AfterDeviceRun(Booted(d, boot, board), FillingSteps(before, filler, k), board);
    FillingKeepsOutput(d, boot, board, before, filler, k);
    var posts := PassesAreLoopPasses(Touched(dv, SetValue(Finite(value))), rounds);
    LostValueNeverSettles(dv.world.loop, value, posts);
  }

  lemma FillingKeepsOutput(d: Durable, boot: BootEnv, board: Board, value: real, filler: Event, k: nat)
    requires Wired(board)
    ensures OutputSound(AfterDeviceRun(Booted(d, boot, board), FillingSteps(value, filler, k), board).output)
  {
    var dv := Booted(d, boot, board);
    BootIsConsistent(d, boot, board);
    var first := PassesAreLoopPasses(dv, Quiet(5));
    var second := PassesAreLoopPasses(Touched(AfterPasses(dv, Quiet(5)), SetValue(Finite(value))), Quiet(4));
    FillingIsRun(dv, value, filler, k, board);
  }

  // ---- A document to which this applies ---------------------------------------

  function DemoRule(id: string): Json {
    Object(map[
      "id" := Text(id), "type" := Text("hysteresis"), "input" := Text(INPUT_ID), "output" := Text(OUTPUT_ID),
      "on_below" := Integer(20), "off_above" := Integer(22)])
  }

  function Document(rules: seq<Json>, revision: nat): Json {
    Object(map["schema" := Integer(1), "revision" := Integer(revision), "rules" := List(rules), "schedules" := List([])])
  }

  function Demo(revision: nat, length: nat): Raw {
    Raw(length, Some(Document([DemoRule("demo")], revision)))
  }

  const DEMO := Demo(1, 200)

  lemma DemoParses(revision: nat, length: nat)
    requires revision < UINT32_LIMIT
    ensures ParseRules(Demo(revision, length)) == OneRule(revision, Rule("demo", true, Finite(20.0), Finite(22.0)), SafeOff)
  {
  }

  lemma DemoHasNoSchedule(revision: nat, length: nat)
    requires revision < UINT32_LIMIT
    ensures LocalSchedule.ParseSchedule(Demo(revision, length)) == LocalSchedule.NoSchedule
  {
  }

  lemma DocumentIsStored(rules: seq<Json>, revision: nat, length: nat)
    requires ConfigurationValidation.WellFormedArray(rules, ConfigurationValidation.MAX_RULES)
    requires revision < UINT32_LIMIT && 0 < length <= MAX_CONFIG_JSON_BYTES
    ensures StoredRevision(Raw(length, Some(Document(rules, revision)))) == Some(revision)
    ensures ConfigurationValidation.DocumentError(Document(rules, revision), false) == None
  {
    assert Document(rules, revision).Member("rules").items == rules;
    ConfigurationValidation.DocumentErrorIsExact(Document(rules, revision), true);
    ConfigurationValidation.DocumentErrorIsExact(Document(rules, revision), false);
  }

  /** A device with this document in flash boots into it. */
  lemma DemoBoots(boot: BootEnv, board: Board)
    requires Wired(board) && boot.locked && boot.openOk
    ensures var dv := Booted(Durable(0, DEMO, EMPTY_RAW), boot, board);
      && Governed(dv) && Safe(dv.store) && dv.store.revision == 1 && dv.store.durable == Durable(0, DEMO, EMPTY_RAW)
      && dv.world.loop.engine.Enabled()
      && ParseRules(dv.store.durable.Active()) == OneRule(1, Rule("demo", true, Finite(20.0), Finite(22.0)), SafeOff)
  {
    DocumentIsStored([DemoRule("demo")], 1, 200);
    DemoParses(1, 200);
    BootEstablishesSafety(Durable(0, DEMO, EMPTY_RAW), boot, board.sizeOf);
    BootIsConsistent(Durable(0, DEMO, EMPTY_RAW), boot, board);
    GovernedIsEnabled(Booted(Durable(0, DEMO, EMPTY_RAW), boot, board));
  }

  // ---- Running is not persisted ------------------------------------------------

  /** A well-formed document the loader does not accept: two rules. */
  function Garbled(revision: nat): Raw {
    Raw(300, Some(Document([DemoRule("demo"), DemoRule("other")], revision)))
  }

  lemma GarbledIsStored(revision: nat)
    requires revision < UINT32_LIMIT
    ensures StoredRevision(Garbled(revision)) == Some(revision) && ParseRules(Garbled(revision)).ParseFailed?
  {
    DocumentIsStored([DemoRule("demo"), DemoRule("other")], revision, 300);
  }

  /** A slot write that reports success but reads back as the garbled document. */
  function Misread(text: Raw, revision: nat): OpEnv {
    OpEnv(true, WriteOutcome(Garbled(revision), Garbled(revision), text.length), true)
  }

  /** The demo document at the next revision. */
  function NextDemo(board: Board): Raw {
    Print(Document([DemoRule("demo")], 2), board.sizeOf)
  }

  lemma DemoIsAccepted(board: Board)
    requires 0 < NextDemo(board).length <= MAX_CONFIG_JSON_BYTES
    ensures Canonical(DEMO, 2, board.sizeOf) == Accepted(NextDemo(board)) && Executable(NextDemo(board))
  {
    var document := Document([DemoRule("demo")], 1);
    DocumentIsStored([DemoRule("demo")], 1, 200);
    assert WithMember(document, "schema", Integer(ConfigurationValidation.SCHEMA_VERSION)) == document by {
      assert document.members["schema" := Integer(1)] == document.members;
    }
    assert WithRevision(document, 2) == Document([DemoRule("demo")], 2) by {
      assert document.members["revision" := Integer(2)] == Document([DemoRule("demo")], 2).members;
    }
    DemoParses(2, NextDemo(board).length);
    DemoHasNoSchedule(2, NextDemo(board).length);
  }

  lemma DemoIsCommitted(s: Store, board: Board)
    requires s.ready && s.revision == 1 && 0 < NextDemo(board).length <= MAX_CONFIG_JSON_BYTES
    ensures AfterOp(s, ApplyOp(DEMO), Misread(NextDemo(board), 2), HostOf(board)).error == None
  {
    DemoIsAccepted(board);
    GarbledIsStored(2);
  }

  /** On such flash an apply that succeeds leaves the old rule running beside an active
      document that has none the loader accepts; the device is still ready. */
  lemma RunningCanDifferFromPersisted(boot: BootEnv, board: Board)
    requires Wired(board) && boot.locked && boot.openOk
    requires 0 < NextDemo(board).length <= MAX_CONFIG_JSON_BYTES
    ensures var dv := Booted(Durable(0, DEMO, EMPTY_RAW), boot, board);
      var env := Misread(NextDemo(board), 2);
      var dv' := AfterDeviceStep(dv, Reconfigure(ApplyOp(DEMO), env), board);
      && RunningIsPersisted(dv)
      && AfterOp(dv.store, ApplyOp(DEMO), env, HostOf(board)).error == None
      && dv'.store.ready && !RunningIsPersisted(dv')
      && dv'.store.durable.Active() == Garbled(2) && dv'.world.loop == dv.world.loop && dv.world.loop.engine.Enabled()
  {
    var dv := Booted(Durable(0, DEMO, EMPTY_RAW), boot, board);
    var env := Misread(NextDemo(board), 2);
    DemoBoots(boot, board);
    BootIsConsistent(Durable(0, DEMO, EMPTY_RAW), boot, board);
    DemoIsCommitted(dv.store, board);
    GarbledIsStored(2);
    CommitRunsIff(dv, ApplyOp(DEMO), env, board);
    OperationKeeps(dv.store, ApplyOp(DEMO), env, HostOf(board));
    CommittedText(dv.store, ApplyOp(DEMO), env, HostOf(board));
    FailedParseChangesNothing(dv.world, Garbled(2), 2);
  }
}

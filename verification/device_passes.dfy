// Passes of the main loop of main.cpp on the whole device: how long the heater takes to
// settle, and that passes are runs.
module DevicePasses {
  import opened ConfigurationStore
  import opened Events
  import opened VirtualComponents
  import opened RuleExecution
  import opened PersistedRules
  import opened ControlLoop
  import opened DeviceModel
  import LocalSchedule

  function WithLoop(dv: Device, l: Loop): Device {
    dv.(world := dv.world.(loop := l))
  }

  /** What a pass depends on: whether the delay of the waiting action, if any, is over, and
      what the other tasks of the scheduler post. */
  datatype Round = Round(due: bool, others: seq<Event>)

  /** The scheduler runs the rule task, the delayed action if it is due, and its other tasks. */
  function Scheduled(dv: Device, round: Round): Device {
    var fired := WithLoop(dv, Fired(dv.world.loop));
    var acted := if round.due then ScheduleFired(fired) else fired;
    WithLoop(acted, Posted(acted.world.loop, round.others))
  }

  /** After the scheduler up to eight events are handled. */
  function AfterPass(dv: Device, round: Round): Device {
    var executed := Scheduled(dv, round);
    WithLoop(executed, Processed(executed.world.loop, 8))
  }

  function AfterPasses(dv: Device, rounds: seq<Round>): Device {
    if rounds == [] then dv else AfterPass(AfterPasses(dv, rounds[..|rounds| - 1]), rounds[|rounds| - 1])
  }

  /** In no round do the other tasks post anything the rule runtime reacts to. */
  ghost predicate ForeignRounds(rounds: seq<Round>) {
    forall i :: 0 <= i < |rounds| ==> Foreign(rounds[i].others)
  }

  // ---- Passes of the device are passes of the loop ----------------------------

  /** What the delayed action posts when the scheduler runs it. */
  function SchedulePosts(dv: Device): seq<Event> {
    var a, state := dv.output, OnOff(dv.schedule.action.desiredOn);
    if !dv.schedule.queued || !a.Enabled() then []
    else
      (if a.state != state then [Event(STATE_CHANGED, a.id, ActuatorCode(state))] else [])
      + (if a.health != OK_HEALTH then [Event(HEALTH_CHANGED, a.id, HealthCode(Ok))] else [])
  }

  lemma PostOne(b: Bus, event: Event)
    ensures PostAll(b, [event]) == AfterPost(b, event)
  {
    assert [event][..0] == [];
  }

  lemma SchedulePostsAre(dv: Device)
    requires dv.schedule.queued
    ensures ApplyDesiredPosts(dv.world.loop.bus, dv.output, dv.schedule.action.desiredOn)
         == PostAll(dv.world.loop.bus, SchedulePosts(dv))
  {
    var b, a, state := dv.world.loop.bus, dv.output, OnOff(dv.schedule.action.desiredOn);
    var moved, healed := Event(STATE_CHANGED, a.id, ActuatorCode(state)), Event(HEALTH_CHANGED, a.id, HealthCode(Ok));
    PostOne(b, moved);
    PostOne(b, healed);
    PostAllJoins(b, [moved], [healed]);
    assert [moved] + [] == [moved] && [] + [healed] == [healed];
  }

  lemma ScheduleFiresAs(dv: Device)
    requires OutputSound(dv.output)
    ensures ScheduleFired(dv).world == dv.world.(loop := Posted(dv.world.loop, SchedulePosts(dv)))
    ensures Foreign(SchedulePosts(dv)) && OutputSound(ScheduleFired(dv).output) && !ScheduleFired(dv).schedule.queued
    ensures ScheduleFired(dv).store == dv.store
  {
    if dv.schedule.queued {
      SchedulePostsAre(dv);
    }
  }

  /** What the scheduler posts in a round besides the rule task. */
  function RoundPosts(dv: Device, round: Round): seq<Event> {
    (if round.due then SchedulePosts(dv) else []) + round.others
  }

  lemma PassIsLoopPass(dv: Device, round: Round)
    requires OutputSound(dv.output)
    ensures var dv' := AfterPass(dv, round);
      && dv'.world == dv.world.(loop := Pass(dv.world.loop, RoundPosts(dv, round)))
      && dv'.store == dv.store && OutputSound(dv'.output)
  {
    var fired := WithLoop(dv, Fired(dv.world.loop));
    if round.due {
      ScheduleFiresAs(fired);
      PostAllJoins(fired.world.loop.bus, SchedulePosts(dv), round.others);
    } else {
      assert [] + round.others == round.others;
    }
  }

  lemma RoundPostsAre(dv: Device, round: Round)
    requires OutputSound(dv.output) && Foreign(round.others)
    ensures Foreign(RoundPosts(dv, round)) && |RoundPosts(dv, round)| <= 2 + |round.others|
  {
    ScheduleFiresAs(dv);
  }

  /** Passes of the device are passes of its loop, in which the delayed action is one more
      task that posts, at most two events in a round. */
  ghost predicate PassedAs(dv: Device, dv': Device, rounds: seq<Round>, posts: seq<seq<Event>>) {
    && dv'.world == dv.world.(loop := Passes(dv.world.loop, posts))
    && dv'.store == dv.store && OutputSound(dv'.output)
    && |posts| == |rounds| && AllForeign(posts)
    && forall i :: 0 <= i < |rounds| ==> |posts[i]| <= 2 + |rounds[i].others|
  }

  lemma PassedOnce(dv: Device, mid: Device, rounds: seq<Round>, posts: seq<seq<Event>>, round: Round)
    returns (dv': Device, posts': seq<seq<Event>>)
    requires PassedAs(dv, mid, rounds, posts) && Foreign(round.others)
    ensures dv' == AfterPass(mid, round) && PassedAs(dv, dv', rounds + [round], posts')
  {
    dv', posts' := AfterPass(mid, round), posts + [RoundPosts(mid, round)];
    PassIsLoopPass(mid, round);
    RoundPostsAre(mid, round);
    assert posts'[..|posts'| - 1] == posts;
  }

  lemma ForeignRoundsSplit(rounds: seq<Round>)
    requires rounds != [] && ForeignRounds(rounds)
    ensures ForeignRounds(rounds[..|rounds| - 1]) && Foreign(rounds[|rounds| - 1].others)
    ensures rounds[..|rounds| - 1] + [rounds[|rounds| - 1]] == rounds
  {
    assert forall i :: 0 <= i < |rounds| - 1 ==> rounds[..|rounds| - 1][i] == rounds[i];
  }

  lemma {:induction false} PassedThrough(dv: Device, rounds: seq<Round>) returns (dv': Device, posts: seq<seq<Event>>)
    requires OutputSound(dv.output) && ForeignRounds(rounds)
    ensures dv' == AfterPasses(dv, rounds)
    ensures PassedAs(dv, dv', rounds, posts)
  {
    dv', posts := dv, [];
    if rounds != [] {
      ForeignRoundsSplit(rounds);
      dv', posts := PassedThrough(dv, rounds[..|rounds| - 1]);
      dv', posts := PassedOnce(dv, dv', rounds[..|rounds| - 1], posts, rounds[|rounds| - 1]);
    }
  }

  lemma PassesAreLoopPasses(dv: Device, rounds: seq<Round>) returns (posts: seq<seq<Event>>)
    requires OutputSound(dv.output) && ForeignRounds(rounds)
    ensures PassedAs(dv, AfterPasses(dv, rounds), rounds, posts)
  {
    var dv';
    dv', posts := PassedThrough(dv, rounds);
  }

  /** The action has fired: the output, unless it is disabled, is where the action wants it. */
  ghost predicate Acted(dv: Device, dv': Device) {
    && dv'.schedule == LocalSchedule.AfterFireSchedule(dv.schedule, dv.output.Enabled()) && !dv'.schedule.queued
    && dv'.output.Enabled() == dv.output.Enabled()
    && (dv.output.Enabled() ==> dv'.output.IsOn() == dv.schedule.action.desiredOn && dv'.output.health.state == Ok)
    && (!dv.output.Enabled() ==> dv'.output == dv.output)
  }

  ghost predicate Waits(dv: Device, dv': Device) {
    dv'.schedule == dv.schedule && dv'.output == dv.output
  }

  predicate BecomesDue(rounds: seq<Round>) {
    exists i :: 0 <= i < |rounds| && rounds[i].due
  }

  lemma PassActs(dv: Device, round: Round) returns (dv': Device)
    ensures dv' == AfterPass(dv, round)
    ensures if dv.schedule.queued && round.due then Acted(dv, dv') else Waits(dv, dv')
  {
    dv' := AfterPass(dv, round);
    var fired := WithLoop(dv, Fired(dv.world.loop));
    assert ScheduleFired(fired).schedule == ScheduleFired(dv).schedule && ScheduleFired(fired).output == ScheduleFired(dv).output;
  }

  lemma BecomesDueStep(rounds: seq<Round>)
    requires rounds != []
    ensures BecomesDue(rounds) <==> BecomesDue(rounds[..|rounds| - 1]) || rounds[|rounds| - 1].due
  {
    var front := rounds[..|rounds| - 1];
    assert forall i :: 0 <= i < |front| ==> front[i] == rounds[i];
    if BecomesDue(front) {
      var i :| 0 <= i < |front| && front[i].due;
      assert rounds[i].due;
    }
  }

  /** A waiting action fires in the first pass in which it is due, once, and until then it
      waits. */
  lemma {:induction false} ActionFiresWhenDue(dv: Device, rounds: seq<Round>) returns (dv': Device)
    ensures dv' == AfterPasses(dv, rounds)
    ensures if dv.schedule.queued && BecomesDue(rounds) then Acted(dv, dv') else Waits(dv, dv')
  {
    dv' := dv;
    if rounds != [] {
      var n := |rounds| - 1;
      BecomesDueStep(rounds);
      var before := ActionFiresWhenDue(dv, rounds[..n]);
      dv' := PassActs(before, rounds[n]);
    }
  }

  // ---- Settling --------------------------------------------------------------

  /** Four or more passes of the main loop after the last outside influence, whatever the
      other tasks post and whether a waiting action becomes due or not, the heater is as the
      rule, the value and the fault policy demand. */
  lemma DeviceSettles(dv: Device, rounds: seq<Round>)
    requires Converging(Watched(dv.world, false)) && OutputSound(dv.output) && dv.world.loop.engine.Enabled()
    requires ForeignRounds(rounds) && |rounds| >= 4
    ensures var l := AfterPasses(dv, rounds).world.loop;
      Sound(l) && Settled(l) && SameDemand(dv.world.loop, l) && !Awake(l)
  {
    var posts := PassesAreLoopPasses(dv, rounds);
    PassesReach(dv.world.loop, posts);
    SettlesWithinFourPasses(dv.world.loop, dv.world.loader, posts);
  }

  /** Five passes, of which the other tasks post in the first at most, empty the event queue
      and idle the rule task, in whichever of them a waiting action becomes due. */
  lemma DeviceQuiesces(dv: Device, rounds: seq<Round>)
    requires Sound(dv.world.loop) && OutputSound(dv.output)
    requires ForeignRounds(rounds) && |rounds| == 5 && forall i :: 1 <= i < |rounds| ==> rounds[i].others == []
    ensures var l := AfterPasses(dv, rounds).world.loop;
      Sound(l) && SameDemand(dv.world.loop, l) && l.bus.pending == [] && l.runtime.task == Idle
  {
    var posts := PassesAreLoopPasses(dv, rounds);
    FivePassesQuiesce(dv.world.loop, posts);
  }

  /** The store is ready with a durable document whose one rule is enabled. */
  ghost predicate Governed(dv: Device) {
    && dv.store.ready && ParseRules(dv.store.durable.Active()).OneRule?
    && ParseRules(dv.store.durable.Active()).rule.enabled
  }

  /** Settled under the running configuration is settled under the persisted one. */
  lemma SettledObeys(dv: Device, l: Loop)
    requires RunningIsPersisted(dv) && Governed(dv) && SameDemand(dv.world.loop, l) && Settled(l)
    ensures ObeysRule(l, ParseRules(dv.store.durable.Active()))
  {
  }

  lemma GovernedIsEnabled(dv: Device)
    requires RunningIsPersisted(dv) && Governed(dv)
    ensures var l, parsed := dv.world.loop, ParseRules(dv.store.durable.Active());
      l.engine.Enabled() && l.engine.rule == parsed.rule && l.runtime.policy == parsed.policy
  {
  }

  /** End to end: on a device that has run from power-on in any way, with no announcement
      lost, four passes put the heater where the durable active rule wants it. */
  lemma HeaterSettles(d: Durable, boot: BootEnv, steps: seq<DeviceStep>, board: Board, rounds: seq<Round>)
    requires Wired(board) && TrustworthyThroughout(DeviceRun(Booted(d, boot, board), false), steps, board)
    requires ForeignRounds(rounds) && |rounds| >= 4
    ensures var x := WatchDeviceRun(DeviceRun(Booted(d, boot, board), false), steps, board);
      Governed(x.device) && !x.lost ==>
        ObeysRule(AfterPasses(x.device, rounds).world.loop, ParseRules(x.device.store.durable.Active()))
  {
    var x := WatchDeviceRun(DeviceRun(Booted(d, boot, board), false), steps, board);
    RunsAreConsistent(d, boot, steps, board);
    if Governed(x.device) && !x.lost {
      GovernedIsEnabled(x.device);
      DeviceSettles(x.device, rounds);
      SettledObeys(x.device, AfterPasses(x.device, rounds).world.loop);
    }
  }

  /** The loop after a call on the input. */
  function Touched(dv: Device, step: LoopStep): Device {
    dv.(world := AfterLoopStep(dv.world, step))
  }

  /** A call on the input of the device is followed, within four passes, if and only if
      something relevant waited, its announcement finds a slot, or the heater is right. */
  lemma DeviceFollowsIff(dv: Device, step: LoopStep, rounds: seq<Round>)
    requires Sound(dv.world.loop) && OutputSound(dv.output) && dv.world.loop.engine.Enabled()
    requires InputStep(step) && ForeignRounds(rounds) && |rounds| >= 4
    ensures Settled(AfterPasses(Touched(dv, step), rounds).world.loop)
      <==> Awake(dv.world.loop) || Heard(dv.world.loop, step) || Settled(Touched(dv, step).world.loop)
  {
    var posts := PassesAreLoopPasses(Touched(dv, step), rounds);
    FollowedIff(dv.world, step, posts);
  }

  // ---- Passes are runs -------------------------------------------------------

  ghost function AfterDeviceRun(dv: Device, steps: seq<DeviceStep>, board: Board): Device {
    if steps == [] then dv
    else AfterDeviceStep(AfterDeviceRun(dv, steps[..|steps| - 1], board), steps[|steps| - 1], board)
  }

  function Handlings(k: nat): seq<DeviceStep> {
    seq(k, _ => LoopEvent(HandleNext))
  }

  function Posts(events: seq<Event>): seq<DeviceStep> {
    if events == [] then [] else Posts(events[..|events| - 1]) + [LoopEvent(ForeignPost(events[|events| - 1]))]
  }

  function SchedulerSteps(due: bool): seq<DeviceStep> {
    if due then [LoopEvent(Fire), FireSchedule] else [LoopEvent(Fire)]
  }

  function PassSteps(round: Round): seq<DeviceStep> {
    SchedulerSteps(round.due) + Posts(round.others) + Handlings(8)
  }

  function PassesSteps(rounds: seq<Round>): seq<DeviceStep> {
    if rounds == [] then [] else PassesSteps(rounds[..|rounds| - 1]) + PassSteps(rounds[|rounds| - 1])
  }

  lemma RunExtends(dv: Device, steps: seq<DeviceStep>, step: DeviceStep, board: Board)
    ensures AfterDeviceRun(dv, steps + [step], board) == AfterDeviceStep(AfterDeviceRun(dv, steps, board), step, board)
  {
    assert (steps + [step])[..|steps|] == steps;
  }

  lemma {:induction false} RunJoins(dv: Device, first: seq<DeviceStep>, second: seq<DeviceStep>, board: Board)
    ensures AfterDeviceRun(dv, first + second, board) == AfterDeviceRun(AfterDeviceRun(dv, first, board), second, board)
  {
    if second == [] {
      assert first + second == first;
    } else {
      var n := |second| - 1;
      RunJoins(dv, first, second[..n], board);
      RunExtends(dv, first + second[..n], second[n], board);
      assert first + second == first + second[..n] + [second[n]];
    }
  }

  function HandledOnce(dv: Device): Device {
    WithLoop(dv, HandledNext(dv.world.loop))
  }

  function HandledUpTo(dv: Device, k: nat): Device {
    if k == 0 then dv else HandledOnce(HandledUpTo(dv, k - 1))
  }

  lemma HandlingEnds(dv: Device, k: nat, before: Device, board: Board) returns (dv': Device)
    requires k > 0 && before == AfterDeviceRun(dv, Handlings(k - 1), board)
    ensures dv' == AfterDeviceRun(dv, Handlings(k), board)
    ensures dv' == HandledOnce(before)
  {
    dv' := HandledOnce(before);
    assert Handlings(k) == Handlings(k - 1) + [LoopEvent(HandleNext)];
    RunExtends(dv, Handlings(k - 1), LoopEvent(HandleNext), board);
  }

  lemma {:induction false} HandlingsAreHandled(dv: Device, k: nat, board: Board) returns (dv': Device)
    ensures dv' == AfterDeviceRun(dv, Handlings(k), board)
    ensures dv' == HandledUpTo(dv, k)
  {
    if k == 0 {
      dv' := dv;
    } else {
      var before := HandlingsAreHandled(dv, k - 1, board);
      dv' := HandlingEnds(dv, k, before, board);
    }
  }

  lemma {:induction false} HandledIsProcessed(dv: Device, k: nat) returns (l: Loop)
    ensures l == Processed(dv.world.loop, k)
    ensures HandledUpTo(dv, k) == WithLoop(dv, l)
  {
    l := dv.world.loop;
    if k > 0 {
      var before := HandledIsProcessed(dv, k - 1);
      l := HandledNext(before);
    }
  }

  lemma HandlingIsRun(dv: Device, k: nat, board: Board)
    ensures AfterDeviceRun(dv, Handlings(k), board) == WithLoop(dv, Processed(dv.world.loop, k))
  {
    var dv' := HandlingsAreHandled(dv, k, board);
    var l := HandledIsProcessed(dv, k);
  }

  lemma PostingEnds(dv: Device, events: seq<Event>, l: Loop, board: Board) returns (l': Loop)
    requires events != []
    requires AfterDeviceRun(dv, Posts(events[..|events| - 1]), board) == WithLoop(dv, l)
    ensures AfterDeviceRun(dv, Posts(events), board) == WithLoop(dv, l')
    ensures l' == l.(bus := AfterPost(l.bus, events[|events| - 1]))
  {
    l' := l.(bus := AfterPost(l.bus, events[|events| - 1]));
    RunExtends(dv, Posts(events[..|events| - 1]), LoopEvent(ForeignPost(events[|events| - 1])), board);
  }

  lemma {:induction false} PostingsArePosted(dv: Device, events: seq<Event>, board: Board) returns (l: Loop)
    ensures AfterDeviceRun(dv, Posts(events), board) == WithLoop(dv, l)
    ensures l == Posted(dv.world.loop, events)
  {
    if events == [] {
      l := dv.world.loop;
    } else {
      var before := PostingsArePosted(dv, events[..|events| - 1], board);
      l := PostingEnds(dv, events, before, board);
    }
  }

  lemma PostingIsRun(dv: Device, events: seq<Event>, board: Board)
    ensures AfterDeviceRun(dv, Posts(events), board) == WithLoop(dv, Posted(dv.world.loop, events))
  {
    var l := PostingsArePosted(dv, events, board);
  }

  lemma SchedulingIsRun(dv: Device, due: bool, board: Board)
    ensures var fired := WithLoop(dv, Fired(dv.world.loop));
      AfterDeviceRun(dv, SchedulerSteps(due), board) == if due then ScheduleFired(fired) else fired
  {
    RunExtends(dv, [], LoopEvent(Fire), board);
    RunExtends(dv, [LoopEvent(Fire)], FireSchedule, board);
    assert [] + [LoopEvent(Fire)] == [LoopEvent(Fire)];
    assert [LoopEvent(Fire)] + [FireSchedule] == [LoopEvent(Fire), FireSchedule];
  }

  /** A pass of the main loop is a run of device steps. */
  lemma PassIsRun(dv: Device, round: Round, board: Board)
    ensures AfterPass(dv, round) == AfterDeviceRun(dv, PassSteps(round), board)
  {
    var scheduled := SchedulerSteps(round.due);
    SchedulingIsRun(dv, round.due, board);
    RunJoins(dv, scheduled, Posts(round.others), board);
    PostingIsRun(AfterDeviceRun(dv, scheduled, board), round.others, board);
    RunJoins(dv, scheduled + Posts(round.others), Handlings(8), board);
    HandlingIsRun(AfterDeviceRun(dv, scheduled + Posts(round.others), board), 8, board);
  }

  lemma {:induction false} PassesAreRuns(dv: Device, rounds: seq<Round>, board: Board)
    ensures AfterPasses(dv, rounds) == AfterDeviceRun(dv, PassesSteps(rounds), board)
  {
    if rounds != [] {
      var front, round := rounds[..|rounds| - 1], rounds[|rounds| - 1];
      PassesAreRuns(dv, front, board);
      PassIsRun(AfterPasses(dv, front), round, board);
      RunJoins(dv, PassesSteps(front), PassSteps(round), board);
    }
  }
}

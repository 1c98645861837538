// How much may be posted between two passes of the main loop without any announcement of the
// input being lost: a bound on the event queue that is read off the steps alone.
module PostingBudget {
  import opened ConfigurationStore
  import opened ConfigurationRuns
  import opened Events
  import opened RuleExecution
  import opened PersistedRules
  import opened ControlLoop
  import opened DeviceModel
  import opened DevicePasses

  const LEFT_BY_PASS: nat := 16  // a pass leaves at most QUEUE_SIZE less the events it handles

  // ---- The level of the queue ------------------------------------------------

  /** The events a step posts at most. */
  function Posting(step: DeviceStep): nat {
    match step
    case LoopEvent(loopStep) =>
      (match loopStep
       case SetValue(_) => 3
       case InjectFault(_) => 2
       case Recover => 2
       case DisableInput => 2
       case ForeignPost(_) => 1
       case Fire => 2
       case HandleNext => 0
       case Activate(_, _) => 0)
    case FireSchedule => 2
    case _ => 0
  }

  predicate Restarts(step: DeviceStep) {
    step.PowerFailure? || step.Restart?
  }

  predicate CallsInput(step: DeviceStep) {
    step.LoopEvent? && InputStep(step.step)
  }

  function LevelAfter(start: nat, level: nat, step: DeviceStep): nat {
    if Restarts(step) then start
    else if step == LoopEvent(HandleNext) then (if level == 0 then 0 else level - 1)
    else Capped(level + Posting(step))
  }

  /** A bound on the queue after some steps, from one before them and one that holds after
      every boot. */
  function Level(start: nat, level: nat, steps: seq<DeviceStep>): nat {
    if steps == [] then level
    else LevelAfter(start, Level(start, level, steps[..|steps| - 1]), steps[|steps| - 1])
  }

  /** Every call on the input comes at a level that leaves room for what it may post. */
  predicate WithinBudget(start: nat, level: nat, steps: seq<DeviceStep>) {
    steps == []
    || (WithinBudget(start, level, steps[..|steps| - 1])
        && (CallsInput(steps[|steps| - 1]) ==>
              Level(start, level, steps[..|steps| - 1]) + Posting(steps[|steps| - 1]) <= QUEUE_SIZE))
  }

  lemma {:induction false} LevelIsBounded(start: nat, level: nat, steps: seq<DeviceStep>)
    requires start <= QUEUE_SIZE && level <= QUEUE_SIZE
    ensures Level(start, level, steps) <= QUEUE_SIZE
  {
    if steps != [] {
      LevelIsBounded(start, level, steps[..|steps| - 1]);
    }
  }

  lemma {:induction false} LevelJoins(start: nat, level: nat, first: seq<DeviceStep>, second: seq<DeviceStep>)
    ensures Level(start, level, first + second) == Level(start, Level(start, level, first), second)
    ensures WithinBudget(start, level, first + second)
      <==> WithinBudget(start, level, first) && WithinBudget(start, Level(start, level, first), second)
  {
    if second == [] {
      assert first + second == first;
    } else {
      var n := |second| - 1;
      LevelJoins(start, level, first, second[..n]);
      assert (first + second)[..|first + second| - 1] == first + second[..n];
    }
  }

  // ---- Nothing is lost within the budget --------------------------------------

  lemma InputPosts(w: World, step: LoopStep)
    requires Sound(w.loop) && InputStep(step) && |w.loop.bus.pending| + Posting(LoopEvent(step)) <= QUEUE_SIZE
    ensures var b, b' := w.loop.bus, AfterLoopStep(w, step).loop.bus;
      b'.refused == b.refused && |b'.pending| <= |b.pending| + Posting(LoopEvent(step))
  {
  }

  lemma LoopStepLevels(w: World, step: LoopStep, level: nat)
    requires Sound(w.loop) && |w.loop.bus.pending| <= level <= QUEUE_SIZE && !step.Activate?
    requires InputStep(step) ==> level + Posting(LoopEvent(step)) <= QUEUE_SIZE
    ensures |AfterLoopStep(w, step).loop.bus.pending| <= LevelAfter(0, level, LoopEvent(step))
  {
    match step
    case HandleNext =>
      if w.loop.bus.pending != [] {
        HandledNextIs(w.loop);
      }
    case Fire =>
      if w.loop.runtime.task == Queued {
        FiredSettles(w.loop);
      }
    case ForeignPost(_) =>
    case _ => InputPosts(w, step);
  }

  lemma BootLevels(d: Durable, boot: BootEnv, board: Board)
    requires Wired(board)
    ensures |Booted(d, boot, board).world.loop.bus.pending| <= |board.loop.bus.pending| + 1
  {
    var store := AfterBegin(PowerOn(d), boot, board.sizeOf).store;
    ActivateSettles(board.loop, NEW_LOADER, ActiveJson(store), StoreRevision(store));
  }

  lemma FiringLevels(dv: Device)
    requires |dv.world.loop.bus.pending| <= QUEUE_SIZE
    ensures |ScheduleFired(dv).world.loop.bus.pending| <= Capped(|dv.world.loop.bus.pending| + 2)
  {
  }

  /** The queue is within a level, and no announcement was lost. */
  ghost predicate Kept(x: DeviceRun, level: nat) {
    !x.lost && |x.device.world.loop.bus.pending| <= level
  }

  lemma StepKeepsLevel(x: DeviceRun, step: DeviceStep, board: Board, start: nat, level: nat)
    requires Wired(board) && Consistent(x) && Kept(x, level) && level <= QUEUE_SIZE
    requires |board.loop.bus.pending| < start
    requires CallsInput(step) ==> level + Posting(step) <= QUEUE_SIZE
    ensures Kept(WatchDevice(x, step, board), LevelAfter(start, level, step))
  {
    WatchedDeviceSteps(x, step, board);
    match step
    case LoopEvent(loopStep) =>
      if !loopStep.Activate? {
        LoopStepLevels(x.device.world, loopStep, level);
        if InputStep(loopStep) {
          InputPosts(x.device.world, loopStep);
        }
      }
    case FireSchedule => FiringLevels(x.device);
    case Reconfigure(op, env) => OutcomeKeepsBus(x.device, AfterOp(x.device.store, op, env, HostOf(board)));
    case PowerFailure(op, env, at, boot) =>
      BootLevels(CrashPoint(x.device.store, AfterOp(x.device.store, op, env, HostOf(board)), at), boot, board);
    case Restart(boot) => BootLevels(x.device.store.durable, boot, board);
  }

  /** From power-on, over any run whose calls on the input stay within the budget, no
      announcement is lost and the queue stays within the level. */
  lemma {:induction false} BudgetKeepsAll(d: Durable, boot: BootEnv, steps: seq<DeviceStep>, board: Board, start: nat)
    requires Wired(board) && TrustworthyThroughout(DeviceRun(Booted(d, boot, board), false), steps, board)
    requires |board.loop.bus.pending| < start <= QUEUE_SIZE && WithinBudget(start, start, steps)
    ensures Kept(WatchDeviceRun(DeviceRun(Booted(d, boot, board), false), steps, board), Level(start, start, steps))
  {
    var x := DeviceRun(Booted(d, boot, board), false);
    if steps == [] {
      BootLevels(d, boot, board);
    } else {
      var front := steps[..|steps| - 1];
      assert forall i :: 0 <= i < |front| ==> front[..i] == steps[..i];
      BudgetKeepsAll(d, boot, front, board, start);
      RunsAreConsistent(d, boot, front, board);
      LevelIsBounded(start, start, front);
      StepKeepsLevel(WatchDeviceRun(x, front, board), steps[|steps| - 1], board, start, Level(start, start, front));
    }
  }

  /** End to end, with a hypothesis the surroundings can see to: after any run within the
      budget, four passes put the heater where the durable active rule wants it. */
  lemma HeaterSettlesWithinBudget(
    d: Durable, boot: BootEnv, steps: seq<DeviceStep>, board: Board, start: nat, rounds: seq<Round>)
    requires Wired(board) && TrustworthyThroughout(DeviceRun(Booted(d, boot, board), false), steps, board)
    requires |board.loop.bus.pending| < start <= QUEUE_SIZE && WithinBudget(start, start, steps)
    requires ForeignRounds(rounds) && |rounds| >= 4
    ensures var dv := WatchDeviceRun(DeviceRun(Booted(d, boot, board), false), steps, board).device;
      Governed(dv) ==> ObeysRule(AfterPasses(dv, rounds).world.loop, ParseRules(dv.store.durable.Active()))
  {
    BudgetKeepsAll(d, boot, steps, board, start);
    HeaterSettles(d, boot, steps, board, rounds);
  }

  // ---- Eight events between two passes ----------------------------------------

  /** What happens between two passes, and then a pass. */
  datatype Cycle = Cycle(between: seq<DeviceStep>, round: Round)

  function CyclesSteps(cycles: seq<Cycle>): seq<DeviceStep> {
    if cycles == [] then []
    else
      var last := cycles[|cycles| - 1];
      CyclesSteps(cycles[..|cycles| - 1]) + (last.between + PassSteps(last.round))
  }

  function Total(steps: seq<DeviceStep>): nat {
    if steps == [] then 0 else Total(steps[..|steps| - 1]) + Posting(steps[|steps| - 1])
  }

  /** Between any two passes at most eight events are posted. */
  predicate Spaced(cycles: seq<Cycle>) {
    forall i :: 0 <= i < |cycles| ==> Total(cycles[i].between) <= QUEUE_SIZE - LEFT_BY_PASS
  }

  lemma {:induction false} TotalFits(start: nat, level: nat, steps: seq<DeviceStep>)
    requires start <= LEFT_BY_PASS && level <= LEFT_BY_PASS && Total(steps) <= QUEUE_SIZE - LEFT_BY_PASS
    ensures WithinBudget(start, level, steps) && Level(start, level, steps) <= LEFT_BY_PASS + Total(steps)
  {
    if steps != [] {
      TotalFits(start, level, steps[..|steps| - 1]);
    }
  }

  ghost predicate NoCalls(steps: seq<DeviceStep>) {
    forall i :: 0 <= i < |steps| ==> !CallsInput(steps[i])
  }

  lemma {:induction false} NoCallsFit(start: nat, level: nat, steps: seq<DeviceStep>)
    requires NoCalls(steps)
    ensures WithinBudget(start, level, steps)
  {
    if steps != [] {
      NoCallsFit(start, level, steps[..|steps| - 1]);
    }
  }

  lemma {:induction false} PostsMakeNoCalls(events: seq<Event>)
    ensures NoCalls(Posts(events))
  {
    if events != [] {
      PostsMakeNoCalls(events[..|events| - 1]);
    }
  }

  lemma LevelExtends(start: nat, level: nat, steps: seq<DeviceStep>, step: DeviceStep)
    ensures Level(start, level, steps + [step]) == LevelAfter(start, Level(start, level, steps), step)
  {
    assert (steps + [step])[..|steps|] == steps;
  }

  lemma {:induction false} HandlingsLower(start: nat, level: nat, k: nat)
    ensures Level(start, level, Handlings(k)) == if level <= k then 0 else level - k
  {
    if k > 0 {
      HandlingsLower(start, level, k - 1);
      assert Handlings(k) == Handlings(k - 1) + [LoopEvent(HandleNext)];
      LevelExtends(start, level, Handlings(k - 1), LoopEvent(HandleNext));
    }
  }

  /** A pass makes no calls on the input and leaves at most sixteen events. */
  lemma PassLevels(start: nat, level: nat, round: Round)
    requires start <= QUEUE_SIZE && level <= QUEUE_SIZE
    ensures WithinBudget(start, level, PassSteps(round)) && Level(start, level, PassSteps(round)) <= LEFT_BY_PASS
  {
    var scheduled, posts := SchedulerSteps(round.due), Posts(round.others);
    PostsMakeNoCalls(round.others);
    HandlingsLower(start, Level(start, level, scheduled + posts), 8);
    LevelIsBounded(start, level, scheduled + posts);
    LevelJoins(start, level, scheduled + posts, Handlings(8));
    assert NoCalls(scheduled + posts);
    NoCallsFit(start, level, scheduled + posts);
    NoCallsFit(start, Level(start, level, scheduled + posts), Handlings(8));
  }

  lemma {:induction false} SpacedFits(start: nat, cycles: seq<Cycle>)
    requires start <= LEFT_BY_PASS && Spaced(cycles)
    ensures WithinBudget(start, start, CyclesSteps(cycles)) && Level(start, start, CyclesSteps(cycles)) <= LEFT_BY_PASS
  {
    if cycles != [] {
      var front, last := cycles[..|cycles| - 1], cycles[|cycles| - 1];
      assert forall i :: 0 <= i < |front| ==> front[i] == cycles[i];
      SpacedFits(start, front);
      var level := Level(start, start, CyclesSteps(front));
      TotalFits(start, level, last.between);
      PassLevels(start, Level(start, level, last.between), last.round);
      LevelJoins(start, level, last.between, PassSteps(last.round));
      LevelJoins(start, start, CyclesSteps(front), last.between + PassSteps(last.round));
    }
  }

  /** End to end: as long as at most eight events are posted between two passes, by calls on
      the input or by others, and whatever the scheduler's own tasks post in them, four more
      passes put the heater where the durable active rule wants it. */
  lemma HeaterSettlesWhenSpaced(
    d: Durable, boot: BootEnv, cycles: seq<Cycle>, board: Board, rounds: seq<Round>)
    requires Wired(board) && |board.loop.bus.pending| < LEFT_BY_PASS && Spaced(cycles)
    requires TrustworthyThroughout(DeviceRun(Booted(d, boot, board), false), CyclesSteps(cycles), board)
    requires ForeignRounds(rounds) && |rounds| >= 4
    ensures var dv := WatchDeviceRun(DeviceRun(Booted(d, boot, board), false), CyclesSteps(cycles), board).device;
      Governed(dv) ==> ObeysRule(AfterPasses(dv, rounds).world.loop, ParseRules(dv.store.durable.Active()))
  {
    SpacedFits(LEFT_BY_PASS, cycles);
    HeaterSettlesWithinBudget(d, boot, CyclesSteps(cycles), board, LEFT_BY_PASS, rounds);
  }

  /** The wiring in main.cpp leaves room for this. */
  lemma SetUpLeavesRoom()
    ensures |ColdBus().pending| < LEFT_BY_PASS
  {
  }
}

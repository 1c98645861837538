// FirmwareUpdateScheduler: a watcher task that follows the update policy and a timer task
// that requests a check of the manifest. Its own lock is always granted here.
module UpdateScheduler {
  import opened Prelude
  import opened JsonModel
  import opened FirmwarePackage
  import opened RemoteUpdate
  import opened UpdatePolicy

  const RETRY_DELAY_MS := 15000

  /** The timer task: whether it is enabled, its interval, and the delay it was last
      restarted with. */
  datatype Timer = Timer(enabled: bool, intervalMs: nat, delayMs: nat)

  datatype Sched = Sched(
    networkAvailable: bool, armed: bool, observedEnabled: bool, observedRevision: nat, observedInterval: nat,
    nextDue: nat, lastAttempt: nat, lastAccepted: nat, attempts: nat, accepted: nat, timer: Timer)

  const NEW_SCHED := Sched(false, false, false, UINT32_LIMIT - 1, 0, 0, 0, 0, 0, 0, Timer(false, 60000, 0))

  function Disarmed(s: Sched): Sched {
    s.(timer := s.timer.(enabled := false), armed := false, nextDue := 0)
  }

  predicate Observed(s: Sched, c: Config) {
    c.revision == s.observedRevision && c.enabled == s.observedEnabled && c.intervalSeconds == s.observedInterval
  }

  /** `applyPolicy` */
  function AfterPolicy(s: Sched, c: Config, now: nat): Sched {
    if Observed(s, c) then s
    else
      var s1 := s.(observedRevision := c.revision, observedEnabled := c.enabled, observedInterval := c.intervalSeconds);
      if !c.enabled then Disarmed(s1)
      else
        var delay := IntervalMs(c.intervalSeconds);
        s1.(timer := Timer(true, delay, delay), armed := true, nextDue := (now + delay) % UINT32_LIMIT)
  }

  /** `policyWatchCallback`; None is a policy that cannot be read. */
  function AfterWatch(s: Sched, c: Option<Config>, now: nat): Sched {
    if c.None? then Disarmed(s) else AfterPolicy(s, c.value, now)
  }

  /** Whether `automaticCheckCallback` gets as far as a request. */
  predicate Requests(s: Sched, c: Option<Config>) {
    s.timer.enabled && c.Some? && c.value.enabled && s.networkAvailable
  }

  /** The timer task restarts after the short delay. */
  function Retried(s: Sched, now: nat): Sched {
    s.(timer := s.timer.(enabled := true, delayMs := RETRY_DELAY_MS), nextDue := (now + RETRY_DELAY_MS) % UINT32_LIMIT)
  }

  /** `automaticCheckCallback`, run only while the timer is enabled. */
  function AfterCheck(s: Sched, c: Option<Config>, answer: Answer, now: nat): Sched {
    if !s.timer.enabled then s
    else if c.None? || !c.value.enabled then Disarmed(s)
    else
      var normal := IntervalMs(c.value.intervalSeconds);
      var s1 := s.(timer := s.timer.(intervalMs := normal));
      if !s.networkAvailable then Retried(s1, now)
      else
        var s2 := s1.(lastAttempt := now, attempts := Inc32(s.attempts), nextDue := (now + normal) % UINT32_LIMIT);
        match answer
        case Accepted => s2.(lastAccepted := now, accepted := Inc32(s.accepted))
        case Busy => Retried(s2, now)
        case Refusal => s2
  }

  // ---- The scheduler, the policy and the remote service ----------------------

  /** updates counts the policy updates since the last watch. */
  datatype Checker = Checker(sched: Sched, policy: PolicyStore, remote: Remote, updates: nat)

  datatype CheckerStep =
    | Watch(locked: bool, now: nat)
    | CheckDue(locked: bool, g: Grant, now: nat)
    | Network(available: bool)
    | RecordResult(result: string, put: Put)
    | UpdatePolicy(q: Request, put: Put)
    | Elsewhere(step: RemoteStep)

  /** The request of a check that is due. */
  function RemoteAfterCheck(x: Checker, locked: bool, g: Grant): Remote {
    var c := ReadConfig(x.policy, locked);
    if Requests(x.sched, c) then AfterRequestCheck(x.remote, c.value.manifestUrl, g) else x.remote
  }

  function AnswerTo(x: Checker, locked: bool, g: Grant): Answer {
    var c := ReadConfig(x.policy, locked);
    if c.Some? then CheckAnswer(x.remote, c.value.manifestUrl, g) else Refusal
  }

  function AfterChecker(x: Checker, t: Trust, step: CheckerStep, sizeOf: Json -> nat): Checker {
    match step
    case Watch(locked, now) =>
      x.(sched := AfterWatch(x.sched, ReadConfig(x.policy, locked), now), updates := 0)
    case CheckDue(locked, g, now) =>
      x.(sched := AfterCheck(x.sched, ReadConfig(x.policy, locked), AnswerTo(x, locked, g), now),
         remote := RemoteAfterCheck(x, locked, g))
    case Network(available) => x.(sched := x.sched.(networkAvailable := available))
    case RecordResult(result, put) => x.(policy := AfterRecord(x.policy, result, put, sizeOf))
    case UpdatePolicy(q, put) =>
      var policy := AfterUpdate(x.policy, q, put, sizeOf);
      x.(policy := policy, updates := x.updates + if policy.policy == x.policy.policy then 0 else 1)
    case Elsewhere(remoteStep) => x.(remote := AfterRemoteStep(x.remote, t, remoteStep))
  }

  function AfterCheckerRun(x: Checker, t: Trust, steps: seq<CheckerStep>, sizeOf: Json -> nat): Checker {
    if steps == [] then x
    else AfterChecker(AfterCheckerRun(x, t, steps[..|steps| - 1], sizeOf), t, steps[|steps| - 1], sizeOf)
  }

  /** The policy can be read: every reader gets its lock. */
  predicate Readable(step: CheckerStep) {
    match step
    case Watch(locked, _) => locked
    case CheckDue(locked, _, _) => locked
    case _ => true
  }

  // ---- Scheduler and policy agree --------------------------------------------

  /** The timer and its flag say what was observed, and what was observed is the policy, or
      the policy as it was the given number of updates ago. */
  ghost predicate InStep(x: Checker) {
    var s, p := x.sched, x.policy.policy;
    && x.policy.ready && ValidPolicy(p) && p.revision < UINT32_LIMIT && s.observedRevision < UINT32_LIMIT
    && s.armed == s.timer.enabled
    && p.revision == (s.observedRevision + x.updates) % UINT32_LIMIT
    && (s.timer.enabled ==> s.observedEnabled)
    && (x.updates == 0 ==> Observed(s, ConfigOf(p)) && s.timer.enabled == p.enabled)
  }

  /** After a watch: enabled, armed and the policy are the same thing, and an enabled timer
      has the policy's interval in milliseconds. */
  ghost predicate Agrees(s: Sched, p: Policy) {
    && s.timer.enabled == s.armed == p.enabled
    && Observed(s, ConfigOf(p))
  }

  lemma ValidIsReadable(p: PolicyStore)
    requires p.ready && ValidPolicy(p.policy)
    ensures ReadConfig(p, true) == Some(ConfigOf(p.policy))
  {
  }

  /** Fewer than 2^32 updates show in the revision. */
  lemma UpdatesShow(revision: nat, updates: nat)
    requires revision < UINT32_LIMIT && 0 < updates < UINT32_LIMIT
    ensures (revision + updates) % UINT32_LIMIT != revision
  {
  }

  lemma WatchAgrees(x: Checker, t: Trust, now: nat, sizeOf: Json -> nat)
    requires InStep(x) && x.updates < UINT32_LIMIT
    ensures var x' := AfterChecker(x, t, Watch(true, now), sizeOf);
      && InStep(x') && Agrees(x'.sched, x'.policy.policy)
      && (x.updates == 0 ==> x'.sched == x.sched)
      && (x.updates > 0 && x.policy.policy.enabled ==>
            && x'.sched.timer == Timer(true, x.policy.policy.intervalSeconds * 1000, x.policy.policy.intervalSeconds * 1000)
            && x'.sched.nextDue == (now + x.policy.policy.intervalSeconds * 1000) % UINT32_LIMIT)
  {
    ValidIsReadable(x.policy);
    ValidIntervalsDoNotWrap(x.policy.policy);
    if x.updates > 0 {
      UpdatesShow(x.sched.observedRevision, x.updates);
    }
  }

  lemma UpdateKeepsInStep(x: Checker, t: Trust, q: Request, put: Put, sizeOf: Json -> nat)
    requires InStep(x)
    ensures InStep(AfterChecker(x, t, UpdatePolicy(q, put), sizeOf))
  {
    UpdateMovesRevision(x.policy, q, put, sizeOf);
    RevisionAdds(x.sched.observedRevision, x.updates);
  }

  lemma RevisionAdds(revision: nat, updates: nat)
    ensures Inc32((revision + updates) % UINT32_LIMIT) == (revision + updates + 1) % UINT32_LIMIT
  {
    Inc32Counts(revision + updates);
  }

  lemma CheckerStepKeeps(x: Checker, t: Trust, step: CheckerStep, sizeOf: Json -> nat)
    requires InStep(x) && Readable(step) && (step.Watch? ==> x.updates < UINT32_LIMIT)
    ensures InStep(AfterChecker(x, t, step, sizeOf))
  {
    match step
    case Watch(_, now) => WatchAgrees(x, t, now, sizeOf);
    case CheckDue(_, _, _) => ValidIsReadable(x.policy);
    case UpdatePolicy(q, put) => UpdateKeepsInStep(x, t, q, put, sizeOf);
    case _ =>
  }

  ghost predicate FewUpdates(x: Checker, t: Trust, steps: seq<CheckerStep>, sizeOf: Json -> nat) {
    forall i :: 0 <= i < |steps| && steps[i].Watch? ==> AfterCheckerRun(x, t, steps[..i], sizeOf).updates < UINT32_LIMIT
  }

  /** Scheduler agrees with policy: over any run of watches, due checks, network changes,
      recorded results, policy updates and whatever the remote service does, with a readable
      policy and fewer than 2^32 updates between watches, after every watch the timer is
      enabled exactly when it is armed and when the policy is enabled. */
  lemma {:induction false} RunsStayInStep(x: Checker, t: Trust, steps: seq<CheckerStep>, sizeOf: Json -> nat)
    requires InStep(x) && FewUpdates(x, t, steps, sizeOf)
    requires forall i :: 0 <= i < |steps| ==> Readable(steps[i])
    ensures var x' := AfterCheckerRun(x, t, steps, sizeOf);
      && InStep(x')
      && (steps != [] && steps[|steps| - 1].Watch? ==> Agrees(x'.sched, x'.policy.policy))
  {
    if steps != [] {
      var n := |steps| - 1;
      assert forall i :: 0 <= i < n ==> steps[..n][..i] == steps[..i];
      RunsStayInStep(x, t, steps[..n], sizeOf);
      var before := AfterCheckerRun(x, t, steps[..n], sizeOf);
      CheckerStepKeeps(before, t, steps[n], sizeOf);
      if steps[n].Watch? {
        WatchAgrees(before, t, steps[n].now, sizeOf);
      }
    }
  }

  /** The state `begin` leaves once the first watch has run. */
  lemma BeginIsInStep(policy: PolicyStore, remote: Remote, now: nat)
    requires policy.ready && PolicySound(policy)
    ensures InStep(Checker(AfterWatch(NEW_SCHED, ReadConfig(policy, true), now), policy, remote, 0))
  {
    ValidIsReadable(policy);
  }

  /** Recording results and watching never move the due time: between updates and due checks
      the scheduler does not change at all. */
  lemma {:induction false} RecordsNeverMoveTheDueTime(x: Checker, t: Trust, steps: seq<CheckerStep>, sizeOf: Json -> nat)
    requires InStep(x) && x.updates == 0
    requires forall i :: 0 <= i < |steps| ==> Readable(steps[i]) && (steps[i].Watch? || steps[i].RecordResult?)
    ensures var x' := AfterCheckerRun(x, t, steps, sizeOf);
      && InStep(x') && x'.updates == 0 && x'.sched == x.sched
      && ConfigOf(x'.policy.policy) == ConfigOf(x.policy.policy)
  {
    if steps != [] {
      var n := |steps| - 1;
      RecordsNeverMoveTheDueTime(x, t, steps[..n], sizeOf);
      var before := AfterCheckerRun(x, t, steps[..n], sizeOf);
      CheckerStepKeeps(before, t, steps[n], sizeOf);
      if steps[n].Watch? {
        WatchAgrees(before, t, steps[n].now, sizeOf);
      } else {
        RecordKeepsConfig(before.policy, steps[n].result, steps[n].put, sizeOf, true);
      }
    }
  }

  // ---- When scheduler and policy disagree -------------------------------------

  /** What every step keeps, also when the policy cannot be read and however many updates
      come between two watches. */
  ghost predicate Coherent(x: Checker) {
    && x.policy.ready && ValidPolicy(x.policy.policy)
    && x.sched.armed == x.sched.timer.enabled && (x.sched.timer.enabled ==> x.sched.observedEnabled)
  }

  /** The timer is off although the observed policy is the enabled policy in force. */
  ghost predicate Asleep(x: Checker) {
    && x.policy.ready && ValidPolicy(x.policy.policy) && x.policy.policy.enabled
    && !x.sched.timer.enabled && Observed(x.sched, ConfigOf(x.policy.policy))
  }

  lemma StepKeepsCoherent(x: Checker, t: Trust, step: CheckerStep, sizeOf: Json -> nat)
    requires Coherent(x)
    ensures Coherent(AfterChecker(x, t, step, sizeOf))
  {
    match step
    case UpdatePolicy(q, put) => UpdateMovesRevision(x.policy, q, put, sizeOf);
    case RecordResult(result, put) => RecordKeepsValid(x.policy, result, put, sizeOf);
    case _ =>
  }

  lemma RecordKeepsValid(p: PolicyStore, result: string, put: Put, sizeOf: Json -> nat)
    requires p.ready && ValidPolicy(p.policy)
    ensures var p' := AfterRecord(p, result, put, sizeOf);
      p'.ready && ValidPolicy(p'.policy) && ConfigOf(p'.policy) == ConfigOf(p.policy)
  {
  }

  /** A readable watch leaves scheduler and policy in agreement if and only if the scheduler
      was not asleep. */
  lemma WatchAgreesIff(x: Checker, t: Trust, now: nat, sizeOf: Json -> nat)
    requires Coherent(x)
    ensures var x' := AfterChecker(x, t, Watch(true, now), sizeOf);
      Agrees(x'.sched, x'.policy.policy) <==> !Asleep(x)
  {
    ValidIsReadable(x.policy);
  }

  ghost predicate ChangesPolicy(x: Checker, step: CheckerStep, sizeOf: Json -> nat) {
    step.UpdatePolicy? && TakesEffect(x.policy, step.q, step.put, sizeOf)
  }

  /** The steps that put the scheduler to sleep: a watch or a due check that cannot read the
      enabled policy it has observed before, or, with the timer off, an update to an enabled
      policy that an old observation happens to match, its revision having wrapped. */
  ghost predicate FallsAsleep(x: Checker, step: CheckerStep, sizeOf: Json -> nat) {
    match step
    case Watch(locked, _) => !locked && x.policy.policy.enabled && Observed(x.sched, ConfigOf(x.policy.policy))
    case CheckDue(locked, _, _) => !locked && x.policy.policy.enabled && Observed(x.sched, ConfigOf(x.policy.policy))
    case UpdatePolicy(q, put) =>
      && TakesEffect(x.policy, q, put, sizeOf) && ParseEnabled(q.enabled) == Some(true) && !x.sched.timer.enabled
      && Observed(x.sched, ConfigOf(Requested(x.policy.policy, q, true)))
    case _ => false
  }

  lemma StepSleepsIff(x: Checker, t: Trust, step: CheckerStep, sizeOf: Json -> nat)
    requires Coherent(x)
    ensures Asleep(AfterChecker(x, t, step, sizeOf))
      <==> (Asleep(x) && !ChangesPolicy(x, step, sizeOf)) || FallsAsleep(x, step, sizeOf)
  {
    match step
    case Watch(_, _) => ValidIsReadable(x.policy);
    case CheckDue(_, _, _) => ValidIsReadable(x.policy);
    case UpdatePolicy(q, put) => UpdateChangesIff(x.policy, q, put, sizeOf);
    case RecordResult(result, put) => RecordKeepsValid(x.policy, result, put, sizeOf);
    case _ =>
  }

  ghost predicate KeepsPolicyAt(x: Checker, t: Trust, steps: seq<CheckerStep>, sizeOf: Json -> nat, j: nat) {
    j < |steps| ==> !ChangesPolicy(AfterCheckerRun(x, t, steps[..j], sizeOf), steps[j], sizeOf)
  }

  ghost predicate FallsAt(x: Checker, t: Trust, steps: seq<CheckerStep>, sizeOf: Json -> nat, i: nat) {
    i < |steps| && FallsAsleep(AfterCheckerRun(x, t, steps[..i], sizeOf), steps[i], sizeOf)
  }

  /** The scheduler falls asleep at step i, and no later step changes the policy in force. */
  ghost predicate SleepsFrom(x: Checker, t: Trust, steps: seq<CheckerStep>, sizeOf: Json -> nat, i: nat) {
    && FallsAt(x, t, steps, sizeOf, i)
    && forall j :: i < j < |steps| ==> KeepsPolicyAt(x, t, steps, sizeOf, j)
  }

  lemma SamePrefix(x: Checker, t: Trust, steps: seq<CheckerStep>, sizeOf: Json -> nat, j: nat)
    requires j < |steps| - 1
    ensures KeepsPolicyAt(x, t, steps[..|steps| - 1], sizeOf, j) == KeepsPolicyAt(x, t, steps, sizeOf, j)
    ensures FallsAt(x, t, steps[..|steps| - 1], sizeOf, j) == FallsAt(x, t, steps, sizeOf, j)
  {
    assert steps[..|steps| - 1][..j] == steps[..j];
  }

  lemma SleepsOn(x: Checker, t: Trust, steps: seq<CheckerStep>, sizeOf: Json -> nat, i: nat)
    requires i < |steps| - 1 && SleepsFrom(x, t, steps[..|steps| - 1], sizeOf, i)
    requires KeepsPolicyAt(x, t, steps, sizeOf, |steps| - 1)
    ensures SleepsFrom(x, t, steps, sizeOf, i)
  {
    SamePrefix(x, t, steps, sizeOf, i);
    forall j | i < j < |steps|
      ensures KeepsPolicyAt(x, t, steps, sizeOf, j)
    {
      if j < |steps| - 1 {
        SamePrefix(x, t, steps, sizeOf, j);
        assert KeepsPolicyAt(x, t, steps[..|steps| - 1], sizeOf, j);
      }
    }
  }

  lemma SleptBefore(x: Checker, t: Trust, steps: seq<CheckerStep>, sizeOf: Json -> nat, i: nat)
    requires i < |steps| - 1 && SleepsFrom(x, t, steps, sizeOf, i)
    ensures SleepsFrom(x, t, steps[..|steps| - 1], sizeOf, i) && KeepsPolicyAt(x, t, steps, sizeOf, |steps| - 1)
  {
    var front := steps[..|steps| - 1];
    SamePrefix(x, t, steps, sizeOf, i);
    forall j | i < j < |front|
      ensures KeepsPolicyAt(x, t, front, sizeOf, j)
    {
      SamePrefix(x, t, steps, sizeOf, j);
      assert KeepsPolicyAt(x, t, steps, sizeOf, j);
    }
  }

  /** Some step put the scheduler to sleep, and no later step changed the policy in force. */
  ghost predicate Slept(x: Checker, t: Trust, steps: seq<CheckerStep>, sizeOf: Json -> nat) {
    exists i: nat :: SleepsFrom(x, t, steps, sizeOf, i)
  }

  lemma SleepsStill(x: Checker, t: Trust, steps: seq<CheckerStep>, sizeOf: Json -> nat)
    requires steps != []
    requires FallsAt(x, t, steps, sizeOf, |steps| - 1)
      || (Slept(x, t, steps[..|steps| - 1], sizeOf) && KeepsPolicyAt(x, t, steps, sizeOf, |steps| - 1))
    ensures Slept(x, t, steps, sizeOf)
  {
    var n := |steps| - 1;
    if FallsAt(x, t, steps, sizeOf, n) {
      assert SleepsFrom(x, t, steps, sizeOf, n);
    } else {
      var i: nat :| SleepsFrom(x, t, steps[..n], sizeOf, i);
      SleepsOn(x, t, steps, sizeOf, i);
    }
  }

  /** Over any run, from a scheduler that is awake: it is asleep in the end if and only if
      some step put it to sleep and no later step changed the policy in force. */
  lemma {:induction false} RunSleepsIff(x: Checker, t: Trust, steps: seq<CheckerStep>, sizeOf: Json -> nat)
    requires Coherent(x) && !Asleep(x)
    ensures Coherent(AfterCheckerRun(x, t, steps, sizeOf))
    ensures Asleep(AfterCheckerRun(x, t, steps, sizeOf)) <==> Slept(x, t, steps, sizeOf)
  {
    if steps != [] {
      var n := |steps| - 1;
      RunSleepsIff(x, t, steps[..n], sizeOf);
      StepKeepsCoherent(AfterCheckerRun(x, t, steps[..n], sizeOf), t, steps[n], sizeOf);
      StepSleepsIff(AfterCheckerRun(x, t, steps[..n], sizeOf), t, steps[n], sizeOf);
      if Slept(x, t, steps, sizeOf) {
        var i: nat :| SleepsFrom(x, t, steps, sizeOf, i);
        if i < n {
          SleptBefore(x, t, steps, sizeOf, i);
        }
      } else if Asleep(AfterCheckerRun(x, t, steps, sizeOf)) {
        SleepsStill(x, t, steps, sizeOf);
      }
    }
  }

  /** Scheduler agrees with policy, exactly: after any run, whatever is readable in it, a
      readable watch leaves the timer as the policy demands if and only if no step put the
      scheduler to sleep since the policy in force last changed. */
  lemma RunsAgreeIff(x: Checker, t: Trust, steps: seq<CheckerStep>, now: nat, sizeOf: Json -> nat)
    requires Coherent(x) && !Asleep(x)
    ensures var x' := AfterChecker(AfterCheckerRun(x, t, steps, sizeOf), t, Watch(true, now), sizeOf);
      Agrees(x'.sched, x'.policy.policy) <==> !Slept(x, t, steps, sizeOf)
  {
    RunSleepsIff(x, t, steps, sizeOf);
    WatchAgreesIff(AfterCheckerRun(x, t, steps, sizeOf), t, now, sizeOf);
  }

  /** Set-up leaves the scheduler coherent and awake, whether or not its first watch could
      read the policy. */
  lemma BeginIsAwake(policy: PolicyStore, remote: Remote, locked: bool, now: nat)
    requires policy.ready && ValidPolicy(policy.policy)
    ensures var x := Checker(AfterWatch(NEW_SCHED, ReadConfig(policy, locked), now), policy, remote, 0);
      Coherent(x) && !Asleep(x)
  {
    ValidIsReadable(policy);
  }

  /** Readability cannot be dropped: one watch or due check that finds the policy locked turns
      the timer off but keeps the observation, so no later watch turns it on again, through
      any run, until the policy in force changes. */
  lemma {:induction false} UnreadableReadDisarms(x: Checker, t: Trust, reading: CheckerStep, steps: seq<CheckerStep>, sizeOf: Json -> nat)
    requires InStep(x) && x.updates == 0 && x.policy.policy.enabled && !Readable(reading)
    requires forall i :: 0 <= i < |steps| ==> !steps[i].UpdatePolicy?
    ensures var x1 := AfterChecker(x, t, reading, sizeOf);
      Coherent(AfterCheckerRun(x1, t, steps, sizeOf)) && Asleep(AfterCheckerRun(x1, t, steps, sizeOf))
  {
    if steps == [] {
      StepKeepsCoherent(x, t, reading, sizeOf);
      StepSleepsIff(x, t, reading, sizeOf);
    } else {
      var n := |steps| - 1;
      UnreadableReadDisarms(x, t, reading, steps[..n], sizeOf);
      var before := AfterCheckerRun(AfterChecker(x, t, reading, sizeOf), t, steps[..n], sizeOf);
      StepKeepsCoherent(before, t, steps[n], sizeOf);
      StepSleepsIff(before, t, steps[n], sizeOf);
    }
  }

  /** A sleeping scheduler is armed by the next readable watch if and only if an update that
      succeeds asks for an enabled policy. */
  lemma RearmsIff(x: Checker, t: Trust, q: Request, put: Put, now: nat, sizeOf: Json -> nat)
    requires Asleep(x)
    ensures var x1 := AfterChecker(x, t, UpdatePolicy(q, put), sizeOf);
      AfterChecker(x1, t, Watch(true, now), sizeOf).sched.timer.enabled
      <==> TakesEffect(x.policy, q, put, sizeOf) && ParseEnabled(q.enabled) == Some(true)
  {
    UpdateChangesIff(x.policy, q, put, sizeOf);
    UpdateMovesRevision(x.policy, q, put, sizeOf);
    ValidIsReadable(AfterUpdate(x.policy, q, put, sizeOf));
  }

  // ---- Automatic checks never install ----------------------------------------

  predicate Unattended(step: CheckerStep) {
    step.Elsewhere? ==> ChecksOnly(step.step)
  }

  /** With nobody requesting an apply or uploading an image, no automatic check ever
      downloads an image, opens an install session or selects an image for boot. */
  lemma {:induction false} AutomaticChecksNeverInstall(x: Checker, t: Trust, steps: seq<CheckerStep>, sizeOf: Json -> nat)
    requires NotInstalling(x.remote) && forall i :: 0 <= i < |steps| ==> Unattended(steps[i])
    ensures var r := AfterCheckerRun(x, t, steps, sizeOf).remote;
      NotInstalling(r) && r.updater.selected == x.remote.updater.selected
  {
    if steps != [] {
      AutomaticChecksNeverInstall(x, t, steps[..|steps| - 1], sizeOf);
      var before, step := AfterCheckerRun(x, t, steps[..|steps| - 1], sizeOf), steps[|steps| - 1];
      match step
      case CheckDue(locked, g, _) =>
        if Requests(before.sched, ReadConfig(before.policy, locked)) {
          ChecksStayQuiet(before.remote, t, RequestCheck(ReadConfig(before.policy, locked).value.manifestUrl, g));
        }
      case Elsewhere(remoteStep) => ChecksStayQuiet(before.remote, t, remoteStep);
      case _ =>
    }
  }

  // ---- The class -------------------------------------------------------------

  class CheckScheduler {
    const policy: PolicyService
    const remote: RemoteUpdater
    var networkAvailable: bool
    var armed: bool
    var observedEnabled: bool
    var observedRevision: nat
    var observedInterval: nat
    var nextDue: nat
    var lastAttempt: nat
    var lastAccepted: nat
    var attempts: nat
    var accepted: nat
    var timer: Timer
    ghost var updates: nat

    ghost function Own(): Sched
      reads this
    {
      Sched(networkAvailable, armed, observedEnabled, observedRevision, observedInterval, nextDue, lastAttempt,
            lastAccepted, attempts, accepted, timer)
    }

    ghost function Snapshot(): Checker
      reads this, policy, remote, remote.updater, remote.updater.verifier
    {
      Checker(Own(), policy.Snapshot(), remote.Snapshot(), updates)
    }

    /** `begin`, whose last act is a first watch. */
    constructor (policy: PolicyService, remote: RemoteUpdater, locked: bool, now: nat)
      ensures this.policy == policy && this.remote == remote
      ensures Own() == AfterWatch(NEW_SCHED, ReadConfig(policy.Snapshot(), locked), now) && updates == 0
    {
      this.policy, this.remote := policy, remote;
      networkAvailable, armed, observedEnabled, observedRevision, observedInterval := false, false, false, UINT32_LIMIT - 1, 0;
      nextDue, lastAttempt, lastAccepted, attempts, accepted, timer := 0, 0, 0, 0, 0, Timer(false, 60000, 0);
      updates := 0;
      new;
      WatchPolicy(locked, now);
    }

    method SetNetworkAvailable(available: bool)
      modifies this`networkAvailable
      ensures Own() == old(Own()).(networkAvailable := available)
    {
      networkAvailable := available;
    }

    method Disarm()
      modifies this`timer, this`armed, this`nextDue
      ensures Own() == Disarmed(old(Own()))
    {
      timer := timer.(enabled := false);
      armed, nextDue := false, 0;
    }

    method ApplyPolicy(enabled: bool, intervalSeconds: nat, revision: nat, now: nat)
      modifies this
      ensures Own() == AfterPolicy(old(Own()), Config(enabled, "", intervalSeconds, revision), now)
      ensures updates == old(updates)
    {
      var changed := revision != observedRevision || enabled != observedEnabled || intervalSeconds != observedInterval;
      if !changed {
        return;
      }
      observedRevision, observedEnabled, observedInterval := revision, enabled, intervalSeconds;
      if !enabled {
        Disarm();
        return;
      }
      var delay := IntervalMs(intervalSeconds);
      timer := Timer(true, delay, delay);
      armed, nextDue := true, (now + delay) % UINT32_LIMIT;
    }

    /** `policyWatchCallback` */
    method WatchPolicy(locked: bool, now: nat)
      modifies this
      ensures Own() == AfterWatch(old(Own()), ReadConfig(policy.Snapshot(), locked), now) && updates == 0
    {
      updates := 0;
      var config := policy.AutomaticCheckConfig(locked);
      if config.None? {
        Disarm();
        return;
      }
      ApplyPolicy(config.value.enabled, config.value.intervalSeconds, config.value.revision, now);
    }

    /** `automaticCheckCallback`, as the scheduler calls it. */
    method CheckIfDue(locked: bool, g: Grant, now: nat)
      modifies this, remote
      ensures Own() == AfterCheck(old(Own()), ReadConfig(policy.Snapshot(), locked),
                                  AnswerTo(old(Snapshot()), locked, g), now)
      ensures remote.Snapshot() == RemoteAfterCheck(old(Snapshot()), locked, g)
      ensures updates == old(updates)
    {
      if !timer.enabled {
        return;
      }
      var config := policy.AutomaticCheckConfig(locked);
      if config.None? || !config.value.enabled {
        Disarm();
        return;
      }
      CheckNow(config.value, g, now);
    }

    /** The part of the callback that comes once an enabled policy has been read. */
    method CheckNow(c: Config, g: Grant, now: nat)
      requires timer.enabled && c.enabled
      modifies this, remote
      ensures Own() == AfterCheck(old(Own()), Some(c), CheckAnswer(old(remote.Snapshot()), c.manifestUrl, g), now)
      ensures remote.Snapshot() == if !networkAvailable then old(remote.Snapshot())
                                   else AfterRequestCheck(old(remote.Snapshot()), c.manifestUrl, g)
      ensures updates == old(updates) && networkAvailable == old(networkAvailable)
    {
      timer := timer.(intervalMs := IntervalMs(c.intervalSeconds));
      if !networkAvailable {
        Retry(now);
        return;
      }
      NoteAttempt(now);
      var answer := remote.RequestCheck(c.manifestUrl, g);
      NoteAnswer(answer, now);
    }

    method Retry(now: nat)
      modifies this`timer, this`nextDue
      ensures Own() == Retried(old(Own()), now)
    {
      timer, nextDue := timer.(enabled := true, delayMs := RETRY_DELAY_MS), (now + RETRY_DELAY_MS) % UINT32_LIMIT;
    }

    method NoteAttempt(now: nat)
      modifies this`lastAttempt, this`attempts, this`nextDue
      ensures Own() == old(Own()).(lastAttempt := now, attempts := Inc32(old(attempts)),
                                   nextDue := (now + timer.intervalMs) % UINT32_LIMIT)
    {
      lastAttempt, attempts, nextDue := now, Inc32(attempts), (now + timer.intervalMs) % UINT32_LIMIT;
    }

    method NoteAnswer(answer: Answer, now: nat)
      modifies this`lastAccepted, this`accepted, this`nextDue, this`timer
      ensures Own() == match answer
        case Accepted => old(Own()).(lastAccepted := now, accepted := Inc32(old(accepted)))
        case Busy => Retried(old(Own()), now)
        case Refusal => old(Own())
    {
      if answer == Accepted {
        lastAccepted, accepted := now, Inc32(accepted);
      } else if answer == Busy {
        Retry(now);
      }
    }
  }
}

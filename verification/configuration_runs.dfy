// What the two-slot transaction keeps over whole runs: crash atomicity, revisions and the
// undo laws. A run mixes calls, power failures at any durable step and resets.
module ConfigurationRuns {
  import opened Prelude
  import opened JsonModel
  import opened ConfigurationValidation
  import opened ConfigurationStore

  datatype Operation = ApplyOp(candidate: Raw) | RollbackOp

  ghost function AfterOp(s: Store, op: Operation, env: OpEnv, h: Host): Outcome {
    match op
    case ApplyOp(candidate) => AfterApply(s, candidate, env, h)
    case RollbackOp => AfterRollback(s, env, h)
  }

  /** The text an operation writes once every check has passed. */
  ghost function TextOf(s: Store, op: Operation, h: Host): Candidate {
    match op
    case ApplyOp(candidate) => Canonical(candidate, s.revision + 1, h.sizeOf)
    case RollbackOp => Sized(RollbackText(s, h))
  }

  ghost function Inactive(s: Store): Raw {
    s.durable.Slot(Other(s.durable.pointer))
  }

  // ---- Safe states -----------------------------------------------------------

  /** The pointer designates a document that passes every check. */
  ghost predicate Recoverable(d: Durable) {
    d.pointer <= 1 && StoredRevision(d.Active()).Some?
  }

  ghost function ActiveRevision(d: Durable): nat
    requires Recoverable(d)
  {
    StoredRevision(d.Active()).value
  }

  /** A ready store mirrors in RAM what the pointer designates. */
  ghost predicate Safe(s: Store) {
    && Recoverable(s.durable)
    && (s.ready ==> s.slot == s.durable.pointer && s.raw == s.durable.Active()
                    && s.revision == ActiveRevision(s.durable))
  }

  lemma RevisionsFitIn32Bits(raw: Raw)
    requires StoredRevision(raw).Some?
    ensures StoredRevision(raw).value < UINT32_LIMIT
  {
    DocumentErrorIsExact(raw.parsed.value, true);
  }

  /** Setting schema and revision of a well-formed envelope leaves it well-formed. */
  lemma WithRevisionStaysValid(document: Json, revision: nat, requireRevision: bool)
    requires WellFormedDocument(document, requireRevision) && revision < UINT32_LIMIT
    ensures WellFormedDocument(WithRevision(document, revision), true)
    ensures WithRevision(WithMember(document, "schema", Integer(SCHEMA_VERSION)), revision)
         == WithRevision(document, revision)
  {
    var members := document.members;
    assert members["schema" := Integer(SCHEMA_VERSION)] == members;
  }

  /** A text about to be written reads back with the revision it was given. */
  lemma TextCarriesRevision(s: Store, op: Operation, h: Host)
    requires TextOf(s, op, h).Accepted? && s.revision + 1 < UINT32_LIMIT
    requires op.RollbackOp? ==> StoredRevision(s.durable.Slot(Other(s.slot))).Some?
    ensures StoredRevision(TextOf(s, op, h).text) == Some(s.revision + 1)
  {
    var source := if op.ApplyOp? then op.candidate else s.durable.Slot(Other(s.slot));
    DocumentErrorIsExact(source.parsed.value, op.RollbackOp?);
    WithRevisionStaysValid(source.parsed.value, s.revision + 1, op.RollbackOp?);
    DocumentErrorIsExact(WithRevision(source.parsed.value, s.revision + 1), true);
  }

  // ---- One operation ---------------------------------------------------------

  /** An operation either fails before it touches flash or is a commit of some text. */
  lemma FailsOrCommits(s: Store, op: Operation, env: OpEnv, h: Host) returns (text: Raw, status: Status)
    requires Safe(s)
    ensures var o := AfterOp(s, op, env, h);
      || (o.error.Some? && o == Fails(s, o.error.value))
      || (s.ready && s.revision + 1 < UINT32_LIMIT && o == Commit(s, text, s.revision + 1, env, status))
  {
    RevisionsFitIn32Bits(s.durable.Active());
    var candidate := TextOf(s, op, h);
    text := if candidate.Accepted? then candidate.text else EMPTY_RAW;
    status := if op.ApplyOp? then Applied else RolledBack;
  }

  /** The outcome of an operation on a safe store: it succeeds exactly when it flips the
      pointer, then adding 1 to the revision within 32 bits and leaving the old active
      document in the inactive slot; otherwise the active document and its mirror stay. */
  ghost predicate Transactional(s: Store, o: Outcome) {
    && Safe(o.store)
    && (o.error == None <==> o.store.durable.pointer != s.durable.pointer)
    && (o.error == None ==>
          && s.ready && o.store.ready
          && o.store.revision == s.revision + 1 < UINT32_LIMIT
          && Inactive(o.store) == s.raw
          && o.activation == Some(Activation(o.store.revision, o.store.raw)))
    && (o.error.Some? ==>
          && o.store == s.(durable := o.store.durable)
          && o.store.durable.Active() == s.durable.Active()
          && o.activation == None
          && (o.trace == [] ==> o.store == s))
  }

  lemma CommitIsTransactional(s: Store, text: Raw, env: OpEnv, status: Status)
    requires Safe(s) && s.ready && s.revision + 1 < UINT32_LIMIT
    ensures Transactional(s, Commit(s, text, s.revision + 1, env, status))
  {
  }

  /** Every apply and rollback is transactional, whatever the storage does. */
  lemma OperationKeeps(s: Store, op: Operation, env: OpEnv, h: Host)
    requires Safe(s)
    ensures Transactional(s, AfterOp(s, op, env, h))
  {
    var text, status := FailsOrCommits(s, op, env, h);
    if AfterOp(s, op, env, h).trace != [] {
      CommitIsTransactional(s, text, env, status);
    }
  }

  /** A call that succeeds wrote a text that passed every check, and what reads back carries
      the next revision. */
  lemma CommittedText(s: Store, op: Operation, env: OpEnv, h: Host)
    requires AfterOp(s, op, env, h).error == None
    ensures TextOf(s, op, h).Accepted? && Satisfies(h, TextOf(s, op, h).text)
    ensures StoredRevision(env.write.stored) == Some(s.revision + 1)
    ensures AfterOp(s, op, env, h).store.raw == env.write.stored
  {
    match op
    case ApplyOp(candidate) => assert TextOf(s, op, h).Accepted?;
    case RollbackOp => assert TextOf(s, op, h).Accepted?;
  }

  /** Crash atomicity. Whatever durable state an apply or rollback of a ready store is
      interrupted in, the next boot loads exactly the old document if the pointer had not
      flipped, and exactly the verified new one at the next revision if it had; it writes
      nothing and takes neither the fallback nor the default branch. */
  lemma CrashAtomicity(s: Store, op: Operation, env: OpEnv, h: Host, d: Durable, boot: BootEnv)
    requires Safe(s) && s.ready && boot.locked && boot.openOk
    requires d == s.durable || d in AfterOp(s, op, env, h).trace
    ensures var o, b := AfterOp(s, op, env, h), AfterBegin(PowerOn(d), boot, h.sizeOf);
      && b.ok && b.trace == [] && b.store.last == Loaded && !b.store.recovered
      && (d.pointer == s.durable.pointer ==> b.store.raw == s.raw && b.store.revision == s.revision)
      && (d.pointer != s.durable.pointer ==>
            o.error == None && b.store.raw == o.store.raw && b.store.revision == s.revision + 1)
  {
    var text, status := FailsOrCommits(s, op, env, h);
  }

  /** A boot that succeeds, from any flash contents, establishes a safe ready store. */
  lemma BootEstablishesSafety(d: Durable, boot: BootEnv, sizeOf: Json -> nat)
    ensures var b := AfterBegin(PowerOn(d), boot, sizeOf);
      && (b.ok <==> b.store.ready)
      && (b.ok ==> Safe(b.store))
      && (Recoverable(d) ==> b.store.durable == d && Safe(b.store) && (boot.locked && boot.openOk ==> b.ok))
  {
    if !Recoverable(d) && boot.locked && boot.openOk && d.pointer > 1 {
      assert Other(d.pointer) == 0;
    }
  }

  // ---- Runs ------------------------------------------------------------------

  /** A call; a call interrupted after `at` durable steps, and the boot that follows; or a
      reset between calls. */
  datatype Step =
    | Call(op: Operation, env: OpEnv)
    | Crash(op: Operation, env: OpEnv, at: nat, boot: BootEnv)
    | Reset(boot: BootEnv)

  /** The durable state a crash after `at` durable steps of the call leaves. */
  ghost function CrashPoint(s: Store, o: Outcome, at: nat): Durable {
    if at == 0 || o.trace == [] then s.durable
    else if at <= |o.trace| then o.trace[at - 1]
    else o.trace[|o.trace| - 1]
  }

  ghost function AfterStep(s: Store, step: Step, h: Host): Store {
    match step
    case Call(op, env) => AfterOp(s, op, env, h).store
    case Crash(op, env, at, boot) =>
      AfterBegin(PowerOn(CrashPoint(s, AfterOp(s, op, env, h), at)), boot, h.sizeOf).store
    case Reset(boot) => AfterBegin(PowerOn(s.durable), boot, h.sizeOf).store
  }

  ghost function AfterRun(s: Store, steps: seq<Step>, h: Host): Store {
    if steps == [] then s else AfterStep(AfterRun(s, steps[..|steps| - 1], h), steps[|steps| - 1], h)
  }

  /** The commits of a run: the steps across which the pointer flipped. */
  ghost function Commits(s: Store, steps: seq<Step>, h: Host): nat {
    if steps == [] then 0
    else
      var before := AfterRun(s, steps[..|steps| - 1], h);
      Commits(s, steps[..|steps| - 1], h) +
      if AfterStep(before, steps[|steps| - 1], h).durable.pointer != before.durable.pointer then 1 else 0
  }

  /** A state a call can be interrupted in still designates the old document, or the new one
      at the next revision; before the first slot write nothing has changed. */
  lemma CrashPointKeeps(s: Store, op: Operation, env: OpEnv, h: Host, at: nat)
    requires Safe(s)
    ensures var o := AfterOp(s, op, env, h);
      var d := CrashPoint(s, o, at);
      && Recoverable(d)
      && (d.pointer == s.durable.pointer ==> d.Active() == s.durable.Active())
      && (d.pointer != s.durable.pointer ==>
            && o.error == None && d == o.store.durable
            && ActiveRevision(d) == ActiveRevision(s.durable) + 1)
      && (at == 0 || o.trace == [] ==> d == s.durable)
  {
    var text, status := FailsOrCommits(s, op, env, h);
  }

  lemma StepKeeps(s: Store, step: Step, h: Host)
    requires Safe(s)
    ensures var s' := AfterStep(s, step, h);
      && Safe(s')
      && (s'.durable.pointer == s.durable.pointer ==> s'.durable.Active() == s.durable.Active())
      && (s'.durable.pointer != s.durable.pointer ==>
            ActiveRevision(s'.durable) == ActiveRevision(s.durable) + 1)
  {
    match step
    case Call(op, env) => OperationKeeps(s, op, env, h);
    case Crash(op, env, at, boot) =>
      CrashPointKeeps(s, op, env, h, at);
      BootEstablishesSafety(CrashPoint(s, AfterOp(s, op, env, h), at), boot, h.sizeOf);
    case Reset(boot) => BootEstablishesSafety(s.durable, boot, h.sizeOf);
  }

  /** Whole-run revision safety: over any applies, rollbacks, failed attempts, crashes and
      resets the pointer stays in {0, 1}, a ready store mirrors what it designates, and the
      active revision is the initial one plus the number of commits, without wrapping. */
  lemma {:induction false} RunsAreSafe(s: Store, steps: seq<Step>, h: Host)
    requires Safe(s)
    ensures var s' := AfterRun(s, steps, h);
      && Safe(s')
      && ActiveRevision(s'.durable) == ActiveRevision(s.durable) + Commits(s, steps, h) < UINT32_LIMIT
      && (Commits(s, steps, h) == 0 ==> s'.durable.Active() == s.durable.Active())
  {
    if steps != [] {
      RunsAreSafe(s, steps[..|steps| - 1], h);
      StepKeeps(AfterRun(s, steps[..|steps| - 1], h), steps[|steps| - 1], h);
    }
    RevisionsFitIn32Bits(AfterRun(s, steps, h).durable.Active());
  }

  /** From any flash contents at all, the store is safe whenever it is ready. */
  lemma {:induction false} ReadyMeansSafe(d: Durable, steps: seq<Step>, h: Host)
    ensures AfterRun(PowerOn(d), steps, h).ready ==> Safe(AfterRun(PowerOn(d), steps, h))
  {
    if steps != [] {
      ReadyMeansSafe(d, steps[..|steps| - 1], h);
      var s, step := AfterRun(PowerOn(d), steps[..|steps| - 1], h), steps[|steps| - 1];
      if s.ready {
        StepKeeps(s, step, h);
      } else if !step.Call? {
        BootEstablishesSafety(s.durable, step.boot, h.sizeOf);
      }
    }
  }

  // ---- Undo ------------------------------------------------------------------

  /** A stored document without its revision. */
  ghost function Payload(raw: Raw): map<string, Json> {
    if raw.parsed.Some? && raw.parsed.value.Object? then raw.parsed.value.members - {"revision"} else map[]
  }

  /** Storage that keeps exactly the text written and reports so. */
  predicate Honest(env: OpEnv, text: Raw) {
    env.locked && env.write.stored == text && env.write.reported == text.length && env.pointerOk
  }

  /** A rollback on honest storage succeeds exactly when there is a revision left, an
      inactive document, and its text at the next revision fits and passes the validator. */
  lemma RollbackSucceedsIff(s: Store, env: OpEnv, h: Host)
    requires Safe(s) && s.ready && Honest(env, RollbackText(s, h))
    ensures AfterRollback(s, env, h).error == None <==>
      && s.revision < UINT32_LIMIT - 1 && StoredRevision(Inactive(s)).Some?
      && 0 < RollbackText(s, h).length <= MAX_CONFIG_JSON_BYTES
      && Satisfies(h, RollbackText(s, h))
  {
    RevisionsFitIn32Bits(s.raw);
    if s.revision < UINT32_LIMIT - 1 && StoredRevision(Inactive(s)).Some? && Sized(RollbackText(s, h)).Accepted? {
      TextCarriesRevision(s, RollbackOp, h);
    }
  }

  /** A successful rollback exchanges the two payloads. */
  lemma RollbackExchangesPayloads(s: Store, env: OpEnv, h: Host)
    requires Safe(s) && AfterRollback(s, env, h).error == None && Honest(env, RollbackText(s, h))
    ensures var s' := AfterRollback(s, env, h).store;
      && Safe(s') && s'.ready && s'.revision == s.revision + 1
      && Payload(s'.raw) == Payload(Inactive(s)) && Inactive(s') == s.raw
  {
    OperationKeeps(s, RollbackOp, env, h);
    var document := Inactive(s).parsed.value;
    DocumentErrorIsExact(document, true);
    assert document.members["revision" := Integer(s.revision + 1)] - {"revision"} == document.members - {"revision"};
  }

  /** Apply, then roll back: the earlier payload is active again, two revisions later. */
  lemma ApplyThenRollback(s: Store, candidate: Raw, env1: OpEnv, env2: OpEnv, h: Host)
    requires Safe(s)
    requires AfterApply(s, candidate, env1, h).error == None
    requires var s1 := AfterApply(s, candidate, env1, h).store;
      AfterRollback(s1, env2, h).error == None && Honest(env2, RollbackText(s1, h))
    ensures var s2 := AfterRollback(AfterApply(s, candidate, env1, h).store, env2, h).store;
      Payload(s2.raw) == Payload(s.raw) && s2.revision == s.revision + 2
  {
    OperationKeeps(s, ApplyOp(candidate), env1, h);
    RollbackExchangesPayloads(AfterApply(s, candidate, env1, h).store, env2, h);
  }

  /** run[i + 1] is run[i] after a successful rollback, or after a call refused before it
      wrote anything; `undone` counts the rollbacks. */
  ghost predicate UndoRun(run: seq<Store>, calls: seq<Operation>, envs: seq<OpEnv>, h: Host) {
    && |run| == |envs| + 1 == |calls| + 1
    && forall i :: 0 <= i < |envs| ==> UndoStep(run[i], calls[i], envs[i], run[i + 1], h)
  }

  ghost predicate UndoStep(s: Store, op: Operation, env: OpEnv, s': Store, h: Host) {
    var o := AfterOp(s, op, env, h);
    && s' == o.store
    && (o.error == None ==> op.RollbackOp? && Honest(env, RollbackText(s, h)))
    && (o.error.Some? ==> o.trace == [])
  }

  ghost function Undone(run: seq<Store>, n: nat): nat
    requires n < |run|
  {
    if n == 0 then 0
    else Undone(run, n - 1) + if run[n].durable.pointer != run[n - 1].durable.pointer then 1 else 0
  }

  lemma UndoStepAt(run: seq<Store>, calls: seq<Operation>, envs: seq<OpEnv>, h: Host, i: nat)
    requires UndoRun(run, calls, envs, h) && i < |envs|
    ensures UndoStep(run[i], calls[i], envs[i], run[i + 1], h)
  {
  }

  /** s is s0 after k rollbacks. */
  ghost predicate Alternated(s0: Store, s: Store, k: nat) {
    && Safe(s) && s.ready && s.revision == s0.revision + k
    && (k % 2 == 0 ==> Payload(s.raw) == Payload(s0.raw) && Payload(Inactive(s)) == Payload(Inactive(s0)))
    && (k % 2 == 1 ==> Payload(s.raw) == Payload(Inactive(s0)) && Payload(Inactive(s)) == Payload(s0.raw))
  }

  /** Rollbacks alternate between the same two payloads, one revision at a time, however
      many refused calls lie between them. */
  lemma {:induction false} RollbacksAlternate(run: seq<Store>, calls: seq<Operation>, envs: seq<OpEnv>, h: Host, n: nat)
    requires UndoRun(run, calls, envs, h) && Safe(run[0]) && run[0].ready && n < |run|
    ensures Alternated(run[0], run[n], Undone(run, n))
  {
    if n > 0 {
      RollbacksAlternate(run, calls, envs, h, n - 1);
      UndoStepAt(run, calls, envs, h, n - 1);
      AlternatedStep(run[0], run[n - 1], Undone(run, n - 1), calls[n - 1], envs[n - 1], run[n], h);
    }
  }

  lemma AlternatedStep(s0: Store, s: Store, k: nat, op: Operation, env: OpEnv, s': Store, h: Host)
    requires Alternated(s0, s, k) && UndoStep(s, op, env, s', h)
    ensures Alternated(s0, s', k + if s'.durable.pointer != s.durable.pointer then 1 else 0)
  {
    UndoStepKeeps(s, op, env, s', h);
  }

  lemma UndoStepKeeps(s: Store, op: Operation, env: OpEnv, s': Store, h: Host)
    requires Safe(s) && s.ready && UndoStep(s, op, env, s', h)
    ensures Safe(s') && s'.ready
    ensures s'.durable.pointer == s.durable.pointer ==> s' == s
    ensures s'.durable.pointer != s.durable.pointer ==>
      && s'.revision == s.revision + 1
      && Payload(s'.raw) == Payload(Inactive(s)) && Inactive(s') == s.raw
  {
    OperationKeeps(s, op, env, h);
    if AfterOp(s, op, env, h).error == None {
      RollbackExchangesPayloads(s, env, h);
    }
  }

  // ---- Attempts that failed after starting their slot write ------------------

  /** previous is the document the last commit replaced; dirty says that since then some
      attempt started to write the inactive slot and did not commit. */
  datatype Past = Past(store: Store, previous: Option<Raw>, dirty: bool)

  ghost function WroteSlot(s: Store, step: Step, h: Host): bool {
    match step
    case Call(op, env) => AfterOp(s, op, env, h).trace != []
    case Crash(op, env, at, _) => at > 0 && AfterOp(s, op, env, h).trace != []
    case Reset(_) => false
  }

  ghost function Next(p: Past, step: Step, h: Host): Past {
    var s' := AfterStep(p.store, step, h);
    if s'.durable.pointer != p.store.durable.pointer then Past(s', Some(p.store.durable.Active()), false)
    else Past(s', p.previous, p.dirty || WroteSlot(p.store, step, h))
  }

  ghost function NextAll(p: Past, steps: seq<Step>, h: Host): Past {
    if steps == [] then p else Next(NextAll(p, steps[..|steps| - 1], h), steps[|steps| - 1], h)
  }

  /** Over any run, crashes and adversarial storage included: while no attempt has failed
      after starting its slot write since the last commit, the inactive slot still holds the
      document that commit replaced, so a rollback brings that document back. */
  lemma {:induction false} CleanMeansPreviousKept(p: Past, steps: seq<Step>, h: Host)
    requires CleanOrDirty(p)
    ensures CleanOrDirty(NextAll(p, steps, h))
  {
    if steps != [] {
      CleanMeansPreviousKept(p, steps[..|steps| - 1], h);
      CleanStep(NextAll(p, steps[..|steps| - 1], h), steps[|steps| - 1], h);
    }
  }

  ghost predicate CleanOrDirty(p: Past) {
    Safe(p.store) && (p.previous.Some? && !p.dirty ==> Inactive(p.store) == p.previous.value)
  }

  lemma CleanStep(p: Past, step: Step, h: Host)
    requires CleanOrDirty(p)
    ensures CleanOrDirty(Next(p, step, h))
  {
    StepKeeps(p.store, step, h);
    UnwrittenOrFlipped(p.store, step, h);
  }

  /** A step that does not start a slot write leaves flash alone; one that flips the pointer
      leaves the old active document in the slot that is inactive now. */
  lemma UnwrittenOrFlipped(s: Store, step: Step, h: Host)
    requires Safe(s)
    ensures var s' := AfterStep(s, step, h);
      && (!WroteSlot(s, step, h) ==> s'.durable == s.durable)
      && (s'.durable.pointer != s.durable.pointer ==> Inactive(s') == s.durable.Active())
  {
    match step
    case Call(op, env) => OperationKeeps(s, op, env, h);
    case Crash(op, env, at, boot) =>
      OperationKeeps(s, op, env, h);
      CrashPointKeeps(s, op, env, h, at);
      BootEstablishesSafety(CrashPoint(s, AfterOp(s, op, env, h), at), boot, h.sizeOf);
    case Reset(boot) => BootEstablishesSafety(s.durable, boot, h.sizeOf);
  }

  /** The hypothesis cannot be dropped: after an apply that started its slot write and failed,
      a rollback that succeeds activates what that apply left in the slot, a candidate that
      was never committed. */
  lemma FailedApplyThenRollback(s: Store, candidate: Raw, env1: OpEnv, env2: OpEnv, h: Host)
    requires Safe(s)
    requires var o := AfterApply(s, candidate, env1, h); o.error.Some? && o.trace != []
    requires var s1 := AfterApply(s, candidate, env1, h).store;
      AfterRollback(s1, env2, h).error == None && Honest(env2, RollbackText(s1, h))
    ensures var s2 := AfterRollback(AfterApply(s, candidate, env1, h).store, env2, h).store;
      Payload(s2.raw) == Payload(env1.write.stored) && s2.revision == s.revision + 1
  {
    OperationKeeps(s, ApplyOp(candidate), env1, h);
    var s1 := AfterApply(s, candidate, env1, h).store;
    assert Inactive(s1) == env1.write.stored;
    RollbackExchangesPayloads(s1, env2, h);
  }

  /** Storage whose slot writes, also when they are interrupted, leave the old text, the new
      one, or something that does not parse. */
  ghost predicate Plausible(s: Store, step: Step, h: Host) {
    (step.Call? || step.Crash?) && TextOf(s, step.op, h).Accepted? ==>
      var text := TextOf(s, step.op, h).text;
      && (step.env.write.stored == text || StoredRevision(step.env.write.stored) == None)
      && (step.env.write.torn in {text, s.durable.Slot(Other(s.slot))} || StoredRevision(step.env.write.torn) == None)
  }

  /** The inactive slot holds nothing usable, the document the last commit replaced (its
      revision is below the active one), or an uncommitted candidate (its revision is the
      next one). */
  ghost predicate Tidy(p: Past) {
    && Safe(p.store)
    && (StoredRevision(Inactive(p.store)).Some? ==>
          var found, active := StoredRevision(Inactive(p.store)).value, ActiveRevision(p.store.durable);
          || (found < active && p.previous == Some(Inactive(p.store)))
          || (found == active + 1 && p.dirty))
  }

  /** The inactive slot after a call, or after its interruption: the torn or the stored text. */
  lemma WrittenSlot(s: Store, op: Operation, env: OpEnv, h: Host, at: nat)
    requires Safe(s) && at > 0 && AfterOp(s, op, env, h).trace != []
    ensures var o := AfterOp(s, op, env, h);
      && s.ready
      && (o.store.durable.pointer == s.durable.pointer ==> Inactive(o.store) == env.write.stored)
      && (CrashPoint(s, o, at).pointer == s.durable.pointer ==>
            CrashPoint(s, o, at).Slot(Other(s.durable.pointer)) in {env.write.torn, env.write.stored})
  {
    var text, status := FailsOrCommits(s, op, env, h);
  }

  lemma SlotLeft(s: Store, step: Step, h: Host)
    requires Safe(s) && WroteSlot(s, step, h)
    requires AfterStep(s, step, h).durable.pointer == s.durable.pointer
    ensures s.ready && Inactive(AfterStep(s, step, h)) in {step.env.write.torn, step.env.write.stored}
  {
    if step.Crash? {
      WrittenSlot(s, step.op, step.env, h, step.at);
      CrashPointKeeps(s, step.op, step.env, h, step.at);
      BootEstablishesSafety(CrashPoint(s, AfterOp(s, step.op, step.env, h), step.at), step.boot, h.sizeOf);
    } else {
      WrittenSlot(s, step.op, step.env, h, 1);
    }
  }

  /** The inactive slot after a plausible step that did not flip the pointer. */
  lemma InactiveAfter(s: Store, step: Step, h: Host)
    requires Safe(s) && Plausible(s, step, h)
    requires AfterStep(s, step, h).durable.pointer == s.durable.pointer
    ensures var left := Inactive(AfterStep(s, step, h));
      || left == Inactive(s) || StoredRevision(left) == None
      || (WroteSlot(s, step, h) && StoredRevision(left) == Some(ActiveRevision(s.durable) + 1))
  {
    if WroteSlot(s, step, h) {
      RevisionsFitIn32Bits(s.durable.Active());
      TextCarriesRevision(s, step.op, h);
      SlotLeft(s, step, h);
    } else {
      UnwrittenOrFlipped(s, step, h);
    }
  }

  lemma TidyStep(p: Past, step: Step, h: Host)
    requires Tidy(p) && Plausible(p.store, step, h)
    ensures Tidy(Next(p, step, h))
  {
    StepKeeps(p.store, step, h);
    UnwrittenOrFlipped(p.store, step, h);
    if AfterStep(p.store, step, h).durable.pointer == p.store.durable.pointer {
      InactiveAfter(p.store, step, h);
    }
  }

  lemma {:induction false} RunsStayTidy(p: Past, steps: seq<Step>, h: Host)
    requires Tidy(p)
    requires forall i :: 0 <= i < |steps| ==> Plausible(NextAll(p, steps[..i], h).store, steps[i], h)
    ensures Tidy(NextAll(p, steps, h))
  {
    if steps != [] {
      var front := steps[..|steps| - 1];
      assert forall i :: 0 <= i < |front| ==> front[..i] == steps[..i];
      RunsStayTidy(p, front, h);
      TidyStep(NextAll(p, front, h), steps[|steps| - 1], h);
    }
  }

  ghost predicate PreviousOlder(p: Past)
    requires Safe(p.store)
  {
    p.previous.Some? ==>
      StoredRevision(p.previous.value).Some?
      && StoredRevision(p.previous.value).value < ActiveRevision(p.store.durable)
  }

  /** On plausible storage the caller can tell what a usable inactive slot holds: the last
      replaced document if and only if its revision is below the active one. */
  lemma PreviousRevisionTells(p: Past, steps: seq<Step>, h: Host)
    requires Tidy(p) && PreviousOlder(p)
    requires forall i :: 0 <= i < |steps| ==> Plausible(NextAll(p, steps[..i], h).store, steps[i], h)
    ensures var p' := NextAll(p, steps, h);
      Safe(p'.store) &&
      (StoredRevision(Inactive(p'.store)).Some? ==>
        (p'.previous == Some(Inactive(p'.store)) <==>
          StoredRevision(Inactive(p'.store)).value < ActiveRevision(p'.store.durable)))
  {
    RunsStayTidy(p, steps, h);
    PreviousStaysOlder(p, steps, h);
    if StoredRevision(Inactive(NextAll(p, steps, h).store)).Some? {
      OlderIsPrevious(NextAll(p, steps, h));
    }
  }

  lemma OlderIsPrevious(p: Past)
    requires Tidy(p) && PreviousOlder(p) && StoredRevision(Inactive(p.store)).Some?
    ensures p.previous == Some(Inactive(p.store)) <==>
      StoredRevision(Inactive(p.store)).value < ActiveRevision(p.store.durable)
  {
  }

  lemma {:induction false} PreviousStaysOlder(p: Past, steps: seq<Step>, h: Host)
    requires Safe(p.store) && PreviousOlder(p)
    ensures Safe(NextAll(p, steps, h).store) && PreviousOlder(NextAll(p, steps, h))
  {
    if steps != [] {
      PreviousStaysOlder(p, steps[..|steps| - 1], h);
      StepKeeps(NextAll(p, steps[..|steps| - 1], h).store, steps[|steps| - 1], h);
    }
  }

  /** A rollback that succeeds on honest storage after a plausible run brings back the payload
      of the last replaced document if and only if the inactive revision is below the active
      one, or the uncommitted candidate found in its place happens to have that payload. */
  lemma RollbackRestoresIff(p: Past, steps: seq<Step>, env: OpEnv, h: Host)
    requires Tidy(p) && PreviousOlder(p)
    requires forall i :: 0 <= i < |steps| ==> Plausible(NextAll(p, steps[..i], h).store, steps[i], h)
    requires NextAll(p, steps, h).previous.Some?
    requires AfterRollback(NextAll(p, steps, h).store, env, h).error == None
    requires Honest(env, RollbackText(NextAll(p, steps, h).store, h))
    ensures var p' := NextAll(p, steps, h);
      && Safe(p'.store) && StoredRevision(Inactive(p'.store)).Some?
      && (Payload(AfterRollback(p'.store, env, h).store.raw) == Payload(p'.previous.value) <==>
            || StoredRevision(Inactive(p'.store)).value < ActiveRevision(p'.store.durable)
            || Payload(Inactive(p'.store)) == Payload(p'.previous.value))
  {
    PreviousRevisionTells(p, steps, h);
    RollbackExchangesPayloads(NextAll(p, steps, h).store, env, h);
  }

  // ---- A run that loses the replaced document ---------------------------------

  /** Storage that keeps the text and may refuse the pointer. */
  function Keeping(text: Raw, pointerOk: bool): OpEnv {
    OpEnv(true, WriteOutcome(text, text, text.length), pointerOk)
  }

  /** A document with one rule. */
  function Ruled(rule: Json, revision: nat): Json {
    Object(map["schema" := Integer(SCHEMA_VERSION), "revision" := Integer(revision),
               "rules" := List([rule]), "schedules" := List([])])
  }

  function RuledText(rule: Json, revision: nat, h: Host): Raw {
    Print(Ruled(rule, revision), h.sizeOf)
  }

  /** The document has a legal size and passes the validator. */
  ghost predicate Fits(rule: Json, revision: nat, h: Host) {
    && WellFormedEntry(rule) && revision < UINT32_LIMIT
    && 0 < h.sizeOf(Ruled(rule, revision)) <= MAX_CONFIG_JSON_BYTES
    && Satisfies(h, RuledText(rule, revision, h))
  }

  lemma RuledIsStored(rule: Json, revision: nat, h: Host)
    requires Fits(rule, revision, h)
    ensures DocumentError(Ruled(rule, revision), false) == None
    ensures StoredRevision(RuledText(rule, revision, h)) == Some(revision)
  {
    var rules := Ruled(rule, revision).Member("rules").items;
    assert rules == [rule];
    DocumentErrorIsExact(Ruled(rule, revision), false);
    DocumentErrorIsExact(Ruled(rule, revision), true);
  }

  lemma RuledMoves(rule: Json, revision: nat, next: nat, h: Host)
    requires Fits(rule, revision, h) && Fits(rule, next, h)
    ensures WithRevision(Ruled(rule, revision), next) == Ruled(rule, next)
    ensures Canonical(RuledText(rule, revision, h), next, h.sizeOf) == Accepted(RuledText(rule, next, h))
  {
    RuledIsStored(rule, revision, h);
    var members := Ruled(rule, revision).members;
    assert members["schema" := Integer(SCHEMA_VERSION)] == members;
    assert members["revision" := Integer(next)] == Ruled(rule, next).members;
  }

  /** A ready store whose active document has rule a. */
  function Holding(a: Json, h: Host): Store {
    Store(Durable(0, RuledText(a, 0, h), EMPTY_RAW), true, 0, RuledText(a, 0, h), 0, false, Loaded)
  }

  /** The same after the document with rule b has replaced it, at the next revision. */
  function Replaced(a: Json, b: Json, h: Host): Store {
    var b1 := RuledText(b, 1, h);
    Store(Durable(1, RuledText(a, 0, h), b1), true, 1, b1, 1, false, Applied)
  }

  lemma Replacing(a: Json, b: Json, h: Host)
    requires Fits(b, 0, h) && Fits(b, 1, h)
    ensures AfterApply(Holding(a, h), RuledText(b, 0, h), Keeping(RuledText(b, 1, h), true), h).store == Replaced(a, b, h)
  {
    RuledMoves(b, 0, 1, h);
    RuledIsStored(b, 1, h);
  }

  lemma PointerFails(a: Json, b: Json, c: Json, h: Host)
    requires Fits(c, 0, h) && Fits(c, 2, h)
    ensures AfterApply(Replaced(a, b, h), RuledText(c, 0, h), Keeping(RuledText(c, 2, h), false), h).store
         == Replaced(a, b, h).(durable := Durable(1, RuledText(c, 2, h), RuledText(b, 1, h)))
  {
    RuledMoves(c, 0, 2, h);
    RuledIsStored(c, 2, h);
  }

  lemma RollingBack(a: Json, b: Json, c: Json, h: Host)
    requires Fits(c, 2, h)
    ensures var s := Replaced(a, b, h).(durable := Durable(1, RuledText(c, 2, h), RuledText(b, 1, h)));
      var o := AfterRollback(s, Keeping(RuledText(c, 2, h), true), h);
      o.error == None && o.store.raw == RuledText(c, 2, h)
  {
    RuledMoves(c, 2, 2, h);
    RuledIsStored(c, 2, h);
  }

  lemma DifferentRulesDiffer(a: Json, b: Json, revision: nat, next: nat, h: Host)
    requires a != b
    ensures Payload(RuledText(a, revision, h)) != Payload(RuledText(b, next, h))
  {
    assert List([a]).items[0] != List([b]).items[0];
    assert Payload(RuledText(a, revision, h))["rules"] != Payload(RuledText(b, next, h))["rules"];
  }

  /** Apply rule b, then c with a pointer write that fails, then roll back: the store now runs
      c, which was never committed, and a, which b replaced, is gone, although the slots kept
      every text written. */
  lemma ReplacedDocumentLost(a: Json, b: Json, c: Json, h: Host)
    requires Fits(a, 0, h) && Fits(b, 0, h) && Fits(b, 1, h) && Fits(c, 0, h) && Fits(c, 2, h) && a != c
    ensures var p := Past(Holding(a, h), None, false);
      var first := Call(ApplyOp(RuledText(b, 0, h)), Keeping(RuledText(b, 1, h), true));
      var second := Call(ApplyOp(RuledText(c, 0, h)), Keeping(RuledText(c, 2, h), false));
      var p1 := Next(p, first, h);
      var p2 := Next(p1, second, h);
      var o := AfterRollback(p2.store, Keeping(RuledText(c, 2, h), true), h);
      && Tidy(p) && Plausible(p.store, first, h) && Plausible(p1.store, second, h)
      && p2.previous == Some(RuledText(a, 0, h))
      && o.error == None && Payload(o.store.raw) != Payload(p2.previous.value)
  {
    RuledIsStored(a, 0, h);
    RuledMoves(b, 0, 1, h);
    RuledMoves(c, 0, 2, h);
    Replacing(a, b, h);
    PointerFails(a, b, c, h);
    RollingBack(a, b, c, h);
    DifferentRulesDiffer(a, c, 0, 2, h);
  }
}

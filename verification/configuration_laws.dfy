// What the calls of the store are for, stated on the documents themselves: an apply commits the
// candidate it was given, and a boot finds a usable document wherever there is one.
module ConfigurationLaws {
  import opened Prelude
  import opened JsonModel
  import opened ConfigurationValidation
  import opened ConfigurationStore
  import opened ConfigurationRuns

  // ---- Stored texts ----------------------------------------------------------

  /** A stored text passes exactly when it has a legal length and parses to a well-formed
      document with a 32-bit revision, which is the one found. */
  lemma StoredIsExact(raw: Raw, revision: nat)
    ensures StoredRevision(raw) == Some(revision) <==>
      && 1 <= raw.length <= 3072 && raw.parsed.Some?
      && WellFormedDocument(raw.parsed.value, true) && raw.parsed.value.Member("revision") == Integer(revision)
  {
    if raw.parsed.Some? {
      DocumentErrorIsExact(raw.parsed.value, true);
    }
  }

  // ---- Apply -----------------------------------------------------------------

  /** The candidate with the given revision in place of its own, if it has one. */
  function Stamped(candidate: Raw, revision: nat): Json {
    if candidate.parsed.Some? && candidate.parsed.value.Object? then
      Object(candidate.parsed.value.members["revision" := Integer(revision)])
    else Null
  }

  ghost predicate Acceptable(candidate: Raw) {
    1 <= candidate.length <= 3072 && candidate.parsed.Some? && WellFormedDocument(candidate.parsed.value, false)
  }

  /** The text an apply writes is the candidate with its revision set and nothing else changed;
      there is one exactly when the candidate is well formed and both lengths are legal. */
  lemma CanonicalIsStamped(candidate: Raw, revision: nat, sizeOf: Json -> nat, text: Raw)
    ensures Canonical(candidate, revision, sizeOf) == Accepted(text) <==>
      && Acceptable(candidate)
      && text == Raw(sizeOf(Stamped(candidate, revision)), Some(Stamped(candidate, revision)))
      && 1 <= text.length <= 3072
    ensures Acceptable(candidate) ==> Payload(Raw(0, Some(Stamped(candidate, revision)))) == Payload(candidate)
  {
    if candidate.parsed.Some? {
      var document := candidate.parsed.value;
      DocumentErrorIsExact(document, false);
      if WellFormedDocument(document, false) {
        assert document.members["schema" := Integer(1)] == document.members;
        assert document.members["revision" := Integer(revision)] - {"revision"} == document.members - {"revision"};
      }
    }
  }

  /** The text that applying a candidate would write. */
  function WouldWrite(s: Store, candidate: Raw, h: Host): Raw {
    var document := Stamped(candidate, s.revision + 1);
    Raw(h.sizeOf(document), Some(document))
  }

  /** An apply on honest storage succeeds exactly when there is a revision left, the candidate
      is well formed, both lengths are legal and the validator accepts what will be written. */
  lemma ApplySucceedsIff(s: Store, candidate: Raw, env: OpEnv, h: Host)
    requires Safe(s) && s.ready && Honest(env, WouldWrite(s, candidate, h))
    ensures AfterApply(s, candidate, env, h).error == None <==>
      && s.revision < 0xFFFF_FFFF && Acceptable(candidate)
      && 1 <= WouldWrite(s, candidate, h).length <= 3072 && Satisfies(h, WouldWrite(s, candidate, h))
  {
    RevisionsFitIn32Bits(s.raw);
    CanonicalIsStamped(candidate, s.revision + 1, h.sizeOf, WouldWrite(s, candidate, h));
    var canonical := Canonical(candidate, s.revision + 1, h.sizeOf);
    if canonical.Accepted? {
      CanonicalIsStamped(candidate, s.revision + 1, h.sizeOf, canonical.text);
      if s.revision < 0xFFFF_FFFF {
        TextCarriesRevision(s, ApplyOp(candidate), h);
      }
    }
  }

  /** A successful apply commits the candidate: on honest storage the active document is the
      candidate with the next revision, and the document it replaced is in the other slot. */
  lemma ApplyCommitsCandidate(s: Store, candidate: Raw, env: OpEnv, h: Host)
    requires Safe(s) && AfterApply(s, candidate, env, h).error == None && Honest(env, WouldWrite(s, candidate, h))
    ensures var s' := AfterApply(s, candidate, env, h).store;
      && s'.ready && s'.revision == s.revision + 1 && s'.raw.parsed == Some(Stamped(candidate, s.revision + 1))
      && Payload(s'.raw) == Payload(candidate) && s'.durable.Active() == s'.raw && Inactive(s') == s.raw
      && s'.durable.pointer == (if s.durable.pointer == 0 then 1 else 0)
      && s'.last == Applied && !s'.recovered
  {
    OperationKeeps(s, ApplyOp(candidate), env, h);
    CommittedText(s, ApplyOp(candidate), env, h);
    CanonicalIsStamped(candidate, s.revision + 1, h.sizeOf, Canonical(candidate, s.revision + 1, h.sizeOf).text);
  }

  /** An apply is refused outright without the lock, before the store is ready, or when there
      is no revision left. */
  lemma ApplyIsRefused(s: Store, candidate: Raw, env: OpEnv, h: Host)
    requires !(env.locked && s.ready && s.revision != 0xFFFF_FFFF)
    ensures AfterApply(s, candidate, env, h)
         == Fails(s, if env.locked && s.ready then RevisionExhausted else NotReady)
  {
  }

  /** A candidate is rejected for a length that is not legal, its own or that of what would be
      written, for not being JSON, or for what the document checks find. */
  lemma ApplyRejects(s: Store, candidate: Raw, env: OpEnv, h: Host)
    requires env.locked && s.ready && s.revision != 0xFFFF_FFFF
    requires !(Acceptable(candidate) && 1 <= WouldWrite(s, candidate, h).length <= 3072)
    ensures var o := AfterApply(s, candidate, env, h);
      && o.store == s && o.trace == [] && o.activation == None
      && o.error == (if !(1 <= candidate.length <= 3072) then Some(SizeInvalid)
                     else if candidate.parsed.None? then Some(JsonInvalid)
                     else if Acceptable(candidate) then Some(SizeInvalid)
                     else DocumentError(candidate.parsed.value, false))
    ensures 1 <= candidate.length <= 3072 && candidate.parsed.Some? ==>
      (Acceptable(candidate) <==> DocumentError(candidate.parsed.value, false) == None)
  {
    if candidate.parsed.Some? {
      DocumentErrorIsExact(candidate.parsed.value, false);
      if Acceptable(candidate) {
        var document := candidate.parsed.value;
        assert document.members["schema" := Integer(1)] == document.members;
      }
    }
  }

  /** An acceptable candidate fails for what the validator, the slot write, the read-back or the
      pointer write does, in this order; only the validator leaves flash untouched. */
  lemma ApplyFails(s: Store, candidate: Raw, env: OpEnv, h: Host)
    requires env.locked && s.ready && s.revision != 0xFFFF_FFFF
    requires Acceptable(candidate) && 1 <= WouldWrite(s, candidate, h).length <= 3072
    ensures var o, text := AfterApply(s, candidate, env, h), WouldWrite(s, candidate, h);
      && o.error == (if !Satisfies(h, text) then Some(SemanticInvalid)
                     else if env.write.reported != text.length then Some(SlotWriteFailed)
                     else if StoredRevision(env.write.stored) != Some(s.revision + 1) then Some(SlotVerifyFailed)
                     else if !env.pointerOk then Some(PointerWriteFailed)
                     else None)
      && (o.trace == [] <==> !Satisfies(h, text))
  {
    CanonicalIsStamped(candidate, s.revision + 1, h.sizeOf, WouldWrite(s, candidate, h));
  }

  /** What a successful rollback reports. */
  lemma RollbackReports(s: Store, env: OpEnv, h: Host)
    requires Safe(s) && AfterRollback(s, env, h).error == None
    ensures var s' := AfterRollback(s, env, h).store;
      s'.last == RolledBack && !s'.recovered && s'.durable.pointer == (if s.durable.pointer == 0 then 1 else 0)
  {
    OperationKeeps(s, RollbackOp, env, h);
  }

  // ---- Boot ------------------------------------------------------------------

  ghost predicate Usable(raw: Raw) {
    StoredRevision(raw).Some?
  }

  /** The store runs exactly this text, from this slot. */
  ghost predicate Runs(s: Store, slot: nat, raw: Raw) {
    s.ready && s.slot == slot && s.durable.pointer == slot && s.raw == raw && StoredRevision(raw) == Some(s.revision)
  }

  predicate SameSlots(d: Durable, d': Durable) {
    d'.slot0 == d.slot0 && d'.slot1 == d.slot1
  }

  /** Without the lock or the namespace nothing is loaded and nothing is written. */
  lemma BootNeedsAccess(d: Durable, env: BootEnv, sizeOf: Json -> nat)
    requires !(env.locked && env.openOk)
    ensures var b := AfterBegin(PowerOn(d), env, sizeOf);
      !b.ok && !b.store.ready && b.trace == [] && b.store.durable == d
  {
  }

  /** A usable document in the slot the pointer designates is loaded as it is. */
  lemma BootLoads(d: Durable, env: BootEnv, sizeOf: Json -> nat)
    requires env.locked && env.openOk && d.pointer <= 1
    requires Usable(if d.pointer == 0 then d.slot0 else d.slot1)
    ensures var b := AfterBegin(PowerOn(d), env, sizeOf);
      && b.ok && Runs(b.store, d.pointer, if d.pointer == 0 then d.slot0 else d.slot1)
      && b.store.durable == d && b.trace == [] && b.store.last == Loaded && !b.store.recovered
  {
  }

  /** Otherwise a usable document in the other slot is loaded and the pointer moved to it, if
      the pointer can be written; both slots stay as they are. A pointer above 1 has slot 0
      for its other slot. */
  lemma BootRecovers(d: Durable, env: BootEnv, sizeOf: Json -> nat)
    requires env.locked && env.openOk
    requires !(d.pointer <= 1 && Usable(if d.pointer == 0 then d.slot0 else d.slot1))
    requires Usable(if d.pointer == 0 then d.slot1 else d.slot0)
    ensures var b, other := AfterBegin(PowerOn(d), env, sizeOf), if d.pointer == 0 then 1 else 0;
      && SameSlots(d, b.store.durable)
      && (env.pointerOk ==>
            && b.ok && Runs(b.store, other, if d.pointer == 0 then d.slot1 else d.slot0)
            && b.trace == [b.store.durable] && b.store.last == Recovered && b.store.recovered)
      && (!env.pointerOk ==>
            !b.ok && !b.store.ready && b.store.durable == d && b.trace == [] && b.store.last == RecoveryPointerWriteFailed)
  {
  }

  /** The slots a boot looks at: both, unless the pointer is above 1, when it looks at slot 0
      alone. */
  ghost predicate NothingFound(d: Durable) {
    !Usable(d.slot0) && (d.pointer <= 1 ==> !Usable(d.slot1))
  }

  /** A boot leaves both slots alone, in every state it passes through, unless it finds nothing
      usable where it looks. */
  lemma BootKeepsSlots(d: Durable, env: BootEnv, sizeOf: Json -> nat)
    requires !NothingFound(d)
    ensures var b := AfterBegin(PowerOn(d), env, sizeOf);
      SameSlots(d, b.store.durable) && forall x :: x in b.trace ==> SameSlots(d, x)
  {
    if d.pointer == 0 {
      assert d.Slot(Other(d.pointer)) == d.slot1;
    } else {
      assert d.Slot(Other(d.pointer)) == d.slot0;
    }
  }

  /** The default document, member by member. */
  ghost predicate IsDefault(raw: Raw) {
    raw.parsed == Some(Object(map["schema" := Integer(1), "revision" := Integer(0), "rules" := List([]), "schedules" := List([])]))
  }

  /** Flash that keeps what it is given, and a default document of legal length. */
  predicate Keeps(env: BootEnv, sizeOf: Json -> nat) {
    var document := Object(map["schema" := Integer(1), "revision" := Integer(0), "rules" := List([]), "schedules" := List([])]);
    && env.locked && env.openOk && env.pointerOk && 1 <= sizeOf(document) <= 3072
    && env.write.stored == Raw(sizeOf(document), Some(document)) && env.write.reported == sizeOf(document)
  }

  lemma DefaultIsStored(raw: Raw)
    requires IsDefault(raw) && 1 <= raw.length <= 3072
    ensures StoredRevision(raw) == Some(0)
  {
    var document := raw.parsed.value;
    assert document.Member("rules").items == [] && document.Member("schedules").items == [];
    DocumentErrorIsExact(document, true);
  }

  /** When nothing usable is found, honest flash gets the default document in slot 0, at
      revision 0, and slot 1 is cleared. */
  lemma BootCreatesDefaults(d: Durable, env: BootEnv, sizeOf: Json -> nat)
    requires Keeps(env, sizeOf) && NothingFound(d)
    ensures var b := AfterBegin(PowerOn(d), env, sizeOf);
      && b.ok && Runs(b.store, 0, b.store.durable.slot0) && IsDefault(b.store.raw) && b.store.revision == 0
      && b.store.durable.slot1 == (if env.removeOk then EMPTY_RAW else d.slot1)
      && b.store.last == DefaultsCreated && !b.store.recovered
  {
    DefaultIsStored(env.write.stored);
    assert Print(DefaultDocument(), sizeOf) == env.write.stored;
  }

  /** Defaults that cannot be written, verified or pointed to leave the store not ready, the
      pointer where it was and slot 1 untouched. */
  lemma FailedDefaults(d: Durable, env: BootEnv, sizeOf: Json -> nat)
    requires env.locked && env.openOk && NothingFound(d)
    requires !env.pointerOk || StoredRevision(env.write.stored) != Some(0)
      || env.write.reported != sizeOf(Object(map["schema" := Integer(1), "revision" := Integer(0), "rules" := List([]), "schedules" := List([])]))
    ensures var b := AfterBegin(PowerOn(d), env, sizeOf);
      && !b.ok && !b.store.ready && b.store.last == DefaultsFailed
      && b.store.durable == d.(slot0 := env.write.stored) && b.trace == [d.(slot0 := env.write.torn), b.store.durable]
  {
  }

  /** The promise that a usable document survives a boot fails exactly for a pointer above 1
      with only slot 1 usable: then slot 1 is cleared and the defaults run. */
  lemma UsableDocumentLostIff(d: Durable, env: BootEnv, sizeOf: Json -> nat)
    requires Keeps(env, sizeOf) && env.removeOk && (Usable(d.slot0) || Usable(d.slot1))
    ensures var s := AfterBegin(PowerOn(d), env, sizeOf).store;
      !SameSlots(d, s.durable) <==> d.pointer > 1 && !Usable(d.slot0) && Usable(d.slot1)
  {
    if NothingFound(d) {
      BootCreatesDefaults(d, env, sizeOf);
    } else {
      BootKeepsSlots(d, env, sizeOf);
    }
  }
}

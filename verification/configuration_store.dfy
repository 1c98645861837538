// ConfigurationStore: two NVS slots and a one-byte pointer hold the durable state, a RAM
// mirror the active document. Storage is adversarial: a slot write may leave any text in
// its slot, both while it runs and afterwards, and may report any length.
module ConfigurationStore {
  import opened Prelude
  import opened JsonModel
  import opened ConfigurationValidation

  const MAX_CONFIG_JSON_BYTES: nat := 3072

  /** What is in flash. A pointer that was never written reads as 0, a missing slot as "". */
  datatype Durable = Durable(pointer: nat, slot0: Raw, slot1: Raw) {
    function Slot(i: nat): Raw {
      if i == 0 then slot0 else slot1
    }

    function WithSlot(i: nat, raw: Raw): Durable {
      if i == 0 then this.(slot0 := raw) else this.(slot1 := raw)
    }

    /** The text the pointer designates. */
    function Active(): Raw {
      Slot(pointer)
    }
  }

  /** One `putString`: what the slot holds if power fails during it, what it holds
      afterwards, and the length it returns. */
  datatype WriteOutcome = WriteOutcome(torn: Raw, stored: Raw, reported: nat)

  /** What the surroundings do during one apply or rollback. */
  datatype OpEnv = OpEnv(locked: bool, write: WriteOutcome, pointerOk: bool)

  datatype BootEnv = BootEnv(locked: bool, openOk: bool, write: WriteOutcome, pointerOk: bool, removeOk: bool)

  /** The serialized length of documents and the semantic validator, if one is installed. */
  datatype Host = Host(sizeOf: Json -> nat, validator: Option<Raw -> bool>)

  datatype Status =
    | Never | Loaded | Recovered | DefaultsCreated | Applied | RolledBack
    | NvsOpenFailed | RecoveryPointerWriteFailed | DefaultsFailed

  datatype Store = Store(
    durable: Durable, ready: bool, slot: nat, raw: Raw, revision: nat, recovered: bool, last: Status)

  datatype Activation = Activation(revision: nat, raw: Raw)

  /** The store after a call, the durable states it passed through, and its answer. */
  datatype Outcome = Outcome(
    store: Store, trace: seq<Durable>, error: Option<ConfigError>, activation: Option<Activation>)

  datatype Boot = Boot(store: Store, trace: seq<Durable>, ok: bool)

  function Other(slot: nat): nat {
    if slot == 0 then 1 else 0
  }

  /** RAM after a reset. */
  function PowerOn(d: Durable): Store {
    Store(d, false, 0, EMPTY_RAW, 0, false, Never)
  }

  // ---- Documents -------------------------------------------------------------

  /** `parseStored`: the revision of a stored text that passes every check. */
  ghost function StoredRevision(raw: Raw): Option<nat> {
    if raw.length == 0 || raw.length > MAX_CONFIG_JSON_BYTES then None
    else if raw.parsed.None? then None
    else if DocumentError(raw.parsed.value, true).Some? then None
    else Some(raw.parsed.value.Member("revision").i)
  }

  function WithMember(document: Json, key: string, value: Json): Json {
    if document.Object? then Object(document.members[key := value]) else document
  }

  function WithRevision(document: Json, revision: nat): Json {
    WithMember(document, "revision", Integer(revision))
  }

  datatype Candidate = Rejected(error: ConfigError) | Accepted(text: Raw)

  /** `canonicalizeCandidate` */
  ghost function Canonical(raw: Raw, revision: nat, sizeOf: Json -> nat): Candidate {
    if raw.length == 0 || raw.length > MAX_CONFIG_JSON_BYTES then Rejected(SizeInvalid)
    else if raw.parsed.None? then Rejected(JsonInvalid)
    else if DocumentError(raw.parsed.value, false).Some? then
      Rejected(DocumentError(raw.parsed.value, false).value)
    else
      Sized(Print(WithRevision(WithMember(raw.parsed.value, "schema", Integer(SCHEMA_VERSION)), revision), sizeOf))
  }

  ghost function Sized(text: Raw): Candidate {
    if text.length == 0 || text.length > MAX_CONFIG_JSON_BYTES then Rejected(SizeInvalid) else Accepted(text)
  }

  function DefaultDocument(): Json {
    Object(map["schema" := Integer(SCHEMA_VERSION), "revision" := Integer(0),
               "rules" := List([]), "schedules" := List([])])
  }

  predicate Satisfies(h: Host, text: Raw) {
    h.validator.Some? ==> h.validator.value(text)
  }

  // ---- The calls -------------------------------------------------------------

  ghost function Fails(s: Store, error: ConfigError): Outcome {
    Outcome(s, [], Some(error), None)
  }

  /** Steps 3 to 5 of a transaction: write the inactive slot, read it back, flip the pointer. */
  ghost function Commit(s: Store, text: Raw, next: nat, env: OpEnv, status: Status): Outcome {
    var target := Other(s.slot);
    var torn := s.durable.WithSlot(target, env.write.torn);
    var written := s.durable.WithSlot(target, env.write.stored);
    var failed := s.(durable := written);
    if env.write.reported != text.length then Outcome(failed, [torn, written], Some(SlotWriteFailed), None)
    else if StoredRevision(env.write.stored) != Some(next) then
      Outcome(failed, [torn, written], Some(SlotVerifyFailed), None)
    else if !env.pointerOk then Outcome(failed, [torn, written], Some(PointerWriteFailed), None)
    else
      var flipped := written.(pointer := target);
      Outcome(Store(flipped, true, target, env.write.stored, next, false, status),
              [torn, written, flipped], None, Some(Activation(next, env.write.stored)))
  }

  ghost function JudgeAndCommit(s: Store, text: Raw, next: nat, env: OpEnv, h: Host, status: Status): Outcome {
    if !Satisfies(h, text) then Fails(s, SemanticInvalid)
    else Commit(s, text, next, env, status)
  }

  ghost function AfterApply(s: Store, candidate: Raw, env: OpEnv, h: Host): Outcome {
    if !env.locked || !s.ready then Fails(s, NotReady)
    else if s.revision == UINT32_LIMIT - 1 then Fails(s, RevisionExhausted)
    else
      match Canonical(candidate, s.revision + 1, h.sizeOf)
      case Rejected(error) => Fails(s, error)
      case Accepted(text) => JudgeAndCommit(s, text, s.revision + 1, env, h, Applied)
  }

  /** The text a rollback would write: the inactive document at the next revision. */
  ghost function RollbackText(s: Store, h: Host): Raw {
    var previous := s.durable.Slot(Other(s.slot));
    if previous.parsed.None? then EMPTY_RAW
    else Print(WithRevision(previous.parsed.value, s.revision + 1), h.sizeOf)
  }

  ghost function AfterRollback(s: Store, env: OpEnv, h: Host): Outcome {
    if !env.locked || !s.ready then Fails(s, NotReady)
    else if s.revision == UINT32_LIMIT - 1 then Fails(s, RevisionExhausted)
    else if StoredRevision(s.durable.Slot(Other(s.slot))).None? then Fails(s, PreviousMissing)
    else
      match Sized(RollbackText(s, h))
      case Rejected(error) => Fails(s, error)
      case Accepted(text) => JudgeAndCommit(s, text, s.revision + 1, env, h, RolledBack)
  }

  /** The last branch of `begin`: the default document goes into slot 0. */
  ghost function AfterDefaults(s: Store, env: BootEnv, sizeOf: Json -> nat): Boot {
    var d := s.durable;
    var text := Print(DefaultDocument(), sizeOf);
    var torn := d.WithSlot(0, env.write.torn);
    var written := d.WithSlot(0, env.write.stored);
    if env.write.reported != text.length || StoredRevision(env.write.stored) != Some(0) || !env.pointerOk then
      Boot(s.(durable := written, ready := false, last := DefaultsFailed), [torn, written], false)
    else
      var pointed := written.(pointer := 0);
      var cleared := if env.removeOk then pointed.WithSlot(1, EMPTY_RAW) else pointed;
      Boot(Store(cleared, true, 0, env.write.stored, 0, false, DefaultsCreated),
           [torn, written, pointed, cleared], true)
  }

  ghost function AfterBegin(s: Store, env: BootEnv, sizeOf: Json -> nat): Boot {
    var d := s.durable;
    var fallback := Other(d.pointer);
    if !env.locked then Boot(s, [], false)
    else if !env.openOk then Boot(s.(ready := false, last := NvsOpenFailed), [], false)
    else if d.pointer <= 1 && StoredRevision(d.Active()).Some? then
      Boot(Store(d, true, d.pointer, d.Active(), StoredRevision(d.Active()).value, false, Loaded), [], true)
    else if StoredRevision(d.Slot(fallback)).Some? then
      var moved := d.(pointer := fallback);
      if !env.pointerOk then Boot(s.(ready := false, last := RecoveryPointerWriteFailed), [], false)
      else Boot(Store(moved, true, fallback, d.Slot(fallback), StoredRevision(d.Slot(fallback)).value, true, Recovered),
                [moved], true)
    else AfterDefaults(s, env, sizeOf)
  }

  // ---- The storage and the store ---------------------------------------------

  /** The NVS namespace; the ghost history is every durable state it has been in. */
  class Nvs {
    var pointer: nat
    var slot0: Raw
    var slot1: Raw
    ghost var history: seq<Durable>

    ghost function Contents(): Durable
      reads this
    {
      Durable(pointer, slot0, slot1)
    }

    constructor (pointer: nat, slot0: Raw, slot1: Raw)
      ensures Contents() == Durable(pointer, slot0, slot1) && history == []
    {
      this.pointer, this.slot0, this.slot1 := pointer, slot0, slot1;
      history := [];
    }

    method GetString(slot: nat) returns (raw: Raw)
      ensures raw == Contents().Slot(slot)
    {
      raw := if slot == 0 then slot0 else slot1;
    }

    method PutString(slot: nat, w: WriteOutcome) returns (length: nat)
      modifies this
      ensures Contents() == old(Contents()).WithSlot(slot, w.stored)
      ensures history == old(history) + [old(Contents()).WithSlot(slot, w.torn), Contents()]
      ensures length == w.reported
    {
      if slot == 0 { slot0 := w.torn; } else { slot1 := w.torn; }
      history := history + [Contents()];
      if slot == 0 { slot0 := w.stored; } else { slot1 := w.stored; }
      history := history + [Contents()];
      return w.reported;
    }

    method PutPointer(value: nat, persisted: bool) returns (length: nat)
      modifies this
      ensures length == if persisted then 1 else 0
      ensures Contents() == if persisted then old(Contents()).(pointer := value) else old(Contents())
      ensures history == if persisted then old(history) + [Contents()] else old(history)
    {
      if persisted {
        pointer := value;
        history := history + [Contents()];
        return 1;
      }
      return 0;
    }

    method Remove(slot: nat, removed: bool)
      modifies this
      ensures Contents() == if removed then old(Contents()).WithSlot(slot, EMPTY_RAW) else old(Contents())
      ensures history == old(history) + [Contents()]
    {
      if removed {
        if slot == 0 { slot0 := EMPTY_RAW; } else { slot1 := EMPTY_RAW; }
      }
      history := history + [Contents()];
    }
  }

  method ParseStored(raw: Raw) returns (revision: Option<nat>)
    ensures revision == StoredRevision(raw)
  {
    if raw.length == 0 || raw.length > MAX_CONFIG_JSON_BYTES {
      return None;
    }
    if raw.parsed.None? {
      return None;
    }
    var error := ValidateDocument(raw.parsed.value, true);
    if error.Some? {
      return None;
    }
    return Some(raw.parsed.value.Member("revision").i);
  }

  method CanonicalizeCandidate(raw: Raw, revision: nat, sizeOf: Json -> nat) returns (candidate: Candidate)
    ensures candidate == Canonical(raw, revision, sizeOf)
  {
    if raw.length == 0 || raw.length > MAX_CONFIG_JSON_BYTES {
      return Rejected(SizeInvalid);
    }
    if raw.parsed.None? {
      return Rejected(JsonInvalid);
    }
    var error := ValidateDocument(raw.parsed.value, false);
    if error.Some? {
      return Rejected(error.value);
    }
    var document := WithMember(raw.parsed.value, "schema", Integer(SCHEMA_VERSION));
    document := WithRevision(document, revision);
    var text := Print(document, sizeOf);
    if text.length == 0 || text.length > MAX_CONFIG_JSON_BYTES {
      return Rejected(SizeInvalid);
    }
    return Accepted(text);
  }

  class ConfigurationStore {
    const nvs: Nvs
    const sizeOf: Json -> nat
    var validator: Option<Raw -> bool>
    var activates: bool  // whether an activation callback is installed
    var ready: bool
    var slot: nat
    var raw: Raw
    var revision: nat
    var recovered: bool
    var last: Status

    ghost function Snapshot(): Store
      reads this, nvs
    {
      Store(nvs.Contents(), ready, slot, raw, revision, recovered, last)
    }

    ghost function Surroundings(): Host
      reads this
    {
      Host(sizeOf, validator)
    }

    constructor (nvs: Nvs, sizeOf: Json -> nat)
      ensures this.nvs == nvs && this.sizeOf == sizeOf && validator == None && !activates
      ensures Snapshot() == PowerOn(nvs.Contents())
    {
      this.nvs, this.sizeOf, validator, activates := nvs, sizeOf, None, false;
      ready, slot, raw, revision, recovered, last := false, 0, EMPTY_RAW, 0, false, Never;
    }

    /** Both callbacks are replaced, unless the lock times out. */
    method SetLifecycleCallbacks(validator: Option<Raw -> bool>, activates: bool, locked: bool)
      modifies this`validator, this`activates
      ensures Snapshot() == old(Snapshot())
      ensures this.validator == if locked then validator else old(this.validator)
      ensures this.activates == if locked then activates else old(this.activates)
    {
      if !locked {
        return;
      }
      this.validator, this.activates := validator, activates;
    }

    method LoadSlot(slot: nat) returns (raw: Raw, revision: Option<nat>)
      ensures raw == nvs.Contents().Slot(slot) && revision == StoredRevision(raw)
    {
      raw := nvs.GetString(slot);
      revision := ParseStored(raw);
    }

    /** Write, then compare validity and revision of what reads back. */
    method PersistSlotVerified(slot: nat, text: Raw, expected: nat, w: WriteOutcome)
      returns (verified: Raw, error: Option<ConfigError>)
      modifies nvs
      ensures nvs.Contents() == old(nvs.Contents()).WithSlot(slot, w.stored)
      ensures nvs.history == old(nvs.history) + [old(nvs.Contents()).WithSlot(slot, w.torn), nvs.Contents()]
      ensures verified == w.stored
      ensures error == if w.reported != text.length then Some(SlotWriteFailed)
                       else if StoredRevision(w.stored) != Some(expected) then Some(SlotVerifyFailed)
                       else None
    {
      verified := w.stored;
      var length := nvs.PutString(slot, w);
      if length != text.length {
        return verified, Some(SlotWriteFailed);
      }
      var readBack, readRevision := LoadSlot(slot);
      verified := readBack;
      if readRevision != Some(expected) {
        return verified, Some(SlotVerifyFailed);
      }
      return verified, None;
    }

    method Begin(env: BootEnv) returns (ok: bool)
      modifies this, nvs
      ensures old(nvs.history) <= nvs.history && validator == old(validator) && activates == old(activates)
      ensures Boot(Snapshot(), nvs.history[|old(nvs.history)|..], ok) == AfterBegin(old(Snapshot()), env, sizeOf)
    {
      if !env.locked {
        return false;
      }
      if !env.openOk {
        ready, last := false, NvsOpenFailed;
        return false;
      }
      var requested := nvs.pointer;
      if requested <= 1 {
        var text, found := LoadSlot(requested);
        if found.Some? {
          slot, raw, revision, ready, recovered, last := requested, text, found.value, true, false, Loaded;
          return true;
        }
      }
      var fallback := Other(requested);
      var text, found := LoadSlot(fallback);
      if found.Some? {
        var length := nvs.PutPointer(fallback, env.pointerOk);
        if length != 1 {
          ready, last := false, RecoveryPointerWriteFailed;
          return false;
        }
        slot, raw, revision, ready, recovered, last := fallback, text, found.value, true, true, Recovered;
        return true;
      }
      ok := CreateDefaults(env);
    }

    /** The default document goes into slot 0, and the other slot is cleared. */
    method CreateDefaults(env: BootEnv) returns (ok: bool)
      modifies this, nvs
      ensures old(nvs.history) <= nvs.history && validator == old(validator) && activates == old(activates)
      ensures Boot(Snapshot(), nvs.history[|old(nvs.history)|..], ok) == AfterDefaults(old(Snapshot()), env, sizeOf)
    {
      var verified, error := PersistSlotVerified(0, Print(DefaultDocument(), sizeOf), 0, env.write);
      if error.Some? {
        ready, last := false, DefaultsFailed;
        return false;
      }
      var length := nvs.PutPointer(0, env.pointerOk);
      if length != 1 {
        ready, last := false, DefaultsFailed;
        return false;
      }
      nvs.Remove(1, env.removeOk);
      slot, raw, revision, ready, recovered, last := 0, verified, 0, true, false, DefaultsCreated;
      return true;
    }

    method FinishTransaction(text: Raw, next: nat, env: OpEnv, status: Status)
      returns (error: Option<ConfigError>, activation: Option<Activation>)
      requires ready
      modifies this, nvs
      ensures old(nvs.history) <= nvs.history && validator == old(validator) && activates == old(activates)
      ensures Outcome(Snapshot(), nvs.history[|old(nvs.history)|..], error, activation)
           == JudgeAndCommit(old(Snapshot()), text, next, env, Surroundings(), status)
    {
      activation := None;
      if validator.Some? && !validator.value(text) {
        return Some(SemanticInvalid), None;
      }
      var target := Other(slot);
      var verified: Raw;
      verified, error := PersistSlotVerified(target, text, next, env.write);
      if error.Some? {
        return error, None;
      }
      var length := nvs.PutPointer(target, env.pointerOk);
      if length != 1 {
        return Some(PointerWriteFailed), None;
      }
      slot, raw, revision, recovered, last := target, verified, next, false, status;
      return None, Some(Activation(revision, raw));
    }

    /** The activation, if any, is what the lifecycle callback is called with. */
    method Apply(candidate: Raw, env: OpEnv) returns (error: Option<ConfigError>, activation: Option<Activation>)
      modifies this, nvs
      ensures old(nvs.history) <= nvs.history && validator == old(validator) && activates == old(activates)
      ensures Outcome(Snapshot(), nvs.history[|old(nvs.history)|..], error, activation)
           == AfterApply(old(Snapshot()), candidate, env, Surroundings())
    {
      if !env.locked || !ready {
        return Some(NotReady), None;
      }
      if revision == UINT32_LIMIT - 1 {
        return Some(RevisionExhausted), None;
      }
      var next := revision + 1;
      var canonical := CanonicalizeCandidate(candidate, next, sizeOf);
      if canonical.Rejected? {
        return Some(canonical.error), None;
      }
      error, activation := FinishTransaction(canonical.text, next, env, Applied);
    }

    method Rollback(env: OpEnv) returns (error: Option<ConfigError>, activation: Option<Activation>)
      modifies this, nvs
      ensures old(nvs.history) <= nvs.history && validator == old(validator) && activates == old(activates)
      ensures Outcome(Snapshot(), nvs.history[|old(nvs.history)|..], error, activation)
           == AfterRollback(old(Snapshot()), env, Surroundings())
    {
      if !env.locked || !ready {
        return Some(NotReady), None;
      }
      if revision == UINT32_LIMIT - 1 {
        return Some(RevisionExhausted), None;
      }
      var previous, found := LoadSlot(Other(slot));
      if found.None? {
        return Some(PreviousMissing), None;
      }
      var next := revision + 1;
      var text := Print(WithRevision(previous.parsed.value, next), sizeOf);
      if text.length == 0 || text.length > MAX_CONFIG_JSON_BYTES {
        return Some(SizeInvalid), None;
      }
      error, activation := FinishTransaction(text, next, env, RolledBack);
    }
  }
}

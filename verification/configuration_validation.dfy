// The structural checks of the configuration store: what makes a document a valid
// schema-1 envelope, and the early-return loops that decide it.
module ConfigurationValidation {
  import opened Prelude
  import opened JsonModel
  import opened Identifiers

  const SCHEMA_VERSION: int := 1
  const MAX_RULES: nat := 16
  const MAX_SCHEDULES: nat := 16

  datatype ConfigError =
    | EntryLimit | EntryNotObject | EntryIdInvalid | EntryEnabledInvalid | EntryIdDuplicate
    | RootInvalid | SchemaUnsupported | RevisionMissing | ArraysRequired
    | SizeInvalid | JsonInvalid
    | NotReady | RevisionExhausted | PreviousMissing | SemanticInvalid
    | SlotWriteFailed | SlotVerifyFailed | PointerWriteFailed

  // ---- What a valid document is ----------------------------------------------

  ghost predicate WellFormedEntry(entry: Json) {
    && entry.Object?
    && entry.Member("id").Text? && ValidId(entry.Member("id").s)
    && (entry.Has("enabled") ==> entry.Member("enabled").Bool?)
  }

  ghost predicate WellFormedArray(entries: seq<Json>, limit: nat) {
    && |entries| <= limit
    && (forall i :: 0 <= i < |entries| ==> WellFormedEntry(entries[i]))
    && (forall i, j :: 0 <= j < i < |entries| ==> entries[i].Member("id").s != entries[j].Member("id").s)
  }

  ghost predicate WellFormedDocument(document: Json, requireRevision: bool) {
    && document.Object?
    && document.Member("schema") == Integer(SCHEMA_VERSION)
    && (requireRevision ==> document.Member("revision").IsUInt32())
    && document.Member("rules").List? && WellFormedArray(document.Member("rules").items, MAX_RULES)
    && document.Member("schedules").List? && WellFormedArray(document.Member("schedules").items, MAX_SCHEDULES)
  }

  // ---- What the checks report ------------------------------------------------

  /** The error entry i is rejected with, once the entries before it have passed. */
  ghost function EntryError(entries: seq<Json>, i: nat): Option<ConfigError>
    requires i < |entries|
  {
    if !entries[i].Object? then Some(EntryNotObject)
    else if !(entries[i].Member("id").Text? && ValidId(entries[i].Member("id").s)) then Some(EntryIdInvalid)
    else if entries[i].Has("enabled") && !entries[i].Member("enabled").Bool? then Some(EntryEnabledInvalid)
    else if exists j :: 0 <= j < i && entries[j].Member("id").TextOrEmpty() == entries[i].Member("id").s
      then Some(EntryIdDuplicate)
    else None
  }

  /** The verdict on entries i, i + 1, ...: that of the first entry with an error. */
  ghost function EntriesError(entries: seq<Json>, i: nat): Option<ConfigError>
    requires i <= |entries|
    decreases |entries| - i
  {
    if i == |entries| then None
    else if EntryError(entries, i).Some? then EntryError(entries, i)
    else EntriesError(entries, i + 1)
  }

  ghost function ArrayError(entries: seq<Json>, limit: nat): Option<ConfigError> {
    if |entries| > limit then Some(EntryLimit) else EntriesError(entries, 0)
  }

  ghost function DocumentError(document: Json, requireRevision: bool): Option<ConfigError> {
    if !document.Object? then Some(RootInvalid)
    else if !document.Member("schema").IsUInt32() || document.Member("schema").i != SCHEMA_VERSION then
      Some(SchemaUnsupported)
    else if requireRevision && !document.Member("revision").IsUInt32() then Some(RevisionMissing)
    else if !document.Member("rules").List? || !document.Member("schedules").List? then Some(ArraysRequired)
    else if ArrayError(document.Member("rules").items, MAX_RULES).Some? then
      ArrayError(document.Member("rules").items, MAX_RULES)
    else ArrayError(document.Member("schedules").items, MAX_SCHEDULES)
  }

  // ---- The verdict is exact --------------------------------------------------

  lemma {:induction false} EntriesPass(entries: seq<Json>, i: nat)
    requires i <= |entries|
    ensures EntriesError(entries, i) == None <==> forall k :: i <= k < |entries| ==> EntryError(entries, k) == None
    decreases |entries| - i
  {
    if i < |entries| {
      EntriesPass(entries, i + 1);
    }
  }

  /** The nested loops accept exactly the well-formed arrays. */
  lemma ArrayErrorIsExact(entries: seq<Json>, limit: nat)
    ensures ArrayError(entries, limit) == None <==> WellFormedArray(entries, limit)
  {
    EntriesPass(entries, 0);
    if |entries| <= limit && forall k :: 0 <= k < |entries| ==> EntryError(entries, k) == None {
      assert forall k :: 0 <= k < |entries| ==> EntryError(entries, k) == None && WellFormedEntry(entries[k]);
    }
    if WellFormedArray(entries, limit) {
      assert forall k :: 0 <= k < |entries| ==> WellFormedEntry(entries[k]) && EntryError(entries, k) == None;
    }
  }

  lemma DocumentErrorIsExact(document: Json, requireRevision: bool)
    ensures DocumentError(document, requireRevision) == None <==> WellFormedDocument(document, requireRevision)
  {
    if document.Member("rules").List? && document.Member("schedules").List? {
      ArrayErrorIsExact(document.Member("rules").items, MAX_RULES);
      ArrayErrorIsExact(document.Member("schedules").items, MAX_SCHEDULES);
    }
  }

  // ---- The loops -------------------------------------------------------------

  method ValidateEntryArray(entries: seq<Json>, limit: nat) returns (error: Option<ConfigError>)
    ensures error == ArrayError(entries, limit)
    ensures error == None <==> WellFormedArray(entries, limit)
  {
    ArrayErrorIsExact(entries, limit);
    if |entries| > limit {
      return Some(EntryLimit);
    }
    for i := 0 to |entries|
      invariant EntriesError(entries, 0) == EntriesError(entries, i)
    {
      var entry := entries[i];
      if !entry.Object? {
        return Some(EntryNotObject);
      }
      var idOk := false;
      if entry.Member("id").Text? {
        idOk := CheckId(entry.Member("id").s);
      }
      if !idOk {
        return Some(EntryIdInvalid);
      }
      if entry.Has("enabled") && !entry.Member("enabled").Bool? {
        return Some(EntryEnabledInvalid);
      }
      for j := 0 to i
        invariant forall k :: 0 <= k < j ==> entries[k].Member("id").TextOrEmpty() != entry.Member("id").s
      {
        if entries[j].Member("id").TextOrEmpty() == entry.Member("id").s {
          return Some(EntryIdDuplicate);
        }
      }
    }
    return None;
  }

  method ValidateDocument(document: Json, requireRevision: bool) returns (error: Option<ConfigError>)
    ensures error == DocumentError(document, requireRevision)
    ensures error == None <==> WellFormedDocument(document, requireRevision)
  {
    DocumentErrorIsExact(document, requireRevision);
    if !document.Object? {
      return Some(RootInvalid);
    }
    if !document.Member("schema").IsUInt32() || document.Member("schema").i != SCHEMA_VERSION {
      return Some(SchemaUnsupported);
    }
    if requireRevision && !document.Member("revision").IsUInt32() {
      return Some(RevisionMissing);
    }
    if !document.Member("rules").List? || !document.Member("schedules").List? {
      return Some(ArraysRequired);
    }
    error := ValidateEntryArray(document.Member("rules").items, MAX_RULES);
    if error.Some? {
      return;
    }
    error := ValidateEntryArray(document.Member("schedules").items, MAX_SCHEDULES);
  }
}

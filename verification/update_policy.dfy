// FirmwareUpdatePolicy: whether, from where and how often the device checks for updates.
module UpdatePolicy {
  import opened Prelude
  import opened JsonModel
  import opened Identifiers
  import opened FirmwarePackage
  import opened RemoteUpdate

  const MIN_INTERVAL_SECONDS := 60
  const MAX_INTERVAL_SECONDS := 604800
  const MAX_POLICY_JSON_BYTES := 1024
  const MAX_RESULT_LENGTH := 64

  datatype Policy = Policy(
    schema: nat, revision: nat, enabled: bool, manifestUrl: string, channel: string,
    intervalSeconds: nat, lastCheckEpoch: nat, lastResult: string)

  const DEFAULT_POLICY := Policy(1, 0, false, "", CHANNEL, 21600, 0, "never")

  predicate PlainUrlChar(c: char) {
    ' ' < c && c != 0x7f as char && c != '"' && c != '\\'
  }

  predicate ValidUrl(url: string) {
    url == "" || (ValidManifestUrl(url) && forall i :: 0 <= i < |url| ==> PlainUrlChar(url[i]))
  }

  predicate ResultChar(c: char) {
    IsAlnum(c) || c in "_-.:"
  }

  predicate ValidResult(value: string) {
    1 <= |value| <= MAX_RESULT_LENGTH && forall i :: 0 <= i < |value| ==> ResultChar(value[i])
  }

  predicate ValidPolicy(p: Policy) {
    && p.schema == 1 && p.channel == CHANNEL
    && MIN_INTERVAL_SECONDS <= p.intervalSeconds <= MAX_INTERVAL_SECONDS
    && ValidUrl(p.manifestUrl) && (p.enabled ==> p.manifestUrl != "")
    && ValidResult(p.lastResult)
  }

  /** A policy whose integers are `uint32_t` values. */
  predicate InRange(p: Policy) {
    p.revision < UINT32_LIMIT && p.intervalSeconds < UINT32_LIMIT && p.lastCheckEpoch < UINT32_LIMIT
  }

  /** Seconds in milliseconds, as a 32-bit product. */
  function IntervalMs(seconds: nat): nat {
    (seconds * 1000) % UINT32_LIMIT
  }

  lemma ValidIntervalsDoNotWrap(p: Policy)
    requires ValidPolicy(p)
    ensures IntervalMs(p.intervalSeconds) == p.intervalSeconds * 1000 >= 60000
  {
  }

  // ---- Persistence -----------------------------------------------------------

  function Serialize(p: Policy): Json {
    Object(map[
      "schema" := Integer(p.schema), "revision" := Integer(p.revision), "enabled" := Bool(p.enabled),
      "manifest_url" := Text(p.manifestUrl), "channel" := Text(p.channel),
      "interval_seconds" := Integer(p.intervalSeconds), "last_check_epoch" := Integer(p.lastCheckEpoch),
      "last_result" := Text(p.lastResult)])
  }

  predicate PolicyFields(d: Json) {
    && d.Member("schema").IsUInt32() && d.Member("revision").IsUInt32() && d.Member("enabled").Bool?
    && d.Member("manifest_url").Text? && d.Member("channel").Text? && d.Member("interval_seconds").IsUInt32()
    && d.Member("last_check_epoch").IsUInt32() && d.Member("last_result").Text?
  }

  function PolicyOf(d: Json): Policy
    requires PolicyFields(d)
  {
    Policy(d.Member("schema").i, d.Member("revision").i, d.Member("enabled").b, d.Member("manifest_url").s,
           d.Member("channel").s, d.Member("interval_seconds").i, d.Member("last_check_epoch").i, d.Member("last_result").s)
  }

  function Deserialize(raw: Raw): Option<Policy> {
    if raw.length == 0 || raw.length > MAX_POLICY_JSON_BYTES then None
    else if raw.parsed.None? || !PolicyFields(raw.parsed.value) then None
    else if !ValidPolicy(PolicyOf(raw.parsed.value)) then None
    else Some(PolicyOf(raw.parsed.value))
  }

  /** RAM and flash. */
  datatype PolicyStore = PolicyStore(policy: Policy, ready: bool, flash: Raw)

  /** One `putString`: what the key holds afterwards and the length reported. */
  datatype Put = Put(stored: Raw, reported: nat)

  /** `persistLocked`: whether the candidate became the policy shows in its equality. */
  function AfterPersist(s: PolicyStore, candidate: Policy, put: Put, sizeOf: Json -> nat): PolicyStore {
    var raw := Print(Serialize(candidate), sizeOf);
    if raw.length == 0 || raw.length > MAX_POLICY_JSON_BYTES then s
    else if put.reported != raw.length then s.(flash := put.stored)
    else s.(flash := put.stored, policy := candidate)
  }

  /** Whether it succeeds: the text has a legal length, which the write reports. */
  predicate Persists(candidate: Policy, put: Put, sizeOf: Json -> nat) {
    var raw := Print(Serialize(candidate), sizeOf);
    0 < raw.length <= MAX_POLICY_JSON_BYTES && put.reported == raw.length
  }

  /** `begin` after a reset. */
  function AfterBeginPolicy(s: PolicyStore, openOk: bool): PolicyStore {
    if !openOk then s.(ready := false)
    else if s.flash.length == 0 then s.(policy := DEFAULT_POLICY, ready := true)
    else if Deserialize(s.flash).None? then
      s.(policy := DEFAULT_POLICY.(lastResult := "policy_invalid_defaults"), ready := true)
    else s.(policy := Deserialize(s.flash).value, ready := true)
  }

  function AfterRecord(s: PolicyStore, result: string, put: Put, sizeOf: Json -> nat): PolicyStore {
    if !ValidResult(result) || !s.ready then s
    else AfterPersist(s, s.policy.(lastResult := result), put, sizeOf)
  }

  function LowerChar(c: char): char {
    if 'A' <= c <= 'Z' then c - 'A' + 'a' else c
  }

  function Lower(s: string): string {
    if s == "" then "" else [LowerChar(s[0])] + Lower(s[1..])
  }

  function ParseEnabled(value: string): Option<bool> {
    var normalized := Lower(Trim(value));
    if normalized in ["1", "true", "on"] then Some(true)
    else if normalized in ["0", "false", "off"] then Some(false)
    else None
  }

  /** The form fields of a policy update; interval is what `toInt` makes of its field. */
  datatype Request = Request(enabled: string, manifestUrl: string, interval: int, channel: Option<string>)

  function Requested(p: Policy, q: Request, enabled: bool): Policy {
    p.(revision := Inc32(p.revision), enabled := enabled, manifestUrl := Trim(q.manifestUrl),
       channel := if q.channel.Some? then Trim(q.channel.value) else CHANNEL,
       intervalSeconds := q.interval % UINT32_LIMIT, lastResult := "policy_updated")
  }

  function AfterUpdate(s: PolicyStore, q: Request, put: Put, sizeOf: Json -> nat): PolicyStore {
    var enabled := ParseEnabled(q.enabled);
    if enabled.None? || !s.ready then s
    else if !ValidPolicy(Requested(s.policy, q, enabled.value)) then s
    else AfterPersist(s, Requested(s.policy, q, enabled.value), put, sizeOf)
  }

  /** Whether an update succeeds: the store is ready, the request is valid, and it persists. */
  predicate TakesEffect(s: PolicyStore, q: Request, put: Put, sizeOf: Json -> nat) {
    var enabled := ParseEnabled(q.enabled);
    && enabled.Some? && s.ready && ValidPolicy(Requested(s.policy, q, enabled.value))
    && Persists(Requested(s.policy, q, enabled.value), put, sizeOf)
  }

  /** What the scheduler reads. */
  datatype Config = Config(enabled: bool, manifestUrl: string, intervalSeconds: nat, revision: nat)

  function ConfigOf(p: Policy): Config {
    Config(p.enabled, p.manifestUrl, p.intervalSeconds, p.revision)
  }

  /** `automaticCheckConfig`; None when the policy is not readable. */
  function ReadConfig(s: PolicyStore, locked: bool): Option<Config> {
    if !locked || !s.ready then None
    else if s.policy.enabled && s.policy.manifestUrl == "" then None
    else Some(ConfigOf(s.policy))
  }

  // ---- What every step keeps -------------------------------------------------

  datatype PolicyStep =
    | BeginPolicy(openOk: bool)
    | Record(result: string, put: Put)
    | Update(q: Request, put: Put)

  function AfterPolicyStep(s: PolicyStore, step: PolicyStep, sizeOf: Json -> nat): PolicyStore {
    match step
    case BeginPolicy(openOk) => AfterBeginPolicy(s, openOk)
    case Record(result, put) => AfterRecord(s, result, put, sizeOf)
    case Update(q, put) => AfterUpdate(s, q, put, sizeOf)
  }

  function AfterPolicyRun(s: PolicyStore, steps: seq<PolicyStep>, sizeOf: Json -> nat): PolicyStore {
    if steps == [] then s
    else AfterPolicyStep(AfterPolicyRun(s, steps[..|steps| - 1], sizeOf), steps[|steps| - 1], sizeOf)
  }

  ghost predicate PolicySound(s: PolicyStore) {
    s.ready ==> ValidPolicy(s.policy) && InRange(s.policy)
  }

  /** A persisted policy loads as itself. */
  lemma PolicyRoundTrip(p: Policy, sizeOf: Json -> nat)
    requires ValidPolicy(p) && InRange(p)
    ensures var raw := Print(Serialize(p), sizeOf);
      Deserialize(raw) == if 0 < raw.length <= MAX_POLICY_JSON_BYTES then Some(p) else None
  {
    var d := Serialize(p);
    assert d.Member("schema") == Integer(1) && d.Member("revision") == Integer(p.revision);
    assert d.Member("enabled") == Bool(p.enabled) && d.Member("manifest_url") == Text(p.manifestUrl);
    assert d.Member("channel") == Text(p.channel) && d.Member("interval_seconds") == Integer(p.intervalSeconds);
    assert d.Member("last_check_epoch") == Integer(p.lastCheckEpoch) && d.Member("last_result") == Text(p.lastResult);
  }

  lemma DeserializedInRange(raw: Raw)
    requires Deserialize(raw).Some?
    ensures ValidPolicy(Deserialize(raw).value) && InRange(Deserialize(raw).value)
  {
  }

  lemma DefaultsAreValid()
    ensures ValidPolicy(DEFAULT_POLICY) && ValidPolicy(DEFAULT_POLICY.(lastResult := "policy_invalid_defaults"))
    ensures ValidResult("policy_updated")
  {
  }

  lemma PolicyStepKeeps(s: PolicyStore, step: PolicyStep, sizeOf: Json -> nat)
    requires PolicySound(s)
    ensures PolicySound(AfterPolicyStep(s, step, sizeOf))
  {
    DefaultsAreValid();
    if step.BeginPolicy? && Deserialize(s.flash).Some? {
      DeserializedInRange(s.flash);
    }
  }

  /** Every policy that is ever in force is valid, whatever flash contained at the start and
      whatever its writes do, so its interval is 60 to 604800 seconds. */
  lemma {:induction false} RunsKeepPolicyValid(s: PolicyStore, steps: seq<PolicyStep>, sizeOf: Json -> nat)
    requires PolicySound(s)
    ensures PolicySound(AfterPolicyRun(s, steps, sizeOf))
  {
    if steps != [] {
      RunsKeepPolicyValid(s, steps[..|steps| - 1], sizeOf);
      PolicyStepKeeps(AfterPolicyRun(s, steps[..|steps| - 1], sizeOf), steps[|steps| - 1], sizeOf);
    }
  }

  /** An update either changes nothing in force or moves the revision on by one; a recorded
      result changes nothing the scheduler reads. */
  lemma UpdateMovesRevision(s: PolicyStore, q: Request, put: Put, sizeOf: Json -> nat)
    ensures var s' := AfterUpdate(s, q, put, sizeOf);
      || s'.policy == s.policy
      || (s.ready && ValidPolicy(s'.policy) && s'.policy.revision == Inc32(s.policy.revision))
  {
  }

  /** The policy in force changes exactly when the update succeeds, and then to the one
      requested. */
  lemma UpdateChangesIff(s: PolicyStore, q: Request, put: Put, sizeOf: Json -> nat)
    ensures var s' := AfterUpdate(s, q, put, sizeOf);
      && (s'.policy != s.policy <==> TakesEffect(s, q, put, sizeOf))
      && (TakesEffect(s, q, put, sizeOf) ==> s'.policy == Requested(s.policy, q, ParseEnabled(q.enabled).value))
  {
  }

  lemma RecordKeepsConfig(s: PolicyStore, result: string, put: Put, sizeOf: Json -> nat, locked: bool)
    ensures ReadConfig(AfterRecord(s, result, put, sizeOf), locked) == ReadConfig(s, locked)
  {
  }

  /** What an update or a result put in force survives a restart, on flash that keeps what
      it is given. */
  lemma PolicySurvivesRestart(s: PolicyStore, candidate: Policy, put: Put, sizeOf: Json -> nat)
    requires ValidPolicy(candidate) && InRange(candidate) && put.stored == Print(Serialize(candidate), sizeOf)
    requires put.reported == put.stored.length && 0 < put.stored.length <= MAX_POLICY_JSON_BYTES
    ensures AfterPersist(s, candidate, put, sizeOf).policy == candidate
    ensures AfterBeginPolicy(AfterPersist(s, candidate, put, sizeOf), true).policy == candidate
  {
    PolicyRoundTrip(candidate, sizeOf);
  }

  // ---- The class -------------------------------------------------------------

  method CheckUrl(url: string) returns (ok: bool)
    ensures ok <==> ValidUrl(url)
  {
    if |url| == 0 {
      return true;
    }
    if |url| < MIN_URL_LENGTH || |url| > MAX_URL_LENGTH {
      return false;
    }
    if !(SECURE_PREFIX <= url) || !EndsWith(url, MANIFEST_SUFFIX) {
      return false;
    }
    for i := 0 to |url|
      invariant forall k :: 0 <= k < i ==> PlainUrlChar(url[k])
    {
      if !PlainUrlChar(url[i]) {
        return false;
      }
    }
    return true;
  }

  method CheckResult(value: string) returns (ok: bool)
    ensures ok <==> ValidResult(value)
  {
    if |value| == 0 || |value| > MAX_RESULT_LENGTH {
      return false;
    }
    for i := 0 to |value|
      invariant forall k :: 0 <= k < i ==> ResultChar(value[k])
    {
      if !ResultChar(value[i]) {
        return false;
      }
    }
    return true;
  }

  method CheckPolicy(p: Policy) returns (ok: bool)
    ensures ok <==> ValidPolicy(p)
  {
    if p.schema != 1 || p.channel != CHANNEL {
      return false;
    }
    if p.intervalSeconds < MIN_INTERVAL_SECONDS || p.intervalSeconds > MAX_INTERVAL_SECONDS {
      return false;
    }
    var urlOk := CheckUrl(p.manifestUrl);
    if !urlOk || (p.enabled && |p.manifestUrl| == 0) {
      return false;
    }
    ok := CheckResult(p.lastResult);
  }

  class PolicyService {
    const sizeOf: Json -> nat
    var policy: Policy
    var ready: bool
    var flash: Raw

    ghost function Snapshot(): PolicyStore
      reads this
    {
      PolicyStore(policy, ready, flash)
    }

    constructor (sizeOf: Json -> nat, flash: Raw)
      ensures this.sizeOf == sizeOf && Snapshot() == PolicyStore(DEFAULT_POLICY, false, flash)
    {
      this.sizeOf, policy, ready, this.flash := sizeOf, DEFAULT_POLICY, false, flash;
    }

    method BeginService(openOk: bool) returns (ok: bool)
      modifies this
      ensures Snapshot() == AfterBeginPolicy(old(Snapshot()), openOk) && ok == openOk
    {
      if !openOk {
        ready := false;
        return false;
      }
      if flash.length == 0 {
        policy, ready := DEFAULT_POLICY, true;
        return true;
      }
      var loaded := Load(flash);
      if loaded.None? {
        policy, ready := DEFAULT_POLICY.(lastResult := "policy_invalid_defaults"), true;
        return true;
      }
      policy, ready := loaded.value, true;
      return true;
    }

    method Load(raw: Raw) returns (loaded: Option<Policy>)
      ensures loaded == Deserialize(raw)
    {
      if raw.length == 0 || raw.length > MAX_POLICY_JSON_BYTES {
        return None;
      }
      if raw.parsed.None? || !PolicyFields(raw.parsed.value) {
        return None;
      }
      var candidate := PolicyOf(raw.parsed.value);
      var valid := CheckPolicy(candidate);
      return if valid then Some(candidate) else None;
    }

    method Persist(candidate: Policy, put: Put) returns (ok: bool)
      modifies this
      ensures Snapshot() == AfterPersist(old(Snapshot()), candidate, put, sizeOf)
      ensures ok == Persists(candidate, put, sizeOf)
    {
      var raw := Print(Serialize(candidate), sizeOf);
      if raw.length == 0 || raw.length > MAX_POLICY_JSON_BYTES {
        return false;
      }
      flash := put.stored;
      if put.reported != raw.length {
        return false;
      }
      policy := candidate;
      return true;
    }

    method RecordResult(result: string, put: Put) returns (ok: bool)
      modifies this
      ensures Snapshot() == AfterRecord(old(Snapshot()), result, put, sizeOf)
      ensures ok == (ValidResult(result) && old(ready) && Persists(old(policy).(lastResult := result), put, sizeOf))
    {
      var resultOk := CheckResult(result);
      if !resultOk || !ready {
        return false;
      }
      ok := Persist(policy.(lastResult := result), put);
    }

    method UpdatePolicy(q: Request, put: Put) returns (ok: bool)
      modifies this
      ensures Snapshot() == AfterUpdate(old(Snapshot()), q, put, sizeOf)
      ensures ok == TakesEffect(old(Snapshot()), q, put, sizeOf)
    {
      var enabled := ParseEnabled(q.enabled);
      if enabled.None? || !ready {
        return false;
      }
      var candidate := Requested(policy, q, enabled.value);
      var valid := CheckPolicy(candidate);
      if !valid {
        return false;
      }
      ok := Persist(candidate, put);
    }

    method AutomaticCheckConfig(locked: bool) returns (config: Option<Config>)
      ensures config == ReadConfig(Snapshot(), locked)
    {
      if !locked || !ready {
        return None;
      }
      if policy.enabled && |policy.manifestUrl| == 0 {
        return None;
      }
      return Some(Config(policy.enabled, policy.manifestUrl, policy.intervalSeconds, policy.revision));
    }
  }
}

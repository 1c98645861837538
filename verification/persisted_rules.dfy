// Rules::PersistedRuleLoader: reads the single executable rule of a configuration document
// and makes it the running rule.
module PersistedRules {
  import opened Prelude
  import opened JsonModel
  import opened Identifiers
  import opened FaultPolicy
  import opened Rules
  import opened RuleExecution

  const INPUT_ID := "virtual.temperature"
  const OUTPUT_ID := "virtual.heater"

  datatype LoaderError =
    | ConfigJsonInvalid | DocumentInvalid | MultipleNotSupported | TypeUnsupported | InputUnsupported
    | OutputUnsupported | OnBelowInvalid | OffAboveInvalid | EnabledInvalid | PolicyInvalid
    | PolicyUnsupported | BandInvalid | RuleIdInvalid | RevisionMismatch | Unconfigurable(cause: RuleError)

  /** The parse of a document: an error, no rule at all, or one rule with its fault policy. */
  datatype Parsed =
    | ParseFailed(error: LoaderError)
    | NoRule(revision: nat)
    | OneRule(revision: nat, rule: Rule, policy: Policy)

  function RuleOf(entry: Json): Rule
    requires entry.Member("on_below").IsNumber() && entry.Member("off_above").IsNumber()
  {
    Rule(entry.Member("id").TextOrEmpty(), entry.Member("enabled").BoolOr(true),
         entry.Member("on_below").AsFloat(), entry.Member("off_above").AsFloat())
  }

  /** The policy named by an entry; SAFE_OFF when it names none. */
  function PolicyOf(entry: Json): Option<Policy> {
    if !entry.Has("fault_policy") then Some(SafeOff)
    else if !entry.Member("fault_policy").Text? then None
    else ParsePolicy(entry.Member("fault_policy").s)
  }

  function ParseEntry(entry: Json, revision: nat): Parsed {
    if entry.Member("type").TextOrEmpty() != "hysteresis" then ParseFailed(TypeUnsupported)
    else if entry.Member("input").TextOrEmpty() != INPUT_ID then ParseFailed(InputUnsupported)
    else if entry.Member("output").TextOrEmpty() != OUTPUT_ID then ParseFailed(OutputUnsupported)
    else if !entry.Member("on_below").IsNumber() then ParseFailed(OnBelowInvalid)
    else if !entry.Member("off_above").IsNumber() then ParseFailed(OffAboveInvalid)
    else if entry.Has("enabled") && !entry.Member("enabled").Bool? then ParseFailed(EnabledInvalid)
    else if entry.Has("fault_policy") && !entry.Member("fault_policy").Text? then ParseFailed(PolicyInvalid)
    else if PolicyOf(entry).None? then ParseFailed(PolicyUnsupported)
    else if !Banded(RuleOf(entry)) then ParseFailed(BandInvalid)
    else if !ValidId(RuleOf(entry).id) then ParseFailed(RuleIdInvalid)
    else OneRule(revision, RuleOf(entry), PolicyOf(entry).value)
  }

  function ParseRules(raw: Raw): Parsed {
    if raw.parsed.None? then ParseFailed(ConfigJsonInvalid)
    else if !raw.parsed.value.Member("revision").IsUInt32() || !raw.parsed.value.Member("rules").List? then
      ParseFailed(DocumentInvalid)
    else
      var revision, rules := raw.parsed.value.Member("revision").i, raw.parsed.value.Member("rules").items;
      if rules == [] then NoRule(revision)
      else if |rules| > 1 then ParseFailed(MultipleNotSupported)
      else ParseEntry(rules[0], revision)
  }

  datatype Loader = Loader(revision: nat, ruleId: string, policy: Policy)

  const NEW_LOADER := Loader(0, "", SafeOff)

  datatype Activated = Activated(loop: Loop, loader: Loader, error: Option<LoaderError>)

  function WithPolicy(l: Loop, policy: Policy): Loop {
    l.(runtime := AfterPolicy(l.runtime, policy, l.engine.Enabled(), l.input.health.state))
  }

  /** `applyParsed` */
  function AppliedParsed(l: Loop, loader: Loader, parsed: Parsed): Activated {
    match parsed
    case ParseFailed(error) => Activated(l, loader, Some(error))
    case NoRule(revision) =>
      Activated(Refreshed(WithPolicy(l.(engine := CLEARED_ENGINE), SafeOff)), Loader(revision, "", SafeOff), None)
    case OneRule(revision, rule, policy) =>
      if ConfigureError(rule).Some? then Activated(l, loader, Some(Unconfigurable(ConfigureError(rule).value)))
      else
        Activated(Requested(Refreshed(WithPolicy(l.(engine := AfterConfigure(l.engine, rule)), policy))),
                  Loader(revision, rule.id, policy), None)
  }

  /** `activateDocument` */
  function AfterActivate(l: Loop, loader: Loader, raw: Raw, revision: nat): Activated {
    var parsed := ParseRules(raw);
    if parsed.ParseFailed? then Activated(l, loader.(revision := revision), Some(parsed.error))
    else if parsed.revision != revision then
      Activated(l, loader.(revision := revision), Some(RevisionMismatch))
    else AppliedParsed(l, loader, parsed)
  }

  /** The parse checks of the loader imply the checks of the engine, so a document the
      loader accepts always configures. */
  lemma ParsedRulesConfigure(raw: Raw)
    ensures ParseRules(raw).OneRule? ==>
      ConfigureError(ParseRules(raw).rule) == None && Banded(ParseRules(raw).rule)
  {
    if ParseRules(raw).OneRule? {
      assert ParseRules(raw) == ParseEntry(raw.parsed.value.Member("rules").items[0], ParseRules(raw).revision);
    }
  }

  // ---- What a document says ---------------------------------------------------

  /** The member is a number, and this is its value. */
  ghost predicate Means(member: Json, value: Float) {
    (member.Integer? && value == Finite(member.i as real)) || (member.Decimal? && value == member.f)
  }

  /** The entry is a hysteresis rule from the temperature to the heater, with this id, these
      thresholds with a band between them, enabled unless it says otherwise, and this fault
      policy, SAFE_OFF unless it names another. */
  ghost predicate Says(entry: Json, rule: Rule, policy: Policy) {
    && entry.Member("type") == Text("hysteresis")
    && entry.Member("input") == Text("virtual.temperature") && entry.Member("output") == Text("virtual.heater")
    && entry.Member("id") == Text(rule.id) && ValidId(rule.id)
    && Means(entry.Member("on_below"), rule.onBelow) && Means(entry.Member("off_above"), rule.offAbove)
    && rule.onBelow.Finite? && rule.offAbove.Finite? && rule.onBelow.r < rule.offAbove.r
    && (if entry.Has("enabled") then entry.Member("enabled") == Bool(rule.enabled) else rule.enabled)
    && (if entry.Has("fault_policy") then
          entry.Member("fault_policy").Text?
          && exists i, j :: SpelledAt(entry.Member("fault_policy").s, PolicyName(policy), i, j)
        else policy == SafeOff)
  }

  /** The document has this revision, and these are its rules. */
  ghost predicate Lists(raw: Raw, revision: nat, rules: seq<Json>) {
    && raw.parsed.Some? && raw.parsed.value.Member("revision") == Integer(revision) && revision < UINT32_LIMIT
    && raw.parsed.value.Member("rules") == List(rules)
  }

  lemma EntrySays(entry: Json, revision: nat, rule: Rule, policy: Policy)
    ensures ParseEntry(entry, revision) == OneRule(revision, rule, policy) <==> Says(entry, rule, policy)
  {
    if entry.Has("fault_policy") && entry.Member("fault_policy").Text? {
      ParseIsExact(entry.Member("fault_policy").s, policy);
    }
  }

  /** The loader finds exactly the rule and the policy the document says, and none exactly when
      the document lists none. */
  lemma ParseFindsWhatIsSaid(raw: Raw, revision: nat, rule: Rule, policy: Policy)
    ensures ParseRules(raw) == OneRule(revision, rule, policy)
      <==> exists entry :: Lists(raw, revision, [entry]) && Says(entry, rule, policy)
    ensures ParseRules(raw) == NoRule(revision) <==> Lists(raw, revision, [])
  {
    if raw.parsed.Some? && raw.parsed.value.Member("rules").List? && |raw.parsed.value.Member("rules").items| == 1 {
      var rules := raw.parsed.value.Member("rules").items;
      assert rules == [rules[0]];
      EntrySays(rules[0], revision, rule, policy);
      forall entry | Lists(raw, revision, [entry])
        ensures entry == rules[0]
      {
        assert [entry][0] == rules[0];
      }
    }
  }

  /** A rule and a policy written as an entry, and as a document. */
  function WrittenEntry(rule: Rule, policy: Policy): Json {
    Object(map["id" := Text(rule.id), "enabled" := Bool(rule.enabled), "type" := Text("hysteresis"),
               "input" := Text("virtual.temperature"), "output" := Text("virtual.heater"),
               "on_below" := Decimal(rule.onBelow), "off_above" := Decimal(rule.offAbove),
               "fault_policy" := Text(PolicyName(policy))])
  }

  function Written(rule: Rule, policy: Policy, revision: nat): Json {
    Object(map["schema" := Integer(1), "revision" := Integer(revision),
               "rules" := List([WrittenEntry(rule, policy)]), "schedules" := List([])])
  }

  lemma NameSpellsItself(policy: Policy)
    ensures SpelledAt(PolicyName(policy), PolicyName(policy), 0, |PolicyName(policy)|)
  {
    var name := PolicyName(policy);
    assert name[0..|name|] == name && name[..0] == [] && name[|name|..] == [];
  }

  lemma EntryRoundTrip(rule: Rule, policy: Policy, revision: nat)
    requires ConfigureError(rule) == None
    ensures ParseEntry(WrittenEntry(rule, policy), revision) == OneRule(revision, rule, policy)
  {
    NameSpellsItself(policy);
    WrittenSays(rule, policy);
    EntrySays(WrittenEntry(rule, policy), revision, rule, policy);
  }

  lemma WrittenSays(rule: Rule, policy: Policy)
    requires ConfigureError(rule) == None
    requires SpelledAt(PolicyName(policy), PolicyName(policy), 0, |PolicyName(policy)|)
    ensures Says(WrittenEntry(rule, policy), rule, policy)
  {
    assert WrittenEntry(rule, policy).Member("fault_policy").s == PolicyName(policy);
  }

  /** Every rule the engine takes, under every policy, comes back from the document that
      writes it. */
  lemma RuleRoundTrip(rule: Rule, policy: Policy, revision: nat, length: nat)
    requires ConfigureError(rule) == None && revision < UINT32_LIMIT
    ensures ParseRules(Raw(length, Some(Written(rule, policy, revision)))) == OneRule(revision, rule, policy)
  {
    var rules := Written(rule, policy, revision).Member("rules").items;
    assert rules == [WrittenEntry(rule, policy)];
    EntryRoundTrip(rule, policy, revision);
  }

  /** An activation runs what it parses exactly when the document parses and has the revision
      it is activated as; otherwise the loop stays as it is. */
  lemma ActivatesIff(l: Loop, loader: Loader, raw: Raw, revision: nat)
    ensures var a := AfterActivate(l, loader, raw, revision);
      && (a.error == None <==> !ParseRules(raw).ParseFailed? && ParseRules(raw).revision == revision)
      && (a.error.Some? ==> a.loop == l && a.loader == loader.(revision := revision))
      && a.loader.revision == revision
  {
    ParsedRulesConfigure(raw);
  }

  /** What a parse leaves running: no rule under SAFE_OFF, or its rule under its policy. */
  lemma AppliedRuns(l: Loop, loader: Loader, parsed: Parsed)
    requires !parsed.ParseFailed? && (parsed.OneRule? ==> ConfigureError(parsed.rule) == None)
    ensures var a := AppliedParsed(l, loader, parsed);
      && a.error == None
      && (parsed.NoRule? ==>
            && !a.loop.engine.configured && a.loop.runtime.policy == SafeOff
            && a.loader == Loader(parsed.revision, "", SafeOff))
      && (parsed.OneRule? ==>
            && a.loop.engine.configured && a.loop.engine.rule == parsed.rule && a.loop.runtime.policy == parsed.policy
            && a.loader == Loader(parsed.revision, parsed.rule.id, parsed.policy))
  {
    if parsed.OneRule? {
      var l1 := WithPolicy(l.(engine := AfterConfigure(l.engine, parsed.rule)), parsed.policy);
      assert Refreshed(l1).runtime.policy == l1.runtime.policy && Refreshed(l1).engine == l1.engine;
    }
  }

  method ParseRule(entry: Json, revision: nat) returns (parsed: Parsed)
    ensures parsed == ParseEntry(entry, revision)
  {
    if entry.Member("type").TextOrEmpty() != "hysteresis" {
      return ParseFailed(TypeUnsupported);
    }
    if entry.Member("input").TextOrEmpty() != INPUT_ID {
      return ParseFailed(InputUnsupported);
    }
    if entry.Member("output").TextOrEmpty() != OUTPUT_ID {
      return ParseFailed(OutputUnsupported);
    }
    if !entry.Member("on_below").IsNumber() {
      return ParseFailed(OnBelowInvalid);
    }
    if !entry.Member("off_above").IsNumber() {
      return ParseFailed(OffAboveInvalid);
    }
    if entry.Has("enabled") && !entry.Member("enabled").Bool? {
      return ParseFailed(EnabledInvalid);
    }
    var policy := Some(SafeOff);
    if entry.Has("fault_policy") {
      if !entry.Member("fault_policy").Text? {
        return ParseFailed(PolicyInvalid);
      }
      policy := ParsePolicy(entry.Member("fault_policy").s);
      if policy.None? {
        return ParseFailed(PolicyUnsupported);
      }
    }
    var rule := Rule(entry.Member("id").TextOrEmpty(), entry.Member("enabled").BoolOr(true),
                     entry.Member("on_below").AsFloat(), entry.Member("off_above").AsFloat());
    if !rule.onBelow.Finite? || !rule.offAbove.Finite? || !(rule.onBelow.r < rule.offAbove.r) {
      return ParseFailed(BandInvalid);
    }
    var idOk := CheckId(rule.id);
    if !idOk {
      return ParseFailed(RuleIdInvalid);
    }
    return OneRule(revision, rule, policy.value);
  }

  method ParseDocument(raw: Raw) returns (parsed: Parsed)
    ensures parsed == ParseRules(raw)
  {
    if raw.parsed.None? {
      return ParseFailed(ConfigJsonInvalid);
    }
    var document := raw.parsed.value;
    if !document.Member("revision").IsUInt32() || !document.Member("rules").List? {
      return ParseFailed(DocumentInvalid);
    }
    var rules := document.Member("rules").items;
    if |rules| == 0 {
      return NoRule(document.Member("revision").i);
    }
    if |rules| > 1 {
      return ParseFailed(MultipleNotSupported);
    }
    parsed := ParseRule(rules[0], document.Member("revision").i);
  }

  class PersistedRuleLoader {
    const runtime: RuleRuntime
    var loadedRevision: nat
    var loadedRuleId: string
    var loadedPolicy: Policy

    ghost function Snapshot(): Loader
      reads this
    {
      Loader(loadedRevision, loadedRuleId, loadedPolicy)
    }

    constructor (runtime: RuleRuntime)
      ensures this.runtime == runtime && Snapshot() == NEW_LOADER
    {
      this.runtime := runtime;
      loadedRevision, loadedRuleId, loadedPolicy := 0, "", SafeOff;
    }

    method AdoptPolicy(policy: Policy)
      requires runtime.Valid()
      modifies runtime, runtime.machine
      ensures runtime.Valid() && runtime.Snapshot() == Refreshed(WithPolicy(old(runtime.Snapshot()), policy))
    {
      runtime.SetFaultPolicy(policy);
      assert runtime.Snapshot() == WithPolicy(old(runtime.Snapshot()), policy);
      runtime.RefreshEligibility();
    }

    method ApplyNothing(revision: nat)
      requires runtime.Valid()
      modifies this, runtime, runtime.machine, runtime.engine
      ensures runtime.Valid()
      ensures Activated(runtime.Snapshot(), Snapshot(), None)
           == AppliedParsed(old(runtime.Snapshot()), old(Snapshot()), NoRule(revision))
    {
      runtime.engine.Clear();
      AdoptPolicy(SafeOff);
      loadedRevision, loadedRuleId, loadedPolicy := revision, "", SafeOff;
    }

    method AdoptRule(revision: nat, ruleId: string, policy: Policy)
      requires runtime.Valid()
      modifies this, runtime, runtime.machine
      ensures runtime.Valid() && Snapshot() == Loader(revision, ruleId, policy)
      ensures runtime.Snapshot() == Requested(Refreshed(WithPolicy(old(runtime.Snapshot()), policy)))
    {
      AdoptPolicy(policy);
      var _ := runtime.RequestEvaluation();
      loadedRevision, loadedRuleId, loadedPolicy := revision, ruleId, policy;
    }

    method ApplyRule(revision: nat, rule: Rule, policy: Policy) returns (error: Option<LoaderError>)
      requires runtime.Valid()
      modifies this, runtime, runtime.machine, runtime.engine
      ensures runtime.Valid()
      ensures Activated(runtime.Snapshot(), Snapshot(), error)
           == AppliedParsed(old(runtime.Snapshot()), old(Snapshot()), OneRule(revision, rule, policy))
    {
      var failure := runtime.engine.Configure(rule);
      if failure.Some? {
        return Some(Unconfigurable(failure.value));
      }
      AdoptRule(revision, rule.id, policy);
      return None;
    }

    method ActivateDocument(raw: Raw, revision: nat) returns (error: Option<LoaderError>)
      requires runtime.Valid()
      modifies this, runtime, runtime.machine, runtime.engine
      ensures runtime.Valid()
      ensures Activated(runtime.Snapshot(), Snapshot(), error)
           == AfterActivate(old(runtime.Snapshot()), old(Snapshot()), raw, revision)
    {
      var parsed := ParseDocument(raw);
      if parsed.ParseFailed? {
        loadedRevision := revision;
        return Some(parsed.error);
      }
      if parsed.revision != revision {
        loadedRevision := revision;
        return Some(RevisionMismatch);
      }
      if parsed.NoRule? {
        ApplyNothing(revision);
        return None;
      }
      error := ApplyRule(revision, parsed.rule, parsed.policy);
    }
  }
}

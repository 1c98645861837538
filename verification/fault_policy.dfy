// Rules::ActuatorFaultPolicy: what happens to the output while the input is not healthy.
module FaultPolicy {
  import opened Prelude

  datatype Policy = SafeOff | SafeOn | KeepLastState | DisableRule | AlarmOnly

  datatype Resolution = Resolution(applyDesired: bool, desiredOn: bool, suspendRule: bool, alarmOnly: bool)

  function PolicyName(policy: Policy): string {
    match policy
    case SafeOff => "SAFE_OFF"
    case SafeOn => "SAFE_ON"
    case KeepLastState => "KEEP_LAST_STATE"
    case DisableRule => "DISABLE_RULE"
    case AlarmOnly => "ALARM_ONLY"
  }

  function ParsePolicy(value: string): Option<Policy> {
    var normalized := Upper(Trim(value));
    if normalized == "SAFE_OFF" then Some(SafeOff)
    else if normalized == "SAFE_ON" then Some(SafeOn)
    else if normalized == "KEEP_LAST_STATE" then Some(KeepLastState)
    else if normalized == "DISABLE_RULE" then Some(DisableRule)
    else if normalized == "ALARM_ONLY" then Some(AlarmOnly)
    else None
  }

  function Resolve(policy: Policy, currentOn: bool): Resolution {
    match policy
    case SafeOff => Resolution(true, false, false, false)
    case SafeOn => Resolution(true, true, false, false)
    case KeepLastState => Resolution(false, currentOn, false, false)
    case DisableRule => Resolution(false, currentOn, true, false)
    case AlarmOnly => Resolution(false, currentOn, false, true)
  }

  lemma {:induction false} UpperKeeps(s: string)
    requires forall i :: 0 <= i < |s| ==> UpperChar(s[i]) == s[i]
    ensures Upper(s) == s
  {
    if s != "" {
      UpperKeeps(s[1..]);
    }
  }

  /** Every policy parses from its own name. */
  lemma PolicyNamesParse(policy: Policy)
    ensures ParsePolicy(PolicyName(policy)) == Some(policy)
  {
    UpperKeeps(PolicyName(policy));
    assert Trim(PolicyName(policy)) == PolicyName(policy);
  }

  // ---- What a value has to be to name a policy --------------------------------

  /** The text is the name, letter by letter, in either case. */
  ghost predicate Spells(text: string, name: string) {
    |text| == |name| && forall k :: 0 <= k < |name| ==> SameLetter(text[k], name[k])
  }

  /** The name stands at i to j of the value, with nothing but space before and after. */
  ghost predicate SpelledAt(value: string, name: string, i: nat, j: nat) {
    i <= j <= |value| && Blank(value[..i]) && Blank(value[j..]) && Spells(value[i..j], name)
  }

  lemma {:induction false} UpperAt(s: string, k: nat)
    requires k < |s|
    ensures |Upper(s)| == |s| && Upper(s)[k] == UpperChar(s[k])
  {
    if |s| > 1 {
      UpperAt(s[1..], if k == 0 then 0 else k - 1);
    }
  }

  lemma NamesAreUpper(policy: Policy)
    ensures forall k :: 0 <= k < |PolicyName(policy)| ==> !('a' <= PolicyName(policy)[k] <= 'z')
  {
  }

  lemma UpperSpells(text: string, name: string)
    requires forall k :: 0 <= k < |name| ==> !('a' <= name[k] <= 'z')
    ensures Upper(text) == name <==> Spells(text, name)
  {
    forall k: nat | k < |text|
      ensures |Upper(text)| == |text| && Upper(text)[k] == UpperChar(text[k])
    {
      UpperAt(text, k);
    }
    assert text == "" ==> Upper(text) == "";
    assert text != "" ==> |Upper(text)| == |text| by {
      if text != "" {
        UpperAt(text, 0);
      }
    }
  }

  lemma SpelledIsTrimmed(value: string, policy: Policy, i: nat, j: nat)
    requires SpelledAt(value, PolicyName(policy), i, j)
    ensures Trim(value) == value[i..j]
  {
    var text, name := value[i..j], PolicyName(policy);
    assert SameLetter(text[0], name[0]) && SameLetter(text[|name| - 1], name[|name| - 1]);
    TrimStops(value, i, j);
  }

  /** A value parses to a policy if and only if it is that policy's name, in either case and
      with any space around it. */
  lemma ParseIsExact(value: string, policy: Policy)
    ensures ParsePolicy(value) == Some(policy) <==> exists i, j :: SpelledAt(value, PolicyName(policy), i, j)
  {
    assert ParsePolicy(value) == Some(policy) <==> Upper(Trim(value)) == PolicyName(policy);
    NamesAreUpper(policy);
    UpperSpells(Trim(value), PolicyName(policy));
    if ParsePolicy(value) == Some(policy) {
      var i, j := TrimFinds(value);
      assert SpelledAt(value, PolicyName(policy), i, j);
    }
    forall i: nat, j: nat | SpelledAt(value, PolicyName(policy), i, j)
      ensures Spells(Trim(value), PolicyName(policy))
    {
      SpelledIsTrimmed(value, policy, i, j);
    }
  }
}

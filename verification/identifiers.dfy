// The identifier rule shared by configuration entries, rules and schedules:
// 1 to 48 characters, letters, digits and `_ - . :`.
module Identifiers {

  const MAX_ID_LENGTH := 48

  predicate IsAlnum(c: char) {
    'a' <= c <= 'z' || 'A' <= c <= 'Z' || '0' <= c <= '9'
  }

  predicate IdChar(c: char) {
    IsAlnum(c) || c in "_-.:"
  }

  predicate ValidId(id: string) {
    1 <= |id| <= MAX_ID_LENGTH && forall i :: 0 <= i < |id| ==> IdChar(id[i])
  }

  method CheckId(id: string) returns (ok: bool)
    ensures ok <==> ValidId(id)
  {
    if |id| == 0 || |id| > MAX_ID_LENGTH {
      return false;
    }
    for i := 0 to |id|
      invariant forall k :: 0 <= k < i ==> IdChar(id[k])
    {
      if !IdChar(id[i]) {
        return false;
      }
    }
    return true;
  }
}

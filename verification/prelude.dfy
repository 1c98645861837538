// Small values shared by every module: options, 32-bit counters, C-style
// string helpers and the two-valued view of a float.
module Prelude {

  datatype Option<+T> = None | Some(value: T)

  const UINT32_LIMIT: nat := 0x1_0000_0000

  /** A `uint32_t` counter after `++`. */
  function Inc32(x: nat): nat {
    (x + 1) % UINT32_LIMIT
  }

  /** A counter that was incremented n times from 0 shows n modulo 2^32. */
  lemma Inc32Counts(n: nat)
    ensures Inc32(n % UINT32_LIMIT) == (n + 1) % UINT32_LIMIT
  {
  }

  /** A float is either a finite real or one of the values `isfinite` refuses. */
  datatype Float = Finite(r: real) | NonFinite

  predicate IsSpace(c: char) {
    c == ' ' || '\t' <= c <= '\r'
  }

  /** Arduino `String::trim`. */
  function Trim(s: string): string {
    if s != "" && IsSpace(s[0]) then Trim(s[1..])
    else if s != "" && IsSpace(s[|s| - 1]) then Trim(s[..|s| - 1])
    else s
  }

  function UpperChar(c: char): char {
    if 'a' <= c <= 'z' then c - 'a' + 'A' else c
  }

  /** Arduino `String::toUpperCase`. */
  function Upper(s: string): string {
    if s == "" then "" else [UpperChar(s[0])] + Upper(s[1..])
  }

  /** The same letter, in either case, or the same character. */
  ghost predicate SameLetter(c: char, d: char) {
    c == d || ('A' <= c <= 'Z' && d == c - 'A' + 'a') || ('a' <= c <= 'z' && d == c - 'a' + 'A')
  }

  ghost predicate Blank(s: string) {
    forall k :: 0 <= k < |s| ==> IsSpace(s[k])
  }

  /** Trimming takes space off both ends. */
  lemma {:induction false} TrimFinds(value: string) returns (i: nat, j: nat)
    ensures i <= j <= |value| && Trim(value) == value[i..j] && Blank(value[..i]) && Blank(value[j..])
    decreases |value|
  {
    i, j := 0, |value|;
    if value != "" && IsSpace(value[0]) {
      var rest := value[1..];
      i, j := TrimFinds(rest);
      assert value[i + 1..j + 1] == rest[i..j] && value[j + 1..] == rest[j..] && value[..i + 1] == [value[0]] + rest[..i];
      i, j := i + 1, j + 1;
    } else if value != "" && IsSpace(value[|value| - 1]) {
      var rest := value[..|value| - 1];
      i, j := TrimFinds(rest);
      assert value[i..j] == rest[i..j] && value[..i] == rest[..i] && value[j..] == rest[j..] + [value[|value| - 1]];
    }
  }

  /** It stops at the first and the last character that are not space. */
  lemma {:induction false} TrimStops(value: string, i: nat, j: nat)
    requires i < j <= |value| && !IsSpace(value[i]) && !IsSpace(value[j - 1])
    requires Blank(value[..i]) && Blank(value[j..])
    ensures Trim(value) == value[i..j]
    decreases |value|
  {
    if i > 0 {
      var rest := value[1..];
      assert IsSpace(value[..i][0]);
      assert rest[i - 1..j - 1] == value[i..j] && rest[..i - 1] == value[..i][1..] && rest[j - 1..] == value[j..];
      TrimStops(rest, i - 1, j - 1);
    } else if j < |value| {
      var rest := value[..|value| - 1];
      assert IsSpace(value[j..][|value| - 1 - j]);
      assert rest[i..j] == value[i..j] && rest[..i] == value[..i] && rest[j..] == value[j..][..|value| - 1 - j];
      TrimStops(rest, i, j);
    } else {
      assert value[i..j] == value;
    }
  }

  lemma {:induction false} BlankTrims(s: string)
    requires Blank(s)
    ensures Trim(s) == ""
  {
    if s != "" {
      assert IsSpace(s[0]);
      BlankTrims(s[1..]);
    }
  }
}

// Shared vocabulary: optional values and the few JavaScript string
// operations the extension relies on (substring search, `split(sep)[0]`,
// ASCII lower-casing, `trim`, decimal rendering of a number).

module Common {

  datatype Option<T> = None | Some(value: T)

  /** JavaScript truthiness of an optional string: present and non-empty. */
  predicate Given(o: Option<string>) {
    o.Some? && o.value != ""
  }

  /** `s.startsWith(p)` */
  predicate StartsWith(s: string, p: string) {
    p <= s
  }

  /** `s.includes(sub)`: some position of `s` starts an occurrence of `sub`. */
  predicate Contains(s: string, sub: string)
    decreases |s|
  {
    sub <= s || (|s| > 0 && Contains(s[1..], sub))
  }

  /** An occurrence of `sub` at offset `k` of `s`. */
  predicate OccursAt(s: string, sub: string, k: int) {
    0 <= k && k + |sub| <= |s| && s[k..k + |sub|] == sub
  }

  lemma {:induction false} ContainsGivesOccurrence(s: string, sub: string)
    requires Contains(s, sub)
    ensures exists k :: OccursAt(s, sub, k)
    decreases |s|
  {
    if sub <= s {
      assert OccursAt(s, sub, 0);
    } else {
      ContainsGivesOccurrence(s[1..], sub);
      var k :| OccursAt(s[1..], sub, k);
      assert s[k + 1..k + 1 + |sub|] == s[1..][k..k + |sub|];
      assert OccursAt(s, sub, k + 1);
    }
  }

  lemma {:induction false} OccurrenceGivesContains(s: string, sub: string, k: int)
    requires OccursAt(s, sub, k)
    ensures Contains(s, sub)
    decreases k
  {
    if k > 0 {
      assert s[1..][k - 1..k - 1 + |sub|] == s[k..k + |sub|];
      OccurrenceGivesContains(s[1..], sub, k - 1);
    }
  }

  /** `includes` holds exactly when the substring occurs at some offset. */
  lemma ContainsIffOccurs(s: string, sub: string)
    ensures Contains(s, sub) <==> exists k :: OccursAt(s, sub, k)
  {
    if Contains(s, sub) {
      ContainsGivesOccurrence(s, sub);
    }
    if exists k :: OccursAt(s, sub, k) {
      var k :| OccursAt(s, sub, k);
      OccurrenceGivesContains(s, sub, k);
    }
  }

  /** Moving one step's output from the pending part to the accumulated part of a sequence. */
  lemma ShiftFront<T>(acc: seq<T>, x: seq<T>, rest: seq<T>)
    ensures acc + (x + rest) == (acc + x) + rest
  {
  }

  /** An occurrence inside a prefix is an occurrence in the whole string. */
  lemma ContainsInPrefix(s: string, p: string, sub: string)
    requires p <= s
    ensures Contains(p, sub) ==> Contains(s, sub)
  {
    if Contains(p, sub) {
      ContainsGivesOccurrence(p, sub);
      var k :| OccursAt(p, sub, k);
      assert p[k..k + |sub|] == s[k..k + |sub|];
      OccurrenceGivesContains(s, sub, k);
    }
  }

  /**
   * `s.split(sep)[0]`: the part of `s` before the first occurrence of a
   * non-empty separator, or all of `s` when the separator does not occur.
   */
  function CutBefore(s: string, sep: string): (r: string)
    requires |sep| > 0
    ensures r <= s
    ensures !Contains(r, sep)
    ensures r == s || sep <= s[|r|..]
    ensures forall k :: 0 <= k < |r| ==> !(sep <= s[k..])
    decreases |s|
  {
    if sep <= s then ""
    else if |s| == 0 then ""
    else
      var rest := CutBefore(s[1..], sep);
      assert forall k :: 1 <= k <= |s| ==> s[k..] == s[1..][k - 1..];
      [s[0]] + rest
  }

  /** ASCII lower-casing, as `toLowerCase` acts on the ASCII range. */
  function LowerChar(c: char): char {
    if 'A' <= c <= 'Z' then (c as int + 32) as char else c
  }

  function Lower(s: string): (r: string)
    ensures |r| == |s|
    ensures forall i :: 0 <= i < |s| ==> r[i] == LowerChar(s[i])
  {
    if |s| == 0 then "" else [LowerChar(s[0])] + Lower(s[1..])
  }

  /** Case-insensitive search for a lower-case word, as a `/word/i` test does. */
  predicate ContainsCI(s: string, lowerWord: string) {
    Contains(Lower(s), lowerWord)
  }

  /** `/w1|w2|.../i.test(s)` for lower-case alternatives. */
  predicate MatchesAnyCI(s: string, lowerWords: seq<string>) {
    exists w :: w in lowerWords && ContainsCI(s, w)
  }

  /** The characters `String.prototype.trim` removes (white space and line terminators). */
  predicate IsSpace(c: char) {
    c == ' ' || c == '\t' || c == '\n' || c == '\r' || c == '\U{B}' || c == '\U{C}'
    || c == '\U{A0}' || c == '\U{1680}' || ('\U{2000}' <= c <= '\U{200A}')
    || c == '\U{2028}' || c == '\U{2029}' || c == '\U{202F}' || c == '\U{205F}'
    || c == '\U{3000}' || c == '\U{FEFF}'
  }

  function TrimStart(s: string): (r: string)
    ensures |r| <= |s| && r == s[|s| - |r|..]
    ensures forall i :: 0 <= i < |s| - |r| ==> IsSpace(s[i])
    ensures |r| > 0 ==> !IsSpace(r[0])
  {
    if |s| > 0 && IsSpace(s[0]) then TrimStart(s[1..]) else s
  }

  function TrimEnd(s: string): (r: string)
    ensures |r| <= |s| && r == s[..|r|]
    ensures forall i :: |r| <= i < |s| ==> IsSpace(s[i])
    ensures |r| > 0 ==> !IsSpace(r[|r| - 1])
  {
    if |s| > 0 && IsSpace(s[|s| - 1]) then TrimEnd(s[..|s| - 1]) else s
  }

  /** `s.trim()` */
  function Trim(s: string): string {
    TrimEnd(TrimStart(s))
  }

  /** `trim` yields "" exactly when every character is white space. */
  lemma {:induction false} TrimEmptyIffBlank(s: string)
    ensures Trim(s) == "" <==> forall i :: 0 <= i < |s| ==> IsSpace(s[i])
  {
    var a := TrimStart(s);
    if Trim(s) == "" {
      assert |a| == 0;
    } else {
      var r := Trim(s);
      assert r[0] == a[0] && a[0] == s[|s| - |a|];
      assert !IsSpace(s[|s| - |a|]);
    }
  }

  /** A trimmed string neither starts nor ends with white space. */
  lemma TrimIsTrimmed(s: string)
    ensures var r := Trim(s); |r| > 0 ==> !IsSpace(r[0]) && !IsSpace(r[|r| - 1])
  {
    var a := TrimStart(s);
    var r := TrimEnd(a);
    if |r| > 0 {
      assert r[0] == a[0];
    }
  }

  function DigitChar(d: nat): char
    requires d < 10
  {
    ('0' as int + d) as char
  }

  predicate IsDigits(s: string) {
    forall i :: 0 <= i < |s| ==> '0' <= s[i] <= '9'
  }

  /** The number a string of decimal digits denotes, most significant digit first. */
  function DigitsValue(s: string): nat
    requires IsDigits(s)
  {
    if |s| == 0 then 0 else DigitsValue(s[..|s| - 1]) * 10 + (s[|s| - 1] as int - '0' as int)
  }

  /** Decimal rendering of a non-negative integer, as `String(n)` gives it: digits that denote `n`. */
  function NatToString(n: nat): (r: string)
    ensures |r| > 0 && IsDigits(r)
    ensures DigitsValue(r) == n
    ensures |r| > 1 ==> r[0] != '0'
    decreases n
  {
    if n < 10 then [DigitChar(n)]
    else
      var prefix := NatToString(n / 10);
      var r := prefix + [DigitChar(n % 10)];
      assert r[..|r| - 1] == prefix;
      r
  }
}

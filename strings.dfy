/** String helpers for the JavaScript string operations the model uses. Strings are `seq<char>`. */
module Strings {
  import opened Wrappers

  predicate IsDigit(c: char) {
    '0' <= c <= '9'
  }

  /** The character of the decimal digit `d`. */
  function DigitChar(d: nat): (c: char)
    requires d < 10
    ensures IsDigit(c)
  {
    (48 + d) as char
  }

  /** Decimal rendering of a natural number, as a template literal `${n}` prints an integer. */
  function NatToString(n: nat): (s: string)
    ensures |s| >= 1
    ensures forall k :: 0 <= k < |s| ==> IsDigit(s[k])
    ensures n >= 10 ==> |s| >= 2
    decreases n
  {
    if n < 10 then [DigitChar(n)] else NatToString(n / 10) + [DigitChar(n % 10)]
  }

  /** Different numbers print differently. */
  lemma {:induction false} NatToStringInjective(a: nat, b: nat)
    requires NatToString(a) == NatToString(b)
    ensures a == b
  {
    var s := NatToString(a);
    if a >= 10 && b >= 10 {
      var sa, sb := NatToString(a / 10), NatToString(b / 10);
      assert s == sa + [DigitChar(a % 10)];
      assert s == sb + [DigitChar(b % 10)];
      assert sa == s[..|s| - 1] == sb;
      NatToStringInjective(a / 10, b / 10);
      assert DigitChar(a % 10) == s[|s| - 1] == DigitChar(b % 10);
    }
  }

  /** `pat` occurs in `s` starting at index `i`. */
  predicate OccursAt(s: string, pat: string, i: nat) {
    i + |pat| <= |s| && s[i..i + |pat|] == pat
  }

  /** The first index at or after `from` where `pat` occurs; None plays the part of `indexOf`'s -1. */
  function IndexOfFrom(s: string, pat: string, from: nat): (r: Option<nat>)
    ensures r.Some? ==> from <= r.value && OccursAt(s, pat, r.value)
    ensures r.Some? ==> forall j :: from <= j < r.value ==> !OccursAt(s, pat, j)
    ensures r.None? ==> forall j :: from <= j ==> !OccursAt(s, pat, j)
    decreases |s| - from
  {
    if from + |pat| > |s| then None
    else if s[from..from + |pat|] == pat then Some(from)
    else IndexOfFrom(s, pat, from + 1)
  }

  /** JavaScript's `s.includes(sub)`. */
  predicate Includes(s: string, sub: string) {
    IndexOfFrom(s, sub, 0).Some?
  }

  /** `includes` holds exactly when the substring occurs somewhere. */
  lemma IncludesIff(s: string, sub: string, i: nat)
    ensures OccursAt(s, sub, i) ==> Includes(s, sub)
    ensures Includes(s, sub) ==> OccursAt(s, sub, IndexOfFrom(s, sub, 0).value)
  {
  }

  /** Every string includes the empty string. */
  lemma IncludesEmpty(s: string)
    ensures Includes(s, "")
  {
    assert OccursAt(s, "", 0);
  }

  /** JavaScript's `s.replace(pat, rep)` with a string pattern: only the first occurrence is replaced. */
  function ReplaceFirst(s: string, pat: string, rep: string): string {
    match IndexOfFrom(s, pat, 0)
    case None => s
    case Some(i) => s[..i] + rep + s[i + |pat|..]
  }

  /** A string that ends with `pat`, and has no earlier occurrence of `pat`'s first character,
      loses exactly that suffix. */
  lemma ReplaceFirstOfSuffix(b: string, pat: string)
    requires |pat| > 0 && pat[0] !in b
    ensures ReplaceFirst(b + pat, pat, "") == b
  {
    var s := b + pat;
    assert s[|b|..|b| + |pat|] == pat;
    assert OccursAt(s, pat, |b|);
    forall j: nat | j < |b|
      ensures !OccursAt(s, pat, j)
    {
      assert s[j] == b[j] != pat[0];
    }
    assert IndexOfFrom(s, pat, 0) == Some(|b|);
    assert s[..|b|] == b;
  }

  /** A string with no occurrence of `pat` is left alone. */
  lemma ReplaceFirstAbsent(s: string, pat: string)
    requires !Includes(s, pat)
    ensures ReplaceFirst(s, pat, "") == s
  {
  }

  /** ASCII lower-casing of one character. */
  function LowerChar(c: char): char {
    if 'A' <= c <= 'Z' then (c as int + 32) as char else c
  }

  /** `toLowerCase()` restricted to ASCII letters. */
  function ToLower(s: string): (r: string)
    ensures |r| == |s|
    ensures forall k :: 0 <= k < |s| ==> !('A' <= r[k] <= 'Z')
  {
    seq(|s|, k requires 0 <= k < |s| => LowerChar(s[k]))
  }
}

/**
 * String operations the components rely on from the JavaScript runtime:
 * decimal rendering of integers (what `String(n)` and JSX write for a number)
 * and `String.prototype.replace` with a string pattern, which replaces only
 * the FIRST occurrence.
 */
module Text {
  import opened Wrappers

  predicate IsDigit(c: char)
  {
    '0' <= c <= '9'
  }

  predicate AllDigits(s: string)
  {
    forall i :: 0 <= i < |s| ==> IsDigit(s[i])
  }

  function DigitChar(d: nat): (c: char)
    requires d < 10
    ensures IsDigit(c) && c as int - '0' as int == d
  {
    ('0' as int + d) as char
  }

  /** The number a string of decimal digits denotes, most significant digit first. */
  function DecimalValue(s: string): nat
    requires AllDigits(s)
  {
    if s == [] then 0
    else DecimalValue(s[..|s| - 1]) * 10 + (s[|s| - 1] as int - '0' as int)
  }

  /** Decimal rendering of a natural number: digits only, no leading zero, reads back as n. */
  function NatToString(n: nat): (r: string)
    ensures |r| > 0 && AllDigits(r)
    ensures DecimalValue(r) == n
    ensures r[0] == '0' <==> n == 0
    ensures n == 0 ==> r == "0"
    decreases n
  {
    if n < 10 then [DigitChar(n)]
    else
      var prefix := NatToString(n / 10);
      var r := prefix + [DigitChar(n % 10)];
      assert r[..|r| - 1] == prefix;
      r
  }

  /** Decimal rendering of an integer, with a leading '-' exactly when it is negative. */
  function IntToString(i: int): (r: string)
    ensures |r| > 0
    ensures r[0] == '-' <==> i < 0
    ensures i >= 0 ==> AllDigits(r) && DecimalValue(r) == i
    ensures i < 0 ==> AllDigits(r[1..]) && DecimalValue(r[1..]) == -i
    ensures i == 0 ==> r == "0"
    ensures i > 0 ==> r[0] != '0'
    ensures i < 0 ==> |r| > 1 && r[1] != '0'
  {
    if i < 0 then
      var r := "-" + NatToString(-i);
      assert r[1..] == NatToString(-i);
      r
    else NatToString(i)
  }

  predicate OccursAt(s: string, pat: string, i: nat)
  {
    i + |pat| <= |s| && s[i..i + |pat|] == pat
  }

  /** The first index at or after `from` where `pat` occurs in `s`. */
  function FindFrom(s: string, pat: string, from: nat): (r: Option<nat>)
    ensures r.Some? ==> from <= r.value && OccursAt(s, pat, r.value)
    ensures r.Some? ==> forall j :: from <= j < r.value ==> !OccursAt(s, pat, j)
    ensures r.None? ==> forall j :: from <= j ==> !OccursAt(s, pat, j)
    decreases |s| - from
  {
    if from + |pat| > |s| then None
    else if OccursAt(s, pat, from) then Some(from)
    else FindFrom(s, pat, from + 1)
  }

  /** `s.indexOf(pat)`, with None for JavaScript's -1. */
  function IndexOf(s: string, pat: string): Option<nat>
  {
    FindFrom(s, pat, 0)
  }

  /**
   * `s.replace(pat, rep)` for a string pattern whose replacement holds no `$`.
   * Where the replacement lands is stated by ReplaceFirstAt below.
   */
  function ReplaceFirst(s: string, pat: string, rep: string): (r: string)
    ensures IndexOf(s, pat).None? ==> r == s
    ensures IndexOf(s, pat).Some? ==> |r| == |s| - |pat| + |rep|
  {
    match IndexOf(s, pat)
    case None => s
    case Some(i) => s[..i] + rep + s[i + |pat|..]
  }

  /** When `pat` does not occur in `s`, the replacement leaves `s` as it is. */
  lemma ReplaceFirstAbsent(s: string, pat: string, rep: string)
    requires forall j :: !OccursAt(s, pat, j)
    ensures ReplaceFirst(s, pat, rep) == s
  {
  }

  /** When `pat` first occurs at `i`, exactly that occurrence is replaced. */
  lemma ReplaceFirstAt(s: string, pat: string, rep: string, i: nat)
    requires OccursAt(s, pat, i)
    requires forall j :: 0 <= j < i ==> !OccursAt(s, pat, j)
    ensures ReplaceFirst(s, pat, rep) == s[..i] + rep + s[i + |pat|..]
  {
    var k := IndexOf(s, pat);
    assert k.Some?;
    assert k.value == i;
  }

  /** A one-character pattern that `pre` does not contain is replaced right after `pre`. */
  lemma ReplaceFirstChar(pre: string, c: char, post: string, rep: string)
    requires c !in pre
    ensures ReplaceFirst(pre + [c] + post, [c], rep) == pre + rep + post
  {
    var s := pre + [c] + post;
    assert OccursAt(s, [c], |pre|) by { assert s[|pre|..|pre| + 1] == [c]; }
    forall j | 0 <= j < |pre|
      ensures !OccursAt(s, [c], j)
    {
      assert s[j..j + 1] == [pre[j]];
    }
    ReplaceFirstAt(s, [c], rep, |pre|);
    assert s[..|pre|] == pre;
    assert s[|pre| + 1..] == post;
  }

  /** A pattern with a character that `s` does not contain occurs nowhere in `s`. */
  lemma AbsentCharNoOccurrence(s: string, pat: string, k: nat)
    requires k < |pat| && pat[k] !in s
    ensures forall j: nat :: !OccursAt(s, pat, j)
  {
    forall j: nat
      ensures !OccursAt(s, pat, j)
    {
      if j + |pat| <= |s| {
        assert s[j..j + |pat|][k] == s[j + k];
      }
    }
  }

  /** A one-character pattern that `s` does not contain leaves `s` as it is. */
  lemma ReplaceFirstCharAbsent(s: string, c: char, rep: string)
    requires c !in s
    ensures ReplaceFirst(s, [c], rep) == s
  {
    forall j: nat
      ensures !OccursAt(s, [c], j)
    {
      if j < |s| {
        assert s[j..j + 1] == [s[j]];
      }
    }
    ReplaceFirstAbsent(s, [c], rep);
  }
}

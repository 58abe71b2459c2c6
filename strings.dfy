/** The JavaScript string operations the dispatcher relies on: `startsWith`,
    `String.prototype.replace` with a string pattern (first occurrence only), and
    taking apart a string built as prefix + middle + suffix. */
module Strings {
  import opened Types

  /** `s.startsWith(prefix)`: `s` agrees with `prefix` on each of its characters. */
  predicate StartsWith(s: string, prefix: string)
    ensures StartsWith(s, prefix) <==> |prefix| <= |s| && forall i :: 0 <= i < |prefix| ==> s[i] == prefix[i]
  {
    |prefix| <= |s| && s[..|prefix|] == prefix
  }

  /** `pat` occurs in `s` starting at index `i`. */
  predicate OccursAt(s: string, pat: string, i: int)
  {
    0 <= i && i + |pat| <= |s| && s[i..i + |pat|] == pat
  }

  /** `s.indexOf(pat)`: the first index at which `pat` occurs, if any. */
  function IndexOf(s: string, pat: string): (r: Option<nat>)
    ensures r.None? ==> forall i :: !OccursAt(s, pat, i)
    ensures r.Some? ==> OccursAt(s, pat, r.value) && forall j :: 0 <= j < r.value ==> !OccursAt(s, pat, j)
    decreases |s|
  {
    if StartsWith(s, pat) then
      assert OccursAt(s, pat, 0);
      Some(0)
    else if s == [] then
      None
    else
      match IndexOf(s[1..], pat)
      case None =>
        NoOccurrenceFromTail(s, pat);
        None
      case Some(k) =>
        FirstOccurrenceFromTail(s, pat, k);
        Some(k + 1)
  }

  /** `s.startsWith(p)` holds exactly when `s.indexOf(p)` is 0. */
  lemma StartsWithIffIndexOfZero(s: string, prefix: string)
    ensures StartsWith(s, prefix) <==> IndexOf(s, prefix) == Some(0)
  {
  }

  lemma NoOccurrenceFromTail(s: string, pat: string)
    requires |s| > 0 && !OccursAt(s, pat, 0)
    requires forall i :: !OccursAt(s[1..], pat, i)
    ensures forall i :: !OccursAt(s, pat, i)
  {
    ShiftOccurrence(s, pat);
    forall i | 1 <= i ensures !OccursAt(s, pat, i) {
      assert !OccursAt(s[1..], pat, i - 1);
    }
  }

  lemma FirstOccurrenceFromTail(s: string, pat: string, k: nat)
    requires |s| > 0 && !OccursAt(s, pat, 0)
    requires OccursAt(s[1..], pat, k) && forall j :: 0 <= j < k ==> !OccursAt(s[1..], pat, j)
    ensures OccursAt(s, pat, k + 1) && forall j :: 0 <= j < k + 1 ==> !OccursAt(s, pat, j)
  {
    ShiftOccurrence(s, pat);
    forall j | 1 <= j < k + 1 ensures !OccursAt(s, pat, j) {
      assert !OccursAt(s[1..], pat, j - 1);
    }
  }

  /** `s.replace(pat, rep)` with a string pattern: the first occurrence of `pat` is
      replaced by `rep`, and `s` is returned unchanged when `pat` does not occur in it. */
  function ReplaceFirst(s: string, pat: string, rep: string): (r: string)
    ensures (forall i :: !OccursAt(s, pat, i)) ==> r == s
    ensures forall i :: OccursAt(s, pat, i) && (forall j :: 0 <= j < i ==> !OccursAt(s, pat, j)) ==>
      r == s[..i] + rep + s[i + |pat|..]
  {
    match IndexOf(s, pat)
    case None => s
    case Some(i) => s[..i] + rep + s[i + |pat|..]
  }

  /** An occurrence in `s[1..]` is an occurrence in `s` one place later, and the
      other way round for occurrences after the first character. */
  lemma ShiftOccurrence(s: string, pat: string)
    requires |s| > 0
    ensures forall i :: 0 <= i ==> (OccursAt(s[1..], pat, i) <==> OccursAt(s, pat, i + 1))
  {
    forall i | 0 <= i
      ensures OccursAt(s[1..], pat, i) <==> OccursAt(s, pat, i + 1)
    {
      if i + |pat| <= |s| - 1 {
        assert s[1..][i..i + |pat|] == s[i + 1..i + 1 + |pat|];
      }
    }
  }

  /** The middle of `s` once `prefix` and `suffix` are taken off, if `s` has both. */
  function StripAffixes(s: string, prefix: string, suffix: string): (r: Option<string>)
    ensures r.Some? ==> s == prefix + r.value + suffix
  {
    if |prefix| + |suffix| <= |s| && s[..|prefix|] == prefix && s[|s| - |suffix|..] == suffix then
      var mid := s[|prefix|..|s| - |suffix|];
      assert s == s[..|prefix|] + mid + s[|s| - |suffix|..];
      Some(mid)
    else
      None
  }

  lemma StripAffixesOfConcat(prefix: string, mid: string, suffix: string)
    ensures StripAffixes(prefix + mid + suffix, prefix, suffix) == Some(mid)
  {
    var s := prefix + mid + suffix;
    assert s[..|prefix|] == prefix;
    assert s[|s| - |suffix|..] == suffix;
    assert s[|prefix|..|s| - |suffix|] == mid;
  }
}

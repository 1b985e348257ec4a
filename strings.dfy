/**
 The string operations the SObject paths are built from: the leftmost-occurrence
 search behind `strings.Index`, the single replacement done by
 `strings.Replace(s, old, new, 1)`, and `strings.Join`. `Split` is the inverse of
 `Join`; it is not called by the client and serves to state round trips.
 */
module Strings {
  import opened Wrappers

  /** `pat` occurs in `s` starting at index `k`. */
  predicate OccursAt(s: string, pat: string, k: nat) {
    k + |pat| <= |s| && s[k..k + |pat|] == pat
  }

  /** The leftmost occurrence of `pat` in `s` at or after index `from`. */
  function IndexFrom(s: string, pat: string, from: nat): (r: Option<nat>)
    requires from <= |s|
    decreases |s| - from
    ensures r.Some? ==> from <= r.value && OccursAt(s, pat, r.value)
    ensures r.Some? ==> forall k: nat :: from <= k < r.value ==> !OccursAt(s, pat, k)
    ensures r.None? ==> forall k: nat :: from <= k ==> !OccursAt(s, pat, k)
  {
    if from + |pat| > |s| then None
    else if OccursAt(s, pat, from) then Some(from)
    else
      assert |pat| > 0 by { assert s[from..from + |pat|] != pat; }
      IndexFrom(s, pat, from + 1)
  }

  /** `strings.Index`: the leftmost occurrence of `pat` in `s`; the empty pattern is found at 0. */
  function Index(s: string, pat: string): (r: Option<nat>)
    ensures r.Some? ==> OccursAt(s, pat, r.value)
    ensures r.Some? ==> forall k: nat :: k < r.value ==> !OccursAt(s, pat, k)
    ensures r.None? <==> forall k: nat :: !OccursAt(s, pat, k)
    ensures pat == [] ==> r == Some(0)
  {
    var r := IndexFrom(s, pat, 0);
    assert pat == [] ==> OccursAt(s, pat, 0);
    r
  }

  /**
   `strings.Replace(s, pat, repl, 1)`: the leftmost occurrence of `pat` is replaced
   by `repl`; everything before it (which holds no occurrence of `pat`) and after
   it is kept as it is. Without an occurrence, `s` is returned unchanged.
   */
  function ReplaceFirst(s: string, pat: string, repl: string): (r: string)
    ensures Index(s, pat).None? ==> r == s
    ensures Index(s, pat).Some? ==>
      var i := Index(s, pat).value;
      && |r| == |s| - |pat| + |repl|
      && r[..i] == s[..i]
      && r[i..i + |repl|] == repl
      && r[i + |repl|..] == s[i + |pat|..]
    ensures Index(s, pat).Some? ==>
      forall k: nat :: k < Index(s, pat).value && k + |pat| <= Index(s, pat).value ==> !OccursAt(r, pat, k)
  {
    match Index(s, pat)
    case None => s
    case Some(i) =>
      var r := s[..i] + repl + s[i + |pat|..];
      SamePrefixSameOccurrences(s, r, pat, i);
      r
  }

  /** Two strings that agree up to `n` have the same occurrences of `pat` ending by `n`. */
  lemma SamePrefixSameOccurrences(s: string, t: string, pat: string, n: nat)
    requires n <= |s| && n <= |t| && s[..n] == t[..n]
    ensures forall k: nat :: k + |pat| <= n ==> (OccursAt(s, pat, k) <==> OccursAt(t, pat, k))
  {
    forall k: nat | k + |pat| <= n
      ensures OccursAt(s, pat, k) <==> OccursAt(t, pat, k)
    {
      assert s[k..k + |pat|] == s[..n][k..k + |pat|];
      assert t[k..k + |pat|] == t[..n][k..k + |pat|];
    }
  }

  /**
   Only the first placeholder is replaced: any later occurrence of `pat` in `s`
   is still in the result, shifted by the change in length, whatever `repl` holds.
   */
  lemma LaterOccurrencesSurvive(s: string, pat: string, repl: string, j: nat)
    requires Index(s, pat).Some?
    requires j >= Index(s, pat).value + |pat|
    requires OccursAt(s, pat, j)
    ensures OccursAt(ReplaceFirst(s, pat, repl), pat, j - |pat| + |repl|)
  {
  }

  /** `strings.Join`: the parts in order with `sep` between neighbours. */
  function Join(parts: seq<string>, sep: string): (joined: string)
    decreases |parts|
    ensures |parts| == 0 ==> joined == ""
    ensures |parts| > 0 ==> parts[0] <= joined
  {
    if |parts| == 0 then ""
    else if |parts| == 1 then parts[0]
    else parts[0] + sep + Join(parts[1..], sep)
  }

  lemma {:induction false} JoinAppend(parts: seq<string>, last: string, sep: string)
    requires |parts| > 0
    ensures Join(parts + [last], sep) == Join(parts, sep) + sep + last
    decreases |parts|
  {
    if |parts| == 1 {
      assert (parts + [last])[1..] == [last];
    } else {
      assert (parts + [last])[1..] == parts[1..] + [last];
      JoinAppend(parts[1..], last, sep);
    }
  }

  /** Cuts `s` at every occurrence of `sep`, scanning from the left. */
  function Split(s: string, sep: string): (parts: seq<string>)
    requires |sep| > 0
    decreases |s|
    ensures |parts| > 0
  {
    match Index(s, sep)
    case None => [s]
    case Some(i) => [s[..i]] + Split(s[i + |sep|..], sep)
  }

  /** No string in `parts` contains the character `c`. */
  predicate FreeOf(parts: seq<string>, c: char) {
    forall i :: 0 <= i < |parts| ==> c !in parts[i]
  }

  /** A string without the separator's first character holds no occurrence of it. */
  lemma NoOccurrence(s: string, sep: string)
    requires |sep| > 0 && sep[0] !in s
    ensures Index(s, sep).None?
  {
  }

  /** The separator right after a separator-free prefix is the first one. */
  lemma IndexAfterPrefix(p: string, sep: string, rest: string)
    requires |sep| > 0 && sep[0] !in p
    ensures Index(p + sep + rest, sep) == Some(|p|)
  {
    var s := p + sep + rest;
    assert s[|p|..|p| + |sep|] == sep;
    assert OccursAt(s, sep, |p|);
  }

  /** Splitting undoes joining when no part contains the separator's first character. */
  lemma {:induction false} SplitJoin(parts: seq<string>, sep: string)
    requires |parts| > 0 && |sep| > 0
    requires FreeOf(parts, sep[0])
    ensures Split(Join(parts, sep), sep) == parts
    decreases |parts|
  {
    if |parts| == 1 {
      NoOccurrence(parts[0], sep);
    } else {
      var rest := Join(parts[1..], sep);
      var s := parts[0] + sep + rest;
      IndexAfterPrefix(parts[0], sep, rest);
      assert s[|parts[0]| + |sep|..] == rest;
      assert s[..|parts[0]|] == parts[0];
      SplitJoin(parts[1..], sep);
    }
  }
}

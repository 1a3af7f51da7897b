/** Failure-compatible wrappers and the few JavaScript string operations the
    analysis endpoint and the component rely on (`startsWith`, `includes`,
    `indexOf`, `lastIndexOf`), written over `string` = `seq<char>`. */
module Common {

  datatype Option<+T> = None | Some(value: T)

  datatype Result<+T, +E> = Ok(value: T) | Err(error: E)

  /** `pat` occurs in `s` starting at index `i`. */
  predicate OccursAt(s: string, pat: string, i: int)
  {
    0 <= i && i + |pat| <= |s| && s[i..i + |pat|] == pat
  }

  /** `String.prototype.startsWith`: `s` is at least as long as `prefix` and
      agrees with it character by character. */
  predicate StartsWith(s: string, prefix: string): (b: bool)
    ensures b <==> |prefix| <= |s| && forall k :: 0 <= k < |prefix| ==> s[k] == prefix[k]
  {
    OccursAt(s, prefix, 0)
  }

  /** `s` contains `pat` somewhere (stated, not computed). */
  ghost predicate Occurs(s: string, pat: string)
  {
    exists i :: OccursAt(s, pat, i)
  }

  /** The first index at or after `from` where `pat` occurs in `s`
      (`s.indexOf(pat, from)` for a non-empty `pat`, with `None` for -1). */
  function IndexFrom(s: string, pat: string, from: nat): (r: Option<nat>)
    ensures r.Some? ==> from <= r.value && OccursAt(s, pat, r.value)
    ensures r.Some? ==> forall k :: from <= k < r.value ==> !OccursAt(s, pat, k)
    ensures r.None? ==> forall k :: from <= k ==> !OccursAt(s, pat, k)
    decreases |s| - from
  {
    if |s| < from + |pat| then None
    else if s[from..from + |pat|] == pat then Some(from)
    else IndexFrom(s, pat, from + 1)
  }

  /** `String.prototype.includes`. */
  function Includes(s: string, pat: string): (b: bool)
    ensures b <==> Occurs(s, pat)
  {
    var r := IndexFrom(s, pat, 0);
    assert r.Some? ==> OccursAt(s, pat, r.value);
    r.Some?
  }

  /** The first index at or after `from` that holds `c` (`s.indexOf(c, from)`). */
  function IndexOfChar(s: string, c: char, from: nat): (r: Option<nat>)
    ensures r.Some? ==> from <= r.value < |s| && s[r.value] == c
    ensures r.Some? ==> forall k :: from <= k < r.value ==> s[k] != c
    ensures r.None? ==> forall k :: from <= k < |s| ==> s[k] != c
    decreases |s| - from
  {
    if |s| <= from then None
    else if s[from] == c then Some(from)
    else IndexOfChar(s, c, from + 1)
  }

  /** The last index below `upto` that holds `c` (`s.lastIndexOf(c, upto - 1)`). */
  function LastIndexBelow(s: string, c: char, upto: nat): (r: Option<nat>)
    requires upto <= |s|
    ensures r.Some? ==> r.value < upto && s[r.value] == c
    ensures r.Some? ==> forall k :: r.value < k < upto ==> s[k] != c
    ensures r.None? ==> forall k :: 0 <= k < upto ==> s[k] != c
  {
    if upto == 0 then None
    else if s[upto - 1] == c then Some(upto - 1)
    else LastIndexBelow(s, c, upto - 1)
  }

  /** An occurrence inside the slice `s[lo..hi]` is an occurrence in `s`, shifted by `lo`. */
  lemma OccursInSlice(s: string, lo: nat, hi: nat, pat: string, i: int)
    requires lo <= hi <= |s|
    requires OccursAt(s[lo..hi], pat, i)
    ensures OccursAt(s, pat, lo + i)
  {
    var t := s[lo..hi];
    assert forall k :: i <= k < i + |pat| ==> t[k] == s[lo + k];
    assert t[i..i + |pat|] == s[lo + i..lo + i + |pat|];
  }

  /** `p` is a prefix of `p + rest`. */
  lemma PrefixOf(p: string, rest: string)
    ensures StartsWith(p + rest, p)
  {
    assert (p + rest)[..|p|] == p;
  }

  /** `p + (a + b + c)` holds `b` right after `p + a`. */
  lemma InMiddle(p: string, a: string, b: string, c: string)
    ensures OccursAt(p + (a + b + c), b, |p| + |a|)
  {
    assert (p + (a + b + c))[|p| + |a|..|p| + |a| + |b|] == b;
  }
}

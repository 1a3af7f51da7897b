/** Extraction of the JSON text from the model's free-form reply
    (backend/server.js, the two `content.match` calls and `jsonMatch[1] || jsonMatch[0]`).

    The regular expressions are stated declaratively as the match a
    backtracking engine reports (leftmost start; lazy or greedy body), and the
    functions that compute the match are proved to return exactly that. */
module Extraction {
  import opened Common

  /** The opening of a fenced JSON block: three backticks, `json`, a newline. */
  const FenceOpen := "```json\n"

  /** The closing of a fenced block: a newline and three backticks. */
  const FenceClose := "\n```"

  /** Some match of /```json\n([\s\S]*?)\n```/ starts at `i`, with its
      interior (capture group 1) running from `i + |FenceOpen|` to `j`. */
  predicate FenceAt(s: string, i: int, j: int)
  {
    OccursAt(s, FenceOpen, i) && i + |FenceOpen| <= j && OccursAt(s, FenceClose, j)
  }

  /** The match the engine reports: the leftmost start that admits any match,
      then, because `*?` is lazy, the shortest interior. */
  ghost predicate IsFenceMatch(s: string, i: int, j: int)
  {
    && FenceAt(s, i, j)
    && (forall i', j' :: 0 <= i' < i ==> !FenceAt(s, i', j'))
    && (forall j' :: i + |FenceOpen| <= j' < j ==> !OccursAt(s, FenceClose, j'))
  }

  /** `s` has a `{` somewhere before a `}`: some match of /\{[\s\S]*\}/ exists. */
  predicate BracePair(s: string, p: int, q: int)
  {
    0 <= p < q < |s| && s[p] == '{' && s[q] == '}'
  }

  /** The match of /\{[\s\S]*\}/ the engine reports: the leftmost `{` that
      admits a match, then, because `*` is greedy, the last `}`. */
  ghost predicate IsBraceSpan(s: string, p: int, q: int)
  {
    && BracePair(s, p, q)
    && (forall k :: 0 <= k < p ==> s[k] != '{')
    && (forall k :: q < k < |s| ==> s[k] != '}')
  }

  /** `content.match(/```json\n([\s\S]*?)\n```/)`, as the start of the match
      and the end of its capture group. */
  function FindFence(s: string): (m: Option<(nat, nat)>)
    ensures m.Some? ==> IsFenceMatch(s, m.value.0, m.value.1)
    ensures m.None? ==> forall i, j :: !FenceAt(s, i, j)
  {
    match IndexFrom(s, FenceOpen, 0)
    case None => None
    case Some(i) =>
      match IndexFrom(s, FenceClose, i + |FenceOpen|)
      case None =>
        assert forall i', j' :: FenceAt(s, i', j') ==> i <= i' && OccursAt(s, FenceClose, j');
        None
      case Some(j) => Some((i, j))
  }

  /** `content.match(/\{[\s\S]*\}/)`, as the indices of its first and last characters. */
  function FindBraceSpan(s: string): (m: Option<(nat, nat)>)
    ensures m.Some? ==> IsBraceSpan(s, m.value.0, m.value.1)
    ensures m.None? ==> forall p, q :: !BracePair(s, p, q)
  {
    match IndexOfChar(s, '{', 0)
    case None => None
    case Some(p) =>
      match LastIndexBelow(s, '}', |s|)
      case None => None
      case Some(q) => if p < q then Some((p, q)) else None
  }

  /** The text a fence match hands to `JSON.parse`: the capture group, or the
      whole match when the group is empty (an empty string is falsy). */
  function FencedText(s: string, i: nat, j: nat): (text: string)
    requires FenceAt(s, i, j)
    ensures text != ""
    ensures s[i + |FenceOpen|..j] != "" ==> text == s[i + |FenceOpen|..j]
    ensures s[i + |FenceOpen|..j] == "" ==> text == FenceOpen + FenceClose
  {
    assert s[i + |FenceOpen|..j] == "" ==> s[i..j + |FenceClose|] == s[i..i + |FenceOpen|] + s[j..j + |FenceClose|];
    if s[i + |FenceOpen|..j] != "" then s[i + |FenceOpen|..j] else s[i..j + |FenceClose|]
  }

  /** The text the handler passes to `JSON.parse`, or `None` when it throws
      "Could not parse AI response". A fenced block wins over a brace span. */
  function ExtractJson(s: string): (r: Option<string>)
    ensures r.Some? ==> exists k :: OccursAt(s, r.value, k)
    ensures r.None? <==> (forall i, j :: !FenceAt(s, i, j)) && (forall p, q :: !BracePair(s, p, q))
  {
    match FindFence(s)
    case Some((i, j)) =>
      var text := FencedText(s, i, j);
      assert OccursAt(s, text, if text == s[i + |FenceOpen|..j] then i + |FenceOpen| else i);
      Some(text)
    case None =>
      match FindBraceSpan(s)
      case Some((p, q)) =>
        assert OccursAt(s, s[p..q + 1], p);
        Some(s[p..q + 1])
      case None => None
  }

  /** There is only one leftmost, shortest fence match. */
  lemma FenceMatchUnique(s: string, i: int, j: int, i2: int, j2: int)
    requires IsFenceMatch(s, i, j) && IsFenceMatch(s, i2, j2)
    ensures i == i2 && j == j2
  {
  }

  /** There is only one leftmost, greedy brace span. */
  lemma BraceSpanUnique(s: string, p: int, q: int, p2: int, q2: int)
    requires IsBraceSpan(s, p, q) && IsBraceSpan(s, p2, q2)
    ensures p == p2 && q == q2
  {
  }

  /** When the reply holds a fenced block, its text is what gets parsed,
      whether or not the reply also holds a brace span. */
  lemma FencePreferred(s: string, i: nat, j: nat)
    requires IsFenceMatch(s, i, j)
    ensures ExtractJson(s) == Some(FencedText(s, i, j))
  {
    var m := FindFence(s);
    FenceMatchUnique(s, i, j, m.value.0, m.value.1);
  }

  /** Without a fenced block, the text parsed runs from the first `{` to the
      last `}`, both included. */
  lemma BraceFallback(s: string, p: nat, q: nat)
    requires forall i, j :: !FenceAt(s, i, j)
    requires IsBraceSpan(s, p, q)
    ensures ExtractJson(s) == Some(s[p..q + 1])
    ensures s[p..q + 1][0] == '{' && s[p..q + 1][q - p] == '}'
  {
    var m := FindBraceSpan(s);
    BraceSpanUnique(s, p, q, m.value.0, m.value.1);
  }

  /** A closing fence cannot start inside `t + FenceClose` before the closing
      fence itself unless it starts inside `t` already. */
  lemma NoEarlierClose(t: string, post: string, k: nat)
    requires !Occurs(t, FenceClose)
    requires k < |t|
    ensures !OccursAt(t + FenceClose + post, FenceClose, k)
  {
    var s := t + FenceClose + post;
    if k + |FenceClose| <= |t| {
      assert s[k..k + |FenceClose|] == t[k..k + |FenceClose|];
      assert !OccursAt(t, FenceClose, k);
    } else {
      var d := |t| - k;
      assert s[|t|] == '\n';
      assert k + |FenceClose| <= |s| ==> s[k..k + |FenceClose|][d] == '\n';
    }
  }

  /** Wrapping a non-empty text that holds no closing fence in a fenced
      block, whatever follows it, gives that text back. */
  lemma {:induction false} FencedRoundTrip(t: string, post: string)
    requires t != ""
    requires !Occurs(t, FenceClose)
    ensures ExtractJson(FenceOpen + t + FenceClose + post) == Some(t)
  {
    var s := FenceOpen + t + FenceClose + post;
    var j := |FenceOpen| + |t|;
    assert s == FenceOpen + (t + FenceClose + post);
    assert OccursAt(s, FenceOpen, 0);
    assert OccursAt(s, FenceClose, j) by {
      assert s[j..j + |FenceClose|] == FenceClose;
    }
    forall j' | |FenceOpen| <= j' < j
      ensures !OccursAt(s, FenceClose, j')
    {
      NoEarlierClose(t, post, j' - |FenceOpen|);
      var u := t + FenceClose + post;
      assert s[j'..j' + |FenceClose|] == u[j' - |FenceOpen|..j' - |FenceOpen| + |FenceClose|];
    }
    assert IsFenceMatch(s, 0, j);
    FencePreferred(s, 0, j);
    assert s[|FenceOpen|..j] == t;
  }

  /** A fenced block whose interior is empty hands the whole match,
      fences included, to `JSON.parse`. */
  lemma EmptyFenceFallsBack(post: string)
    ensures ExtractJson(FenceOpen + FenceClose + post) == Some(FenceOpen + FenceClose)
  {
    var s := FenceOpen + FenceClose + post;
    var j := |FenceOpen|;
    assert OccursAt(s, FenceOpen, 0);
    assert OccursAt(s, FenceClose, j) by {
      assert s[j..j + |FenceClose|] == FenceClose;
    }
    assert IsFenceMatch(s, 0, j);
    FencePreferred(s, 0, j);
    assert s[..j + |FenceClose|] == FenceOpen + FenceClose;
  }

  /** A bare JSON object, one that opens with `{`, closes with `}` and holds
      no opening fence, is handed to `JSON.parse` whole. */
  lemma BareRoundTrip(t: string)
    requires 2 <= |t| && t[0] == '{' && t[|t| - 1] == '}'
    requires !Occurs(t, FenceOpen)
    ensures ExtractJson(t) == Some(t)
  {
    forall i, j
      ensures !FenceAt(t, i, j)
    {
      assert !OccursAt(t, FenceOpen, i);
    }
    BraceFallback(t, 0, |t| - 1);
    assert t[0..|t|] == t;
  }

  /** The same JSON object, sent fenced or bare, reaches `JSON.parse` as the
      same text, so it parses to the same value. */
  lemma FencedAndBareAgree(t: string)
    requires 2 <= |t| && t[0] == '{' && t[|t| - 1] == '}'
    requires !Occurs(t, FenceOpen) && !Occurs(t, FenceClose)
    ensures ExtractJson(FenceOpen + t + FenceClose) == ExtractJson(t) == Some(t)
  {
    FencedRoundTrip(t, "");
    assert FenceOpen + t + FenceClose + "" == FenceOpen + t + FenceClose;
    BareRoundTrip(t);
  }

  /** A fence inside a slice of `s` is a fence of `s`. */
  lemma NoFenceInSlice(s: string, lo: nat, hi: nat)
    requires lo <= hi <= |s|
    requires forall i, j :: !FenceAt(s, i, j)
    ensures forall i, j :: !FenceAt(s[lo..hi], i, j)
  {
    forall i, j
      ensures !FenceAt(s[lo..hi], i, j)
    {
      if OccursAt(s[lo..hi], FenceOpen, i) && OccursAt(s[lo..hi], FenceClose, j) {
        assert !FenceAt(s, lo + i, lo + j);
        OccursInSlice(s, lo, hi, FenceOpen, i);
        OccursInSlice(s, lo, hi, FenceClose, j);
      }
    }
  }

  /** Extracting again from a brace span that was extracted from a reply
      without a fenced block gives the same span back. */
  lemma BraceExtractionIdempotent(s: string)
    requires FindFence(s).None? && ExtractJson(s).Some?
    ensures ExtractJson(ExtractJson(s).value) == ExtractJson(s)
  {
    var m := FindBraceSpan(s);
    var p, q := m.value.0, m.value.1;
    var u := s[p..q + 1];
    assert ExtractJson(s) == Some(u);
    NoFenceInSlice(s, p, q + 1);
    assert IsBraceSpan(u, 0, |u| - 1);
    BraceFallback(u, 0, |u| - 1);
    assert u[0..|u|] == u;
  }
}

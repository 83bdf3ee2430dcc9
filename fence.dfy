/**
 * The fenced-code extraction of app.py:
 * `re.search(r"```" + tag + r"(.*?)```", text, re.DOTALL)` followed by
 * `match.group(1).strip()`.
 */
module Fence {
  import opened Wrappers
  import opened Text

  /** The bare fence that closes a block. */
  const Fence: string := "```"

  /** The fence that opens a block of the given language, e.g. "```matlab". */
  function Opener(tag: string): (r: string)
    ensures |r| == |Fence| + |tag| && r[..|Fence|] == Fence && r[|Fence|..] == tag
  {
    Fence + tag
  }

  /** Some closing fence starts at or after `from`. */
  ghost predicate ClosedAfter(text: string, from: nat) {
    exists j :: from <= j && OccursAt(text, Fence, j)
  }

  /** The pattern can match starting at `k`: an opener there and a closer later. */
  ghost predicate MatchesAt(text: string, open: string, k: nat) {
    OccursAt(text, open, k) && ClosedAfter(text, k + |open|)
  }

  /**
   * The regex search from position `i` on: the leftmost start at which the
   * opener occurs and is followed by a closer; the lazy group ends at the
   * first closer after the opener. The result is the span of group 1.
   */
  function Scan(text: string, open: string, i: nat): (m: Option<(nat, nat)>)
    decreases |text| - i
    ensures m.None? ==> forall k :: i <= k ==> !MatchesAt(text, open, k)
    ensures m.Some? ==>
      var (a, b) := m.value;
      && i + |open| <= a <= b
      && MatchesAt(text, open, a - |open|)
      && OccursAt(text, Fence, b)
      && (forall k :: a <= k < b ==> !OccursAt(text, Fence, k))
      && (forall k :: i <= k < a - |open| ==> !MatchesAt(text, open, k))
  {
    if i + |open| > |text| then None
    else if OccursAt(text, open, i) && IndexOf(text, Fence, i + |open|).Some? then
      Some((i + |open|, IndexOf(text, Fence, i + |open|).value))
    else
      assert !MatchesAt(text, open, i);
      Scan(text, open, i + 1)
  }

  /**
   * `re.search(opener + "(.*?)```", text, re.DOTALL)`: the span of the group,
   * and no match exactly when no opener of the tag has a closer after it.
   */
  function MatchFenced(text: string, tag: string): (m: Option<(nat, nat)>)
    ensures m.None? <==> forall k :: 0 <= k ==> !MatchesAt(text, Opener(tag), k)
    ensures m.Some? ==> m.value.0 <= m.value.1 <= |text|
  {
    Scan(text, Opener(tag), 0)
  }

  /** `match.group(1).strip()` when the search matched; `None` when it did not. */
  function Extract(text: string, tag: string): (r: Option<string>)
    ensures r.Some? <==> MatchFenced(text, tag).Some?
    ensures r.Some? ==> r.value == Strip(text[MatchFenced(text, tag).value.0..MatchFenced(text, tag).value.1])
  {
    match MatchFenced(text, tag)
    case None => None
    case Some((a, b)) => Some(Strip(text[a..b]))
  }

  /**
   * A reply holding one block: text before the first opener, the code, a
   * closing fence, then anything. The extraction is the stripped code. The code
   * must not run into a fence, not even with the closer's backticks: code that
   * ends in a backtick is cut short by the lazy group, as the regex does.
   */
  lemma ExtractBlock(pre: string, tag: string, code: string, post: string)
    requires forall k :: 0 <= k < |pre| ==> !OccursAt(pre + Opener(tag) + code + Fence + post, Opener(tag), k)
    requires forall k :: 0 <= k < |code| ==> !OccursAt(code + Fence, Fence, k)
    ensures Extract(pre + Opener(tag) + code + Fence + post, tag) == Some(Strip(code))
  {
    var open := Opener(tag);
    var text := pre + open + code + Fence + post;
    var a0 := |pre| + |open|;
    var c := a0 + |code|;
    var w := code + Fence;
    assert text[|pre|..a0] == open;
    assert text[a0..c] == code;
    assert text[a0..c + |Fence|] == w;
    assert OccursAt(text, Fence, c);
    assert MatchesAt(text, open, |pre|);
    forall k | 0 <= k < |pre| ensures !MatchesAt(text, open, k) {
    }
    forall k | a0 <= k < c ensures !OccursAt(text, Fence, k) {
      assert text[k..k + |Fence|] == w[k - a0..k - a0 + |Fence|];
      assert !OccursAt(w, Fence, k - a0);
    }
    var (a, b) := MatchFenced(text, tag).value;
    assert a == a0 && b == c;
  }

  /**
   * The match always begins at the leftmost opener of the text: no opener,
   * with or without a closer, occurs before it.
   */
  lemma MatchStartsAtFirstOpener(text: string, tag: string)
    requires MatchFenced(text, tag).Some?
    ensures var (a, b) := MatchFenced(text, tag).value;
      forall k :: 0 <= k < a - |Opener(tag)| ==> !OccursAt(text, Opener(tag), k)
  {
    var open := Opener(tag);
    var (a, b) := MatchFenced(text, tag).value;
    forall k | 0 <= k < a - |open| ensures !OccursAt(text, open, k) {
      assert k + |open| <= b && OccursAt(text, Fence, b);
      assert ClosedAfter(text, k + |open|);
      assert !MatchesAt(text, open, k);
    }
  }

  /**
   * If the first opener of the text has no closer after it, nothing matches
   * and the extraction reports no code (the "invalid code" paths).
   */
  lemma NoMatchWithoutCloserAfterFirstOpener(text: string, tag: string, first: nat)
    requires OccursAt(text, Opener(tag), first)
    requires forall k :: 0 <= k < first ==> !OccursAt(text, Opener(tag), k)
    requires forall j :: first + |Opener(tag)| <= j ==> !OccursAt(text, Fence, j)
    ensures Extract(text, tag) == None
  {
    var open := Opener(tag);
    forall k | 0 <= k ensures !MatchesAt(text, open, k) {
      if first <= k {
        assert !ClosedAfter(text, k + |open|);
      }
    }
  }

  /** A text with no fence at all yields no code, whatever the tag. */
  lemma NoFenceNoMatch(text: string, tag: string)
    requires forall k :: 0 <= k ==> !OccursAt(text, Fence, k)
    ensures Extract(text, tag) == None
  {
    var open := Opener(tag);
    forall k | 0 <= k ensures !OccursAt(text, open, k) {
      if OccursAt(text, open, k) {
        assert text[k..k + |Fence|] == open[..|Fence|];
        assert OccursAt(text, Fence, k);
      }
    }
  }

  /** An occurrence inside a slice is an occurrence in the whole string, within the slice. */
  lemma OccursInSlice(s: string, lo: nat, hi: nat, pat: string, k: nat)
    requires lo <= hi <= |s|
    requires OccursAt(s[lo..hi], pat, k)
    ensures OccursAt(s, pat, lo + k) && lo + k + |pat| <= hi
  {
    var t := s[lo..hi];
    assert k + |pat| <= |t|;
    assert forall i :: 0 <= i < |pat| ==> pat[i] == t[k + i] == s[lo + k + i];
  }

  /** The group of a match holds no fence: it ends at the first closer. */
  lemma GroupHasNoFence(text: string, tag: string)
    requires MatchFenced(text, tag).Some?
    ensures var (a, b) := MatchFenced(text, tag).value;
      b <= |text| && forall k :: 0 <= k ==> !OccursAt(text[a..b], Fence, k)
  {
    var (a, b) := MatchFenced(text, tag).value;
    forall k | 0 <= k ensures !OccursAt(text[a..b], Fence, k) {
      if OccursAt(text[a..b], Fence, k) {
        OccursInSlice(text, a, b, Fence, k);
      }
    }
  }

  /** Stripping cannot create a fence. */
  lemma StripKeepsNoFence(g: string)
    requires forall k :: 0 <= k ==> !OccursAt(g, Fence, k)
    ensures forall k :: 0 <= k ==> !OccursAt(Strip(g), Fence, k)
  {
    var c := Strip(g);
    var off := LeadingSpaces(g);
    forall k | 0 <= k ensures !OccursAt(c, Fence, k) {
      if OccursAt(c, Fence, k) {
        OccursInSlice(g, off, off + |c|, Fence, k);
      }
    }
  }

  /** The extracted code holds no fence, so extracting again from it finds no block. */
  lemma ExtractAgainFindsNothing(text: string, tag: string, tag': string)
    requires Extract(text, tag).Some?
    ensures forall k :: 0 <= k ==> !OccursAt(Extract(text, tag).value, Fence, k)
    ensures Extract(Extract(text, tag).value, tag') == None
  {
    var (a, b) := MatchFenced(text, tag).value;
    GroupHasNoFence(text, tag);
    StripKeepsNoFence(text[a..b]);
    NoFenceNoMatch(Extract(text, tag).value, tag');
  }
}

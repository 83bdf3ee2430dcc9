/** The optional-value wrapper used for the source's `None`-or-value results. */
module Wrappers {
  datatype Option<+T> = None | Some(value: T)
}

/**
 * The Python string operations the core relies on: `str.strip()`,
 * `str.upper()`, substring search (`in`, `re.search` building blocks),
 * `str.join` and slicing with clamped bounds.
 */
module Text {
  import opened Wrappers

  /** Python's `str.isspace()` for one character: the characters `str.strip()` removes. */
  predicate IsSpace(c: char) {
    || ('\t' <= c <= '\r')
    || ('\U{1C}' <= c <= ' ')
    || c == '\U{85}' || c == '\U{A0}' || c == '\U{1680}'
    || ('\U{2000}' <= c <= '\U{200A}')
    || c == '\U{2028}' || c == '\U{2029}' || c == '\U{202F}' || c == '\U{205F}' || c == '\U{3000}'
  }

  predicate AllSpace(s: string) {
    forall i :: 0 <= i < |s| ==> IsSpace(s[i])
  }

  /** Number of whitespace characters at the front of `s`. */
  function LeadingSpaces(s: string): (n: nat)
    ensures n <= |s|
    ensures forall i :: 0 <= i < n ==> IsSpace(s[i])
    ensures n < |s| ==> !IsSpace(s[n])
  {
    if |s| == 0 || !IsSpace(s[0]) then 0 else 1 + LeadingSpaces(s[1..])
  }

  /** Number of whitespace characters at the back of `s`. */
  function TrailingSpaces(s: string): (n: nat)
    ensures n <= |s|
    ensures forall i :: |s| - n <= i < |s| ==> IsSpace(s[i])
    ensures n < |s| ==> !IsSpace(s[|s| - 1 - n])
  {
    if |s| == 0 || !IsSpace(s[|s| - 1]) then 0 else 1 + TrailingSpaces(s[..|s| - 1])
  }

  /**
   * Python's `s.strip()`: the longest slice of `s` that neither starts nor ends
   * with whitespace, obtained by dropping only whitespace on both sides.
   */
  function Strip(s: string): (r: string)
    ensures LeadingSpaces(s) + |r| <= |s|
    ensures r == s[LeadingSpaces(s)..LeadingSpaces(s) + |r|]
    ensures forall k :: LeadingSpaces(s) + |r| <= k < |s| ==> IsSpace(s[k])
    ensures r == [] || (!IsSpace(r[0]) && !IsSpace(r[|r| - 1]))
  {
    var t := s[LeadingSpaces(s)..];
    t[..|t| - TrailingSpaces(t)]
  }

  /** The whitespace count at the front is determined by where the first non-space is. */
  lemma LeadingSpacesUnique(x: string, n: nat)
    requires n <= |x|
    requires forall i :: 0 <= i < n ==> IsSpace(x[i])
    requires n < |x| ==> !IsSpace(x[n])
    ensures LeadingSpaces(x) == n
  {
    var m := LeadingSpaces(x);
  }

  /**
   * `strip()` is determined by its contract: if `x[a..b]` is bordered by
   * whitespace only and does not itself start or end with whitespace, it is
   * the strip of `x`.
   */
  lemma StripUnique(x: string, a: nat, b: nat)
    requires a <= b <= |x|
    requires forall i :: 0 <= i < a ==> IsSpace(x[i])
    requires forall i :: b <= i < |x| ==> IsSpace(x[i])
    requires a == b || (!IsSpace(x[a]) && !IsSpace(x[b - 1]))
    ensures Strip(x) == x[a..b]
  {
    var r := Strip(x);
    if a == b {
      LeadingSpacesUnique(x, |x|);
    } else {
      LeadingSpacesUnique(x, a);
      assert r[|r| - 1] == x[a + |r| - 1];
    }
  }

  /** A string with no whitespace at either end is its own strip. */
  lemma StripTrimmed(s: string)
    requires s == [] || (!IsSpace(s[0]) && !IsSpace(s[|s| - 1]))
    ensures Strip(s) == s
  {
    StripUnique(s, 0, |s|);
  }

  /** Stripping twice is stripping once. */
  lemma StripIdempotent(s: string)
    ensures Strip(Strip(s)) == Strip(s)
  {
    StripTrimmed(Strip(s));
  }

  /** Whitespace padding around a trimmed string is exactly what `strip()` removes. */
  lemma StripPadded(w1: string, s: string, w2: string)
    requires AllSpace(w1) && AllSpace(w2)
    requires s == [] || (!IsSpace(s[0]) && !IsSpace(s[|s| - 1]))
    ensures Strip(w1 + s + w2) == s
  {
    var x := w1 + s + w2;
    var a, b := |w1|, |w1| + |s|;
    forall i | 0 <= i < a ensures IsSpace(x[i]) {
      assert x[i] == w1[i];
    }
    forall i | b <= i < |x| ensures IsSpace(x[i]) {
      assert x[i] == w2[i - b];
    }
    if s != [] {
      assert x[a] == s[0] && x[b - 1] == s[|s| - 1];
    }
    StripUnique(x, a, b);
    assert x[a..b] == s;
  }

  /** A non-space character survives stripping: it lies inside the kept slice. */
  lemma StripKeepsNonSpace(s: string, p: nat)
    requires p < |s| && !IsSpace(s[p])
    ensures LeadingSpaces(s) <= p < LeadingSpaces(s) + |Strip(s)|
    ensures Strip(s)[p - LeadingSpaces(s)] == s[p]
  {
  }

  /** Python's `str.upper()` on one character, for the ASCII letters. */
  function UpperChar(c: char): char {
    if 'a' <= c <= 'z' then (c as int - 32) as char else c
  }

  /** Python's `s.upper()`, character by character. */
  function Upper(s: string): (r: string)
    ensures |r| == |s|
    ensures forall i :: 0 <= i < |s| ==> r[i] == UpperChar(s[i])
  {
    seq(|s|, i requires 0 <= i < |s| => UpperChar(s[i]))
  }

  /** `pat` occurs in `s` starting at index `i`. */
  predicate OccursAt(s: string, pat: string, i: nat) {
    i + |pat| <= |s| && s[i..i + |pat|] == pat
  }

  /** Python's `s.find(pat, start)`: the first occurrence of `pat` at or after `start`. */
  function IndexOf(s: string, pat: string, start: nat): (r: Option<nat>)
    decreases |s| - start
    ensures r.Some? ==> start <= r.value && OccursAt(s, pat, r.value)
    ensures r.Some? ==> forall k :: start <= k < r.value ==> !OccursAt(s, pat, k)
    ensures r.None? ==> forall k :: start <= k ==> !OccursAt(s, pat, k)
  {
    if start + |pat| > |s| then None
    else if OccursAt(s, pat, start) then Some(start)
    else IndexOf(s, pat, start + 1)
  }

  /** Python's `pat in s` on strings. */
  predicate Contains(s: string, pat: string)
    ensures Contains(s, pat) <==> exists k :: OccursAt(s, pat, k)
  {
    IndexOf(s, pat, 0).Some?
  }

  /** Python's `s[:n]`, which clamps `n` to the length of `s`. */
  function Take(s: string, n: nat): (r: string)
    ensures r <= s
    ensures |r| == if |s| < n then |s| else n
  {
    if |s| <= n then s else s[..n]
  }

  /** Python's `sep.join(parts)`. */
  function Join(sep: string, parts: seq<string>): (r: string)
    ensures parts == [] ==> r == ""
    ensures parts != [] ==> parts[0] <= r
    ensures |parts| == 1 ==> r == parts[0]
  {
    if |parts| == 0 then ""
    else if |parts| == 1 then parts[0]
    else parts[0] + sep + Join(sep, parts[1..])
  }

  /** Joining two non-empty runs of parts puts one separator between their joins. */
  lemma {:induction false} JoinAppend(sep: string, a: seq<string>, b: seq<string>)
    requires a != [] && b != []
    ensures Join(sep, a + b) == Join(sep, a) + sep + Join(sep, b)
  {
    var ab := a + b;
    assert ab[0] == a[0];
    assert Join(sep, ab) == a[0] + sep + Join(sep, ab[1..]);
    if |a| == 1 {
      assert ab[1..] == b;
    } else {
      assert ab[1..] == a[1..] + b;
      JoinAppend(sep, a[1..], b);
      assert Join(sep, a) == a[0] + sep + Join(sep, a[1..]);
    }
  }

  /** Python's `s.split(c)` for a one-character separator: the inverse of `Join([c], _)`. */
  function Split(s: string, c: char): (parts: seq<string>)
    ensures |parts| >= 1
  {
    if |s| == 0 then [""]
    else
      var rest := Split(s[1..], c);
      if s[0] == c then [""] + rest else [[s[0]] + rest[0]] + rest[1..]
  }

  /** A separator-free string splits into itself; one separator after it starts a new part. */
  lemma {:induction false} SplitAfterPart(p: string, c: char, t: string)
    requires c !in p
    ensures Split(p, c) == [p]
    ensures Split(p + [c] + t, c) == [p] + Split(t, c)
  {
    if p == [] {
      assert p + [c] + t == [c] + t;
      assert ([c] + t)[1..] == t;
    } else {
      SplitAfterPart(p[1..], c, t);
      assert (p + [c] + t)[1..] == p[1..] + [c] + t;
      assert [p[0]] + p[1..] == p;
    }
  }

  /** Splitting a join on a separator that no part contains gives back the parts. */
  lemma {:induction false} SplitJoin(parts: seq<string>, c: char)
    requires |parts| >= 1
    requires forall i :: 0 <= i < |parts| ==> c !in parts[i]
    ensures Split(Join([c], parts), c) == parts
  {
    if |parts| == 1 {
      SplitAfterPart(parts[0], c, "");
    } else {
      SplitJoin(parts[1..], c);
      SplitAfterPart(parts[0], c, Join([c], parts[1..]));
      assert [parts[0]] + parts[1..] == parts;
    }
  }
}

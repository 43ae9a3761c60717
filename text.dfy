/** The three Python string operations the scripts rely on: the `in`
    operator on strings, `s.split(sep)[0]` and `s.strip(c)` for a single
    character `c`. */
module Text {

  /** Python's `sub in s`: `sub` occurs in `s` as a contiguous block (the
      empty string occurs in every string). */
  predicate Contains(s: string, sub: string)
    decreases |s|
    ensures Contains(s, sub) <==> exists i: nat :: OccursAt(s, sub, i)
  {
    if |s| < |sub| then false
    else
      assert OccursAt(s, sub, 0) <==> s[..|sub|] == sub;
      s[..|sub|] == sub || (OccursLater(s, sub); Contains(s[1..], sub))
  }

  /** `sub` is the block of `s` that starts at position `i`. */
  predicate OccursAt(s: string, sub: string, i: nat)
  {
    i + |sub| <= |s| && s[i..i + |sub|] == sub
  }

  /** The occurrences in `s` after its first character are those in
      `s[1..]`, one position further on. */
  lemma OccursLater(s: string, sub: string)
    requires s != []
    ensures (exists i: nat :: OccursAt(s[1..], sub, i)) <==> (exists i: nat :: i > 0 && OccursAt(s, sub, i))
  {
    if i: nat :| OccursAt(s[1..], sub, i) {
      TailBlock(s, i, |sub|);
      assert OccursAt(s, sub, i + 1);
    }
    if i: nat :| i > 0 && OccursAt(s, sub, i) {
      TailBlock(s, i - 1, |sub|);
      assert OccursAt(s[1..], sub, i - 1);
    }
  }

  /** A block of `s[1..]` is the block of `s` one position further on. */
  lemma TailBlock(s: string, i: nat, len: nat)
    requires s != [] && i + len < |s|
    ensures s[1..][i..i + len] == s[i + 1..i + 1 + len]
  {
    var a, b := s[1..][i..i + len], s[i + 1..i + 1 + len];
    assert forall k :: 0 <= k < len ==> a[k] == b[k];
  }

  /** A string contains whatever it starts with. */
  lemma ContainsPrefix(sub: string, rest: string)
    ensures Contains(sub + rest, sub)
  {
    assert (sub + rest)[..|sub|] == sub;
  }

  /** `s.split(sep)[0]`: the part of `s` before the first `sep`, or all of
      `s` when it holds no `sep`. */
  function BeforeFirst(s: string, sep: char): (r: string)
    ensures |r| <= |s| && r == s[..|r|]
    ensures sep !in r
    ensures |r| < |s| ==> s[|r|] == sep
  {
    if s == [] || s[0] == sep then [] else [s[0]] + BeforeFirst(s[1..], sep)
  }

  /** The part before the first separator is found again when more text,
      separator first, is appended to a separator-free string. */
  lemma {:induction false} BeforeFirstOfJoin(head: string, sep: char, tail: string)
    requires sep !in head
    ensures BeforeFirst(head + [sep] + tail, sep) == head
  {
    if head != [] {
      assert (head + [sep] + tail)[1..] == head[1..] + [sep] + tail;
      BeforeFirstOfJoin(head[1..], sep, tail);
    }
  }

  /** Every character of `s` at a position in `[lo, hi)` is `c`. */
  predicate AllOf(s: string, c: char, lo: int, hi: int)
    requires 0 <= lo && hi <= |s|
  {
    forall k :: lo <= k < hi ==> s[k] == c
  }

  /** The length of the run of `c` that `s` starts with. */
  function LeadingRun(s: string, c: char): (n: nat)
    ensures n <= |s| && AllOf(s, c, 0, n)
    ensures n < |s| ==> s[n] != c
  {
    if s != [] && s[0] == c then 1 + LeadingRun(s[1..], c) else 0
  }

  /** The length of the run of `c` that `s` ends with. */
  function TrailingRun(s: string, c: char): (n: nat)
    ensures n <= |s| && AllOf(s, c, |s| - n, |s|)
    ensures n < |s| ==> s[|s| - n - 1] != c
  {
    if s != [] && s[|s| - 1] == c then 1 + TrailingRun(s[..|s| - 1], c) else 0
  }

  /** `s.lstrip(c)`: `s` without its leading run of `c`. */
  function StripLeft(s: string, c: char): (r: string)
    ensures |r| <= |s| && r == s[|s| - |r|..]
    ensures AllOf(s, c, 0, |s| - |r|)
    ensures r != [] ==> r[0] != c
  {
    s[LeadingRun(s, c)..]
  }

  /** `s.rstrip(c)`: `s` without its trailing run of `c`. */
  function StripRight(s: string, c: char): (r: string)
    ensures |r| <= |s| && r == s[..|r|]
    ensures AllOf(s, c, |r|, |s|)
    ensures r != [] ==> r[|r| - 1] != c
  {
    s[..|s| - TrailingRun(s, c)]
  }

  /** `s.strip(c)`: the block of `s` left after removing the runs of `c` at
      both ends, and only there. */
  function Strip(s: string, c: char): (r: string)
    ensures |r| <= |s|
    ensures var lead := |s| - |StripLeft(s, c)|;
      && lead + |r| <= |s|
      && r == s[lead..lead + |r|]
      && AllOf(s, c, 0, lead)
      && AllOf(s, c, lead + |r|, |s|)
    ensures r != [] ==> r[0] != c && r[|r| - 1] != c
  {
    StripBoth(s, c);
    StripRight(StripLeft(s, c), c)
  }

  /** Where the block that `strip` leaves sits in `s`. */
  lemma StripBoth(s: string, c: char)
    ensures var l := StripLeft(s, c);
      var r := StripRight(l, c);
      var lead := |s| - |l|;
      && lead + |r| <= |s|
      && r == s[lead..lead + |r|]
      && AllOf(s, c, lead + |r|, |s|)
      && (r != [] ==> r[0] != c)
  {
    var l := StripLeft(s, c);
    BlockOfSuffix(s, l, StripRight(l, c), c);
  }

  /** A start `r` of a suffix `l` of `s`: it sits at `|s| - |l|` in `s`, and
      a run of `c` after it in `l` is a run of `c` in `s`. */
  lemma BlockOfSuffix(s: string, l: string, r: string, c: char)
    requires |l| <= |s| && l == s[|s| - |l|..]
    requires |r| <= |l| && r == l[..|r|]
    requires AllOf(l, c, |r|, |l|)
    requires l != [] ==> l[0] != c
    ensures var lead := |s| - |l|;
      && lead + |r| <= |s|
      && r == s[lead..lead + |r|]
      && AllOf(s, c, lead + |r|, |s|)
      && (r != [] ==> r[0] != c)
  {
    var lead := |s| - |l|;
    forall k | lead + |r| <= k < |s|
      ensures s[k] == c
    {
      assert s[k] == l[k - lead];
    }
    assert r == s[lead..lead + |r|];
  }
}

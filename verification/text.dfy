/** The handful of Python string operations the modelled code relies on. */
module Text {
  import opened Wrappers

  /** Python's `w in s` for strings: `w` occurs as a contiguous substring of `s`. */
  predicate Contains(s: string, w: string) {
    exists i | 0 <= i <= |s| - |w| :: OccursAt(s, w, i)
  }

  /** `w` occurs in `s` starting at position `i`. */
  predicate OccursAt(s: string, w: string, i: int) {
    0 <= i <= |s| - |w| && s[i..i + |w|] == w
  }

  /** Python's `s.startswith(p)`. */
  predicate StartsWith(s: string, p: string) {
    |p| <= |s| && s[..|p|] == p
  }

  /** A word cannot occur in a text that lacks one of its characters. */
  lemma AbsentCharExcludes(s: string, w: string, k: nat)
    requires k < |w| && w[k] !in s
    ensures !Contains(s, w)
  {
    forall i | 0 <= i <= |s| - |w|
      ensures !OccursAt(s, w, i)
    {
      assert s[i + k] in s;
      assert s[i..i + |w|][k] == s[i + k];
    }
  }

  /** A prefix occurrence witnesses containment. */
  lemma PrefixContains(s: string, w: string)
    requires StartsWith(s, w)
    ensures Contains(s, w)
  {
    assert OccursAt(s, w, 0);
  }

  /** An occurrence inside a part of the text is an occurrence in the text. */
  lemma InfixContains(a: string, b: string, c: string, w: string)
    requires Contains(b, w)
    ensures Contains(a + b + c, w)
  {
    var i :| 0 <= i <= |b| - |w| && OccursAt(b, w, i);
    var s := a + b + c;
    assert s[|a| + i..|a| + i + |w|] == b[i..i + |w|];
    assert OccursAt(s, w, |a| + i);
  }

  /** An occurrence after the first character is an occurrence in the whole text. */
  lemma TailContains(s: string, w: string)
    requires |s| > 0
    ensures Contains(s[1..], w) ==> Contains(s, w)
  {
    if Contains(s[1..], w) {
      var i :| 0 <= i <= |s[1..]| - |w| && OccursAt(s[1..], w, i);
      assert s[i + 1..i + 1 + |w|] == s[1..][i..i + |w|];
      assert OccursAt(s, w, i + 1);
    }
  }

  /**
   * Python's `s.replace(pat, rep)`: every non-overlapping occurrence of `pat`,
   * scanning left to right, is replaced by `rep`.
   */
  function ReplaceAll(s: string, pat: string, rep: string): string
    requires |pat| > 0
    decreases |s|
  {
    if |s| < |pat| then s
    else if s[..|pat|] == pat then rep + ReplaceAll(s[|pat|..], pat, rep)
    else [s[0]] + ReplaceAll(s[1..], pat, rep)
  }

  /** A text without the pattern is left as it is. */
  lemma {:induction false} ReplaceWithoutMatch(s: string, pat: string, rep: string)
    requires |pat| > 0 && !Contains(s, pat)
    ensures ReplaceAll(s, pat, rep) == s
    decreases |s|
  {
    if |s| >= |pat| {
      assert !OccursAt(s, pat, 0);
      TailContains(s, pat);
      ReplaceWithoutMatch(s[1..], pat, rep);
      assert s == [s[0]] + s[1..];
    }
  }

  /** Python's `s.find(pat)`: the first position where `pat` occurs, if there is one. */
  function Find(s: string, pat: string): (r: Option<nat>)
    requires |pat| > 0
    ensures r.Some? ==> OccursAt(s, pat, r.value)
    ensures r.Some? ==> forall j :: 0 <= j < r.value ==> !OccursAt(s, pat, j)
    ensures r.None? ==> !Contains(s, pat)
    decreases |s|
  {
    if |s| < |pat| then None
    else if s[..|pat|] == pat then Some(0)
    else
      match Find(s[1..], pat)
      case None =>
        NoMatchInTail(s, pat);
        None
      case Some(k) =>
        OccursShift(s, pat, k);
        forall j | 0 < j < k + 1
          ensures !OccursAt(s, pat, j)
        {
          OccursShift(s, pat, j - 1);
        }
        Some(k + 1)
  }

  /** A text whose front and tail both lack `pat` lacks it. */
  lemma NoMatchInTail(s: string, pat: string)
    requires |pat| > 0 && |s| >= |pat| && s[..|pat|] != pat && !Contains(s[1..], pat)
    ensures !Contains(s, pat)
  {
    forall j | 0 < j <= |s| - |pat|
      ensures !OccursAt(s, pat, j)
    {
      OccursShift(s, pat, j - 1);
    }
  }

  /**
   * Replacement works left to right: the first occurrence of `pat` is
   * replaced, the text before it is kept, and replacement resumes after it.
   */
  lemma ReplaceFirst(s: string, pat: string, rep: string)
    requires |pat| > 0 && Find(s, pat).Some?
    ensures var i := Find(s, pat).value;
      ReplaceAll(s, pat, rep) == s[..i] + rep + ReplaceAll(s[i + |pat|..], pat, rep)
  {
    var i := Find(s, pat).value;
    var u, w := s[..i], s[i + |pat|..];
    assert s == u + (pat + w) by {
      assert s[i..i + |pat|] == pat;
    }
    KeepUnmatchedPrefix(u, pat + w, pat, rep);
    ReplaceLeading(pat, w, rep);
  }

  /** A prefix in which no occurrence of `pat` starts is kept as it is. */
  lemma {:induction false} KeepUnmatchedPrefix(u: string, w: string, pat: string, rep: string)
    requires |pat| > 0
    requires forall j :: 0 <= j < |u| ==> !OccursAt(u + w, pat, j)
    ensures ReplaceAll(u + w, pat, rep) == u + ReplaceAll(w, pat, rep)
    decreases |u|
  {
    if |u| == 0 {
      assert u + w == w;
    } else {
      var s := u + w;
      assert s[1..] == u[1..] + w;
      forall j | 0 <= j < |u| - 1
        ensures !OccursAt(u[1..] + w, pat, j)
      {
        OccursShift(s, pat, j);
      }
      KeepUnmatchedPrefix(u[1..], w, pat, rep);
      if |s| >= |pat| {
        assert !OccursAt(s, pat, 0);
        assert ReplaceAll(s, pat, rep) == [s[0]] + ReplaceAll(s[1..], pat, rep);
      } else {
        ReplaceWithoutMatch(s, pat, rep);
        ReplaceWithoutMatch(w, pat, rep);
      }
      assert [u[0]] + (u[1..] + ReplaceAll(w, pat, rep)) == u + ReplaceAll(w, pat, rep);
    }
  }

  /** An occurrence in the tail is an occurrence one position later in the text. */
  lemma OccursShift(s: string, pat: string, j: nat)
    requires |s| > 0
    ensures OccursAt(s[1..], pat, j) <==> OccursAt(s, pat, j + 1)
  {
    if j + |pat| <= |s| - 1 {
      assert s[1..][j..j + |pat|] == s[j + 1..j + 1 + |pat|];
    }
  }

  /** Removing every occurrence of a one-character pattern leaves no such character. */
  lemma {:induction false} RemovedCharAbsent(s: string, c: char)
    ensures c !in ReplaceAll(s, [c], "")
    decreases |s|
  {
    if |s| >= 1 {
      if s[..1] == [c] {
        RemovedCharAbsent(s[1..], c);
      } else {
        RemovedCharAbsent(s[1..], c);
        assert s[0] != c;
      }
    }
  }

  /** Replacing a pattern that starts the text removes it from the front. */
  lemma ReplaceLeading(pat: string, s: string, rep: string)
    requires |pat| > 0
    ensures ReplaceAll(pat + s, pat, rep) == rep + ReplaceAll(s, pat, rep)
  {
    assert (pat + s)[..|pat|] == pat;
    assert (pat + s)[|pat|..] == s;
  }

  /** Python's `sep.join(parts)`. */
  function Join(sep: string, parts: seq<string>): (r: string)
    ensures |parts| == 1 ==> r == parts[0]
    ensures |parts| == 0 ==> r == ""
  {
    if |parts| == 0 then ""
    else if |parts| == 1 then parts[0]
    else parts[0] + sep + Join(sep, parts[1..])
  }

  /** The decimal digit for `d`. */
  function Digit(d: nat): char
    requires d < 10
  {
    "0123456789"[d]
  }

  /** Python's `str(n)` for a non-negative integer. */
  function NatToString(n: nat): (r: string)
    ensures |r| >= 1
    ensures forall k :: 0 <= k < |r| ==> '0' <= r[k] <= '9'
    decreases n
  {
    if n < 10 then [Digit(n)] else NatToString(n / 10) + [Digit(n % 10)]
  }

  /** Python's `str(n)` for any integer. */
  function IntToString(n: int): (r: string)
    ensures |r| >= 1
    ensures (n < 0) <==> r[0] == '-'
  {
    if n < 0 then "-" + NatToString(-n) else NatToString(n)
  }

  /**
   * A word is absent from `a + b + c` when it is absent from `b`, cannot
   * start inside `a`, and shares no character with `c`.
   */
  lemma ExcludedAround(a: string, b: string, c: string, w: string)
    requires |w| > 0 && w[0] !in a && !Contains(b, w)
    requires forall k :: 0 <= k < |c| ==> c[k] !in w
    ensures !Contains(a + b + c, w)
  {
    var s := a + b + c;
    forall p | 0 <= p <= |s| - |w|
      ensures !OccursAt(s, w, p)
    {
      if p < |a| {
        assert s[p..p + |w|][0] == a[p];
      } else if p + |w| <= |a| + |b| {
        assert s[p..p + |w|] == b[p - |a|..p - |a| + |w|];
        assert !OccursAt(b, w, p - |a|);
      } else {
        var x := if p < |a| + |b| then |a| + |b| else p;
        assert s[x] == c[x - |a| - |b|];
        assert s[p..p + |w|][x - p] == s[x];
      }
    }
  }

  /** Removing newlines from a newline-free text followed by one newline leaves the text. */
  lemma {:induction false} DropTrailingNewline(b: string)
    requires '\n' !in b
    ensures ReplaceAll(b + "\n", "\n", "") == b
  {
    if |b| > 0 {
      assert (b + "\n")[..1] == [b[0]];
      assert (b + "\n")[1..] == b[1..] + "\n";
      DropTrailingNewline(b[1..]);
      assert b == [b[0]] + b[1..];
    }
  }
}

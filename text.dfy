/**
 * The few java.lang.String and commons-lang StringUtils operations the agent relies on:
 * indexOf, lastIndexOf, contains and isBlank, over strings as sequences of characters.
 */
module Text {
  import opened Wrappers

  /** `pat` occurs in `s` starting at index `i`. */
  predicate OccursAt(s: string, pat: string, i: int) {
    0 <= i && i + |pat| <= |s| && s[i..i + |pat|] == pat
  }

  /** The smallest index at least `k` at which `pat` occurs, or -1. */
  function IndexFrom(s: string, pat: string, k: nat): (r: int)
    ensures r == -1 || (k <= r && OccursAt(s, pat, r))
    ensures forall j :: k <= j && (r == -1 || j < r) ==> !OccursAt(s, pat, j)
    decreases |s| - k + 1
  {
    if k + |pat| > |s| then -1
    else if OccursAt(s, pat, k) then k
    else IndexFrom(s, pat, k + 1)
  }

  /** Java's String.indexOf: the first index at which `pat` occurs, or -1 when it does not occur. */
  function IndexOf(s: string, pat: string): (r: int)
    ensures r == -1 <==> forall j :: !OccursAt(s, pat, j)
    ensures r != -1 ==> OccursAt(s, pat, r) && forall j :: j < r ==> !OccursAt(s, pat, j)
  {
    IndexFrom(s, pat, 0)
  }

  /** The greatest index at most `k` at which `pat` occurs, or -1. */
  function LastIndexFrom(s: string, pat: string, k: int): (r: int)
    ensures r == -1 || (0 <= r <= k && OccursAt(s, pat, r))
    ensures forall j :: r < j <= k ==> !OccursAt(s, pat, j)
    decreases k + 1
  {
    if k < 0 then -1
    else if OccursAt(s, pat, k) then k
    else LastIndexFrom(s, pat, k - 1)
  }

  /** Java's String.lastIndexOf: the last index at which `pat` occurs, or -1 when it does not occur. */
  function LastIndexOf(s: string, pat: string): (r: int)
    ensures r == -1 <==> forall j :: !OccursAt(s, pat, j)
    ensures r != -1 ==> OccursAt(s, pat, r) && forall j :: r < j ==> !OccursAt(s, pat, j)
  {
    LastIndexFrom(s, pat, |s| - |pat|)
  }

  /** Java's String.contains. */
  function Contains(s: string, pat: string): (b: bool)
    ensures b <==> exists j :: OccursAt(s, pat, j)
  {
    IndexOf(s, pat) != -1
  }

  /** A one-character pattern occurs exactly where that character stands. */
  lemma OccursAtChar(s: string, c: char, i: int)
    ensures OccursAt(s, [c], i) <==> 0 <= i < |s| && s[i] == c
  {
    if 0 <= i < |s| {
      assert s[i..i + 1] == [s[i]];
    }
  }

  /** indexOf on one character: -1 exactly when the character is absent, otherwise its first position. */
  lemma IndexOfChar(s: string, c: char)
    ensures IndexOf(s, [c]) == -1 <==> c !in s
    ensures IndexOf(s, [c]) != -1 ==>
      0 <= IndexOf(s, [c]) < |s| && s[IndexOf(s, [c])] == c && c !in s[..IndexOf(s, [c])]
  {
    var r := IndexOf(s, [c]);
    OccursAtChar(s, c, r);
    forall k | 0 <= k < |s| && s[k] == c
      ensures r != -1 && r <= k
    {
      OccursAtChar(s, c, k);
    }
    if r != -1 {
      forall k | 0 <= k < r
        ensures s[..r][k] != c
      {
        OccursAtChar(s, c, k);
      }
    }
  }

  /** The first `c` in `a + [c] + b` is the one after `a` when `a` holds no `c`. */
  lemma IndexOfAfter(a: string, c: char, b: string)
    requires c !in a
    ensures IndexOf(a + [c] + b, [c]) == |a|
  {
    var s := a + [c] + b;
    OccursAtChar(s, c, |a|);
    var r := IndexOf(s, [c]);
    OccursAtChar(s, c, r);
  }

  /** The last `c` in `a + [c] + b` is the one after `a` when `b` holds no `c`. */
  lemma LastIndexOfBefore(a: string, c: char, b: string)
    requires c !in b
    ensures LastIndexOf(a + [c] + b, [c]) == |a|
  {
    var s := a + [c] + b;
    OccursAtChar(s, c, |a|);
    var r := LastIndexOf(s, [c]);
    OccursAtChar(s, c, r);
  }

  /** The text before the first `c` and the text from that `c` on, or None when `s` holds no `c`. */
  function SplitAtFirst(s: string, c: char): Option<(string, string)> {
    var i := IndexOf(s, [c]);
    if i == -1 then None else Some((s[..i], s[i..]))
  }

  /** The text before the last `c` and the text from that `c` on, or None when `s` holds no `c`. */
  function SplitAtLast(s: string, c: char): Option<(string, string)> {
    var i := LastIndexOf(s, [c]);
    if i == -1 then None else Some((s[..i], s[i..]))
  }

  lemma SplitAtFirstOf(a: string, c: char, b: string)
    requires c !in a
    ensures SplitAtFirst(a + [c] + b, c) == Some((a, [c] + b))
  {
    IndexOfAfter(a, c, b);
    assert (a + [c] + b)[..|a|] == a;
    assert (a + [c] + b)[|a|..] == [c] + b;
  }

  lemma SplitAtFirstSound(s: string, c: char)
    requires SplitAtFirst(s, c).Some?
    ensures var (x, y) := SplitAtFirst(s, c).value; s == x + y && c !in x && |y| > 0 && y[0] == c
  {
    IndexOfChar(s, c);
    var i := IndexOf(s, [c]);
    assert s == s[..i] + s[i..];
  }

  lemma SplitAtLastOf(a: string, c: char, b: string)
    requires c !in b
    ensures SplitAtLast(a + [c] + b, c) == Some((a, [c] + b))
  {
    LastIndexOfBefore(a, c, b);
    assert (a + [c] + b)[..|a|] == a;
    assert (a + [c] + b)[|a|..] == [c] + b;
  }

  lemma SplitAtLastSound(s: string, c: char)
    requires SplitAtLast(s, c).Some?
    ensures var (x, y) := SplitAtLast(s, c).value; s == x + y && |y| > 0 && y[0] == c && c !in y[1..]
  {
    var i := LastIndexOf(s, [c]);
    OccursAtChar(s, c, i);
    forall k | i < k < |s| ensures s[k] != c {
      OccursAtChar(s, c, k);
    }
    assert s == s[..i] + s[i..];
  }

  /**
   * java.lang.Character.isWhitespace as in Java 5 to 8, whose Unicode tables still list U+180E as a
   * space separator (Java 9 and later do not).
   */
  predicate IsWhitespace(c: char) {
    || c == ' ' || c == '\t' || c == '\n' || c == '\U{B}' || c == '\U{C}' || c == '\r'
    || ('\U{1C}' <= c <= '\U{1F}')
    || c == '\U{1680}' || c == '\U{180E}' || ('\U{2000}' <= c <= '\U{2006}') || ('\U{2008}' <= c <= '\U{200A}')
    || c == '\U{2028}' || c == '\U{2029}' || c == '\U{205F}' || c == '\U{3000}'
  }

  /** StringUtils.isBlank on a non-null string: empty, or whitespace only. */
  function Blank(s: string): (b: bool)
    ensures b <==> forall i :: 0 <= i < |s| ==> IsWhitespace(s[i])
  {
    |s| == 0 || (IsWhitespace(s[0]) && Blank(s[1..]))
  }
}

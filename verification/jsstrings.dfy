/** The three JavaScript string operations the authentication core relies on:
    `indexOf` (used as a prefix test), `replace` with a string pattern (first
    occurrence only) and `split` on a one-character separator. */
module JsStrings {

  /** `p` occurs in `s` starting at index `k`. */
  predicate OccursAt(s: string, p: string, k: int) {
    0 <= k && k + |p| <= |s| && s[k..k + |p|] == p
  }

  /** `String.prototype.indexOf(p, i)`: the first index at or after `i` where
      `p` occurs, or -1. */
  function IndexOfFrom(s: string, p: string, i: nat): (r: int)
    requires i <= |s|
    ensures r == -1 || (i <= r && OccursAt(s, p, r))
    ensures r == -1 ==> forall k :: i <= k ==> !OccursAt(s, p, k)
    ensures forall k :: i <= k < r ==> !OccursAt(s, p, k)
    decreases |s| - i
  {
    if i + |p| > |s| then -1
    else if s[i..i + |p|] == p then i
    else IndexOfFrom(s, p, i + 1)
  }

  /** `s.indexOf(p)`. */
  function IndexOf(s: string, p: string): (r: int)
    ensures r == -1 <==> forall k :: !OccursAt(s, p, k)
    ensures r != -1 ==> OccursAt(s, p, r) && forall k :: k < r ==> !OccursAt(s, p, k)
  {
    IndexOfFrom(s, p, 0)
  }

  /** The idiom `s.indexOf(p) === 0`, which the portal uses to test path
      prefixes. It holds exactly when `p` is a prefix of `s`. */
  predicate StartsWith(s: string, p: string)
    ensures StartsWith(s, p) <==> p <= s
  {
    assert p <= s <==> OccursAt(s, p, 0);
    IndexOf(s, p) == 0
  }

  /** `s.replace(pat, rep)` with a string pattern: only the first occurrence of
      `pat` is replaced; with no occurrence the string is returned unchanged.
      (`$` sequences in `rep` are taken literally; see the README.) */
  function ReplaceFirst(s: string, pat: string, rep: string): (r: string)
    ensures IndexOf(s, pat) == -1 ==> r == s
    ensures IndexOf(s, pat) != -1 ==>
              var i := IndexOf(s, pat);
              |r| == |s| - |pat| + |rep| && r[..i] == s[..i] && OccursAt(r, rep, i)
              && r[i + |rep|..] == s[i + |pat|..]
  {
    var i := IndexOf(s, pat);
    if i == -1 then s else s[..i] + rep + s[i + |pat|..]
  }

  /** Only the first occurrence is replaced: any later, non-overlapping
      occurrence of the pattern survives, shifted by the length difference. */
  lemma ReplaceFirstKeepsLaterOccurrences(s: string, pat: string, rep: string, j: int)
    requires OccursAt(s, pat, j)
    requires j >= IndexOf(s, pat) + |pat|
    ensures OccursAt(ReplaceFirst(s, pat, rep), pat, j - |pat| + |rep|)
  {
  }

  /** `s.split(c)` for a one-character separator: the maximal pieces between
      separators, always at least one (possibly empty) piece. */
  function Split(s: string, c: char): (r: seq<string>)
    ensures |r| >= 1
    ensures forall k :: 0 <= k < |r| ==> c !in r[k]
    decreases |s|
  {
    if |s| == 0 then [""]
    else
      var rest := Split(s[1..], c);
      if s[0] == c then [""] + rest
      else [[s[0]] + rest[0]] + rest[1..]
  }

  /** `pieces.join(c)`. */
  function Join(pieces: seq<string>, c: char): string
    requires |pieces| >= 1
    decreases |pieces|
  {
    if |pieces| == 1 then pieces[0]
    else pieces[0] + [c] + Join(pieces[1..], c)
  }

  /** Splitting loses nothing: joining the pieces gives the string back. */
  lemma {:induction false} JoinSplit(s: string, c: char)
    ensures Join(Split(s, c), c) == s
    decreases |s|
  {
    if |s| > 0 {
      var rest := Split(s[1..], c);
      JoinSplit(s[1..], c);
      if s[0] == c {
        assert Split(s, c)[1..] == rest;
        assert s == [c] + s[1..];
      } else {
        var r := Split(s, c);
        assert r[1..] == rest[1..];
        if |rest| == 1 {
          assert Join(r, c) == [s[0]] + rest[0];
        } else {
          assert Join(rest, c) == rest[0] + [c] + Join(rest[1..], c);
          assert Join(r, c) == [s[0]] + rest[0] + [c] + Join(rest[1..], c);
        }
        assert s == [s[0]] + s[1..];
      }
    }
  }

  /** A string without the separator is a single piece. */
  lemma {:induction false} SplitWithoutSeparator(a: string, c: char)
    requires c !in a
    ensures Split(a, c) == [a]
    decreases |a|
  {
    if |a| > 0 {
      SplitWithoutSeparator(a[1..], c);
      assert [a[0]] + a[1..] == a;
    }
  }

  /** The first piece ends at the first separator. */
  lemma {:induction false} SplitAtFirstSeparator(a: string, c: char, b: string)
    requires c !in a
    ensures Split(a + [c] + b, c) == [a] + Split(b, c)
    decreases |a|
  {
    if |a| == 0 {
      assert a + [c] + b == [c] + b;
      assert ([c] + b)[1..] == b;
    } else {
      var s := a + [c] + b;
      assert s[1..] == a[1..] + [c] + b;
      SplitAtFirstSeparator(a[1..], c, b);
      assert [a[0]] + a[1..] == a;
    }
  }
}

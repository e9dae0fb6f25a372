/** Plain string predicates with the meaning Python gives them. */
module Text {
  import opened Wrappers

  /** `s.startswith(prefix)` */
  predicate StartsWith(s: string, prefix: string) {
    prefix <= s
  }

  /** `s.endswith(suffix)` */
  predicate EndsWith(s: string, suffix: string) {
    |suffix| <= |s| && s[|s| - |suffix|..] == suffix
  }

  /** `needle` occurs in `haystack` starting at index `i`. */
  predicate OccursAt(haystack: string, needle: string, i: nat) {
    i + |needle| <= |haystack| && haystack[i..i + |needle|] == needle
  }

  /** `needle in haystack` for two strings */
  ghost predicate Contains(haystack: string, needle: string) {
    exists i: nat :: OccursAt(haystack, needle, i)
  }

  /** A string that ends with `t` ends with every suffix of `t`. */
  lemma EndsWithTail(s: string, t: string, k: nat)
    requires k <= |t|
    ensures EndsWith(s, t) ==> EndsWith(s, t[k..])
  {
    if EndsWith(s, t) {
      assert s[|s| - |t[k..]|..] == s[|s| - |t|..][k..];
    }
  }

  /** A common tail can be cancelled from both sides of `endswith`. */
  lemma EndsWithCancel(s: string, t: string, tail: string)
    ensures EndsWith(s + tail, t + tail) <==> EndsWith(s, t)
  {
    if EndsWith(s + tail, t + tail) {
      assert s[|s| - |t|..] == (s + tail)[|s + tail| - |t + tail|..][..|t|];
    }
    if EndsWith(s, t) {
      assert (s + tail)[|s + tail| - |t + tail|..] == s[|s| - |t|..] + tail;
    }
  }

  /**
   * Cuts `s` at the first occurrence of `c`: the text before it and the text
   * after it, or None when `c` does not occur. Used to read a reply back into
   * its parts.
   */
  function SplitAtFirst(s: string, c: char): (r: Option<(string, string)>)
    ensures r.Some? ==> s == r.value.0 + [c] + r.value.1 && c !in r.value.0
    ensures r.None? ==> c !in s
  {
    if s == [] then None
    else if s[0] == c then Some(([], s[1..]))
    else match SplitAtFirst(s[1..], c)
      case None => None
      case Some((before, after)) => Some(([s[0]] + before, after))
  }

  /** Splitting at the first `c` finds exactly the first occurrence. */
  lemma {:induction false} SplitAtFirstOf(before: string, c: char, after: string)
    requires c !in before
    ensures SplitAtFirst(before + [c] + after, c) == Some((before, after))
  {
    var s := before + [c] + after;
    if before != [] {
      assert s[1..] == before[1..] + [c] + after;
      SplitAtFirstOf(before[1..], c, after);
      assert [before[0]] + before[1..] == before;
    } else {
      assert s[1..] == after;
    }
  }
}

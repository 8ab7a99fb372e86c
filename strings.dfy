/**
  * The few operations on Python `str` values that the modelled code uses:
  * `startswith`, the position of the first occurrence of a character
  * (what `split(sep, 1)` looks for), `split(sep, 1)` itself, and
  * "t occurs in s at offset i", used to state where text lands in a template.
  */
module Strings {
  import opened Wrappers

  /** `s.startswith(p)`. */
  predicate HasPrefix(s: string, p: string) {
    |p| <= |s| && s[..|p|] == p
  }

  /** `t` occurs in `s` starting at index `i`. */
  ghost predicate OccursAt(s: string, t: string, i: int) {
    0 <= i && i + |t| <= |s| && s[i..i + |t|] == t
  }

  /** Index of the first occurrence of `c` in `s`, if any. */
  function IndexOf(s: string, c: char): (r: Option<nat>)
    ensures r.None? <==> c !in s
    ensures r.Some? ==> r.value < |s| && s[r.value] == c && c !in s[..r.value]
  {
    if |s| == 0 then None
    else if s[0] == c then Some(0)
    else
      match IndexOf(s[1..], c)
      case None => None
      case Some(k) =>
        assert s[..k + 1] == [s[0]] + s[1..][..k];
        Some(k + 1)
  }

  /**
    * Python's `s.split(sep, 1)` unpacked into two names: the text before the
    * first `sep` and everything after it. `None` is the case where the split
    * yields a single piece, so the two-name unpacking raises `ValueError`.
    */
  function SplitOnce(s: string, sep: char): (r: Option<(string, string)>)
    ensures r.None? <==> sep !in s
    ensures r.Some? ==> s == r.value.0 + [sep] + r.value.1 && sep !in r.value.0
  {
    match IndexOf(s, sep)
    case None => None
    case Some(k) =>
      assert s == s[..k] + [sep] + s[k + 1..];
      Some((s[..k], s[k + 1..]))
  }

  /** Splitting at the first separator is determined: any other decomposition with a separator-free head is this one. */
  lemma {:induction false} SplitOnceUnique(s: string, sep: char, head: string, tail: string)
    requires s == head + [sep] + tail && sep !in head
    ensures SplitOnce(s, sep) == Some((head, tail))
  {
    assert s[|head|] == sep;
    assert sep in s;
    var k := IndexOf(s, sep).value;
    if k < |head| {
      assert false;
    } else if k > |head| {
      assert false;
    }
    assert s[..k] == head;
    assert s[k + 1..] == tail;
  }
}

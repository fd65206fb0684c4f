/**
  Python's whitespace and `str.strip()`, and where one text occurs inside another.
  Python's regex class `\s` (on `str` patterns) and `str.strip()` use one and the
  same whitespace set, so both are modelled by `IsSpace`.
*/
module Text {

  /** Python's whitespace characters (`str.isspace()`, regex `\s`). */
  predicate IsSpace(c: char) {
    || '\U{9}' <= c <= '\U{D}'       // \t \n \v \f \r
    || '\U{1C}' <= c <= '\U{1F}'     // file, group, record and unit separators
    || c == ' ' || c == '\U{85}' || c == '\U{A0}' || c == '\U{1680}'
    || '\U{2000}' <= c <= '\U{200A}'
    || c == '\U{2028}' || c == '\U{2029}' || c == '\U{202F}' || c == '\U{205F}'
    || c == '\U{3000}'
  }

  predicate AllSpace(s: string) {
    forall i :: 0 <= i < |s| ==> IsSpace(s[i])
  }

  /** Neither the first nor the last character is whitespace. */
  predicate Trimmed(s: string) {
    s == [] || (!IsSpace(s[0]) && !IsSpace(s[|s| - 1]))
  }

  /** `s.lstrip()`: the suffix of `s` after its leading whitespace. */
  function LStrip(s: string): (r: string)
    ensures |r| <= |s| && r == s[|s| - |r|..]
    ensures r == [] || !IsSpace(r[0])
  {
    if s != [] && IsSpace(s[0]) then
      var r := LStrip(s[1..]);
      r
    else s
  }

  /** `s.rstrip()`: the prefix of `s` before its trailing whitespace. */
  function RStrip(s: string): (r: string)
    ensures |r| <= |s| && r == s[..|r|]
    ensures r == [] || !IsSpace(r[|r| - 1])
  {
    if s != [] && IsSpace(s[|s| - 1]) then
      var r := RStrip(s[..|s| - 1]);
      r
    else s
  }

  /** `s.strip()`. */
  function Strip(s: string): (r: string)
    ensures Trimmed(r)
    ensures exists i :: OccursAt(s, r, i)
  {
    var l := LStrip(s);
    var r := RStrip(l);
    assert OccursAt(s, r, |s| - |l|);
    r
  }

  /** Stripping changes nothing in a text that neither starts nor ends with whitespace. */
  lemma StripTrimmed(s: string)
    requires Trimmed(s)
    ensures Strip(s) == s
  {
  }

  /** Leading and trailing whitespace around a trimmed text is exactly what `strip()` removes. */
  lemma {:induction false} StripPadded(pre: string, t: string, post: string)
    requires AllSpace(pre) && AllSpace(post) && Trimmed(t)
    ensures Strip(pre + t + post) == t
  {
    if t == [] {
      assert pre + t + post == (pre + post) + [];
      LStripPadded(pre + post, []);
    } else {
      LStripPadded(pre, t + post);
      assert LStrip(pre + t + post) == t + post by {
        assert pre + t + post == pre + (t + post);
      }
      RStripPadded(t, post);
    }
  }

  lemma {:induction false} LStripPadded(pre: string, rest: string)
    requires AllSpace(pre)
    requires rest == [] || !IsSpace(rest[0])
    ensures LStrip(pre + rest) == rest
  {
    if pre != [] {
      assert (pre + rest)[1..] == pre[1..] + rest;
      LStripPadded(pre[1..], rest);
    }
  }

  lemma {:induction false} RStripPadded(t: string, post: string)
    requires AllSpace(post)
    requires t == [] || !IsSpace(t[|t| - 1])
    ensures RStrip(t + post) == t
  {
    if post != [] {
      assert (t + post)[..|t + post| - 1] == t + post[..|post| - 1];
      RStripPadded(t, post[..|post| - 1]);
    } else {
      assert t + post == t;
    }
  }

  /** `t` occurs in `s` starting at index `i`. */
  predicate OccursAt(s: string, t: string, i: int) {
    0 <= i && i + |t| <= |s| && s[i..i + |t|] == t
  }

  /** Python's `t in s` for strings. */
  predicate Contains(s: string, t: string) {
    exists i :: 0 <= i <= |s| && OccursAt(s, t, i)
  }

  /** Python's `s[:n]` for `n >= 0`. */
  function Take(s: string, n: nat): (r: string)
    ensures |r| == if |s| < n then |s| else n
    ensures r == s[..|r|]
  {
    if |s| <= n then s else s[..n]
  }
}

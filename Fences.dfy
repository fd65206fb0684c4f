/**
  The two ways the code removes markdown code fences from a model reply.

  `RemoveFences` is `re.sub(r"^```json\s*|\s*```$", "", s, flags=re.MULTILINE)`.
  `re.sub` scans the ORIGINAL text from left to right; at each index it tries the
  first alternative, then the second, and when one matches it deletes the match
  and resumes after it, otherwise it keeps the character and moves on. Under
  MULTILINE, `^` holds at index 0 and after every '\n', and `$` holds at the end
  and before every '\n'. Both alternatives contain three backticks, so no match
  is empty. `\s*` is greedy and the character after it is a backtick (never
  whitespace), so backtracking never helps: the run of whitespace is maximal.

  `Sanitize` is the prefix/suffix cleaner of `match_resume_to_jd`: drop one
  leading "```json" (or else one leading "```"), then one trailing "```".
*/
module Fences {
  import opened Common
  import opened Text

  const Fence := "```"
  const JsonFence := "```json"

  /** Three backticks start at index `i`. */
  predicate FenceAt(s: string, i: int) {
    0 <= i && i + 3 <= |s| && s[i] == '`' && s[i + 1] == '`' && s[i + 2] == '`'
  }

  /** "```json" starts at index `i`. */
  predicate JsonFenceAt(s: string, i: int) {
    FenceAt(s, i) && i + 7 <= |s| &&
    s[i + 3] == 'j' && s[i + 4] == 's' && s[i + 5] == 'o' && s[i + 6] == 'n'
  }

  predicate HasFence(s: string) {
    exists i :: 0 <= i < |s| && FenceAt(s, i)
  }

  lemma FenceAtIsOccurrence(s: string, i: int)
    ensures FenceAt(s, i) <==> OccursAt(s, Fence, i)
  {
    if OccursAt(s, Fence, i) {
      assert s[i..i + 3][0] == s[i] && s[i..i + 3][1] == s[i + 1] && s[i..i + 3][2] == s[i + 2];
    }
    if FenceAt(s, i) {
      assert s[i..i + 3] == Fence;
    }
  }

  lemma NoFenceIffNotContained(s: string)
    ensures !HasFence(s) <==> !Contains(s, Fence)
  {
    forall i ensures FenceAt(s, i) <==> OccursAt(s, Fence, i) {
      FenceAtIsOccurrence(s, i);
    }
  }

  /** `^` under MULTILINE. */
  predicate LineStart(s: string, i: int) {
    i == 0 || (0 < i <= |s| && s[i - 1] == '\n')
  }

  /** `$` under MULTILINE. */
  predicate LineEnd(s: string, i: int) {
    i == |s| || (0 <= i < |s| && s[i] == '\n')
  }

  /** Where the maximal run of whitespace that starts at `i` ends: greedy `\s*`. */
  function SpaceRunEnd(s: string, i: nat): (j: nat)
    requires i <= |s|
    ensures i <= j <= |s|
    decreases |s| - i
  {
    if i < |s| && IsSpace(s[i]) then SpaceRunEnd(s, i + 1) else i
  }

  /** The run is whitespace and stops at a non-space or at the end. */
  lemma {:induction false} SpaceRunEndSpec(s: string, i: nat)
    requires i <= |s|
    ensures forall k :: i <= k < SpaceRunEnd(s, i) ==> IsSpace(s[k])
    ensures SpaceRunEnd(s, i) == |s| || !IsSpace(s[SpaceRunEnd(s, i)])
    decreases |s| - i
  {
    if i < |s| && IsSpace(s[i]) {
      SpaceRunEndSpec(s, i + 1);
    }
  }

  /** The end of a match of the first alternative, `^```json\s*`, at `i`. */
  function OpeningMatch(s: string, i: nat): Option<nat>
    requires i <= |s|
  {
    if LineStart(s, i) && JsonFenceAt(s, i) then Some(SpaceRunEnd(s, i + 7)) else None
  }

  /** The end of a match of the second alternative, `\s*```$`, at `i`. */
  function ClosingMatch(s: string, i: nat): Option<nat>
    requires i <= |s|
  {
    var j := SpaceRunEnd(s, i);
    if FenceAt(s, j) && LineEnd(s, j + 3) then Some(j + 3) else None
  }

  /** The end of the match at `i`, trying the alternatives in order. */
  function MatchAt(s: string, i: nat): (m: Option<nat>)
    requires i <= |s|
    ensures m.Some? ==> i < m.value <= |s|
  {
    var o := OpeningMatch(s, i);
    if o.Some? then o else ClosingMatch(s, i)
  }

  /** The substitution applied to `s[i..]`, with `^` and `$` still judged on all of `s`. */
  function CleanFrom(s: string, i: nat): (r: string)
    requires i <= |s|
    ensures |r| <= |s| - i
    decreases |s| - i
  {
    if i == |s| then []
    else match MatchAt(s, i)
      case Some(k) => CleanFrom(s, k)
      case None => [s[i]] + CleanFrom(s, i + 1)
  }

  /** `re.sub(r"^```json\s*|\s*```$", "", s, flags=re.MULTILINE)`. */
  function RemoveFences(s: string): (r: string)
    ensures |r| <= |s|
  {
    CleanFrom(s, 0)
  }

  /** Indices where nothing matches are copied unchanged. */
  lemma {:induction false} CopySpan(s: string, i: nat, j: nat)
    requires i <= j <= |s|
    requires forall k :: i <= k < j ==> MatchAt(s, k).None?
    ensures CleanFrom(s, i) == s[i..j] + CleanFrom(s, j)
    decreases j - i
  {
    if i < j {
      CopySpan(s, i + 1, j);
      CopyStep(s, i, j);
    }
  }

  lemma CopyStep(s: string, i: nat, j: nat)
    requires i < j <= |s| && MatchAt(s, i).None?
    requires CleanFrom(s, i + 1) == s[i + 1..j] + CleanFrom(s, j)
    ensures CleanFrom(s, i) == s[i..j] + CleanFrom(s, j)
  {
    CleanCopies(s, i, i + 1);
    ConsSlice(s, i, j);
    AppendAssoc([s[i]], s[i + 1..j], CleanFrom(s, j));
  }

  lemma ConsSlice(s: string, i: nat, j: nat)
    requires i < j <= |s|
    ensures s[i..j] == [s[i]] + s[i + 1..j]
  {
  }

  lemma AppendAssoc(a: string, b: string, c: string)
    ensures a + (b + c) == a + b + c
  {
  }

  /** Where nothing matches, the character is kept. */
  lemma CleanCopies(s: string, i: nat, j: nat)
    requires i < |s| && MatchAt(s, i).None? && j == i + 1
    ensures CleanFrom(s, i) == [s[i]] + CleanFrom(s, j)
  {
  }

  /** Where a match ends at `k`, the scan resumes there. */
  lemma CleanSkips(s: string, i: nat, k: nat)
    requires i < |s| && MatchAt(s, i) == Some(k)
    ensures CleanFrom(s, i) == CleanFrom(s, k)
  {
  }

  /** A text without three backticks in a row comes back unchanged. */
  lemma RemoveFencesWithoutFence(s: string)
    requires !Contains(s, Fence)
    ensures RemoveFences(s) == s
  {
    NoFenceIffNotContained(s);
    forall k | 0 <= k < |s| ensures MatchAt(s, k).None? {
      assert !FenceAt(s, k) && !FenceAt(s, SpaceRunEnd(s, k));
    }
    CopySpan(s, 0, |s|);
  }

  /** The greedy run is exactly the whitespace between `i` and the first non-space. */
  lemma SpaceRunEndIs(s: string, i: nat, j: nat)
    requires i <= j <= |s|
    requires forall k :: i <= k < j ==> IsSpace(s[k])
    requires j == |s| || !IsSpace(s[j])
    ensures SpaceRunEnd(s, i) == j
  {
    SpaceRunEndSpec(s, i);
  }

  /** One fenced block: "```json", whitespace, the body, whitespace, "```". */
  function Block(ws1: string, body: string, ws2: string): string {
    JsonFence + ws1 + body + ws2 + Fence
  }

  /** A body the cleaner returns intact: no fence inside, no whitespace at its ends. */
  predicate PlainBody(body: string) {
    !HasFence(body) && Trimmed(body)
  }

  /** A slice equal to a concatenation splits into slices equal to the parts. */
  lemma SliceSplit(s: string, p: nat, x: string, y: string)
    requires p + |x| + |y| <= |s| && s[p..p + |x| + |y|] == x + y
    ensures s[p..p + |x|] == x && s[p + |x|..p + |x| + |y|] == y
  {
    assert s[p..p + |x|] == s[p..p + |x| + |y|][..|x|];
    assert s[p + |x|..p + |x| + |y|] == s[p..p + |x| + |y|][|x|..];
  }

  /** A whitespace slice is whitespace index by index. */
  lemma SpaceSlice(s: string, a: nat, w: string)
    requires a + |w| <= |s| && s[a..a + |w|] == w && AllSpace(w)
    ensures forall k :: a <= k < a + |w| ==> IsSpace(s[k])
  {
    forall k | a <= k < a + |w| ensures IsSpace(s[k]) {
      assert s[k] == w[k - a];
    }
  }

  /** Where the parts of a block placed at index `p` of `s` lie. */
  lemma BlockLayout(s: string, p: nat, ws1: string, body: string, ws2: string)
    requires p + |Block(ws1, body, ws2)| <= |s|
    requires s[p..p + |Block(ws1, body, ws2)|] == Block(ws1, body, ws2)
    requires AllSpace(ws1) && AllSpace(ws2)
    ensures JsonFenceAt(s, p)
    ensures forall k :: p + 7 <= k < p + 7 + |ws1| ==> IsSpace(s[k])
    ensures s[p + 7 + |ws1|..p + 7 + |ws1| + |body|] == body
    ensures forall k :: p + 7 + |ws1| + |body| <= k < p + 7 + |ws1| + |body| + |ws2| ==> IsSpace(s[k])
    ensures FenceAt(s, p + 7 + |ws1| + |body| + |ws2|)
  {
    var b0 := p + 7 + |ws1|;
    var b1 := b0 + |body|;
    var f := b1 + |ws2|;
    SliceSplit(s, p, JsonFence + ws1 + body + ws2, Fence);
    SliceSplit(s, p, JsonFence + ws1 + body, ws2);
    SliceSplit(s, p, JsonFence + ws1, body);
    SliceSplit(s, p, JsonFence, ws1);
    assert s[p..p + 7] == JsonFence;
    assert s[p] == s[p..p + 7][0] && s[p + 1] == s[p..p + 7][1] && s[p + 2] == s[p..p + 7][2];
    assert s[p + 3] == s[p..p + 7][3] && s[p + 4] == s[p..p + 7][4];
    assert s[p + 5] == s[p..p + 7][5] && s[p + 6] == s[p..p + 7][6];
    SpaceSlice(s, p + 7, ws1);
    SpaceSlice(s, b1, ws2);
    assert s[f..f + 3] == Fence;
    assert s[f] == s[f..f + 3][0] && s[f + 1] == s[f..f + 3][1] && s[f + 2] == s[f..f + 3][2];
  }

  /** Three backticks that start inside a plain body must reach into the closing fence. */
  lemma FenceInBody(s: string, b0: nat, b1: nat, f: nat, body: string, k: nat)
    requires b0 <= k < b1 <= f <= |s|
    requires s[b0..b1] == body && !HasFence(body)
    requires forall i :: b1 <= i < f ==> IsSpace(s[i])
    requires FenceAt(s, k)
    ensures b1 == f && f < k + 3 < f + 3
  {
    if k + 3 <= b1 {
      assert FenceAt(body, k - b0) by {
        assert body[k - b0] == s[k] && body[k - b0 + 1] == s[k + 1] && body[k - b0 + 2] == s[k + 2];
      }
      assert false;
    }
    if b1 < f {
      assert false;
    }
  }

  /** No index of a plain body starts a match. */
  lemma NoMatchInBody(s: string, b0: nat, b1: nat, f: nat, body: string)
    requires b0 <= b1 <= f && f + 3 <= |s|
    requires s[b0..b1] == body && PlainBody(body)
    requires forall i :: b1 <= i < f ==> IsSpace(s[i])
    requires FenceAt(s, f) && LineEnd(s, f + 3)
    ensures forall k :: b0 <= k < b1 ==> MatchAt(s, k).None?
  {
    forall k | b0 <= k < b1 ensures MatchAt(s, k).None? {
      if JsonFenceAt(s, k) {
        FenceInBody(s, b0, b1, f, body, k);
        assert false;
      }
      var j := SpaceRunEnd(s, k);
      SpaceRunEndSpec(s, k);
      assert s[b1 - 1] == body[|body| - 1];
      assert j < b1;
      if FenceAt(s, j) && LineEnd(s, j + 3) {
        FenceInBody(s, b0, b1, f, body, j);
        assert false;
      }
    }
  }

  /** Whitespace followed by "```" at the end of a line is deleted in one match. */
  lemma ClosingAt(s: string, x: nat, f: nat, e: nat)
    requires x <= f && e == f + 3 && e <= |s|
    requires forall i :: x <= i < f ==> IsSpace(s[i])
    requires FenceAt(s, f) && LineEnd(s, e)
    ensures CleanFrom(s, x) == CleanFrom(s, e)
  {
    SpaceRunEndIs(s, x, f);
    if x < f {
      assert !FenceAt(s, x) by { assert IsSpace(s[x]); }
    } else {
      assert !JsonFenceAt(s, x);
    }
    assert MatchAt(s, x) == Some(e);
    CleanSkips(s, x, e);
  }

  /** A block at the start of a line that ends a line is replaced by its body. */
  lemma BlockAt(s: string, p: nat, ws1: string, body: string, ws2: string, e: nat)
    requires e == p + |Block(ws1, body, ws2)| && e <= |s|
    requires s[p..e] == Block(ws1, body, ws2)
    requires LineStart(s, p) && LineEnd(s, e)
    requires AllSpace(ws1) && AllSpace(ws2) && PlainBody(body)
    ensures CleanFrom(s, p) == body + CleanFrom(s, e)
  {
    BlockLayout(s, p, ws1, body, ws2);
    var b0 := p + 7 + |ws1|;
    var b1 := b0 + |body|;
    LaidOutBlockAt(s, p, b0, b1, b1 + |ws2|, e, body);
  }

  /** The same, from where the parts of the block lie: opening fence at `p`, body from `b0` to `b1`, closing fence at `f`. */
  lemma LaidOutBlockAt(s: string, p: nat, b0: nat, b1: nat, f: nat, e: nat, body: string)
    requires p + 7 <= b0 <= b1 <= f && e == f + 3 && e <= |s|
    requires JsonFenceAt(s, p) && LineStart(s, p) && FenceAt(s, f) && LineEnd(s, e)
    requires forall k :: p + 7 <= k < b0 ==> IsSpace(s[k])
    requires s[b0..b1] == body && PlainBody(body)
    requires forall k :: b1 <= k < f ==> IsSpace(s[k])
    ensures CleanFrom(s, p) == body + CleanFrom(s, e)
  {
    if body == [] {
      SpaceRunEndIs(s, p + 7, f);
      CleanSkips(s, p, f);
      ClosingAt(s, f, f, e);
    } else {
      assert s[b0] == body[0];
      SpaceRunEndIs(s, p + 7, b0);
      CleanSkips(s, p, b0);
      NoMatchInBody(s, b0, b1, f, body);
      CopySpan(s, b0, b1);
      ClosingAt(s, b1, f, e);
    }
  }

  /** The single-block round trip: a fenced body comes back exactly. */
  lemma RemoveFencesBlock(ws1: string, body: string, ws2: string)
    requires AllSpace(ws1) && AllSpace(ws2) && PlainBody(body)
    ensures RemoveFences(Block(ws1, body, ws2)) == body
  {
    var s := Block(ws1, body, ws2);
    assert s[0..|s|] == s;
    BlockAt(s, 0, ws1, body, ws2, |s|);
  }

  /** The canonical way a model fences JSON. */
  function Fenced(body: string): string {
    Block("\n", body, "\n")
  }

  /** Fenced blocks one after another, separated by newlines. */
  function JoinFenced(bodies: seq<string>): string {
    if |bodies| == 0 then ""
    else if |bodies| == 1 then Fenced(bodies[0])
    else Fenced(bodies[0]) + "\n" + JoinFenced(bodies[1..])
  }

  /** Python's "\n".join(bodies). */
  function JoinLines(bodies: seq<string>): string {
    if |bodies| == 0 then ""
    else if |bodies| == 1 then bodies[0]
    else bodies[0] + "\n" + JoinLines(bodies[1..])
  }

  lemma FencedStart(b: string, rest: string)
    ensures JsonFenceAt(Fenced(b) + rest, 0)
  {
    var s := Fenced(b) + rest;
    assert s[..8] == "```json\n" by {
      assert Fenced(b) == "```json\n" + b + "\n```";
    }
    assert s[0] == s[..8][0];
    assert s[3] == s[..8][3] && s[4] == s[..8][4] && s[5] == s[..8][5] && s[6] == s[..8][6];
    assert s[1] == s[..8][1] && s[2] == s[..8][2];
  }

  lemma JoinFencedStart(bodies: seq<string>)
    requires |bodies| > 0
    ensures JsonFenceAt(JoinFenced(bodies), 0)
  {
    if |bodies| == 1 {
      FencedStart(bodies[0], "");
      assert Fenced(bodies[0]) + "" == Fenced(bodies[0]);
    } else {
      FencedStart(bodies[0], "\n" + JoinFenced(bodies[1..]));
      assert Fenced(bodies[0]) + "\n" + JoinFenced(bodies[1..]) ==
        Fenced(bodies[0]) + ("\n" + JoinFenced(bodies[1..]));
    }
  }

  /** A fenced block followed by a newline and another block: the body, then the newline, then the rest. */
  lemma BlockThenNext(s: string, p: nat, b: string, rest: string, q: nat)
    requires p <= |s| && s[p..] == Fenced(b) + "\n" + rest && JsonFenceAt(rest, 0)
    requires LineStart(s, p) && PlainBody(b) && q == p + |Fenced(b)| + 1
    ensures q <= |s| && LineStart(s, q) && s[q..] == rest
    ensures CleanFrom(s, p) == b + "\n" + CleanFrom(s, q)
  {
    var f := p + |Fenced(b)|;
    NextLayout(s, p, b, rest, f, q);
    AllSpaceNewline();
    BlockAt(s, p, "\n", b, "\n", f);
    NewlineBeforeBlock(s, f, q);
    AppendAssoc(b, "\n", CleanFrom(s, q));
  }

  /** Where the block, the newline and the next block lie. */
  lemma NextLayout(s: string, p: nat, b: string, rest: string, f: nat, q: nat)
    requires p <= |s| && s[p..] == Fenced(b) + "\n" + rest && JsonFenceAt(rest, 0)
    requires f == p + |Fenced(b)| && q == f + 1
    ensures q <= |s| && s[p..f] == Fenced(b) && s[f] == '\n'
    ensures s[q..] == rest && JsonFenceAt(s, q)
  {
    assert s[p..f] == Fenced(b);
    assert s[f] == '\n';
    assert s[q..] == rest;
    assert rest[3] == 'j';
    assert s[f + 4] == 'j';
  }

  /** A newline right before a block is kept. */
  lemma NewlineBeforeBlock(s: string, f: nat, q: nat)
    requires q == f + 1 && q <= |s| && s[f] == '\n' && JsonFenceAt(s, q)
    ensures CleanFrom(s, f) == "\n" + CleanFrom(s, q)
  {
    assert !FenceAt(s, f);
    SpaceRunEndIs(s, f, q);
    CleanCopies(s, f, q);
    assert [s[f]] == "\n";
  }

  /** Every fenced block is replaced, not only the first: the bodies end up joined by newlines. */
  lemma {:induction false} CleanJoinedAt(s: string, p: nat, bodies: seq<string>)
    requires p <= |s| && s[p..] == JoinFenced(bodies) && LineStart(s, p)
    requires forall i :: 0 <= i < |bodies| ==> PlainBody(bodies[i])
    ensures CleanFrom(s, p) == JoinLines(bodies)
    decreases |bodies|
  {
    if |bodies| == 0 {
      assert p == |s|;
    } else if |bodies| == 1 {
      AllSpaceNewline();
      assert s[p..] == Fenced(bodies[0]);
      BlockAt(s, p, "\n", bodies[0], "\n", |s|);
    } else {
      var q := p + |Fenced(bodies[0])| + 1;
      JoinFencedStart(bodies[1..]);
      BlockThenNext(s, p, bodies[0], JoinFenced(bodies[1..]), q);
      CleanJoinedAt(s, q, bodies[1..]);
    }
  }

  lemma AllSpaceNewline()
    ensures AllSpace("\n")
  {
  }

  /** Two or more fenced blocks come out as their bodies on separate lines, which is not one JSON document. */
  lemma RemoveFencesEveryBlock(bodies: seq<string>)
    requires forall i :: 0 <= i < |bodies| ==> PlainBody(bodies[i])
    ensures RemoveFences(JoinFenced(bodies)) == JoinLines(bodies)
  {
    var s := JoinFenced(bodies);
    assert s[0..] == s;
    CleanJoinedAt(s, 0, bodies);
  }

  /** Three backticks never start before a newline that follows fence-free prose. */
  lemma NoFenceInProse(s: string, n: nat, k: nat)
    requires n < |s| && s[n] == '\n' && !HasFence(s[..n]) && k <= n
    ensures !FenceAt(s, k)
  {
    if FenceAt(s, k) {
      if k + 3 <= n {
        assert FenceAt(s[..n], k);
      }
    }
  }

  /** Prose before the fence is kept, so the cleaned text is not JSON. */
  lemma RemoveFencesKeepsProse(prose: string, body: string)
    requires !Contains(prose, Fence) && PlainBody(body)
    ensures RemoveFences(prose + "\n" + Fenced(body)) == prose + "\n" + body
  {
    NoFenceIffNotContained(prose);
    var s := prose + "\n" + Fenced(body);
    var n := |prose|;
    ProseLayout(prose, body, s);
    NoMatchInProse(s, n);
    CopySpan(s, 0, n + 1);
    AllSpaceNewline();
    BlockAt(s, n + 1, "\n", body, "\n", |s|);
    AppendAssoc(prose + "\n", body, CleanFrom(s, |s|));
  }

  /** Where the prose, the newline and the block lie. */
  lemma ProseLayout(prose: string, body: string, s: string)
    requires s == prose + "\n" + Fenced(body)
    ensures |prose| + 1 < |s| && s[..|prose|] == prose && s[|prose|] == '\n'
    ensures s[0..|prose| + 1] == prose + "\n"
    ensures s[|prose| + 1..] == Fenced(body) && JsonFenceAt(s, |prose| + 1)
  {
    var n := |prose|;
    assert s[n + 1..] == Fenced(body);
    FencedStart(body, "");
    assert Fenced(body) + "" == Fenced(body);
    assert JsonFenceAt(s, n + 1) by {
      forall t | 0 <= t < 7 ensures s[n + 1 + t] == Fenced(body)[t] { }
    }
  }

  /** Up to the newline after fence-free prose, nothing matches. */
  lemma NoMatchInProse(s: string, n: nat)
    requires n + 1 < |s| && s[n] == '\n' && !HasFence(s[..n]) && JsonFenceAt(s, n + 1)
    ensures forall k :: 0 <= k < n + 1 ==> MatchAt(s, k).None?
  {
    forall k | 0 <= k < n + 1 ensures MatchAt(s, k).None? {
      NoFenceInProse(s, n, k);
      var j := SpaceRunEnd(s, k);
      SpaceRunEndSpec(s, k);
      if j <= n {
        NoFenceInProse(s, n, j);
      } else {
        assert j == n + 1;
        assert !LineEnd(s, j + 3);
      }
    }
  }

  // ---------------------------------------------------------------------------
  // The prefix/suffix sanitiser of match_resume_to_jd.

  predicate StartsWith(s: string, t: string) {
    |t| <= |s| && s[..|t|] == t
  }

  predicate EndsWith(s: string, t: string) {
    |t| <= |s| && s[|s| - |t|..] == t
  }

  /** `r` is `raw` with `a` characters cut from the front and `z` from the back. */
  predicate CutFrom(raw: string, r: string, a: nat, z: nat) {
    (a == 0 || a == 3 || a == 7) && (z == 0 || z == 3) &&
    a + z <= |raw| && r == raw[a..|raw| - z]
  }

  /**
    The cut the sanitiser makes: seven characters exactly when `raw` starts
    with "```json", three when it starts with a bare "```" only, and three from
    the back exactly when what is left ends with "```".
  */
  predicate SanitizeCut(raw: string, a: nat, z: nat) {
    && (a == 7 <==> StartsWith(raw, JsonFence))
    && (a == 3 <==> !StartsWith(raw, JsonFence) && StartsWith(raw, Fence))
    && a <= |raw|
    && (z == 3 <==> EndsWith(raw[a..], Fence))
  }

  /** Drop one leading "```json" or else one leading "```", then one trailing "```". */
  function Sanitize(raw: string): (r: string)
    ensures exists a: nat, z: nat :: CutFrom(raw, r, a, z) && SanitizeCut(raw, a, z)
  {
    var a: nat := if StartsWith(raw, JsonFence) then 7 else if StartsWith(raw, Fence) then 3 else 0;
    var inner := raw[a..];
    var z: nat := if EndsWith(inner, Fence) then 3 else 0;
    assert CutFrom(raw, inner[..|inner| - z], a, z) && SanitizeCut(raw, a, z);
    inner[..|inner| - z]
  }

  /** Text that neither starts nor ends with "```" passes through unchanged. */
  lemma SanitizeUnfenced(raw: string)
    requires !StartsWith(raw, Fence) && !EndsWith(raw, Fence)
    ensures Sanitize(raw) == raw
  {
  }

  /** Exactly one opening "```json" and one closing "```" go, whatever lies between. */
  lemma SanitizeJsonFence(x: string)
    ensures Sanitize(JsonFence + x + Fence) == x
  {
    var raw := JsonFence + x + Fence;
    assert raw[..7] == JsonFence;
    assert raw[7..] == x + Fence;
    assert (x + Fence)[|x + Fence| - 3..] == Fence;
    assert (x + Fence)[..|x|] == x;
  }

  /** A truncated reply that opens with "```json" but has no closing fence loses only the opening. */
  lemma SanitizeLeadingOnly(x: string)
    requires !EndsWith(x, Fence)
    ensures Sanitize(JsonFence + x) == x
  {
    var raw := JsonFence + x;
    assert raw[..7] == JsonFence;
    assert raw[7..] == x;
  }

  /** A reply that only ends with "```" loses only that closing fence. */
  lemma SanitizeTrailingOnly(x: string)
    requires !StartsWith(x + Fence, Fence)
    ensures Sanitize(x + Fence) == x
  {
    var raw := x + Fence;
    assert raw[|raw| - 3..] == Fence;
    assert raw[..|x|] == x;
  }

  /** A bare "```" fence goes too, unless the text inside starts with "json". */
  lemma SanitizeBareFence(x: string)
    requires !StartsWith(x, "json")
    ensures Sanitize(Fence + x + Fence) == x
  {
    var raw := Fence + x + Fence;
    assert raw[..3] == Fence;
    if |x| >= 4 {
      assert raw[3..7] == x[..4];
    } else {
      assert raw[3 + |x|] == '`';
    }
    assert !StartsWith(raw, JsonFence);
    assert raw[3..] == x + Fence;
    assert (x + Fence)[|x + Fence| - 3..] == Fence;
    assert (x + Fence)[..|x|] == x;
  }

  /** On the canonical fence both cleaners recover the body (the sanitiser up to the whitespace `json.loads` skips). */
  lemma CleanersAgreeOnCanonicalFence(body: string)
    requires PlainBody(body)
    ensures RemoveFences(Fenced(body)) == body
    ensures Strip(Sanitize(Fenced(body))) == body
  {
    AllSpaceNewline();
    RemoveFencesBlock("\n", body, "\n");
    assert Fenced(body) == JsonFence + ("\n" + body + "\n") + Fence;
    SanitizeJsonFence("\n" + body + "\n");
    StripPadded("\n", body, "\n");
  }
}

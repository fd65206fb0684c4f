/**
  `GET /analytics/summary`: over the current user's stored analyses, the
  number of resumes, the sum behind the average fit score, and the five most
  frequent skills as `Counter(all_skills).most_common(5)` ranks them.

  `Counter` keeps its keys in first-seen order and `most_common(n)` is a
  stable sort by descending count, so ties go to the skill seen first. The
  ranking is modelled as that order, `Before`, with an insertion sort.
*/
module Analytics {
  import opened Common

  /** A stored document's field: absent (`.get` gives the default), `null`, or a value. */
  datatype Field<T> = Missing | Null | Present(value: T)

  /** The fields of a stored analysis the summary reads. */
  datatype Analysis = Analysis(jobFitScore: Field<int>, skills: Field<seq<string>>)

  /** The response body; the average is `scoreSum / totalResumes` rounded to two places. */
  datatype Summary = Summary(totalResumes: nat, scoreSum: int, topSkills: seq<string>)

  const ErrorPrefix := "Analytics fetch failed: "
  /** `str(e)` for `0 + None` inside `sum`. */
  const SumError := "unsupported operand type(s) for +: 'int' and 'NoneType'"
  /** `str(e)` for `list.extend(None)`. */
  const ExtendError := "'NoneType' object is not iterable"

  /** `a.get("job_fit_score", 0)` for a present or absent score. */
  function Score(a: Analysis): int {
    match a.jobFitScore
    case Present(v) => v
    case _ => 0
  }

  /** `a.get("skills", [])` for a present or absent list. */
  function SkillsOf(a: Analysis): seq<string> {
    match a.skills
    case Present(xs) => xs
    case _ => []
  }

  function ScoreSum(docs: seq<Analysis>): int {
    if docs == [] then 0 else ScoreSum(docs[..|docs| - 1]) + Score(docs[|docs| - 1])
  }

  /** Every document's skills, one list after the other. */
  function AllSkills(docs: seq<Analysis>): seq<string> {
    if docs == [] then [] else AllSkills(docs[..|docs| - 1]) + SkillsOf(docs[|docs| - 1])
  }

  /** An analysis with neither field stored adds nothing: no score to the sum and no skills to the list. */
  lemma MissingFieldsAddNothing(docs: seq<Analysis>, a: Analysis)
    requires a.jobFitScore.Missing? && a.skills.Missing?
    ensures ScoreSum(docs + [a]) == ScoreSum(docs)
    ensures AllSkills(docs + [a]) == AllSkills(docs)
  {
    assert (docs + [a])[..|docs|] == docs;
  }

  predicate HasNullScore(docs: seq<Analysis>) {
    exists i :: 0 <= i < |docs| && docs[i].jobFitScore.Null?
  }

  predicate HasNullSkills(docs: seq<Analysis>) {
    exists i :: 0 <= i < |docs| && docs[i].skills.Null?
  }

  /** A skill occurs in the concatenation exactly when some document lists it. */
  lemma {:induction false} InAllSkills(docs: seq<Analysis>, s: string)
    ensures s in AllSkills(docs) <==> exists i :: 0 <= i < |docs| && s in SkillsOf(docs[i])
  {
    if docs != [] {
      var init := docs[..|docs| - 1];
      InAllSkills(init, s);
      if s in AllSkills(docs) && s !in SkillsOf(docs[|docs| - 1]) {
        var i :| 0 <= i < |init| && s in SkillsOf(init[i]);
        assert docs[i] == init[i];
      }
      if exists i :: 0 <= i < |docs| && s in SkillsOf(docs[i]) {
        var i :| 0 <= i < |docs| && s in SkillsOf(docs[i]);
        if i < |init| { assert init[i] == docs[i]; }
      }
    }
  }

  /** The loop `for a in analyses: all_skills.extend(a.get("skills", []))`, which fails on a `null` list. */
  method CollectSkills(docs: seq<Analysis>) returns (r: Result<seq<string>, string>)
    ensures r.Success? <==> !HasNullSkills(docs)
    ensures r.Success? ==> r.value == AllSkills(docs)
    ensures r.Failure? ==> r.error == ExtendError
  {
    var all: seq<string> := [];
    var i := 0;
    while i < |docs|
      invariant 0 <= i <= |docs|
      invariant all == AllSkills(docs[..i])
      invariant forall k :: 0 <= k < i ==> !docs[k].skills.Null?
    {
      if docs[i].skills.Null? {
        return Failure(ExtendError);
      }
      assert docs[..i + 1][..i] == docs[..i];
      all := all + SkillsOf(docs[i]);
      i := i + 1;
    }
    assert docs[..i] == docs;
    return Success(all);
  }

  /** How often `s` occurs in `xs`. */
  function Count(xs: seq<string>, s: string): nat {
    multiset(xs)[s]
  }

  /** Where `s` first occurs in `xs`. */
  function FirstIndex(xs: seq<string>, s: string): (k: nat)
    requires s in xs
    ensures k < |xs| && xs[k] == s && forall j :: 0 <= j < k ==> xs[j] != s
  {
    if xs[0] == s then 0 else 1 + FirstIndex(xs[1..], s)
  }

  /** `a` is ranked before `b`: it is more frequent, or as frequent and seen first. */
  predicate Before(xs: seq<string>, a: string, b: string)
    requires a in xs && b in xs
  {
    Count(xs, a) > Count(xs, b) || (Count(xs, a) == Count(xs, b) && FirstIndex(xs, a) < FirstIndex(xs, b))
  }

  lemma BeforeTotal(xs: seq<string>, a: string, b: string)
    requires a in xs && b in xs && a != b
    ensures Before(xs, a, b) || Before(xs, b, a)
  {
  }

  lemma BeforeTransitive(xs: seq<string>, a: string, b: string, c: string)
    requires a in xs && b in xs && c in xs && Before(xs, a, b) && Before(xs, b, c)
    ensures Before(xs, a, c)
  {
  }

  predicate Within(xs: seq<string>, l: seq<string>) {
    forall i :: 0 <= i < |l| ==> l[i] in xs
  }

  /** Ranked strictly by `Before`, so also without repetitions. */
  predicate Ranked(xs: seq<string>, l: seq<string>)
    requires Within(xs, l)
  {
    forall i, j :: 0 <= i < j < |l| ==> Before(xs, l[i], l[j])
  }

  /** The distinct elements of `xs`, in first-seen order: a `Counter`'s keys. */
  function Distinct(xs: seq<string>): (d: seq<string>)
    ensures forall s :: s in d <==> s in xs
    ensures forall i, j :: 0 <= i < j < |d| ==> d[i] != d[j]
  {
    if xs == [] then []
    else
      var d := Distinct(xs[..|xs| - 1]);
      assert forall s :: s in xs <==> s in xs[..|xs| - 1] || s == xs[|xs| - 1];
      if xs[|xs| - 1] in d then d else d + [xs[|xs| - 1]]
  }

  /** Puts `x` into the ranked list `l` in its place. */
  function Insert(xs: seq<string>, x: string, l: seq<string>): (r: seq<string>)
    requires x in xs && Within(xs, l)
    ensures multiset(r) == multiset(l) + multiset{x}
    ensures Within(xs, r)
  {
    if l == [] || Before(xs, x, l[0]) then [x] + l
    else
      var rest := Insert(xs, x, l[1..]);
      assert l == [l[0]] + l[1..];
      [l[0]] + rest
  }

  lemma {:induction false} InsertRanked(xs: seq<string>, x: string, l: seq<string>)
    requires x in xs && Within(xs, l) && x !in l && Ranked(xs, l)
    ensures Ranked(xs, Insert(xs, x, l))
  {
    var r := Insert(xs, x, l);
    if l == [] || Before(xs, x, l[0]) {
      forall j | 1 <= j < |r| ensures Before(xs, x, r[j]) {
        if j > 1 { BeforeTransitive(xs, x, l[0], r[j]); }
      }
    } else {
      BeforeTotal(xs, x, l[0]);
      var rest := Insert(xs, x, l[1..]);
      InsertRanked(xs, x, l[1..]);
      forall j | 0 < j < |r| ensures Before(xs, l[0], r[j]) {
        assert r[j] == rest[j - 1];
        assert r[j] in multiset(l[1..]) + multiset{x};
        if r[j] != x {
          var k :| 0 <= k < |l[1..]| && l[1..][k] == r[j];
          assert l[k + 1] == r[j];
        }
      }
    }
  }

  /** The insertion sort of `ys` by `Before`. */
  function Sort(xs: seq<string>, ys: seq<string>): (r: seq<string>)
    requires Within(xs, ys)
    ensures multiset(r) == multiset(ys) && Within(xs, r)
  {
    if ys == [] then [] else
      assert ys == [ys[0]] + ys[1..];
      Insert(xs, ys[0], Sort(xs, ys[1..]))
  }

  lemma {:induction false} SortRanked(xs: seq<string>, ys: seq<string>)
    requires Within(xs, ys)
    requires forall i, j :: 0 <= i < j < |ys| ==> ys[i] != ys[j]
    ensures Ranked(xs, Sort(xs, ys))
  {
    if ys != [] {
      SortRanked(xs, ys[1..]);
      assert ys[0] !in multiset(ys[1..]);
      InsertRanked(xs, ys[0], Sort(xs, ys[1..]));
    }
  }

  /** `Counter(xs).most_common(n)`'s keys. */
  function MostCommon(xs: seq<string>, n: nat): (r: seq<string>)
    ensures |r| <= n && Within(xs, r)
  {
    var ranked := Sort(xs, Distinct(xs));
    if |ranked| <= n then ranked else ranked[..n]
  }

  /** The skills listed come in ranking order, so none twice and with counts that never increase. */
  lemma MostCommonRanked(xs: seq<string>, n: nat)
    ensures Ranked(xs, MostCommon(xs, n))
    ensures var r := MostCommon(xs, n);
      forall i, j :: 0 <= i < j < |r| ==> r[i] != r[j] && Count(xs, r[i]) >= Count(xs, r[j])
  {
    SortRanked(xs, Distinct(xs));
  }

  /** A skill that occurs but is not listed: the list is full and it ranks after the last one listed. */
  lemma MostCommonOmitted(xs: seq<string>, n: nat, s: string)
    requires s in xs && s !in MostCommon(xs, n)
    ensures |MostCommon(xs, n)| == n
    ensures n > 0 ==> Before(xs, MostCommon(xs, n)[n - 1], s)
  {
    var d := Distinct(xs);
    var ranked := Sort(xs, d);
    SortRanked(xs, d);
    assert s in multiset(d);
    assert s in multiset(ranked);
    var k :| 0 <= k < |ranked| && ranked[k] == s;
    assert n <= k;
  }

  /** With at most `n` distinct skills, every one of them is listed. */
  lemma MostCommonComplete(xs: seq<string>, n: nat, s: string)
    requires |Distinct(xs)| <= n && s in xs
    ensures s in MostCommon(xs, n)
  {
    var d := Distinct(xs);
    assert s in multiset(d);
    assert s in multiset(Sort(xs, d));
  }

  /** The handler's outcome, with `HTTPException(500, ...)` for a `null` score or skill list. */
  method GetResumeAnalytics(docs: seq<Analysis>) returns (r: Result<Summary, HttpError>)
    ensures docs == [] ==> r == Success(Summary(0, 0, []))
    ensures docs != [] && HasNullScore(docs) ==> r == Failure(HttpError(500, ErrorPrefix + SumError))
    ensures docs != [] && !HasNullScore(docs) && HasNullSkills(docs) ==> r == Failure(HttpError(500, ErrorPrefix + ExtendError))
    ensures docs != [] && !HasNullScore(docs) && !HasNullSkills(docs)
      ==> r == Success(Summary(|docs|, ScoreSum(docs), MostCommon(AllSkills(docs), 5)))
  {
    if docs == [] {
      return Success(Summary(0, 0, []));
    }
    if HasNullScore(docs) {
      return Failure(HttpError(500, ErrorPrefix + SumError));
    }
    var all := CollectSkills(docs);
    match all
    case Failure(e) => return Failure(HttpError(500, ErrorPrefix + e));
    case Success(skills) => return Success(Summary(|docs|, ScoreSum(docs), MostCommon(skills, 5)));
  }

  /** Every listed top skill is in some analysis's skill list. */
  lemma TopSkillsComeFromTheAnalyses(docs: seq<Analysis>, s: string)
    requires s in MostCommon(AllSkills(docs), 5)
    ensures exists i :: 0 <= i < |docs| && s in SkillsOf(docs[i])
  {
    InAllSkills(docs, s);
  }
}

/**
  The three pydantic models that validate the LLM's JSON in the newer backend
  (`ResumeAnalysisResult`, `JDMatchResult`, `ResumeImprovementResult`).

  A model is built from the keyword arguments `**data`, so it only ever sees a
  JSON object's fields. Keys the model does not declare are ignored. A field
  is accepted when it holds exactly the declared JSON type; a failed validation
  lists the names of the offending fields, in declaration order.
*/
module Schemas {
  import opened Common
  import opened JsonDoc

  datatype ResumeAnalysis = ResumeAnalysis(
    skills: seq<string>,
    summary: string,
    suggestions: seq<string>,
    jobFitScore: int)

  /** `strengths` and `weaknesses` are `Optional[List[str]] = []`: absent means `[]`, `null` means `None`. */
  datatype JdMatch = JdMatch(
    fitPercentage: int,
    matchingSkills: seq<string>,
    missingSkills: seq<string>,
    strengths: Option<seq<string>>,
    weaknesses: Option<seq<string>>,
    verdict: string)

  /** `fit_summary` is `Dict[str, Any]`: any JSON object. */
  datatype ResumeImprovement = ResumeImprovement(
    matchingSkills: seq<string>,
    missingSkills: seq<string>,
    toolsToLearn: seq<string>,
    resourcesToExplore: seq<string>,
    strengths: seq<string>,
    weaknesses: seq<string>,
    fitSummary: map<string, Json>)

  type Fields = map<string, Json>

  /** A `str` field. */
  function Str(o: Fields, k: string): (r: Option<string>)
    ensures r.Some? <==> k in o && o[k].JString?
    ensures r.Some? ==> o[k] == JString(r.value)
  {
    if k in o && o[k].JString? then Some(o[k].s) else None
  }

  /** An `int` field. */
  function Int(o: Fields, k: string): (r: Option<int>)
    ensures r.Some? <==> k in o && o[k].JInt?
    ensures r.Some? ==> o[k] == JInt(r.value)
  {
    if k in o && o[k].JInt? then Some(o[k].i) else None
  }

  /** The strings of an array whose items are all strings. */
  function Strings(items: seq<Json>): (r: Option<seq<string>>)
    ensures r.Some? <==> forall i :: 0 <= i < |items| ==> items[i].JString?
    ensures r.Some? ==> |r.value| == |items| && forall i :: 0 <= i < |items| ==> items[i] == JString(r.value[i])
  {
    if forall i :: 0 <= i < |items| ==> items[i].JString? then
      Some(seq(|items|, i requires 0 <= i < |items| => items[i].s))
    else None
  }

  /** A `List[str]` field. */
  function StrList(o: Fields, k: string): (r: Option<seq<string>>)
    ensures r.Some? ==> k in o && o[k] == StringList(r.value)
  {
    if k in o && o[k].JArray? then Strings(o[k].items) else None
  }

  /** An `Optional[List[str]] = []` field: `Some(None)` for `null`, `None` when the field is invalid. */
  function OptStrList(o: Fields, k: string): (r: Option<Option<seq<string>>>)
    ensures k !in o ==> r == Some(Some([]))
    ensures k in o && o[k] == JNull ==> r == Some(None)
  {
    if k !in o then Some(Some([]))
    else if o[k] == JNull then Some(None)
    else match StrList(o, k)
      case Some(xs) => Some(Some(xs))
      case None => None
  }

  /** A `Dict[str, Any]` field. */
  function Dict(o: Fields, k: string): (r: Option<Fields>)
    ensures r.Some? <==> k in o && o[k].JObject?
    ensures r.Some? ==> o[k] == JObject(r.value)
  {
    if k in o && o[k].JObject? then Some(o[k].fields) else None
  }

  /** `[name]` when the field is invalid. */
  function Bad(name: string, ok: bool): seq<string> {
    if ok then [] else [name]
  }

  const ResumeAnalysisKeys: seq<string> := ["skills", "summary", "suggestions", "job_fit_score"]
  const JdMatchKeys: seq<string> :=
    ["fit_percentage", "matching_skills", "missing_skills", "strengths", "weaknesses", "verdict"]
  const ResumeImprovementKeys: seq<string> :=
    ["matching_skills", "missing_skills", "tools_to_learn", "resources_to_explore", "strengths", "weaknesses", "fit_summary"]

  /** `ResumeAnalysisResult(**data)`. */
  function ValidateResumeAnalysis(o: Fields): (r: Result<ResumeAnalysis, seq<string>>)
    ensures r.Success? <==> (StrList(o, "skills").Some? && Str(o, "summary").Some?
      && StrList(o, "suggestions").Some? && Int(o, "job_fit_score").Some?)
    ensures r.Failure? ==> r.error != [] && forall n :: n in r.error ==> n in ResumeAnalysisKeys
    ensures r.Success? ==>
      && "skills" in o && o["skills"] == StringList(r.value.skills)
      && "summary" in o && o["summary"] == JString(r.value.summary)
      && "suggestions" in o && o["suggestions"] == StringList(r.value.suggestions)
      && "job_fit_score" in o && o["job_fit_score"] == JInt(r.value.jobFitScore)
  {
    var skills, summary, suggestions, score :=
      StrList(o, "skills"), Str(o, "summary"), StrList(o, "suggestions"), Int(o, "job_fit_score");
    if skills.Some? && summary.Some? && suggestions.Some? && score.Some? then
      Success(ResumeAnalysis(skills.value, summary.value, suggestions.value, score.value))
    else
      Failure(Bad("skills", skills.Some?) + Bad("summary", summary.Some?)
        + Bad("suggestions", suggestions.Some?) + Bad("job_fit_score", score.Some?))
  }

  /** `JDMatchResult(**data)`. */
  function ValidateJdMatch(o: Fields): (r: Result<JdMatch, seq<string>>)
    ensures r.Success? <==> (Int(o, "fit_percentage").Some? && StrList(o, "matching_skills").Some?
      && StrList(o, "missing_skills").Some? && OptStrList(o, "strengths").Some?
      && OptStrList(o, "weaknesses").Some? && Str(o, "verdict").Some?)
    ensures r.Failure? ==> r.error != [] && forall n :: n in r.error ==> n in JdMatchKeys
    ensures r.Success? ==>
      && "fit_percentage" in o && o["fit_percentage"] == JInt(r.value.fitPercentage)
      && "matching_skills" in o && o["matching_skills"] == StringList(r.value.matchingSkills)
      && "missing_skills" in o && o["missing_skills"] == StringList(r.value.missingSkills)
      && "verdict" in o && o["verdict"] == JString(r.value.verdict)
      && Some(r.value.strengths) == OptStrList(o, "strengths")
      && Some(r.value.weaknesses) == OptStrList(o, "weaknesses")
  {
    var fit, matching, missing, strengths, weaknesses, verdict :=
      Int(o, "fit_percentage"), StrList(o, "matching_skills"), StrList(o, "missing_skills"),
      OptStrList(o, "strengths"), OptStrList(o, "weaknesses"), Str(o, "verdict");
    if fit.Some? && matching.Some? && missing.Some? && strengths.Some? && weaknesses.Some? && verdict.Some? then
      Success(JdMatch(fit.value, matching.value, missing.value, strengths.value, weaknesses.value, verdict.value))
    else
      Failure(Bad("fit_percentage", fit.Some?) + Bad("matching_skills", matching.Some?)
        + Bad("missing_skills", missing.Some?) + Bad("strengths", strengths.Some?)
        + Bad("weaknesses", weaknesses.Some?) + Bad("verdict", verdict.Some?))
  }

  /** `ResumeImprovementResult(**data)`. */
  function ValidateResumeImprovement(o: Fields): (r: Result<ResumeImprovement, seq<string>>)
    ensures r.Success? <==> (StrList(o, "matching_skills").Some? && StrList(o, "missing_skills").Some?
      && StrList(o, "tools_to_learn").Some? && StrList(o, "resources_to_explore").Some?
      && StrList(o, "strengths").Some? && StrList(o, "weaknesses").Some? && Dict(o, "fit_summary").Some?)
    ensures r.Failure? ==> r.error != [] && forall n :: n in r.error ==> n in ResumeImprovementKeys
    ensures r.Success? ==>
      && "matching_skills" in o && o["matching_skills"] == StringList(r.value.matchingSkills)
      && "missing_skills" in o && o["missing_skills"] == StringList(r.value.missingSkills)
      && "tools_to_learn" in o && o["tools_to_learn"] == StringList(r.value.toolsToLearn)
      && "resources_to_explore" in o && o["resources_to_explore"] == StringList(r.value.resourcesToExplore)
      && "strengths" in o && o["strengths"] == StringList(r.value.strengths)
      && "weaknesses" in o && o["weaknesses"] == StringList(r.value.weaknesses)
      && "fit_summary" in o && o["fit_summary"] == JObject(r.value.fitSummary)
  {
    var matching, missing, tools, resources, strengths, weaknesses, summary :=
      StrList(o, "matching_skills"), StrList(o, "missing_skills"), StrList(o, "tools_to_learn"),
      StrList(o, "resources_to_explore"), StrList(o, "strengths"), StrList(o, "weaknesses"),
      Dict(o, "fit_summary");
    if matching.Some? && missing.Some? && tools.Some? && resources.Some?
      && strengths.Some? && weaknesses.Some? && summary.Some? then
      Success(ResumeImprovement(matching.value, missing.value, tools.value, resources.value,
        strengths.value, weaknesses.value, summary.value))
    else
      Failure(Bad("matching_skills", matching.Some?) + Bad("missing_skills", missing.Some?)
        + Bad("tools_to_learn", tools.Some?) + Bad("resources_to_explore", resources.Some?)
        + Bad("strengths", strengths.Some?) + Bad("weaknesses", weaknesses.Some?)
        + Bad("fit_summary", summary.Some?))
  }

  /** The JSON object a model's `.dict()` gives. */
  function EncodeResumeAnalysis(v: ResumeAnalysis): Fields {
    map["skills" := StringList(v.skills), "summary" := JString(v.summary),
        "suggestions" := StringList(v.suggestions), "job_fit_score" := JInt(v.jobFitScore)]
  }

  function EncodeOptList(x: Option<seq<string>>): Json {
    match x
    case None => JNull
    case Some(xs) => StringList(xs)
  }

  function EncodeJdMatch(v: JdMatch): Fields {
    map["fit_percentage" := JInt(v.fitPercentage), "matching_skills" := StringList(v.matchingSkills),
        "missing_skills" := StringList(v.missingSkills), "strengths" := EncodeOptList(v.strengths),
        "weaknesses" := EncodeOptList(v.weaknesses), "verdict" := JString(v.verdict)]
  }

  function EncodeResumeImprovement(v: ResumeImprovement): Fields {
    map["matching_skills" := StringList(v.matchingSkills), "missing_skills" := StringList(v.missingSkills),
        "tools_to_learn" := StringList(v.toolsToLearn), "resources_to_explore" := StringList(v.resourcesToExplore),
        "strengths" := StringList(v.strengths), "weaknesses" := StringList(v.weaknesses),
        "fit_summary" := JObject(v.fitSummary)]
  }

  /** A list of strings reads back as itself. */
  lemma StringListRoundTrip(xs: seq<string>)
    ensures Strings(StringList(xs).items) == Some(xs)
  {
    var r := Strings(StringList(xs).items);
    assert r.Some?;
    assert r.value == xs by {
      forall i | 0 <= i < |xs| ensures r.value[i] == xs[i] {
        assert StringList(xs).items[i] == JString(xs[i]);
      }
    }
  }

  lemma ResumeAnalysisRoundTrip(v: ResumeAnalysis)
    ensures ValidateResumeAnalysis(EncodeResumeAnalysis(v)) == Success(v)
  {
    StringListRoundTrip(v.skills);
    StringListRoundTrip(v.suggestions);
  }

  lemma JdMatchRoundTrip(v: JdMatch)
    ensures ValidateJdMatch(EncodeJdMatch(v)) == Success(v)
  {
    StringListRoundTrip(v.matchingSkills);
    StringListRoundTrip(v.missingSkills);
    if v.strengths.Some? { StringListRoundTrip(v.strengths.value); }
    if v.weaknesses.Some? { StringListRoundTrip(v.weaknesses.value); }
  }

  lemma ResumeImprovementRoundTrip(v: ResumeImprovement)
    ensures ValidateResumeImprovement(EncodeResumeImprovement(v)) == Success(v)
  {
    StringListRoundTrip(v.matchingSkills);
    StringListRoundTrip(v.missingSkills);
    StringListRoundTrip(v.toolsToLearn);
    StringListRoundTrip(v.resourcesToExplore);
    StringListRoundTrip(v.strengths);
    StringListRoundTrip(v.weaknesses);
  }

  /** `o` and `o'` agree on key `k`: both lack it or both map it to the same value. */
  predicate SameAt(o: Fields, o': Fields, k: string) {
    (k in o <==> k in o') && (k in o ==> o[k] == o'[k])
  }

  /** `o` and `o'` agree on every key in `keys`. */
  predicate AgreeOn(o: Fields, o': Fields, keys: seq<string>) {
    forall i :: 0 <= i < |keys| ==> SameAt(o, o', keys[i])
  }

  /** Every field reader sees only its own key. */
  lemma ReadersAgree(o: Fields, o': Fields, k: string)
    requires SameAt(o, o', k)
    ensures Str(o, k) == Str(o', k) && Int(o, k) == Int(o', k) && Dict(o, k) == Dict(o', k)
    ensures StrList(o, k) == StrList(o', k) && OptStrList(o, k) == OptStrList(o', k)
  {
  }

  /** Undeclared keys are ignored: `ResumeAnalysisResult` only looks at its own fields. */
  lemma ResumeAnalysisIgnoresExtraKeys(o: Fields, o': Fields)
    requires AgreeOn(o, o', ResumeAnalysisKeys)
    ensures ValidateResumeAnalysis(o) == ValidateResumeAnalysis(o')
  {
    ReadersAgree(o, o', ResumeAnalysisKeys[0]);
    ReadersAgree(o, o', ResumeAnalysisKeys[1]);
    ReadersAgree(o, o', ResumeAnalysisKeys[2]);
    ReadersAgree(o, o', ResumeAnalysisKeys[3]);
  }

  /** Undeclared keys are ignored by `JDMatchResult`. */
  lemma JdMatchIgnoresExtraKeys(o: Fields, o': Fields)
    requires AgreeOn(o, o', JdMatchKeys)
    ensures ValidateJdMatch(o) == ValidateJdMatch(o')
  {
    ReadersAgree(o, o', JdMatchKeys[0]);
    ReadersAgree(o, o', JdMatchKeys[1]);
    ReadersAgree(o, o', JdMatchKeys[2]);
    ReadersAgree(o, o', JdMatchKeys[3]);
    ReadersAgree(o, o', JdMatchKeys[4]);
    ReadersAgree(o, o', JdMatchKeys[5]);
  }

  /** Undeclared keys are ignored by `ResumeImprovementResult`. */
  lemma ResumeImprovementIgnoresExtraKeys(o: Fields, o': Fields)
    requires AgreeOn(o, o', ResumeImprovementKeys)
    ensures ValidateResumeImprovement(o) == ValidateResumeImprovement(o')
  {
    ReadersAgree(o, o', ResumeImprovementKeys[0]);
    ReadersAgree(o, o', ResumeImprovementKeys[1]);
    ReadersAgree(o, o', ResumeImprovementKeys[2]);
    ReadersAgree(o, o', ResumeImprovementKeys[3]);
    ReadersAgree(o, o', ResumeImprovementKeys[4]);
    ReadersAgree(o, o', ResumeImprovementKeys[5]);
    ReadersAgree(o, o', ResumeImprovementKeys[6]);
  }

  /** Every field of `ResumeAnalysisResult` is required: without it validation fails and names it. */
  lemma ResumeAnalysisNeedsEveryField(o: Fields, i: nat)
    requires i < |ResumeAnalysisKeys| && ResumeAnalysisKeys[i] !in o
    ensures ValidateResumeAnalysis(o).Failure? && ResumeAnalysisKeys[i] in ValidateResumeAnalysis(o).error
  {
  }

  /** `JDMatchResult` requires all its fields but `strengths` and `weaknesses` (indices 3 and 4). */
  lemma JdMatchNeedsRequiredFields(o: Fields, i: nat)
    requires i < |JdMatchKeys| && i != 3 && i != 4 && JdMatchKeys[i] !in o
    ensures ValidateJdMatch(o).Failure? && JdMatchKeys[i] in ValidateJdMatch(o).error
  {
  }

  /** Every field of `ResumeImprovementResult` is required. */
  lemma ResumeImprovementNeedsEveryField(o: Fields, i: nat)
    requires i < |ResumeImprovementKeys| && ResumeImprovementKeys[i] !in o
    ensures ValidateResumeImprovement(o).Failure? && ResumeImprovementKeys[i] in ValidateResumeImprovement(o).error
  {
  }

  /** A `JDMatchResult` without `strengths`/`weaknesses` reads them as empty lists, one with `null` as `None`. */
  lemma JdMatchOptionalLists(o: Fields)
    requires ValidateJdMatch(o).Success?
    ensures "strengths" !in o ==> ValidateJdMatch(o).value.strengths == Some([])
    ensures "strengths" in o && o["strengths"] == JNull ==> ValidateJdMatch(o).value.strengths == None
    ensures "weaknesses" !in o ==> ValidateJdMatch(o).value.weaknesses == Some([])
    ensures "weaknesses" in o && o["weaknesses"] == JNull ==> ValidateJdMatch(o).value.weaknesses == None
  {
  }
}

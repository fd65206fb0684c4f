/**
  The prompt templates. Each is an f-string: literal text with the caller's
  texts spliced in, unescaped, at fixed holes (`{{`/`}}` in the source are the
  literal braces). A template is modelled as its literal pieces; filling it
  puts one argument between each two pieces.
*/
module Prompts {
  import opened Common

  /** The lengths of some texts. */
  function Lengths(xs: seq<string>): (r: seq<nat>)
    ensures |r| == |xs| && forall i :: 0 <= i < |xs| ==> r[i] == |xs[i]|
  {
    seq(|xs|, i requires 0 <= i < |xs| => |xs[i]|)
  }

  /** The f-string with the pieces `pieces` and the arguments `args`, in hole order. */
  function Fill(pieces: seq<string>, args: seq<string>): string
    requires |pieces| == |args| + 1
    decreases |args|
  {
    if args == [] then pieces[0] else pieces[0] + args[0] + Fill(pieces[1..], args[1..])
  }

  /**
    Reads the arguments back out of a prompt, given the length of each: the
    prompt must start with the first piece, continue with an argument of the
    first length, and so on, and end with the last piece.
  */
  function Holes(pieces: seq<string>, p: string, lens: seq<nat>): Option<seq<string>>
    requires |pieces| == |lens| + 1
    decreases |lens|
  {
    var n := |pieces[0]|;
    if |p| < n || p[..n] != pieces[0] then None
    else if lens == [] then (if |p| == n then Some([]) else None)
    else if |p| < n + lens[0] then None
    else match Holes(pieces[1..], p[n + lens[0]..], lens[1..])
      case None => None
      case Some(rest) => Some([p[n..n + lens[0]]] + rest)
  }

  /** Filling puts every argument verbatim, in order, into its hole: reading the holes back gives the arguments. */
  lemma {:induction false} HolesOfFill(pieces: seq<string>, args: seq<string>)
    requires |pieces| == |args| + 1
    ensures Holes(pieces, Fill(pieces, args), Lengths(args)) == Some(args)
    decreases |args|
  {
    var p, n := Fill(pieces, args), |pieces[0]|;
    if args != [] {
      var tail := Fill(pieces[1..], args[1..]);
      assert p == pieces[0] + args[0] + tail;
      assert p[..n] == pieces[0];
      assert p[n..n + |args[0]|] == args[0];
      assert p[n + |args[0]|..] == tail;
      assert Lengths(args)[1..] == Lengths(args[1..]);
      HolesOfFill(pieces[1..], args[1..]);
      assert [args[0]] + args[1..] == args;
    }
  }

  /** Conversely, a text whose holes can be read back is the template filled with what was read. */
  lemma {:induction false} FillOfHoles(pieces: seq<string>, p: string, lens: seq<nat>)
    requires |pieces| == |lens| + 1
    requires Holes(pieces, p, lens).Some?
    ensures |Holes(pieces, p, lens).value| == |lens|
    ensures Fill(pieces, Holes(pieces, p, lens).value) == p
    decreases |lens|
  {
    var n := |pieces[0]|;
    var args := Holes(pieces, p, lens).value;
    if lens != [] {
      var rest := p[n + lens[0]..];
      FillOfHoles(pieces[1..], rest, lens[1..]);
      assert args[1..] == Holes(pieces[1..], rest, lens[1..]).value;
      assert p == p[..n] + p[n..n + lens[0]] + rest;
    }
  }

  /** `call_llm`'s default system message. */
  const DefaultSystem := "You are a helpful AI assistant. Respond only with a valid JSON."
  /** The system message of every resume-analysis call. */
  const RecruiterSystem := "You are an expert recruiter AI. Respond only with a valid JSON object matching the exact structure provided."
  /** The system message of the JD-matching calls. */
  const MatcherSystem := "You are a smart recruiter assistant. Always reply in pure JSON format."
  /** The system message of the improvement calls. */
  const CoachSystem := "You are an expert career coach. Respond only with a valid JSON structure."
  /** The system message of the older job-match call. */
  const JobMatchSystem := "You are a job matching AI. Respond with a clean JSON only."
  /** The system message of `call_openrouter_for_json`. */
  const AssistantSystem := "You are a helpful assistant."

  // `PROMPT_TEMPLATES["resume_analysis"]`, also the prompt of the older `analyze_resume_text`; one hole, the resume.
  const ResumeAnalysisPiece0: string :=
    "\n"
    + "You are a professional technical recruiter AI. Your response *must be* a valid JSON object with no additional text before or after it. Use the following structure exactly:\n"
    + "\n"
    + "{\n"
    + "    \"skills\": [list of technical and soft skills extracted from the resume],\n"
    + "    \"summary\": \"short professional summary\",\n"
    + "    \"suggestions\": [list of tips to improve the resume],\n"
    + "    \"job_fit_score\": number between 0 and 100\n"
    + "}\n"
    + "\n"
    + "Resume:\n"
  const ResumeAnalysisPiece1: string :=
    "\n"
  const ResumeAnalysisPieces: seq<string> := [ResumeAnalysisPiece0, ResumeAnalysisPiece1]

  // `PROMPT_TEMPLATES["jd_matching"]`; holes: the resume, then the job description.
  const JdMatchingPiece0: string :=
    "\n"
    + "You are an expert recruiter AI. Compare the following resume with the job description and return a JSON with:\n"
    + "{\n"
    + "    \"fit_percentage\": number between 0 to 100,\n"
    + "    \"matching_skills\": [list of overlapping skills or experiences],\n"
    + "    \"missing_skills\": [list of important but missing skills],\n"
    + "    \"strengths\": [list of resume strengths],\n"
    + "    \"weaknesses\": [list of resume weaknesses],\n"
    + "    \"verdict\": \"short sentence whether the resume fits or not\"\n"
    + "}\n"
    + "\n"
    + "Resume:\n"
  const JdMatchingPiece1: string :=
    "\n"
    + "\n"
    + "Job Description:\n"
  const JdMatchingPiece2: string :=
    "\n"
  const JdMatchingPieces: seq<string> := [JdMatchingPiece0, JdMatchingPiece1, JdMatchingPiece2]

  // `PROMPT_TEMPLATES["resume_improvement"]`; holes: the job description, then the resume.
  const ResumeImprovementPiece0: string :=
    "\n"
    + "You are an AI Career Coach helping a candidate improve their resume to match a given job description.\n"
    + "\n"
    + "Job Description:\n"
  const ResumeImprovementPiece1: string :=
    "\n"
    + "\n"
    + "Candidate Resume:\n"
  const ResumeImprovementPiece2: string :=
    "\n"
    + "\n"
    + "Analyze the resume and provide structured suggestions in the following JSON format:\n"
    + "\n"
    + "{\n"
    + "  \"matching_skills\": [...],\n"
    + "  \"missing_skills\": [...],\n"
    + "  \"tools_to_learn\": [...],\n"
    + "  \"resources_to_explore\": [...],\n"
    + "  \"strengths\": [...],\n"
    + "  \"weaknesses\": [...],\n"
    + "  \"fit_summary\": {\n"
    + "    \"technical_fit\": \"...\",\n"
    + "    \"upside\": \"...\",\n"
    + "    \"recommendation\": \"...\",\n"
    + "    \"alternative_roles\": [...]\n"
    + "  }\n"
    + "}\n"
    + "\n"
    + "Strictly return only the JSON. No explanation, no markdown, no commentary.\n"
  const ResumeImprovementPieces: seq<string> := [ResumeImprovementPiece0, ResumeImprovementPiece1, ResumeImprovementPiece2]

  // The prompt of the older `match_resume_with_job`; holes: the resume, then the job description.
  const JobMatchPiece0: string :=
    "\n"
    + "You are a recruiter AI. Compare the candidate's resume with the job description.\n"
    + "Respond ONLY in the following JSON structure:\n"
    + "\n"
    + "{\n"
    + "  \"match_score\": number between 0 and 100,\n"
    + "  \"missing_skills\": [list of key missing skills],\n"
    + "  \"fit_summary\": \"brief summary of how well the resume fits the job\"\n"
    + "}\n"
    + "\n"
    + "Resume:\n"
  const JobMatchPiece1: string :=
    "\n"
    + "\n"
    + "Job Description:\n"
  const JobMatchPiece2: string :=
    "\n"
  const JobMatchPieces: seq<string> := [JobMatchPiece0, JobMatchPiece1, JobMatchPiece2]

  // The prompt of the service `match_resume_with_jd`: the JD-matching text without strengths and weaknesses.
  const ServiceJdMatchPiece0: string :=
    "\n"
    + "You are an expert recruiter AI. Compare the following resume with the job description and return a JSON with:\n"
    + "{\n"
    + "    \"fit_percentage\": number between 0 to 100,\n"
    + "    \"matching_skills\": [list of overlapping skills or experiences],\n"
    + "    \"missing_skills\": [list of important but missing skills],\n"
    + "    \"verdict\": \"short sentence whether the resume fits or not\"\n"
    + "}\n"
    + "\n"
    + "Resume:\n"
  const ServiceJdMatchPiece1: string :=
    "\n"
    + "\n"
    + "Job Description:\n"
  const ServiceJdMatchPiece2: string :=
    "\n"
  const ServiceJdMatchPieces: seq<string> := [ServiceJdMatchPiece0, ServiceJdMatchPiece1, ServiceJdMatchPiece2]

  // The prompt of `match_resume_to_jd`; holes: the truncated resume, then the truncated job description.
  const RecruitingPiece0: string :=
    "\n"
    + "You are an AI recruiting assistant. Based on the following resume and job description, evaluate the match and return:\n"
    + "1. A match score (out of 100)\n"
    + "2. Matching skills\n"
    + "3. Missing skills\n"
    + "4. Key strengths\n"
    + "5. Weaknesses\n"
    + "6. A short conclusion about fit for the role.\n"
    + "\n"
    + "Resume:\n"
  const RecruitingPiece1: string :=
    "\n"
    + "\n"
    + "Job Description:\n"
  const RecruitingPiece2: string :=
    "\n"
    + "\n"
    + "Respond strictly in JSON with keys:\n"
    + "- match_score (int)\n"
    + "- matching_skills (list of strings)\n"
    + "- missing_skills (list of strings)\n"
    + "- strengths (list of strings)\n"
    + "- weaknesses (list of strings)\n"
    + "- fit_statement (string)\n"
  const RecruitingPieces: seq<string> := [RecruitingPiece0, RecruitingPiece1, RecruitingPiece2]

  /** The resume-analysis prompt for `resume`. */
  function ResumeAnalysis(resume: string): (p: string)
    ensures Holes(ResumeAnalysisPieces, p, [|resume|]) == Some([resume])
  {
    assert Lengths([resume]) == [|resume|];
    HolesOfFill(ResumeAnalysisPieces, [resume]);
    Fill(ResumeAnalysisPieces, [resume])
  }

  /** The JD-matching prompt: the resume goes in the first hole, the job description in the second. */
  function JdMatching(resume: string, jd: string): (p: string)
    ensures Holes(JdMatchingPieces, p, [|resume|, |jd|]) == Some([resume, jd])
  {
    assert Lengths([resume, jd]) == [|resume|, |jd|];
    HolesOfFill(JdMatchingPieces, [resume, jd]);
    Fill(JdMatchingPieces, [resume, jd])
  }

  /** The improvement prompt: the job description comes first, then the resume. */
  function ResumeImprovement(resume: string, jd: string): (p: string)
    ensures Holes(ResumeImprovementPieces, p, [|jd|, |resume|]) == Some([jd, resume])
  {
    assert Lengths([jd, resume]) == [|jd|, |resume|];
    HolesOfFill(ResumeImprovementPieces, [jd, resume]);
    Fill(ResumeImprovementPieces, [jd, resume])
  }

  /** The older job-match prompt. */
  function JobMatch(resume: string, jd: string): (p: string)
    ensures Holes(JobMatchPieces, p, [|resume|, |jd|]) == Some([resume, jd])
  {
    assert Lengths([resume, jd]) == [|resume|, |jd|];
    HolesOfFill(JobMatchPieces, [resume, jd]);
    Fill(JobMatchPieces, [resume, jd])
  }

  /** The service JD-matching prompt. */
  function ServiceJdMatch(resume: string, jd: string): (p: string)
    ensures Holes(ServiceJdMatchPieces, p, [|resume|, |jd|]) == Some([resume, jd])
  {
    assert Lengths([resume, jd]) == [|resume|, |jd|];
    HolesOfFill(ServiceJdMatchPieces, [resume, jd]);
    Fill(ServiceJdMatchPieces, [resume, jd])
  }

  /** The recruiting prompt, filled with texts the caller has already cut to length. */
  function Recruiting(resume: string, jd: string): (p: string)
    ensures Holes(RecruitingPieces, p, [|resume|, |jd|]) == Some([resume, jd])
  {
    assert Lengths([resume, jd]) == [|resume|, |jd|];
    HolesOfFill(RecruitingPieces, [resume, jd]);
    Fill(RecruitingPieces, [resume, jd])
  }
}

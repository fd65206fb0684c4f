/**
  `match_resume_to_jd`, the same in both backends' `utils/jd_matcher.py`: one
  chat completion through the OpenAI SDK, its content stripped and sanitised,
  then parsed; any failure becomes a fallback document that carries the
  error's message. The newer copy also has `call_openrouter_for_json`, a raw
  HTTP call that raises on every status but 200.
*/
module JdMatcher {
  import opened Common
  import opened JsonDoc
  import opened Text
  import opened Fences
  import opened Http
  import Prompts

  /** How much of each text the prompt keeps. */
  const ResumeLimit := 50000
  const JdLimit := 1000

  /** `client.chat.completions.create(model=os.getenv("OPENROUTER_MODEL"), ...)` with one user message. */
  datatype SdkRequest = SdkRequest(model: Option<string>, prompt: string)

  /** The SDK call's outcome: `choices[0].message.content`, or an exception's message. */
  datatype SdkReply = Completion(content: Option<string>) | SdkError(message: string)

  type Sdk = SdkRequest -> SdkReply

  /** What `str(e)` gives for `None.strip()`. */
  const NoneStripMessage := "'NoneType' object has no attribute 'strip'"

  /** The document returned when anything fails. */
  function Fallback(message: string): (j: Json)
    ensures j.JObject? && j.fields.Keys == {"match_score", "matching_skills", "missing_skills", "strengths", "weaknesses", "fit_statement"}
    ensures j.fields["match_score"] == JInt(0)
    ensures j.fields["matching_skills"] == JArray([]) && j.fields["missing_skills"] == JArray([])
    ensures j.fields["strengths"] == JArray([]) && j.fields["weaknesses"] == JArray([])
    ensures j.fields["fit_statement"] == JString("Unable to evaluate fit: " + message)
  {
    JObject(map[
      "match_score" := JInt(0),
      "matching_skills" := JArray([]),
      "missing_skills" := JArray([]),
      "strengths" := JArray([]),
      "weaknesses" := JArray([]),
      "fit_statement" := JString("Unable to evaluate fit: " + message)])
  }

  /** The request for a resume and a job description, both cut to their limits first. */
  function MatchRequest(model: Option<string>, resume: string, jd: string): (q: SdkRequest)
    ensures q.model == model
    ensures Prompts.Holes(Prompts.RecruitingPieces, q.prompt, [|Take(resume, ResumeLimit)|, |Take(jd, JdLimit)|])
         == Some([Take(resume, ResumeLimit), Take(jd, JdLimit)])
  {
    SdkRequest(model, Prompts.Recruiting(Take(resume, ResumeLimit), Take(jd, JdLimit)))
  }

  /**
    `match_resume_to_jd`: the parsed reply, whatever JSON it is, when the
    sanitised content parses; otherwise the fallback carrying the failure's
    message. It never raises.
  */
  function MatchResumeToJd(sdk: Sdk, model: Option<string>, resume: string, jd: string, parse: Parser): (r: Json)
    ensures var reply := sdk(MatchRequest(model, resume, jd));
      reply.Completion? && reply.content.Some? && parse(Sanitize(Strip(reply.content.value))).Success? ==>
        r == parse(Sanitize(Strip(reply.content.value))).value
    ensures var reply := sdk(MatchRequest(model, resume, jd));
      reply.Completion? && reply.content.Some? && parse(Sanitize(Strip(reply.content.value))).Failure? ==>
        r == Fallback(parse(Sanitize(Strip(reply.content.value))).error)
    ensures var reply := sdk(MatchRequest(model, resume, jd));
      reply.SdkError? ==> r == Fallback(reply.message)
    ensures sdk(MatchRequest(model, resume, jd)) == Completion(None) ==> r == Fallback(NoneStripMessage)
  {
    match sdk(MatchRequest(model, resume, jd))
    case SdkError(m) => Fallback(m)
    case Completion(None) => Fallback(NoneStripMessage)
    case Completion(Some(c)) =>
      match parse(Sanitize(Strip(c)))
      case Success(doc) => doc
      case Failure(m) => Fallback(m)
  }

  /** Only the first 50000 characters of the resume and the first 1000 of the job description matter. */
  lemma OnlyPrefixesMatter(sdk: Sdk, model: Option<string>, resume: string, resume': string, jd: string, jd': string, parse: Parser)
    requires Take(resume, ResumeLimit) == Take(resume', ResumeLimit)
    requires Take(jd, JdLimit) == Take(jd', JdLimit)
    ensures MatchResumeToJd(sdk, model, resume, jd, parse) == MatchResumeToJd(sdk, model, resume', jd', parse)
  {
  }

  /** A reply that is one ```` ```json ```` block, its body on lines of its own, is parsed with those two newlines around it. */
  lemma SanitizeFencedReply(c: string, body: string)
    requires c == Fenced(body)
    ensures Sanitize(Strip(c)) == "\n" + body + "\n"
  {
    assert c == JsonFence + ("\n" + body + "\n") + Fence;
    assert c[0] == '`' && c[|c| - 1] == '`';
    StripTrimmed(c);
    SanitizeJsonFence("\n" + body + "\n");
  }

  /** So, as `json.loads` skips the newlines, such a reply gives its body's document. */
  lemma FencedReplyIsParsed(sdk: Sdk, model: Option<string>, resume: string, jd: string, parse: Parser, c: string, body: string)
    requires sdk(MatchRequest(model, resume, jd)) == Completion(Some(c))
    requires c == Fenced(body) && parse("\n" + body + "\n") == parse(body) && parse(body).Success?
    ensures MatchResumeToJd(sdk, model, resume, jd, parse) == parse(body).value
  {
    SanitizeFencedReply(c, body);
  }

  /** `call_openrouter_for_json`: the raw content of a 200 reply, `None` when it is null; every other ending raises. */
  function CallOpenrouterForJson(transport: Transport, model: string, prompt: string): (r: Outcome<Option<string>>)
    ensures var a := transport(Chat(model, Prompts.AssistantSystem, prompt), 0);
      && (r.Value? <==> a.Response? && a.status == 200 && (a.reply.Content? || a.reply.NullContent?))
      && (a.Response? && a.status != 200 ==> r == Raised("OpenRouter error: " + a.body))
      && (r.Value? ==> r.value == if a.reply.Content? then Some(a.reply.text) else None)
  {
    match transport(Chat(model, Prompts.AssistantSystem, prompt), 0)
    case Timeout => Raised("ReadTimeout")
    case ConnectionError => Raised("ConnectError")
    case Response(status, reply, body) =>
      if status != 200 then Raised("OpenRouter error: " + body)
      else match reply
        case Content(text) => Value(Some(text))
        case NullContent => Value(None)
        case Malformed => Raised("KeyError")
        case NotJson => Raised("JSONDecodeError")
  }

  /** Any status but 200 raises, including the other 2xx codes. */
  lemma NonOkStatusRaises(transport: Transport, model: string, prompt: string, status: int, reply: Reply, body: string)
    requires transport(Chat(model, Prompts.AssistantSystem, prompt), 0) == Response(status, reply, body)
    requires status != 200
    ensures CallOpenrouterForJson(transport, model, prompt) == Raised("OpenRouter error: " + body)
  {
  }
}

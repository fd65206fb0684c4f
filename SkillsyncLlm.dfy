/**
  The newer backend's LLM client: `call_llm` retries the OpenRouter call and
  returns the cleaned reply text, and three wrappers fill a prompt template,
  parse the reply and validate it against a pydantic model.
*/
module SkillsyncLlm {
  import opened Common
  import opened JsonDoc
  import opened Fences
  import opened Http
  import opened Schemas
  import opened Replies
  import Prompts

  /** What a non-retried attempt gives `call_llm`: the cleaned content of a 2xx reply, else `None`. */
  function CleanedContent(a: Attempt): (r: Option<string>)
    ensures r.Some? <==> a.Response? && IsSuccess(a.status) && a.reply.Content?
    ensures r.Some? ==> r.value == CleanReply(a.reply.text)
  {
    if a.Response? && IsSuccess(a.status) && a.reply.Content? then Some(CleanReply(a.reply.text)) else None
  }

  /** `call_llm`: up to `retries` attempts with exponential backoff; the reply text, or `None`. */
  method CallLlm(transport: Transport, model: string, prompt: string, system: string, retries: int)
    returns (r: Option<string>, ghost calls: nat, ghost sleeps: seq<nat>)
    ensures r == RetryFrom(Sender(transport, Chat(model, system, prompt)), CleanedContent, None, retries, 0).result
    ensures var run := RetryFrom(Sender(transport, Chat(model, system, prompt)), CleanedContent, None, retries, 0);
      calls == run.calls && sleeps == run.sleeps
  {
    r, calls, sleeps := Retry(Sender(transport, Chat(model, system, prompt)), CleanedContent, None, retries);
  }

  /**
    A wrapper's handling of `call_llm`'s answer, corrected: no answer or an
    empty one gives `None`, and so does text that does not parse, JSON that is
    not an object, or an object the model rejects.
  */
  function Finish<T>(response: Option<string>, parse: Parser, validate: Fields -> Result<T, seq<string>>): (r: Outcome<T>)
    ensures !r.Raised?
    ensures r.Value? <==> (response.Some? && response.value != [] && parse(response.value).Success?
      && parse(response.value).value.JObject? && validate(parse(response.value).value.fields).Success?)
    ensures r.Value? ==> r.value == validate(parse(response.value).value.fields).value
  {
    if response.None? || response.value == [] then NoValue
    else match parse(response.value)
      case Failure(_) => NoValue
      case Success(JObject(fields)) =>
        (match validate(fields)
         case Success(v) => Value(v)
         case Failure(_) => NoValue)
      case Success(_) => NoValue
  }

  /**
    The wrappers as written: `Model(**data)` on JSON that is not an object
    raises `TypeError`, which the `except (JSONDecodeError, ValidationError)`
    clause does not catch.
  */
  function FinishAsWritten<T>(response: Option<string>, parse: Parser, validate: Fields -> Result<T, seq<string>>): Outcome<T> {
    if response.Some? && response.value != [] && parse(response.value).Success?
      && !parse(response.value).value.JObject?
    then Raised("TypeError")
    else Finish(response, parse, validate)
  }

  /** A reply such as `[]` or `42`: the wrappers as written raise, the corrected ones give `None`. */
  lemma NonObjectReplyRaises<T>(text: string, parse: Parser, validate: Fields -> Result<T, seq<string>>)
    requires text != [] && parse(text).Success? && !parse(text).value.JObject?
    ensures FinishAsWritten(Some(text), parse, validate) == Raised("TypeError")
    ensures Finish(Some(text), parse, validate) == NoValue
  {
  }

  /** On every other answer the two agree. */
  lemma FinishAgreesOnObjects<T>(response: Option<string>, parse: Parser, validate: Fields -> Result<T, seq<string>>)
    requires response.Some? && response.value != [] && parse(response.value).Success?
      ==> parse(response.value).value.JObject?
    ensures FinishAsWritten(response, parse, validate) == Finish(response, parse, validate)
  {
  }

  /** The request `analyze_resume_text` sends. */
  function AnalysisRequest(model: string, resume: string): ChatRequest {
    Chat(model, Prompts.RecruiterSystem, Prompts.ResumeAnalysis(resume))
  }

  function JdMatchRequest(model: string, resume: string, jd: string): ChatRequest {
    Chat(model, Prompts.MatcherSystem, Prompts.JdMatching(resume, jd))
  }

  function ImprovementRequest(model: string, resume: string, jd: string): ChatRequest {
    Chat(model, Prompts.CoachSystem, Prompts.ResumeImprovement(resume, jd))
  }

  /** `analyze_resume_text`: three attempts at most, then parse and validate as `ResumeAnalysisResult`. */
  method AnalyzeResumeText(transport: Transport, model: string, resume: string, parse: Parser)
    returns (r: Outcome<ResumeAnalysis>)
    ensures r == Finish(RetryFrom(Sender(transport, AnalysisRequest(model, resume)), CleanedContent, None, 3, 0).result,
      parse, ValidateResumeAnalysis)
  {
    var response;
    ghost var calls, sleeps;
    response, calls, sleeps := CallLlm(transport, model, Prompts.ResumeAnalysis(resume), Prompts.RecruiterSystem, 3);
    r := Finish(response, parse, ValidateResumeAnalysis);
  }

  /** `match_resume_with_jd`: validated as `JDMatchResult`. */
  method MatchResumeWithJd(transport: Transport, model: string, resume: string, jd: string, parse: Parser)
    returns (r: Outcome<JdMatch>)
    ensures r == Finish(RetryFrom(Sender(transport, JdMatchRequest(model, resume, jd)), CleanedContent, None, 3, 0).result,
      parse, ValidateJdMatch)
  {
    var response;
    ghost var calls, sleeps;
    response, calls, sleeps := CallLlm(transport, model, Prompts.JdMatching(resume, jd), Prompts.MatcherSystem, 3);
    r := Finish(response, parse, ValidateJdMatch);
  }

  /** `suggest_resume_improvements`: validated as `ResumeImprovementResult`. */
  method SuggestResumeImprovements(transport: Transport, model: string, resume: string, jd: string, parse: Parser)
    returns (r: Outcome<ResumeImprovement>)
    ensures r == Finish(RetryFrom(Sender(transport, ImprovementRequest(model, resume, jd)), CleanedContent, None, 3, 0).result,
      parse, ValidateResumeImprovement)
  {
    var response;
    ghost var calls, sleeps;
    response, calls, sleeps := CallLlm(transport, model, Prompts.ResumeImprovement(resume, jd), Prompts.CoachSystem, 3);
    r := Finish(response, parse, ValidateResumeImprovement);
  }

  /** Two retryable failures, then a 2xx reply with content: three calls, sleeps of 1 and 2 seconds, the cleaned content. */
  lemma ThirdAttemptAnswers(send: nat -> Attempt, content: string, raw: string)
    requires Retryable(send(0)) && Retryable(send(1))
    requires send(2) == Response(200, Content(content), raw)
    ensures var run := RetryFrom(send, CleanedContent, None, 3, 0);
      run.calls == 3 && run.sleeps == [1, 2] && run.result == Some(CleanReply(content))
  {
    RetryFirstDecisive(send, CleanedContent, None, 3, 0, 2);
    RetryShape(send, CleanedContent, None, 3, 0);
    assert Backoff(0, 2) == [1, 2] by {
      assert Pow2(1) == 2;
    }
  }

  /** A reply text that parses to an encoded analysis is validated back to that analysis. */
  lemma EncodedAnalysisIsAccepted(text: string, parse: Parser, v: ResumeAnalysis)
    requires text != [] && parse(text) == Success(JObject(EncodeResumeAnalysis(v)))
    ensures Finish(Some(text), parse, ValidateResumeAnalysis) == Value(v)
  {
    ResumeAnalysisRoundTrip(v);
  }

  /**
    Two failed attempts (a 5xx, a 429, a timeout), then a 2xx reply holding
    the analysis in a ```` ```json ```` block: three calls, sleeps of 1 and 2
    seconds, and the validated analysis.
  */
  lemma AnalysisAfterTwoFailures(send: nat -> Attempt, content: string, ws1: string, body: string, ws2: string,
                                 raw: string, parse: Parser, v: ResumeAnalysis)
    requires Retryable(send(0)) && Retryable(send(1))
    requires send(2) == Response(200, Content(content), raw)
    requires content == Block(ws1, body, ws2) && Text.AllSpace(ws1) && Text.AllSpace(ws2) && PlainBody(body)
    requires body != [] && parse(body) == Success(JObject(EncodeResumeAnalysis(v)))
    ensures var run := RetryFrom(send, CleanedContent, None, 3, 0);
      run.calls == 3 && run.sleeps == [1, 2] && Finish(run.result, parse, ValidateResumeAnalysis) == Value(v)
  {
    ThirdAttemptAnswers(send, content, raw);
    CleanReplyOfBareBlock(content, ws1, body, ws2);
    EncodedAnalysisIsAccepted(body, parse, v);
  }

  /** Whatever the attempts, a wrapper never sends more than three requests, and corrected it never raises. */
  lemma WrapperBounds<T>(send: nat -> Attempt, parse: Parser, validate: Fields -> Result<T, seq<string>>)
    ensures RetryFrom(send, CleanedContent, None, 3, 0).calls <= 3
    ensures !Finish(RetryFrom(send, CleanedContent, None, 3, 0).result, parse, validate).Raised?
  {
    RetryShape(send, CleanedContent, None, 3, 0);
  }
}

/**
  The older single-shot services: `ai_engine.py` (resume analysis and job
  matching) and the service `jd_matcher.py`. Each makes one attempt, cleans
  and parses the reply, and gives `None` on any failure.
*/
module AiEngine {
  import opened Common
  import opened JsonDoc
  import opened Http
  import opened Replies
  import Prompts

  /** `MODEL_ID`. */
  const ModelId := DefaultModel

  /** The message of the `EnvironmentError` raised at import when the key is missing. */
  const MissingKeyMessage := "\U{274C} OPENROUTER_API_KEY is not set in .env or not loaded properly."

  /** Loading the module: the key from the environment, or the import fails when it is unset or empty. */
  function LoadKey(env: Option<string>): (r: Result<string, string>)
    ensures r.Success? <==> env.Some? && env.value != []
    ensures r.Success? ==> r.value == env.value
    ensures r.Failure? ==> r.error == MissingKeyMessage
  {
    if env.None? || env.value == [] then Failure(MissingKeyMessage) else Success(env.value)
  }

  function AnalysisRequest(resume: string): ChatRequest {
    Chat(ModelId, Prompts.RecruiterSystem, Prompts.ResumeAnalysis(resume))
  }

  function JobMatchRequest(resume: string, jd: string): ChatRequest {
    Chat(ModelId, Prompts.JobMatchSystem, Prompts.JobMatch(resume, jd))
  }

  function JdMatchRequest(resume: string, jd: string): ChatRequest {
    Chat(ModelId, Prompts.MatcherSystem, Prompts.ServiceJdMatch(resume, jd))
  }

  /** `ai_engine.analyze_resume_text`, corrected: the one attempt's parsed reply, or `None`; it is the retry loop with one try. */
  function AnalyzeResumeText(transport: Transport, resume: string, parse: Parser): (r: Outcome<Json>)
    ensures !r.Raised?
    ensures r == RetryFrom(Sender(transport, AnalysisRequest(resume)), a => ParseAttempt(a, parse), NoValue, 1, 0).result
  {
    SingleAttemptIsOneTry(Sender(transport, AnalysisRequest(resume)), parse);
    ParseAttempt(transport(AnalysisRequest(resume), 0), parse)
  }

  /** As written: a 2xx body that is not JSON reaches the `JSONDecodeError` handler, which reads the unbound `text_response`. */
  function AnalyzeResumeTextAsWritten(transport: Transport, resume: string, parse: Parser): Outcome<Json> {
    ParseAttemptAsWritten(transport(AnalysisRequest(resume), 0), parse)
  }

  /** `ai_engine.match_resume_with_job`: every exception is caught, so it never raises. */
  function MatchResumeWithJob(transport: Transport, resume: string, jd: string, parse: Parser): (r: Outcome<Json>)
    ensures !r.Raised?
    ensures r == RetryFrom(Sender(transport, JobMatchRequest(resume, jd)), a => ParseAttempt(a, parse), NoValue, 1, 0).result
  {
    SingleAttemptIsOneTry(Sender(transport, JobMatchRequest(resume, jd)), parse);
    ParseAttempt(transport(JobMatchRequest(resume, jd), 0), parse)
  }

  /** The service `match_resume_with_jd`, corrected. */
  function MatchResumeWithJd(transport: Transport, resume: string, jd: string, parse: Parser): (r: Outcome<Json>)
    ensures !r.Raised?
    ensures r == RetryFrom(Sender(transport, JdMatchRequest(resume, jd)), a => ParseAttempt(a, parse), NoValue, 1, 0).result
  {
    SingleAttemptIsOneTry(Sender(transport, JdMatchRequest(resume, jd)), parse);
    ParseAttempt(transport(JdMatchRequest(resume, jd), 0), parse)
  }

  /** As written: the `JSONDecodeError` handler reads the unbound `text_output`. */
  function MatchResumeWithJdAsWritten(transport: Transport, resume: string, jd: string, parse: Parser): Outcome<Json> {
    ParseAttemptAsWritten(transport(JdMatchRequest(resume, jd), 0), parse)
  }

  /** A 2xx response whose body is not JSON: the analysis as written raises, corrected it gives `None`. */
  lemma AnalysisOfNonJsonBody(transport: Transport, resume: string, parse: Parser, raw: string)
    requires transport(AnalysisRequest(resume), 0) == Response(200, NotJson, raw)
    ensures AnalyzeResumeTextAsWritten(transport, resume, parse) == Raised("UnboundLocalError")
    ensures AnalyzeResumeText(transport, resume, parse) == NoValue
  {
  }

  /** The same for the service JD matcher. */
  lemma JdMatchOfNonJsonBody(transport: Transport, resume: string, jd: string, parse: Parser, raw: string)
    requires transport(JdMatchRequest(resume, jd), 0) == Response(200, NotJson, raw)
    ensures MatchResumeWithJdAsWritten(transport, resume, jd, parse) == Raised("UnboundLocalError")
    ensures MatchResumeWithJd(transport, resume, jd, parse) == NoValue
  {
  }

  /** Apart from that reply, the analysis as written agrees with the corrected one. */
  lemma AnalysisAsWrittenAgreesOtherwise(transport: Transport, resume: string, parse: Parser)
    ensures !AnalyzeResumeTextAsWritten(transport, resume, parse).Raised?
      ==> AnalyzeResumeTextAsWritten(transport, resume, parse) == AnalyzeResumeText(transport, resume, parse)
  {
    AsWrittenRaisesOnlyOnNonJsonBody(transport(AnalysisRequest(resume), 0), parse);
  }

  /** And so does the service JD matcher. */
  lemma JdMatchAsWrittenAgreesOtherwise(transport: Transport, resume: string, jd: string, parse: Parser)
    ensures !MatchResumeWithJdAsWritten(transport, resume, jd, parse).Raised?
      ==> MatchResumeWithJdAsWritten(transport, resume, jd, parse) == MatchResumeWithJd(transport, resume, jd, parse)
  {
    AsWrittenRaisesOnlyOnNonJsonBody(transport(JdMatchRequest(resume, jd), 0), parse);
  }
}

/**
  The older backend's LLM client: the same retry loop as the newer one, but
  each attempt parses the cleaned reply itself and the wrappers return the
  parsed document without validating it.
*/
module BackendLlm {
  import opened Common
  import opened JsonDoc
  import opened Http
  import opened Replies
  import Prompts

  /** The corrected attempt handler of `call_llm`. */
  function Handle(parse: Parser): Attempt -> Outcome<Json> {
    a => ParseAttempt(a, parse)
  }

  /** `call_llm`: up to `retries` attempts with exponential backoff; the parsed reply, or `None`. */
  method CallLlm(transport: Transport, model: string, prompt: string, system: string, retries: int, parse: Parser)
    returns (r: Outcome<Json>, ghost calls: nat, ghost sleeps: seq<nat>)
    ensures r == RetryFrom(Sender(transport, Chat(model, system, prompt)), Handle(parse), NoValue, retries, 0).result
    ensures var run := RetryFrom(Sender(transport, Chat(model, system, prompt)), Handle(parse), NoValue, retries, 0);
      calls == run.calls && sleeps == run.sleeps
  {
    r, calls, sleeps := Retry(Sender(transport, Chat(model, system, prompt)), Handle(parse), NoValue, retries);
  }

  /** `call_llm` as written: a 2xx reply whose body is not JSON raises `UnboundLocalError` out of the handler. */
  function CallLlmAsWritten(send: nat -> Attempt, retries: int, parse: Parser): Run<Outcome<Json>> {
    RetryFrom(send, a => ParseAttemptAsWritten(a, parse), NoValue, retries, 0)
  }

  /** The corrected loop never lets an exception escape, whatever the attempts. */
  lemma CallLlmNeverRaises(send: nat -> Attempt, retries: int, parse: Parser)
    ensures !RetryFrom(send, Handle(parse), NoValue, retries, 0).result.Raised?
  {
    RetryResultIsHandled(send, Handle(parse), NoValue, retries, 0);
  }

  /** After earlier retryable failures, a 2xx reply that is not JSON makes the loop as written raise. */
  lemma NonJsonBodyRaises(send: nat -> Attempt, retries: int, parse: Parser, j: nat, raw: string)
    requires j < retries
    requires forall i :: 0 <= i < j ==> Retryable(send(i))
    requires send(j) == Response(200, NotJson, raw)
    ensures CallLlmAsWritten(send, retries, parse).result == Raised("UnboundLocalError")
    ensures RetryFrom(send, Handle(parse), NoValue, retries, 0).result == NoValue
  {
    RetryFirstDecisive(send, a => ParseAttemptAsWritten(a, parse), NoValue, retries, 0, j);
    RetryFirstDecisive(send, Handle(parse), NoValue, retries, 0, j);
  }

  /** `analyze_resume_text`: the resume-analysis prompt, three attempts, the document unvalidated. */
  method AnalyzeResumeText(transport: Transport, model: string, resume: string, parse: Parser)
    returns (r: Outcome<Json>)
    ensures r == RetryFrom(Sender(transport, Chat(model, Prompts.RecruiterSystem, Prompts.ResumeAnalysis(resume))),
      Handle(parse), NoValue, 3, 0).result
  {
    ghost var calls, sleeps;
    r, calls, sleeps := CallLlm(transport, model, Prompts.ResumeAnalysis(resume), Prompts.RecruiterSystem, 3, parse);
  }

  /** `match_resume_with_jd`. */
  method MatchResumeWithJd(transport: Transport, model: string, resume: string, jd: string, parse: Parser)
    returns (r: Outcome<Json>)
    ensures r == RetryFrom(Sender(transport, Chat(model, Prompts.MatcherSystem, Prompts.JdMatching(resume, jd))),
      Handle(parse), NoValue, 3, 0).result
  {
    ghost var calls, sleeps;
    r, calls, sleeps := CallLlm(transport, model, Prompts.JdMatching(resume, jd), Prompts.MatcherSystem, 3, parse);
  }

  /** `suggest_resume_improvements`. */
  method SuggestResumeImprovements(transport: Transport, model: string, resume: string, jd: string, parse: Parser)
    returns (r: Outcome<Json>)
    ensures r == RetryFrom(Sender(transport, Chat(model, Prompts.CoachSystem, Prompts.ResumeImprovement(resume, jd))),
      Handle(parse), NoValue, 3, 0).result
  {
    ghost var calls, sleeps;
    r, calls, sleeps := CallLlm(transport, model, Prompts.ResumeImprovement(resume, jd), Prompts.CoachSystem, 3, parse);
  }
}

# SkillSync AI: the structured-output pipeline, analytics and sign-up, in Dafny

SkillSync AI analyses resumes and matches them against job descriptions. It asks a
hosted language model (through OpenRouter) for a JSON document and uses that document.
This project models the code that does that, in both backends of the repository:

- **The prompt templates.** The prompt for each kind of request: resume analysis, JD matching,
  resume improvement, the older job-match and service JD-match prompts, and the
  recruiting prompt (`Prompts`).
- **The HTTP retry loop** of the two `call_llm` functions. Up to `retries` attempts are made,
  sleeping `2 ** attempt` seconds after a failed attempt that is retried. Every non-2xx
  status and every timeout is retried. Anything else ends the loop at once (`Http`).
- **The reply cleaners.** The `re.sub` that removes code fences after `.strip()`, and the
  prefix/suffix sanitiser of `match_resume_to_jd` (`Text`, `Fences`, `Replies`).
- **The pydantic result models** `ResumeAnalysisResult`, `JDMatchResult` and
  `ResumeImprovementResult`, as validators with encoders to match (`Schemas`).
- **The newer backend's client** with its three validating wrappers (`SkillsyncLlm`).
- **The older backend's client** with its three unvalidated wrappers (`BackendLlm`).
- **The single-shot services** `ai_engine.py` and `services/jd_matcher.py` (`AiEngine`).
- **The SDK-based `match_resume_to_jd`** with its fallback document, and the raw
  `call_openrouter_for_json` (`JdMatcher`).
- **The `/analytics/summary` aggregation**: resume count, score sum and top five skills
  (`Analytics`).
- **The account routes** (`Auth`, class `AuthService`): registration, login, password
  change and reset, and e-mail verification through the in-memory `OTP_STORE`.

Some things are parameters:

- **The network.** A `Transport` function says what attempt `k` of a request ends in.
- **`json.loads`.** A `Parser` function.
- **The OpenAI SDK.** An `Sdk` function.
- **Password hashing, password checking, token issue and token decoding.** Functions the
  `AuthService` is built with.
- **The random verification code.** A parameter drawn from `random.randint`'s range.

Backoff sleeps are ghost values. A function whose contract states a property of the source
is proved against it. Each wrapper method is proved equal to the loop specification
`Http.RetryFrom`, and the lemmas state what that loop does.

Three behaviours of the code are easy to misread, and the model follows the code:

- **The fence cleaner removes every marker.** The `re.sub` removes every opening
  `` ```json `` (or bare `` ``` ``) at a line start and every closing fence at a line end,
  anywhere in the reply, not one block only (`Fences.RemoveFencesEveryBlock`).
- **4xx answers are retried, connection errors are not.** Every status that
  `raise_for_status` rejects is retried, 4xx included, and so is a timeout. A connection
  error (`httpx.ConnectError`) reaches the generic `except Exception` and ends the loop
  with `None`.
- **An explicit `null` score or skill list breaks the analytics.** A missing field counts
  as a default through `.get`. An explicit `null` score makes `sum` fail, and an explicit
  `null` skill list makes `extend` fail. Both become a 500 (`Analytics.GetResumeAnalytics`).

`match_resume_to_jd` and its fallback document are textually the same in
`skillsync-ai-backend/app/utils/jd_matcher.py` and `backend/app/utils/jd_matcher.py`;
`JdMatcher.MatchResumeToJd` and `JdMatcher.Fallback` stand for both copies, and only the
newer copy has `call_openrouter_for_json`.

## Model

| member | source | states |
|---|---|---|
| Text.Strip | skillsync-ai-backend/app/utils/llm_utils.py:136 | `str.strip()` gives a contiguous piece of its input with no whitespace at either end |
| Text.StripTrimmed | skillsync-ai-backend/app/utils/llm_utils.py:136 | stripping text that has no surrounding whitespace leaves it as it is |
| Text.StripPadded | skillsync-ai-backend/app/utils/llm_utils.py:136 | any whitespace around a trimmed text is removed, and only that |
| Text.Take | backend/app/utils/jd_matcher.py:12-13 | `s[:n]` is the first `n` characters, or all of `s` when it is shorter |
| Fences.RemoveFences | skillsync-ai-backend/app/utils/llm_utils.py:138 | the fence regex only deletes: the cleaned text is never longer than the reply |
| Fences.RemoveFencesWithoutFence | skillsync-ai-backend/app/utils/llm_utils.py:138 | a reply with no three backticks in it passes through unchanged |
| Fences.RemoveFencesBlock | skillsync-ai-backend/app/utils/llm_utils.py:138 | a `` ```json `` block with any whitespace between the fences and the body cleans to exactly the body |
| Fences.RemoveFencesEveryBlock | skillsync-ai-backend/app/utils/llm_utils.py:138 | with several fenced blocks in a row, every fence is removed and the bodies remain, one per line |
| Fences.RemoveFencesKeepsProse | skillsync-ai-backend/app/utils/llm_utils.py:138 | prose written before a fenced block survives the cleaning, followed by the body |
| Fences.Sanitize | backend/app/utils/jd_matcher.py:50-55 | the sanitiser cuts 7 characters from the front exactly when the text starts with `` ```json ``, 3 exactly when it starts with a bare `` ``` `` only, else none; then 3 from the back exactly when the rest ends with `` ``` `` |
| Fences.SanitizeLeadingOnly | backend/app/utils/jd_matcher.py:50-53 | a truncated reply that opens with `` ```json `` and has no closing fence loses only the opening |
| Fences.SanitizeTrailingOnly | backend/app/utils/jd_matcher.py:54-55 | a reply that only ends with `` ``` `` loses only that closing fence |
| Fences.SanitizeUnfenced | backend/app/utils/jd_matcher.py:50-55 | text that neither starts nor ends with three backticks is untouched |
| Fences.SanitizeJsonFence | backend/app/utils/jd_matcher.py:50-55 | exactly one leading `` ```json `` and one trailing fence are removed, whatever lies between |
| Fences.SanitizeBareFence | backend/app/utils/jd_matcher.py:52-55 | a bare fence pair is removed too, unless the inside starts with `json` |
| Fences.CleanersAgreeOnCanonicalFence | backend/app/utils/jd_matcher.py:50-57 | on a `` ```json `` block with the body on its own lines, the regex cleaner and the sanitiser recover the same body, up to whitespace |
| Http.ModelName | skillsync-ai-backend/app/utils/llm_utils.py:13 | the model is `OPENROUTER_MODEL` when set (even to empty) and the DeepSeek default otherwise |
| Http.Chat | skillsync-ai-backend/app/utils/llm_utils.py:118-124 | the request carries the model it is given, the system prompt and then the user prompt, nothing else |
| Http.Backoff | skillsync-ai-backend/app/utils/llm_utils.py:142 | the sleeps from attempt `k` on are `2 ** k`, `2 ** (k+1)`, … |
| Http.Retry | skillsync-ai-backend/app/utils/llm_utils.py:126-148 | the loop's result, number of attempts and sleeps are those of the retry specification `RetryFrom` |
| Http.RetryShape | skillsync-ai-backend/app/utils/llm_utils.py:126-145 | no attempt when `retries <= 0`; otherwise between 1 and `retries` attempts, with one `2 ** attempt` sleep fewer than attempts |
| Http.RetryFirstDecisive | skillsync-ai-backend/app/utils/llm_utils.py:134-148 | the first attempt that is not retried decides the result, and no later attempt is made |
| Http.RetryExhausted | skillsync-ai-backend/app/utils/llm_utils.py:140-145 | when every attempt fails retryably, exactly `retries` attempts are made and the result is `None` |
| Http.RetryUsesOnlyItsAttempts | skillsync-ai-backend/app/utils/llm_utils.py:126-148 | the outcome depends on no attempt beyond those the loop makes |
| Http.RetryResultIsHandled | skillsync-ai-backend/app/utils/llm_utils.py:126-148 | the result is `None` or the handling of one non-retried attempt within the budget |
| Prompts.HolesOfFill | skillsync-ai-backend/app/utils/llm_utils.py:48-109 | filling a template and reading its holes back gives the arguments again |
| Prompts.FillOfHoles | skillsync-ai-backend/app/utils/llm_utils.py:48-109 | a text whose holes can be read is the template filled with them |
| Prompts.ResumeAnalysis | skillsync-ai-backend/app/utils/llm_utils.py:49-61 | the analysis prompt holds the resume in its one hole, among the fixed template text |
| Prompts.JdMatching | skillsync-ai-backend/app/utils/llm_utils.py:63-79 | the JD-matching prompt holds the resume and then the job description |
| Prompts.ResumeImprovement | skillsync-ai-backend/app/utils/llm_utils.py:81-108 | the improvement prompt holds the job description first and the resume second |
| Prompts.JobMatch | backend/app/services/ai_engine.py:82-97 | the job-match prompt holds the resume and then the job description |
| Prompts.ServiceJdMatch | backend/app/services/jd_matcher.py:19-33 | the service prompt holds the resume and then the job description |
| Prompts.Recruiting | skillsync-ai-backend/app/utils/jd_matcher.py:42-64 | the recruiting prompt holds the resume and then the job description |
| Schemas.StrList | skillsync-ai-backend/app/utils/llm_utils.py:25 | a `List[str]` field is accepted only as an array of strings, and the list read is that array |
| Schemas.OptStrList | skillsync-ai-backend/app/utils/llm_utils.py:34-35 | `Optional[List[str]] = []`: an absent field reads as `[]`, a `null` one as `None` |
| Schemas.ValidateResumeAnalysis | skillsync-ai-backend/app/utils/llm_utils.py:24-28 | accepted exactly when every field has its type; a rejection names only fields of the model; an accepted value holds the object's fields |
| Schemas.ValidateJdMatch | skillsync-ai-backend/app/utils/llm_utils.py:30-36 | the same for `JDMatchResult`, with `strengths` and `weaknesses` optional |
| Schemas.ValidateResumeImprovement | skillsync-ai-backend/app/utils/llm_utils.py:38-45 | the same for `ResumeImprovementResult`, `fit_summary` any object |
| Schemas.StringListRoundTrip | skillsync-ai-backend/app/utils/llm_utils.py:25 | a list of strings written as JSON reads back as the same list |
| Schemas.ResumeAnalysisRoundTrip | skillsync-ai-backend/app/utils/llm_utils.py:24-28 | every analysis, encoded as JSON, validates back to itself |
| Schemas.JdMatchRoundTrip | skillsync-ai-backend/app/utils/llm_utils.py:30-36 | every JD match, encoded, validates back to itself, `None` lists included |
| Schemas.ResumeImprovementRoundTrip | skillsync-ai-backend/app/utils/llm_utils.py:38-45 | every improvement result, encoded, validates back to itself |
| Schemas.ReadersAgree | skillsync-ai-backend/app/utils/llm_utils.py:24-45 | a field read depends only on that key of the object |
| Schemas.ResumeAnalysisIgnoresExtraKeys | skillsync-ai-backend/app/utils/llm_utils.py:24-28 | keys outside the model do not change the validation |
| Schemas.JdMatchIgnoresExtraKeys | skillsync-ai-backend/app/utils/llm_utils.py:30-36 | keys outside the model do not change the validation |
| Schemas.ResumeImprovementIgnoresExtraKeys | skillsync-ai-backend/app/utils/llm_utils.py:38-45 | keys outside the model do not change the validation |
| Schemas.ResumeAnalysisNeedsEveryField | skillsync-ai-backend/app/utils/llm_utils.py:24-28 | a missing field rejects the object, and the rejection names it |
| Schemas.JdMatchNeedsRequiredFields | skillsync-ai-backend/app/utils/llm_utils.py:30-36 | a missing required field rejects the object, and the rejection names it |
| Schemas.ResumeImprovementNeedsEveryField | skillsync-ai-backend/app/utils/llm_utils.py:38-45 | a missing field rejects the object, and the rejection names it |
| Schemas.JdMatchOptionalLists | skillsync-ai-backend/app/utils/llm_utils.py:34-35 | in an accepted match an absent `strengths`/`weaknesses` is `[]` and a `null` one is `None` |
| Replies.CleanReplyOfBlock | skillsync-ai-backend/app/utils/llm_utils.py:136-138 | a reply that is one `` ```json `` block, with whitespace around it, cleans to the block's body |
| Replies.CleanReplyOfPlainText | skillsync-ai-backend/app/utils/llm_utils.py:136-138 | a reply without fences is only stripped |
| Replies.ParseAttempt | backend/app/utils/llm_utils.py:110-127 | a decisive attempt gives a document exactly when it is a 2xx reply whose cleaned content parses, and then that document; nothing is raised |
| Replies.AsWrittenRaisesOnlyOnNonJsonBody | backend/app/utils/llm_utils.py:122-124 | the handler as written raises exactly on a 2xx body that is not JSON, and agrees with the corrected one elsewhere |
| Replies.SingleAttemptIsOneTry | backend/app/services/ai_engine.py:54-79 | a single-shot call is the retry loop with a budget of one |
| Replies.ParseFencedReply | backend/app/utils/llm_utils.py:110-115 | a 2xx reply holding a fenced, parseable body gives that body's document |
| SkillsyncLlm.CleanedContent | skillsync-ai-backend/app/utils/llm_utils.py:134-139 | an attempt gives text exactly when it is a 2xx reply with string content, and the text is that content cleaned |
| SkillsyncLlm.CallLlm | skillsync-ai-backend/app/utils/llm_utils.py:112-148 | `call_llm` behaves as the retry specification over its request, with the cleaned content as result |
| SkillsyncLlm.Finish | skillsync-ai-backend/app/utils/llm_utils.py:155-163 | a wrapper gives a value exactly when the text is non-empty, parses to an object and validates; that value is the validated one; it never raises |
| SkillsyncLlm.NonObjectReplyRaises | skillsync-ai-backend/app/utils/llm_utils.py:157-163 | on a reply that parses to a non-object, the wrapper as written raises `TypeError` and the corrected one gives `None` |
| SkillsyncLlm.FinishAgreesOnObjects | skillsync-ai-backend/app/utils/llm_utils.py:157-163 | apart from that, the wrapper as written and the corrected one agree |
| SkillsyncLlm.AnalyzeResumeText | skillsync-ai-backend/app/utils/llm_utils.py:152-163 | three attempts at most with the recruiter prompt, then parse and validate as `ResumeAnalysisResult` (corrected; the code as written is `SkillsyncLlm.FinishAsWritten`, see ## Findings) |
| SkillsyncLlm.MatchResumeWithJd | skillsync-ai-backend/app/utils/llm_utils.py:165-176 | the same with the JD-matching prompt and `JDMatchResult` (corrected; the code as written is `SkillsyncLlm.FinishAsWritten`, see ## Findings) |
| SkillsyncLlm.SuggestResumeImprovements | skillsync-ai-backend/app/utils/llm_utils.py:178-189 | the same with the improvement prompt and `ResumeImprovementResult` (corrected; the code as written is `SkillsyncLlm.FinishAsWritten`, see ## Findings) |
| SkillsyncLlm.ThirdAttemptAnswers | skillsync-ai-backend/app/utils/llm_utils.py:126-142 | two retried failures then a 2xx reply: three calls, sleeps of 1 s and 2 s, the cleaned content |
| SkillsyncLlm.EncodedAnalysisIsAccepted | skillsync-ai-backend/app/utils/llm_utils.py:157-160 | text that parses to an encoded analysis gives back that analysis |
| SkillsyncLlm.AnalysisAfterTwoFailures | skillsync-ai-backend/app/utils/llm_utils.py:126-163 | end to end: after two failures a fenced analysis is cleaned, parsed and validated to the analysis sent |
| SkillsyncLlm.WrapperBounds | skillsync-ai-backend/app/utils/llm_utils.py:126-163 | a wrapper sends at most three requests and never raises (corrected; the code as written is `SkillsyncLlm.FinishAsWritten`, see ## Findings) |
| BackendLlm.CallLlm | backend/app/utils/llm_utils.py:88-127 | `call_llm` behaves as the retry specification, each decisive attempt parsed (corrected; the code as written is `BackendLlm.CallLlmAsWritten`, see ## Findings) |
| BackendLlm.CallLlmNeverRaises | backend/app/utils/llm_utils.py:102-127 | the corrected loop lets no exception escape (corrected; the code as written is `BackendLlm.CallLlmAsWritten`, see ## Findings) |
| BackendLlm.NonJsonBodyRaises | backend/app/utils/llm_utils.py:111-124 | after retried failures, a 2xx non-JSON body makes the loop as written raise and the corrected one give `None` |
| BackendLlm.AnalyzeResumeText | backend/app/utils/llm_utils.py:132-134 | three attempts with the recruiter prompt, the document unvalidated (corrected; the code as written is `BackendLlm.CallLlmAsWritten`, see ## Findings) |
| BackendLlm.MatchResumeWithJd | backend/app/utils/llm_utils.py:137-139 | three attempts with the JD-matching prompt (corrected; the code as written is `BackendLlm.CallLlmAsWritten`, see ## Findings) |
| BackendLlm.SuggestResumeImprovements | backend/app/utils/llm_utils.py:142-144 | three attempts with the improvement prompt (corrected; the code as written is `BackendLlm.CallLlmAsWritten`, see ## Findings) |
| AiEngine.LoadKey | backend/app/services/ai_engine.py:11-16 | importing fails exactly when the key is unset or empty, with the module's message |
| AiEngine.AnalyzeResumeText | backend/app/services/ai_engine.py:28-79 | one attempt, the parsed reply or `None`, never raising: the retry loop with one try (corrected; the code as written is `AiEngine.AnalyzeResumeTextAsWritten`, see ## Findings) |
| AiEngine.MatchResumeWithJob | backend/app/services/ai_engine.py:81-121 | one attempt, the parsed reply or `None`; every exception is caught |
| AiEngine.MatchResumeWithJd | backend/app/services/jd_matcher.py:18-66 | one attempt, the parsed reply or `None`, never raising (corrected; the code as written is `AiEngine.MatchResumeWithJdAsWritten`, see ## Findings) |
| AiEngine.AnalysisOfNonJsonBody | backend/app/services/ai_engine.py:74-76 | a 2xx non-JSON body: as written `UnboundLocalError`, corrected `None` |
| AiEngine.JdMatchOfNonJsonBody | backend/app/services/jd_matcher.py:61-63 | the same for the service JD matcher |
| AiEngine.AnalysisAsWrittenAgreesOtherwise | backend/app/services/ai_engine.py:54-79 | on every other reply the analysis as written equals the corrected one |
| AiEngine.JdMatchAsWrittenAgreesOtherwise | backend/app/services/jd_matcher.py:43-66 | on every other reply the JD matcher as written equals the corrected one |
| JdMatcher.Fallback | skillsync-ai-backend/app/utils/jd_matcher.py:86-95 | the fallback has the six keys, a score of 0, four empty lists and the error message in `fit_statement` (both copies of the file) |
| JdMatcher.MatchRequest | skillsync-ai-backend/app/utils/jd_matcher.py:39-71 | the prompt holds the first 50000 characters of the resume and the first 1000 of the job description |
| JdMatcher.MatchResumeToJd | skillsync-ai-backend/app/utils/jd_matcher.py:66-95 | a reply whose stripped, sanitised content parses gives that document; an SDK error, a `null` content and a parse error each give the fallback with their own message; nothing is raised (both copies of the file) |
| JdMatcher.OnlyPrefixesMatter | skillsync-ai-backend/app/utils/jd_matcher.py:39-40 | texts that agree on their first 50000 / 1000 characters give the same result |
| JdMatcher.SanitizeFencedReply | skillsync-ai-backend/app/utils/jd_matcher.py:73-82 | a `` ```json `` block on its own lines sanitises to its body between two newlines |
| JdMatcher.FencedReplyIsParsed | skillsync-ai-backend/app/utils/jd_matcher.py:73-84 | so such a reply gives its body's document |
| JdMatcher.CallOpenrouterForJson | skillsync-ai-backend/app/utils/jd_matcher.py:15-36 | a 200 reply gives its raw content (`None` for `null`); any other status raises with the response text |
| JdMatcher.NonOkStatusRaises | skillsync-ai-backend/app/utils/jd_matcher.py:32-33 | every status but 200, other 2xx included, raises `OpenRouter error: …` |
| Analytics.MissingFieldsAddNothing | skillsync-ai-backend/app/routes/analytics.py:29-34 | a record with no `job_fit_score` and no `skills` stored leaves the score sum and the collected skills as they were |
| Analytics.InAllSkills | skillsync-ai-backend/app/routes/analytics.py:32-34 | a skill is collected exactly when some analysis lists it |
| Analytics.CollectSkills | skillsync-ai-backend/app/routes/analytics.py:32-34 | the loop concatenates every analysis's skills, and fails with the `NoneType` message exactly when one list is `null` |
| Analytics.Distinct | skillsync-ai-backend/app/routes/analytics.py:35 | the `Counter`'s keys: each skill once, exactly the skills that occur |
| Analytics.MostCommon | skillsync-ai-backend/app/routes/analytics.py:35 | at most `n` skills, each one that occurs |
| Analytics.MostCommonRanked | skillsync-ai-backend/app/routes/analytics.py:35 | the top skills come without repetition, by count descending, ties in first-seen order |
| Analytics.MostCommonOmitted | skillsync-ai-backend/app/routes/analytics.py:35 | a skill left out means the list is full and it ranks after the last one listed |
| Analytics.MostCommonComplete | skillsync-ai-backend/app/routes/analytics.py:35 | with at most `n` distinct skills, all are listed |
| Analytics.GetResumeAnalytics | skillsync-ai-backend/app/routes/analytics.py:10-44 | no analyses give the zero summary; a `null` score or skill list gives the 500 with its message; otherwise the count, score sum and top five skills |
| Analytics.TopSkillsComeFromTheAnalyses | skillsync-ai-backend/app/routes/analytics.py:32-35 | every top skill is listed by some analysis |
| Auth.DecimalString | skillsync-ai-backend/app/routes/auth_routes.py:122 | `str(n)` is decimal digits without a leading zero |
| Auth.DecimalRoundTrip | skillsync-ai-backend/app/routes/auth_routes.py:122 | reading the digits back gives the number |
| Auth.DrawIsCode | skillsync-ai-backend/app/routes/auth_routes.py:122 | every draw in 100000..999999 is a six-digit code that identifies the draw |
| Auth.AuthService.constructor | skillsync-ai-backend/app/routes/auth_routes.py:26 | the service starts with no users and an empty `OTP_STORE` |
| Auth.AuthService.Register | skillsync-ai-backend/app/routes/auth_routes.py:29-41 | a taken e-mail gives 400 and changes nothing; otherwise the user is stored with the hashed password, unverified |
| Auth.AuthService.Login | skillsync-ai-backend/app/routes/auth_routes.py:44-56 | an unknown e-mail and a wrong password get the same 401; right credentials on an unverified account get 403; a bearer token exactly for a verified user with the right password |
| Auth.AuthService.ChangePassword | skillsync-ai-backend/app/routes/auth_routes.py:63-76 | 404 for a missing user, 401 for a wrong current password, otherwise only that user's password changes |
| Auth.AuthService.ForgotPassword | skillsync-ai-backend/app/routes/auth_routes.py:82-93 | a fifteen-minute token exactly for a registered e-mail, 404 otherwise |
| Auth.AuthService.ResetPassword | skillsync-ai-backend/app/routes/auth_routes.py:100-114 | 403 for a token that fails to decode or has no subject, 404 for an unknown subject, otherwise only the subject's password changes |
| Auth.AuthService.SendVerification | skillsync-ai-backend/app/routes/auth_routes.py:120-125 | the new code replaces that e-mail's code; every other code and every user stays |
| Auth.AuthService.VerifyEmail | skillsync-ai-backend/app/routes/auth_routes.py:132-138 | success exactly with the pending code: the user is marked verified and the code removed; otherwise 400 and nothing changes; a string that is not six digits never succeeds |
| Auth.AuthService.VerifyTwice | skillsync-ai-backend/app/routes/auth_routes.py:134-138 | a code works only once |
| Auth.AuthService.SignUp | skillsync-ai-backend/app/routes/auth_routes.py:29-138 | register, send a code, log in too early (403), verify and log in (token) |
| Auth.AuthService.ForgotThenReset | skillsync-ai-backend/app/routes/auth_routes.py:82-114 | a reset token that decodes to its subject lets that user's password be replaced |

## Findings

| source | as written | input that shows it | evidently intended | confidence | as-written member | corrected member |
|---|---|---|---|---|---|---|
| backend/app/utils/llm_utils.py:122-124 | the `JSONDecodeError` handler logs `raw`, which is unbound when `response.json()` itself failed | a 200 response whose body is not JSON (an HTML error page) | log and return `None` | not executed | BackendLlm.NonJsonBodyRaises | BackendLlm.CallLlmNeverRaises |
| backend/app/services/ai_engine.py:74-76 | the handler logs the unbound `text_response`, so `UnboundLocalError` escapes | a 200 response whose body is not JSON | log and return `None` | not executed | AiEngine.AnalysisOfNonJsonBody | AiEngine.AnalyzeResumeText |
| backend/app/services/jd_matcher.py:61-63 | the handler logs the unbound `text_output`, so `UnboundLocalError` escapes | a 200 response whose body is not JSON | log and return `None` | not executed | AiEngine.JdMatchOfNonJsonBody | AiEngine.MatchResumeWithJd |
| skillsync-ai-backend/app/utils/llm_utils.py:157-163 | `ResumeAnalysisResult(**data)` on JSON that is not an object raises `TypeError`, which the `except` clause does not list (likewise at 170-176 and 183-189) | a reply `[]` or `42` | treat it as invalid and return `None` | not executed | SkillsyncLlm.NonObjectReplyRaises | SkillsyncLlm.Finish |

## Left out

- The network, `httpx`, the OpenAI SDK and their timeouts are parameters (`Transport`, `Sdk`), as is `json.loads` (`Parser`). JSON parsing itself is not modelled.
- Headers, the API key in them, and `.env` loading are left out. The per-attempt `async with` client lifetime is left out too.
- `asyncio.sleep` is not performed; the sleeps are recorded as ghost values. Async scheduling and concurrency are left out.
- `print` logging is left out.
- Pydantic's lax coercions are left out (a numeric string for an `int`, a float with no fraction, and so on). The validators accept exactly the JSON types named in each model, so they are stricter than pydantic. Pydantic's error texts are reduced to the failing field names.
- JdMatcher.CallOpenrouterForJson: a timeout, a connection failure, a malformed 200 body and a non-JSON 200 body each raise. The exception texts for these are placeholders, not the libraries' own messages.
- JdMatcher.MatchResumeToJd: the message in the fallback for an SDK failure is an input; the SDK's own exception texts are not modelled. The `temperature` setting is left out.
- Analytics.GetResumeAnalytics: the floating-point average and `round(..., 2)` are left out; the summary carries the integer score sum and the count it is divided by. Scores and skills of other JSON types (a string for `skills`, a float score) are left out. The database query and the `current_user` dependency are left out; the analyses are an input.
- `Auth`:
  - `get_password_hash`, `verify_password`, `create_access_token` and `decode_token` are functions of the service. `app/auth/auth_handler.py` is not part of this model, so a salted hash is a fixed function and token expiry is not checked.
  - `EmailStr` validation and normalisation are left out.
  - The `slowapi` rate limit of five logins a minute is left out.
  - `send_verification_email` is left out. Because the code is stored before the mail is sent, a failing send would leave the code pending.
  - The database is a map keyed by e-mail. This assumes at most one user per e-mail, which `register` maintains.
- The repository's other modules are not part of this model: route glue, PDF extraction, scraping, the database helpers and the frontend.

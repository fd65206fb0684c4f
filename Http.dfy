/**
  One call to the OpenRouter chat-completion endpoint, and the retry loop both
  `call_llm` functions wrap around it.

  The network is not modelled. A `Transport` says what the `k`-th attempt of a
  request ends in: an HTTP response (its status and what its body holds), a
  timeout, or a connection failure. `raise_for_status` rejects every status
  outside 200..299, so 4xx answers are retried exactly like 5xx answers.
  Backoff sleeps are recorded, not performed.
*/
module Http {
  import opened Common

  /** `os.getenv("OPENROUTER_MODEL", ...)`'s default, and the fixed `MODEL_ID` of the older service files. */
  const DefaultModel := "deepseek/deepseek-chat-v3-0324:free"

  /** `os.getenv("OPENROUTER_MODEL", DefaultModel)`: an empty setting is kept as it is. */
  function ModelName(env: Option<string>): (m: string)
    ensures env.None? ==> m == DefaultModel
    ensures env.Some? ==> m == env.value
  {
    env.GetOr(DefaultModel)
  }

  datatype Message = Message(role: string, content: string)

  /** The JSON body posted to the endpoint. */
  datatype ChatRequest = ChatRequest(model: string, messages: seq<Message>)

  /** A system message followed by the user's prompt. */
  function Chat(model: string, system: string, prompt: string): (r: ChatRequest)
    ensures r.model == model
    ensures |r.messages| == 2
    ensures r.messages[0] == Message("system", system) && r.messages[1] == Message("user", prompt)
  {
    ChatRequest(model, [Message("system", system), Message("user", prompt)])
  }

  /** What `response.json()["choices"][0]["message"]["content"]` gives. */
  datatype Reply =
    | Content(text: string)   // a string
    | NullContent             // JSON null, so `.strip()` raises AttributeError
    | Malformed               // a JSON body without that path (KeyError, IndexError, TypeError)
    | NotJson                 // `response.json()` itself raises JSONDecodeError

  /** How one attempt ends. `body` is `response.text`. */
  datatype Attempt =
    | Response(status: int, reply: Reply, body: string)
    | Timeout          // httpx.TimeoutException
    | ConnectionError  // any other exception raised by `client.post`

  /** The outcome of attempt number `k` (counted from 0) of a request. */
  type Transport = (ChatRequest, nat) -> Attempt

  /** httpx's `is_success`; `raise_for_status` raises HTTPStatusError for every other status. */
  predicate IsSuccess(status: int) {
    200 <= status <= 299
  }

  /** The attempts caught by `except (httpx.HTTPStatusError, httpx.TimeoutException)`. */
  predicate Retryable(a: Attempt) {
    a.Timeout? || (a.Response? && !IsSuccess(a.status))
  }

  /** `2 ** k`. */
  function Pow2(k: nat): (r: nat)
    ensures r >= 1
  {
    if k == 0 then 1 else 2 * Pow2(k - 1)
  }

  /** What a caller sees of a Python call: a value, `None`, or an exception that escapes. */
  datatype Outcome<+T> = Value(value: T) | NoValue | Raised(error: string)

  /** The result of a retry loop, how many attempts it made and the sleeps between them. */
  datatype Run<T> = Run(result: T, calls: nat, sleeps: seq<nat>)

  /**
    `for attempt in range(retries)`, from attempt `k` on: a retryable failure
    before the last attempt sleeps `2 ** attempt` seconds and tries again; one on
    the last attempt gives `none`; any other attempt ends the loop with
    `handle(attempt)`. A loop that never runs also gives `none`.
  */
  function RetryFrom<T>(send: nat -> Attempt, handle: Attempt -> T, none: T, retries: int, k: nat): Run<T>
    decreases if retries > k then retries - k else 0
  {
    if retries <= k then Run(none, 0, [])
    else
      var a := send(k);
      if !Retryable(a) then Run(handle(a), 1, [])
      else if k < retries - 1 then
        var rest := RetryFrom(send, handle, none, retries, k + 1);
        Run(rest.result, rest.calls + 1, [Pow2(k)] + rest.sleeps)
      else Run(none, 1, [])
  }

  /** `n` attempts made before the rest of the loop: their count and sleeps go in front. */
  function After<T>(calls: nat, sleeps: seq<nat>, rest: Run<T>): Run<T> {
    Run(rest.result, calls + rest.calls, sleeps + rest.sleeps)
  }

  /** The sleeps `2 ** k`, ..., `2 ** (k + n - 1)`. */
  function Backoff(k: nat, n: nat): (s: seq<nat>)
    ensures |s| == n && forall i :: 0 <= i < n ==> s[i] == Pow2(k + i)
    decreases n
  {
    if n == 0 then [] else [Pow2(k)] + Backoff(k + 1, n - 1)
  }

  /** The loop of `call_llm`, run on the attempts `send` gives. */
  method Retry<T>(send: nat -> Attempt, handle: Attempt -> T, none: T, retries: int)
    returns (result: T, ghost calls: nat, ghost sleeps: seq<nat>)
    ensures result == RetryFrom(send, handle, none, retries, 0).result
    ensures calls == RetryFrom(send, handle, none, retries, 0).calls && sleeps == RetryFrom(send, handle, none, retries, 0).sleeps
  {
    calls, sleeps := 0, [];
    var attempt: nat := 0;
    while attempt < retries
      invariant calls == attempt && sleeps == Backoff(0, attempt)
      invariant RetryFrom(send, handle, none, retries, 0)
             == After(calls, sleeps, RetryFrom(send, handle, none, retries, attempt))
      decreases retries - attempt
    {
      var a := send(attempt);
      if !Retryable(a) {
        result, calls := handle(a), calls + 1;
        return;
      }
      if attempt < retries - 1 {
        ghost var rest := RetryFrom(send, handle, none, retries, attempt + 1);
        assert sleeps + ([Pow2(attempt)] + rest.sleeps) == (sleeps + [Pow2(attempt)]) + rest.sleeps;
        sleeps := sleeps + [Pow2(attempt)];
        calls := calls + 1;
        attempt := attempt + 1;
      } else {
        result, calls := none, calls + 1;
        assert sleeps + [] == sleeps;
        return;
      }
    }
    result := none;
    assert sleeps + [] == sleeps;
  }

  /** At most `retries - k` attempts and none at all when `retries <= k`; one sleep fewer than attempts, each `2 ** attempt`. */
  lemma {:induction false} RetryShape<T>(send: nat -> Attempt, handle: Attempt -> T, none: T, retries: int, k: nat)
    ensures var r := RetryFrom(send, handle, none, retries, k);
      && (retries <= k ==> r.calls == 0 && r.result == none && r.sleeps == [])
      && (retries > k ==> 1 <= r.calls <= retries - k && r.sleeps == Backoff(k, r.calls - 1))
    decreases if retries > k then retries - k else 0
  {
    if retries > k && Retryable(send(k)) && k < retries - 1 {
      RetryShape(send, handle, none, retries, k + 1);
      var rest := RetryFrom(send, handle, none, retries, k + 1);
      assert [Pow2(k)] + Backoff(k + 1, rest.calls - 1) == Backoff(k, rest.calls);
    }
  }

  /** The first attempt that is not retryable decides the result, and no later attempt is made. */
  lemma {:induction false} RetryFirstDecisive<T>(send: nat -> Attempt, handle: Attempt -> T, none: T, retries: int, k: nat, j: nat)
    requires k <= j < retries
    requires forall i :: k <= i < j ==> Retryable(send(i))
    requires !Retryable(send(j))
    ensures RetryFrom(send, handle, none, retries, k).result == handle(send(j))
    ensures RetryFrom(send, handle, none, retries, k).calls == j - k + 1
    decreases j - k
  {
    if k < j {
      RetryFirstDecisive(send, handle, none, retries, k + 1, j);
    }
  }

  /** When every attempt fails retryably, all `retries` attempts are made and the loop gives `none`. */
  lemma {:induction false} RetryExhausted<T>(send: nat -> Attempt, handle: Attempt -> T, none: T, retries: int, k: nat)
    requires k < retries
    requires forall i :: k <= i < retries ==> Retryable(send(i))
    ensures RetryFrom(send, handle, none, retries, k).result == none
    ensures RetryFrom(send, handle, none, retries, k).calls == retries - k
    decreases retries - k
  {
    if k < retries - 1 {
      RetryExhausted(send, handle, none, retries, k + 1);
    }
  }

  /** The loop looks at no attempt beyond the ones it makes. */
  lemma {:induction false} RetryUsesOnlyItsAttempts<T>(send: nat -> Attempt, send': nat -> Attempt, handle: Attempt -> T, none: T, retries: int, k: nat)
    requires forall i :: k <= i < k + RetryFrom(send, handle, none, retries, k).calls ==> send(i) == send'(i)
    ensures RetryFrom(send, handle, none, retries, k) == RetryFrom(send', handle, none, retries, k)
    decreases if retries > k then retries - k else 0
  {
    if retries > k {
      assert send(k) == send'(k) by {
        RetryShape(send, handle, none, retries, k);
      }
      if Retryable(send(k)) && k < retries - 1 {
        RetryUsesOnlyItsAttempts(send, send', handle, none, retries, k + 1);
      }
    }
  }

  /** The loop's result is `none` or what `handle` makes of one of its non-retryable attempts. */
  lemma {:induction false} RetryResultIsHandled<T>(send: nat -> Attempt, handle: Attempt -> T, none: T, retries: int, k: nat)
    ensures var r := RetryFrom(send, handle, none, retries, k);
      r.result == none || exists j: nat :: k <= j < retries && !Retryable(send(j)) && r.result == handle(send(j))
    decreases if retries > k then retries - k else 0
  {
    if retries > k && Retryable(send(k)) && k < retries - 1 {
      RetryResultIsHandled(send, handle, none, retries, k + 1);
    }
  }

  /** The sender of one request: attempt `k` of `request` over `transport`. */
  function Sender(transport: Transport, request: ChatRequest): nat -> Attempt {
    (k: nat) => transport(request, k)
  }
}

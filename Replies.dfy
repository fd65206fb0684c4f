/**
  What the OpenRouter callers do with one attempt's reply: strip it, remove
  the code-fence markers, and (in the backend) parse it as JSON.
*/
module Replies {
  import opened Common
  import opened JsonDoc
  import opened Text
  import opened Fences
  import opened Http

  /** `re.sub(FencePattern, "", content.strip(), flags=re.MULTILINE)`. */
  function CleanReply(content: string): string {
    RemoveFences(Strip(content))
  }

  /** A reply that is one ```` ```json ```` block, with any whitespace around it, cleans to the block's body. */
  lemma CleanReplyOfBlock(pre: string, ws1: string, body: string, ws2: string, post: string)
    requires AllSpace(pre) && AllSpace(ws1) && AllSpace(ws2) && AllSpace(post) && PlainBody(body)
    ensures CleanReply(pre + Block(ws1, body, ws2) + post) == body
  {
    var b := Block(ws1, body, ws2);
    assert b[0] == '`' && b[|b| - 1] == '`';
    StripPadded(pre, b, post);
    RemoveFencesBlock(ws1, body, ws2);
  }

  /** A reply without any fence marker is only stripped. */
  lemma CleanReplyOfPlainText(content: string)
    requires !Contains(Strip(content), Fence)
    ensures CleanReply(content) == Strip(content)
  {
    RemoveFencesWithoutFence(Strip(content));
  }

  /**
    One attempt of the backend's `call_llm`, and the whole of the older
    single-shot calls, once the attempt is not retried: a 2xx reply whose
    cleaned content parses gives that document; every other ending gives
    `None`, with nothing raised.
  */
  function ParseAttempt(a: Attempt, parse: Parser): (r: Outcome<Json>)
    ensures !r.Raised?
    ensures r.Value? <==> (a.Response? && IsSuccess(a.status) && a.reply.Content?
      && parse(CleanReply(a.reply.text)).Success?)
    ensures r.Value? ==> r.value == parse(CleanReply(a.reply.text)).value
  {
    match a
    case Response(status, Content(text), _) =>
      if IsSuccess(status) then
        match parse(CleanReply(text))
        case Success(doc) => Value(doc)
        case Failure(_) => NoValue
      else NoValue
    case _ => NoValue
  }

  /**
    The same as written: when the body of a 2xx response is not JSON,
    `response.json()` raises `JSONDecodeError` before the content variable is
    bound, and the handler's message reads that variable, so the handler
    itself raises `UnboundLocalError`.
  */
  function ParseAttemptAsWritten(a: Attempt, parse: Parser): Outcome<Json> {
    if a.Response? && IsSuccess(a.status) && a.reply.NotJson? then Raised("UnboundLocalError")
    else ParseAttempt(a, parse)
  }

  /** The two differ exactly on a 2xx response whose body is not JSON. */
  lemma AsWrittenRaisesOnlyOnNonJsonBody(a: Attempt, parse: Parser)
    ensures ParseAttemptAsWritten(a, parse).Raised?
        <==> a.Response? && IsSuccess(a.status) && a.reply.NotJson?
    ensures !ParseAttemptAsWritten(a, parse).Raised? ==> ParseAttemptAsWritten(a, parse) == ParseAttempt(a, parse)
  {
  }

  /** A single attempt is the retry loop run with one try. */
  lemma SingleAttemptIsOneTry(send: nat -> Attempt, parse: Parser)
    ensures ParseAttempt(send(0), parse) == RetryFrom(send, a => ParseAttempt(a, parse), NoValue, 1, 0).result
  {
  }

  /** A reply that is exactly one ```` ```json ```` block cleans to the block's body. */
  lemma CleanReplyOfBareBlock(content: string, ws1: string, body: string, ws2: string)
    requires content == Block(ws1, body, ws2)
    requires AllSpace(ws1) && AllSpace(ws2) && PlainBody(body)
    ensures CleanReply(content) == body
  {
    assert content[0] == '`' && content[|content| - 1] == '`';
    StripTrimmed(content);
    RemoveFencesBlock(ws1, body, ws2);
  }

  /** A fenced JSON reply on a 2xx response parses to what its body parses to. */
  lemma ParseFencedReply(status: int, content: string, ws1: string, body: string, ws2: string, raw: string, parse: Parser)
    requires IsSuccess(status) && content == Block(ws1, body, ws2)
    requires AllSpace(ws1) && AllSpace(ws2) && PlainBody(body)
    requires parse(body).Success?
    ensures ParseAttempt(Response(status, Content(content), raw), parse) == Value(parse(body).value)
  {
    CleanReplyOfBareBlock(content, ws1, body, ws2);
  }
}

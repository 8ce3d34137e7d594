/**
 * The `POST` handler of the chat route: credential checks, request
 * validation, the upstream call through `fetchWithRetry`, normalisation of
 * the upstream JSON and the classification of every failure into a fixed
 * 500 envelope. The credential is a parameter (it is read from the process
 * environment in the program), the request body is given already parsed,
 * and the transport is injected as in module Retry.
 */
module Route {
  import opened Js
  import opened Retry

  /** `fetchWithRetry` is called with its default bound. */
  const MaxRetries := 3
  const TokenPrefix := "hf_"

  const NotConfigured := "Hugging Face API token is not configured"
  const BadTokenFormat := "Invalid Hugging Face API token format. Token should start with 'hf_'"
  const BadMessages := "Invalid messages format"
  const UnexpectedFormat := "Unexpected response format from API"
  const InternalError := "Internal server error"

  const Busy := "The chat service is temporarily busy. Please try again in a few seconds."
  const AuthFailed := "Authentication failed. Please check your Hugging Face account and generate a new API token."
  const UnexpectedReply := "The chat service returned an unexpected response. Please try again."
  const Generic := "Something went wrong. Please try again."

  /** The `TypeError`s the JavaScript engine throws inside the `try` block
      (the wording of V8). */
  const DestructureNull := "Cannot destructure property 'messages' of '(intermediate value)' as it is null."
  const ContentOfUndefined := "Cannot read properties of undefined (reading 'content')"
  const ContentOfNull := "Cannot read properties of null (reading 'content')"

  /** What `NextResponse.json(body, { status })` sends. */
  datatype HttpResponse = HttpResponse(status: int, body: JVal)

  /** The upstream request: its `Authorization` header and the `inputs`
      field of its body (`None` when `inputs` is `undefined` and
      `JSON.stringify` drops it). */
  datatype Outbound = Outbound(authorization: string, inputs: Option<JVal>)

  /** How a request ends: an early return with a status and a message, a
      failure caught by the `catch` block, or the generated text. */
  datatype Answer = Rejected(status: int, message: string) | Caught(error: Thrown) | Generated(content: JVal)

  /** Everything one request does: how it ends, the upstream request it
      built (if it got that far), the upstream calls and the waits. */
  datatype Handled = Handled(answer: Answer, outbound: Option<Outbound>, calls: nat, delays: seq<nat>)

  /** A computation inside the `try` block: a value, or a throw. */
  datatype Attempted<+T> = Value(value: T) | Threw(error: Thrown)

  function ErrorBody(message: string): JVal
  {
    JObj(map["error" := JStr(message)])
  }

  function SuccessBody(content: JVal): JVal
  {
    JObj(map["message" := JObj(map["role" := JStr("assistant"), "content" := content]),
             "status" := JNum(200)])
  }

  /** `error instanceof Error ? error.message : "Internal server error"`. */
  function ErrorMessage(e: Thrown): string
  {
    match e
    case ErrorObject(m) => m
    case OtherValue => InternalError
  }

  /** The user-facing message: the first keyword found in the error's
      message decides, in the order "429", "401", "response format". */
  function UserFacingMessage(e: Thrown): (r: string)
    ensures e.OtherValue? ==> r == Generic
    ensures e.ErrorObject? ==>
      && (r == Busy <==> Contains(e.message, "429"))
      && (r == AuthFailed <==> !Contains(e.message, "429") && Contains(e.message, "401"))
      && (r == UnexpectedReply <==>
            !Contains(e.message, "429") && !Contains(e.message, "401")
            && Contains(e.message, "response format"))
      && (r == Generic <==>
            !Contains(e.message, "429") && !Contains(e.message, "401")
            && !Contains(e.message, "response format"))
  {
    match e
    case OtherValue => Generic
    case ErrorObject(m) =>
      if Contains(m, "429") then Busy
      else if Contains(m, "401") then AuthFailed
      else if Contains(m, "response format") then UnexpectedReply
      else Generic
  }

  /** The reply to every failure caught by the handler. */
  function Envelope(e: Thrown): (r: HttpResponse)
    ensures r.status == 500
    ensures Prop(r.body, "error") == Some(JStr(UserFacingMessage(e)))
    ensures Prop(r.body, "technicalError") == Some(JStr(ErrorMessage(e)))
    ensures Prop(r.body, "message").None?
  {
    HttpResponse(500, JObj(map["error" := JStr(UserFacingMessage(e)),
                              "technicalError" := JStr(ErrorMessage(e)),
                              "status" := JNum(500)]))
  }

  /** The response-shape normaliser. A result is always a whole value found
      in the input: the first element's truthy `generated_text`, a string
      first element, or the input string itself. */
  function Normalize(result: JVal): (r: Option<JVal>)
    ensures r.Some? ==>
      || (result.JStr? && r.value == result)
      || (result.JArr? && |result.items| > 0 &&
            ((r.value == result.items[0] && r.value.JStr?)
             || (Prop(result.items[0], "generated_text") == Some(r.value) && Truthy(r))))
    ensures result.JArr? && |result.items| > 0 && Truthy(Prop(result.items[0], "generated_text")) ==>
      r == Prop(result.items[0], "generated_text")
    ensures (result.JArr? && |result.items| > 0 && !Truthy(Prop(result.items[0], "generated_text"))
             && result.items[0].JStr?) ==> r == Some(result.items[0])
    ensures (result.JArr? && |result.items| > 0 && !Truthy(Prop(result.items[0], "generated_text"))
             && !result.items[0].JStr?) ==> r.None?
    ensures result.JStr? ==> r == Some(result)
    ensures result.JNull? || result.JBool? || result.JNum? || result.JObj? ==> r.None?
    ensures result.JArr? && |result.items| == 0 ==> r.None?
  {
    if result.JArr? && |result.items| > 0 && Truthy(Prop(result.items[0], "generated_text")) then
      Prop(result.items[0], "generated_text")
    else if result.JArr? && |result.items| > 0 && result.items[0].JStr? then
      Some(result.items[0])
    else if result.JStr? then
      Some(result)
    else
      None
  }

  /** `const { messages } = await req.json()`. */
  function ReadMessages(request: Json): Attempted<Option<JVal>>
  {
    match request
    case SyntaxError(m) => Threw(ErrorObject(m))
    case Parsed(body) =>
      if body == JNull then Threw(ErrorObject(DestructureNull))
      else Value(Prop(body, "messages"))
  }

  /** `messages[messages.length - 1].content`. */
  function LastContent(messages: seq<JVal>): Attempted<Option<JVal>>
  {
    if |messages| == 0 then Threw(ErrorObject(ContentOfUndefined))
    else if messages[|messages| - 1] == JNull then Threw(ErrorObject(ContentOfNull))
    else Value(Prop(messages[|messages| - 1], "content"))
  }

  /** `await response.json()` followed by the normaliser. */
  function GeneratedText(response: Response): Attempted<JVal>
  {
    match response.json
    case SyntaxError(m) => Threw(ErrorObject(m))
    case Parsed(v) =>
      match Normalize(v)
      case None => Threw(ErrorObject(UnexpectedFormat))
      case Some(text) => Value(text)
  }

  /** How the request ends once the upstream loop has ended. */
  function Conclude(result: FetchResult): Answer
  {
    match result
    case Raised(e) => Caught(e)
    case Fetched(response) =>
      match GeneratedText(response)
      case Threw(e) => Caught(e)
      case Value(text) => Generated(text)
  }

  /** The HTTP reply `NextResponse.json` sends for each way of ending. */
  function HttpReplyOf(answer: Answer): HttpResponse
  {
    match answer
    case Rejected(status, message) => HttpResponse(status, ErrorBody(message))
    case Caught(e) => Envelope(e)
    case Generated(content) => HttpResponse(200, SuccessBody(content))
  }

  predicate TokenPresent(token: Option<string>)
  {
    token.Some? && token.value != ""
  }

  /** What the checks before the upstream call decide: stop with an answer,
      or send the given `inputs`. */
  datatype Checked = Stop(answer: Answer) | Send(inputs: Option<JVal>)

  /** The early returns of the handler, in order, and the extraction of the
      last message's `content`. */
  function Validate(token: Option<string>, request: Json): Checked
  {
    if !TokenPresent(token) then Stop(Rejected(500, NotConfigured))
    else if !StartsWith(token.value, TokenPrefix) then Stop(Rejected(500, BadTokenFormat))
    else
      match ReadMessages(request)
      case Threw(e) => Stop(Caught(e))
      case Value(messages) =>
        if !(messages.Some? && messages.value.JArr?) then Stop(Rejected(400, BadMessages))
        else
          match LastContent(messages.value.items)
          case Threw(e) => Stop(Caught(e))
          case Value(inputs) => Send(inputs)
  }

  /** The handler as a reference definition. */
  function Handle(token: Option<string>, request: Json, transport: seq<Outcome>): Handled
    requires MaxRetries <= |transport|
  {
    match Validate(token, request)
    case Stop(answer) => Handled(answer, None, 0, [])
    case Send(inputs) =>
      var run := RunFrom(transport, MaxRetries, 0);
      Handled(Conclude(run.result), Some(Outbound("Bearer " + token.value, inputs)),
              run.calls, run.delays)
  }

  /** `POST`: the early returns in order, then the upstream loop. */
  method Post(token: Option<string>, request: Json, transport: seq<Outcome>)
    returns (handled: Handled)
    requires MaxRetries <= |transport|
    ensures handled == Handle(token, request, transport)
  {
    if token.None? || token.value == "" {
      return Handled(Rejected(500, NotConfigured), None, 0, []);
    }
    if !StartsWith(token.value, TokenPrefix) {
      return Handled(Rejected(500, BadTokenFormat), None, 0, []);
    }
    var messages: Option<JVal>;
    match ReadMessages(request) {
      case Threw(e) =>
        return Handled(Caught(e), None, 0, []);
      case Value(m) =>
        messages := m;
    }
    if messages.None? || !messages.value.JArr? {
      return Handled(Rejected(400, BadMessages), None, 0, []);
    }
    var inputs: Option<JVal>;
    match LastContent(messages.value.items) {
      case Threw(e) =>
        return Handled(Caught(e), None, 0, []);
      case Value(c) =>
        inputs := c;
    }
    var outbound := Outbound("Bearer " + token.value, inputs);
    var result, calls, delays := FetchWithRetry(transport, MaxRetries);
    var answer: Answer;
    match result {
      case Raised(e) =>
        answer := Caught(e);
      case Fetched(r) =>
        match GeneratedText(r) {
          case Threw(e) =>
            answer := Caught(e);
          case Value(text) =>
            answer := Generated(text);
        }
    }
    handled := Handled(answer, Some(outbound), calls, delays);
  }

  /** The credential and the request are checked, in this order, before
      anything is sent upstream; a request that reaches the upstream has a
      credential starting with "hf_" and a non-empty `messages` array, and
      sends the `content` of its last message with that credential. */
  lemma ValidationBeforeUpstream(token: Option<string>, request: Json, transport: seq<Outcome>)
    requires MaxRetries <= |transport|
    ensures var h := Handle(token, request, transport);
      && (!TokenPresent(token) ==>
            h == Handled(Rejected(500, NotConfigured), None, 0, []))
      && (TokenPresent(token) && !StartsWith(token.value, TokenPrefix) ==>
            h == Handled(Rejected(500, BadTokenFormat), None, 0, []))
      && (TokenPresent(token) && StartsWith(token.value, TokenPrefix)
          && request.Parsed? && request.value != JNull
          && !(Prop(request.value, "messages").Some? && Prop(request.value, "messages").value.JArr?) ==>
            h == Handled(Rejected(400, BadMessages), None, 0, []))
      && (h.outbound.None? ==> h.calls == 0 && h.delays == [])
      && (h.outbound.Some? ==>
            && TokenPresent(token) && StartsWith(token.value, TokenPrefix)
            && request.Parsed?
            && Prop(request.value, "messages").Some?
            && Prop(request.value, "messages").value.JArr?
            && var items := Prop(request.value, "messages").value.items;
               |items| > 0 && items[|items| - 1] != JNull
               && h.outbound.value == Outbound("Bearer " + token.value, Prop(items[|items| - 1], "content")))
  {
  }

  /** Only the last message is sent upstream: the earlier history changes
      nothing in what the handler does. */
  lemma OnlyLastMessageSent(token: Option<string>, history1: seq<JVal>, history2: seq<JVal>,
                            last: JVal, transport: seq<Outcome>)
    requires MaxRetries <= |transport|
    ensures Handle(token, Parsed(JObj(map["messages" := JArr(history1 + [last])])), transport)
         == Handle(token, Parsed(JObj(map["messages" := JArr(history2 + [last])])), transport)
  {
    assert (history1 + [last])[|history1 + [last]| - 1] == last;
    assert (history2 + [last])[|history2 + [last]| - 1] == last;
  }

  /** An unrecognised upstream shape is reported as an unexpected response. */
  lemma UnexpectedFormatIsReported()
    ensures UserFacingMessage(ErrorObject(UnexpectedFormat)) == UnexpectedReply
  {
    UnexpectedFormatMentionsFormat();
    UnexpectedFormatHasNoStatus();
    MentionsFormatOnly(UnexpectedFormat);
  }

  lemma UnexpectedFormatHasNoStatus()
    ensures !Contains(UnexpectedFormat, "429") && !Contains(UnexpectedFormat, "401")
  {
    MissingChar(UnexpectedFormat, "429", 0);
    MissingChar(UnexpectedFormat, "401", 0);
  }

  lemma MentionsFormatOnly(m: string)
    requires !Contains(m, "429") && !Contains(m, "401") && Contains(m, "response format")
    ensures UserFacingMessage(ErrorObject(m)) == UnexpectedReply
  {
  }

  lemma UnexpectedFormatMentionsFormat()
    ensures Contains(UnexpectedFormat, "response format")
  {
    var head := "Unexpected ";
    var tail := "response format from API";
    assert UnexpectedFormat == head + tail;
    ContainsPrefix(tail, "response format");
    ContainsAfter(head, tail, "response format");
  }

  /** Once the upstream is reached, the reply, the calls and the waits are
      those of the retry loop. */
  lemma ReachedUpstream(token: Option<string>, request: Json, transport: seq<Outcome>)
    requires MaxRetries <= |transport|
    requires Validate(token, request).Send?
    ensures Handle(token, request, transport).answer == Conclude(RunFrom(transport, MaxRetries, 0).result)
    ensures Handle(token, request, transport).calls == RunFrom(transport, MaxRetries, 0).calls
    ensures Handle(token, request, transport).delays == RunFrom(transport, MaxRetries, 0).delays
  {
  }

  /** "Max retries reached" is classified as the generic failure. */
  lemma MaxRetriesIsGeneric()
    ensures UserFacingMessage(ErrorObject(MaxRetriesMessage)) == Generic
  {
    MaxRetriesMessageHasNoStatus();
    MissingChar(MaxRetriesMessage, "401", 0);
    MissingChar(MaxRetriesMessage, "response format", 3);
  }

  /** When every attempt is rate limited, the handler waits 1, 2 and 4
      seconds and answers with the generic message, not the "busy" one:
      the error that reaches the classifier is "Max retries reached". */
  lemma ExhaustedRateLimitIsGeneric(token: Option<string>, request: Json, transport: seq<Outcome>)
    requires MaxRetries <= |transport|
    requires forall j :: 0 <= j < MaxRetries ==> IsRateLimited(transport[j])
    requires Validate(token, request).Send?
    ensures var h := Handle(token, request, transport);
      && h.answer == Caught(ErrorObject(MaxRetriesMessage))
      && Prop(HttpReplyOf(h.answer).body, "error") == Some(JStr(Generic))
      && h.calls == 3
      && h.delays == [1000, 2000, 4000]
  {
    ReachedUpstream(token, request, transport);
    AllRateLimited(transport, MaxRetries, 0);
    MaxRetriesIsGeneric();
    var r := RunFrom(transport, MaxRetries, 0);
    assert r.delays[0] == BackoffWait(0) == 1000;
    assert r.delays[1] == BackoffWait(1) == 2000;
    assert r.delays[2] == BackoffWait(2) == 4000;
  }

  /** An error built from a 401 whose body does not mention 429 is
      classified as an authentication failure. */
  lemma Status401IsAuthFailure(body: string)
    requires !Contains(body, "429")
    ensures UserFacingMessage(ErrorObject(ApiFailureMessage(401, body))) == AuthFailed
  {
    var m := ApiFailureMessage(401, body);
    assert Decimal(401) == "401";
    var head := "API request failed with status ";
    assert m == head + ("401: " + body);
    SkipPrefix(head, "401: " + body, "429");
    assert "401: " + body == ['4'] + ("01: " + body);
    assert (['4'] + ("01: " + body))[1] == '0';
    Uncons('4', "01: " + body, "429");
    SkipPrefix("01: ", body, "429");
    ContainsPrefix("401: " + body, "401");
    ContainsAfter(head, "401: " + body, "401");
  }

  /** A 401 on every attempt is retried twice with flat waits and then
      reported as an authentication failure carrying the status and the
      last body, provided that body does not itself mention 429. */
  lemma PersistentAuthFailure(token: Option<string>, request: Json, transport: seq<Outcome>)
    requires MaxRetries <= |transport|
    requires forall j :: 0 <= j < MaxRetries ==>
      transport[j].Answered? && transport[j].response.status == 401
    requires !Contains(transport[2].response.text, "429")
    requires Validate(token, request).Send?
    ensures var h := Handle(token, request, transport);
      && h.answer == Caught(ErrorObject(ApiFailureMessage(401, transport[2].response.text)))
      && Prop(HttpReplyOf(h.answer).body, "error") == Some(JStr(AuthFailed))
      && h.calls == 3
      && h.delays == [1000, 1000]
  {
    ReachedUpstream(token, request, transport);
    HowRunsEnd(transport, MaxRetries, 0);
    RequestedWaits(transport, MaxRetries, 0);
    var r := RunFrom(transport, MaxRetries, 0);
    assert !IsSuccess(transport[0]) && !IsSuccess(transport[1]) && !IsSuccess(transport[2]);
    assert !IsRateLimited(transport[0]) && !IsRateLimited(transport[1]) && !IsRateLimited(transport[2]);
    assert r.result.Raised?;
    Status401IsAuthFailure(transport[2].response.text);
  }

  /** Two rate-limited attempts followed by a success: the reply carries
      the generated text after waits of 1 and 2 seconds and three calls. */
  lemma RecoversAfterRateLimit(token: Option<string>, request: Json, transport: seq<Outcome>, text: string)
    requires MaxRetries <= |transport|
    requires IsRateLimited(transport[0]) && IsRateLimited(transport[1])
    requires transport[2] == Answered(Response(200, "", Parsed(JArr([JObj(map["generated_text" := JStr(text)])]))))
    requires text != ""
    requires Validate(token, request).Send?
    ensures var h := Handle(token, request, transport);
      && h.answer == Generated(JStr(text))
      && h.calls == 3
      && h.delays == [1000, 2000]
  {
    ReachedUpstream(token, request, transport);
    FirstSuccessReturned(transport, MaxRetries, 0, 2);
    RequestedWaits(transport, MaxRetries, 0);
    var r := RunFrom(transport, MaxRetries, 0);
    assert r.delays[0] == BackoffWait(0) == 1000;
    assert r.delays[1] == BackoffWait(1) == 2000;
  }

  /** The normaliser looks at the first element of an array only. */
  lemma NormalizeReadsFirstElementOnly(first: JVal, rest1: seq<JVal>, rest2: seq<JVal>)
    ensures Normalize(JArr([first] + rest1)) == Normalize(JArr([first] + rest2))
  {
    assert ([first] + rest1)[0] == first;
    assert ([first] + rest2)[0] == first;
  }

  /** The three accepted shapes, and the falsy `generated_text` that is
      rejected rather than returned. */
  lemma NormalizeShapes(text: string, rest: seq<JVal>)
    ensures text != "" ==>
      Normalize(JArr([JObj(map["generated_text" := JStr(text)])] + rest)) == Some(JStr(text))
    ensures Normalize(JArr([JStr(text)] + rest)) == Some(JStr(text))
    ensures Normalize(JStr(text)) == Some(JStr(text))
    ensures Normalize(JArr([JObj(map["generated_text" := JStr("")])] + rest)) == None
  {
    assert ([JObj(map["generated_text" := JStr(text)])] + rest)[0] == JObj(map["generated_text" := JStr(text)]);
    assert ([JStr(text)] + rest)[0] == JStr(text);
    assert ([JObj(map["generated_text" := JStr("")])] + rest)[0] == JObj(map["generated_text" := JStr("")]);
  }
}

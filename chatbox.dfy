/**
 * The conversation state of the chat box component: the message list, the
 * input field, the loading flag and the error banner, and the submit
 * handler that appends the user's message optimistically and then either
 * appends the assistant's reply or rolls the user's message back. The
 * HTTP round trip (`axios.post`) is injected as the reply it produced.
 */
module ChatBox {
  import opened Js

  const FailedToSend := "Failed to send message"
  const InvalidServerResponse := "Invalid response from server"
  /** The `TypeError` of reading `error` from a `null` response body (the
      wording of V8). */
  const ErrorOfNull := "Cannot read properties of null (reading 'error')"

  /** What `axios.post` produced: a response with its status and parsed
      body, or an error without a response, with its message. */
  datatype Reply = Received(status: int, data: JVal) | NoResponse(message: string)

  /** What a reply means for the conversation: an assistant message to
      append, or the text of the error to show. */
  datatype Settlement = Accepted(assistant: JVal) | Failed(error: string)

  /** `{ role: "user", content: input }`. */
  function UserMessage(text: string): JVal
  {
    JObj(map["role" := JStr("user"), "content" := JStr(text)])
  }

  /** The body posted to the chat route: the prior messages followed by the
      new user message. */
  function RequestBody(history: seq<JVal>, text: string): JVal
  {
    JObj(map["messages" := JArr(history + [UserMessage(text)])])
  }

  /** axios resolves for a 2xx status and rejects otherwise. */
  predicate IsAxiosSuccess(status: int)
  {
    200 <= status < 300
  }

  /** The message of the error axios rejects with for a non-2xx status. */
  function AxiosStatusMessage(status: int): string
  {
    "Request failed with status code " + Decimal(status)
  }

  /** `message || "Failed to send message"`. */
  function OrFallback(message: string): string
  {
    if message != "" then message else FailedToSend
  }

  /** The `try`/`catch` of the submit handler, read as a decision: which
      replies are accepted and which error text a rejected one leaves.
      A reply is accepted exactly when it is a 2xx response whose body has
      no truthy `error` and whose `message` has a truthy `content`. */
  function Settle(reply: Reply): (s: Settlement)
    ensures s.Accepted? <==>
      && reply.Received? && IsAxiosSuccess(reply.status) && reply.data != JNull
      && !Truthy(Prop(reply.data, "error"))
      && Prop(reply.data, "message").Some?
      && Truthy(Prop(Prop(reply.data, "message").value, "content"))
    ensures s.Accepted? ==> Prop(reply.data, "message") == Some(s.assistant)
    ensures reply.NoResponse? ==> s == Failed(OrFallback(reply.message))
    // A 2xx reply is refused with the engine's TypeError on a null body,
    // with the server's own error text, or as an invalid response.
    ensures reply.Received? && IsAxiosSuccess(reply.status) && reply.data == JNull ==>
      s == Failed(ErrorOfNull)
    ensures reply.Received? && IsAxiosSuccess(reply.status) && Truthy(Prop(reply.data, "error")) ==>
      s == Failed(OrFallback(ToText(Prop(reply.data, "error").value)))
    ensures reply.Received? && IsAxiosSuccess(reply.status) && reply.data != JNull
            && !Truthy(Prop(reply.data, "error")) && s.Failed? ==>
      s == Failed(InvalidServerResponse)
    // A non-2xx reply is always refused: the server's error text, else the
    // status message of axios, followed by any technical details.
    ensures reply.Received? && !IsAxiosSuccess(reply.status) ==> s.Failed?
    ensures reply.Received? && !IsAxiosSuccess(reply.status) && !Truthy(Prop(reply.data, "technicalError")) ==>
      s.error == (if Truthy(Prop(reply.data, "error")) then ToText(Prop(reply.data, "error").value)
                  else AxiosStatusMessage(reply.status))
    ensures reply.Received? && !IsAxiosSuccess(reply.status) && Truthy(Prop(reply.data, "technicalError")) ==>
      exists base :: s == Failed(base + " (Technical details: " + ToText(Prop(reply.data, "technicalError").value) + ")")
                     && (Truthy(Prop(reply.data, "error")) ==> base == ToText(Prop(reply.data, "error").value))
                     && (!Truthy(Prop(reply.data, "error")) ==> base == AxiosStatusMessage(reply.status))
  {
    match reply
    case NoResponse(m) => Failed(OrFallback(m))
    case Received(status, data) =>
      if IsAxiosSuccess(status) then
        if data == JNull then Failed(ErrorOfNull)
        else if Truthy(Prop(data, "error")) then Failed(OrFallback(ToText(Prop(data, "error").value)))
        else
          var assistant := Prop(data, "message");
          if assistant.Some? && Truthy(Prop(assistant.value, "content")) then Accepted(assistant.value)
          else Failed(InvalidServerResponse)
      else
        var serverError := Prop(data, "error");
        var base := if Truthy(serverError) then ToText(serverError.value) else AxiosStatusMessage(status);
        var technical := Prop(data, "technicalError");
        if Truthy(technical) then Failed(base + " (Technical details: " + ToText(technical.value) + ")")
        else Failed(base)
  }

  /** `prev.slice(0, -1)`. */
  function DropLast(s: seq<JVal>): (r: seq<JVal>)
    ensures |s| > 0 ==> s == r + [s[|s| - 1]]
    ensures |s| == 0 ==> r == []
  {
    if |s| == 0 then [] else s[..|s| - 1]
  }

  predicate IsUserMessage(m: JVal)
  {
    Prop(m, "role") == Some(JStr("user"))
  }

  /** The component `ChatInput` and its four pieces of state. */
  class ChatInput {
    var messages: seq<JVal>
    var input: string
    var isLoading: bool
    var error: Option<string>

    /** While a request is in flight the input is empty and the last
        message is the user's message awaiting its reply. */
    ghost predicate Valid()
      reads this
    {
      isLoading ==> input == "" && |messages| > 0 && IsUserMessage(messages[|messages| - 1])
    }

    constructor ()
      ensures Valid()
      ensures messages == [] && input == "" && !isLoading && error == None
    {
      messages, input, isLoading, error := [], "", false, None;
    }

    /** `handleInputChange`: typing replaces the input and clears the error.
        The field is disabled while loading. */
    method InputChange(value: string)
      requires Valid() && !isLoading
      modifies this
      ensures Valid()
      ensures input == value && error == None
      ensures messages == old(messages) && isLoading == old(isLoading)
    {
      input := value;
      error := None;
    }

    /** The input field's `disabled={isLoading}`, negated. */
    function InputEnabled(): bool
      reads this
    {
      !isLoading
    }

    /** The send button's `disabled={!input.trim() || isLoading}`, negated. */
    function CanSubmit(): bool
      reads this
    {
      !IsBlank(input) && !isLoading
    }

    /** The synchronous part of `handleSubmit`, up to the request: a blank
        input changes nothing; otherwise the error is cleared, the user
        message appended, the input cleared and the loading flag set. */
    method BeginSubmit() returns (request: Option<JVal>)
      requires Valid()
      modifies this
      ensures Valid()
      ensures IsBlank(old(input)) ==>
        request.None? && messages == old(messages) && input == old(input)
        && isLoading == old(isLoading) && error == old(error)
      ensures !IsBlank(old(input)) ==>
        && request == Some(RequestBody(old(messages), old(input)))
        && messages == old(messages) + [UserMessage(old(input))]
        && input == "" && isLoading && error == None
    {
      if IsBlank(input) {
        return None;
      }
      var userMessage := UserMessage(input);
      request := Some(RequestBody(messages, input));
      error := None;
      messages := messages + [userMessage];
      input := "";
      isLoading := true;
    }

    /** The asynchronous part of `handleSubmit`, once the reply is in: the
        reply is appended, or the last message is removed and the error
        shown; the loading flag is cleared either way. */
    method CompleteSubmit(reply: Reply)
      requires Valid() && isLoading
      modifies this
      ensures Valid()
      ensures !isLoading && input == old(input)
      ensures Settle(reply).Accepted? ==>
        messages == old(messages) + [Settle(reply).assistant] && error == old(error)
      ensures Settle(reply).Failed? ==>
        messages == DropLast(old(messages)) && error == Some(Settle(reply).error)
    {
      match Settle(reply) {
        case Accepted(assistant) =>
          messages := messages + [assistant];
        case Failed(text) =>
          error := Some(text);
          messages := DropLast(messages);
      }
      isLoading := false;
    }

    /** `handleSubmit` with one request in flight: on success the list grows
        by the user message and the reply, on failure it is exactly the
        list from before the submit. */
    method Submit(reply: Reply) returns (request: Option<JVal>)
      requires Valid()
      modifies this
      ensures Valid()
      ensures IsBlank(old(input)) ==>
        request.None? && messages == old(messages) && input == old(input)
        && isLoading == old(isLoading) && error == old(error)
      ensures !IsBlank(old(input)) ==>
        && request == Some(RequestBody(old(messages), old(input)))
        && input == "" && !isLoading
        && (Settle(reply).Accepted? ==>
              messages == old(messages) + [UserMessage(old(input)), Settle(reply).assistant]
              && error == None)
        && (Settle(reply).Failed? ==>
              messages == old(messages) && error == Some(Settle(reply).error))
    {
      request := BeginSubmit();
      if request.Some? {
        CompleteSubmit(reply);
      }
    }
  }

  /** While a request is in flight the input field is disabled and blank,
      so `handleSubmit` returns at its first line and at most one request
      is ever in flight; hence the send button is enabled exactly when the
      handler would act on its input. */
  lemma SubmitGuard(box: ChatInput)
    requires box.Valid()
    ensures box.isLoading ==> IsBlank(box.input) && !box.InputEnabled()
    ensures box.CanSubmit() <==> !IsBlank(box.input)
  {
  }
}

/**
 * The chat box and the chat route together: what the box posts is what the
 * route validates, and what the route replies decides whether the box
 * appends an assistant message or rolls the user's message back and shows
 * an error.
 */
module Conversation {
  import opened Js
  import opened Retry
  import Route
  import ChatBox

  /** The box's reading of a reply the route sent. */
  function Shown(reply: Route.HttpResponse): ChatBox.Settlement
  {
    ChatBox.Settle(ChatBox.Received(reply.status, reply.body))
  }

  /** The text the box shows for a failure caught by the route: the
      user-facing message, followed by the technical message when that is
      non-empty. */
  function EnvelopeText(e: Thrown): string
  {
    var technical := Route.ErrorMessage(e);
    if technical != "" then Route.UserFacingMessage(e) + " (Technical details: " + technical + ")"
    else Route.UserFacingMessage(e)
  }

  /** The box posts its history and the typed text; with a well-formed
      credential the route sends exactly the typed text upstream,
      untrimmed, whatever the history. */
  lemma RequestCarriesTypedText(token: Option<string>, history: seq<JVal>, text: string,
                                transport: seq<Outcome>)
    requires Route.MaxRetries <= |transport|
    requires Route.TokenPresent(token) && StartsWith(token.value, Route.TokenPrefix)
    ensures Route.Validate(token, Parsed(ChatBox.RequestBody(history, text))) == Route.Send(Some(JStr(text)))
    ensures Route.Handle(token, Parsed(ChatBox.RequestBody(history, text)), transport).outbound
         == Some(Route.Outbound("Bearer " + token.value, Some(JStr(text))))
  {
    var items := history + [ChatBox.UserMessage(text)];
    assert items[|items| - 1] == ChatBox.UserMessage(text);
  }

  /** A failure caught by the route reaches the user as its user-facing
      message, with the technical details appended when they are
      non-empty. */
  lemma EnvelopeShownWithDetails(e: Thrown)
    ensures Shown(Route.Envelope(e)) == ChatBox.Failed(EnvelopeText(e))
  {
  }

  /** Every way the route can answer, as the box reads it: an early return
      shows its own message, a caught failure shows the envelope text, and
      generated content is appended exactly when it is truthy, as an
      assistant message carrying that content. */
  lemma ClientReadsAnswer(token: Option<string>, request: Json, transport: seq<Outcome>)
    requires Route.MaxRetries <= |transport|
    ensures var a := Route.Handle(token, request, transport).answer;
      && (a.Rejected? ==> Shown(Route.HttpReplyOf(a)) == ChatBox.Failed(a.message))
      && (a.Caught? ==> Shown(Route.HttpReplyOf(a)) == ChatBox.Failed(EnvelopeText(a.error)))
      && (Shown(Route.HttpReplyOf(a)).Accepted? <==> a.Generated? && Truthy(Some(a.content)))
      && (Shown(Route.HttpReplyOf(a)).Accepted? ==>
            Shown(Route.HttpReplyOf(a)).assistant
            == JObj(map["role" := JStr("assistant"), "content" := a.content]))
      && (a.Generated? && !Truthy(Some(a.content)) ==>
            Shown(Route.HttpReplyOf(a)) == ChatBox.Failed(ChatBox.InvalidServerResponse))
  {
    var a := Route.Handle(token, request, transport).answer;
    match a
    case Rejected(status, message) =>
      assert Route.Validate(token, request) == Route.Stop(a);
      assert status == 500 || status == 400;
      assert message != "";
    case Caught(e) =>
      EnvelopeShownWithDetails(e);
    case Generated(content) =>
  }

  /** An upstream answer `[""]` passes the route's normaliser as the empty
      string, but the box refuses it: the user's message is rolled back
      and "Invalid response from server" is shown. */
  lemma EmptyGenerationRolledBack(token: Option<string>, request: Json, transport: seq<Outcome>)
    requires Route.MaxRetries <= |transport|
    requires transport[0] == Answered(Response(200, "", Parsed(JArr([JStr("")]))))
    requires Route.Validate(token, request).Send?
    ensures Route.Handle(token, request, transport).answer == Route.Generated(JStr(""))
    ensures Shown(Route.HttpReplyOf(Route.Handle(token, request, transport).answer))
         == ChatBox.Failed(ChatBox.InvalidServerResponse)
  {
    Route.ReachedUpstream(token, request, transport);
    FirstSuccessReturned(transport, Route.MaxRetries, 0, 0);
  }
}

# Chat request dispatch, modelled in Dafny

A model of the request-dispatch layer of a browser chat application and
of the conversation state that drives it, with proofs.

The server side is the `POST` handler of the chat route. It does three things:
- It checks the credential and the request.
- It sends the last message's `content` upstream through `fetchWithRetry`. This is a loop of at most three attempts, waiting 2^i seconds after a 429 at attempt i, and one second after any other failure before the last attempt. Any other failure on the last attempt is rethrown at once. A 429 on the last attempt still waits, and the loop then throws "Max retries reached".
- It normalises the upstream JSON. Every failure it catches becomes a 500 envelope holding a user-facing message, chosen by keyword, and the technical message.

The client side is the `ChatInput` component. It appends the user's message at once and posts the whole history. Then it either appends the assistant's reply, or removes the user's message again and shows an error.

Files:

- `js.dfy` (module `Js`) holds the JavaScript semantics the code relies on:
  - parsed JSON values, truthiness and `?.` property access;
  - `String(v)`, `includes`, `startsWith`;
  - the whitespace that `trim()` removes.
- `retry.dfy` (module `Retry`) holds `fetchWithRetry`. The method `FetchWithRetry` keeps the source's loop. It is proved equal to the reference function `RunFrom`, and the lemmas are stated about `RunFrom`. The transport is a sequence of outcomes, where attempt `i` receives `transport[i]`. The waits are recorded instead of slept.
- `route.dfy` (module `Route`) holds `POST`. The method `Post` keeps the source's early returns. It is proved equal to the reference function `Handle`. The credential is a parameter, and the request body is given parsed.
- `chatbox.dfy` (module `ChatBox`) holds the class `ChatInput`, which has the component's four state variables as fields. Its methods are the input handler and the submit handler. The submit handler is split at its `await` into `BeginSubmit` and `CompleteSubmit`, and `Submit` composes the two. The reply of `axios.post` is a parameter. `Settle` is the decision the handler's `try`/`catch` makes about that reply.
- `conversation.dfy` (module `Conversation`) connects the two sides. What the box posts is what the route validates, and the route's replies are read back by the box.

Some behaviours of the code are worth stating outright:
- Any non-ok status other than 429 is retried like a thrown error, because the `Error` built for it is caught by the loop's own `catch`. Only such a failure on the last attempt is rethrown.
- When every attempt is rate limited, the loop throws "Max retries reached". That message contains no "429", so the user sees the generic message, not the "busy" one. `Route.ExhaustedRateLimitIsGeneric` proves this.
- The generated text is returned as found. There is no trimming or stripping of role markers, and no special path for a 503 status.
- The submit handler does not itself check for a pending request. It relies on two things: the input is cleared when a request starts, and the input field is disabled while loading. `ChatBox.SubmitGuard` proves that these leave at most one request in flight.

## Model

| member | source | states |
|---|---|---|
| Retry.FetchWithRetry | app/api/chat/route.ts:10-49 | The loop's result, number of upstream calls and requested waits are exactly those of the reference run `RunFrom` from attempt 0. |
| Retry.BackoffWaitIncreases | app/api/chat/route.ts:23-28 | The rate-limit wait 2^i * 1000 ms strictly increases with the attempt index. |
| Retry.ApiFailureMessageCarriesStatusAndBody | app/api/chat/route.ts:32-38 | The error built for a non-ok response contains both the decimal status and the response body verbatim. |
| Retry.AttemptsBounded | app/api/chat/route.ts:15-47 | A run makes at most `maxRetries` calls, and at least one whenever the bound is positive. |
| Retry.RequestedWaits | app/api/chat/route.ts:15-47 | Every wait belongs to one attempt, in order: 2^j * 1000 ms after a 429 at attempt j, and 1000 ms after any other failure. There are never more waits than calls. |
| Retry.FirstSuccessReturned | app/api/chat/route.ts:32-41 | The first ok response is returned at once, after k+1 calls and k waits. Every earlier failure was retried. |
| Retry.HowRunsEnd | app/api/chat/route.ts:15-48 | A run throws only after all its attempts. It throws "Max retries reached" when the last attempt was a 429, and otherwise the error the last attempt's `catch` received. A returned response is the last attempt's, and it is ok. |
| Retry.AllRateLimited | app/api/chat/route.ts:23-30 | If every attempt gets a 429, all attempts are made, each waits 2^j seconds, and the loop throws "Max retries reached". |
| Retry.RateLimitWaitsIncrease | app/api/chat/route.ts:23-28 | Under constant rate limiting, the requested waits form a strictly increasing sequence. |
| Retry.MaxRetriesMessageHasNoStatus | app/api/chat/route.ts:48 | "Max retries reached" does not contain "429". |
| Route.UserFacingMessage | app/api/chat/route.ts:143-155 | Each of the four user-facing messages is chosen if and only if its keyword is the first of "429", "401" and "response format" that the error message contains. A non-`Error` thrown value gets the generic message. |
| Route.Envelope | app/api/chat/route.ts:135-165 | Every caught failure is answered with status 500, an `error` holding the user-facing message and a `technicalError` holding the error's own message (or "Internal server error"). There is no `message` field. |
| Route.Normalize | app/api/chat/route.ts:113-124 | A non-empty array whose first element has a truthy `generated_text` yields that value, whatever its type and whatever other keys the element has. Otherwise a string first element is returned, and any other first element is rejected. A string is returned as it is. `null`, booleans, numbers, objects and empty arrays are rejected. An accepted result is always a whole value found in the input. |
| Route.NormalizeReadsFirstElementOnly | app/api/chat/route.ts:115-118 | Elements after the first never change the normaliser's answer. |
| Route.NormalizeShapes | app/api/chat/route.ts:115-120 | All three accepted shapes yield their text. An empty `generated_text` is rejected, not returned. |
| Route.Post | app/api/chat/route.ts:51-166 | The handler's answer, upstream request, calls and waits are those of the reference definition `Handle`. |
| Route.ValidationBeforeUpstream | app/api/chat/route.ts:61-92 | The credential, then its "hf_" prefix, then the messages array are checked in this order. Nothing is sent upstream on any early exit. A request that reaches upstream has a valid credential and a non-empty array, and sends its last message's `content` with a `Bearer` header. |
| Route.OnlyLastMessageSent | app/api/chat/route.ts:92-108 | Two requests that differ only in the history before the last message are handled identically. |
| Route.ReachedUpstream | app/api/chat/route.ts:95-134 | Once validation passes, the handler's answer, calls and waits are determined by the retry loop's run. |
| Route.UnexpectedFormatIsReported | app/api/chat/route.ts:123-154 | The normaliser's "Unexpected response format from API" is classified as an unexpected response. |
| Route.MaxRetriesIsGeneric | app/api/chat/route.ts:143-155 | "Max retries reached" is classified as the generic failure. |
| Route.ExhaustedRateLimitIsGeneric | app/api/chat/route.ts:23-48 | When every attempt gets a 429, the handler makes 3 calls and waits 1, 2 and 4 seconds. It then answers with the generic message, because the classified error is "Max retries reached". |
| Route.Status401IsAuthFailure | app/api/chat/route.ts:144-150 | The error built from a 401 is classified as an authentication failure whenever the body does not mention 429. |
| Route.PersistentAuthFailure | app/api/chat/route.ts:32-46 | Three 401s are retried twice with flat 1-second waits. When the last body does not contain "429", the result is reported as an authentication failure that carries that body. |
| Route.RecoversAfterRateLimit | app/api/chat/route.ts:23-41 | Two 429s followed by a success: the reply carries the generated text after 3 calls and waits of 1 and 2 seconds. |
| ChatBox.Settle | components/ChatBox.tsx:33-59 | A reply is accepted if and only if it is a 2xx whose body has no truthy `error` and whose `message` has a truthy `content`. The accepted value is that `message`. Every refusal's text is pinned. A network error shows its message or "Failed to send message". A refused 2xx shows one of three texts: the engine's `TypeError` for a `null` body, the body's truthy `error` as text (or "Failed to send message" when that text is empty), or "Invalid response from server". A non-2xx is always refused. It shows the body's truthy `error` as text, else axios's "Request failed with status code N". A truthy `technicalError` is appended as " (Technical details: …)". |
| ChatBox.DropLast | components/ChatBox.tsx:60 | Removes exactly the last message; an empty list stays empty. |
| ChatBox.ChatInput.constructor | components/ChatBox.tsx:13-16 | Starts with no messages, an empty input, not loading and no error, in a valid state. |
| ChatBox.ChatInput.InputChange | components/ChatBox.tsx:18-21 | Typing replaces the input and clears the error. The messages and the loading flag are unchanged. |
| ChatBox.ChatInput.BeginSubmit | components/ChatBox.tsx:23-36 | A blank input changes nothing and sends nothing. Otherwise it posts the prior history plus the new user message, appends that message, clears the input and the error, and sets loading. |
| ChatBox.ChatInput.CompleteSubmit | components/ChatBox.tsx:33-63 | An accepted reply is appended. A refused one removes the last message and sets the error to the refusal text. Loading is cleared either way. |
| ChatBox.ChatInput.Submit | components/ChatBox.tsx:23-64 | A whole submit: on success the list gains the user message and the reply and no error remains. On failure the list is exactly the one from before the submit and the error is shown. Loading always ends cleared, the input is empty, and the state stays valid. |
| ChatBox.SubmitGuard | components/ChatBox.tsx:110-126 | While loading, the input is disabled and blank, so the handler is a no-op. In a valid state the send button is enabled exactly when the handler would act. |
| Conversation.RequestCarriesTypedText | components/ChatBox.tsx:28-36 | With a well-formed credential, the route sends upstream exactly the text the user typed, untrimmed, whatever the history. |
| Conversation.EnvelopeShownWithDetails | components/ChatBox.tsx:50-59 | A failure caught by the route is shown as its user-facing message. The suffix " (Technical details: <message>)" follows when the technical message is non-empty. |
| Conversation.ClientReadsAnswer | components/ChatBox.tsx:38-59 | An early return shows its own message. A caught failure shows the envelope text. Generated content is appended, as an assistant message carrying it, if and only if it is truthy. |
| Conversation.EmptyGenerationRolledBack | components/ChatBox.tsx:42-45 | An upstream `[""]` passes the route's normaliser, but the box refuses it: the user's message is rolled back and "Invalid response from server" is shown. |

## Left out

- Logging (`console.log`, `console.error`) has no effect on the results and is not modelled.
- Real time is not modelled. `delay` is recorded as the sequence of requested waits, and nothing is slept.
- `fetch`, `axios.post` and the upstream service are parameters: a sequence of per-attempt outcomes, and one reply. The upstream URL, the headers other than `Authorization` and the generation parameters (`max_length`, `temperature`) are not modelled. The outbound request is reduced to its `Authorization` header and its `inputs` field.
- The credential is read from the process environment in the program. Here it is a parameter.
- `response.text()` and `response.json()` are two independent fields of a response. Whether they agree is not modelled, nor is `text()` throwing.
- JSON numbers are integers. Floating point, `NaN` and the text form of fractional numbers are not modelled.
- `Route.Normalize`: `result[0]?.generated_text` on a first element that is a string is `undefined`, as modelled. Inherited properties of strings and arrays (such as `length`) are not modelled, because none of the keys the code reads is inherited.
- `Route.Post` runs with the default bound of three attempts, because that is how the handler calls `fetchWithRetry`. The retry lemmas are stated for any bound of the model.
- `Retry.BackoffWait` computes the rate-limit wait exactly, as the natural number 2^i * 1000. The program computes `Math.pow(2, i) * 1000` as a double, which becomes `Infinity` from i = 1015 on. That float overflow is not modelled, so for bounds that large `Retry.BackoffWaitIncreases` and `Retry.RateLimitWaitsIncrease` describe the model and not the program. With the bound of three that `POST` uses, the waits are 1000, 2000 and 4000 ms exactly.
- `ChatBox.Settle`: for a non-2xx reply without a truthy `technicalError`, the program stores the server's truthy `error` in the component's state as the raw value, and the banner renders it with `{error}`. The model stores its `String(...)` rendering instead. The two agree on what is displayed for strings and numbers only. Three other kinds are not modelled: `true`, which React renders as nothing; an array, whose elements React renders with no commas where `String` joins them with ","; and a plain object, for which React throws while rendering.
- `ChatBox.ChatInput`: React's batching of state updates, re-renders and the updater-function form of `setMessages` are modelled as direct field updates. Overlapping submits are excluded by the `Valid()` invariant, in line with the disabled input.
- The messages are not rendered, so the JSX markup, the microphone button, the header, settings, suggestions, theming and layout are not part of this model.
- The suggestion list in `constants/index.ts` and its random shuffle are not part of this model.
- JavaScript engine error messages (`TypeError` on destructuring or reading a property of `null`/`undefined`) use the wording of V8.

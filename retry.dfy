/**
 * `fetchWithRetry` of the chat route: a bounded loop of upstream calls.
 * The transport is injected as the sequence of outcomes the successive
 * calls produce, and every `delay(ms)` the loop awaits is recorded instead
 * of slept.
 */
module Retry {
  import opened Js

  /** What `throw` carries: an `Error` object with its message, or some
      other thrown value. */
  datatype Thrown = ErrorObject(message: string) | OtherValue

  /** A `Response` of `fetch`: its status, what `text()` reads and what
      `json()` parses from the same body. */
  datatype Response = Response(status: int, text: string, json: Json)

  /** One call of `fetch`: it answers, or it throws. */
  datatype Outcome = Answered(response: Response) | Throws(error: Thrown)

  /** How `fetchWithRetry` ends: it returns a response or it throws. */
  datatype FetchResult = Fetched(response: Response) | Raised(error: Thrown)

  /** A finished run: its result, how many upstream calls it made and the
      waits it requested, in order. */
  datatype Run = Run(result: FetchResult, calls: nat, delays: seq<nat>)

  const RateLimitStatus := 429
  const FlatWait: nat := 1000
  const MaxRetriesMessage := "Max retries reached"

  /** `response.ok`. */
  predicate IsOkStatus(status: int)
  {
    200 <= status <= 299
  }

  function Pow2(n: nat): (r: nat)
    ensures r >= 1
  {
    if n == 0 then 1 else 2 * Pow2(n - 1)
  }

  /** The wait requested after a 429 at attempt `i`. */
  function BackoffWait(i: nat): nat
  {
    Pow2(i) * 1000
  }

  lemma {:induction false} BackoffWaitIncreases(j: nat, k: nat)
    requires j < k
    ensures BackoffWait(j) < BackoffWait(k)
    decreases k
  {
    if j < k - 1 {
      BackoffWaitIncreases(j, k - 1);
    }
    assert Pow2(k) == 2 * Pow2(k - 1);
  }

  /** The message of the `Error` thrown for a non-ok status. */
  function ApiFailureMessage(status: int, text: string): string
  {
    "API request failed with status " + Decimal(status) + ": " + text
  }

  lemma ApiFailureMessageCarriesStatusAndBody(status: int, text: string)
    ensures Contains(ApiFailureMessage(status, text), Decimal(status))
    ensures Contains(ApiFailureMessage(status, text), text)
  {
    var head := "API request failed with status ";
    var tail := ": " + text;
    assert ApiFailureMessage(status, text) == head + (Decimal(status) + tail);
    ContainsPrefix(Decimal(status) + tail, Decimal(status));
    ContainsAfter(head, Decimal(status) + tail, Decimal(status));
    assert ApiFailureMessage(status, text) == (head + Decimal(status) + ": ") + text;
    ContainsPrefix(text, text);
    ContainsAfter(head + Decimal(status) + ": ", text, text);
  }

  predicate IsRateLimited(o: Outcome)
  {
    o.Answered? && o.response.status == RateLimitStatus
  }

  predicate IsSuccess(o: Outcome)
  {
    o.Answered? && IsOkStatus(o.response.status)
  }

  /** The error that the `catch` of attempt `o` receives: the thrown value
      itself, or the `Error` built from a non-ok, non-429 response. */
  function CaughtError(o: Outcome): Thrown
    requires !IsRateLimited(o) && !IsSuccess(o)
  {
    match o
    case Throws(e) => e
    case Answered(r) => ErrorObject(ApiFailureMessage(r.status, r.text))
  }

  /** The wait an attempt with outcome `o` at index `i` requests, when it
      requests one. */
  function WaitAfter(o: Outcome, i: nat): nat
  {
    if IsRateLimited(o) then BackoffWait(i) else FlatWait
  }

  function Then(wait: nat, rest: Run): Run
  {
    Run(rest.result, rest.calls + 1, [wait] + rest.delays)
  }

  /** A run that made `calls` calls and requested `delays` before going on
      as `rest`. */
  function Resume(calls: nat, delays: seq<nat>, rest: Run): Run
  {
    Run(rest.result, calls + rest.calls, delays + rest.delays)
  }

  lemma ResumeThen(calls: nat, delays: seq<nat>, wait: nat, rest: Run)
    ensures Resume(calls, delays, Then(wait, rest)) == Resume(calls + 1, delays + [wait], rest)
  {
    assert delays + ([wait] + rest.delays) == (delays + [wait]) + rest.delays;
  }

  /** The loop from attempt `i` on, as a reference definition. */
  function RunFrom(transport: seq<Outcome>, maxRetries: int, i: nat): Run
    requires maxRetries <= |transport|
    decreases maxRetries - i
  {
    if i >= maxRetries then Run(Raised(ErrorObject(MaxRetriesMessage)), 0, [])
    else
      var o := transport[i];
      if IsRateLimited(o) then Then(BackoffWait(i), RunFrom(transport, maxRetries, i + 1))
      else if IsSuccess(o) then Run(Fetched(o.response), 1, [])
      else if i == maxRetries - 1 then Run(Raised(CaughtError(o)), 1, [])
      else Then(FlatWait, RunFrom(transport, maxRetries, i + 1))
  }

  /** The loop itself: attempt `i` uses `transport[i]`. */
  method FetchWithRetry(transport: seq<Outcome>, maxRetries: int)
    returns (result: FetchResult, calls: nat, delays: seq<nat>)
    requires maxRetries <= |transport|
    ensures Run(result, calls, delays) == RunFrom(transport, maxRetries, 0)
  {
    calls, delays := 0, [];
    var i: nat := 0;
    while i < maxRetries
      invariant calls == i
      invariant i <= maxRetries || i == 0
      invariant RunFrom(transport, maxRetries, 0) == Resume(calls, delays, RunFrom(transport, maxRetries, i))
      decreases maxRetries - i
    {
      var outcome := transport[i];
      calls := calls + 1;
      var caught: Thrown;
      match outcome {
        case Throws(e) =>
          caught := e;
        case Answered(response) =>
          if response.status == RateLimitStatus {
            ResumeThen(calls - 1, delays, BackoffWait(i), RunFrom(transport, maxRetries, i + 1));
            delays := delays + [BackoffWait(i)];
            i := i + 1;
            continue;
          }
          if !IsOkStatus(response.status) {
            caught := ErrorObject(ApiFailureMessage(response.status, response.text));
          } else {
            result := Fetched(response);
            return;
          }
      }
      assert !IsRateLimited(outcome) && !IsSuccess(outcome) && caught == CaughtError(outcome);
      if i == maxRetries - 1 {
        result := Raised(caught);
        return;
      }
      ResumeThen(calls - 1, delays, FlatWait, RunFrom(transport, maxRetries, i + 1));
      delays := delays + [FlatWait];
      i := i + 1;
    }
    result := Raised(ErrorObject(MaxRetriesMessage));
  }

  /** At most `maxRetries - i` calls, and at least one when any remain. */
  lemma {:induction false} AttemptsBounded(transport: seq<Outcome>, maxRetries: int, i: nat)
    requires maxRetries <= |transport|
    ensures var r := RunFrom(transport, maxRetries, i);
      && (i < maxRetries ==> 1 <= r.calls <= maxRetries - i)
      && (i >= maxRetries ==> r.calls == 0)
    decreases maxRetries - i
  {
    if i < maxRetries {
      AttemptsBounded(transport, maxRetries, i + 1);
    }
  }

  /** Every requested wait belongs to one attempt, in order: 2^j * 1000 ms
      after a 429 at attempt j, 1000 ms after any other failure. */
  lemma {:induction false} RequestedWaits(transport: seq<Outcome>, maxRetries: int, i: nat)
    requires maxRetries <= |transport|
    ensures var r := RunFrom(transport, maxRetries, i);
      && |r.delays| <= r.calls
      && (|r.delays| == 0 || i + |r.delays| <= maxRetries)
      && forall j :: 0 <= j < |r.delays| ==> r.delays[j] == WaitAfter(transport[i + j], i + j)
    decreases maxRetries - i
  {
    AttemptsBounded(transport, maxRetries, i);
    if i < maxRetries {
      RequestedWaits(transport, maxRetries, i + 1);
    }
  }

  /** The first successful response is returned at once: no later attempt
      is made and every earlier failure was retried. */
  lemma {:induction false} FirstSuccessReturned(transport: seq<Outcome>, maxRetries: int, i: nat, k: nat)
    requires maxRetries <= |transport|
    requires i <= k < maxRetries
    requires IsSuccess(transport[k])
    requires forall j :: i <= j < k ==> !IsSuccess(transport[j])
    ensures var r := RunFrom(transport, maxRetries, i);
      && r.result == Fetched(transport[k].response)
      && r.calls == k - i + 1
      && |r.delays| == k - i
    decreases k - i
  {
    if i < k {
      FirstSuccessReturned(transport, maxRetries, i + 1, k);
    }
  }

  /** The loop throws only after making every one of its attempts; then the
      error is "Max retries reached" when the last attempt was a 429, and
      otherwise what the last attempt's `catch` received. A returned
      response is the last attempt's, and successful. */
  lemma {:induction false} HowRunsEnd(transport: seq<Outcome>, maxRetries: int, i: nat)
    requires maxRetries <= |transport|
    requires i <= maxRetries
    ensures var r := RunFrom(transport, maxRetries, i);
      && r.calls <= maxRetries - i
      && (r.result.Fetched? ==>
            r.calls > 0 && IsSuccess(transport[i + r.calls - 1])
            && r.result.response == transport[i + r.calls - 1].response
            && |r.delays| == r.calls - 1)
      && (r.result.Raised? ==> i + r.calls == maxRetries)
      && (r.result.Raised? && (r.calls == 0 || IsRateLimited(transport[maxRetries - 1])) ==>
            r.result.error == ErrorObject(MaxRetriesMessage) && |r.delays| == r.calls)
      && (r.result.Raised? && r.calls > 0 && !IsRateLimited(transport[maxRetries - 1]) ==>
            !IsSuccess(transport[maxRetries - 1])
            && r.result.error == CaughtError(transport[maxRetries - 1])
            && |r.delays| == r.calls - 1)
    decreases maxRetries - i
  {
    AttemptsBounded(transport, maxRetries, i);
    if i < maxRetries {
      HowRunsEnd(transport, maxRetries, i + 1);
    }
  }

  /** When every attempt is rate limited: all attempts are made, each
      requests its exponential wait, and the loop throws
      "Max retries reached". */
  lemma {:induction false} AllRateLimited(transport: seq<Outcome>, maxRetries: int, i: nat)
    requires maxRetries <= |transport|
    requires i <= maxRetries
    requires forall j :: i <= j < maxRetries ==> IsRateLimited(transport[j])
    ensures var r := RunFrom(transport, maxRetries, i);
      && r.result == Raised(ErrorObject(MaxRetriesMessage))
      && r.calls == maxRetries - i
      && |r.delays| == maxRetries - i
      && forall j :: 0 <= j < |r.delays| ==> r.delays[j] == BackoffWait(i + j)
    decreases maxRetries - i
  {
    if i < maxRetries {
      AllRateLimited(transport, maxRetries, i + 1);
    }
  }

  /** Under constant rate limiting the requested waits strictly increase. */
  lemma RateLimitWaitsIncrease(transport: seq<Outcome>, maxRetries: nat)
    requires maxRetries <= |transport|
    requires forall j :: 0 <= j < maxRetries ==> IsRateLimited(transport[j])
    ensures var r := RunFrom(transport, maxRetries, 0);
      forall j, k :: 0 <= j < k < |r.delays| ==> r.delays[j] < r.delays[k]
  {
    AllRateLimited(transport, maxRetries, 0);
    var r := RunFrom(transport, maxRetries, 0);
    forall j, k | 0 <= j < k < |r.delays|
      ensures r.delays[j] < r.delays[k]
    {
      BackoffWaitIncreases(j, k);
    }
  }

  /** "Max retries reached" does not mention the status 429. */
  lemma MaxRetriesMessageHasNoStatus()
    ensures !Contains(MaxRetriesMessage, "429")
  {
    MissingChar(MaxRetriesMessage, "429", 0);
  }
}

/**
  The `/imagine` route of the Hono relay (backend/src/index.js). It checks, in this order:
  the request's `inputQuery` (400), then the provider's HTTP status (502), then that the
  provider's body is JSON (502), then that it has a `task_url` (502). Only when all pass does it
  wait the pre-delay and run the poll loop. Anything thrown on the way is answered 500 with the
  thrown error's message.

  `waitForImage` is not defined in that file; it is modelled as the loop of ImagePoll with its
  default attempt ceiling.
*/
module ImagineRoute {
  import opened Optional
  import opened Relay
  import opened ImagePoll

  /** What `fetch` plus `res.text()` yield: the error thrown, or the status line and raw body. */
  datatype FetchResult = FetchFailed(message: string) | Fetched(status: nat, statusText: string, raw: string)

  const MissingQuery := "Missing inputQuery in request body"
  const InvalidJson := "Invalid JSON from image API"
  const NoTaskUrl := "No task_url in image API response"

  /** The message the runtime throws when `data.task_url` is read from JSON `null`. */
  const NullTaskUrlMessage := "Cannot read properties of null (reading 'task_url')"

  /** `res.ok`: the status is in the 2xx range. */
  predicate IsOk(status: nat) {
    200 <= status <= 299
  }

  /** The decimal digit character for d. */
  function DigitChar(d: nat): (c: char)
    requires d < 10
    ensures '0' <= c <= '9' && c as int - '0' as int == d
  {
    ('0' as int + d) as char
  }

  predicate IsDigits(s: string) {
    forall i :: 0 <= i < |s| ==> '0' <= s[i] <= '9'
  }

  /** A number as JavaScript's template literal writes it: decimal digits, no leading zero. */
  function Decimal(n: nat): (s: string)
    ensures |s| >= 1 && IsDigits(s)
    ensures s[0] == '0' ==> n == 0
    decreases n
  {
    if n < 10 then [DigitChar(n)] else Decimal(n / 10) + [DigitChar(n % 10)]
  }

  /** The value of a string of decimal digits. */
  function DecimalValue(s: string): nat
    requires IsDigits(s)
  {
    if s == [] then 0
    else DecimalValue(s[..|s| - 1]) * 10 + (s[|s| - 1] as int - '0' as int)
  }

  /** Reading back what `Decimal` wrote gives the number. */
  lemma {:induction false} DecimalRoundTrip(n: nat)
    ensures DecimalValue(Decimal(n)) == n
    decreases n
  {
    if n >= 10 {
      var s := Decimal(n);
      assert s[..|s| - 1] == Decimal(n / 10);
      DecimalRoundTrip(n / 10);
    }
  }

  const StatusPrefix := "Image API failed: HTTP "

  /** The 502 error text for a non-ok status; the separator is U+2011, a non-breaking hyphen. */
  function StatusError(status: nat, statusText: string): string {
    StatusPrefix + Decimal(status) + " \U{2011} " + statusText
  }

  /**
    The error text names the status, and the status can be read back from it: the digits run
    from the end of the prefix up to the next space, and their value is the status.
  */
  lemma {:induction false} StatusErrorNamesStatus(status: nat, statusText: string)
    ensures var e := StatusError(status, statusText);
      var digits := Decimal(status);
      |e| > |StatusPrefix| + |digits| &&
      e[..|StatusPrefix|] == StatusPrefix &&
      e[|StatusPrefix|..|StatusPrefix| + |digits|] == digits &&
      e[|StatusPrefix| + |digits|] == ' ' &&
      DecimalValue(digits) == status
  {
    DecimalRoundTrip(status);
    var e := StatusError(status, statusText);
    var digits := Decimal(status);
    assert e == StatusPrefix + (digits + (" \U{2011} " + statusText));
  }

  /** The POST the route sends upstream: JSON body `{ text: inputQuery }`. */
  function SubmissionFor(inputQuery: string): Submission {
    Submission("POST", ImageApi, Some(inputQuery))
  }

  /** The answer to an error thrown inside the `try`: 500 carrying the error's message. */
  function Thrown(message: string, submitted: Option<Submission>): Exchange {
    Exchange(HttpResponse(500, ErrorStack(message)), submitted, 0, None)
  }

  /** The answer once the poll loop has run on `taskUrl`. */
  function AfterPolling(call: Submission, taskUrl: string, s: Session): Exchange {
    var response :=
      if s.outcome.Ready? then HttpResponse(200, ImageUrl(s.outcome.url))
      else HttpResponse(500, ErrorStack(ThrownMessage(s.outcome)));
    Exchange(response, Some(call), PreDelayMs, Some(Polling(taskUrl, s)))
  }

  /**
    The route handler, given the request body, the provider's answer to the submission, a
    parser standing for `JSON.parse` (None when it throws) and the oracle of poll answers.
  */
  function Imagine(body: RequestBody, fetch: Submission -> FetchResult, parse: string -> Option<Document>,
                   poll: string -> nat -> PollResponse): (x: Exchange)
    ensures x.response.status in {200, 400, 500, 502}
    ensures x.response.status == 400 ==> x.response.payload == Error(MissingQuery) && NoUpstreamCall(x)
    ensures x.response.status == 500 <==> x.response.payload.ErrorStack?
    ensures x.response.status == 200 ==>
      x.polling.Some? && x.polling.value.session.outcome.Ready? &&
      x.response.payload == ImageUrl(x.polling.value.session.outcome.url)
    ensures x.polling.Some? ==>
      x.preDelay == PreDelayMs && x.polling.value.session.polls <= DefaultMaxAttempts
    ensures x.submitted.Some? ==> HasQuery(body)
    ensures HasQuery(body) ==> x.submitted == Some(Submission("POST", ImageApi, Some(body.inputQuery.value)))
  {
    match body
    case Unreadable(m) => Thrown(m, None)
    case Body(inputQuery) =>
      if inputQuery.None? || inputQuery.value == "" then
        Exchange(HttpResponse(400, Error(MissingQuery)), None, 0, None)
      else
        var call := SubmissionFor(inputQuery.value);
        match fetch(call)
        case FetchFailed(m) => Thrown(m, Some(call))
        case Fetched(status, statusText, raw) =>
          if !IsOk(status) then
            Exchange(HttpResponse(502, ErrorBody(StatusError(status, statusText), raw)), Some(call), 0, None)
          else match parse(raw)
            case None =>
              Exchange(HttpResponse(502, ErrorBody(InvalidJson, raw)), Some(call), 0, None)
            case Some(NullDocument) => Thrown(NullTaskUrlMessage, Some(call))
            case Some(data) =>
              if data.taskUrl == "" then
                Exchange(HttpResponse(502, ErrorData(NoTaskUrl, data)), Some(call), 0, None)
              else
                WaitCounts(poll(data.taskUrl), DefaultMaxAttempts);
                AfterPolling(call, data.taskUrl, Wait(poll(data.taskUrl), DefaultMaxAttempts))
  }

  /** The request carries a truthy `inputQuery`. */
  predicate HasQuery(body: RequestBody) {
    body.Body? && body.inputQuery.Some? && body.inputQuery.value != ""
  }

  /** The request has a query and the provider answered with an ok status. */
  predicate StatusPassed(body: RequestBody, fetch: Submission -> FetchResult) {
    HasQuery(body) &&
    var r := fetch(SubmissionFor(body.inputQuery.value));
    r.Fetched? && IsOk(r.status)
  }

  /**
    The catch-all before polling: an unreadable request body, a throwing `fetch` or `res.text()`,
    and JSON `null` from the provider (reading `task_url` throws) are each answered 500 with that
    error's message; only the first sends nothing upstream, and none waits or polls.
  */
  lemma ThrownIs500(body: RequestBody, fetch: Submission -> FetchResult, parse: string -> Option<Document>,
                    poll: string -> nat -> PollResponse)
    ensures var x := Imagine(body, fetch, parse, poll);
      body.Unreadable? ==>
        x.response == HttpResponse(500, ErrorStack(body.message)) && NoUpstreamCall(x)
    ensures var x := Imagine(body, fetch, parse, poll);
      HasQuery(body) && fetch(SubmissionFor(body.inputQuery.value)).FetchFailed? ==>
        x.response == HttpResponse(500, ErrorStack(fetch(SubmissionFor(body.inputQuery.value)).message)) &&
        SubmittedOnly(x, SubmissionFor(body.inputQuery.value))
    ensures var x := Imagine(body, fetch, parse, poll);
      StatusPassed(body, fetch) && parse(fetch(SubmissionFor(body.inputQuery.value)).raw) == Some(NullDocument) ==>
        x.response == HttpResponse(500, ErrorStack(NullTaskUrlMessage)) &&
        SubmittedOnly(x, SubmissionFor(body.inputQuery.value))
  {
  }

  /** A falsy `inputQuery` (absent or "") is answered 400 and nothing is sent upstream. */
  lemma MissingQueryRejected(body: RequestBody, fetch: Submission -> FetchResult, parse: string -> Option<Document>,
                             poll: string -> nat -> PollResponse)
    requires body.Body? && (body.inputQuery.None? || body.inputQuery.value == "")
    ensures var x := Imagine(body, fetch, parse, poll);
      x.response == HttpResponse(400, Error(MissingQuery)) && NoUpstreamCall(x)
  {
  }

  /** Check 1: a non-ok status decides the answer, whatever the body: 502 naming the status, with the raw body. */
  lemma BadStatusRejected(body: RequestBody, fetch: Submission -> FetchResult, parse: string -> Option<Document>,
                          poll: string -> nat -> PollResponse)
    requires HasQuery(body)
    requires var r := fetch(SubmissionFor(body.inputQuery.value)); r.Fetched? && !IsOk(r.status)
    ensures var r := fetch(SubmissionFor(body.inputQuery.value));
      var x := Imagine(body, fetch, parse, poll);
      x.response == HttpResponse(502, ErrorBody(StatusError(r.status, r.statusText), r.raw)) &&
      SubmittedOnly(x, SubmissionFor(body.inputQuery.value)) &&
      DecimalValue(x.response.payload.error[|StatusPrefix|..|StatusPrefix| + |Decimal(r.status)|]) == r.status
  {
    var r := fetch(SubmissionFor(body.inputQuery.value));
    StatusErrorNamesStatus(r.status, r.statusText);
  }

  /** Check 2: after an ok status, a body that does not parse is answered 502 with the raw body. */
  lemma InvalidJsonRejected(body: RequestBody, fetch: Submission -> FetchResult, parse: string -> Option<Document>,
                            poll: string -> nat -> PollResponse)
    requires StatusPassed(body, fetch)
    requires parse(fetch(SubmissionFor(body.inputQuery.value)).raw).None?
    ensures var r := fetch(SubmissionFor(body.inputQuery.value));
      var x := Imagine(body, fetch, parse, poll);
      x.response == HttpResponse(502, ErrorBody(InvalidJson, r.raw)) &&
      SubmittedOnly(x, SubmissionFor(body.inputQuery.value))
  {
  }

  /** Check 3: parsed JSON whose `task_url` is falsy is answered 502 carrying the parsed data. */
  lemma NoTaskUrlRejected(body: RequestBody, fetch: Submission -> FetchResult, parse: string -> Option<Document>,
                          poll: string -> nat -> PollResponse)
    requires StatusPassed(body, fetch)
    requires var p := parse(fetch(SubmissionFor(body.inputQuery.value)).raw);
      p.Some? && p.value.Document? && p.value.taskUrl == ""
    ensures var x := Imagine(body, fetch, parse, poll);
      x.response ==
        HttpResponse(502, ErrorData(NoTaskUrl, parse(fetch(SubmissionFor(body.inputQuery.value)).raw).value)) &&
      SubmittedOnly(x, SubmissionFor(body.inputQuery.value))
  {
  }

  /**
    The checks run in order and polling happens only past all of them: a run that polled had a
    truthy query, an ok status, a body that parsed, and polled exactly that body's `task_url`.
  */
  lemma PollingOnlyAfterAllChecks(body: RequestBody, fetch: Submission -> FetchResult, parse: string -> Option<Document>,
                                  poll: string -> nat -> PollResponse)
    ensures var x := Imagine(body, fetch, parse, poll);
      x.polling.Some? <==>
        StatusPassed(body, fetch) &&
        var p := parse(fetch(SubmissionFor(body.inputQuery.value)).raw);
        p.Some? && p.value.Document? && p.value.taskUrl != "" &&
        x.polling.value.target == p.value.taskUrl
  {
  }

  /** Every 502 comes from one of the three upstream checks, in their order. */
  lemma Status502Cases(body: RequestBody, fetch: Submission -> FetchResult, parse: string -> Option<Document>,
                       poll: string -> nat -> PollResponse)
    ensures var x := Imagine(body, fetch, parse, poll);
      x.response.status == 502 ==>
        HasQuery(body) && SubmittedOnly(x, SubmissionFor(body.inputQuery.value)) &&
        var r := fetch(SubmissionFor(body.inputQuery.value));
        r.Fetched? &&
        (!IsOk(r.status) ==> x.response.payload.ErrorBody? && x.response.payload.error == StatusError(r.status, r.statusText)) &&
        (IsOk(r.status) && parse(r.raw).None? ==> x.response.payload == ErrorBody(InvalidJson, r.raw)) &&
        (IsOk(r.status) && parse(r.raw).Some? ==> x.response.payload == ErrorData(NoTaskUrl, parse(r.raw).value))
  {
  }

  /** If poll k of the task URL is the first ready one, the answer is 200 with that URL after k polls. */
  lemma {:induction false} SucceedsAt(body: RequestBody, fetch: Submission -> FetchResult, parse: string -> Option<Document>,
                   poll: string -> nat -> PollResponse, taskUrl: string, k: nat)
    requires StatusPassed(body, fetch)
    requires var p := parse(fetch(SubmissionFor(body.inputQuery.value)).raw);
      p.Some? && p.value.Document? && p.value.taskUrl == taskUrl && taskUrl != ""
    requires SettlesAt(poll(taskUrl), DefaultMaxAttempts, k) && IsReady(poll(taskUrl)(k))
    ensures var x := Imagine(body, fetch, parse, poll);
      x.response == HttpResponse(200, ImageUrl(poll(taskUrl)(k).url)) &&
      x.preDelay == PreDelayMs &&
      x.polling == Some(Polling(taskUrl, Session(Ready(poll(taskUrl)(k).url), k, k - 1)))
  {
    ReadyIff(poll(taskUrl), DefaultMaxAttempts, k, poll(taskUrl)(k).url);
  }

  /** Errors thrown by the poll loop reach the client as 500 with their message. */
  lemma {:induction false} PollFailuresAre500(body: RequestBody, fetch: Submission -> FetchResult, parse: string -> Option<Document>,
                           poll: string -> nat -> PollResponse, taskUrl: string)
    requires StatusPassed(body, fetch)
    requires var p := parse(fetch(SubmissionFor(body.inputQuery.value)).raw);
      p.Some? && p.value.Document? && p.value.taskUrl == taskUrl && taskUrl != ""
    ensures var x := Imagine(body, fetch, parse, poll);
      (AllPending(poll(taskUrl), DefaultMaxAttempts) ==>
        x.response == HttpResponse(500, ErrorStack(NotReadyMessage)) &&
        x.polling == Some(Polling(taskUrl, Session(TimedOut, DefaultMaxAttempts, DefaultMaxAttempts)))) &&
      (forall k :: SettlesAt(poll(taskUrl), DefaultMaxAttempts, k) && poll(taskUrl)(k).PollError? ==>
        x.response == HttpResponse(500, ErrorStack(poll(taskUrl)(k).message)))
  {
    TimedOutIff(poll(taskUrl), DefaultMaxAttempts);
    forall k | SettlesAt(poll(taskUrl), DefaultMaxAttempts, k) && poll(taskUrl)(k).PollError?
      ensures Imagine(body, fetch, parse, poll).response == HttpResponse(500, ErrorStack(poll(taskUrl)(k).message))
    {
      PollFailedIff(poll(taskUrl), DefaultMaxAttempts, k, poll(taskUrl)(k).message);
    }
  }

}

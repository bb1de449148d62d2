/**
  The serverless relay (`handler` in backend/api/index.js): only POST is served; the prompt is
  sent to the provider as the `text` query parameter of a GET, the relay waits the fixed
  pre-delay, polls the returned `task_url`, and answers 200 with the image URL. Every failure
  after the method gate is caught and answered with one fixed 500 message.
*/
module ServerlessApi {
  import opened Optional
  import opened Relay
  import opened ImagePoll

  datatype ApiRequest = ApiRequest(httpMethod: string, body: RequestBody)

  /** What the HTTP client's GET to the provider yields: its error, or the parsed body. */
  datatype AxiosReply = AxiosError(message: string) | AxiosData(data: Document)

  const MethodNotAllowed := "Method not allowed"
  const FailedToGenerate := "Failed to generate image."

  /** The GET the relay sends for a prompt: `text` is the prompt, absent when the body has none. */
  function SubmissionFor(inputQuery: Option<string>): Submission {
    Submission("GET", ImageApi, inputQuery)
  }

  /** The 500 answer every caught failure gets. */
  function Failure(submitted: Option<Submission>): Exchange {
    Exchange(HttpResponse(500, Error(FailedToGenerate)), submitted, 0, None)
  }

  /**
    The handler, given the request, the provider's answer to the submission and the oracle
    of poll answers.
  */
  function Handler(req: ApiRequest, get: Submission -> AxiosReply, poll: string -> nat -> PollResponse): (x: Exchange)
    ensures x.response.status == 200 || x.response.status == 405 || x.response.status == 500
    ensures x.response.status == 405 <==> req.httpMethod != "POST"
    ensures req.httpMethod != "POST" ==>
      x.response.payload == Error(MethodNotAllowed) && NoUpstreamCall(x)
    ensures x.response.status == 500 ==> x.response.payload == Error(FailedToGenerate)
    ensures x.response.status == 200 <==> x.response.payload.ImageUrl?
    ensures x.response.status == 200 ==>
      x.preDelay == PreDelayMs && x.polling.Some? &&
      x.polling.value.session.outcome == Ready(x.response.payload.imageUrl)
    ensures x.polling.Some? ==>
      x.preDelay == PreDelayMs && x.polling.value.target != "" &&
      x.polling.value.session.polls <= DefaultMaxAttempts
    ensures req.httpMethod == "POST" && req.body.Body? ==>
      x.submitted == Some(Submission("GET", ImageApi, req.body.inputQuery))
    ensures req.httpMethod == "POST" && req.body.Unreadable? ==>
      x.response == HttpResponse(500, Error(FailedToGenerate)) && NoUpstreamCall(x)
  {
    if req.httpMethod != "POST" then
      Exchange(HttpResponse(405, Error(MethodNotAllowed)), None, 0, None)
    else match req.body
      case Unreadable(_) => Failure(None)
      case Body(inputQuery) =>
        var call := SubmissionFor(inputQuery);
        match get(call)
        case AxiosError(_) => Failure(Some(call))
        case AxiosData(NullDocument) => Failure(Some(call))
        case AxiosData(Document(taskUrl, _)) =>
          if taskUrl == "" then Failure(Some(call))
          else
            var s := Wait(poll(taskUrl), DefaultMaxAttempts);
            WaitCounts(poll(taskUrl), DefaultMaxAttempts);
            var response :=
              if s.outcome.Ready? then HttpResponse(200, ImageUrl(s.outcome.url))
              else HttpResponse(500, Error(FailedToGenerate));
            Exchange(response, Some(call), PreDelayMs, Some(Polling(taskUrl, s)))
  }

  /** The provider accepted the job: the reply to the submission has a truthy `task_url`. */
  predicate Accepted(req: ApiRequest, get: Submission -> AxiosReply, taskUrl: string) {
    req.httpMethod == "POST" && req.body.Body? &&
    var reply := get(SubmissionFor(req.body.inputQuery));
    reply.AxiosData? && reply.data.Document? && reply.data.taskUrl == taskUrl && taskUrl != ""
  }

  /** Without a truthy `task_url` (or when the GET throws) the relay answers the fixed 500 and never waits or polls. */
  lemma NoTaskUrlFails(req: ApiRequest, get: Submission -> AxiosReply, poll: string -> nat -> PollResponse)
    requires req.httpMethod == "POST" && req.body.Body?
    requires var reply := get(SubmissionFor(req.body.inputQuery));
      !(reply.AxiosData? && reply.data.Document? && reply.data.taskUrl != "")
    ensures var x := Handler(req, get, poll);
      x.response == HttpResponse(500, Error(FailedToGenerate)) &&
      SubmittedOnly(x, SubmissionFor(req.body.inputQuery))
  {
  }

  /** If poll k is the first ready one, the answer is 200 with its URL after k polls and k - 1 waits. */
  lemma {:induction false} SucceedsAt(req: ApiRequest, get: Submission -> AxiosReply, poll: string -> nat -> PollResponse,
                   taskUrl: string, k: nat)
    requires Accepted(req, get, taskUrl)
    requires SettlesAt(poll(taskUrl), DefaultMaxAttempts, k) && IsReady(poll(taskUrl)(k))
    ensures var x := Handler(req, get, poll);
      x.response == HttpResponse(200, ImageUrl(poll(taskUrl)(k).url)) &&
      x.polling == Some(Polling(taskUrl, Session(Ready(poll(taskUrl)(k).url), k, k - 1)))
  {
    ReadyIff(poll(taskUrl), DefaultMaxAttempts, k, poll(taskUrl)(k).url);
  }

  /** A failing poll at attempt k ends the loop there and is answered with the fixed 500. */
  lemma {:induction false} PollErrorFails(req: ApiRequest, get: Submission -> AxiosReply, poll: string -> nat -> PollResponse,
                       taskUrl: string, k: nat)
    requires Accepted(req, get, taskUrl)
    requires SettlesAt(poll(taskUrl), DefaultMaxAttempts, k) && poll(taskUrl)(k).PollError?
    ensures var x := Handler(req, get, poll);
      x.response == HttpResponse(500, Error(FailedToGenerate)) &&
      x.preDelay == PreDelayMs &&
      x.polling == Some(Polling(taskUrl, Session(PollFailed(poll(taskUrl)(k).message), k, k - 1)))
  {
    PollFailedIff(poll(taskUrl), DefaultMaxAttempts, k, poll(taskUrl)(k).message);
  }

  /** Ten pending polls: the fixed 500, after exactly ten polls and ten waits. */
  lemma {:induction false} TimeoutFails(req: ApiRequest, get: Submission -> AxiosReply, poll: string -> nat -> PollResponse,
                     taskUrl: string)
    requires Accepted(req, get, taskUrl)
    requires AllPending(poll(taskUrl), DefaultMaxAttempts)
    ensures var x := Handler(req, get, poll);
      x.response == HttpResponse(500, Error(FailedToGenerate)) &&
      x.polling == Some(Polling(taskUrl, Session(TimedOut, DefaultMaxAttempts, DefaultMaxAttempts)))
  {
    TimedOutIff(poll(taskUrl), DefaultMaxAttempts);
  }

}

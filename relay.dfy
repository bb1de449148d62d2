/**
  What the two backend relays have in common: the JSON responses they send back, the request
  they send to the image provider, and a record of what they did upstream.
*/
module Relay {
  import opened Optional
  import ImagePoll

  /** The provider's generation endpoint both relays call. */
  const ImageApi := "https://api.paxsenix.biz.id/ai-image/gptimage1"

  /** The fixed pre-delay, in milliseconds, before the first poll. */
  const PreDelayMs: nat := 60000

  /**
    A parsed provider body: JSON `null`, or any other value, given by its `task_url` field
    ("" when that field is absent or falsy) and `rest`, an abstract rendering of everything
    else in the value, so that a value echoed back is the whole value and not just `task_url`.
  */
  datatype Document = NullDocument | Document(taskUrl: string, rest: string)

  /** The JSON objects the relays answer with. */
  datatype Payload =
    | ImageUrl(imageUrl: string)                    // { image_url }
    | Error(error: string)                          // { error }
    | ErrorBody(error: string, body: string)        // { error, body: raw }
    | ErrorData(error: string, data: Document)      // { error, data }
    | ErrorStack(error: string)                     // { error: err.message, stack }

  datatype HttpResponse = HttpResponse(status: int, payload: Payload)

  /**
    The request body as the relay reads it: `Unreadable` when reading `inputQuery` out of it
    throws (no body, a body that is not JSON, or JSON `null`), with that error's message.
  */
  datatype RequestBody = Unreadable(message: string) | Body(inputQuery: Option<string>)

  /** The one submission request sent to the provider: HTTP method, URL and the `text` prompt. */
  datatype Submission = Submission(httpMethod: string, url: string, text: Option<string>)

  /** The poll loop a relay ran: the URL it polled and what happened. */
  datatype Polling = Polling(target: string, session: ImagePoll.Session)

  /**
    One handled request: the response, the submission sent upstream (if any), the pre-delay
    waited (0 or `PreDelayMs`) and the poll loop run (if any).
  */
  datatype Exchange = Exchange(
    response: HttpResponse,
    submitted: Option<Submission>,
    preDelay: nat,
    polling: Option<Polling>)

  /** Nothing was sent to the provider and nothing was awaited. */
  predicate NoUpstreamCall(x: Exchange) {
    x.submitted.None? && x.preDelay == 0 && x.polling.None?
  }

  /** The submission was sent, and the relay stopped before waiting or polling. */
  predicate SubmittedOnly(x: Exchange, call: Submission) {
    x.submitted == Some(call) && x.preDelay == 0 && x.polling.None?
  }

}

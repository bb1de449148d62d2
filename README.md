# Image generator relay: a Dafny model of its decision logic

The system turns a text prompt into a generated image URL. A chat front end posts the prompt
to a relay; the relay submits a generation job to a third-party image provider, waits a fixed
pre-delay, then polls the job's `task_url` until the provider says the image is ready or the
attempt budget runs out, and answers with the image URL. There are two relay variants: a
serverless `handler` (GET submission, one fixed 500 message for every failure) and a Hono
`/imagine` route (POST submission, an ordered chain of checks answered 400 / 502 / 500).

The model treats every network call, timer and JSON parse as an abstract input:

- the provider's answers to polls are an oracle `poll(url)(n)`: what the n-th GET of `url`
  yields — a parsed body `Resp(ok, url)`, or `PollError(message)` for anything the attempt throws
  (the HTTP client's error, or the runtime's error when the body is JSON `null`);
- the answer to the submission is an oracle from the request sent (so the model records that
  request) to the provider's reply;
- `JSON.parse` is a partial function `parse: string -> Option<Document>`;
- the POST from the front end is an oracle `post: string -> ApiResult`.

Files and modules:

- `option.dfy` — `Optional`: the `Option` datatype.
- `image_poll.dfy` — `ImagePoll`: the poll loop `waitForImage` as a method with a `while` loop
  and ghost counters of polls and waits, the reference function `Wait` it is proved against,
  and the lemmas that say what `Wait` means: first-ready result, immediate end on a failing
  poll, timeout after exactly the budget, wait counts, and that nothing after the last poll matters.
- `relay.dfy` — `Relay`: responses and payloads shared by both relays, and `Exchange`, the
  record of one handled request (response, submission sent, pre-delay waited, poll loop run).
- `serverless_api.dfy` — `ServerlessApi`: the serverless `handler` as a pure classifier.
- `imagine_route.dfy` — `ImagineRoute`: the Hono `/imagine` route as a pure classifier, with
  the ordering of its checks. That file calls `waitForImage` without defining it; the model
  uses the same `ImagePoll.Wait` with the default budget of 10 attempts.
- `chat_app.dfy` — `ChatApp`: the front end's state (`messages`, `inputQuery`, `isLoading`) as a
  class whose methods are the handlers, plus the render rule and the button's disabled rule.

Behaviour of the code that a reader might expect to be otherwise, and that the model keeps:

- A failing poll (the HTTP client throws) ends the loop at once with that error; this is not
  a loop that treats a failing GET as pending and tries again (`waitForImage` has no `try`,
  see `ImagePoll.PollFailedIff`).
- Readiness is the truthiness of `data.ok && data.url`; nothing checks that the URL is an
  HTTP(S) URL, so a 200 answer may carry any non-empty string.
- The serverless relay answers every submission failure with 500; only the Hono route uses 502.
- A whitespace-only prompt is not rejected: the Hono route tests only truthiness, and the front
  end's Enter key sends it although the button is disabled (`ChatApp.WhitespaceQueryPassesGuard`).

## Model

| member | source | states |
|---|---|---|
| `ImagePoll.WaitForImage` | backend/api/index.js:3-14 | the loop's outcome, poll count and wait count are those of `Wait` on the task URL's answers; polls never exceed the budget; on timeout polls and waits both equal the budget |
| `ImagePoll.WaitFromSound` | backend/api/index.js:4-12 | a run from any attempt on either settles at an attempt within the budget whose answer is not pending, all earlier ones pending, with one wait fewer than polls; or times out having seen only pending answers, with polls equal to waits |
| `ImagePoll.WaitCounts` | backend/api/index.js:4-13 | polls are at most `maxAttempts` (none when it is not positive); a timeout makes exactly `maxAttempts` polls and as many waits; a run that settles makes at least one poll and one wait fewer |
| `ImagePoll.SettlesIff` | backend/api/index.js:4-10 | the run ends before the budget with k polls exactly when answer k is the first that is ready or failing, and then the outcome is what answer k says, after k - 1 waits |
| `ImagePoll.ReadyIff` | backend/api/index.js:8-9 | the result is URL u after k polls exactly when answer k is the first settled one, is ready (`ok` and non-empty `url`) and carries u; then k - 1 waits occurred |
| `ImagePoll.PollFailedIff` | backend/api/index.js:5 | the loop throws the poll error m after k polls exactly when poll k is the first settled answer and it is that error: no retry after a failing GET |
| `ImagePoll.TimedOutIff` | backend/api/index.js:4-13 | the loop throws "not ready in time" exactly when every answer within the budget is pending, and then after `maxAttempts` polls and waits (zero of each when `maxAttempts` is not positive) |
| `ImagePoll.WaitFromLocal` | backend/api/index.js:4-12 | two answer oracles agreeing on the attempts a run looked at give the same run, from any starting attempt |
| `ImagePoll.OnlyPolledResponsesMatter` | backend/api/index.js:4-12 | answers after the last poll made do not influence the outcome or the counts: nothing is polled after the end |
| `ImagePoll.LargerBudgetSameResult` | backend/api/index.js:4 | a run that settled within a budget settles identically under any larger budget |
| `ImagePoll.Settled` | backend/api/index.js:5-9 | a non-pending answer ends the loop with a URL exactly when it is ready, and never with a timeout |
| `ServerlessApi.Handler` | backend/api/index.js:16-46 | status is 200, 405 or 500; 405 exactly for a non-POST method, with "Method not allowed" and no upstream call; every 500 carries "Failed to generate image."; a POST whose body cannot be read gets that 500 with no upstream call; 200 carries the loop's ready URL after the pre-delay; a POST with a body sends exactly one GET of the provider's endpoint with `text` set to the request's `inputQuery`; at most 10 polls |
| `ServerlessApi.NoTaskUrlFails` | backend/api/index.js:25-34 | a throwing submission, a null body or a falsy `task_url` gives the fixed 500 with the submission sent and no wait or poll |
| `ServerlessApi.SucceedsAt` | backend/api/index.js:36-42 | if poll k of `task_url` is the first ready answer, the answer is 200 `{image_url}` with that URL, after k polls and k - 1 waits |
| `ServerlessApi.PollErrorFails` | backend/api/index.js:38-45 | a failing poll at attempt k gives the fixed 500 after the pre-delay, exactly k polls and k - 1 waits |
| `ServerlessApi.TimeoutFails` | backend/api/index.js:38-45 | ten pending polls give the fixed 500 after exactly 10 polls and 10 waits |
| `ImagineRoute.DigitChar` | backend/src/index.js:35 | the character written for a digit is a decimal digit of that value |
| `ImagineRoute.Decimal` | backend/src/index.js:35 | a status is written as non-empty decimal digits with no leading zero |
| `ImagineRoute.DecimalRoundTrip` | backend/src/index.js:35 | reading the written digits back gives the status |
| `ImagineRoute.StatusErrorNamesStatus` | backend/src/index.js:35 | the 502 error text starts with "Image API failed: HTTP " followed by the status's digits, which end at the next space and whose value is the status |
| `ImagineRoute.Imagine` | backend/src/index.js:7-61 | status is 200, 400, 500 or 502; 400 carries the missing-query error with no upstream call; a 500, and only a 500, carries a thrown error's message; 200 carries the ready URL of the loop that ran; polling happens only after the pre-delay and within 10 polls; a submission is sent exactly when the query is truthy, and it is a POST to the provider's endpoint with body `{text: inputQuery}` |
| `ImagineRoute.ThrownIs500` | backend/src/index.js:7-61 | an unreadable request body, a throwing `fetch` or `res.text()`, and a JSON `null` provider body are each answered 500 with that error's message, with nothing sent in the first case, the submission only in the others, and no wait or poll |
| `ImagineRoute.MissingQueryRejected` | backend/src/index.js:10-13 | an absent or empty `inputQuery` gives 400 "Missing inputQuery in request body" and nothing is sent, awaited or polled |
| `ImagineRoute.BadStatusRejected` | backend/src/index.js:32-38 | a non-2xx status gives 502 with an error text naming the status and the raw body, whatever the body is, and stops before waiting or polling |
| `ImagineRoute.InvalidJsonRejected` | backend/src/index.js:40-45 | after an ok status, an unparsable body gives 502 "Invalid JSON from image API" with the raw body, and no wait or poll |
| `ImagineRoute.NoTaskUrlRejected` | backend/src/index.js:47-49 | parsed JSON with a falsy `task_url` gives 502 "No task_url in image API response" carrying the whole parsed value (its `task_url` and the rest of it), and no wait or poll |
| `ImagineRoute.PollingOnlyAfterAllChecks` | backend/src/index.js:32-53 | the poll loop runs exactly when the query is present, the status ok, the body parses to a value with a truthy `task_url`, and it polls that `task_url` |
| `ImagineRoute.Status502Cases` | backend/src/index.js:32-49 | every 502 comes after a submission that returned, and is decided by the first failing check in the order status, parse, `task_url` |
| `ImagineRoute.SucceedsAt` | backend/src/index.js:52-54 | if poll k of `task_url` is the first ready answer, the answer is 200 `{image_url}` with that URL after the pre-delay, k polls and k - 1 waits |
| `ImagineRoute.PollFailuresAre500` | backend/src/index.js:53-61 | a timeout gives 500 "Image was not ready in time." after 10 polls and waits; a failing poll gives 500 with that poll error's message |
| `ChatApp.ErrorContent` | frontend/src/App.jsx:48-50 | the error text is "An error occurred: " followed by the error's message, or "Unknown error" when it has none |
| `ChatApp.TrimStart` | frontend/src/App.jsx:131 | leading white space is removed: a suffix of the input, all removed characters white space, the rest starting with a non-white-space character |
| `ChatApp.TrimEnd` | frontend/src/App.jsx:131 | trailing white space is removed: a prefix of the input, all removed characters white space, the rest ending with a non-white-space character |
| `ChatApp.TrimEmptyIff` | frontend/src/App.jsx:131 | `inputQuery.trim()` is empty exactly when every character is white space |
| `ChatApp.GuardImpliesDisabled` | frontend/src/App.jsx:10-12 | whenever the handler's guard refuses, the button is disabled too |
| `ChatApp.WhitespaceQueryPassesGuard` | frontend/src/App.jsx:58-61 | a non-empty white-space-only query disables the button yet passes the guard, so Enter sends it |
| `ChatApp.WithLastContent` | frontend/src/App.jsx:39-44 | the copy keeps its length and every message but the last; the last keeps its role and gets the new content |
| `ChatApp.ResultRendering` | frontend/src/App.jsx:98 | the filled-in answer renders as an image exactly when the request succeeded with a URL starting with "http"; an error text never does |
| `ChatApp.ImagesOnlyFromAnswers` | frontend/src/App.jsx:87 | a user message or the placeholder never renders as an image |
| `ChatApp.Chat.constructor` | frontend/src/App.jsx:5-7 | the state starts with no messages, an empty box and not loading |
| `ChatApp.Chat.ChangeInput` | frontend/src/App.jsx:123-126 | typing sets the box's text unless loading (the box is disabled then); nothing else changes |
| `ChatApp.Chat.BeginSend` | frontend/src/App.jsx:10-28 | an empty box or a request in flight changes nothing; otherwise the user message and the placeholder are appended, the box is cleared, loading is set, and the typed prompt is the one to post |
| `ChatApp.Chat.FinishSend` | frontend/src/App.jsx:39-55 | runs while loading; the message it overwrites is the placeholder; only the last message's content changes, to the image URL or the error text; loading is cleared; the box is unchanged |
| `ChatApp.Chat.HandleSendQuery` | frontend/src/App.jsx:9-56 | either no state changes, or the list grows by exactly the user message and its filled-in answer (the earlier messages unchanged), the box is empty and loading is off; the prompt posted is the one typed before the box was cleared |
| `ChatApp.Chat.HandleInputKeyPress` | frontend/src/App.jsx:58-63 | Enter runs the send handler, any other key changes nothing |

## Left out

- Network calls (`fetch`, the HTTP client's GET and POST) are oracles; their transport, headers and the URL query encoding are not modelled.
- Timers: the interval between polls and the 60-second pre-delay are not timed. Each wait is counted (`Session.waits`), the pre-delay is recorded as `Exchange.preDelay`; the `interval` parameter of `waitForImage` therefore has no counterpart.
- `JSON.parse` and the request-body parsers are abstract; a body or value from which reading `inputQuery` or `task_url` throws is one case (`Unreadable`, `NullDocument`). A parsed provider value is its `task_url` plus an abstract `rest` standing for all its other fields; their JSON structure is not modelled.
- JavaScript truthiness is modelled for strings only: an absent or falsy `inputQuery`, `task_url` or `url` is the empty string or `None`; non-string values (numbers, objects) in those fields are not modelled.
- The 500 answer of the Hono route carries `err.stack`; the stack text is not modelled.
- CORS headers, console logging and the undefined `app` binding of the Hono file.
- React rendering, CSS classes, and `useState`'s deferred updates: the updaters are applied in order as direct state changes. The message object that `newMessages[length - 1].content = …` mutates in place is shared with the previous array; the model works on message values, so that aliasing is not captured.
- `ChatApp.Chat.FinishSend`: requires a request in flight (`isLoading`), the only state in which the source's updaters run; the empty list, on which they would throw, is therefore not modelled.
- `handleSendQuery` is asynchronous; the model splits it into `BeginSend` and `FinishSend` and does not model interleavings of several sends or of typing in between beyond what `ChangeInput` allows.
- server.js: one fire-and-forget chat-completion request that prints its answer; no decision logic.
- Serving many requests concurrently; each request is modelled as one independent function application, so no state is shared between requests.

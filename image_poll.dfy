/**
  The poll loop `waitForImage`: after a generation job has been submitted, GET the job's
  task URL once per attempt until a response says the image is ready, and give up after
  `maxAttempts` attempts.

  The provider is an oracle: `poll(url)(n)` is what the n-th GET of `url` yields, either the
  parsed body (`ok` flag and `url` field) or the error that the HTTP client throws. Waiting is
  not timed; each wait is counted.
*/
module ImagePoll {

  /**
    The answer to one GET of the task URL. `url` is "" when the field is absent or falsy.
    `PollError` is anything the attempt throws: the HTTP client's error, or the runtime's error
    when the body is JSON `null` and `data.ok` is read from it.
  */
  datatype PollResponse = Resp(ok: bool, url: string) | PollError(message: string)

  /** The whole result of one run of the loop: the image URL, or what it throws. */
  datatype WaitOutcome = Ready(url: string) | PollFailed(message: string) | TimedOut

  /** An outcome together with the number of GETs made and of waits performed. */
  datatype Session = Session(outcome: WaitOutcome, polls: nat, waits: nat)

  /** The message of the error thrown when every attempt came back not ready. */
  const NotReadyMessage := "Image was not ready in time."

  /** The attempt ceiling both handlers use (the parameter's default). */
  const DefaultMaxAttempts := 10

  /** `data.ok && data.url` is truthy. */
  predicate IsReady(p: PollResponse) {
    p.Resp? && p.ok && p.url != ""
  }

  /** A response after which the loop waits and tries again. */
  predicate IsPending(p: PollResponse) {
    p.Resp? && !(p.ok && p.url != "")
  }

  /** The outcome a response ends the loop with, for a response that is not pending. */
  function Settled(p: PollResponse): (o: WaitOutcome)
    requires !IsPending(p)
    ensures o.Ready? <==> IsReady(p)
    ensures !o.TimedOut?
  {
    match p
    case Resp(_, url) => Ready(url)
    case PollError(m) => PollFailed(m)
  }

  /** The message a failed outcome throws. */
  function ThrownMessage(o: WaitOutcome): string
    requires !o.Ready?
  {
    match o
    case PollFailed(m) => m
    case TimedOut => NotReadyMessage
  }

  /**
    Reference definition of the loop, from attempt `attempt` on. Counts are absolute: a run
    that ends at attempt k made k polls; a run that ran out made `attempt - 1` polls.
  */
  function WaitFrom(poll: nat -> PollResponse, maxAttempts: int, attempt: nat): Session
    requires 1 <= attempt
    decreases if attempt <= maxAttempts then maxAttempts - attempt + 1 else 0
  {
    if attempt > maxAttempts then Session(TimedOut, attempt - 1, attempt - 1)
    else if IsPending(poll(attempt)) then WaitFrom(poll, maxAttempts, attempt + 1)
    else Session(Settled(poll(attempt)), attempt, attempt - 1)
  }

  /** What one call `waitForImage(task_url, interval, maxAttempts)` does. */
  function Wait(poll: nat -> PollResponse, maxAttempts: int): Session {
    WaitFrom(poll, maxAttempts, 1)
  }

  /** Attempt k is the first response that is not pending, and it is within the budget. */
  ghost predicate SettlesAt(poll: nat -> PollResponse, maxAttempts: int, k: nat) {
    1 <= k <= maxAttempts && !IsPending(poll(k)) &&
    forall j :: 1 <= j < k ==> IsPending(poll(j))
  }

  /** Every response within the budget is pending. */
  ghost predicate AllPending(poll: nat -> PollResponse, maxAttempts: int) {
    forall j :: 1 <= j <= maxAttempts ==> IsPending(poll(j))
  }

  /** The number of attempts the budget allows: `maxAttempts`, or none when it is not positive. */
  function Budget(maxAttempts: int): nat {
    if maxAttempts > 0 then maxAttempts else 0
  }

  /** What a run from `attempt` on says about the responses it looked at. */
  lemma {:induction false} WaitFromSound(poll: nat -> PollResponse, maxAttempts: int, attempt: nat)
    requires 1 <= attempt
    ensures var s := WaitFrom(poll, maxAttempts, attempt);
      attempt - 1 <= s.polls &&
      (s.outcome.TimedOut? ==>
        s.polls == s.waits &&
        s.polls == (if attempt - 1 < maxAttempts then maxAttempts else attempt - 1) &&
        forall j :: attempt <= j <= maxAttempts ==> IsPending(poll(j))) &&
      (!s.outcome.TimedOut? ==>
        attempt <= s.polls <= maxAttempts && s.waits == s.polls - 1 &&
        !IsPending(poll(s.polls)) && s.outcome == Settled(poll(s.polls)) &&
        forall j :: attempt <= j < s.polls ==> IsPending(poll(j)))
    decreases if attempt <= maxAttempts then maxAttempts - attempt + 1 else 0
  {
    if attempt <= maxAttempts && IsPending(poll(attempt)) {
      WaitFromSound(poll, maxAttempts, attempt + 1);
    }
  }

  /** Never more polls than the budget; one wait after every pending poll, the last one included. */
  lemma WaitCounts(poll: nat -> PollResponse, maxAttempts: int)
    ensures var s := Wait(poll, maxAttempts);
      s.polls <= Budget(maxAttempts) &&
      (s.outcome.TimedOut? ==> s.polls == Budget(maxAttempts) && s.waits == s.polls) &&
      (!s.outcome.TimedOut? ==> 1 <= s.polls && s.waits == s.polls - 1)
  {
    WaitFromSound(poll, maxAttempts, 1);
  }

  /** The loop stops at the first response that is not pending, and says what that response says. */
  lemma SettlesIff(poll: nat -> PollResponse, maxAttempts: int, k: nat)
    ensures var s := Wait(poll, maxAttempts);
      (!s.outcome.TimedOut? && s.polls == k) <==> SettlesAt(poll, maxAttempts, k)
    ensures var s := Wait(poll, maxAttempts);
      SettlesAt(poll, maxAttempts, k) ==> s.outcome == Settled(poll(k)) && s.waits == k - 1
  {
    WaitFromSound(poll, maxAttempts, 1);
    var s := Wait(poll, maxAttempts);
    if SettlesAt(poll, maxAttempts, k) {
      assert s.outcome.TimedOut? ==> IsPending(poll(k));
      assert !s.outcome.TimedOut? && s.polls < k ==> IsPending(poll(s.polls));
      assert !s.outcome.TimedOut? && s.polls > k ==> IsPending(poll(k));
    }
  }

  /** Success at attempt k, in both directions: the k-th response is the first ready one. */
  lemma ReadyIff(poll: nat -> PollResponse, maxAttempts: int, k: nat, u: string)
    ensures var s := Wait(poll, maxAttempts);
      (s.outcome == Ready(u) && s.polls == k) <==>
      (SettlesAt(poll, maxAttempts, k) && IsReady(poll(k)) && poll(k).url == u)
    ensures var s := Wait(poll, maxAttempts);
      s.outcome == Ready(u) && s.polls == k ==> s.waits == k - 1
  {
    SettlesIff(poll, maxAttempts, k);
  }

  /** A failing GET ends the loop at once: the error propagates, there is no retry. */
  lemma PollFailedIff(poll: nat -> PollResponse, maxAttempts: int, k: nat, m: string)
    ensures var s := Wait(poll, maxAttempts);
      (s.outcome == PollFailed(m) && s.polls == k) <==>
      (SettlesAt(poll, maxAttempts, k) && poll(k) == PollError(m))
  {
    SettlesIff(poll, maxAttempts, k);
  }

  /** The loop times out exactly when no response within the budget is ready or failing. */
  lemma TimedOutIff(poll: nat -> PollResponse, maxAttempts: int)
    ensures Wait(poll, maxAttempts).outcome.TimedOut? <==> AllPending(poll, maxAttempts)
    ensures AllPending(poll, maxAttempts) ==>
      Wait(poll, maxAttempts) == Session(TimedOut, Budget(maxAttempts), Budget(maxAttempts))
  {
    WaitFromSound(poll, maxAttempts, 1);
    var s := Wait(poll, maxAttempts);
    assert AllPending(poll, maxAttempts) && !s.outcome.TimedOut? ==> IsPending(poll(s.polls));
  }

  /** Responses after the last one the loop looked at make no difference: nothing is polled after the end. */
  lemma {:induction false} WaitFromLocal(p: nat -> PollResponse, q: nat -> PollResponse, maxAttempts: int, attempt: nat)
    requires 1 <= attempt
    requires forall j :: attempt <= j <= WaitFrom(p, maxAttempts, attempt).polls ==> p(j) == q(j)
    ensures WaitFrom(q, maxAttempts, attempt) == WaitFrom(p, maxAttempts, attempt)
    decreases if attempt <= maxAttempts then maxAttempts - attempt + 1 else 0
  {
    if attempt <= maxAttempts {
      WaitFromSound(p, maxAttempts, attempt);
      assert p(attempt) == q(attempt);
      if IsPending(p(attempt)) {
        WaitFromLocal(p, q, maxAttempts, attempt + 1);
      }
    }
  }

  /** Two oracles that agree on the polls actually made give the same run. */
  lemma OnlyPolledResponsesMatter(p: nat -> PollResponse, q: nat -> PollResponse, maxAttempts: int)
    requires forall j :: 1 <= j <= Wait(p, maxAttempts).polls ==> p(j) == q(j)
    ensures Wait(q, maxAttempts) == Wait(p, maxAttempts)
  {
    WaitFromLocal(p, q, maxAttempts, 1);
  }

  /** A run that settled within a budget settles in the same way under any larger budget. */
  lemma LargerBudgetSameResult(poll: nat -> PollResponse, maxAttempts: int, larger: int)
    requires maxAttempts <= larger
    requires !Wait(poll, maxAttempts).outcome.TimedOut?
    ensures Wait(poll, larger) == Wait(poll, maxAttempts)
  {
    var k := Wait(poll, maxAttempts).polls;
    SettlesIff(poll, maxAttempts, k);
    SettlesIff(poll, larger, k);
    WaitCounts(poll, larger);
  }

  /**
    The loop of `waitForImage`: attempt 1 up to `maxAttempts`, one GET per attempt, return the
    URL of the first ready response, let a failing GET's error escape, wait after every other
    response, and throw once the budget is spent.
  */
  method WaitForImage(taskUrl: string, poll: string -> nat -> PollResponse, maxAttempts: int)
    returns (outcome: WaitOutcome, ghost polls: nat, ghost waits: nat)
    ensures outcome == Wait(poll(taskUrl), maxAttempts).outcome
    ensures polls == Wait(poll(taskUrl), maxAttempts).polls && waits == Wait(poll(taskUrl), maxAttempts).waits
    ensures polls <= Budget(maxAttempts)
    ensures outcome.TimedOut? ==> polls == waits == Budget(maxAttempts)
  {
    ghost var responses := poll(taskUrl);
    polls, waits := 0, 0;
    var attempt := 1;
    while attempt <= maxAttempts
      invariant 1 <= attempt
      invariant maxAttempts >= 0 ==> attempt <= maxAttempts + 1
      invariant polls == waits == attempt - 1
      invariant WaitFrom(responses, maxAttempts, attempt) == Wait(responses, maxAttempts)
      decreases maxAttempts - attempt
    {
      var response := poll(taskUrl)(attempt);
      polls := polls + 1;
      match response {
        case PollError(m) =>
          outcome := PollFailed(m);
          WaitCounts(responses, maxAttempts);
          return;
        case Resp(ok, url) =>
          if ok && url != "" {
            outcome := Ready(url);
            WaitCounts(responses, maxAttempts);
            return;
          }
      }
      waits := waits + 1;
      attempt := attempt + 1;
    }
    outcome := TimedOut;
    WaitCounts(responses, maxAttempts);
  }

}

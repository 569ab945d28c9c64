/** The retry executor `do` (pagerduty/pagerduty.go:299-328): up to
    `MaxTries + 1` tries of the same request, a fixed sleep after every
    retryable failure, and an immediate return on the first error that is not
    retryable. The 30-second sleep is counted, not performed. */
module Retry {
  import opened Wrappers
  import opened Http
  import Classify

  /** The number of retries allowed after the first try (`maxtries`). */
  const MaxTries: nat := 4

  /** What a call of the executor returns, together with how many tries it
      made and how many times it slept. */
  datatype Outcome = Outcome(result: Result<Response, Error>, tries: nat, sleeps: nat)

  /** Try number `k` of the request against the given server behaviour. */
  function Try(req: Request, target: Target, server: nat -> Attempt, k: nat): TryResult
  {
    Classify.DoRetry(req, server(k), target, k)
  }

  /** A try that ends the call: a success or an error that is not retryable. */
  predicate Decisive(t: TryResult)
  {
    t.Done? || !t.retry
  }

  /** The first decisive try at or after `from` within the budget, if any. */
  function FirstDecisive(req: Request, target: Target, server: nat -> Attempt, from: nat): (r: Option<nat>)
    requires from <= MaxTries + 1
    ensures r.Some? ==> from <= r.value <= MaxTries && Decisive(Try(req, target, server, r.value))
    ensures forall j :: from <= j <= MaxTries && (r.None? || j < r.value) ==> !Decisive(Try(req, target, server, j))
    decreases MaxTries + 1 - from
  {
    if from > MaxTries then None
    else if Decisive(Try(req, target, server, from)) then Some(from)
    else FirstDecisive(req, target, server, from + 1)
  }

  /** The outcome of a call, defined by its first decisive try: that try's
      response or its error wrapped as non-retryable, after one sleep per
      earlier try; or, when no try within the budget is decisive, the last
      error wrapped as retries exhausted, after a sleep following every try. */
  function Run(req: Request, target: Target, server: nat -> Attempt): (o: Outcome)
    ensures 1 <= o.tries <= MaxTries + 1
    ensures forall j :: 0 <= j < o.tries - 1 ==> Try(req, target, server, j).Failed? && Try(req, target, server, j).retry
    ensures o.result.Success? ==> o.result.value.request == req
    ensures o.result.Success? ==>
              o.sleeps == o.tries - 1 && Try(req, target, server, o.tries - 1) == Done(o.result.value)
    ensures o.result.Failure? && o.result.error.NonRetryableApi? ==>
              o.sleeps == o.tries - 1 && Try(req, target, server, o.tries - 1) == Failed(o.result.error.cause, false)
    ensures o.result.Failure? ==> o.result.error.NonRetryableApi? || o.result.error.RetriesExhausted?
    ensures o.result.Failure? && o.result.error.RetriesExhausted? ==>
              && o.sleeps == o.tries == MaxTries + 1
              && Try(req, target, server, MaxTries) == Failed(o.result.error.last, true)
              && o.result.error.retries == MaxTries
  {
    match FirstDecisive(req, target, server, 0)
    case None =>
      Outcome(Failure(RetriesExhausted(Try(req, target, server, MaxTries).err, MaxTries)), MaxTries + 1, MaxTries + 1)
    case Some(k) =>
      var t := Try(req, target, server, k);
      if t.Done? then Outcome(Success(t.response), k + 1, k)
      else Outcome(Failure(NonRetryableApi(t.err)), k + 1, k)
  }

  /** If tries before `k` are retryable failures and try `k` is decisive, the
      first decisive try from `from` is `k`. */
  lemma {:induction false} FirstDecisiveIs(req: Request, target: Target, server: nat -> Attempt, from: nat, k: nat)
    requires from <= k <= MaxTries
    requires forall j :: from <= j < k ==> !Decisive(Try(req, target, server, j))
    requires Decisive(Try(req, target, server, k))
    ensures FirstDecisive(req, target, server, from) == Some(k)
    decreases k - from
  {
    if from < k {
      FirstDecisiveIs(req, target, server, from + 1, k);
    }
  }

  /** With no decisive try from `from` on, there is no first decisive try. */
  lemma {:induction false} FirstDecisiveNone(req: Request, target: Target, server: nat -> Attempt, from: nat)
    requires from <= MaxTries + 1
    requires forall j :: from <= j <= MaxTries ==> !Decisive(Try(req, target, server, j))
    ensures FirstDecisive(req, target, server, from) == None
    decreases MaxTries + 1 - from
  {
    if from <= MaxTries {
      FirstDecisiveNone(req, target, server, from + 1);
    }
  }

  /** The executor: the loop of `do`, returning the call's result together
      with the number of tries made and of sleeps taken. */
  method Do(req: Request, target: Target, server: nat -> Attempt) returns (result: Result<Response, Error>, tries: nat, sleeps: nat)
    ensures Outcome(result, tries, sleeps) == Run(req, target, server)
  {
    var trynum: nat := 0;
    // the error of the latest try, once a try has failed retryably
    var last: Option<Error> := None;
    sleeps := 0;
    while trynum <= MaxTries
      invariant trynum <= MaxTries + 1
      invariant sleeps == trynum
      invariant forall j :: 0 <= j < trynum ==> !Decisive(Try(req, target, server, j))
      invariant trynum > 0 ==> last.Some? && Try(req, target, server, trynum - 1) == Failed(last.value, true)
    {
      var t := Classify.DoRetry(req, server(trynum), target, trynum);
      if t.Done? {
        FirstDecisiveIs(req, target, server, 0, trynum);
        result := Success(t.response);
        tries := trynum + 1;
        return;
      }
      if !t.retry {
        FirstDecisiveIs(req, target, server, 0, trynum);
        result := Failure(NonRetryableApi(t.err));
        tries := trynum + 1;
        return;
      }
      last := Some(t.err);
      sleeps := sleeps + 1;
      trynum := trynum + 1;
    }
    FirstDecisiveNone(req, target, server, 0);
    result := Failure(RetriesExhausted(last.value, MaxTries));
    tries := trynum;
  }

  /** Success at try `k`: when tries `0..k-1` fail retryably and try `k`
      succeeds, the call returns try `k`'s response after exactly `k` sleeps
      and `k + 1` tries. */
  lemma RunSucceedsAt(req: Request, target: Target, server: nat -> Attempt, k: nat)
    requires k <= MaxTries
    requires forall j :: 0 <= j < k ==> Try(req, target, server, j).Failed? && Try(req, target, server, j).retry
    requires Try(req, target, server, k).Done?
    ensures Run(req, target, server) == Outcome(Success(Try(req, target, server, k).response), k + 1, k)
  {
    FirstDecisiveIs(req, target, server, 0, k);
  }

  /** Fatal short-circuit: the first error that is not retryable is returned
      wrapped as a non-retryable API error, with no further try and no sleep
      for it, whatever budget remains. */
  lemma RunFatalAt(req: Request, target: Target, server: nat -> Attempt, k: nat)
    requires k <= MaxTries
    requires forall j :: 0 <= j < k ==> Try(req, target, server, j).Failed? && Try(req, target, server, j).retry
    requires Try(req, target, server, k).Failed? && !Try(req, target, server, k).retry
    ensures Run(req, target, server) == Outcome(Failure(NonRetryableApi(Try(req, target, server, k).err)), k + 1, k)
  {
    FirstDecisiveIs(req, target, server, 0, k);
  }

  /** Attempt bound: when every try is a retryable failure the call gives up
      after exactly `MaxTries + 1` tries and as many sleeps, returning the last
      error wrapped as retries exhausted. */
  lemma RunExhausted(req: Request, target: Target, server: nat -> Attempt)
    requires forall j :: 0 <= j <= MaxTries ==> Try(req, target, server, j).Failed? && Try(req, target, server, j).retry
    ensures Run(req, target, server)
      == Outcome(Failure(RetriesExhausted(Try(req, target, server, MaxTries).err, MaxTries)), MaxTries + 1, MaxTries + 1)
  {
    FirstDecisiveNone(req, target, server, 0);
  }

  /** A 429 answered by a 200 on the retry succeeds with the second response,
      after one retry and one sleep. */
  lemma RateLimitThenSuccess(req: Request, target: Target, server: nat -> Attempt)
    requires server(0).Received? && server(0).status == 429
    requires server(1).Received? && server(1).status == 200
    requires target.NoTarget? || target.decodes(server(1).body)
    ensures Run(req, target, server)
      == Outcome(Success(Response(req, 200, server(1).statusLine, server(1).body, server(1).errorDoc)), 2, 1)
  {
    Classify.DoRetryRetryTable(req, server(0), target, 0);
    RunSucceedsAt(req, target, server, 1);
  }

  /** A 403 on the first try fails at once: one try, no sleep, and the error
      is the classified API fault wrapped as non-retryable. */
  lemma ForbiddenFailsAtOnce(req: Request, target: Target, server: nat -> Attempt)
    requires server(0).Received? && server(0).status == 403
    ensures var o := Run(req, target, server);
      o.tries == 1 && o.sleeps == 0 && o.result.Failure? && o.result.error.NonRetryableApi?
      && o.result.error.cause.Classified? && o.result.error.cause.errType == ErrApi
      && o.result.error.cause.verdict == NonRetryable(0)
  {
    var a := server(0);
    Classify.ClientErrorIsFatal(req, a.status, a.statusLine, a.body, a.errorDoc, target, 0);
    RunFatalAt(req, target, server, 0);
  }
}

/** The retry loop shared by `fetch_rss` and `fetch_page` in both clients:
    up to MaxRetries GET requests, a back-off wait after every reply whose
    status is retryable, and a terminal outcome for every other reply.

    The HTTP session, the clock and `random.random()` are outside the model:
    what the environment does on attempt k (0-based) is `network(k)`, a reply
    together with the random draw used for that attempt's jitter. */
module Backoff {
  import opened Common

  const MaxRetries: nat := 5
  /** Base of the exponential back-off, in seconds. */
  const BackoffFactor: nat := 1

  const TooManyRequests: int := 429
  const ServiceUnavailable: int := 503

  /** The feed path backs off only on 429. */
  const FeedRetryStatuses: set<int> := {TooManyRequests}
  /** The page path backs off on 429 and 503. */
  const PageRetryStatuses: set<int> := {TooManyRequests, ServiceUnavailable}

  /** What one GET yields: a response (status and decoded body) or an
      exception raised by the HTTP client (connection error, timeout,
      malformed or missing URL). */
  datatype Reply<B> = Response(status: int, body: B) | NetworkError

  /** One attempt as the environment decides it. */
  datatype Attempt<B> = Attempt(reply: Reply<B>, jitter: real)

  /** `raise_for_status` raises exactly for the client and server error classes. */
  predicate IsErrorStatus(status: int) {
    400 <= status < 600
  }

  /** The loop backs off and tries again after this reply. */
  predicate Retries<B>(retryable: set<int>, reply: Reply<B>) {
    reply.Response? && reply.status in retryable
  }

  function Pow2(k: nat): (r: nat)
    ensures r >= 1
  {
    if k == 0 then 1 else 2 * Pow2(k - 1)
  }

  /** The wait after a retryable reply on attempt `attempt` (1-based):
      the exponential term plus the jitter drawn for that attempt. */
  function Wait(attempt: nat, jitter: real): real
    requires attempt >= 1
  {
    (BackoffFactor * Pow2(attempt - 1)) as real + jitter
  }

  /** The waits of the first `n` attempts, in order. */
  function Waits<B>(network: nat -> Attempt<B>, n: nat): seq<real> {
    seq(n, k requires 0 <= k < n => Wait(k + 1, network(k).jitter))
  }

  /** The first attempt, from `from` on and below MaxRetries, whose reply is
      not retried; MaxRetries when every one of them is retried. */
  function FirstStop<B>(retryable: set<int>, network: nat -> Attempt<B>, from: nat): (k: nat)
    requires from <= MaxRetries
    ensures from <= k <= MaxRetries
    ensures forall j :: from <= j < k ==> Retries(retryable, network(j).reply)
    ensures k < MaxRetries ==> !Retries(retryable, network(k).reply)
    decreases MaxRetries - from
  {
    if from == MaxRetries || !Retries(retryable, network(from).reply) then from
    else FirstStop(retryable, network, from + 1)
  }

  /** What a reply that is not retried makes of the call: the body of a
      response whose status `raise_for_status` accepts, nothing otherwise. */
  function Settle<B>(reply: Reply<B>): Option<B> {
    if reply.Response? && !IsErrorStatus(reply.status) then Some(reply.body) else None
  }

  /** Everything a call to the loop does that can be observed: its result,
      how many requests it issued and the waits it slept. */
  datatype Trace<B> = Trace(result: Option<B>, requests: nat, waits: seq<real>)

  /** The reference semantics of the loop, stated without iteration. */
  function Fetch<B>(retryable: set<int>, network: nat -> Attempt<B>): Trace<B> {
    var k := FirstStop(retryable, network, 0);
    if k < MaxRetries then Trace(Settle(network(k).reply), k + 1, Waits(network, k))
    else Trace(None, MaxRetries, Waits(network, MaxRetries))
  }

  /** The attempt loop of `fetch_rss` / `fetch_page`, with the set of
      statuses it backs off on as a parameter. */
  method FetchWithRetry<B>(retryable: set<int>, network: nat -> Attempt<B>)
    returns (result: Option<B>, requests: nat, waits: seq<real>)
    ensures Trace(result, requests, waits) == Fetch(retryable, network)
  {
    requests, waits := 0, [];
    var attempt := 1;
    while attempt <= MaxRetries
      invariant 1 <= attempt <= MaxRetries + 1
      invariant requests == attempt - 1
      invariant waits == Waits(network, attempt - 1)
      invariant forall j :: 0 <= j < attempt - 1 ==> Retries(retryable, network(j).reply)
      decreases MaxRetries + 1 - attempt
    {
      var a := network(attempt - 1);
      requests := requests + 1;
      if a.reply.Response? && a.reply.status in retryable {
        waits := waits + [Wait(attempt, a.jitter)];
        attempt := attempt + 1;
        continue;
      }
      assert FirstStop(retryable, network, 0) == attempt - 1;
      match a.reply {
        case NetworkError =>
          // the exception handler gives up whatever the attempt number
          result := None;
        case Response(status, body) =>
          // `raise_for_status` raises, and the handler gives up, on 4xx and 5xx
          result := if IsErrorStatus(status) then None else Some(body);
      }
      return;
    }
    result := None;
  }

  /** If the first k < MaxRetries replies are retried and the next one is a
      success, the call returns that body after k waits and k + 1 requests. */
  lemma RecoversAfterRetries<B>(retryable: set<int>, network: nat -> Attempt<B>, k: nat, status: int, body: B)
    requires k < MaxRetries
    requires forall j :: 0 <= j < k ==> Retries(retryable, network(j).reply)
    requires network(k).reply == Response(status, body)
    requires status !in retryable && !IsErrorStatus(status)
    ensures Fetch(retryable, network).result == Some(body)
    ensures Fetch(retryable, network).requests == k + 1
    ensures |Fetch(retryable, network).waits| == k
  {
  }

  /** MaxRetries retried replies in a row: the call gives up with nothing,
      having issued exactly MaxRetries requests and slept MaxRetries waits. */
  lemma GivesUpAfterMaxRetries<B>(retryable: set<int>, network: nat -> Attempt<B>)
    requires forall j :: 0 <= j < MaxRetries ==> Retries(retryable, network(j).reply)
    ensures Fetch(retryable, network) == Trace(None, MaxRetries, Waits(network, MaxRetries))
  {
  }

  /** An error status that is not retried, or an exception, ends the call
      at once with nothing: no request is issued after it. */
  lemma StopsAtTerminalError<B>(retryable: set<int>, network: nat -> Attempt<B>, k: nat)
    requires k < MaxRetries
    requires forall j :: 0 <= j < k ==> Retries(retryable, network(j).reply)
    requires !Retries(retryable, network(k).reply)
    requires network(k).reply.NetworkError? || IsErrorStatus(network(k).reply.status)
    ensures Fetch(retryable, network).result == None
    ensures Fetch(retryable, network).requests == k + 1
  {
  }

  /** Every call issues at least one and at most MaxRetries requests; it
      waits once per retried reply, which is once per request except after
      the request that ended the call. */
  lemma RequestsBounded<B>(retryable: set<int>, network: nat -> Attempt<B>)
    ensures 1 <= Fetch(retryable, network).requests <= MaxRetries
    ensures var t := Fetch(retryable, network);
      |t.waits| == (if t.requests == MaxRetries && Retries(retryable, network(MaxRetries - 1).reply)
                    then MaxRetries else t.requests - 1)
  {
  }

  /** A body is returned only if some request's reply carried it with a
      status that is neither retried nor an error, and every earlier reply
      was retried. */
  lemma ResultComesFromSuccess<B>(retryable: set<int>, network: nat -> Attempt<B>)
    ensures var t := Fetch(retryable, network);
      t.result.Some? ==>
        var last := network(t.requests - 1).reply;
        && last.Response? && last.body == t.result.value
        && last.status !in retryable && !IsErrorStatus(last.status)
        && forall j :: 0 <= j < t.requests - 1 ==> Retries(retryable, network(j).reply)
  {
  }

  /** With the jitter drawn from [0, 1), the wait before retry k lies in
      [BackoffFactor * 2^(k-1), BackoffFactor * 2^(k-1) + 1). */
  lemma WaitBounds<B>(retryable: set<int>, network: nat -> Attempt<B>)
    requires forall k: nat :: 0.0 <= network(k).jitter < 1.0
    ensures var w := Fetch(retryable, network).waits;
      forall k :: 0 <= k < |w| ==>
        (BackoffFactor * Pow2(k)) as real <= w[k] < (BackoffFactor * Pow2(k)) as real + 1.0
  {
  }

  /** The two policies differ exactly on 503: the feed path stops at a first
      503 after one request, the page path backs off and asks again. */
  lemma PagePathRetriesUnavailable<B>(network: nat -> Attempt<B>, body: B)
    requires network(0).reply == Response(ServiceUnavailable, body)
    ensures Fetch(FeedRetryStatuses, network).result == None
    ensures Fetch(FeedRetryStatuses, network).requests == 1
    ensures Fetch(PageRetryStatuses, network).requests >= 2
    ensures |Fetch(PageRetryStatuses, network).waits| >= 1
  {
  }
}

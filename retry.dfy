// `fetchVectorsWithRetry` of src/bin/generate-thumbnails.ts: at most `maxRetries`
// calls of `index.fetch`, a wait between consecutive failures that doubles each time,
// and the last error raised once the attempts are used up. The remote calls are given
// as their outcomes; the waits are recorded instead of slept.
module FetchRetry {
  import opened Wrappers

  /** The defaults of the two parameters: three attempts, and a first wait of 1000 ms. */
  const DefaultMaxRetries: int := 3
  const DefaultRetryDelay: int := 1000

  /** A resolved `index.fetch` call; `vectors` is None when the field is missing. */
  datatype Response<V> = Response(vectors: Option<V>)

  /** What one call does: throw, or resolve to a response (None for a null one). */
  datatype FetchOutcome<V> = Threw(message: string) | Resolved(response: Option<Response<V>>)

  /** The error a failed attempt raises. */
  datatype FetchError = Thrown(message: string) | IncompleteResponse

  /** How the function ends: it returns a response, rethrows the last error, or falls out
      of the loop and returns `undefined`. */
  datatype Outcome<V> = Returned(response: Response<V>) | Raised(error: FetchError) | Undefined

  /** An attempt succeeds when the response is there and has its `vectors`. */
  predicate Succeeded<V>(o: FetchOutcome<V>)
  {
    o.Resolved? && o.response.Some? && o.response.value.vectors.Some?
  }

  /** The error of a failed attempt: the one thrown, or the "incomplete response" error. */
  function ErrorOf<V>(o: FetchOutcome<V>): FetchError
  {
    if o.Threw? then Thrown(o.message) else IncompleteResponse
  }

  function Pow2(k: nat): nat
  {
    if k == 0 then 1 else 2 * Pow2(k - 1)
  }

  /** The delay after the k-th failure (from 0): `retryDelay`, doubled k times. */
  function Backoff(retryDelay: int, k: nat): int
  {
    if k == 0 then retryDelay else 2 * Backoff(retryDelay, k - 1)
  }

  /** In closed form, the k-th wait is retryDelay * 2^k. */
  lemma {:induction false} BackoffClosedForm(retryDelay: int, k: nat)
    ensures Backoff(retryDelay, k) == retryDelay * Pow2(k)
  {
    if k > 0 {
      BackoffClosedForm(retryDelay, k - 1);
      assert retryDelay * Pow2(k) == 2 * (retryDelay * Pow2(k - 1));
    }
  }

  /** `fetch(n)` is the outcome of the n-th call (from 0). `calls` is the number of calls
      made and `waits` the delays waited, in order. */
  method FetchVectorsWithRetry<V>(fetch: nat -> FetchOutcome<V>, maxRetries: int, retryDelay: int)
    returns (result: Outcome<V>, calls: nat, waits: seq<int>)
    ensures maxRetries <= 0 ==> result == Undefined && calls == 0 && waits == []
    ensures maxRetries > 0 ==> result.Returned? || result.Raised?
    ensures maxRetries > 0 ==> 1 <= calls <= maxRetries && |waits| == calls - 1
    ensures forall k :: 0 <= k < |waits| ==> !Succeeded(fetch(k))
    ensures forall k :: 0 <= k < |waits| ==> waits[k] == Backoff(retryDelay, k)
    ensures forall k :: 0 < k < |waits| ==> waits[k] == 2 * waits[k - 1]
    ensures result.Returned? ==>
      Succeeded(fetch(calls - 1)) && Some(result.response) == fetch(calls - 1).response
    ensures result.Raised? ==>
      calls == maxRetries && !Succeeded(fetch(calls - 1)) && result.error == ErrorOf(fetch(calls - 1))
    ensures maxRetries > 0 ==>
      (result.Returned? <==> exists j :: 0 <= j < maxRetries && Succeeded(fetch(j)))
  {
    var attempts := 0;
    var delay := retryDelay;
    calls := 0;
    waits := [];
    while attempts < maxRetries
      invariant attempts == 0 || attempts < maxRetries
      invariant calls == attempts && |waits| == attempts
      invariant forall k :: 0 <= k < attempts ==> !Succeeded(fetch(k))
      invariant forall k :: 0 <= k < |waits| ==> waits[k] == Backoff(retryDelay, k)
      invariant delay == Backoff(retryDelay, attempts)
      decreases maxRetries - attempts
    {
      var outcome := fetch(attempts);
      calls := calls + 1;
      if Succeeded(outcome) {
        return Returned(outcome.response.value), calls, waits;
      }
      var error := ErrorOf(outcome);
      attempts := attempts + 1;
      if attempts == maxRetries {
        return Raised(error), calls, waits;
      }
      waits := waits + [delay];
      delay := delay * 2;
    }
    result := Undefined;
  }

  /** The call with both defaults: at most three calls, waiting 1000 ms after the first
      failure and 2000 ms after the second. */
  method FetchVectorsWithDefaults<V>(fetch: nat -> FetchOutcome<V>)
    returns (result: Outcome<V>, calls: nat, waits: seq<int>)
    ensures 1 <= calls <= 3 && waits == [1000, 2000][..calls - 1]
    ensures result.Returned? || result.Raised?
    ensures result.Returned? <==> exists j :: 0 <= j < 3 && Succeeded(fetch(j))
    ensures result.Returned? ==>
      Succeeded(fetch(calls - 1)) && Some(result.response) == fetch(calls - 1).response
    ensures result.Raised? ==>
      calls == 3 && result.error == ErrorOf(fetch(2))
  {
    result, calls, waits := FetchVectorsWithRetry(fetch, DefaultMaxRetries, DefaultRetryDelay);
    assert Backoff(DefaultRetryDelay, 1) == 2000;
  }
}

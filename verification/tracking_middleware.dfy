/**
  The request-tracking middleware (src/middleware/tracking.rs): after the
  wrapped service answers, one request is recorded for the caller's key,
  with its latency and whether the answer was a server error. The answer
  itself passes through untouched; a failure of the wrapped service is
  passed on and nothing is recorded.
 */
module TrackingMiddleware {
  import opened Prelude
  import opened Tracking
  import Auth

  const UNKNOWN_KEY: string := "unknown"

  /** A response of the wrapped service, of whatever body type. */
  datatype Response<B> = Response(status: HttpStatus, body: B)

  /** The key requests are booked under: the validated key, or "unknown" without one. */
  function TrackedKey(validated: Option<Auth.ValidatedApiKey>): (key: string)
    ensures validated.Some? ==> key == validated.value.key
    ensures validated.None? ==> key == UNKNOWN_KEY
  {
    match validated
    case Some(v) => v.key
    case None => UNKNOWN_KEY
  }

  /**
    `TrackingMiddlewareService::call`, given what the wrapped service
    produced, how long it took and the time it finished: the outcome is
    returned unchanged, and exactly one request is recorded when, and only
    when, the service produced a response.
   */
  function Call<B, E>(t: RequestTracker, validated: Option<Auth.ValidatedApiKey>,
                      inner: Result<Response<B>, E>, latencyMs: nat, nowMs: nat)
    : (r: (Result<Response<B>, E>, RequestTracker))
    ensures r.0 == inner
    ensures inner.Err? ==> r.1 == t
    ensures inner.Ok? ==>
              r.1 == RecordRequest(t, TrackedKey(validated), latencyMs, IsServerError(inner.value.status), nowMs)
  {
    match inner
    case Err(_) => (inner, t)
    case Ok(response) =>
      (inner, RecordRequest(t, TrackedKey(validated), latencyMs, IsServerError(response.status), nowMs))
  }

  /**
    What one answered request does to the caller's entry: one more request,
    one more error exactly for a 5xx answer, the latency added; every other
    key keeps its entry.
   */
  lemma CallCountsOneRequest<B, E>(t: RequestTracker, validated: Option<Auth.ValidatedApiKey>,
                                   inner: Result<Response<B>, E>, latencyMs: nat, nowMs: nat)
    requires inner.Ok?
    ensures var key := TrackedKey(validated);
            var before := EntryOf(t, key, nowMs);
            var after := Call(t, validated, inner, latencyMs, nowMs).1.stats[key];
            && after.requestCount == before.requestCount + 1
            && (after.errorCount == before.errorCount + 1 <==> 500 <= inner.value.status < 600)
            && (after.errorCount == before.errorCount <==> !(500 <= inner.value.status < 600))
            && after.totalLatencyMs == before.totalLatencyMs + latencyMs
    ensures var t' := Call(t, validated, inner, latencyMs, nowMs).1;
            forall k :: k in t.stats && k != TrackedKey(validated) ==> k in t'.stats && t'.stats[k] == t.stats[k]
  {
  }
}

/**
  The request pipeline `main` assembles (src/main.rs): authentication runs
  first, then rate limiting, then request tracking, and only then the
  route's handler. A refusal by authentication (401) or by the limiter (429)
  is an error that the outer layers pass on, so it never reaches the
  tracker. The handler is a parameter: given the validated key and the
  tracker, it yields its outcome and the tracker as it left it (the chat
  handler books tokens there).
 */
module Gateway {
  import opened Prelude
  import opened Tracking
  import Auth
  import RateLimit
  import TrackingMiddleware

  const UNAUTHORIZED_STATUS: HttpStatus := 401
  const TOO_MANY_REQUESTS_STATUS: HttpStatus := 429

  /** The state shared by all requests: the limiter's buckets and the tracker. */
  datatype GatewayState = GatewayState(limiter: RateLimit.RateLimiter, tracker: RequestTracker)

  /** What the client gets: a middleware's refusal, or what the handler produced. */
  datatype Outcome<B, E> =
    | Refused(status: HttpStatus, body: string)
    | Passed(result: Result<TrackingMiddleware.Response<B>, E>)

  /** A route handler, given the validated key and the tracker. */
  type Handler<B, E> = (Auth.ValidatedApiKey, RequestTracker) -> (Result<TrackingMiddleware.Response<B>, E>, RequestTracker)

  /** Authentication accepts the header, and the limiter has a token for the key at `now`. */
  predicate Admitted(mw: Auth.AuthMiddleware, s: GatewayState, header: Option<string>, now: real) {
    var auth := Auth.Call(mw, header);
    auth.Forwarded? && RateLimit.CheckKey(s.limiter, auth.validated.key, now).0
  }

  /**
    One request through the whole stack, with the limiter's clock `now` (in
    seconds), and the handler's latency and finishing time (in
    milliseconds). A bad or missing key gets 401 and changes nothing; a key
    whose bucket is empty gets 429, and only its bucket changes; an admitted
    request reaches the handler, and the tracker records one request for
    the key in addition to whatever the handler books. For a streamed reply
    actix reads the body, and so books its usage, after the tracker has
    recorded the request; the model applies the two in the other order,
    which gives the same final state for a whole stream's bookings
    (`ChatHandler.StreamBookingCommutes`, by induction over the frames from
    `Tracking.RequestAndTokensCommute`): recording a request restamps the
    entry, and booking tokens never restamps an existing one.
   */
  function Handle<B, E>(mw: Auth.AuthMiddleware, s: GatewayState, header: Option<string>, now: real,
                        handler: Handler<B, E>, latencyMs: nat, nowMs: nat)
    : (r: (Outcome<B, E>, GatewayState))
    ensures Auth.Call(mw, header).Unauthorized? ==> r == (Refused(UNAUTHORIZED_STATUS, Auth.UNAUTHORIZED_BODY), s)
    ensures Auth.Call(mw, header).Forwarded? ==>
              var key := Auth.Call(mw, header).validated.key;
              r.1.limiter == RateLimit.CheckKey(s.limiter, key, now).1
    ensures Auth.Call(mw, header).Forwarded? && !Admitted(mw, s, header, now) ==>
              r.0 == Refused(TOO_MANY_REQUESTS_STATUS, RateLimit.TOO_MANY_BODY) && r.1.tracker == s.tracker
    ensures Admitted(mw, s, header, now) ==>
              var v := Auth.Call(mw, header).validated;
              var (inner, handled) := handler(v, s.tracker);
              && r.0 == Passed(inner)
              && (inner.Err? ==> r.1.tracker == handled)
              && (inner.Ok? ==>
                    r.1.tracker == RecordRequest(handled, v.key, latencyMs, IsServerError(inner.value.status), nowMs))
  {
    match Auth.Call(mw, header)
    case Unauthorized(body) => (Refused(UNAUTHORIZED_STATUS, body), s)
    case Forwarded(v) =>
      var (verdict, limiter) := RateLimit.MiddlewareCall(s.limiter, Some(v), now);
      match verdict
      case TooManyRequests(body) => (Refused(TOO_MANY_REQUESTS_STATUS, body), s.(limiter := limiter))
      case Proceed =>
        var (inner, handled) := handler(v, s.tracker);
        var (result, tracker) := TrackingMiddleware.Call(handled, Some(v), inner, latencyMs, nowMs);
        (Passed(result), GatewayState(limiter, tracker))
  }

  /** A refused request never reaches the handler: whatever the handler would do, the answer and the state are the same. */
  lemma RefusalIgnoresHandler<B, E>(mw: Auth.AuthMiddleware, s: GatewayState, header: Option<string>, now: real,
                                    h1: Handler<B, E>, h2: Handler<B, E>, latencyMs: nat, nowMs: nat)
    requires !Admitted(mw, s, header, now)
    ensures Handle(mw, s, header, now, h1, latencyMs, nowMs) == Handle(mw, s, header, now, h2, latencyMs, nowMs)
    ensures Handle(mw, s, header, now, h1, latencyMs, nowMs).0.Refused?
  {
  }

  /** Refused requests leave no trace in the statistics: the tracker is exactly as before. */
  lemma RefusalsAreNotTracked<B, E>(mw: Auth.AuthMiddleware, s: GatewayState, header: Option<string>, now: real,
                                    handler: Handler<B, E>, latencyMs: nat, nowMs: nat)
    ensures var r := Handle(mw, s, header, now, handler, latencyMs, nowMs);
            r.0.Refused? <==> !Admitted(mw, s, header, now)
    ensures var r := Handle(mw, s, header, now, handler, latencyMs, nowMs);
            r.0.Refused? ==> r.1.tracker == s.tracker
  {
  }

  /**
    An admitted request that the handler answers is counted once for its
    key, with its latency, and as an error exactly when the answer is a 5xx;
    every other key keeps what the handler left it.
   */
  lemma AdmittedCountsOnce<B, E>(mw: Auth.AuthMiddleware, s: GatewayState, header: Option<string>, now: real,
                                 handler: Handler<B, E>, latencyMs: nat, nowMs: nat)
    requires Admitted(mw, s, header, now)
    requires handler(Auth.Call(mw, header).validated, s.tracker).0.Ok?
    ensures var v := Auth.Call(mw, header).validated;
            var (inner, handled) := handler(v, s.tracker);
            var before := EntryOf(handled, v.key, nowMs);
            var after := Handle(mw, s, header, now, handler, latencyMs, nowMs).1.tracker.stats[v.key];
            && after.requestCount == before.requestCount + 1
            && after.totalLatencyMs == before.totalLatencyMs + latencyMs
            && (after.errorCount == before.errorCount + 1 <==> 500 <= inner.value.status < 600)
    ensures var v := Auth.Call(mw, header).validated;
            var handled := handler(v, s.tracker).1;
            var t' := Handle(mw, s, header, now, handler, latencyMs, nowMs).1.tracker;
            forall k :: k in handled.stats && k != v.key ==> k in t'.stats && t'.stats[k] == handled.stats[k]
  {
    var v := Auth.Call(mw, header).validated;
    var (inner, handled) := handler(v, s.tracker);
    TrackingMiddleware.CallCountsOneRequest(handled, Some(v), inner, latencyMs, nowMs);
  }
}

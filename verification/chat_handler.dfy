/**
  The `/v1/chat/completions` handler (src/handlers/chat.rs). A streaming
  request is answered with the provider's event stream, and every data
  frame that carries a usage record is booked to the caller's key as the
  stream is consumed, up to the first error item, which aborts the
  response; a non-streaming request is answered with the
  provider's completion, whose token counts are booked when the caller's
  key is known. Provider failures become HTTP errors.

  The JSON parser of stream frames is the `parse` parameter.
 */
module ChatHandler {
  import opened Prelude
  import opened Models
  import opened Providers
  import opened Tracking
  import Auth
  import TrackingMiddleware

  const DATA_PREFIX: string := "data: "
  const DONE_MARKER: string := "[DONE]"
  const NETWORK_PREFIX: string := "Provider unavailable: "
  const PARSE_PREFIX: string := "Failed to parse response: "

  /** An error answer. */
  datatype ErrorReply = ErrorReply(status: HttpStatus, body: string)

  /**
    One item of the response body as actix polls it: a frame sent to the
    client, or an error (wrapped by `ErrorInternalServerError`) that actix
    logs before aborting the connection. The 200 head has already gone out,
    so the client sees the response end, not a 500.
   */
  datatype OutItem = OutBytes(data: string) | Abort(error: ProviderError)

  /** The handler's answer: a JSON completion, an event stream, or an error. */
  datatype ChatReply =
    | JsonReply(response: ChatCompletionResponse)
    | EventStream(items: seq<OutItem>)
    | Failure(error: ErrorReply)

  /** `StatusCode::from_u16`: a code outside 100..=999 is rejected. */
  function StatusFromU16(code: u16): (r: Option<HttpStatus>)
    ensures r.Some? <==> 100 <= code <= 999
    ensures r.Some? ==> r.value == code
  {
    if 100 <= code <= 999 then Some(code) else None
  }

  /**
    `error_to_response`: an unreachable provider is 502, an unreadable reply
    500, and a provider's own status is passed on when it is a valid code
    (500 otherwise) with the provider's message as the body.
   */
  function ErrorToResponse(e: ProviderError): (r: ErrorReply)
    ensures e.Network? ==> r == ErrorReply(502, NETWORK_PREFIX + e.msg)
    ensures e.Parse? ==> r == ErrorReply(500, PARSE_PREFIX + e.msg)
    ensures e.StatusError? ==> r.body == e.message
    ensures e.StatusError? && 100 <= e.status <= 999 ==> r.status == e.status
    ensures e.StatusError? && !(100 <= e.status <= 999) ==> r.status == 500
  {
    match e
    case Network(msg) => ErrorReply(502, NETWORK_PREFIX + msg)
    case Parse(msg) => ErrorReply(500, PARSE_PREFIX + msg)
    case StatusError(status, message) => ErrorReply(StatusFromU16(status).GetOr(500), message)
  }

  /**
    Seen by the tracking middleware, a provider failure counts as an error
    exactly when it is not a provider-reported status outside the 5xx class:
    network and parse failures always count, a relayed status counts when it
    is 5xx or invalid.
   */
  lemma ProviderFailureIsServerError(e: ProviderError)
    ensures IsServerError(ErrorToResponse(e).status) <==>
              !e.StatusError? || !(100 <= e.status <= 999) || 500 <= e.status <= 599
  {
  }

  /** `request.stream.unwrap_or(false)`: streaming only when asked for. */
  function IsStreaming(req: ChatCompletionRequest): (b: bool)
    ensures b <==> req.stream == Some(true)
  {
    req.stream.GetOr(false)
  }

  /**
    The frames the handler inspects for usage: those that start with
    "data: " and have "[DONE]" nowhere in them.
   */
  function InspectsFrame(frame: string): (b: bool)
    ensures b <==> StartsWith(frame, DATA_PREFIX) && forall i :: !OccursAt(frame, DONE_MARKER, i)
  {
    ContainsAt(frame, DONE_MARKER);
    StartsWith(frame, DATA_PREFIX) && !Contains(frame, DONE_MARKER)
  }

  /** The JSON text of a data frame: the "data: " prefixes and surrounding whitespace stripped. */
  function FramePayload(frame: string): (json: string)
    ensures Trimmed(json)
  {
    Trim(TrimStartMatches(frame, DATA_PREFIX))
  }

  /**
    Where the payload comes from: the frame is some copies of "data: ",
    then whitespace, the payload, and whitespace again, and what follows the
    copies does not itself start with "data: ".
   */
  lemma FramePayloadShape(frame: string) returns (k: nat, w1: string, w2: string)
    ensures frame == Repeat(DATA_PREFIX, k) + (w1 + FramePayload(frame) + w2)
    ensures !StartsWith(w1 + FramePayload(frame) + w2, DATA_PREFIX)
    ensures forall i :: 0 <= i < |w1| ==> IsWhitespace(w1[i])
    ensures forall i :: 0 <= i < |w2| ==> IsWhitespace(w2[i])
  {
    var rest := TrimStartMatches(frame, DATA_PREFIX);
    k := TrimStartMatchesRepeats(frame, DATA_PREFIX);
    w1, w2 := TrimSplitsOff(rest);
  }

  /** A frame of one "data: " and a trimmed payload that is not itself prefixed yields exactly that payload. */
  lemma FramePayloadOfDataFrame(json: string)
    requires Trimmed(json) && !StartsWith(json, DATA_PREFIX)
    ensures FramePayload(DATA_PREFIX + json) == json
  {
    var frame := DATA_PREFIX + json;
    assert StartsWith(frame, DATA_PREFIX);
    assert frame[|DATA_PREFIX|..] == json;
    assert TrimStartMatches(frame, DATA_PREFIX) == json;
    TrimOfTrimmed(json);
  }

  /** The model and usage a frame reports, when it is inspected, parses, and carries usage. */
  function FrameUsage(frame: string, parse: string -> Option<ChatCompletionChunk>): (u: Option<(string, Usage)>)
    ensures u.Some? ==> InspectsFrame(frame)
    ensures u.Some? <==> InspectsFrame(frame) && parse(FramePayload(frame)).Some?
                         && parse(FramePayload(frame)).value.usage.Some?
    ensures u.Some? ==> u.value == (parse(FramePayload(frame)).value.model, parse(FramePayload(frame)).value.usage.value)
  {
    if InspectsFrame(frame) then
      match parse(FramePayload(frame))
      case Some(chunk) =>
        (match chunk.usage
         case Some(usage) => Some((chunk.model, usage))
         case None => None)
      case None => None
    else None
  }

  /** The end-of-stream marker never books anything, whatever the parser makes of it. */
  lemma DoneFrameNeverBooks(parse: string -> Option<ChatCompletionChunk>)
    ensures FrameUsage(DATA_PREFIX + DONE_MARKER, parse).None?
  {
    var frame := DATA_PREFIX + DONE_MARKER;
    assert OccursAt(frame, DONE_MARKER, |DATA_PREFIX|);
    ContainsAt(frame, DONE_MARKER);
  }

  /** A stream item as the response body yields it to actix. */
  function OutItemOf(item: StreamItem): (o: OutItem)
    ensures item.Bytes? ==> o == OutBytes(item.data)
    ensures item.ItemFailure? ==> o == Abort(item.error)
  {
    match item
    case Bytes(data) => OutBytes(data)
    case ItemFailure(e) => Abort(e)
  }

  /** The number of stream items whose frames carry usage. */
  function UsageFrames(items: seq<StreamItem>, parse: string -> Option<ChatCompletionChunk>): nat
    decreases |items|
  {
    if |items| == 0 then 0
    else UsageFrames(items[..|items| - 1], parse)
         + (if items[|items| - 1].Bytes? && FrameUsage(items[|items| - 1].data, parse).Some? then 1 else 0)
  }

  /**
    The provider's items the response body yields before it ends: those up
    to and including the first error, which aborts the connection, so later
    items are never polled; every item when there is no error and actix
    reads the body to its end.
   */
  function Delivered(items: seq<StreamItem>): (d: seq<StreamItem>)
    ensures |d| <= |items|
    ensures forall i :: 0 <= i < |d| ==> d[i] == items[i]
    ensures forall i :: 0 <= i < |d| - 1 ==> d[i].Bytes?
    ensures |d| < |items| ==> |d| > 0 && d[|d| - 1].ItemFailure?
    decreases |items|
  {
    if |items| == 0 then []
    else if items[0].ItemFailure? then [items[0]]
    else [items[0]] + Delivered(items[1..])
  }

  /** A stream without error items is delivered whole. */
  lemma DeliveredWithoutFailure(items: seq<StreamItem>)
    requires forall i :: 0 <= i < |items| ==> items[i].Bytes?
    ensures Delivered(items) == items
  {
  }

  /** The response body: every item in order, a frame forwarded as is and an error item ending the response. */
  function ForwardStream(items: seq<StreamItem>): (out: seq<OutItem>)
    ensures |out| == |items|
    ensures forall i :: 0 <= i < |items| ==> out[i] == OutItemOf(items[i])
  {
    seq(|items|, i requires 0 <= i < |items| => OutItemOf(items[i]))
  }

  /** The prompt tokens the usage frames of `items` report, summed. */
  function StreamPromptTokens(items: seq<StreamItem>, parse: string -> Option<ChatCompletionChunk>): nat
    decreases |items|
  {
    if |items| == 0 then 0
    else
      var last := items[|items| - 1];
      StreamPromptTokens(items[..|items| - 1], parse)
        + (if last.Bytes? && FrameUsage(last.data, parse).Some? then FrameUsage(last.data, parse).value.1.promptTokens else 0)
  }

  /** The completion tokens the usage frames of `items` report, summed. */
  function StreamCompletionTokens(items: seq<StreamItem>, parse: string -> Option<ChatCompletionChunk>): nat
    decreases |items|
  {
    if |items| == 0 then 0
    else
      var last := items[|items| - 1];
      StreamCompletionTokens(items[..|items| - 1], parse)
        + (if last.Bytes? && FrameUsage(last.data, parse).Some? then FrameUsage(last.data, parse).value.1.completionTokens else 0)
  }

  /** The number of usage frames of `items` that name `model`. */
  function ModelFrames(items: seq<StreamItem>, parse: string -> Option<ChatCompletionChunk>, model: string): nat
    decreases |items|
  {
    if |items| == 0 then 0
    else
      var last := items[|items| - 1];
      ModelFrames(items[..|items| - 1], parse, model)
        + (if last.Bytes? && FrameUsage(last.data, parse).Some? && FrameUsage(last.data, parse).value.0 == model then 1 else 0)
  }

  /**
    The bookings made while the stream is consumed: each frame carrying
    usage books its tokens to `key`. No other key is touched and no request,
    error or latency counter moves; with no usage frame nothing changes.
   */
  function BookStreamUsage(t: RequestTracker, key: string, items: seq<StreamItem>,
                           parse: string -> Option<ChatCompletionChunk>, nowMs: nat): (t': RequestTracker)
    ensures UsageFrames(items, parse) == 0 ==> t' == t
    ensures UsageFrames(items, parse) > 0 ==> t'.stats.Keys == t.stats.Keys + {key}
    ensures forall k :: k in t.stats && k != key ==> k in t'.stats && t'.stats[k] == t.stats[k]
    ensures UsageFrames(items, parse) > 0 ==>
              var before, after := EntryOf(t, key, nowMs), t'.stats[key];
              && after.requestCount == before.requestCount
              && after.errorCount == before.errorCount
              && after.totalLatencyMs == before.totalLatencyMs
              && after.lastRequestMs == before.lastRequestMs
    decreases |items|
  {
    if |items| == 0 then t
    else
      var t1 := BookStreamUsage(t, key, items[..|items| - 1], parse, nowMs);
      var last := items[|items| - 1];
      if last.Bytes? && FrameUsage(last.data, parse).Some? then
        var (model, usage) := FrameUsage(last.data, parse).value;
        RecordTokens(t1, key, usage.promptTokens, usage.completionTokens, model, nowMs)
      else t1
  }

  /** Each usage frame is one `record_tokens` call: the key's per-model counts grow by the number of such frames. */
  lemma {:induction false} BookingCountsFrames(t: RequestTracker, key: string, items: seq<StreamItem>,
                                               parse: string -> Option<ChatCompletionChunk>, nowMs: nat)
    requires UsageFrames(items, parse) > 0
    ensures var t' := BookStreamUsage(t, key, items, parse, nowMs);
            SumCounts(t'.stats[key].modelsUsed) == SumCounts(EntryOf(t, key, nowMs).modelsUsed) + UsageFrames(items, parse)
    decreases |items|
  {
    var init := items[..|items| - 1];
    var last := items[|items| - 1];
    var t1 := BookStreamUsage(t, key, init, parse, nowMs);
    if last.Bytes? && FrameUsage(last.data, parse).Some? {
      var (model, usage) := FrameUsage(last.data, parse).value;
      RecordTokensCountsOneCall(t1, key, usage.promptTokens, usage.completionTokens, model, nowMs);
      if UsageFrames(init, parse) > 0 {
        BookingCountsFrames(t, key, init, parse, nowMs);
        assert EntryOf(t1, key, nowMs) == t1.stats[key];
      } else {
        assert t1 == t;
      }
    } else {
      BookingCountsFrames(t, key, init, parse, nowMs);
    }
  }

  /**
    The tokens booked while streaming are the usage frames' tokens, summed:
    the key's prompt and completion totals grow by exactly what its usage
    frames report.
   */
  lemma {:induction false} BookingAddsFrameTokens(t: RequestTracker, key: string, items: seq<StreamItem>,
                                                  parse: string -> Option<ChatCompletionChunk>, nowMs: nat)
    requires UsageFrames(items, parse) > 0
    ensures var before, after := EntryOf(t, key, nowMs), BookStreamUsage(t, key, items, parse, nowMs).stats[key];
            && after.totalPromptTokens == before.totalPromptTokens + StreamPromptTokens(items, parse)
            && after.totalCompletionTokens == before.totalCompletionTokens + StreamCompletionTokens(items, parse)
    decreases |items|
  {
    var init := items[..|items| - 1];
    var last := items[|items| - 1];
    var t1 := BookStreamUsage(t, key, init, parse, nowMs);
    if UsageFrames(init, parse) > 0 {
      BookingAddsFrameTokens(t, key, init, parse, nowMs);
      assert EntryOf(t1, key, nowMs) == t1.stats[key];
    } else {
      assert t1 == t;
      assert StreamPromptTokens(init, parse) == 0 by { NoUsageNoTokens(init, parse); }
      assert StreamCompletionTokens(init, parse) == 0 by { NoUsageNoTokens(init, parse); }
    }
  }

  /** Without usage frames there are no streamed tokens and no model to book. */
  lemma {:induction false} NoUsageNoTokens(items: seq<StreamItem>, parse: string -> Option<ChatCompletionChunk>)
    requires UsageFrames(items, parse) == 0
    ensures StreamPromptTokens(items, parse) == 0 && StreamCompletionTokens(items, parse) == 0
    ensures forall m :: ModelFrames(items, parse, m) == 0
    decreases |items|
  {
    if |items| > 0 {
      NoUsageNoTokens(items[..|items| - 1], parse);
    }
  }

  /** Each model's count grows by exactly the number of usage frames that name it. */
  lemma BookingCountsModels(t: RequestTracker, key: string, items: seq<StreamItem>,
                            parse: string -> Option<ChatCompletionChunk>, nowMs: nat)
    requires UsageFrames(items, parse) > 0
    ensures var before, after := EntryOf(t, key, nowMs), BookStreamUsage(t, key, items, parse, nowMs).stats[key];
            forall m :: ModelCount(after.modelsUsed, m) == ModelCount(before.modelsUsed, m) + ModelFrames(items, parse, m)
  {
    forall m | true
      ensures ModelCount(BookStreamUsage(t, key, items, parse, nowMs).stats[key].modelsUsed, m)
              == ModelCount(EntryOf(t, key, nowMs).modelsUsed, m) + ModelFrames(items, parse, m)
    {
      BookingCountsModel(t, key, items, parse, nowMs, m);
    }
  }

  /** `BookingCountsModels` for one model `m`, by induction on the stream. */
  lemma {:induction false} BookingCountsModel(t: RequestTracker, key: string, items: seq<StreamItem>,
                                              parse: string -> Option<ChatCompletionChunk>, nowMs: nat, m: string)
    requires UsageFrames(items, parse) > 0
    ensures ModelCount(BookStreamUsage(t, key, items, parse, nowMs).stats[key].modelsUsed, m)
            == ModelCount(EntryOf(t, key, nowMs).modelsUsed, m) + ModelFrames(items, parse, m)
    decreases |items|
  {
    var init := items[..|items| - 1];
    var last := items[|items| - 1];
    var t1 := BookStreamUsage(t, key, init, parse, nowMs);
    if last.Bytes? && FrameUsage(last.data, parse).Some? {
      var (model, usage) := FrameUsage(last.data, parse).value;
      RecordTokensModelCount(t1, key, usage.promptTokens, usage.completionTokens, model, nowMs, m);
      if UsageFrames(init, parse) > 0 {
        BookingCountsModel(t, key, init, parse, nowMs, m);
        assert EntryOf(t1, key, nowMs) == t1.stats[key];
      } else {
        assert t1 == t;
        NoUsageNoTokens(init, parse);
      }
    } else {
      BookingCountsModel(t, key, init, parse, nowMs, m);
    }
  }

  /**
    Consuming the provider's stream: the response body yields a prefix of
    the items, ending early only at an error item, and exactly that prefix
    is booked.
   */
  function ConsumeStream(t: RequestTracker, key: string, items: seq<StreamItem>,
                         parse: string -> Option<ChatCompletionChunk>, nowMs: nat)
    : (r: (seq<OutItem>, RequestTracker))
    ensures |r.0| <= |items|
    ensures forall i :: 0 <= i < |r.0| ==> r.0[i] == OutItemOf(items[i])
    ensures forall i :: 0 <= i < |r.0| - 1 ==> r.0[i].OutBytes?
    ensures |r.0| < |items| ==> |r.0| > 0 && r.0[|r.0| - 1].Abort?
    ensures r.1 == BookStreamUsage(t, key, items[..|r.0|], parse, nowMs)
  {
    var delivered := Delivered(items);
    assert delivered == items[..|delivered|];
    (ForwardStream(delivered), BookStreamUsage(t, key, delivered, parse, nowMs))
  }

  /**
    Recording the request and booking a whole stream's usage commute at one
    instant. The tracking middleware records the request before actix reads
    a streamed body and books its frames, and the order makes no difference
    to the final tracker.
   */
  lemma {:induction false} StreamBookingCommutes(t: RequestTracker, key: string, items: seq<StreamItem>,
                                                 parse: string -> Option<ChatCompletionChunk>,
                                                 latencyMs: nat, isError: bool, nowMs: nat)
    ensures RecordRequest(BookStreamUsage(t, key, items, parse, nowMs), key, latencyMs, isError, nowMs)
         == BookStreamUsage(RecordRequest(t, key, latencyMs, isError, nowMs), key, items, parse, nowMs)
    decreases |items|
  {
    if |items| > 0 {
      var init := items[..|items| - 1];
      var last := items[|items| - 1];
      StreamBookingCommutes(t, key, init, parse, latencyMs, isError, nowMs);
      if last.Bytes? && FrameUsage(last.data, parse).Some? {
        var (model, usage) := FrameUsage(last.data, parse).value;
        Tracking.RequestAndTokensCommute(BookStreamUsage(t, key, init, parse, nowMs), key, latencyMs, isError,
                                         usage.promptTokens, usage.completionTokens, model, nowMs);
      }
    }
  }

  /** An error item ends the response: nothing after it is forwarded or booked. */
  lemma FailureEndsStream(t: RequestTracker, key: string, before: seq<StreamItem>, e: ProviderError,
                          after: seq<StreamItem>, parse: string -> Option<ChatCompletionChunk>, nowMs: nat)
    requires forall i :: 0 <= i < |before| ==> before[i].Bytes?
    ensures var (out, t') := ConsumeStream(t, key, before + [ItemFailure(e)] + after, parse, nowMs);
            && out == ForwardStream(before) + [Abort(e)]
            && t' == BookStreamUsage(t, key, before, parse, nowMs)
  {
    var items := before + [ItemFailure(e)] + after;
    var d := Delivered(items);
    assert items[|before|].ItemFailure?;
    assert d == before + [ItemFailure(e)];
    assert d[..|d| - 1] == before;
    assert ForwardStream(d) == ForwardStream(before) + [Abort(e)];
  }


  /**
    `chat_completions` on the non-streaming path, given the provider's
    outcome: a completion is returned as JSON and, when the caller's key is
    known, its prompt and completion counts are booked under the reply's
    model; a failure becomes an error answer and books nothing.
   */
  function CompleteChat(t: RequestTracker, validated: Option<Auth.ValidatedApiKey>, result: ChatResult, nowMs: nat)
    : (r: (ChatReply, RequestTracker))
    ensures result.Err? ==> r == (Failure(ErrorToResponse(result.error)), t)
    ensures result.Ok? ==> r.0 == JsonReply(result.value)
    ensures result.Ok? && validated.None? ==> r.1 == t
    ensures result.Ok? && validated.Some? ==>
              var response := result.value;
              r.1 == RecordTokens(t, validated.value.key, response.usage.promptTokens,
                                  response.usage.completionTokens, response.model, nowMs)
  {
    match result
    case Err(e) => (Failure(ErrorToResponse(e)), t)
    case Ok(response) =>
      match validated
      case None => (JsonReply(response), t)
      case Some(v) =>
        (JsonReply(response),
         RecordTokens(t, v.key, response.usage.promptTokens, response.usage.completionTokens, response.model, nowMs))
  }

  /**
    `chat_completions`: the stream flag picks the provider's streaming or
    non-streaming call. Streamed usage is booked to the validated key, or to
    "unknown" without one.
   */
  function ChatCompletions(t: RequestTracker, validated: Option<Auth.ValidatedApiKey>, req: ChatCompletionRequest,
                           chat: ChatCompletionRequest -> ChatResult,
                           chatStream: ChatCompletionRequest -> StreamResult,
                           parse: string -> Option<ChatCompletionChunk>, nowMs: nat)
    : (r: (ChatReply, RequestTracker))
    ensures !IsStreaming(req) ==> r == CompleteChat(t, validated, chat(req), nowMs)
    ensures IsStreaming(req) && chatStream(req).Err? ==> r == (Failure(ErrorToResponse(chatStream(req).error)), t)
    ensures IsStreaming(req) && chatStream(req).Ok? ==>
              var (out, t') := ConsumeStream(t, TrackingMiddleware.TrackedKey(validated), chatStream(req).value, parse, nowMs);
              r == (EventStream(out), t')
  {
    if IsStreaming(req) then
      match chatStream(req)
      case Err(e) => (Failure(ErrorToResponse(e)), t)
      case Ok(items) =>
        var (out, t') := ConsumeStream(t, TrackingMiddleware.TrackedKey(validated), items, parse, nowMs);
        (EventStream(out), t')
    else CompleteChat(t, validated, chat(req), nowMs)
  }
}

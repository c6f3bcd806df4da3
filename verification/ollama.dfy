/**
  The Ollama backend's non-streaming path (src/providers/ollama.rs): the
  OpenAI-shaped request is turned into Ollama's `/api/chat` body, the HTTP
  exchange is an input, and Ollama's reply is turned into an OpenAI-shaped
  completion with a single "stop" choice.
 */
module Ollama {
  import opened Prelude
  import opened Models
  import opened Providers

  const CHAT_PATH: string := "/api/chat"
  const ID_PREFIX: string := "chatcmpl-"
  const OBJECT_KIND: string := "chat.completion"
  const FINISH_STOP: string := "stop"

  /** What posting one body to Ollama produced: no answer, an unreadable answer, or a reply. */
  datatype Exchange =
    | TransportFailed(reason: string)
    | BodyRejected(reason: string)
    | Received(body: OllamaResponse)

  /** The body sent upstream: the same model and messages, and never a streaming request. */
  function UpstreamRequest(req: ChatCompletionRequest): (o: OllamaRequest)
    ensures o.model == req.model
    ensures o.messages == req.messages
    ensures !o.stream
  {
    OllamaRequest(req.model, req.messages, false)
  }

  /** Ollama's reply in OpenAI shape. */
  function ToCompletion(data: OllamaResponse, ctx: CallContext): (r: ChatCompletionResponse)
    ensures StartsWith(r.id, ID_PREFIX) && r.id[|ID_PREFIX|..] == ctx.uuid
    ensures r.objectType == OBJECT_KIND
    ensures r.created == ctx.nowSecs
    ensures r.model == data.model
    ensures |r.choices| == 1
    ensures r.choices[0].index == 0
    ensures r.choices[0].message == data.message
    ensures r.choices[0].finishReason == FINISH_STOP
    ensures r.usage.promptTokens == data.promptEvalCount
    ensures r.usage.completionTokens == data.evalCount
    ensures data.promptEvalCount + data.evalCount < U32_LIMIT <==> UsageConsistent(r.usage)
  {
    ChatCompletionResponse(
      ID_PREFIX + ctx.uuid,
      OBJECT_KIND,
      ctx.nowSecs,
      data.model,
      [Choice(0, data.message, FINISH_STOP)],
      Usage(data.promptEvalCount, data.evalCount,
            WrappingAddU32(data.promptEvalCount, data.evalCount)))
  }

  /**
    `OllamaProvider::chat`: posts `UpstreamRequest(req)` to `baseUrl + "/api/chat"`
    through `send`; a transport failure is a `Network` error, an unreadable
    body a `Parse` error, and a reply becomes a completion.
   */
  function Chat(baseUrl: string, req: ChatCompletionRequest,
                send: (string, OllamaRequest) -> Exchange, ctx: CallContext): (r: ChatResult)
    ensures var ex := send(baseUrl + CHAT_PATH, UpstreamRequest(req));
            && (r.Ok? <==> ex.Received?)
            && (ex.TransportFailed? ==> r == Err(Network(ex.reason)))
            && (ex.BodyRejected? ==> r == Err(Parse(ex.reason)))
            && (ex.Received? ==> r.value == ToCompletion(ex.body, ctx))
  {
    match send(baseUrl + CHAT_PATH, UpstreamRequest(req))
    case TransportFailed(reason) => Err(Network(reason))
    case BodyRejected(reason) => Err(Parse(reason))
    case Received(body) => Ok(ToCompletion(body, ctx))
  }

  /**
    Whenever Ollama's two counts fit in a `u32` together, a successful reply
    carries `total = prompt + completion` and echoes the upstream message.
   */
  lemma ChatUsageConsistent(baseUrl: string, req: ChatCompletionRequest,
                            send: (string, OllamaRequest) -> Exchange, ctx: CallContext)
    requires send(baseUrl + CHAT_PATH, UpstreamRequest(req)).Received?
    requires var b := send(baseUrl + CHAT_PATH, UpstreamRequest(req)).body;
             b.promptEvalCount + b.evalCount < U32_LIMIT
    ensures Chat(baseUrl, req, send, ctx).Ok?
    ensures UsageConsistent(Chat(baseUrl, req, send, ctx).value.usage)
  {
  }

  /** With counts that do not fit, the reported total wraps and no longer equals the sum. */
  lemma WrappedTotalExample()
    ensures var data := OllamaResponse("m", "", Message("assistant", ""), true, 0, 0xFFFF_FFFF, 1);
            ToCompletion(data, CallContext("u", 0)).usage.totalTokens == 0
  {
  }
}

/**
  The `LLMProvider` objects the gateway can be configured with, and dynamic
  dispatch of `chat` / `chat_stream` over them (src/providers/mod.rs). A
  provider is an Ollama backend, an OpenAI-compatible backend, or a
  `FallbackProvider` over two other providers. What the network answers is
  the `Upstream` parameter.
 */
module ProviderTree {
  import opened Prelude
  import opened Models
  import opened Providers
  import Ollama
  import Fallback

  datatype LLMProvider =
    | OllamaBackend(baseUrl: string)
    | OpenAIBackend(baseUrl: string, apiKey: string)
    | FallbackBackend(primary: LLMProvider, backup: LLMProvider, fallbackModel: Option<string>)

  /**
    The outside world for one request: Ollama's answer to a posted body, the
    OpenAI-compatible backend's answer (given its base URL and key), the
    stream a backend opens, and the clock and UUID readings.
   */
  datatype Upstream = Upstream(
    ollama: (string, OllamaRequest) -> Ollama.Exchange,
    openai: (string, string, ChatCompletionRequest) -> ChatResult,
    stream: (LLMProvider, ChatCompletionRequest) -> StreamResult,
    ctx: CallContext)

  /** `provider.chat(req)`. */
  function Chat(p: LLMProvider, req: ChatCompletionRequest, up: Upstream): ChatResult
    decreases p
  {
    match p
    case OllamaBackend(url) => Ollama.Chat(url, req, up.ollama, up.ctx)
    case OpenAIBackend(url, key) => up.openai(url, key, req)
    case FallbackBackend(primary, backup, model) =>
      Fallback.Chat(r => Chat(primary, r, up), r => Chat(backup, r, up), model, req).0
  }

  /**
    A fallback node answers with its primary's success, and otherwise with
    what its backup answers to the request under the configured model name.
   */
  lemma FallbackNodeChat(primary: LLMProvider, backup: LLMProvider, model: Option<string>,
                         req: ChatCompletionRequest, up: Upstream)
    ensures var first := Chat(primary, req, up);
            Chat(FallbackBackend(primary, backup, model), req, up) ==
              if first.Ok? then first else Chat(backup, Fallback.BackupRequest(req, model), up)
  {
    var f := r => Chat(primary, r, up);
    var g := r => Chat(backup, r, up);
    assert Chat(FallbackBackend(primary, backup, model), req, up) == Fallback.Chat(f, g, model, req).0;
  }

  /** `provider.chat_stream(req)`. */
  function ChatStream(p: LLMProvider, req: ChatCompletionRequest, up: Upstream): StreamResult
    decreases p
  {
    match p
    case FallbackBackend(primary, backup, _) =>
      Fallback.ChatStream(r => ChatStream(primary, r, up), r => ChatStream(backup, r, up), req)
    case _ => up.stream(p, req)
  }

  /** Streaming through any tree of fallbacks reaches the first primary alone. */
  function StreamingLeaf(p: LLMProvider): (leaf: LLMProvider)
    ensures !leaf.FallbackBackend?
    decreases p
  {
    if p.FallbackBackend? then StreamingLeaf(p.primary) else p
  }

  /** A stream is always opened by the leftmost leaf of the tree, with the client's request unchanged. */
  lemma {:induction false} ChatStreamUsesPrimaryLeaf(p: LLMProvider, req: ChatCompletionRequest, up: Upstream)
    ensures ChatStream(p, req, up) == up.stream(StreamingLeaf(p), req)
    decreases p
  {
    if p.FallbackBackend? {
      ChatStreamUsesPrimaryLeaf(p.primary, req, up);
    }
  }
}

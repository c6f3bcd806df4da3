/**
  The wire shapes of the gateway (src/models/mod.rs): the OpenAI-style request
  and response the clients see, and the request and response of the local
  Ollama daemon. Serialisation is not modelled; these are the values serde
  would produce or consume.
 */
module Models {
  import opened Prelude

  /** One chat message; `role` is free text ("user", "assistant", ...). */
  datatype Message = Message(role: string, content: string)

  /** One completion alternative. */
  datatype Choice = Choice(index: u32, message: Message, finishReason: string)

  /** Token accounting of one completion; every count is a `u32`. */
  datatype Usage = Usage(promptTokens: u32, completionTokens: u32, totalTokens: u32)

  /**
    The client's request. `stream` is the optional flag the chat handler reads
    (`request.stream.unwrap_or(false)`); the request record itself does not
    declare it, so the model adds it as the optional boolean the handler
    evidently expects.
   */
  datatype ChatCompletionRequest = ChatCompletionRequest(
    model: string,
    messages: seq<Message>,
    stream: Option<bool>)

  /** The OpenAI-shaped reply; `created` is seconds since the Unix epoch (`u64`). */
  datatype ChatCompletionResponse = ChatCompletionResponse(
    id: string,
    objectType: string,
    created: nat,
    model: string,
    choices: seq<Choice>,
    usage: Usage)

  /** The body posted to Ollama's `/api/chat`. */
  datatype OllamaRequest = OllamaRequest(model: string, messages: seq<Message>, stream: bool)

  /** Ollama's non-streaming reply. */
  datatype OllamaResponse = OllamaResponse(
    model: string,
    createdAt: string,
    message: Message,
    done: bool,
    totalDuration: nat,
    promptEvalCount: u32,
    evalCount: u32)

  /**
    One parsed server-sent-event payload of a streamed completion, as far as
    the chat handler reads it: the model name and, on the frame that carries
    it, the usage record. The handler names this type but the models file
    does not define it; only the two fields the handler reads are modelled.
   */
  datatype ChatCompletionChunk = ChatCompletionChunk(model: string, usage: Option<Usage>)

  /** The total is the sum of its parts. */
  predicate UsageConsistent(u: Usage) {
    u.totalTokens == u.promptTokens + u.completionTokens
  }
}

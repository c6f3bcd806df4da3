/**
  The provider interface (src/providers/mod.rs): what a backend call can
  produce. A non-streaming call yields a whole response or one error, never
  both; a streaming call fails up front or yields a sequence of items, each
  a chunk of bytes or an error.
 */
module Providers {
  import opened Prelude
  import opened Models

  /** The three ways a provider call fails. */
  datatype ProviderError =
    | Network(msg: string)
    | Parse(msg: string)
    | StatusError(status: u16, message: string)

  /** Outcome of `LLMProvider::chat`. */
  type ChatResult = Result<ChatCompletionResponse, ProviderError>

  /** One item of a provider stream: a frame of text, or an error. */
  datatype StreamItem = Bytes(data: string) | ItemFailure(error: ProviderError)

  /** Outcome of `LLMProvider::chat_stream`: the items the stream yields, in order. */
  type StreamResult = Result<seq<StreamItem>, ProviderError>

  /** The readings a call takes from the outside world: a fresh UUID and the wall clock. */
  datatype CallContext = CallContext(uuid: string, nowSecs: nat)
}

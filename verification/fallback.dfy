/**
  `FallbackProvider` (src/providers/fallback.rs): try the primary provider,
  and only when it fails send the request, possibly with another model name,
  to the backup. Streaming uses the primary alone. The two providers are
  modelled by what their calls return, so the policy holds for any backends.
 */
module Fallback {
  import opened Prelude
  import opened Models
  import opened Providers

  /** A provider call the policy made, with the request it passed. */
  datatype Attempt = PrimaryCalled(request: ChatCompletionRequest) | BackupCalled(request: ChatCompletionRequest)

  /** The request the backup receives: the original, with `model` replaced when an override is configured. */
  function BackupRequest(req: ChatCompletionRequest, fallbackModel: Option<string>): (b: ChatCompletionRequest)
    ensures b.messages == req.messages && b.stream == req.stream
    ensures b.model == fallbackModel.GetOr(req.model)
    ensures fallbackModel.None? ==> b == req
  {
    match fallbackModel
    case Some(m) => req.(model := m)
    case None => req
  }

  /**
    `FallbackProvider::chat`: the result returned and the calls made, in order.
    A successful primary answer is returned as is and the backup is never
    called; otherwise the backup is called exactly once and its result,
    success or error, is the answer.
   */
  function Chat(primary: ChatCompletionRequest -> ChatResult,
                backup: ChatCompletionRequest -> ChatResult,
                fallbackModel: Option<string>,
                req: ChatCompletionRequest): (r: (ChatResult, seq<Attempt>))
    ensures |r.1| >= 1 && r.1[0] == PrimaryCalled(req)
    ensures primary(req).Ok? ==> r.0 == primary(req) && r.1 == [PrimaryCalled(req)]
    ensures primary(req).Err? ==>
              && r.1 == [PrimaryCalled(req), BackupCalled(BackupRequest(req, fallbackModel))]
              && r.0 == backup(BackupRequest(req, fallbackModel))
  {
    match primary(req)
    case Ok(response) => (Ok(response), [PrimaryCalled(req)])
    case Err(_) =>
      var b := BackupRequest(req, fallbackModel);
      (backup(b), [PrimaryCalled(req), BackupCalled(b)])
  }

  /** The answer is an error only when both providers failed, and then it is the backup's error. */
  lemma ChatErrorIsBackups(primary: ChatCompletionRequest -> ChatResult,
                           backup: ChatCompletionRequest -> ChatResult,
                           fallbackModel: Option<string>, req: ChatCompletionRequest)
    ensures var r := Chat(primary, backup, fallbackModel, req).0;
            r.Err? <==> primary(req).Err? && backup(BackupRequest(req, fallbackModel)).Err?
    ensures var r := Chat(primary, backup, fallbackModel, req).0;
            r.Err? ==> r == backup(BackupRequest(req, fallbackModel))
  {
  }

  /** While the primary answers, the backup and its model override make no difference. */
  lemma ChatIgnoresBackupOnSuccess(primary: ChatCompletionRequest -> ChatResult,
                                   backup1: ChatCompletionRequest -> ChatResult,
                                   backup2: ChatCompletionRequest -> ChatResult,
                                   model1: Option<string>, model2: Option<string>,
                                   req: ChatCompletionRequest)
    requires primary(req).Ok?
    ensures Chat(primary, backup1, model1, req) == Chat(primary, backup2, model2, req)
  {
  }

  /** `FallbackProvider::chat_stream`: streaming is delegated to the primary alone. */
  function ChatStream(primary: ChatCompletionRequest -> StreamResult,
                      backup: ChatCompletionRequest -> StreamResult,
                      req: ChatCompletionRequest): StreamResult
  {
    primary(req)
  }

  /** The backup is never consulted for a stream: whatever it is, the outcome is the primary's. */
  lemma ChatStreamIgnoresBackup(primary: ChatCompletionRequest -> StreamResult,
                                backup1: ChatCompletionRequest -> StreamResult,
                                backup2: ChatCompletionRequest -> StreamResult,
                                req: ChatCompletionRequest)
    ensures ChatStream(primary, backup1, req) == ChatStream(primary, backup2, req) == primary(req)
  {
  }
}

/** Whole runs: what the HTTP triggers start, and complete histories of the
    transcription orchestrator, including one driven by the mock transcriber. */
module Scenarios {
  import opened Wrappers
  import Text
  import opened Orchestrators
  import PollingProperties
  import BatchTranscriber
  import FunctionApp

  /** An accepted upload starts the transcription orchestrator, whose first
      action is to start transcribing the stored file; the index it will fill
      is named after the podcast. */
  lemma UploadStartsTranscription<F>(file: Option<F>, podcastId: string,
                                     store: (F, string) -> Result<string, string>,
                                     start: (string, TranscribeInput) -> Result<string, string>)
    requires FunctionApp.UploadPodcast(file, podcastId, store, start).CheckStatusReply?
    ensures var r := FunctionApp.UploadPodcast(file, podcastId, store, start);
      && Decide(r.input, []) == Some(CallActivity(StartTranscription, Plain(store(file.value, podcastId).value), None))
      && IndexName(r.input.podcastId) == podcastId + "-index"
  {
  }

  /** An accepted query starts the RAG orchestrator, whose only call carries
      the query, the filters and the index name of the request. */
  lemma QueryStartsRagQuery(body: Result<FunctionApp.QueryBody, string>,
                            start: (string, RagInput) -> Result<string, string>)
    requires FunctionApp.QueryPodcasts(body, start).CheckStatusReply?
    ensures RagDecide(FunctionApp.QueryPodcasts(body, start).input, []) ==
      Some(CallActivity(ProcessRagQuery, RagRequest(body.value.query.value, body.value.filters, body.value.indexName),
                        Some(RagRetryOptions)))
  {
  }

  /** With the mock transcriber, the first status check already yields the
      transcript, so the orchestrator goes straight to creating the index. */
  lemma MockRunIndexesAtOnce(input: TranscribeInput, t0: int, t1: int)
    ensures var id := BatchTranscriber.MockStartTranscription(input.fileUrl);
      var h := [ActivityCompleted(Some(id), t0), ActivityCompleted(BatchTranscriber.MockGetTranscriptionResult(id), t1)];
      && Decide(input, h[..1]) == Some(CallActivity(CheckTranscription, Plain("mock_transcription_id"), None))
      && Decide(input, h) == Some(CallActivity(CreateSearchIndex, Plain(IndexName(input.podcastId)), None))
  {
    var id := BatchTranscriber.MockStartTranscription(input.fileUrl);
    var e0 := ActivityCompleted(Some(id), t0);
    var e1 := ActivityCompleted(BatchTranscriber.MockGetTranscriptionResult(id), t1);
    ReplaySnoc(input, [], e0);
    assert [] + [e0] == [e0, e1][..1];
    ReplaySnoc(input, [e0], e1);
    assert [e0] + [e1] == [e0, e1];
  }

  /** The job "j1" is not ready at the first two checks and then yields
      "hello world": two 10-second timers, three checks, then the index is
      created, filled with "hello world", and its name returned. Times are
      seconds after `t`, when the job was started; each history extends the
      previous one by one event. */
  lemma PollTwiceThenIndex(input: TranscribeInput, t: int)
    ensures var h1 := [ActivityCompleted(Some("j1"), t)];
      var h2 := h1 + [ActivityCompleted(None, t + 5)];
      var h3 := h2 + [TimerFired(t + 15)];
      var h4 := h3 + [ActivityCompleted(None, t + 20)];
      var h5 := h4 + [TimerFired(t + 30)];
      var h6 := h5 + [ActivityCompleted(Some("hello world"), t + 35)];
      var h7 := h6 + [ActivityCompleted(None, t + 40)];
      var h8 := h7 + [ActivityCompleted(None, t + 45)];
      && Decide(input, h2) == Some(CreateTimer(t + 15))
      && Decide(input, h4) == Some(CreateTimer(t + 30))
      && Decide(input, h7) == Some(CallActivity(IndexTranscript, IndexRequest(IndexName(input.podcastId), "hello world"), None))
      && Decide(input, h8) == Some(Return(IndexNameJson(IndexName(input.podcastId))))
      && ChecksIssued(input, h8) == 3 && TimersCreated(input, h8) == 2
  {
    var h0: seq<Event> := [];
    var h1 := h0 + [ActivityCompleted(Some("j1"), t)];
    var h2 := h1 + [ActivityCompleted(None, t + 5)];
    var h3 := h2 + [TimerFired(t + 15)];
    var h4 := h3 + [ActivityCompleted(None, t + 20)];
    var h5 := h4 + [TimerFired(t + 30)];
    var h6 := h5 + [ActivityCompleted(Some("hello world"), t + 35)];
    var h7 := h6 + [ActivityCompleted(None, t + 40)];
    var h8 := h7 + [ActivityCompleted(None, t + 45)];
    PollingProperties.CountsAtStart(input);
    ReplaySnoc(input, h0, ActivityCompleted(Some("j1"), t));
    PollingProperties.CountsSnoc(input, h0, ActivityCompleted(Some("j1"), t));
    ReplaySnoc(input, h1, ActivityCompleted(None, t + 5));
    PollingProperties.CountsSnoc(input, h1, ActivityCompleted(None, t + 5));
    ReplaySnoc(input, h2, TimerFired(t + 15));
    PollingProperties.CountsSnoc(input, h2, TimerFired(t + 15));
    ReplaySnoc(input, h3, ActivityCompleted(None, t + 20));
    PollingProperties.CountsSnoc(input, h3, ActivityCompleted(None, t + 20));
    ReplaySnoc(input, h4, TimerFired(t + 30));
    PollingProperties.CountsSnoc(input, h4, TimerFired(t + 30));
    ReplaySnoc(input, h5, ActivityCompleted(Some("hello world"), t + 35));
    PollingProperties.CountsSnoc(input, h5, ActivityCompleted(Some("hello world"), t + 35));
    ReplaySnoc(input, h6, ActivityCompleted(None, t + 40));
    PollingProperties.CountsSnoc(input, h6, ActivityCompleted(None, t + 40));
    ReplaySnoc(input, h7, ActivityCompleted(None, t + 45));
    PollingProperties.CountsSnoc(input, h7, ActivityCompleted(None, t + 45));
    assert h1 == [ActivityCompleted(Some("j1"), t)];
  }
}

/** The two orchestrator functions of function_app.py, as the Durable
    Functions runtime sees them: given the orchestration's input and the
    history of results received so far, the generator is replayed and stops at
    its next `yield` (an activity call or a timer) or at its `return`.

    The generator's progress is an explicit phase; `Step` is what one history
    event does to it, `Replay` folds `Step` over the history, and `Decide` is
    the action pending after the replay. `Event.at` is the value of
    `context.current_utc_datetime`, in seconds, once the orchestrator resumes
    on that event; nothing here reads a clock. */
module Orchestrators {
  import opened Wrappers
  import Text

  const StartTranscription: string := "start_transcription"
  const CheckTranscription: string := "check_transcription"
  const CreateSearchIndex: string := "create_search_index"
  const IndexTranscript: string := "index_transcript"
  const ProcessRagQuery: string := "process_rag_query"

  /** `timedelta(hours=2)` and `timedelta(seconds=10)`, in seconds. */
  const MaxWait: int := 7200
  const PollInterval: int := 10

  const NotStartedMessage: string := "Transcription could not be started"

  /** The input of `transcribe_and_index_orchestrator`. */
  datatype TranscribeInput = TranscribeInput(fileUrl: string, podcastId: string)

  /** The input of `rag_query_orchestrator`; filters and index name may be None. */
  datatype RagInput = RagInput(query: string, filters: Option<string>, indexName: Option<string>)

  /** `df.RetryOptions`. */
  datatype RetryOptions = RetryOptions(firstRetryIntervalMs: nat, maxNumberOfAttempts: nat)

  /** The retry options of the RAG query: 3 attempts, 3000 ms apart. */
  const RagRetryOptions: RetryOptions := RetryOptions(3000, 3)

  /** The payload of an activity call. The two JSON payloads are kept as
      records of the keys `json.dumps` writes. */
  datatype ActivityInput =
    | Plain(text: string)
    | IndexRequest(indexName: string, transcript: string)
    | RagRequest(query: string, filters: Option<string>, index: Option<string>)

  /** What an orchestrator returns: `None`, `json.dumps({"index_name": ...})`,
      `{"error": str(e)}`, or the answer of the RAG activity as it came. */
  datatype Output =
    | NoneOutput
    | IndexNameJson(indexName: string)
    | ErrorDict(error: string)
    | Answer(answer: Option<string>)

  /** What the orchestrator asks the runtime to do next. */
  datatype Action =
    | CallActivity(name: string, input: ActivityInput, retry: Option<RetryOptions>)
    | CreateTimer(fireAt: int)
    | Return(output: Output)

  /** One entry of the history: the result of the awaited activity (an
      optional string), its failure as `str(e)`, or the awaited timer firing. */
  datatype Event =
    | ActivityCompleted(result: Option<string>, at: int)
    | ActivityFailed(reason: string, at: int)
    | TimerFired(at: int)

  /** `get_index_name`: the podcast id followed by "-index". */
  function IndexName(podcastId: string): (name: string)
    ensures |name| == |podcastId| + 6
    ensures name[..|podcastId|] == podcastId && name[|podcastId|..] == "-index"
  {
    podcastId + "-index"
  }

  /** Two podcasts share an index only if they have the same id. */
  lemma IndexNameInjective(a: string, b: string)
    ensures IndexName(a) == IndexName(b) ==> a == b
  {
  }

  // ---------------------------------------------------------------------
  // transcribe_and_index_orchestrator

  /** Where the generator is suspended, or how it ended. `Diverged` is a
      history the generator cannot have produced: an event of the wrong kind
      for the pending `yield`, or any event after the generator returned. */
  datatype Phase =
    | AwaitStart
    | AwaitCheck(transcriptionId: string, expiry: int)
    | AwaitTimer(transcriptionId: string, expiry: int, fireAt: int)
    | AwaitCreateIndex(transcript: string)
    | AwaitIndexing(transcript: string)
    | Finished(output: Output)
    | Diverged

  /** The head of `while context.current_utc_datetime < expiry_time`: check
      the transcription again, or fall off the end of the generator. */
  function LoopHead(transcriptionId: string, expiry: int, now: int): Phase {
    if now < expiry then AwaitCheck(transcriptionId, expiry) else Finished(NoneOutput)
  }

  /** Resume the generator at its pending `yield` with one history event. An
      activity failure is raised at the `yield` and caught by the `except`,
      which returns `{"error": str(e)}`. */
  function Step(input: TranscribeInput, p: Phase, e: Event): Phase {
    match p
    case AwaitStart =>
      if e.ActivityFailed? then Finished(ErrorDict(e.reason))
      else if e.TimerFired? then Diverged
      else if !Text.Truthy(e.result) then Finished(ErrorDict(NotStartedMessage))
      else LoopHead(e.result.value, e.at + MaxWait, e.at)
    case AwaitCheck(id, expiry) =>
      if e.ActivityFailed? then Finished(ErrorDict(e.reason))
      else if e.TimerFired? then Diverged
      else if Text.Truthy(e.result) then AwaitCreateIndex(e.result.value)
      else AwaitTimer(id, expiry, e.at + PollInterval)
    case AwaitTimer(id, expiry, _) =>
      if e.TimerFired? then LoopHead(id, expiry, e.at) else Diverged
    case AwaitCreateIndex(transcript) =>
      if e.ActivityFailed? then Finished(ErrorDict(e.reason))
      else if e.TimerFired? then Diverged
      else AwaitIndexing(transcript)
    case AwaitIndexing(_) =>
      if e.ActivityFailed? then Finished(ErrorDict(e.reason))
      else if e.TimerFired? then Diverged
      else Finished(IndexNameJson(IndexName(input.podcastId)))
    case Finished(_) => Diverged
    case Diverged => Diverged
  }

  /** The phase reached by replaying the whole history from the first `yield`. */
  function Replay(input: TranscribeInput, history: seq<Event>): Phase {
    if history == [] then AwaitStart
    else Step(input, Replay(input, history[..|history| - 1]), history[|history| - 1])
  }

  /** Replay is incremental: one more event is one more step. */
  lemma ReplaySnoc(input: TranscribeInput, history: seq<Event>, e: Event)
    ensures Replay(input, history + [e]) == Step(input, Replay(input, history), e)
  {
  }

  /** The action pending in a phase; a diverged history has none. */
  function PendingAction(input: TranscribeInput, p: Phase): Option<Action> {
    match p
    case AwaitStart => Some(CallActivity(StartTranscription, Plain(input.fileUrl), None))
    case AwaitCheck(id, _) => Some(CallActivity(CheckTranscription, Plain(id), None))
    case AwaitTimer(_, _, fireAt) => Some(CreateTimer(fireAt))
    case AwaitCreateIndex(_) => Some(CallActivity(CreateSearchIndex, Plain(IndexName(input.podcastId)), None))
    case AwaitIndexing(transcript) =>
      Some(CallActivity(IndexTranscript, IndexRequest(IndexName(input.podcastId), transcript), None))
    case Finished(output) => Some(Return(output))
    case Diverged => None
  }

  /** `transcribe_and_index_orchestrator` replayed over `history`: the next
      action it asks for, or None when the history is not one it can produce. */
  function Decide(input: TranscribeInput, history: seq<Event>): (a: Option<Action>)
    ensures history == [] ==> a == Some(CallActivity(StartTranscription, Plain(input.fileUrl), None))
  {
    PendingAction(input, Replay(input, history))
  }

  /** The action pending after each prefix of the history, from the empty one
      to the whole history: the calls and timers the orchestrator has asked
      for so far, followed by the one it asks for now. */
  function Trace(input: TranscribeInput, history: seq<Event>): (t: seq<Option<Action>>)
    ensures |t| == |history| + 1
  {
    if history == [] then [Decide(input, [])]
    else Trace(input, history[..|history| - 1]) + [Decide(input, history)]
  }

  predicate IsCheckCall(a: Option<Action>) {
    a.Some? && a.value.CallActivity? && a.value.name == CheckTranscription
  }

  predicate IsTimer(a: Option<Action>) {
    a.Some? && a.value.CreateTimer?
  }

  /** How many entries of a trace satisfy `p`. */
  function Count(t: seq<Option<Action>>, p: Option<Action> -> bool): nat {
    if t == [] then 0 else Count(t[..|t| - 1], p) + (if p(t[|t| - 1]) then 1 else 0)
  }

  /** The `check_transcription` calls asked for while replaying `history`. */
  function ChecksIssued(input: TranscribeInput, history: seq<Event>): nat {
    Count(Trace(input, history), IsCheckCall)
  }

  /** The timers created while replaying `history`. */
  function TimersCreated(input: TranscribeInput, history: seq<Event>): nat {
    Count(Trace(input, history), IsTimer)
  }

  // ---------------------------------------------------------------------
  // rag_query_orchestrator

  /** `rag_query_orchestrator` replayed over `history`: a single
      `call_activity_with_retry("process_rag_query", ...)`, whose answer (or
      failure, as `{"error": str(e)}`) is returned. */
  function RagDecide(input: RagInput, history: seq<Event>): (a: Option<Action>)
    ensures history == [] ==>
      a == Some(CallActivity(ProcessRagQuery, RagRequest(input.query, input.filters, input.indexName), Some(RagRetryOptions)))
  {
    if history == [] then
      Some(CallActivity(ProcessRagQuery, RagRequest(input.query, input.filters, input.indexName), Some(RagRetryOptions)))
    else if |history| > 1 then None
    else match history[0]
      case ActivityCompleted(answer, _) => Some(Return(Answer(answer)))
      case ActivityFailed(reason, _) => Some(Return(ErrorDict(reason)))
      case TimerFired(_) => None
  }

  /** The RAG orchestrator asks for exactly one activity call, the retried
      "process_rag_query" with 3 attempts 3000 ms apart, and never for a timer. */
  lemma RagSingleRetriedCall(input: RagInput, history: seq<Event>)
    ensures var a := RagDecide(input, history);
      && (a.Some? && a.value.CallActivity? <==> history == [])
      && (a.Some? && a.value.CallActivity? ==>
            a.value.name == ProcessRagQuery && a.value.retry == Some(RetryOptions(3000, 3)))
      && !(a.Some? && a.value.CreateTimer?)
  {
  }

  /** After its single call, the RAG orchestrator returns the answer as the
      activity produced it, or the error of a call that failed after its
      retries. */
  lemma RagReturnsAnswerOrError(input: RagInput, e: Event)
    requires !e.TimerFired?
    ensures e.ActivityCompleted? ==> RagDecide(input, [e]) == Some(Return(Answer(e.result)))
    ensures e.ActivityFailed? ==> RagDecide(input, [e]) == Some(Return(ErrorDict(e.reason)))
  {
  }
}

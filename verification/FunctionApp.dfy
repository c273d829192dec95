/** The HTTP entry points of function_app.py (their request validation and
    the orchestration each one starts) and the context string that the
    "process_rag_query" activity builds from the search results. Storage,
    the orchestration client and the wall clock are parameters. */
module FunctionApp {
  import opened Wrappers
  import Text
  import Orchestrators
  import SearchService

  const NoFileMessage: string := "No file uploaded"
  const NoQueryMessage: string := "No query provided"
  const ExcerptSeparator: string := "\n\n"

  /** What an HTTP trigger gives back. */
  datatype HttpReply<I> =
    /** `func.HttpResponse(json.dumps({"error": error}), status_code=statusCode)` */
    | JsonErrorReply(statusCode: int, error: string)
    /** `create_check_status_response` for the orchestration just started */
    | CheckStatusReply(instanceId: string, orchestrator: string, input: I)
    /** `upload_podcast`'s exception handler returns a bare `{"error": str(e)}` */
    | ErrorDictReply(error: string)

  /** The JSON body of a query request, as far as the trigger reads it. */
  datatype QueryBody = QueryBody(query: Option<string>, indexName: Option<string>, filters: Option<string>)

  /** `upload_podcast`. `file` is the uploaded file, if any; `podcastId` the id
      made from the clock; `store` uploads the file into a container named
      after the podcast and gives its URL or raises; `start` starts an
      orchestration and gives its instance id or raises. */
  function UploadPodcast<F>(file: Option<F>, podcastId: string,
                            store: (F, string) -> Result<string, string>,
                            start: (string, Orchestrators.TranscribeInput) -> Result<string, string>)
    : (r: HttpReply<Orchestrators.TranscribeInput>)
    ensures file.None? <==> r == JsonErrorReply(400, NoFileMessage)
    ensures r.CheckStatusReply? ==>
      && file.Some? && store(file.value, podcastId).Success?
      && r.orchestrator == "transcribe_and_index_orchestrator"
      && r.input == Orchestrators.TranscribeInput(store(file.value, podcastId).value, podcastId)
      && start(r.orchestrator, r.input) == Success(r.instanceId)
    ensures file.Some? && store(file.value, podcastId).Failure? ==>
      r == ErrorDictReply(store(file.value, podcastId).error)
    ensures file.Some? && store(file.value, podcastId).Success? ==>
      var input := Orchestrators.TranscribeInput(store(file.value, podcastId).value, podcastId);
      var started := start("transcribe_and_index_orchestrator", input);
      && (started.Success? ==> r == CheckStatusReply(started.value, "transcribe_and_index_orchestrator", input))
      && (started.Failure? ==> r == ErrorDictReply(started.error))
  {
    if file.None? then JsonErrorReply(400, NoFileMessage)
    else match store(file.value, podcastId)
      case Failure(e) => ErrorDictReply(e)
      case Success(fileUrl) =>
        var input := Orchestrators.TranscribeInput(fileUrl, podcastId);
        match start("transcribe_and_index_orchestrator", input)
        case Failure(e) => ErrorDictReply(e)
        case Success(id) => CheckStatusReply(id, "transcribe_and_index_orchestrator", input)
  }

  /** `query_podcasts`. `body` is the parsed request body, or the error of
      parsing it; `start` starts an orchestration. A missing or empty query is
      rejected with 400 before anything is started; other exceptions become a
      500 reply. */
  function QueryPodcasts(body: Result<QueryBody, string>,
                         start: (string, Orchestrators.RagInput) -> Result<string, string>)
    : (r: HttpReply<Orchestrators.RagInput>)
    ensures body.Success? && !Text.Truthy(body.value.query) ==> r == JsonErrorReply(400, NoQueryMessage)
    ensures body.Failure? ==> r == JsonErrorReply(500, body.error)
    ensures r.CheckStatusReply? ==>
      && body.Success? && Text.Truthy(body.value.query)
      && r.orchestrator == "rag_query_orchestrator"
      && r.input == Orchestrators.RagInput(body.value.query.value, body.value.filters, body.value.indexName)
      && start(r.orchestrator, r.input) == Success(r.instanceId)
    ensures body.Success? && Text.Truthy(body.value.query) ==>
      var input := Orchestrators.RagInput(body.value.query.value, body.value.filters, body.value.indexName);
      var started := start("rag_query_orchestrator", input);
      && (started.Success? ==> r == CheckStatusReply(started.value, "rag_query_orchestrator", input))
      && (started.Failure? ==> r == JsonErrorReply(500, started.error))
    ensures !r.ErrorDictReply?
  {
    match body
    case Failure(e) => JsonErrorReply(500, e)
    case Success(b) =>
      if !Text.Truthy(b.query) then JsonErrorReply(400, NoQueryMessage)
      else
        var input := Orchestrators.RagInput(b.query.value, b.filters, b.indexName);
        match start("rag_query_orchestrator", input)
        case Failure(e) => JsonErrorReply(500, e)
        case Success(id) => CheckStatusReply(id, "rag_query_orchestrator", input)
  }

  /** `f"Podcast Excerpt {index}: {r['content']}"`. */
  function Excerpt(index: nat, content: string): string {
    "Podcast Excerpt " + Text.NatToString(index) + ": " + content
  }

  /** The excerpts of the search results, numbered from 0 in result order. */
  function Excerpts<S>(results: seq<SearchService.SearchResult<S>>): (entries: seq<string>)
    ensures |entries| == |results|
    ensures forall i :: 0 <= i < |results| ==> entries[i] == Excerpt(i, results[i].content)
  {
    seq(|results|, i requires 0 <= i < |results| => Excerpt(i, results[i].content))
  }

  /** The context `process_rag_query` gives the language model: the excerpts
      joined by blank lines. */
  function RagContext<S>(results: seq<SearchService.SearchResult<S>>): string {
    Text.Join(Excerpts(results), ExcerptSeparator)
  }

  /** The context grows by one excerpt per search result: no results give "",
      and a further result adds a blank line and its excerpt, numbered by its
      position. */
  lemma RagContextSnoc<S>(results: seq<SearchService.SearchResult<S>>, r: SearchService.SearchResult<S>)
    ensures RagContext<S>([]) == ""
    ensures results == [] ==> RagContext(results + [r]) == Excerpt(0, r.content)
    ensures results != [] ==>
      RagContext(results + [r]) == RagContext(results) + "\n\n" + Excerpt(|results|, r.content)
  {
    assert Excerpts(results + [r]) == Excerpts(results) + [Excerpt(|results|, r.content)];
    if results != [] {
      Text.JoinSnoc(Excerpts(results), Excerpt(|results|, r.content), ExcerptSeparator);
    }
  }
}

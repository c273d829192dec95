# Podcast transcription and RAG back end: a Dafny model

This project models the parts of a podcast-processing Azure Functions app whose behaviour can be stated. In that app, an uploaded audio file is transcribed by a batch speech-to-text job. A durable orchestrator polls the job until the transcript is ready. The transcript is then chunked, embedded and indexed in a search index. Queries are answered by retrieval-augmented generation over that index. Every Azure service is an input to the model: a reply, or a function from the request sent to the reply received.

- `Orchestrators.dfy` models the two orchestrator generators of `function_app.py`. The Durable Functions runtime replays a generator over the history of results. Each generator is therefore a pure replay function: `Step` applies one history event to the generator's phase, `Replay` folds it over the history, and `Decide` gives the pending action: call an activity, create a timer, or return an output. The module also holds `get_index_name` and the retry options of the RAG query.
- `PollingProperties.dfy` holds what the transcription orchestrator guarantees over whole runs:
  - the start and the stop on a falsy job id;
  - the expiry, computed once;
  - one 10-second timer per unready check;
  - at most 720 status checks;
  - the exact indexing sequence;
  - the end of the run after any failure or after the expiry.
- `BatchTranscriber.dfy` models `services/batch_transcriber.py`: the job request body, the job id taken from the reply, the decision procedure of `get_transcription_result` (a method with the source's loop over the phrases), and the mock transcriber.
- `SearchService.dfy` models `services/search_service.py`: the `chunk-i` documents built by the indexing loop, the search request, and the order-preserving projection of hits to `{content, score}`. Vectors and scores stay opaque.
- `Response.dfy` models `models/response.py`: the three response dataclasses and `to_dict`.
- `FunctionApp.dfy` models the two HTTP triggers (their validation guards and the orchestration each starts) and the excerpt context built in `process_rag_query`.
- `Scenarios.dfy` holds whole runs: what an accepted upload or query starts, a run with the mock transcriber, and a run that polls twice before indexing.
- `Text.dfy` holds the Python string operations the code relies on: `sep.join`, `str.split`, `str(i)` and the truthiness of an optional string. `Wrappers.dfy` holds `Option` and `Result`.

Time is an integer number of seconds. Each history event carries the value of `context.current_utc_datetime` once the orchestrator resumes on that event. A history the generator cannot have produced is one with an event of the wrong kind for the pending `yield`, or any event after the `return`. `Decide` maps such a history to `None`.

Behaviours of the code in `function_app.py` worth knowing:

- When the expiry is reached, the code falls off the end of the generator and returns `None`. It does not fail with a timeout.
- Failures are returned as an `{"error": ...}` output. They do not fail the orchestration instance.
- The poll interval is 10 seconds. The code comment says 30.
- The expiry is tested only before a status check is asked for. The timer is due 10 seconds after that check completes, which can be any time after the expiry. `PollingProperties.TimerCanBeDueAfterExpiry` shows it for a check that completes one second before the expiry.

## Model

| member | source | states |
|---|---|---|
| `Response.NewSuccessResponse` | models/response.py:25-30 | a `SuccessResponse` has status "success" and no message or data unless given |
| `Response.NewErrorResponse` | models/response.py:40-44 | an `ErrorResponse` has status "error" and no data field at all |
| `Response.BaseDict` | models/response.py:13-18 | the base dictionary always maps "status" to the status, has "message" iff the message is not None, and has no other key |
| `Response.BaseToDict` | models/response.py:13-18 | building the dictionary step by step yields exactly the base dictionary |
| `Response.ToDict` | models/response.py:32-37 | `to_dict` is the base dictionary plus at most "data"; "data" is present iff the response is a `SuccessResponse` with data that is not None, and then holds that data |
| `BatchTranscriber.RaiseForStatus` | services/batch_transcriber.py:32-36 | a reply is accepted iff the transport succeeded and its status is outside 400-599; an accepted reply yields its body |
| `BatchTranscriber.RequestBody` | services/batch_transcriber.py:13-29 | the job request has `contentUrls == [audio_url]` and the given locale, "en-US" by default |
| `BatchTranscriber.TranscriptionId` | services/batch_transcriber.py:39 | the id is the suffix of `self` after its last '/', contains no '/', is all of `self` when `self` has no '/', and is "" when `self` is absent |
| `BatchTranscriber.StartTranscription` | services/batch_transcriber.py:13-45 | the request body is posted; a transport or HTTP error is re-raised; otherwise the result is the id taken from the reply |
| `BatchTranscriber.Displays` | services/batch_transcriber.py:100-103 | one line per recognised phrase, in order, "" for a phrase without `display` |
| `BatchTranscriber.GetTranscriptionResult` | services/batch_transcriber.py:59-105 | a failed request raises; "Failed" raises with the provider's message; any other status but "Succeeded" gives None; a missing files link, an empty `values` list or a missing `contentUrl` gives None; otherwise the phrases are joined by "\n" |
| `BatchTranscriber.TranscriptReady` | services/batch_transcriber.py:100-105 | the joined transcript is truthy iff there are two or more phrases, or one phrase with a non-empty display; zero phrases give "" |
| `BatchTranscriber.MockStartTranscription` | services/batch_transcriber.py:122-129 | the mock always returns the truthy id "mock_transcription_id" |
| `BatchTranscriber.MockGetTranscriptionResult` | services/batch_transcriber.py:131-137 | the mock always returns the same truthy transcript |
| `Text.Split` | services/batch_transcriber.py:39 | `split("/")` gives at least one part, no part contains the separator, and joining the parts back gives the input |
| `Text.ParseNatToString` | services/search_service.py:26 | the decimal rendering `str(i)` reads back as `i`, so different positions get different renderings |
| `SearchService.ChunkIdInjective` | services/search_service.py:26 | different chunk positions get different "chunk-i" ids |
| `SearchService.BuildDocuments` | services/search_service.py:23-34 | there are `min(len(chunks), len(embeddings))` documents; document i is `{"chunk-i", chunks[i], embeddings[i]}`; ids are pairwise distinct |
| `SearchService.IndexTranscriptChunks` | services/search_service.py:19-43 | exactly the built documents are uploaded, and a failed upload is re-raised unchanged |
| `SearchService.SearchRequestFor` | services/search_service.py:45-59 | the search passes through the query text, the filter and `top` (5 by default), with one vector query on "contentVector" with 50 nearest neighbours, and selects only "content" |
| `SearchService.ProjectResults` | services/search_service.py:61-69 | one `{content, score}` record per hit, in hit order |
| `SearchService.SearchTranscripts` | services/search_service.py:45-73 | a failed search is re-raised unchanged; otherwise the results are the hits projected in order |
| `Orchestrators.IndexName` | function_app.py:94-95 | the index name is the podcast id followed by "-index" |
| `Orchestrators.IndexNameInjective` | function_app.py:94-95 | different podcasts get different index names |
| `Orchestrators.Decide` | function_app.py:98-133 | replaying the transcription orchestrator over an empty history asks for "start_transcription" with the file URL |
| `Orchestrators.RagDecide` | function_app.py:139-163 | the RAG orchestrator first asks for "process_rag_query" with the query, filters and index name, under the retry options |
| `Orchestrators.RagSingleRetriedCall` | function_app.py:149-159 | the RAG orchestrator makes exactly one activity call, with 3 attempts 3000 ms apart, and never sets a timer |
| `Orchestrators.RagReturnsAnswerOrError` | function_app.py:159-163 | the RAG orchestrator returns the activity's answer, or `{"error": str(e)}` when the call failed |
| `PollingProperties.FirstActionStartsTranscription` | function_app.py:110 | on an empty history the only action is calling "start_transcription" with `file_url` |
| `PollingProperties.StartRequestedOnce` | function_app.py:108-131 | after the first event, "start_transcription" is never asked for again |
| `PollingProperties.NotStartedEndsOrchestration` | function_app.py:110-112 | a falsy job id returns `{"error": "Transcription could not be started"}`; no check and no timer is ever asked for, and nothing follows |
| `PollingProperties.ActivityFailureReturnsError` | function_app.py:132-133 | any failed activity ends the run with output `{"error": str(e)}` |
| `PollingProperties.NothingAfterReturn` | function_app.py:129-133 | once the orchestrator has returned, no further event yields an action |
| `PollingProperties.ExpiryComputedOnce` | function_app.py:115 | while polling, the id is the one returned by "start_transcription", and the expiry is that call's completion time plus 7200 s |
| `PollingProperties.CheckOnlyBeforeExpiry` | function_app.py:117-119 | "check_transcription" is asked for only while the current time is before the expiry |
| `PollingProperties.FalsyCheckSchedulesTimer` | function_app.py:130-131 | a falsy check result is followed by exactly one timer, at the check's completion time plus 10 s |
| `PollingProperties.TimerCanBeDueAfterExpiry` | function_app.py:117-131 | a check that completes one second before the expiry sets a timer due nine seconds after the expiry |
| `PollingProperties.TimerFiredChecksOrReturnsNone` | function_app.py:117-131 | when a timer fires before the expiry, the same id is checked again; at or after the expiry the output is None and nothing follows |
| `PollingProperties.TranscriptLeadsToIndexing` | function_app.py:121-129 | a truthy transcript leads to `create_search_index(index_name)`, then `index_transcript({index_name, transcript})`, then the return of `{"index_name"}`, with nothing in between |
| `PollingProperties.PollInvStep` | function_app.py:115-131 | one event keeps the polling invariant: the c-th check is due no earlier than 10·(c−1) s after the start, and before the expiry |
| `PollingProperties.PollingInvariant` | function_app.py:115-131 | the polling invariant holds after every history whose clock never goes back and whose timers never fire early |
| `PollingProperties.AtMost720Checks` | function_app.py:114-131 | under such a clock, at most 720 "check_transcription" calls are made |
| `FunctionApp.UploadPodcast` | function_app.py:25-53 | a request without a file gets 400 `{"error": "No file uploaded"}`; a storage failure or a failed start gets a bare `{"error": str(e)}` dict; a stored file always starts the transcription orchestrator with the stored file's URL and the podcast id, and a successful start gets the check-status reply for that instance |
| `FunctionApp.QueryPodcasts` | function_app.py:60-91 | a missing or empty query gets 400 `{"error": "No query provided"}`; an unreadable body or a failed start gets 500; a non-empty query always starts the RAG orchestrator with the query, filters and index name, and a successful start gets the check-status reply for that instance |
| `FunctionApp.Excerpts` | function_app.py:333-334 | entry i is "Podcast Excerpt i: " followed by the content of result i, with i counted from 0 in result order |
| `FunctionApp.RagContextSnoc` | function_app.py:333-334 | the context of no results is ""; each further result adds "\n\n" and its numbered excerpt at the end |
| `Scenarios.UploadStartsTranscription` | function_app.py:40-49 | an accepted upload starts a run whose first action transcribes the stored file, into the index named after the podcast |
| `Scenarios.QueryStartsRagQuery` | function_app.py:78-81 | an accepted query starts a run whose only call carries the request's query, filters and index name |
| `Scenarios.MockRunIndexesAtOnce` | services/batch_transcriber.py:119-137 | with the mock transcriber, the first check already leads to creating the search index |
| `Scenarios.PollTwiceThenIndex` | function_app.py:108-131 | a job that is ready at the third check gives two timers and three checks, then the indexing sequence |

## Left out

- All Azure and HTTP I/O: blob upload and SAS URLs, index schema creation, embeddings, the language-model calls, and the `requests` calls themselves. Each appears only as a parameter: a reply, or a function from the request to the reply.
- The Durable Functions runtime: history persistence, the dispatcher, and the actual execution of retries and timers. Retry options are data on the action.
- How the runtime words an activity failure. `ActivityFailed` carries the `str(e)` the orchestrator sees.
- `json.dumps` and `json.loads`. The JSON payloads (`index_transcript`'s input, the RAG query data, the orchestrator's `{"index_name"}` output) are records of their keys.
- `to_json` in models/response.py, for the same reason.
- JSON documents of an unexpected shape: a non-string `self`, a `links` value that is null, a body that is not an object, a hit without "content", a phrase whose "display" is null (the join then raises a TypeError, where `BatchTranscriber.Displays` gives ""), a null "combinedRecognizedPhrases". Each would raise in Python; the model types the documents instead.
- `podcast_id` generation from `datetime.utcnow()`, which reads the wall clock. The id is a parameter.
- The file check in `upload_podcast`. It is modelled as presence of the file. A present file object that Python considers falsy is not distinguished.
- services/chunking_service.py, a wrapper over the `semchunk` and `tiktoken` libraries. The chunks are an input of `SearchService.BuildDocuments`.
- services/azure_rag_service.py, which is not used by the app. services/podcast_summarizer.py, which no orchestrator calls.
- services/index_creation_service.py, services/storage_service.py, services/embedding_service.py and services/rag_answer_generator.py. They are SDK calls without logic of their own.
- config.py and models/podcast.py, which hold plain dataclasses and enums.
- The activity functions `create_search_index`, `index_transcript` and `process_rag_query`, beyond the excerpt context. Their bodies are sequences of service calls.
- Logging and `print`.

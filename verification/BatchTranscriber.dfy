/** services/batch_transcriber.py: the request sent to start a batch
    transcription job, the job id taken from the service's reply, and the
    decision procedure that turns the job's status and result documents into
    a transcript, "not ready yet" (None) or an exception. The HTTP calls are
    parameters: each maps the URL or body that the source sends to the reply
    it gets. */
module BatchTranscriber {
  import opened Wrappers
  import Text

  const DefaultLocale: string := "en-US"
  const DisplayName: string := "test podcast transcription"
  const MockTranscriptionId: string := "mock_transcription_id"
  const MockTranscript: string := "This is a mock transcription for testing."

  /** What a `requests` call yields: a reply with a status code and a decoded
      JSON body, or an exception raised by the transport. */
  datatype Http<T> = Reply(statusCode: int, body: T) | TransportError(message: string)

  /** The exceptions `BatchTranscriber` lets escape. */
  datatype TranscriberError =
    | RequestFailed(message: string)        // raised by the transport
    | HttpStatusError(statusCode: int)      // raised by `raise_for_status`
    | TranscriptionFailed(message: string)  // the job reports status "Failed"
    | MissingErrorDetails                   // "Failed" without properties.error: the attribute lookup itself fails

  /** The request body of `start_transcription`. */
  datatype TranscriptionRequest = TranscriptionRequest(contentUrls: seq<string>, locale: string, displayName: string)

  /** The reply to the job creation request; `self` is the job's URL. */
  datatype CreatedJob = CreatedJob(self: Option<string>)

  /** The status document of a job. */
  datatype StatusDoc = StatusDoc(status: Option<string>, properties: Option<StatusProperties>, links: Option<StatusLinks>)
  datatype StatusProperties = StatusProperties(error: Option<ProviderError>)
  datatype ProviderError = ProviderError(message: Option<string>)
  datatype StatusLinks = StatusLinks(files: Option<string>)

  /** The list of result files; a missing "values" key reads as the empty list. */
  datatype FilesDoc = FilesDoc(values: seq<FileEntry>)
  datatype FileEntry = FileEntry(links: Option<FileLinks>)
  datatype FileLinks = FileLinks(contentUrl: Option<string>)

  /** The transcript file; a missing "combinedRecognizedPhrases" reads as the empty list. */
  datatype ResultDoc = ResultDoc(combinedRecognizedPhrases: seq<Phrase>)
  datatype Phrase = Phrase(display: Option<string>)

  /** `response.raise_for_status()` followed by `response.json()`: a 4xx or 5xx
      status raises, and so does a transport failure. */
  function RaiseForStatus<T>(reply: Http<T>): (r: Result<T, TranscriberError>)
    ensures r.Success? <==> reply.Reply? && !(400 <= reply.statusCode < 600)
    ensures r.Success? ==> r.value == reply.body
    ensures reply.TransportError? ==> r == Failure(RequestFailed(reply.message))
  {
    match reply
    case TransportError(m) => Failure(RequestFailed(m))
    case Reply(code, body) =>
      if 400 <= code < 600 then Failure(HttpStatusError(code)) else Success(body)
  }

  /** The body `start_transcription` posts: the audio URL as the only content
      URL, the locale ("en-US" unless given) and a fixed display name. */
  function RequestBody(audioUrl: string, locale: string := DefaultLocale): (body: TranscriptionRequest)
    ensures body.contentUrls == [audioUrl]
    ensures body.locale == locale
  {
    TranscriptionRequest([audioUrl], locale, DisplayName)
  }

  /** `response.json().get("self", "").split("/")[-1]`: the text after the last
      '/' of the job URL, the whole URL when it has no '/', and "" when the
      reply has no "self". */
  function TranscriptionId(self: Option<string>): (id: string)
    ensures '/' !in id
    ensures var s := self.GetOr(""); |id| <= |s| && s[|s| - |id|..] == id
    ensures var s := self.GetOr(""); '/' !in s ==> id == s
    ensures var s := self.GetOr(""); '/' in s ==> |id| < |s| && s[|s| - |id| - 1] == '/'
    ensures self.None? ==> id == ""
  {
    var s := self.GetOr("");
    var parts := Text.Split(s, '/');
    var n := |parts|;
    if n == 1 then
      parts[0]
    else
      assert parts == parts[..n - 1] + [parts[n - 1]];
      Text.JoinSnoc(parts[..n - 1], parts[n - 1], "/");
      parts[n - 1]
  }

  /** `start_transcription`: post the request body, fail on a transport or
      HTTP error, and return the job id from the reply. */
  function StartTranscription(audioUrl: string, post: TranscriptionRequest -> Http<CreatedJob>,
                              locale: string := DefaultLocale): (r: Result<string, TranscriberError>)
    ensures var reply := RaiseForStatus(post(RequestBody(audioUrl, locale)));
      && (r.Success? <==> reply.Success?)
      && (r.Success? ==> r.value == TranscriptionId(reply.value.self))
      && (r.Failure? ==> r.error == reply.error)
  {
    match RaiseForStatus(post(RequestBody(audioUrl, locale)))
    case Failure(e) => Failure(e)
    case Success(job) => Success(TranscriptionId(job.self))
  }

  /** `status.get("links", {}).get("files")`. */
  function FilesLink(doc: StatusDoc): Option<string> {
    if doc.links.Some? then doc.links.value.files else None
  }

  /** `results_files[0].get("links", {}).get("contentUrl")`. */
  function ContentUrl(entry: FileEntry): Option<string> {
    if entry.links.Some? then entry.links.value.contentUrl else None
  }

  /** The exception raised for a job whose status is "Failed": the provider's
      message (Python prints a missing one as "None"), or the failure of the
      lookup itself when the document has no properties.error. */
  function FailedJobError(doc: StatusDoc): TranscriberError {
    if doc.properties.None? || doc.properties.value.error.None? then MissingErrorDetails
    else
      var m := doc.properties.value.error.value.message;
      TranscriptionFailed("Transcription failed: " + m.GetOr("None"))
  }

  /** The display text of each phrase, in order, "" for a phrase without one. */
  function Displays(phrases: seq<Phrase>): (lines: seq<string>)
    ensures |lines| == |phrases|
    ensures forall k :: 0 <= k < |phrases| ==> lines[k] == phrases[k].display.GetOr("")
  {
    seq(|phrases|, k requires 0 <= k < |phrases| => phrases[k].display.GetOr(""))
  }

  /** `get_transcription_result`: a chain of early exits, then the phrases of
      the transcript joined by newlines. */
  method GetTranscriptionResult(transcriptionId: string,
                                getStatus: string -> Http<StatusDoc>,
                                getFiles: string -> Http<FilesDoc>,
                                getContent: string -> Http<ResultDoc>)
    returns (r: Result<Option<string>, TranscriberError>)
    // the status request fails
    ensures var st := RaiseForStatus(getStatus(transcriptionId));
      st.Failure? ==> r == Failure(st.error)
    // the job failed: raise with the provider's message
    ensures var st := RaiseForStatus(getStatus(transcriptionId));
      st.Success? && st.value.status == Some("Failed") ==> r == Failure(FailedJobError(st.value))
    // any other status but "Succeeded": not ready
    ensures var st := RaiseForStatus(getStatus(transcriptionId));
      st.Success? && st.value.status != Some("Failed") && st.value.status != Some("Succeeded") ==> r == Success(None)
    // succeeded, but no link to the result files: not ready
    ensures var st := RaiseForStatus(getStatus(transcriptionId));
      st.Success? && st.value.status == Some("Succeeded") && !Text.Truthy(FilesLink(st.value)) ==> r == Success(None)
    // the remaining cases read the files list, then the first file's content
    ensures var st := RaiseForStatus(getStatus(transcriptionId));
      st.Success? && st.value.status == Some("Succeeded") && Text.Truthy(FilesLink(st.value)) ==>
        var fl := RaiseForStatus(getFiles(FilesLink(st.value).value));
        && (fl.Failure? ==> r == Failure(fl.error))
        && (fl.Success? && |fl.value.values| == 0 ==> r == Success(None))
        && (fl.Success? && |fl.value.values| > 0 && !Text.Truthy(ContentUrl(fl.value.values[0])) ==> r == Success(None))
        && (fl.Success? && |fl.value.values| > 0 && Text.Truthy(ContentUrl(fl.value.values[0])) ==>
              var ct := RaiseForStatus(getContent(ContentUrl(fl.value.values[0]).value));
              && (ct.Failure? ==> r == Failure(ct.error))
              && (ct.Success? ==> r == Success(Some(Text.Join(Displays(ct.value.combinedRecognizedPhrases), "\n")))))
  {
    var st := RaiseForStatus(getStatus(transcriptionId));
    if st.Failure? {
      return Failure(st.error);
    }
    var status := st.value;
    if status.status == Some("Failed") {
      return Failure(FailedJobError(status));
    }
    if status.status != Some("Succeeded") {
      return Success(None);
    }
    var files := FilesLink(status);
    if !Text.Truthy(files) {
      return Success(None);
    }
    var fl := RaiseForStatus(getFiles(files.value));
    if fl.Failure? {
      return Failure(fl.error);
    }
    var resultsFiles := fl.value.values;
    if |resultsFiles| == 0 {
      return Success(None);
    }
    var resultUrl := ContentUrl(resultsFiles[0]);
    if !Text.Truthy(resultUrl) {
      return Success(None);
    }
    var ct := RaiseForStatus(getContent(resultUrl.value));
    if ct.Failure? {
      return Failure(ct.error);
    }
    var phrases := ct.value.combinedRecognizedPhrases;
    var combined: seq<string> := [];
    for i := 0 to |phrases|
      invariant |combined| == i
      invariant forall k :: 0 <= k < i ==> combined[k] == phrases[k].display.GetOr("")
    {
      combined := combined + [phrases[i].display.GetOr("")];
    }
    assert combined == Displays(phrases);
    return Success(Some(Text.Join(combined, "\n")));
  }

  /** A transcript counts as ready for the orchestrator exactly when it has at
      least two phrases or a single phrase with a non-empty display text; in
      particular a transcript with no phrase is "" and reads as not ready. */
  lemma TranscriptReady(phrases: seq<Phrase>)
    ensures Text.Truthy(Some(Text.Join(Displays(phrases), "\n"))) <==>
              |phrases| >= 2 || (|phrases| == 1 && phrases[0].display.GetOr("") != "")
  {
  }

  /** `MockBatchTranscriber.start_transcription`: always the same, truthy, id. */
  function MockStartTranscription(audioUrl: string, locale: string := DefaultLocale): (id: string)
    ensures id == MockTranscriptionId && Text.Truthy(Some(id))
  {
    MockTranscriptionId
  }

  /** `MockBatchTranscriber.get_transcription_result`: always the same, truthy,
      transcript. */
  function MockGetTranscriptionResult(transcriptionId: string): (t: Option<string>)
    ensures t == Some(MockTranscript) && Text.Truthy(t)
  {
    Some(MockTranscript)
  }
}

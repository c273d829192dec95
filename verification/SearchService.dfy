/** services/search_service.py: the documents `index_transcript_chunks`
    uploads and the records `search_transcripts` returns. The search client is
    a parameter: the outcome of its upload, or the hits of its search. Vectors
    (`V`) and scores (`S`) are kept opaque. */
module SearchService {
  import opened Wrappers
  import Text

  const ChunkIdPrefix: string := "chunk-"
  const DefaultTop: int := 5
  const KNearestNeighbors: nat := 50
  const VectorField: string := "contentVector"

  /** One uploaded document: `{"id", "content", "contentVector"}`. */
  datatype Document<V> = Document(id: string, content: string, contentVector: V)

  /** `VectorizedQuery(vector, k_nearest_neighbors, fields)`. */
  datatype VectorizedQuery<V> = VectorizedQuery(vector: V, kNearestNeighbors: nat, fields: string)

  /** The arguments of `search_client.search`. */
  datatype SearchRequest<V> = SearchRequest(searchText: string, vectorQueries: seq<VectorizedQuery<V>>,
                                            filter: Option<string>, top: int, select: seq<string>)

  /** A hit returned by the search client, with its "content" and "@search.score". */
  datatype Hit<S> = Hit(content: string, score: S)

  /** A record of `search_transcripts`' result: exactly `{"content", "score"}`. */
  datatype SearchResult<S> = SearchResult(content: string, score: S)

  /** `f"chunk-{i}"`. */
  function ChunkId(i: nat): string {
    ChunkIdPrefix + Text.NatToString(i)
  }

  /** Different chunk positions get different document ids. */
  lemma ChunkIdInjective(i: nat, j: nat)
    ensures ChunkId(i) == ChunkId(j) ==> i == j
  {
    if ChunkId(i) == ChunkId(j) {
      assert ChunkId(i)[|ChunkIdPrefix|..] == Text.NatToString(i);
      assert ChunkId(j)[|ChunkIdPrefix|..] == Text.NatToString(j);
      Text.NatToStringInjective(i, j);
    }
  }

  /** The loop of `index_transcript_chunks` over `enumerate(zip(chunks, embeddings))`:
      one document per pair, so as many as the shorter list; document `i` is
      chunk `i` with embedding `i` under id "chunk-i"; the ids are pairwise
      distinct. */
  method BuildDocuments<V(==)>(chunks: seq<string>, embeddings: seq<V>) returns (documents: seq<Document<V>>)
    ensures |documents| == if |chunks| <= |embeddings| then |chunks| else |embeddings|
    ensures forall i :: 0 <= i < |documents| ==> documents[i] == Document(ChunkId(i), chunks[i], embeddings[i])
    ensures forall i, j :: 0 <= i < j < |documents| ==> documents[i].id != documents[j].id
  {
    var n := if |chunks| <= |embeddings| then |chunks| else |embeddings|;
    documents := [];
    for i := 0 to n
      invariant |documents| == i
      invariant forall k :: 0 <= k < i ==> documents[k] == Document(ChunkId(k), chunks[k], embeddings[k])
    {
      var docId := ChunkId(i);
      documents := documents + [Document(docId, chunks[i], embeddings[i])];
    }
    forall i, j | 0 <= i < j < |documents|
      ensures documents[i].id != documents[j].id
    {
      ChunkIdInjective(i, j);
    }
  }

  /** `index_transcript_chunks`: build the documents and upload them; a failed
      upload is re-raised unchanged. Returns the documents sent. */
  method IndexTranscriptChunks<V(==)>(chunks: seq<string>, embeddings: seq<V>,
                                      upload: seq<Document<V>> -> Option<string>)
    returns (documents: seq<Document<V>>, r: Result<(), string>)
    ensures |documents| == if |chunks| <= |embeddings| then |chunks| else |embeddings|
    ensures forall i :: 0 <= i < |documents| ==> documents[i] == Document(ChunkId(i), chunks[i], embeddings[i])
    ensures r.Failure? <==> upload(documents).Some?
    ensures r.Failure? ==> r.error == upload(documents).value
  {
    documents := BuildDocuments(chunks, embeddings);
    var failure := upload(documents);
    if failure.Some? {
      r := Failure(failure.value);
    } else {
      r := Success(());
    }
  }

  /** The search issued by `search_transcripts`: the query text, one vector
      query on "contentVector" with 50 nearest neighbours, the caller's filter
      and `top` (5 unless given), selecting only "content". */
  function SearchRequestFor<V>(queryText: string, queryEmbedding: V, filters: Option<string>,
                               top: int := DefaultTop): (q: SearchRequest<V>)
    ensures q.searchText == queryText && q.filter == filters && q.top == top
    ensures |q.vectorQueries| == 1 && q.vectorQueries[0].vector == queryEmbedding
    ensures q.vectorQueries[0].kNearestNeighbors == 50 && q.vectorQueries[0].fields == VectorField
    ensures q.select == ["content"]
  {
    SearchRequest(queryText, [VectorizedQuery(queryEmbedding, KNearestNeighbors, VectorField)],
                  filters, top, ["content"])
  }

  /** The loop of `search_transcripts`: one record per hit, in the same order. */
  method ProjectResults<S(==)>(hits: seq<Hit<S>>) returns (results: seq<SearchResult<S>>)
    ensures |results| == |hits|
    ensures forall i :: 0 <= i < |hits| ==> results[i] == SearchResult(hits[i].content, hits[i].score)
  {
    results := [];
    for i := 0 to |hits|
      invariant |results| == i
      invariant forall k :: 0 <= k < i ==> results[k] == SearchResult(hits[k].content, hits[k].score)
    {
      results := results + [SearchResult(hits[i].content, hits[i].score)];
    }
  }

  /** `search_transcripts`: issue the search and project its hits; a failed
      search is re-raised unchanged. */
  method SearchTranscripts<V, S(==)>(queryText: string, queryEmbedding: V, filters: Option<string>, top: int,
                                     search: SearchRequest<V> -> Result<seq<Hit<S>>, string>)
    returns (r: Result<seq<SearchResult<S>>, string>)
    ensures var hits := search(SearchRequestFor(queryText, queryEmbedding, filters, top));
      && (r.Failure? <==> hits.Failure?)
      && (r.Failure? ==> r.error == hits.error)
      && (r.Success? ==> |r.value| == |hits.value|)
      && (r.Success? ==> forall i :: 0 <= i < |hits.value| ==>
            r.value[i] == SearchResult(hits.value[i].content, hits.value[i].score))
  {
    var hits := search(SearchRequestFor(queryText, queryEmbedding, filters, top));
    if hits.Failure? {
      return Failure(hits.error);
    }
    var results := ProjectResults(hits.value);
    return Success(results);
  }
}

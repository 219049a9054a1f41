/**
 * The application service over the RAG repository: it normalises documents through
 * the Document value object, hands everything else to the repository unchanged, and
 * rethrows the repository's exceptions unchanged (it only logs them).
 */
module RagService {
  import opened Exceptions
  import opened Php
  import Ollama
  import Documents
  import Rag

  /** The service over one repository. */
  class RagService {
    const repository: Rag.RagRepository

    constructor(repository: Rag.RagRepository)
      ensures this.repository == repository
    {
      this.repository := repository;
    }

    /**
     * `search($query, $options)`: what the repository answers, unchanged, so the
     * repository's promises hold of it: ranked documents, their context, the options
     * used, the text generated from the prompt built from them, and both failures
     * passed through.
     */
    function Search(env: Ollama.Env, similarity: Rag.Similarity, query: string, options: Rag.Options): (r: Result<Rag.Answer>)
      reads repository
      ensures Rag.QueryEmbedding(env, query).Fail? ==> r == Fail(Rag.QueryEmbedding(env, query).error)
      ensures r.Ok? ==>
        Rag.QueryEmbedding(env, query).Ok? &&
        Rag.IsRanking(r.value.documents, Rag.Scored(repository.rows, similarity, Rag.QueryEmbedding(env, query).value),
                      Rag.Threshold(options), Rag.MaxResults(options)) &&
        r.value.context == Rag.BuildContext(r.value.documents) && r.value.options == Rag.Generation(options)
      ensures r.Ok? ==>
        var generated := Ollama.Generate(env, Rag.BuildPrompt(query, r.value.context), Rag.Given(Rag.Generation(options)));
        generated.Ok? && r.value.response == Coalesce(generated.value, StrKey("response"), Str(""))
      ensures Rag.QueryEmbedding(env, query).Ok? && r.Fail? ==>
        var found := Rag.FindSimilar(repository.rows, similarity, Rag.QueryEmbedding(env, query).value,
                                     Rag.Threshold(options), Rag.MaxResults(options));
        var generated := Ollama.Generate(env, Rag.BuildPrompt(query, Rag.BuildContext(found)), Rag.Given(Rag.Generation(options)));
        generated.Fail? && r.error == generated.error
      ensures r == repository.Search(env, similarity, query, options)
    {
      repository.Search(env, similarity, query, options)
    }

    /**
     * `store($documentData)`: the repository stores `Document::fromArray($documentData)->toArray()`,
     * only `content` and `metadata`, with their defaults filled in.
     */
    method Store(env: Ollama.Env, data: PhpArray) returns (r: Result<PhpArray>)
      requires repository.Valid()
      modifies repository
      ensures repository.Valid()
      ensures Documents.FromArray(data).Fail? ==>
        r == Fail(Documents.FromArray(data).error) && repository.rows == old(repository.rows) &&
        repository.nextId == old(repository.nextId)
      ensures Documents.FromArray(data).Ok? ==>
        var entry := Rag.Prepare(env, Documents.ToArray(Documents.FromArray(data).value));
        (entry.Fail? ==>
           r == Fail(entry.error) && repository.rows == old(repository.rows) &&
           repository.nextId == old(repository.nextId)) &&
        (entry.Ok? ==>
           repository.rows == old(repository.rows) + [Rag.Row(old(repository.nextId), entry.value)] &&
           repository.nextId == old(repository.nextId) + 1 &&
           r == Ok(Rag.Receipt(old(repository.nextId), env.now)))
    {
      var document := Documents.FromArray(data);
      if document.Fail? {
        r := Fail(document.error);
        return;
      }
      r := repository.Store(env, Documents.ToArray(document.value));
    }

    /** `delete($id)`: the repository deletes the row with that id, or fails, unchanged. */
    method Delete(id: string) returns (r: Result<()>)
      requires repository.Valid()
      modifies repository
      ensures repository.Valid() && repository.nextId == old(repository.nextId)
      ensures Rag.IndexOf(old(repository.rows), id).None? ==>
        repository.rows == old(repository.rows) &&
        r == Fail(Throwable(ModelNotFoundException,
          "No query results for model [Src\\RAG\\Infrastructure\\Models\\RAGDocument] " + id))
      ensures Rag.IndexOf(old(repository.rows), id).Some? ==>
        repository.rows == Rag.RemoveAt(old(repository.rows), Rag.IndexOf(old(repository.rows), id).value) &&
        r == Ok(())
    {
      r := repository.Delete(id);
    }
  }

  /**
   * The row a service store writes holds the normalised document: its content, its
   * metadata or [], and the embedding of that content; a failed embedding is rethrown.
   */
  lemma StoredDocument(env: Ollama.Env, data: PhpArray)
    requires Documents.FromArray(data).Ok?
    ensures var d := Documents.FromArray(data).value;
      var entry := Rag.Prepare(env, Documents.ToArray(d));
      (Ollama.GetEmbedding(env, d.content).Fail? ==> entry == Fail(Ollama.GetEmbedding(env, d.content).error)) &&
      (entry.Ok? ==>
         entry.value.content == d.content && entry.value.metadata == d.metadata &&
         Some(entry.value.embedding) == Get(Ollama.GetEmbedding(env, d.content).value, StrKey("response")))
  {
    var d := Documents.FromArray(data).value;
    Documents.ToArrayFields(d);
    Rag.PrepareEmbedsFirst(env, Documents.ToArray(d), d.content);
  }

  /** Data without metadata is stored with the empty metadata. */
  lemma StoredMetadataDefault(env: Ollama.Env, data: PhpArray)
    requires Documents.FromArray(data).Ok? && !IsSet(data, StrKey("metadata"))
    ensures var entry := Rag.Prepare(env, Documents.ToArray(Documents.FromArray(data).value));
      entry.Ok? ==> entry.value.metadata == Arr([])
  {
    StoredDocument(env, data);
  }
}

/**
 * The retrieval-augmented generation repository: the `rag_documents` table, the
 * similarity search over it, and the prompt built from the documents found.
 *
 * The LLM repository it calls is the Ollama repository of the Ollama module. The
 * cosine similarity pgvector computes between the query's embedding and a row's
 * embedding is an oracle; the search filters, orders and limits on those values.
 */
module Rag {
  import opened Exceptions
  import opened Php
  import Ollama

  /** What `store` writes into a new row besides its id. */
  datatype Entry = Entry(content: string, metadata: Value, embedding: Value)

  /** A row of `rag_documents`; ids are the auto-increment primary key. */
  datatype Row = Row(id: nat, entry: Entry)

  /** A row a search found, with the `similarity` column the query selects. */
  datatype Match = Match(row: Row, similarity: real)

  /** `1 - (embedding <=> query)`, for a query embedding and a row's embedding. */
  type Similarity = (PhpArray, Value) -> real

  // config/rag.php and config/ollama-laravel.php without environment overrides.
  const DefaultThreshold: real := 0.7
  const DefaultMaxResults: nat := 5
  const DefaultTemperature: real := 0.7
  const DefaultTopP: real := 0.9

  /** The search options a caller may give; None when absent or null. */
  datatype Options = Options(
    model: Option<string>,
    temperature: Option<real>,
    topP: Option<real>,
    threshold: Option<real>,
    maxResults: Option<nat>)

  function Threshold(options: Options): real {
    options.threshold.GetOr(DefaultThreshold)
  }

  function MaxResults(options: Options): nat {
    options.maxResults.GetOr(DefaultMaxResults)
  }

  /** The `$generationOptions` of a search: each option, or its configured default. */
  function Generation(options: Options): Ollama.Settings {
    Ollama.Settings(options.model.GetOr(Ollama.DefaultModel),
                    options.temperature.GetOr(DefaultTemperature),
                    options.topP.GetOr(DefaultTopP))
  }

  /** The generation options as the LLM repository receives them: all three keys set. */
  function Given(s: Ollama.Settings): Ollama.Options {
    Ollama.Options(Some(s.model), Some(s.temperature), Some(s.topP))
  }

  /** The LLM repository uses exactly the generation options the search chose. */
  lemma GivenSettingsUsed(options: Options)
    ensures Ollama.Resolve(Given(Generation(options))) == Generation(options)
    ensures Generation(options).model == options.model.GetOr("llama2")
    ensures Generation(options).temperature == options.temperature.GetOr(0.7)
    ensures Generation(options).topP == options.topP.GetOr(0.9)
    ensures Threshold(options) == options.threshold.GetOr(0.7) && MaxResults(options) == options.maxResults.GetOr(5)
  {
  }

  // ---------------------------------------------------------------------------
  // findSimilarDocuments

  /** Each row with its similarity to the query. */
  function Scored(rows: seq<Row>, similarity: Similarity, query: PhpArray): (ms: seq<Match>)
    ensures |ms| == |rows|
    ensures forall i :: 0 <= i < |rows| ==> ms[i] == Match(rows[i], similarity(query, rows[i].entry.embedding))
  {
    seq(|rows|, i requires 0 <= i < |rows| => Match(rows[i], similarity(query, rows[i].entry.embedding)))
  }

  /** The `whereRaw(... >= threshold)` filter: the matches at or above the threshold, each as often as before. */
  function Above(ms: seq<Match>, threshold: real): (r: seq<Match>)
    ensures forall i :: 0 <= i < |r| ==> r[i].similarity >= threshold
    ensures forall m :: multiset(r)[m] == if m.similarity >= threshold then multiset(ms)[m] else 0
    decreases |ms|
  {
    if ms == [] then []
    else
      assert ms == [ms[0]] + ms[1..];
      if ms[0].similarity >= threshold then [ms[0]] + Above(ms[1..], threshold)
      else Above(ms[1..], threshold)
  }

  ghost predicate Descending(ms: seq<Match>) {
    forall i, j :: 0 <= i < j < |ms| ==> ms[i].similarity >= ms[j].similarity
  }

  /** Put a match into a descending list, in front of the first one not more similar. */
  function Insert(m: Match, ms: seq<Match>): (r: seq<Match>)
    requires Descending(ms)
    ensures Descending(r)
    ensures multiset(r) == multiset(ms) + multiset{m}
    ensures |r| == |ms| + 1 && (r[0] == m || (ms != [] && r[0] == ms[0]))
    decreases |ms|
  {
    if ms == [] || ms[0].similarity <= m.similarity then [m] + ms
    else
      assert ms == [ms[0]] + ms[1..];
      [ms[0]] + Insert(m, ms[1..])
  }

  /** The `orderBy('similarity', 'desc')`: a descending permutation. */
  function SortDescending(ms: seq<Match>): (r: seq<Match>)
    ensures Descending(r)
    ensures multiset(r) == multiset(ms)
    decreases |ms|
  {
    if ms == [] then []
    else
      assert ms == [ms[0]] + ms[1..];
      Insert(ms[0], SortDescending(ms[1..]))
  }

  function Min(a: nat, b: nat): nat {
    if a < b then a else b
  }

  /** The filter, the descending order and the limit on scored candidates. */
  function Rank(candidates: seq<Match>, threshold: real, limit: nat): seq<Match> {
    var sorted := SortDescending(Above(candidates, threshold));
    sorted[..Min(limit, |sorted|)]
  }

  /** `findSimilarDocuments`: filter by the threshold, order by similarity, keep at most `limit`. */
  function FindSimilar(rows: seq<Row>, similarity: Similarity, query: PhpArray, threshold: real, limit: nat): seq<Match> {
    Rank(Scored(rows, similarity, query), threshold, limit)
  }

  /**
   * What a ranked search promises, whatever the order among equal similarities: the
   * matches found are candidates at or above the threshold, in descending order, as
   * many as the limit allows, and every candidate left out that reaches the threshold
   * is no more similar than any match found.
   */
  ghost predicate IsRanking(found: seq<Match>, candidates: seq<Match>, threshold: real, limit: nat) {
    |found| == Min(limit, |Above(candidates, threshold)|) &&
    (forall i :: 0 <= i < |found| ==> found[i].similarity >= threshold) &&
    Descending(found) &&
    multiset(found) <= multiset(candidates) &&
    (forall m :: m in multiset(candidates) - multiset(found) && m.similarity >= threshold ==>
       forall i :: 0 <= i < |found| ==> found[i].similarity >= m.similarity)
  }

  /** The filter keeps only candidates: it never adds a match, nor repeats one more often. */
  lemma AboveIncluded(ms: seq<Match>, threshold: real)
    ensures multiset(Above(ms, threshold)) <= multiset(ms)
    ensures forall m: Match :: m.similarity >= threshold ==> multiset(Above(ms, threshold))[m] == multiset(ms)[m]
  {
    var above := Above(ms, threshold);
    forall m
      ensures multiset(above)[m] <= multiset(ms)[m]
    {
    }
  }

  /** The first k of a descending list: descending, and part of the list. */
  lemma PrefixOf(sorted: seq<Match>, k: nat)
    requires Descending(sorted) && k <= |sorted|
    ensures Descending(sorted[..k]) && multiset(sorted[..k]) <= multiset(sorted)
  {
    assert sorted == sorted[..k] + sorted[k..];
  }

  /** A match of a descending list beyond its first k is no more similar than any of those k. */
  lemma {:induction false} PrefixBeats(sorted: seq<Match>, k: nat, m: Match)
    requires Descending(sorted) && k <= |sorted|
    requires m in multiset(sorted) - multiset(sorted[..k])
    ensures forall i :: 0 <= i < k ==> sorted[i].similarity >= m.similarity
  {
    assert sorted == sorted[..k] + sorted[k..];
    assert multiset(sorted) == multiset(sorted[..k]) + multiset(sorted[k..]);
    assert m in multiset(sorted[k..]);
    var j :| 0 <= j < |sorted[k..]| && sorted[k..][j] == m;
    assert sorted[k + j] == m;
  }

  /** Filtering, ordering and limiting candidates ranks them. */
  lemma RankIsRanking(candidates: seq<Match>, threshold: real, limit: nat)
    ensures IsRanking(Rank(candidates, threshold, limit), candidates, threshold, limit)
  {
    RankLength(candidates, threshold, limit);
    RankReachesThreshold(candidates, threshold, limit);
    RankOrdered(candidates, threshold, limit);
    RankKeepsBest(candidates, threshold, limit);
  }

  /** As many matches are found as the limit allows of those reaching the threshold. */
  lemma RankLength(candidates: seq<Match>, threshold: real, limit: nat)
    ensures |Rank(candidates, threshold, limit)| == Min(limit, |Above(candidates, threshold)|)
  {
    var above := Above(candidates, threshold);
    var sorted := SortDescending(above);
    assert |sorted| == |multiset(sorted)| == |multiset(above)| == |above|;
  }

  /** Every match found reaches the threshold. */
  lemma RankReachesThreshold(candidates: seq<Match>, threshold: real, limit: nat)
    ensures var found := Rank(candidates, threshold, limit);
      forall i :: 0 <= i < |found| ==> found[i].similarity >= threshold
  {
    var above := Above(candidates, threshold);
    var sorted := SortDescending(above);
    forall i | 0 <= i < Min(limit, |sorted|)
      ensures sorted[i].similarity >= threshold
    {
      assert sorted[i] in multiset(above);
      var j :| 0 <= j < |above| && above[j] == sorted[i];
    }
  }

  /** The matches found are in descending order and are candidates. */
  lemma RankOrdered(candidates: seq<Match>, threshold: real, limit: nat)
    ensures var found := Rank(candidates, threshold, limit);
      Descending(found) && multiset(found) <= multiset(candidates)
  {
    var sorted := SortDescending(Above(candidates, threshold));
    AboveIncluded(candidates, threshold);
    PrefixOf(sorted, Min(limit, |sorted|));
  }

  /** A candidate at or above the threshold that the limit cut off is no more similar than any match kept. */
  lemma RankKeepsBest(candidates: seq<Match>, threshold: real, limit: nat)
    ensures var found := Rank(candidates, threshold, limit);
      forall m :: m in multiset(candidates) - multiset(found) && m.similarity >= threshold ==>
        forall i :: 0 <= i < |found| ==> found[i].similarity >= m.similarity
  {
    var above := Above(candidates, threshold);
    var sorted := SortDescending(above);
    var k := Min(limit, |sorted|);
    var found := sorted[..k];
    forall m | m in multiset(candidates) - multiset(found) && m.similarity >= threshold
      ensures forall i :: 0 <= i < |found| ==> found[i].similarity >= m.similarity
    {
      assert multiset(above)[m] == multiset(candidates)[m];
      assert m in multiset(sorted) - multiset(found);
      PrefixBeats(sorted, k, m);
    }
  }

  /** The documents found are a ranking of all rows by their similarity to the query. */
  lemma FindSimilarRanks(rows: seq<Row>, similarity: Similarity, query: PhpArray, threshold: real, limit: nat)
    ensures IsRanking(FindSimilar(rows, similarity, query, threshold, limit),
                      Scored(rows, similarity, query), threshold, limit)
  {
    RankIsRanking(Scored(rows, similarity, query), threshold, limit);
  }

  // ---------------------------------------------------------------------------
  // buildContext, buildPrompt

  function Contents(found: seq<Match>): (cs: seq<string>)
    ensures |cs| == |found|
    ensures forall i :: 0 <= i < |found| ==> cs[i] == found[i].row.entry.content
  {
    seq(|found|, i requires 0 <= i < |found| => found[i].row.entry.content)
  }

  /** `buildContext`: the contents of the documents, in order, separated by a blank line. */
  function BuildContext(found: seq<Match>): string {
    Implode("\n\n", Contents(found))
  }

  /** No documents give the empty context; one document gives its content. */
  lemma BuildContextSmall(found: seq<Match>)
    ensures found == [] ==> BuildContext(found) == ""
    ensures |found| == 1 ==> BuildContext(found) == found[0].row.entry.content
  {
  }

  /** The context of two runs of documents is their contexts around a blank line. */
  lemma BuildContextAppend(a: seq<Match>, b: seq<Match>)
    requires a != [] && b != []
    ensures BuildContext(a + b) == BuildContext(a) + "\n\n" + BuildContext(b)
  {
    assert Contents(a + b) == Contents(a) + Contents(b);
    ImplodeAppend("\n\n", Contents(a), Contents(b));
  }

  const ContextLabel: string := "Contexto:\n"
  const QuestionLabel: string := "\n\nPregunta: "
  const AnswerLabel: string := "\n\nRespuesta:"

  /** `buildPrompt($query, $context)`. */
  function BuildPrompt(query: string, context: string): string {
    ContextLabel + context + QuestionLabel + query + AnswerLabel
  }

  /** The prompt holds the context and the question at fixed places between the template's labels. */
  lemma BuildPromptParts(query: string, context: string)
    ensures var p := BuildPrompt(query, context);
      |p| == |context| + |query| + 34 &&
      p[..10] == "Contexto:\n" &&
      p[10..10 + |context|] == context &&
      p[10 + |context|..22 + |context|] == "\n\nPregunta: " &&
      p[22 + |context|..22 + |context| + |query|] == query &&
      p[22 + |context| + |query|..] == "\n\nRespuesta:"
  {
    var p := BuildPrompt(query, context);
    assert p == ContextLabel + context + QuestionLabel + query + AnswerLabel;
    assert p[..10] == ContextLabel;
    assert p[10..10 + |context|] == context;
    assert p[10 + |context|..22 + |context|] == QuestionLabel;
    assert p[22 + |context|..22 + |context| + |query|] == query;
    assert p[22 + |context| + |query|..] == AnswerLabel;
  }

  /** Two prompts with contexts of one length are equal only for the same context and question. */
  lemma BuildPromptInjective(q1: string, c1: string, q2: string, c2: string)
    requires |c1| == |c2| && BuildPrompt(q1, c1) == BuildPrompt(q2, c2)
    ensures q1 == q2 && c1 == c2
  {
    BuildPromptParts(q1, c1);
    BuildPromptParts(q2, c2);
  }

  // ---------------------------------------------------------------------------
  // search

  const EmbeddingReturnType: string :=
    "Src\\RAG\\Infrastructure\\Repositories\\RAGRepository::getEmbedding(): Return value must be of type array, "

  /** The private `getEmbedding`: the `response` of the LLM repository's embedding, which must be an array. */
  function QueryEmbedding(env: Ollama.Env, text: string): (r: Result<PhpArray>)
    ensures Ollama.GetEmbedding(env, text).Fail? ==> r == Fail(Ollama.GetEmbedding(env, text).error)
    ensures r.Ok? ==>
      Ollama.GetEmbedding(env, text).Ok? && Get(Ollama.GetEmbedding(env, text).value, StrKey("response")) == Some(r.value)
    ensures Ollama.GetEmbedding(env, text).Ok? && r.Fail? ==> r.error.cls == TypeError
  {
    var reply :- Ollama.GetEmbedding(env, text);
    // An embedding answer always has its `response` entry.
    var embedding := Get(reply, StrKey("response")).value;
    if !embedding.Arr? then Fail(Throwable(TypeError, EmbeddingReturnType + TypeName(embedding) + " returned"))
    else Ok(embedding)
  }

  /** The answer of a search: `response`, `context`, `options` and `documents`. */
  datatype Answer = Answer(response: Value, context: string, options: Ollama.Settings, documents: seq<Match>)

  /** `store`'s answer: the new id, the status, and the time of storing. */
  function Receipt(id: nat, now: string): PhpArray {
    Arr([Field("id", Int(id)), Field("status", Str("stored")), Field("timestamp", Str(now))])
  }

  const GetEmbeddingArgumentType: string :=
    "Src\\LLM\\Infrastructure\\Repositories\\OllamaLLMRepository::getEmbedding(): Argument #1 ($prompt) must be of type string, "

  /**
   * What `store` computes before it creates the row: the content read from the document,
   * its embedding, and the metadata or [].
   */
  function Prepare(env: Ollama.Env, document: PhpArray): (r: Result<Entry>)
    ensures r.Ok? ==> Get(document, StrKey("content")) == Some(Str(r.value.content))
    ensures r.Ok? ==>
      Ollama.GetEmbedding(env, r.value.content).Ok? &&
      Get(Ollama.GetEmbedding(env, r.value.content).value, StrKey("response")) == Some(r.value.embedding)
    ensures r.Ok? ==> r.value.metadata == Coalesce(document, StrKey("metadata"), Arr([]))
    ensures Get(document, StrKey("content")).None? ==>
      r == Fail(Throwable(ErrorException, UndefinedKey(StrKey("content"))))
  {
    var content :- Read(document, StrKey("content"));
    if !content.Str? then
      Fail(Throwable(TypeError, GetEmbeddingArgumentType + TypeName(content) + " given"))
    else
      var reply :- Ollama.GetEmbedding(env, content.s);
      // `$embeddingResponse['response']`: an embedding answer always has it.
      Ok(Entry(content.s, Coalesce(document, StrKey("metadata"), Arr([])), Get(reply, StrKey("response")).value))
  }

  /** `store` embeds first: a failed embedding is rethrown unchanged, and nothing is written. */
  lemma PrepareEmbedsFirst(env: Ollama.Env, document: PhpArray, content: string)
    requires Get(document, StrKey("content")) == Some(Str(content))
    ensures Ollama.GetEmbedding(env, content).Fail? ==>
      Prepare(env, document) == Fail(Ollama.GetEmbedding(env, content).error)
    ensures Ollama.GetEmbedding(env, content).Ok? ==> Prepare(env, document).Ok?
  {
    if Ollama.GetEmbedding(env, content).Ok? {
      var out := Ollama.GetEmbedding(env, content).value;
      LookupAt(out.entries, 0);
    }
  }

  /** The position of the row whose id reads as `id`, if any. */
  function IndexOf(rows: seq<Row>, id: string): (r: Option<nat>)
    ensures r.Some? ==> r.value < |rows| && NatText(rows[r.value].id) == id
    ensures r.None? <==> forall j :: 0 <= j < |rows| ==> NatText(rows[j].id) != id
    decreases |rows|
  {
    if rows == [] then None
    else if NatText(rows[0].id) == id then Some(0)
    else
      match IndexOf(rows[1..], id)
      case Some(i) => Some(i + 1)
      case None => None
  }

  /** Ids in strictly increasing order, as auto-increment keys are. */
  ghost predicate Increasing(rows: seq<Row>) {
    forall i, j :: 0 <= i < j < |rows| ==> rows[i].id < rows[j].id
  }

  /** The table without the row at position i. */
  function RemoveAt(rows: seq<Row>, i: nat): seq<Row>
    requires i < |rows|
  {
    rows[..i] + rows[i + 1..]
  }

  /** Deleting the row with an id keeps exactly the other rows, in their order. */
  lemma RemoveAtExactly(rows: seq<Row>, id: string)
    requires Increasing(rows) && IndexOf(rows, id).Some?
    ensures var rest := RemoveAt(rows, IndexOf(rows, id).value);
      Increasing(rest) && |rest| == |rows| - 1 &&
      forall r :: r in rest <==> r in rows && NatText(r.id) != id
  {
    var i := IndexOf(rows, id).value;
    RemoveKeepsOthers(rows, i);
    RemoveDropsId(rows, i);
  }

  /** Every row but the one at i stays. */
  lemma RemoveKeepsOthers(rows: seq<Row>, i: nat)
    requires i < |rows|
    ensures forall r :: r in rows && r != rows[i] ==> r in RemoveAt(rows, i)
  {
    var rest := RemoveAt(rows, i);
    forall r | r in rows && r != rows[i]
      ensures r in rest
    {
      var j :| 0 <= j < |rows| && rows[j] == r;
      if j < i {
        assert rest[j] == r;
      } else {
        assert rest[j - 1] == r;
      }
    }
  }

  /** With increasing ids, what stays is in order and has none of the removed row's id. */
  lemma RemoveDropsId(rows: seq<Row>, i: nat)
    requires Increasing(rows) && i < |rows|
    ensures Increasing(RemoveAt(rows, i)) && |RemoveAt(rows, i)| == |rows| - 1
    ensures forall r :: r in RemoveAt(rows, i) ==> r in rows && NatText(r.id) != NatText(rows[i].id)
  {
    var rest := RemoveAt(rows, i);
    assert forall j :: 0 <= j < |rest| ==> rest[j] == rows[if j < i then j else j + 1];
    forall r | r in rest
      ensures r in rows && NatText(r.id) != NatText(rows[i].id)
    {
      var j :| 0 <= j < |rest| && rest[j] == r;
      var k := if j < i then j else j + 1;
      assert rows[k] == r && k != i;
      if NatText(r.id) == NatText(rows[i].id) {
        NatTextInjective(r.id, rows[i].id);
      }
    }
  }

  /**
   * Deleting the id a store just returned finds the new row and only it, and leaves the
   * table as it was before the store.
   */
  lemma {:induction false} StoreThenDelete(rows: seq<Row>, nextId: nat, entry: Entry)
    requires forall i :: 0 <= i < |rows| ==> rows[i].id < nextId
    ensures var stored := rows + [Row(nextId, entry)];
      IndexOf(stored, NatText(nextId)) == Some(|rows|) && RemoveAt(stored, |rows|) == rows
  {
    var stored := rows + [Row(nextId, entry)];
    forall j | 0 <= j < |rows|
      ensures NatText(stored[j].id) != NatText(nextId)
    {
      if NatText(stored[j].id) == NatText(nextId) {
        NatTextInjective(stored[j].id, nextId);
      }
    }
    IndexOfFirst(stored, NatText(nextId), |rows|);
    assert stored[..|rows|] == rows;
  }

  /** A row at position k is what IndexOf finds when no earlier row has its id. */
  lemma {:induction false} IndexOfFirst(rows: seq<Row>, id: string, k: nat)
    requires k < |rows| && NatText(rows[k].id) == id
    requires forall j :: 0 <= j < k ==> NatText(rows[j].id) != id
    ensures IndexOf(rows, id) == Some(k)
    decreases k
  {
    if k > 0 {
      assert rows[1..][k - 1] == rows[k];
      IndexOfFirst(rows[1..], id, k - 1);
    }
  }

  class RagRepository {
    /** The rows of `rag_documents`, in id order. */
    var rows: seq<Row>
    /** The id the next stored row receives. */
    var nextId: nat

    ghost predicate Valid()
      reads this
    {
      Increasing(rows) && (forall i :: 0 <= i < |rows| ==> rows[i].id < nextId) && nextId >= 1
    }

    /** An empty table. */
    constructor()
      ensures Valid() && rows == [] && nextId == 1
    {
      rows := [];
      nextId := 1;
    }

    /**
     * `search($query, $options)`: embed the query, rank the rows by similarity, build the
     * context and the prompt, and generate with the chosen options. Failures are
     * rethrown unchanged.
     */
    function Search(env: Ollama.Env, similarity: Similarity, query: string, options: Options): (r: Result<Answer>)
      reads this
      ensures QueryEmbedding(env, query).Fail? ==> r == Fail(QueryEmbedding(env, query).error)
      ensures r.Ok? ==>
        QueryEmbedding(env, query).Ok? &&
        IsRanking(r.value.documents, Scored(rows, similarity, QueryEmbedding(env, query).value),
                  Threshold(options), MaxResults(options))
      ensures r.Ok? ==> r.value.context == BuildContext(r.value.documents) && r.value.options == Generation(options)
      ensures r.Ok? ==>
        var generated := Ollama.Generate(env, BuildPrompt(query, r.value.context), Given(Generation(options)));
        generated.Ok? && r.value.response == Coalesce(generated.value, StrKey("response"), Str(""))
      ensures QueryEmbedding(env, query).Ok? && r.Fail? ==>
        var found := FindSimilar(rows, similarity, QueryEmbedding(env, query).value, Threshold(options), MaxResults(options));
        var generated := Ollama.Generate(env, BuildPrompt(query, BuildContext(found)), Given(Generation(options)));
        generated.Fail? && r.error == generated.error
    {
      var embedding :- QueryEmbedding(env, query);
      var found := FindSimilar(rows, similarity, embedding, Threshold(options), MaxResults(options));
      FindSimilarRanks(rows, similarity, embedding, Threshold(options), MaxResults(options));
      var context := BuildContext(found);
      var generated :- Ollama.Generate(env, BuildPrompt(query, context), Given(Generation(options)));
      Ok(Answer(Coalesce(generated, StrKey("response"), Str("")), context, Generation(options), found))
    }

    /**
     * `store($document)`: embed the content, then create one row with the next id; on a
     * failure nothing is created and the exception is rethrown unchanged.
     */
    method Store(env: Ollama.Env, document: PhpArray) returns (r: Result<PhpArray>)
      requires Valid()
      modifies this
      ensures Valid()
      ensures Prepare(env, document).Fail? ==>
        r == Fail(Prepare(env, document).error) && rows == old(rows) && nextId == old(nextId)
      ensures Prepare(env, document).Ok? ==>
        rows == old(rows) + [Row(old(nextId), Prepare(env, document).value)] && nextId == old(nextId) + 1 &&
        r == Ok(Receipt(old(nextId), env.now))
    {
      var entry := Prepare(env, document);
      if entry.Fail? {
        r := Fail(entry.error);
        return;
      }
      var id := nextId;
      rows := rows + [Row(id, entry.value)];
      nextId := nextId + 1;
      r := Ok(Receipt(id, env.now));
    }

    /**
     * `delete($id)`: `findOrFail($id)->delete()`. The row whose id reads as `id` goes;
     * when there is none, Eloquent's ModelNotFoundException and nothing changes.
     */
    method Delete(id: string) returns (r: Result<()>)
      requires Valid()
      modifies this
      ensures Valid() && nextId == old(nextId)
      ensures IndexOf(old(rows), id).None? ==>
        rows == old(rows) &&
        r == Fail(Throwable(ModelNotFoundException,
          "No query results for model [Src\\RAG\\Infrastructure\\Models\\RAGDocument] " + id))
      ensures IndexOf(old(rows), id).Some? ==>
        rows == RemoveAt(old(rows), IndexOf(old(rows), id).value) && r == Ok(())
    {
      match IndexOf(rows, id)
      case None =>
        r := Fail(Throwable(ModelNotFoundException,
          "No query results for model [Src\\RAG\\Infrastructure\\Models\\RAGDocument] " + id));
      case Some(i) =>
        RemoveAtExactly(rows, id);
        ghost var before := rows;
        rows := RemoveAt(rows, i);
        assert forall j :: 0 <= j < |rows| ==> rows[j] in before;
        r := Ok(());
    }
  }

  /** A stored document's receipt names its id and the status "stored". */
  lemma ReceiptFields(id: nat, now: string)
    ensures Get(Receipt(id, now), StrKey("id")) == Some(Int(id))
    ensures Get(Receipt(id, now), StrKey("status")) == Some(Str("stored"))
    ensures Get(Receipt(id, now), StrKey("timestamp")) == Some(Str(now))
  {
    LookupAt(Receipt(id, now).entries, 1);
    LookupAt(Receipt(id, now).entries, 2);
  }
}

/**
 * The application service over the LLM repository: it hands prompts, messages and
 * options to the repository unchanged, wraps generated answers in the response DTO,
 * and lets every exception of the repository through unchanged (it only logs it).
 */
module LlmService {
  import opened Exceptions
  import opened Php
  import Ollama
  import ResponseDto

  /**
 * A repository result as the service returns it: `LLMResponseDTO::fromArray`. A
 * response that is neither a string nor an array, or metadata that is not an array,
 * is refused with a TypeError.
 */
  function Wrap(result: Result<PhpArray>): (r: Result<ResponseDto.Response>)
    ensures result.Fail? ==> r == Fail(result.error)
    ensures r.Ok? ==>
      (result.Ok? &&
       Coalesce(result.value, StrKey("response"), Str("")) == r.value.response &&
       Coalesce(result.value, StrKey("metadata"), Arr([])) == r.value.metadata)
    ensures result.Ok? ==>
      var response := Coalesce(result.value, StrKey("response"), Str(""));
      (r.Ok? <==> (response.Str? || response.Arr?) && Coalesce(result.value, StrKey("metadata"), Arr([])).Arr?)
    ensures result.Ok? && r.Fail? ==> r.error.cls == TypeError
  {
    var response :- result;
    ResponseDto.FromArray(response)
  }

  /**
   * `generate($prompt, $options)`: the repository's text and metadata. A failure of the
   * repository is the service's failure, unchanged.
   */
  function Generate(env: Ollama.Env, prompt: string, options: Ollama.Options): (r: Result<ResponseDto.Response>)
    ensures Ollama.Generate(env, prompt, options).Fail? ==> r == Fail(Ollama.Generate(env, prompt, options).error)
    ensures Ollama.Generate(env, prompt, options).Ok? && r.Ok? ==>
      Get(Ollama.Generate(env, prompt, options).value, StrKey("response")) == Some(r.value.response) &&
      Get(Ollama.Generate(env, prompt, options).value, StrKey("metadata")) == Some(r.value.metadata)
    ensures Ollama.Generate(env, prompt, options).Ok? ==>
      var response := Get(Ollama.Generate(env, prompt, options).value, StrKey("response"));
      (r.Ok? <==> response.Some? && (response.value.Str? || response.value.Arr?))
  {
    var response := Ollama.Generate(env, prompt, options);
    if response.Ok? then
      GeneratedFields(env, prompt, options);
      Wrap(response)
    else Wrap(response)
  }

  /** A generated answer has a `response` entry and an array `metadata` entry. */
  lemma GeneratedFields(env: Ollama.Env, prompt: string, options: Ollama.Options)
    requires Ollama.Generate(env, prompt, options).Ok?
    ensures var out := Ollama.Generate(env, prompt, options).value;
      IsSet(out, StrKey("response")) && IsSet(out, StrKey("metadata")) &&
      Get(out, StrKey("metadata")).value.Arr?
  {
    var out := Ollama.Generate(env, prompt, options).value;
    LookupAt(out.entries, 1);
  }

  /** A model that answers with text yields a DTO holding that text and the settings used. */
  lemma GenerateText(env: Ollama.Env, prompt: string, options: Ollama.Options)
    requires Ollama.Generate(env, prompt, options).Ok?
    requires Get(Ollama.Generate(env, prompt, options).value, StrKey("response")).value.Str?
    ensures Generate(env, prompt, options).Ok?
    ensures var dto := Generate(env, prompt, options).value;
      dto.response == Get(env.ollama(Ollama.AskFor(prompt, options)).value, StrKey("response")).value &&
      Get(dto.metadata, StrKey("model")) == Some(Str(options.model.GetOr("llama2"))) &&
      Get(dto.metadata, StrKey("temperature")) == Some(Float(options.temperature.GetOr(0.7))) &&
      Get(dto.metadata, StrKey("top_p")) == Some(Float(options.topP.GetOr(0.9)))
  {
    GeneratedFields(env, prompt, options);
    Ollama.GenerateEchoes(env, prompt, options);
  }

  /**
   * `getEmbedding($prompt)`: the repository's embedding (a null one becomes '') and
   * metadata; an embedding that is neither a string nor an array is refused by the
   * DTO's strict types.
   */
  function GetEmbedding(env: Ollama.Env, prompt: string): (r: Result<ResponseDto.Response>)
    ensures Ollama.GetEmbedding(env, prompt).Fail? ==> r == Fail(Ollama.GetEmbedding(env, prompt).error)
    ensures var reply := env.ollama(Ollama.Embeddings(Ollama.EmbeddingModel, prompt));
      r.Ok? ==> reply.Ok? && Coalesce(reply.value, StrKey("embedding"), Str("")) == r.value.response
    ensures r.Ok? ==>
      Ollama.GetEmbedding(env, prompt).Ok? &&
      Get(Ollama.GetEmbedding(env, prompt).value, StrKey("metadata")) == Some(r.value.metadata)
    ensures Ollama.GetEmbedding(env, prompt).Ok? ==>
      var embedding := Coalesce(env.ollama(Ollama.Embeddings(Ollama.EmbeddingModel, prompt)).value, StrKey("embedding"), Str(""));
      (r.Ok? <==> embedding.Str? || embedding.Arr?) && (r.Fail? ==> r.error.cls == TypeError)
  {
    var response := Ollama.GetEmbedding(env, prompt);
    if response.Ok? then
      EmbeddingFields(env, prompt);
      Wrap(response)
    else Wrap(response)
  }

  /** An embedding answer has a `response` entry holding the embedding, and array metadata. */
  lemma EmbeddingFields(env: Ollama.Env, prompt: string)
    requires Ollama.GetEmbedding(env, prompt).Ok?
    ensures var out := Ollama.GetEmbedding(env, prompt).value;
      Get(out, StrKey("metadata")).Some? && Get(out, StrKey("metadata")).value.Arr? &&
      Get(out, StrKey("response")) == Get(env.ollama(Ollama.Embeddings(Ollama.EmbeddingModel, prompt)).value, StrKey("embedding"))
  {
    var out := Ollama.GetEmbedding(env, prompt).value;
    LookupAt(out.entries, 1);
  }

  /**
   * `chat($messages, $options)`: the repository's chat, run within `fuel` turns, with
   * its result wrapped in the DTO and its failure passed on unchanged.
   */
  method Chat(env: Ollama.Env, messages: seq<Value>, options: Ollama.Options, fuel: nat)
    returns (run: Run<ResponseDto.Response>)
    ensures Ollama.ChatSpec(env, messages, options, fuel).OutOfFuel? ==> run.OutOfFuel?
    ensures Ollama.ChatSpec(env, messages, options, fuel).Completed? ==>
      run == Completed(Wrap(Ollama.ChatSpec(env, messages, options, fuel).result))
  {
    var inner := Ollama.Chat(env, messages, options, fuel);
    if inner.Completed? {
      run := Completed(Wrap(inner.result));
    } else {
      run := OutOfFuel;
    }
  }

  /** `getModels()`: the repository's model list, and its failure, unchanged. */
  function GetModels(env: Ollama.Env): (r: Result<PhpArray>)
    ensures r.Ok? ==>
      env.ollama(Ollama.ListModels).Ok? && Get(env.ollama(Ollama.ListModels).value, StrKey("models")) == Some(r.value)
    ensures r.Fail? && r.error.IsException() ==>
      r.error.cls == RuntimeException && "Error getting models: " <= r.error.message
    ensures r == Ollama.GetModels(env)
  {
    Ollama.GetModels(env)
  }

  /** `getModel($modelName)`: the repository's model details, and its failure, unchanged. */
  function GetModel(env: Ollama.Env, modelName: string): (r: Result<PhpArray>)
    ensures r.Ok? ==> env.ollama(Ollama.Show(modelName)) == r
    ensures r.Fail? && r.error.IsException() ==>
      r.error.cls == RuntimeException && "Error al obtener información del modelo: " <= r.error.message
    ensures r == Ollama.GetModel(env, modelName)
  {
    Ollama.GetModel(env, modelName)
  }
}

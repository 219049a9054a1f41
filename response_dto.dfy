/**
 * The application-layer LLM response the services return: an answer that is a string
 * (generated text) or an array (an embedding), and its metadata.
 *
 * The file declares strict types: a response of any other type, or metadata that is
 * not an array, is a TypeError.
 */
module ResponseDto {
  import opened Exceptions
  import opened Php

  /** A value the `string|array` parameter accepts. */
  type Answer = v: Value | v.Str? || v.Arr? witness Str("")

  datatype Response = Response(response: Answer, metadata: PhpArray)

  const ConstructorName: string := "Src\\LLM\\Application\\DTOs\\LLMResponseDTO::__construct(): "

  /** `new LLMResponseDTO($response, $metadata)` under strict types. */
  function Construct(response: Value, metadata: Value): (r: Result<Response>)
    ensures r.Ok? <==> (response.Str? || response.Arr?) && metadata.Arr?
    ensures r.Ok? ==> r.value.response == response && r.value.metadata == metadata
    ensures r.Fail? ==> r.error.cls == TypeError
  {
    if !(response.Str? || response.Arr?) then
      Fail(Throwable(TypeError, ConstructorName + "Argument #1 ($response) must be of type array|string, " + TypeName(response) + " given"))
    else if !metadata.Arr? then
      Fail(Throwable(TypeError, ConstructorName + "Argument #2 ($metadata) must be of type array, " + TypeName(metadata) + " given"))
    else Ok(Response(response, metadata))
  }

  /** `LLMResponseDTO::fromArray($data)`: `response` defaults to '' and `metadata` to []. */
  function FromArray(data: PhpArray): Result<Response> {
    Construct(Coalesce(data, StrKey("response"), Str("")), Coalesce(data, StrKey("metadata"), Arr([])))
  }

  /** `toArray()`. */
  function ToArray(r: Response): PhpArray {
    Arr([Field("response", r.response), Field("metadata", r.metadata)])
  }

  /** Without a `response` the answer is ''; without a `metadata` the metadata is []. */
  lemma FromArrayDefaults(data: PhpArray)
    requires !IsSet(data, StrKey("response")) && !IsSet(data, StrKey("metadata"))
    ensures FromArray(data) == Ok(Response(Str(""), Arr([])))
  {
  }

  /** A present string or array response is kept as it is, and so is array metadata. */
  lemma FromArrayKeeps(data: PhpArray, response: Answer, metadata: PhpArray)
    requires Get(data, StrKey("response")) == Some(response)
    requires Get(data, StrKey("metadata")) == Some(metadata)
    ensures FromArray(data) == Ok(Response(response, metadata))
  {
  }

  /** `toArray` has exactly the keys `response` and `metadata`, holding the fields. */
  lemma ToArrayFields(r: Response)
    ensures Keys(ToArray(r)) == [StrKey("response"), StrKey("metadata")]
    ensures Get(ToArray(r), StrKey("response")) == Some(r.response)
    ensures Get(ToArray(r), StrKey("metadata")) == Some(r.metadata)
  {
    LookupAt(ToArray(r).entries, 1);
  }

  /** Converting to an array and back gives the same response. */
  lemma RoundTrip(r: Response)
    ensures FromArray(ToArray(r)) == Ok(r)
  {
    ToArrayFields(r);
  }
}

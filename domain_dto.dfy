/**
 * The domain-layer LLM response: a text answer and its metadata.
 *
 * The file does not declare strict types, so PHP's coercive mode applies to the
 * constructor: an int, float or bool response becomes its string form; an array
 * response, or a metadata value that is not an array, is a TypeError.
 */
module DomainDto {
  import opened Exceptions
  import opened Php

  /** `getResponse()` and `getMetadata()` are the two fields. */
  datatype Response = Response(response: string, metadata: PhpArray)

  const ConstructorName: string := "Src\\LLM\\Domain\\DTOs\\LLMResponseDTO::__construct(): "

  /** A `string` parameter in coercive mode: scalars are converted, arrays and null refused. */
  function CoerceString(v: Value): (r: Result<string>)
    ensures v.Str? ==> r == Ok(v.s)
    ensures r.Fail? <==> v.Arr? || v.Null?
    ensures r.Fail? ==> r.error.cls == TypeError
  {
    if v.Arr? || v.Null? then
      Fail(Throwable(TypeError, ConstructorName + "Argument #1 ($response) must be of type string, " + TypeName(v) + " given"))
    else ToText(v)
  }

  /** `new LLMResponseDTO($response, $metadata)` in coercive mode. */
  function Construct(response: Value, metadata: Value): (r: Result<Response>)
    ensures r.Ok? <==> CoerceString(response).Ok? && metadata.Arr?
    ensures r.Ok? ==> r.value.response == CoerceString(response).value && r.value.metadata == metadata
  {
    var text :- CoerceString(response);
    if !metadata.Arr? then
      Fail(Throwable(TypeError, ConstructorName + "Argument #2 ($metadata) must be of type array, " + TypeName(metadata) + " given"))
    else Ok(Response(text, metadata))
  }

  /** `LLMResponseDTO::fromArray($data)`: `response` defaults to '' and `metadata` to []. */
  function FromArray(data: PhpArray): Result<Response> {
    Construct(Coalesce(data, StrKey("response"), Str("")), Coalesce(data, StrKey("metadata"), Arr([])))
  }

  /** `toArray()`. */
  function ToArray(r: Response): PhpArray {
    Arr([Field("response", Str(r.response)), Field("metadata", r.metadata)])
  }

  /** Without a `response` the text is empty; without a `metadata` the metadata is []. */
  lemma FromArrayDefaults(data: PhpArray)
    requires !IsSet(data, StrKey("response")) && !IsSet(data, StrKey("metadata"))
    ensures FromArray(data) == Ok(Response("", Arr([])))
  {
  }

  /** An integer response is kept as its decimal text, as PHP's coercion writes it. */
  lemma FromArrayCoercesInt(data: PhpArray, i: int)
    requires Get(data, StrKey("response")) == Some(Int(i)) && !IsSet(data, StrKey("metadata"))
    ensures FromArray(data) == Ok(Response(IntText(i), Arr([])))
  {
  }

  /** An array response cannot be coerced to a string. */
  lemma FromArrayRefusesArray(data: PhpArray)
    requires IsSet(data, StrKey("response")) && Get(data, StrKey("response")).value.Arr?
    ensures FromArray(data).Fail? && FromArray(data).error.cls == TypeError
  {
  }

  /** `toArray` has exactly the keys `response` and `metadata`, holding the fields. */
  lemma ToArrayFields(r: Response)
    ensures Keys(ToArray(r)) == [StrKey("response"), StrKey("metadata")]
    ensures Get(ToArray(r), StrKey("response")) == Some(Str(r.response))
    ensures Get(ToArray(r), StrKey("metadata")) == Some(r.metadata)
  {
    LookupAt(ToArray(r).entries, 1);
  }

  /** Converting to an array and back gives the same response. */
  lemma RoundTrip(r: Response)
    ensures FromArray(ToArray(r)) == Ok(r)
  {
    ToArrayFields(r);
  }
}

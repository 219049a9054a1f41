/**
 * The RAG document value object: a text and its metadata array.
 *
 * The file declares strict types, so the constructor accepts only a string content and
 * an array metadata; anything else is a TypeError.
 */
module Documents {
  import opened Exceptions
  import opened Php

  /** A document; `getContent()` and `getMetadata()` are the two fields. */
  datatype Document = Document(content: string, metadata: PhpArray)

  const ConstructorName: string := "Src\\RAG\\Domain\\ValueObjects\\Document::__construct(): "

  /** `new Document($content, $metadata)` under strict types. */
  function Construct(content: Value, metadata: Value): (r: Result<Document>)
    ensures r.Ok? <==> content.Str? && metadata.Arr?
    ensures r.Ok? ==> r.value.content == content.s && r.value.metadata == metadata
    ensures r.Fail? ==> r.error.cls == TypeError
  {
    if !content.Str? then
      Fail(Throwable(TypeError, ConstructorName + "Argument #1 ($content) must be of type string, " + TypeName(content) + " given"))
    else if !metadata.Arr? then
      Fail(Throwable(TypeError, ConstructorName + "Argument #2 ($metadata) must be of type array, " + TypeName(metadata) + " given"))
    else Ok(Document(content.s, metadata))
  }

  /** `Document::fromArray($data)`: `content` defaults to '' and `metadata` to []. */
  function FromArray(data: PhpArray): Result<Document> {
    Construct(Coalesce(data, StrKey("content"), Str("")), Coalesce(data, StrKey("metadata"), Arr([])))
  }

  /** `toArray()`. */
  function ToArray(d: Document): PhpArray {
    Arr([Field("content", Str(d.content)), Field("metadata", d.metadata)])
  }

  /** An array without a `content` entry (or with a null one) gives the empty content. */
  lemma FromArrayContentDefault(data: PhpArray)
    requires !IsSet(data, StrKey("content"))
    requires Get(data, StrKey("metadata")).Some? ==> Get(data, StrKey("metadata")).value.Arr? || Get(data, StrKey("metadata")).value == Null
    ensures FromArray(data).Ok? && FromArray(data).value.content == ""
  {
  }

  /** An array without a `metadata` entry (or with a null one) gives the empty metadata. */
  lemma FromArrayMetadataDefault(data: PhpArray)
    requires !IsSet(data, StrKey("metadata"))
    requires Get(data, StrKey("content")).Some? ==> Get(data, StrKey("content")).value.Str? || Get(data, StrKey("content")).value == Null
    ensures FromArray(data).Ok? && FromArray(data).value.metadata == Arr([])
  {
  }

  /** A present string content and array metadata are kept as they are; other keys are dropped. */
  lemma FromArrayKeeps(data: PhpArray, content: string, metadata: PhpArray)
    requires Get(data, StrKey("content")) == Some(Str(content))
    requires Get(data, StrKey("metadata")) == Some(metadata)
    ensures FromArray(data) == Ok(Document(content, metadata))
  {
  }

  /** A content that is neither absent, null nor a string is refused. */
  lemma FromArrayWrongContent(data: PhpArray)
    requires IsSet(data, StrKey("content")) && !Get(data, StrKey("content")).value.Str?
    ensures FromArray(data).Fail? && FromArray(data).error.cls == TypeError
  {
  }

  /** `toArray` has exactly the keys `content` and `metadata`, holding the fields. */
  lemma ToArrayFields(d: Document)
    ensures Keys(ToArray(d)) == [StrKey("content"), StrKey("metadata")]
    ensures Get(ToArray(d), StrKey("content")) == Some(Str(d.content))
    ensures Get(ToArray(d), StrKey("metadata")) == Some(d.metadata)
  {
    LookupAt(ToArray(d).entries, 1);
  }

  /** Converting to an array and back gives the same document. */
  lemma RoundTrip(d: Document)
    ensures FromArray(ToArray(d)) == Ok(d)
  {
    ToArrayFields(d);
  }

  /** Normalising twice is normalising once: the array form of a document is a fixed point. */
  lemma NormaliseIdempotent(data: PhpArray)
    requires FromArray(data).Ok?
    ensures FromArray(ToArray(FromArray(data).value)) == FromArray(data)
  {
    RoundTrip(FromArray(data).value);
  }
}

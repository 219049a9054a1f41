# Laravel-AI core in Dafny

A model of the core of Laravel-AI, a PHP service that puts an LLM API and a
retrieval-augmented generation (RAG) API in front of an Ollama server and a
PostgreSQL/pgvector table. The model covers:

- **The Ollama repository** (`ollama.dfy`): `generate`, `getEmbedding`,
  `getModels` and `getModel`, the error check every reply goes through, the
  system prompt, the option defaulting, and the tool-calling chat loop with its
  tool round (`handleToolCalls`).
  - The Ollama client is an oracle from requests to decoded answers or
    exceptions, held in an `Env` with the weather fetch and the clock's
    timestamp string.
  - The chat loop is a `while` loop in the method `Talk`, proved equal to the
    specification function `Loop`. The source loop has no bound, so the model
    gives it fuel: a run either completes or is `OutOfFuel`.
- **The tool registry** (`tools.dfy`): `get`, `allDefinitions`, the
  `TOOLS_MODELS` allow-list and the registered tools.
- **The weather tool** (`weather.dfy`): its name, its definition, and how
  `execute` shapes its result once the HTTP fetch and JSON decoding are an
  `Option` of decoded conditions.
- **The RAG repository** (`rag.dfy`).
  - The class `RagRepository` owns the `rag_documents` table as a sequence of
    rows, plus the next auto-increment id. `store` and `delete` are methods that
    change it; `search` is a function that reads it.
  - The similarity ranking is stated as the predicate `IsRanking`, and the
    filter, sort and limit are proved to meet it. The similarity pgvector
    computes is an oracle.
  - `buildContext` and `buildPrompt` are also in this file.
- **The value objects and DTOs, and the services over them**:
  - the `Document` value object (`documents.dfy`);
  - the domain `LLMResponseDTO` (`domain_dto.dfy`), which is in coercive mode;
  - the application `LLMResponseDTO` (`response_dto.dfy`), which is strict and
    accepts `string|array`;
  - `LLMService` (`llm_service.dfy`) and `RAGService` (`rag_service.dfy`).

Some PHP semantics are modelled explicitly (`php.dfy`, `exceptions.dfy`,
`json.dfy`):

- PHP arrays are ordered key/value lists. `isset`, `??` and `$a[$k]` are
  separate operations. A read of a missing key is the `Undefined array key`
  warning, which Laravel turns into an ErrorException.
- Exceptions and Errors are both modelled. `catch (Exception $e)` catches the
  former and lets a TypeError through.
- `json_encode` is modelled with its default escaping for the flat string maps
  the tools return. Its escaping is proved to round-trip through a JSON
  string decoder.

The code as written, where it may surprise:

- The system prompt glue `'\n\t'` is single-quoted. It is therefore the four
  characters backslash, `n`, backslash, `t`, not a line break and a tab.
- Only the first entry of `tool_calls` is run in a round.
- The RAG prompt template is in Spanish (`Contexto:`, `Pregunta:`,
  `Respuesta:`).
- The search orders by similarity alone, so documents of equal similarity come
  back in no promised order, and the model claims none.

## Model

| member | source | states |
|---|---|---|
| Exceptions.Catch | src/LLM/Infrastructure/Repositories/OllamaLLMRepository.php:66-68 | A result passes through; an exception becomes one RuntimeException whose message is the prefix followed by the inner message; an Error (TypeError) passes through uncaught. |
| Php.Coalesce | src/LLM/Infrastructure/Repositories/OllamaLLMRepository.php:34 | `$v[$k] ?? $d` is the entry when it is set and not null, the default otherwise. |
| Php.Read | src/LLM/Infrastructure/Repositories/OllamaLLMRepository.php:217 | `$v[$k]` succeeds exactly when the key is present, with that entry; a missing key of an array is the `Undefined array key` ErrorException. |
| Php.ToText | src/LLM/Infrastructure/Repositories/OllamaLLMRepository.php:211 | String concatenation converts a string to itself and refuses only an array (`Array to string conversion`). |
| Php.ImplodeAppend | src/RAG/Infrastructure/Repositories/RAGRepository.php:119-121 | Joining two non-empty runs is joining each, around one glue. |
| Php.NatTextInjective | src/RAG/Infrastructure/Repositories/RAGRepository.php:81 | Distinct ids have distinct decimal texts, so an id string names at most one row. |
| Json.EscapeRoundTrip | src/LLM/Infrastructure/Repositories/OllamaLLMRepository.php:225 | Decoding the JSON string body `json_encode` writes gives back the original string, for every string. |
| Json.EscapeIsAscii | src/LLM/Infrastructure/Repositories/OllamaLLMRepository.php:225 | With default flags `json_encode` writes only ASCII: every non-ASCII character is a `\u` escape. |
| Json.UnescapeChar | src/LLM/Infrastructure/Repositories/OllamaLLMRepository.php:225 | The decoder reads the escape of one character back as that character, then goes on with the rest. |
| Ollama.SystemPromptText | src/LLM/Infrastructure/Repositories/OllamaLLMRepository.php:203-206 | The system prompt is the two configured lines around the four-character glue `\n\t` (single-quoted, so no line break). |
| Ollama.ResolvePrefersOptions | src/LLM/Infrastructure/Repositories/OllamaLLMRepository.php:34-36 | `model`, `temperature` and `top_p` are the explicit option when given and `llama2`, 0.7, 0.9 otherwise. |
| Ollama.MetadataEchoes | src/LLM/Infrastructure/Repositories/OllamaLLMRepository.php:59-64 | The metadata holds the model, the timestamp and the settings actually used, whatever entries follow. |
| Ollama.CheckSuccess | src/LLM/Infrastructure/Repositories/OllamaLLMRepository.php:208-213 | A reply fails exactly when `error` is set, with `Invalid response from Ollama:` followed by the error text. |
| Ollama.Generate | src/LLM/Infrastructure/Repositories/OllamaLLMRepository.php:31-69 | `generate` succeeds exactly when the client answers without `error` and with `response`; it returns that `response`; every exception is wrapped as `Error generating text: ...`. |
| Ollama.GenerateEchoes | src/LLM/Infrastructure/Repositories/OllamaLLMRepository.php:57-65 | A generated answer's metadata reports the resolved model, the clock's time, the temperature and the top_p. |
| Ollama.GenerateFailures | src/LLM/Infrastructure/Repositories/OllamaLLMRepository.php:48-68 | An `error` reply, a reply without `response`, and a client exception each give the wrapped message built from the inner one. |
| Ollama.GetEmbedding | src/LLM/Infrastructure/Repositories/OllamaLLMRepository.php:72-91 | `getEmbedding` succeeds exactly when the reply has no `error` and has an `embedding` key, and returns that entry as `response`; failures are wrapped as `Error generating embedding: ...`. |
| Ollama.MissingEmbedding | src/LLM/Infrastructure/Repositories/OllamaLLMRepository.php:81-82 | A reply without `embedding` fails with the wrapped `Undefined array key "embedding"` message. |
| Ollama.GetModels | src/LLM/Infrastructure/Repositories/OllamaLLMRepository.php:174-188 | `getModels` succeeds exactly when the reply has no `error` and has an array `models`, and returns it; a non-array `models` violates the return type, a TypeError that is not wrapped. |
| Ollama.MissingModelList | src/LLM/Infrastructure/Repositories/OllamaLLMRepository.php:181-183 | A reply without `models` fails with `Error getting models: ` and the missing-list message. |
| Ollama.GetModel | src/LLM/Infrastructure/Repositories/OllamaLLMRepository.php:190-201 | `getModel` returns the whole `show` reply exactly when it has no `error`; failures are wrapped with the Spanish prefix. |
| Ollama.ToolsOffered | src/LLM/Infrastructure/Repositories/OllamaLLMRepository.php:100-107 | The tools sent with a chat are `allDefinitions` of the resolved model: the weather definition for `qwen2.5:3b`, none for any other model. |
| Ollama.ToolRound | src/LLM/Infrastructure/Repositories/OllamaLLMRepository.php:215-227 | A tool round appends exactly two messages, the reply's `message` and `{role: tool, name, content: json_encode(result)}` of the first call; if resolving, reading or running the tool fails, that exception is raised and nothing is appended. |
| Ollama.FirstCallOfReply | src/LLM/Infrastructure/Repositories/OllamaLLMRepository.php:217 | The call examined is `tool_calls[0]['function']`. |
| Ollama.OnlyFirstCall | src/LLM/Infrastructure/Repositories/OllamaLLMRepository.php:217-219 | Two replies that agree on their first tool call behave alike, whatever further calls they carry. |
| Ollama.StepAppendsTwo | src/LLM/Infrastructure/Repositories/OllamaLLMRepository.php:221-226 | A turn that goes on has grown the transcript by two messages and kept every earlier one. |
| Ollama.Chat | src/LLM/Infrastructure/Repositories/OllamaLLMRepository.php:93-136 | The chat method equals the chat specification: the turn loop within the fuel, with every exception wrapped as `Error in the chat: ...`. |
| Ollama.Talk | src/LLM/Infrastructure/Repositories/OllamaLLMRepository.php:109-117 | The `do ... while` loop computes the turn loop: it asks again after each tool round and stops on the first turn that does not go on. |
| Ollama.ChatAppendsTwo | src/LLM/Infrastructure/Repositories/OllamaLLMRepository.php:114-116 | Every turn of a chat that goes on appends two messages and keeps the earlier ones. |
| Ollama.RoundsGrow | src/LLM/Infrastructure/Repositories/OllamaLLMRepository.php:221-226 | After k tool rounds the transcript has grown by exactly 2k messages and begins with the original ones. |
| Ollama.LoopAfterRounds | src/LLM/Infrastructure/Repositories/OllamaLLMRepository.php:109-117 | k tool rounds within the fuel, followed by a turn that stops, end the loop with that turn's result. |
| Ollama.StopAfterRounds | src/LLM/Infrastructure/Repositories/OllamaLLMRepository.php:109-135 | k tool rounds within the fuel, followed by a turn that stops, decide the chat: that turn's result, wrapped by the chat's catch block. |
| Ollama.AnswerAfterRounds | src/LLM/Infrastructure/Repositories/OllamaLLMRepository.php:109-131 | k tool rounds within the fuel, followed by a reply with `message.content` and without `error` or `tool_calls`, make the chat succeed with that content as `response`, the transcript grown by 2k messages as `metadata.messages`, and the resolved settings. |
| Ollama.LoopOutcome | src/LLM/Infrastructure/Repositories/OllamaLLMRepository.php:109-117 | A loop that finished ran some k < fuel tool rounds and then took a turn that stopped with the loop's result. |
| Ollama.ChatReply | src/LLM/Infrastructure/Repositories/OllamaLLMRepository.php:109-131 | A successful chat ran k tool rounds and ended on a reply without `error` and without `tool_calls`; its `response` is that reply's `message.content` and `metadata.messages` is the transcript of the input length plus 2k messages, with the resolved settings echoed. |
| Ollama.FinalTurn | src/LLM/Infrastructure/Repositories/OllamaLLMRepository.php:117-131 | The turn that ends a successful chat got a reply without `error` or `tool_calls` and shapes its content, the settings and the transcript into the result. |
| Ollama.StopsWithReply | src/LLM/Infrastructure/Repositories/OllamaLLMRepository.php:109-119 | A turn that stops with a value got a well-formed reply without tool calls and returns what the post-loop code makes of it. |
| Ollama.FinalReply | src/LLM/Infrastructure/Repositories/OllamaLLMRepository.php:117-119 | A reply without `error` and without `tool_calls` ends the loop on that turn. |
| Ollama.FinishShape | src/LLM/Infrastructure/Repositories/OllamaLLMRepository.php:123-131 | The chat result holds the reply's `message.content`, the transcript under `metadata.messages`, and the model, temperature and top_p used. |
| Ollama.ChatMetadata | src/LLM/Infrastructure/Repositories/OllamaLLMRepository.php:125-131 | The chat metadata holds the settings used and, under `messages`, the final transcript. |
| Ollama.FinishEntries | src/LLM/Infrastructure/Repositories/OllamaLLMRepository.php:123-131 | The chat result has `response` and `metadata` entries holding the content and the metadata. |
| Ollama.ErrorStops | src/LLM/Infrastructure/Repositories/OllamaLLMRepository.php:112 | A reply with `error` stops the chat in whatever round it arrives, with the `Invalid response from Ollama:` message. |
| Ollama.MissingContentFails | src/LLM/Infrastructure/Repositories/OllamaLLMRepository.php:109-135 | A final reply without `message.content`, after any k tool rounds within the fuel, fails the chat with the wrapped missing-content message. |
| Ollama.UnknownToolFails | src/LLM/Infrastructure/Repositories/OllamaLLMRepository.php:109-135 | A tool call naming an unregistered tool, in the reply after any k tool rounds within the fuel, fails the whole chat with `Error in the chat: ` plus the registry's not-found message. |
| Ollama.ToolFailureStops | src/LLM/Infrastructure/Repositories/OllamaLLMRepository.php:114-116 | A tool round that fails ends the loop with its exception. |
| Ollama.UnknownToolRound | src/LLM/Infrastructure/Repositories/OllamaLLMRepository.php:218 | Resolving a name other than `get_weather_tool` raises the registry's InvalidArgumentException. |
| Ollama.ChatFailure | src/LLM/Infrastructure/Repositories/OllamaLLMRepository.php:133-135 | Every exception a chat raises is a RuntimeException starting `Error in the chat: `; only Errors pass through unwrapped. |
| Tools.FirstNamed | src/LLM/Domain/Tools/ToolFunctionRegistry.php:30 | The position found holds a tool of that name and no earlier tool has it; none is found exactly when no tool has the name. |
| Tools.Get | src/LLM/Domain/Tools/ToolFunctionRegistry.php:28-37 | `get` returns the first registered tool whose name is exactly `name`, and fails with `Tool with name '<name>' not found.` exactly when there is none. |
| Tools.AllDefinitions | src/LLM/Domain/Tools/ToolFunctionRegistry.php:39-46 | Nothing for a model outside the allow-list (exact comparison); otherwise one definition per registered tool, in registration order. |
| Tools.StandardTools | src/LLM/Domain/Tools/ToolFunctionRegistry.php:21-26 | The registry answers to `get_weather_tool` with the weather tool, and to no other name. |
| Tools.DateToolNotRegistered | src/LLM/Domain/Tools/ToolFunctionRegistry.php:21-26 | The date tool is not registered, so `get('get_date_tool')` fails. |
| Tools.StandardDefinitions | src/LLM/Domain/Tools/ToolFunctionRegistry.php:12-14 | The allow-list is `qwen2.5:3b` alone: it is offered the weather definition, any other model nothing. |
| Weather.DefinitionNamesTool | src/LLM/Domain/Services/ToolServices/GetCurrentWeatherTool.php:13-29 | The definition is of type `function` and names the tool by its own name and description. |
| Weather.DefinitionHasParameters | src/LLM/Domain/Services/ToolServices/GetCurrentWeatherTool.php:30-44 | The definition's function part carries the parameter schema. |
| Weather.RequiredArguments | src/LLM/Domain/Services/ToolServices/GetCurrentWeatherTool.php:43 | `location` and `format` are both required. |
| Weather.FormatChoices | src/LLM/Domain/Services/ToolServices/GetCurrentWeatherTool.php:37-41 | `format` is restricted to the enum `celsius`, `fahrenheit`. |
| Weather.Execute | src/LLM/Domain/Services/ToolServices/GetCurrentWeatherTool.php:49-76 | `execute` succeeds exactly when both arguments are present and the location is a string; a failed fetch gives exactly `{error: 'Could not fetch weather data'}`; fetched conditions give the report for the arguments' location and format. |
| Weather.ExecuteReports | src/LLM/Domain/Services/ToolServices/GetCurrentWeatherTool.php:49-75 | Fetched conditions are reported for the given location and format, whatever the order of the arguments and whatever other arguments come with them. |
| Weather.TwoArguments | src/LLM/Domain/Services/ToolServices/GetCurrentWeatherTool.php:51-52 | The two-entry argument array `{location, format}` is read as that location and that format. |
| Weather.ReportFields | src/LLM/Domain/Services/ToolServices/GetCurrentWeatherTool.php:49-75 | For any arguments holding a string location and a format, the result has the six fields in order: the location unchanged, Fahrenheit units for exactly `fahrenheit` and Celsius otherwise, `%` on the humidity and ` km/h` on the wind speed. |
| Weather.ReportKeys | src/LLM/Domain/Services/ToolServices/GetCurrentWeatherTool.php:64-75 | A report's keys are the six field names, in order. |
| Weather.ReportValueAt | src/LLM/Domain/Services/ToolServices/GetCurrentWeatherTool.php:64-75 | Each field of a report is found under its own key. |
| Weather.ReportEntries | src/LLM/Domain/Services/ToolServices/GetCurrentWeatherTool.php:64-75 | Each of the six fields holds the value the shaping code builds. |
| Weather.MissingArgument | src/LLM/Domain/Services/ToolServices/GetCurrentWeatherTool.php:51-52 | A missing `format` is the undefined-key error, raised before any fetch. |
| Rag.GivenSettingsUsed | src/RAG/Infrastructure/Repositories/RAGRepository.php:32-36 | The generation options are each option or its default (`llama2`, 0.7, 0.9), and the threshold and limit default to 0.7 and 5; the LLM repository uses exactly those options. |
| Rag.Scored | src/RAG/Infrastructure/Repositories/RAGRepository.php:110 | Each row is paired with its similarity to the query. |
| Rag.Above | src/RAG/Infrastructure/Repositories/RAGRepository.php:111 | The filter keeps every match at or above the threshold, as often as it occurs, and nothing else. |
| Rag.Insert | src/RAG/Infrastructure/Repositories/RAGRepository.php:112 | Inserting into a descending list keeps it descending and adds exactly the one match. |
| Rag.SortDescending | src/RAG/Infrastructure/Repositories/RAGRepository.php:112 | The ordering is descending and a permutation of its input. |
| Rag.AboveIncluded | src/RAG/Infrastructure/Repositories/RAGRepository.php:111 | The filtered matches are among the candidates. |
| Rag.PrefixOf | src/RAG/Infrastructure/Repositories/RAGRepository.php:113 | The first k of a descending list are descending and part of the list. |
| Rag.PrefixBeats | src/RAG/Infrastructure/Repositories/RAGRepository.php:112-113 | A match beyond the first k of a descending list is no more similar than any of the first k. |
| Rag.RankIsRanking | src/RAG/Infrastructure/Repositories/RAGRepository.php:109-114 | Filter, descending order and limit give a ranking: at most the limit, all at or above the threshold, descending, drawn from the candidates, and no left-out candidate above the threshold beats one found. |
| Rag.RankLength | src/RAG/Infrastructure/Repositories/RAGRepository.php:113 | As many matches are found as the limit allows of those reaching the threshold. |
| Rag.RankReachesThreshold | src/RAG/Infrastructure/Repositories/RAGRepository.php:111 | Every match found reaches the threshold. |
| Rag.RankOrdered | src/RAG/Infrastructure/Repositories/RAGRepository.php:112 | The matches found are in descending order and are candidates. |
| Rag.RankKeepsBest | src/RAG/Infrastructure/Repositories/RAGRepository.php:112-113 | A candidate reaching the threshold that the limit cut off is no more similar than any match kept. |
| Rag.FindSimilarRanks | src/RAG/Infrastructure/Repositories/RAGRepository.php:99-115 | `findSimilarDocuments` ranks all rows by their similarity to the query embedding. |
| Rag.Contents | src/RAG/Infrastructure/Repositories/RAGRepository.php:119-121 | The contents of the documents, one per document, in order. |
| Rag.BuildContextSmall | src/RAG/Infrastructure/Repositories/RAGRepository.php:117-122 | No documents give the empty context; one document gives its content. |
| Rag.BuildContextAppend | src/RAG/Infrastructure/Repositories/RAGRepository.php:117-122 | The context of two runs of documents is their contexts around `\n\n`. |
| Rag.BuildPromptParts | src/RAG/Infrastructure/Repositories/RAGRepository.php:124-127 | The prompt is `Contexto:\n`, the context, `\n\nPregunta: `, the question and `\n\nRespuesta:`, at fixed offsets. |
| Rag.BuildPromptInjective | src/RAG/Infrastructure/Repositories/RAGRepository.php:124-127 | For contexts of equal length, equal prompts come from equal questions and equal contexts. |
| Rag.QueryEmbedding | src/RAG/Infrastructure/Repositories/RAGRepository.php:88-97 | The query embedding is the embedding answer's `response`; an embedding failure is rethrown unchanged; a non-array `response` violates the return type. |
| Rag.Prepare | src/RAG/Infrastructure/Repositories/RAGRepository.php:59-65 | The row holds the document's `content`, the embedding answer's `response` and the metadata or `[]`; a missing `content` is the undefined-key error. |
| Rag.PrepareEmbedsFirst | src/RAG/Infrastructure/Repositories/RAGRepository.php:59-65 | A failed embedding is rethrown unchanged; a successful one always leads to a row. |
| Rag.IndexOf | src/RAG/Infrastructure/Repositories/RAGRepository.php:81 | The row found has that id, and none is found exactly when no row has it. |
| Rag.RemoveAtExactly | src/RAG/Infrastructure/Repositories/RAGRepository.php:81 | Deleting a found id keeps ids increasing, removes one row, and keeps exactly the rows with other ids. |
| Rag.RemoveKeepsOthers | src/RAG/Infrastructure/Repositories/RAGRepository.php:81 | Every row but the deleted one stays. |
| Rag.RemoveDropsId | src/RAG/Infrastructure/Repositories/RAGRepository.php:81 | What stays is in order and has none of the deleted row's id. |
| Rag.StoreThenDelete | src/RAG/Infrastructure/Repositories/RAGRepository.php:56-86 | Deleting the id a store just returned finds the new row and restores the table as it was before the store. |
| Rag.IndexOfFirst | src/RAG/Infrastructure/Repositories/RAGRepository.php:81 | A row that no earlier row shares an id with is the row the id finds. |
| Rag.RagRepository.constructor | database/migrations/2024_01_01_000001_create_rag_documents_table.php:18-24 | The table starts empty and the first id is 1. |
| Rag.RagRepository.Search | src/RAG/Infrastructure/Repositories/RAGRepository.php:21-54 | A search's documents are a ranking of all rows for the query embedding, its context is built from exactly those documents, its options are the chosen generation options, and its response is the generated `response` or `''`; embedding and generation failures are rethrown unchanged. |
| Rag.RagRepository.Store | src/RAG/Infrastructure/Repositories/RAGRepository.php:56-76 | A store embeds first. On failure the table is unchanged and the exception is rethrown. On success exactly one row is appended, with the next id, and the answer is `{id, status: stored, timestamp}`. |
| Rag.RagRepository.Delete | src/RAG/Infrastructure/Repositories/RAGRepository.php:78-86 | A delete removes the row with that id and nothing else, or, when there is none, fails with the not-found exception and leaves the table unchanged. |
| Rag.ReceiptFields | src/RAG/Infrastructure/Repositories/RAGRepository.php:67-71 | The store answer holds the new id, `stored` and the timestamp. |
| RagService.RagService.constructor | src/RAG/Application/Services/RAGService.php:14-18 | The service wraps the given repository. |
| RagService.RagService.Search | src/RAG/Application/Services/RAGService.php:20-31 | The service's search is the repository's, unchanged: ranked documents, their context, the generation options used, the generated `response` or `''`, and both the embedding and the generation failure rethrown. |
| RagService.RagService.Store | src/RAG/Application/Services/RAGService.php:33-45 | `store` writes `Document::fromArray(data)->toArray()` through the repository, and rethrows failures unchanged. |
| RagService.RagService.Delete | src/RAG/Application/Services/RAGService.php:47-58 | `delete` forwards the id to the repository and rethrows its failure unchanged. |
| RagService.StoredDocument | src/RAG/Application/Services/RAGService.php:36-37 | The stored row holds the normalised document's content and metadata and the embedding of that content. |
| RagService.StoredMetadataDefault | src/RAG/Application/Services/RAGService.php:36-37 | Data without metadata is stored with the empty metadata. |
| LlmService.Wrap | src/LLM/Application/Services/LLMService.php:27 | A failure passes unchanged; a result becomes a DTO exactly when its `response` (default `''`) is a string or an array and its `metadata` (default `[]`) is an array, and the DTO holds them; any other result is a TypeError. |
| LlmService.Generate | src/LLM/Application/Services/LLMService.php:23-35 | `generate` wraps the repository's answer in the DTO, with its response and metadata, exactly when that response is a string or an array, and passes the repository's failure on unchanged. |
| LlmService.GeneratedFields | src/LLM/Application/Services/LLMService.php:26-27 | A generated answer has a `response` entry and an array `metadata` entry. |
| LlmService.GenerateText | src/LLM/Application/Services/LLMService.php:26-27 | A text answer gives a DTO holding that text and the resolved model, temperature and top_p. |
| LlmService.GetEmbedding | src/LLM/Application/Services/LLMService.php:37-49 | `getEmbedding` wraps the embedding (a null one becomes `''`) and the repository's metadata, exactly when the embedding is a string or an array (a TypeError otherwise), and passes failures on unchanged. |
| LlmService.EmbeddingFields | src/LLM/Application/Services/LLMService.php:40-41 | An embedding answer has the embedding under `response` and array metadata. |
| LlmService.Chat | src/LLM/Application/Services/LLMService.php:51-63 | `chat` is the repository's chat with the result wrapped in the DTO and a failure passed on unchanged. |
| LlmService.GetModels | src/LLM/Application/Services/LLMService.php:81-91 | `getModels` is the repository's result, unchanged: its `models` list on success, its `Error getting models: ` exceptions on failure. |
| LlmService.GetModel | src/LLM/Application/Services/LLMService.php:93-104 | `getModel` is the repository's result, unchanged: the `show` reply on success, its Spanish-prefixed exceptions on failure. |
| Documents.Construct | src/RAG/Domain/ValueObjects/Document.php:9-12 | The constructor accepts exactly a string content and array metadata, and keeps them as given; anything else is a TypeError. |
| Documents.FromArrayContentDefault | src/RAG/Domain/ValueObjects/Document.php:27 | Without `content` the content is `''`. |
| Documents.FromArrayMetadataDefault | src/RAG/Domain/ValueObjects/Document.php:28 | Without `metadata` the metadata is `[]`. |
| Documents.FromArrayKeeps | src/RAG/Domain/ValueObjects/Document.php:24-30 | A present string content and array metadata are kept as they are. |
| Documents.FromArrayWrongContent | src/RAG/Domain/ValueObjects/Document.php:24-30 | A content that is not a string is a TypeError under strict types. |
| Documents.ToArrayFields | src/RAG/Domain/ValueObjects/Document.php:32-38 | `toArray` has exactly the keys `content` and `metadata`, holding the fields. |
| Documents.RoundTrip | src/RAG/Domain/ValueObjects/Document.php:24-38 | `fromArray(toArray(d))` is `d`. |
| Documents.NormaliseIdempotent | src/RAG/Domain/ValueObjects/Document.php:24-38 | Normalising data twice gives the same document as normalising it once. |
| DomainDto.CoerceString | src/LLM/Domain/DTOs/LLMResponseDTO.php:7-10 | In coercive mode a string is kept, other scalars are converted, and an array or null is a TypeError. |
| DomainDto.Construct | src/LLM/Domain/DTOs/LLMResponseDTO.php:7-10 | The constructor succeeds exactly when the response coerces to a string and the metadata is an array. |
| DomainDto.FromArrayDefaults | src/LLM/Domain/DTOs/LLMResponseDTO.php:22-28 | Without `response` and `metadata` the DTO holds `''` and `[]`. |
| DomainDto.FromArrayCoercesInt | src/LLM/Domain/DTOs/LLMResponseDTO.php:22-28 | An integer response is kept as its decimal text. |
| DomainDto.FromArrayRefusesArray | src/LLM/Domain/DTOs/LLMResponseDTO.php:22-28 | An array response is a TypeError. |
| DomainDto.ToArrayFields | src/LLM/Domain/DTOs/LLMResponseDTO.php:30-36 | `toArray` has exactly the keys `response` and `metadata`, holding the fields. |
| DomainDto.RoundTrip | src/LLM/Domain/DTOs/LLMResponseDTO.php:22-36 | `fromArray(toArray(x))` is `x`. |
| ResponseDto.Construct | src/LLM/Application/DTOs/LLMResponseDTO.php:9-12 | The constructor accepts exactly a string or array response and array metadata; anything else is a TypeError. |
| ResponseDto.FromArrayDefaults | src/LLM/Application/DTOs/LLMResponseDTO.php:14-20 | Without `response` and `metadata` the DTO holds `''` and `[]`. |
| ResponseDto.FromArrayKeeps | src/LLM/Application/DTOs/LLMResponseDTO.php:14-20 | A present string or array response and array metadata are kept as they are. |
| ResponseDto.ToArrayFields | src/LLM/Application/DTOs/LLMResponseDTO.php:22-28 | `toArray` has exactly the keys `response` and `metadata`, holding the fields. |
| ResponseDto.RoundTrip | src/LLM/Application/DTOs/LLMResponseDTO.php:14-28 | `fromArray(toArray(x))` is `x`. |

## Left out

- HTTP, Guzzle and the Ollama client library are left out. Each client call is
  one oracle result (a decoded array or an exception). The query builder's
  state (`agent`, `model`, `options`, `stream`, `tools`) is folded into the
  request datatype.
- The `Config::get` lookups are the configuration files' defaults, as
  constants. Environment overrides are not modelled.
  - `llm.embedding_model` has no configuration file, so the code's fallback
    `nomic-embed-text` applies.
- Options are typed records: model a string, temperature and top_p reals, the
  threshold a real, the limit a natural number. Option values of other PHP
  types are not modelled, and neither is a negative `max_results`.
- The `(float)` casts of temperature and top_p are not modelled; the model
  keeps the reals. Floating point in general is left out, and
  `Php.FloatText` is only an approximation of PHP's float-to-string.
- Cosine similarity and the SQL text are left out. pgvector's `<=>` is a given
  similarity per row, and the `implode(',', ...)` of the query embedding into
  SQL is not modelled.
- Rag.RagRepository.Search: the order among equal similarities is not
  claimed, because SQL leaves it unspecified. `IsRanking` holds for any tie
  order.
- Rag.RagRepository.Delete: only the canonical decimal text of an id finds its
  row. PostgreSQL's casting of other strings (`"01"`, `" 1"`) is not
  modelled, and neither are database errors.
- Rag.RagRepository.Store: database errors of `RAGDocument::create` (a
  vector-dimension mismatch, a lost connection) are not modelled; a store
  whose embedding succeeds always appends its row.
- Eloquent's attribute casts, the `created_at`/`updated_at` columns and the
  embedding dimension of the table are left out.
- `now()->toIso8601String()` is the string `env.now`, one value per call.
- `Log::` calls are left out: they have no effect on results.
- Previous-exception chaining (the third constructor argument) is left out; so
  are exception codes.
- TypeError messages follow PHP 8's wording. Only their class is relied on in
  contracts.
- `json_encode` is modelled only for flat arrays of string keys and string
  values, which is what the weather tool returns.
- The weather tool's URL building (`urlencode`) and fetch are one oracle
  result.
  - The JSON decoding of wttr.in's body and the reads inside it are the same
    oracle.
  - A malformed body, which would raise undefined-key errors, is not modelled.
- `Php.StringOffset` and `Php.ToText` simplify two things: string offsets with
  numeric-string keys, and the float-to-string conversion.
- `analyzeImage` (repository and service) is left out: it uploads and stores
  files.
- `GetDateTool` is left out: it reads the wall clock and is not registered.
  The model proves it cannot be resolved.
- The controllers, routes, views and service providers are left out. So is
  `LLMRepository.php`, an unused HTTP implementation of the same interface.
- Getters (`getContent`, `getMetadata`, `getResponse`) are the datatypes'
  fields.
- Ollama.Chat: terminates within `fuel` turns or reports `OutOfFuel`, because
  the source loop has no bound.

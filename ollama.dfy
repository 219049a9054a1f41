/**
 * The Ollama-backed LLM repository: text generation, embeddings, the model list, one
 * model's details, and the chat loop that lets the model call tools.
 *
 * The Ollama client is an oracle from requests to decoded JSON answers (or the
 * exception the client throws); the clock is the string `now()->toIso8601String()`
 * gives; the weather tool's fetch is the oracle of the Weather module.
 */
module Ollama {
  import opened Exceptions
  import opened Php
  import Json
  import Weather
  import Tools

  /** One request to the Ollama server, with the settings the builder calls gave it. */
  datatype Call =
    | Ask(system: string, prompt: string, model: string, temperature: real, topP: real)
    | Embeddings(model: string, prompt: string)
    | Converse(system: string, model: string, temperature: real, topP: real,
               tools: seq<PhpArray>, messages: seq<Value>)
    | ListModels
    | Show(model: string)

  /** What the repository sees of the world outside it. */
  datatype Env = Env(ollama: Call -> Result<PhpArray>, weather: Weather.Fetch, now: string)

  // Configuration defaults (config/ollama-laravel.php without environment overrides).
  const DefaultModel: string := "llama2"
  const DefaultTemperature: real := 0.7
  const DefaultTopP: real := 0.9
  /** `Config::get('llm.embedding_model', ...)` has no configuration file behind it, so its fallback applies. */
  const EmbeddingModel: string := "nomic-embed-text"

  const SystemPromptLines: seq<string> := [
    "Eres un agente de IA especializado, da la respuesta mas corta que puedas.",
    "Responde en español."]

  /** The glue `'\n\t'` is single-quoted in the source: four characters, not a line break. */
  const Glue: string := "\\n\\t"

  function SystemPrompt(): string {
    Implode(Glue, SystemPromptLines)
  }

  /** The system prompt is the two lines around the literal glue. */
  lemma SystemPromptText()
    ensures SystemPrompt() == SystemPromptLines[0] + "\\n\\t" + SystemPromptLines[1]
  {
    var p := SystemPromptLines;
    assert p[1..] == [p[1]];
    assert SystemPrompt() == p[0] + Glue + p[1];
  }

  /** The options a caller may give; None when absent or null. */
  datatype Options = Options(model: Option<string>, temperature: Option<real>, topP: Option<real>)

  /** The settings in force: each option, or its configured default. */
  datatype Settings = Settings(model: string, temperature: real, topP: real)

  function Resolve(options: Options): Settings {
    Settings(options.model.GetOr(DefaultModel),
             options.temperature.GetOr(DefaultTemperature),
             options.topP.GetOr(DefaultTopP))
  }

  /** The `metadata` entries generate and chat return in common. */
  function Metadata(s: Settings, now: string): seq<(Key, Value)> {
    [Field("model", Str(s.model)), Field("created_at", Str(now)),
     Field("temperature", Float(s.temperature)), Field("top_p", Float(s.topP))]
  }

  /** The metadata echoes the settings used, whatever follows them. */
  lemma MetadataEchoes(s: Settings, now: string, extra: seq<(Key, Value)>)
    ensures var md := Arr(Metadata(s, now) + extra);
      Get(md, StrKey("model")) == Some(Str(s.model)) &&
      Get(md, StrKey("created_at")) == Some(Str(now)) &&
      Get(md, StrKey("temperature")) == Some(Float(s.temperature)) &&
      Get(md, StrKey("top_p")) == Some(Float(s.topP))
  {
    var es := Metadata(s, now) + extra;
    LookupAt(es, 0);
    LookupAt(es, 1);
    LookupAt(es, 2);
    LookupAt(es, 3);
  }

  /** Settings are the explicit options where given, the configured defaults elsewhere. */
  lemma {:induction false} ResolvePrefersOptions(options: Options)
    ensures options.model.Some? ==> Resolve(options).model == options.model.value
    ensures options.model.None? ==> Resolve(options).model == "llama2"
    ensures options.temperature.Some? ==> Resolve(options).temperature == options.temperature.value
    ensures options.temperature.None? ==> Resolve(options).temperature == 0.7
    ensures options.topP.Some? ==> Resolve(options).topP == options.topP.value
    ensures options.topP.None? ==> Resolve(options).topP == 0.9
  {
  }

  /** `checkSuccessResponse`: a set `error` entry fails the call, with the entry's text appended. */
  function CheckSuccess(response: PhpArray): (r: Result<()>)
    ensures r.Ok? <==> !IsSet(response, StrKey("error"))
    ensures r.Fail? ==> r.error.IsException()
    ensures r.Fail? && Get(response, StrKey("error")).value.Str? ==>
      r.error == Throwable(RuntimeException, "Invalid response from Ollama:" + Get(response, StrKey("error")).value.s)
  {
    if IsSet(response, StrKey("error")) then
      var text :- ToText(Get(response, StrKey("error")).value);
      Fail(Throwable(RuntimeException, "Invalid response from Ollama:" + text))
    else Ok(())
  }

  // ---------------------------------------------------------------------------
  // generate, getEmbedding, getModels, getModel

  const MissingResponse: string := "Invalid response from Ollama: does not contain the response field"
  const MissingContent: string := "Invalid response from Ollama: does not contain the message.content field"
  const MissingModels: string := "Invalid response from Ollama: does not contain the list of models"

  function AskFor(prompt: string, options: Options): Call {
    var s := Resolve(options);
    Ask(SystemPrompt(), prompt, s.model, s.temperature, s.topP)
  }

  /** The body of generate's `try` block. */
  function Answer(env: Env, prompt: string, options: Options): Result<PhpArray> {
    var response :- env.ollama(AskFor(prompt, options));
    var _ :- CheckSuccess(response);
    if !IsSet(response, StrKey("response")) then Fail(Throwable(RuntimeException, MissingResponse))
    else
      Ok(Arr([Field("response", Get(response, StrKey("response")).value),
              Field("metadata", Arr(Metadata(Resolve(options), env.now)))]))
  }

  /**
   * `generate($prompt, $options)`: the answer's `response` entry and the settings used;
   * every exception becomes one RuntimeException "Error generating text: ...".
   */
  function Generate(env: Env, prompt: string, options: Options): (r: Result<PhpArray>)
    ensures var reply := env.ollama(AskFor(prompt, options));
      r.Ok? <==> reply.Ok? && !IsSet(reply.value, StrKey("error")) && IsSet(reply.value, StrKey("response"))
    ensures r.Ok? ==>
      Get(r.value, StrKey("response")) == Get(env.ollama(AskFor(prompt, options)).value, StrKey("response"))
    ensures r.Fail? && r.error.IsException() ==>
      r.error.cls == RuntimeException && "Error generating text: " <= r.error.message
  {
    Catch("Error generating text: ", Answer(env, prompt, options))
  }

  /** The metadata of a generated text reports the model, time and settings used. */
  lemma GenerateEchoes(env: Env, prompt: string, options: Options)
    requires Generate(env, prompt, options).Ok?
    ensures var md := Get(Generate(env, prompt, options).value, StrKey("metadata"));
      md.Some? &&
      Get(md.value, StrKey("model")) == Some(Str(options.model.GetOr("llama2"))) &&
      Get(md.value, StrKey("created_at")) == Some(Str(env.now)) &&
      Get(md.value, StrKey("temperature")) == Some(Float(options.temperature.GetOr(0.7))) &&
      Get(md.value, StrKey("top_p")) == Some(Float(options.topP.GetOr(0.9)))
  {
    var r := Generate(env, prompt, options).value;
    LookupAt(r.entries, 1);
    MetadataEchoes(Resolve(options), env.now, []);
    assert Metadata(Resolve(options), env.now) + [] == Metadata(Resolve(options), env.now);
  }

  /** The failure messages of generate, one per way the answer can be wrong. */
  lemma GenerateFailures(env: Env, prompt: string, options: Options)
    ensures var reply := env.ollama(AskFor(prompt, options));
      reply.Ok? && IsSet(reply.value, StrKey("error")) && Get(reply.value, StrKey("error")).value.Str? ==>
        Generate(env, prompt, options) == Fail(Throwable(RuntimeException,
          "Error generating text: " + ("Invalid response from Ollama:" + Get(reply.value, StrKey("error")).value.s)))
    ensures var reply := env.ollama(AskFor(prompt, options));
      reply.Ok? && !IsSet(reply.value, StrKey("error")) && !IsSet(reply.value, StrKey("response")) ==>
        Generate(env, prompt, options) == Fail(Throwable(RuntimeException, "Error generating text: " + MissingResponse))
    ensures var reply := env.ollama(AskFor(prompt, options));
      reply.Fail? && reply.error.IsException() ==>
        Generate(env, prompt, options) == Fail(Throwable(RuntimeException, "Error generating text: " + reply.error.message))
  {
  }

  /** The body of getEmbedding's `try` block; `$response['embedding']` is read without a check. */
  function Embed(env: Env, prompt: string): Result<PhpArray> {
    var response :- env.ollama(Embeddings(EmbeddingModel, prompt));
    var _ :- CheckSuccess(response);
    var embedding :- Read(response, StrKey("embedding"));
    Ok(Arr([Field("response", embedding),
            Field("metadata", Arr([Field("model", Str(EmbeddingModel)), Field("created_at", Str(env.now))]))]))
  }

  /** `getEmbedding($prompt)`: the answer's `embedding` entry as `response`. */
  function GetEmbedding(env: Env, prompt: string): (r: Result<PhpArray>)
    ensures var reply := env.ollama(Embeddings(EmbeddingModel, prompt));
      r.Ok? <==> reply.Ok? && !IsSet(reply.value, StrKey("error")) && Get(reply.value, StrKey("embedding")).Some?
    ensures r.Ok? ==>
      Get(r.value, StrKey("response")) == Get(env.ollama(Embeddings(EmbeddingModel, prompt)).value, StrKey("embedding"))
    ensures r.Fail? && r.error.IsException() ==>
      r.error.cls == RuntimeException && "Error generating embedding: " <= r.error.message
  {
    Catch("Error generating embedding: ", Embed(env, prompt))
  }

  /** An answer without an embedding fails on PHP's undefined-key warning. */
  lemma MissingEmbedding(env: Env, prompt: string)
    requires var reply := env.ollama(Embeddings(EmbeddingModel, prompt));
      reply.Ok? && !IsSet(reply.value, StrKey("error")) && Get(reply.value, StrKey("embedding")).None?
    ensures GetEmbedding(env, prompt) ==
      Fail(Throwable(RuntimeException, "Error generating embedding: " + UndefinedKey(StrKey("embedding"))))
  {
  }

  const ModelsReturnType: string :=
    "Src\\LLM\\Infrastructure\\Repositories\\OllamaLLMRepository::getModels(): Return value must be of type array, "

  /** The body of getModels' `try` block; the declared `array` return type is checked on return. */
  function Models(env: Env): Result<PhpArray> {
    var response :- env.ollama(ListModels);
    var _ :- CheckSuccess(response);
    if !IsSet(response, StrKey("models")) then Fail(Throwable(RuntimeException, MissingModels))
    else
      var models := Get(response, StrKey("models")).value;
      if models.Arr? then Ok(models)
      else Fail(Throwable(TypeError, ModelsReturnType + TypeName(models) + " returned"))
  }

  /**
   * `getModels()`: the answer's `models` entry. A `models` entry that is not an array is
   * a TypeError, which the `catch (Exception)` block does not catch.
   */
  function GetModels(env: Env): (r: Result<PhpArray>)
    ensures var reply := env.ollama(ListModels);
      r.Ok? <==>
        (reply.Ok? && !IsSet(reply.value, StrKey("error")) &&
         IsSet(reply.value, StrKey("models")) && Get(reply.value, StrKey("models")).value.Arr?)
    ensures r.Ok? ==> Get(env.ollama(ListModels).value, StrKey("models")) == Some(r.value)
    ensures r.Fail? && r.error.IsException() ==>
      r.error.cls == RuntimeException && "Error getting models: " <= r.error.message
  {
    Catch("Error getting models: ", Models(env))
  }

  /** A list of models missing from the answer is reported as such. */
  lemma MissingModelList(env: Env)
    requires env.ollama(ListModels).Ok?
    requires !IsSet(env.ollama(ListModels).value, StrKey("error"))
    requires !IsSet(env.ollama(ListModels).value, StrKey("models"))
    ensures GetModels(env) == Fail(Throwable(RuntimeException, "Error getting models: " + MissingModels))
  {
  }

  /** `getModel($modelName)`: the whole answer of `show`, once it carries no error. */
  function GetModel(env: Env, modelName: string): (r: Result<PhpArray>)
    ensures var reply := env.ollama(Show(modelName));
      r.Ok? <==> reply.Ok? && !IsSet(reply.value, StrKey("error"))
    ensures r.Ok? ==> env.ollama(Show(modelName)) == r
    ensures r.Fail? && r.error.IsException() ==>
      r.error.cls == RuntimeException && "Error al obtener información del modelo: " <= r.error.message
  {
    Catch("Error al obtener información del modelo: ",
      var response :- env.ollama(Show(modelName));
      var _ :- CheckSuccess(response);
      Ok(response))
  }

  // ---------------------------------------------------------------------------
  // chat

  /** What stays fixed over one chat: the settings and the tools offered. */
  datatype Session = Session(settings: Settings, tools: seq<PhpArray>)

  function Open(options: Options): Session {
    var s := Resolve(options);
    Session(s, Tools.AllDefinitions(Tools.Standard, s.model))
  }

  function Request(session: Session, messages: seq<Value>): Call {
    Converse(SystemPrompt(), session.settings.model, session.settings.temperature, session.settings.topP,
             session.tools, messages)
  }

  /** The tools offered: the weather tool's definition for the tool-capable model, none otherwise. */
  lemma ToolsOffered(options: Options, messages: seq<Value>)
    ensures Request(Open(options), messages).tools ==
      if options.model.GetOr("llama2") == "qwen2.5:3b" then [Weather.Definition()] else []
    ensures Request(Open(options), messages).tools == Tools.AllDefinitions(Tools.Standard, options.model.GetOr("llama2"))
  {
    Tools.StandardDefinitions(options.model.GetOr("llama2"));
  }

  /** `$response['message']['tool_calls'][0]['function']`: only the first call is looked at. */
  function FirstCall(response: PhpArray): Result<Value> {
    var message :- Read(response, StrKey("message"));
    var calls :- Read(message, StrKey("tool_calls"));
    var first :- Read(calls, IntKey(0));
    Read(first, StrKey("function"))
  }

  const GetArgumentType: string :=
    "Src\\LLM\\Domain\\Tools\\ToolFunctionRegistry::get(): Argument #1 ($name) must be of type string, "

  /** Resolving a call's tool by name and running it on the call's arguments. */
  function Invoke(env: Env, call: Value): Result<(string, seq<(string, string)>)> {
    var name :- Read(call, StrKey("name"));
    if !name.Str? then Fail(Throwable(TypeError, GetArgumentType + TypeName(name) + " given"))
    else
      var tool :- Tools.Get(Tools.Standard, name.s);
      var arguments :- Read(call, StrKey("arguments"));
      var result :- Tools.Execute(env.weather, tool, arguments);
      Ok((name.s, result))
  }

  /** The message reporting a tool's result: its name and its JSON-encoded result. */
  function ToolMessage(name: string, result: seq<(string, string)>): PhpArray {
    Arr([Field("role", Str("tool")), Field("name", Str(name)), Field("content", Str(Json.EncodeStringMap(result)))])
  }

  /**
   * `handleToolCalls`: the two messages it appends, the assistant's message and the
   * tool's answer; nothing is appended when resolving or running the tool fails.
   */
  function ToolRound(env: Env, response: PhpArray): (r: Result<seq<Value>>)
    ensures r.Ok? ==> |r.value| == 2 && Get(response, StrKey("message")) == Some(r.value[0])
    ensures r.Ok? ==> FirstCall(response).Ok? && Invoke(env, FirstCall(response).value).Ok?
    ensures r.Ok? ==>
      var (name, result) := Invoke(env, FirstCall(response).value).value;
      r.value[1] == ToolMessage(name, result)
    ensures r.Fail? ==>
      (FirstCall(response).Fail? && r.error == FirstCall(response).error) ||
      (FirstCall(response).Ok? && Invoke(env, FirstCall(response).value).Fail? &&
       r.error == Invoke(env, FirstCall(response).value).error)
  {
    var call :- FirstCall(response);
    var message := Read(response, StrKey("message"));
    assert message.Ok?;
    var invoked :- Invoke(env, call);
    Ok([message.value, ToolMessage(invoked.0, invoked.1)])
  }

  /** A model reply that asks for tool calls, in the shape Ollama gives it. */
  function ToolCallReply(content: Value, calls: seq<Value>): PhpArray {
    Arr([Field("message", Arr([Field("role", Str("assistant")), Field("content", content),
                               Field("tool_calls", List(calls))]))])
  }

  lemma {:induction false} FirstCallOfReply(content: Value, calls: seq<Value>)
    requires calls != []
    ensures FirstCall(ToolCallReply(content, calls)) == Read(calls[0], StrKey("function"))
  {
    var reply := ToolCallReply(content, calls);
    var message := reply.entries[0].1;
    LookupAt(reply.entries, 0);
    assert Read(reply, StrKey("message")) == Ok(message);
    LookupAt(message.entries, 2);
    assert Read(message, StrKey("tool_calls")) == Ok(List(calls));
    ListAt(calls, 0);
    assert Read(List(calls), IntKey(0)) == Ok(calls[0]);
  }

  /**
   * Calls after the first are ignored: two replies that agree on their first call
   * fail alike or append the same tool message.
   */
  lemma OnlyFirstCall(env: Env, content: Value, first: Value, rest1: seq<Value>, rest2: seq<Value>)
    ensures var r1 := ToolRound(env, ToolCallReply(content, [first] + rest1));
      var r2 := ToolRound(env, ToolCallReply(content, [first] + rest2));
      (r1.Ok? <==> r2.Ok?) && (r1.Ok? ==> r1.value[1] == r2.value[1]) && (r1.Fail? ==> r1.error == r2.error)
  {
    FirstCallOfReply(content, [first] + rest1);
    FirstCallOfReply(content, [first] + rest2);
  }

  /** What one turn of the `do ... while` loop leads to. */
  datatype Turn = Next(messages: seq<Value>) | Stop(result: Result<PhpArray>)

  /** After the loop: the last reply's `message.content`, and the whole transcript. */
  function Finish(env: Env, session: Session, response: PhpArray, messages: seq<Value>): Result<PhpArray> {
    if !IsSet2(response, StrKey("message"), StrKey("content")) then Fail(Throwable(RuntimeException, MissingContent))
    else
      Ok(Arr([Field("response", Get2(response, StrKey("message"), StrKey("content")).value),
              Field("metadata", Arr(Metadata(session.settings, env.now) + [Field("messages", List(messages))]))]))
  }

  /** One turn: ask the model; run the requested tool and go on, or stop with the reply. */
  function Step(env: Env, session: Session, messages: seq<Value>): Turn {
    match env.ollama(Request(session, messages))
    case Fail(e) => Stop(Fail(e))
    case Ok(response) =>
      match CheckSuccess(response)
      case Fail(e) => Stop(Fail(e))
      case Ok(_) =>
        if IsSet2(response, StrKey("message"), StrKey("tool_calls")) then
          match ToolRound(env, response)
          case Ok(appended) => Next(messages + appended)
          case Fail(e) => Stop(Fail(e))
        else Stop(Finish(env, session, response, messages))
  }

  /** One turn never shortens the transcript: a tool turn appends two messages. */
  lemma StepAppendsTwo(env: Env, session: Session, messages: seq<Value>)
    ensures var turn := Step(env, session, messages);
      turn.Next? ==> |turn.messages| == |messages| + 2 && turn.messages[..|messages|] == messages
  {
  }

  /** The turns of a chat, as a function of the transcript so far. */
  type Turns = seq<Value> -> Turn

  function ChatTurns(env: Env, session: Session): Turns {
    (messages: seq<Value>) => Step(env, session, messages)
  }

  /** The loop, allowed at most `fuel` turns. */
  function Loop(turns: Turns, messages: seq<Value>, fuel: nat): Run<PhpArray>
    decreases fuel
  {
    if fuel == 0 then OutOfFuel
    else
      match turns(messages)
      case Next(grown) => Loop(turns, grown, fuel - 1)
      case Stop(r) => Completed(r)
  }

  const ChatPrefix: string := "Error in the chat: "

  /** `chat($messages, $options)`, within `fuel` turns. */
  function ChatSpec(env: Env, messages: seq<Value>, options: Options, fuel: nat): Run<PhpArray> {
    match Loop(ChatTurns(env, Open(options)), messages, fuel)
    case Completed(r) => Completed(Catch(ChatPrefix, r))
    case OutOfFuel => OutOfFuel
  }

  /** `chat($messages, $options)`: the loop over the chat's turns, with its exceptions wrapped. */
  method Chat(env: Env, messages: seq<Value>, options: Options, fuel: nat) returns (run: Run<PhpArray>)
    ensures run == ChatSpec(env, messages, options, fuel)
  {
    var loop := Talk(ChatTurns(env, Open(options)), messages, fuel);
    if loop.Completed? {
      run := Completed(Catch(ChatPrefix, loop.result));
    } else {
      run := OutOfFuel;
    }
  }

  /**
   * The `do ... while` loop: take a turn; a turn that handled a tool call gives the
   * grown transcript to ask with again, any other ends the loop with its result.
   */
  method Talk(turns: Turns, messages: seq<Value>, fuel: nat) returns (run: Run<PhpArray>)
    ensures run == Loop(turns, messages, fuel)
  {
    var transcript := messages;
    var left := fuel;
    var outcome: Option<Result<PhpArray>> := None;
    while outcome.None? && left > 0
      invariant Loop(turns, messages, fuel) ==
        if outcome.Some? then Completed(outcome.value) else Loop(turns, transcript, left)
      decreases left
    {
      var turn := turns(transcript);
      left := left - 1;
      match turn
      case Next(grown) => transcript := grown;
      case Stop(result) => outcome := Some(result);
    }
    if outcome.Some? {
      run := Completed(outcome.value);
    } else {
      run := OutOfFuel;
    }
  }

  /** Turns that only ever append two messages, as the chat's do. */
  ghost predicate AppendsTwo(turns: Turns) {
    forall messages: seq<Value> :: turns(messages).Next? ==>
      |turns(messages).messages| == |messages| + 2 && turns(messages).messages[..|messages|] == messages
  }

  lemma ChatAppendsTwo(env: Env, session: Session)
    ensures AppendsTwo(ChatTurns(env, session))
  {
    forall messages: seq<Value> | ChatTurns(env, session)(messages).Next?
      ensures |ChatTurns(env, session)(messages).messages| == |messages| + 2
      ensures ChatTurns(env, session)(messages).messages[..|messages|] == messages
    {
      StepAppendsTwo(env, session, messages);
    }
  }

  /** The transcript after `k` tool turns, if the first `k` turns all ran a tool. */
  function Rounds(turns: Turns, messages: seq<Value>, k: nat): Option<seq<Value>>
    decreases k
  {
    if k == 0 then Some(messages)
    else
      match turns(messages)
      case Next(grown) => Rounds(turns, grown, k - 1)
      case Stop(_) => None
  }

  /** Each tool turn appends two messages and leaves the earlier ones as they were. */
  lemma {:induction false} RoundsGrow(turns: Turns, messages: seq<Value>, k: nat)
    requires AppendsTwo(turns)
    requires Rounds(turns, messages, k).Some?
    ensures var t := Rounds(turns, messages, k).value;
      |t| == |messages| + 2 * k && t[..|messages|] == messages
    decreases k
  {
    if k > 0 {
      var grown := turns(messages).messages;
      RoundsGrow(turns, grown, k - 1);
      var t := Rounds(turns, messages, k).value;
      assert t[..|messages|] == t[..|grown|][..|messages|];
    }
  }

  /** A finished loop ran some number of tool turns, then stopped on the next turn. */
  lemma {:induction false} LoopOutcome(turns: Turns, messages: seq<Value>, fuel: nat)
    returns (k: nat, t: seq<Value>)
    requires Loop(turns, messages, fuel).Completed?
    ensures k < fuel && Rounds(turns, messages, k) == Some(t)
    ensures turns(t) == Stop(Loop(turns, messages, fuel).result)
    decreases fuel
  {
    match turns(messages)
    case Stop(_) =>
      k, t := 0, messages;
    case Next(grown) =>
      var k', t' := LoopOutcome(turns, grown, fuel - 1);
      k, t := k' + 1, t';
  }

  /**
   * A successful chat ran k tool turns, then got a reply without tool calls: it
   * returns that reply's content, the settings, and the transcript grown by 2k messages.
   */
  lemma ChatReply(env: Env, messages: seq<Value>, options: Options, fuel: nat)
    returns (k: nat, t: seq<Value>, reply: PhpArray)
    requires ChatSpec(env, messages, options, fuel).Completed?
    requires ChatSpec(env, messages, options, fuel).result.Ok?
    ensures k < fuel && |t| == |messages| + 2 * k && t[..|messages|] == messages
    ensures env.ollama(Request(Open(options), t)) == Ok(reply)
    ensures !IsSet(reply, StrKey("error")) && !IsSet2(reply, StrKey("message"), StrKey("tool_calls"))
    ensures var out := ChatSpec(env, messages, options, fuel).result.value;
      Get(out, StrKey("response")) == Get2(reply, StrKey("message"), StrKey("content")) &&
      Get2(out, StrKey("metadata"), StrKey("messages")) == Some(List(t)) &&
      Get2(out, StrKey("metadata"), StrKey("model")) == Some(Str(options.model.GetOr("llama2"))) &&
      Get2(out, StrKey("metadata"), StrKey("temperature")) == Some(Float(options.temperature.GetOr(0.7))) &&
      Get2(out, StrKey("metadata"), StrKey("top_p")) == Some(Float(options.topP.GetOr(0.9)))
  {
    var session := Open(options);
    var turns := ChatTurns(env, session);
    k, t := LoopOutcome(turns, messages, fuel);
    ChatAppendsTwo(env, session);
    RoundsGrow(turns, messages, k);
    var out := ChatSpec(env, messages, options, fuel).result.value;
    FinalTurn(env, session, t, out);
    reply := env.ollama(Request(session, t)).value;
  }

  /** The turn that ends a successful chat: a reply without tool calls, shaped into the result. */
  lemma FinalTurn(env: Env, session: Session, t: seq<Value>, out: PhpArray)
    requires Step(env, session, t) == Stop(Ok(out))
    ensures env.ollama(Request(session, t)).Ok?
    ensures var reply := env.ollama(Request(session, t)).value;
      !IsSet(reply, StrKey("error")) && !IsSet2(reply, StrKey("message"), StrKey("tool_calls")) &&
      Get(out, StrKey("response")) == Get2(reply, StrKey("message"), StrKey("content"))
    ensures Get2(out, StrKey("metadata"), StrKey("messages")) == Some(List(t))
    ensures Get2(out, StrKey("metadata"), StrKey("model")) == Some(Str(session.settings.model))
    ensures Get2(out, StrKey("metadata"), StrKey("temperature")) == Some(Float(session.settings.temperature))
    ensures Get2(out, StrKey("metadata"), StrKey("top_p")) == Some(Float(session.settings.topP))
  {
    StopsWithReply(env, session, t);
    FinishShape(env, session, env.ollama(Request(session, t)).value, t);
  }

  /**
   * A turn that ends with a value got an answer without error and without tool calls,
   * and returns what `Finish` makes of it.
   */
  lemma StopsWithReply(env: Env, session: Session, messages: seq<Value>)
    requires Step(env, session, messages).Stop? && Step(env, session, messages).result.Ok?
    ensures env.ollama(Request(session, messages)).Ok?
    ensures var reply := env.ollama(Request(session, messages)).value;
      !IsSet(reply, StrKey("error")) && !IsSet2(reply, StrKey("message"), StrKey("tool_calls")) &&
      Step(env, session, messages) == Stop(Finish(env, session, reply, messages))
  {
  }

  /** An answer without error and without tool calls ends the loop with what `Finish` makes of it. */
  lemma FinalReply(env: Env, session: Session, messages: seq<Value>)
    requires env.ollama(Request(session, messages)).Ok?
    requires var reply := env.ollama(Request(session, messages)).value;
      !IsSet(reply, StrKey("error")) && !IsSet2(reply, StrKey("message"), StrKey("tool_calls"))
    ensures Step(env, session, messages) ==
      Stop(Finish(env, session, env.ollama(Request(session, messages)).value, messages))
  {
  }

  /** The shape of a chat's result: the reply's content, the settings and the transcript. */
  lemma FinishShape(env: Env, session: Session, reply: PhpArray, t: seq<Value>)
    requires Finish(env, session, reply, t).Ok?
    ensures var out := Finish(env, session, reply, t).value;
      Get(out, StrKey("response")) == Get2(reply, StrKey("message"), StrKey("content")) &&
      Get2(out, StrKey("metadata"), StrKey("messages")) == Some(List(t)) &&
      Get2(out, StrKey("metadata"), StrKey("model")) == Some(Str(session.settings.model)) &&
      Get2(out, StrKey("metadata"), StrKey("temperature")) == Some(Float(session.settings.temperature)) &&
      Get2(out, StrKey("metadata"), StrKey("top_p")) == Some(Float(session.settings.topP))
  {
    FinishEntries(env, session, reply, t);
    ChatMetadata(session.settings, env.now, t);
  }

  /** A chat's metadata: the settings used, then the final transcript. */
  lemma ChatMetadata(s: Settings, now: string, t: seq<Value>)
    ensures var md := Arr(Metadata(s, now) + [Field("messages", List(t))]);
      Get(md, StrKey("messages")) == Some(List(t)) &&
      Get(md, StrKey("model")) == Some(Str(s.model)) &&
      Get(md, StrKey("temperature")) == Some(Float(s.temperature)) &&
      Get(md, StrKey("top_p")) == Some(Float(s.topP))
  {
    MetadataEchoes(s, now, [Field("messages", List(t))]);
    LookupAt(Metadata(s, now) + [Field("messages", List(t))], 4);
  }

  /** A finished chat's result holds the reply's content and the metadata, under their keys. */
  lemma FinishEntries(env: Env, session: Session, reply: PhpArray, t: seq<Value>)
    requires Finish(env, session, reply, t).Ok?
    ensures var out := Finish(env, session, reply, t).value;
      Get(out, StrKey("response")) == Get2(reply, StrKey("message"), StrKey("content")) &&
      Get(out, StrKey("metadata")) == Some(Arr(Metadata(session.settings, env.now) + [Field("messages", List(t))]))
  {
    var out := Finish(env, session, reply, t).value;
    LookupAt(out.entries, 0);
    LookupAt(out.entries, 1);
  }

  /** A reply carrying an error stops the loop in whatever turn it comes. */
  lemma ErrorStops(env: Env, session: Session, messages: seq<Value>)
    requires env.ollama(Request(session, messages)).Ok?
    requires IsSet(env.ollama(Request(session, messages)).value, StrKey("error"))
    ensures Step(env, session, messages).Stop? && Step(env, session, messages).result.Fail?
    ensures var e := Get(env.ollama(Request(session, messages)).value, StrKey("error")).value;
      e.Str? ==>
        Step(env, session, messages).result.error == Throwable(RuntimeException, "Invalid response from Ollama:" + e.s)
  {
  }

  /** The transcript of a chat after its first k turns, if each of them ran a tool. */
  function ChatRounds(env: Env, messages: seq<Value>, options: Options, k: nat): Option<seq<Value>> {
    Rounds(ChatTurns(env, Open(options)), messages, k)
  }

  /** k tool turns within the fuel, then a turn that stops: the loop ends with that turn's result. */
  lemma {:induction false} LoopAfterRounds(turns: Turns, messages: seq<Value>, k: nat, fuel: nat)
    requires k < fuel && Rounds(turns, messages, k).Some?
    requires turns(Rounds(turns, messages, k).value).Stop?
    ensures Loop(turns, messages, fuel) == Completed(turns(Rounds(turns, messages, k).value).result)
    decreases k
  {
    if k > 0 {
      LoopAfterRounds(turns, turns(messages).messages, k - 1, fuel - 1);
    }
  }

  /** k tool turns within the fuel, then a turn that stops: the chat ends with that result, caught. */
  lemma StopAfterRounds(env: Env, messages: seq<Value>, options: Options, fuel: nat, k: nat, r: Result<PhpArray>)
    requires k < fuel && ChatRounds(env, messages, options, k).Some?
    requires Step(env, Open(options), ChatRounds(env, messages, options, k).value) == Stop(r)
    ensures ChatSpec(env, messages, options, fuel) == Completed(Catch(ChatPrefix, r))
  {
    var turns := ChatTurns(env, Open(options));
    assert turns(ChatRounds(env, messages, options, k).value) == Stop(r);
    LoopAfterRounds(turns, messages, k, fuel);
  }

  /**
   * k tool turns within the fuel, then a reply with `message.content` and without
   * tool calls: the chat returns that content, the settings, and the transcript
   * grown by 2k messages.
   */
  lemma AnswerAfterRounds(env: Env, messages: seq<Value>, options: Options, fuel: nat, k: nat)
    requires k < fuel && ChatRounds(env, messages, options, k).Some?
    requires env.ollama(Request(Open(options), ChatRounds(env, messages, options, k).value)).Ok?
    requires var reply := env.ollama(Request(Open(options), ChatRounds(env, messages, options, k).value)).value;
      !IsSet(reply, StrKey("error")) && !IsSet2(reply, StrKey("message"), StrKey("tool_calls")) &&
      IsSet2(reply, StrKey("message"), StrKey("content"))
    ensures var t := ChatRounds(env, messages, options, k).value;
      |t| == |messages| + 2 * k && t[..|messages|] == messages
    ensures ChatSpec(env, messages, options, fuel).Completed? && ChatSpec(env, messages, options, fuel).result.Ok?
    ensures var t := ChatRounds(env, messages, options, k).value;
      var reply := env.ollama(Request(Open(options), t)).value;
      var out := ChatSpec(env, messages, options, fuel).result.value;
      Get(out, StrKey("response")) == Get2(reply, StrKey("message"), StrKey("content")) &&
      Get2(out, StrKey("metadata"), StrKey("messages")) == Some(List(t)) &&
      Get2(out, StrKey("metadata"), StrKey("model")) == Some(Str(options.model.GetOr("llama2"))) &&
      Get2(out, StrKey("metadata"), StrKey("temperature")) == Some(Float(options.temperature.GetOr(0.7))) &&
      Get2(out, StrKey("metadata"), StrKey("top_p")) == Some(Float(options.topP.GetOr(0.9)))
  {
    var session := Open(options);
    var t := ChatRounds(env, messages, options, k).value;
    var reply := env.ollama(Request(session, t)).value;
    FinalReply(env, session, t);
    StopAfterRounds(env, messages, options, fuel, k, Finish(env, session, reply, t));
    FinishShape(env, session, reply, t);
    ChatAppendsTwo(env, session);
    RoundsGrow(ChatTurns(env, session), messages, k);
  }

  /** A final reply without `message.content`, after any k tool turns within the fuel, fails the chat. */
  lemma MissingContentFails(env: Env, messages: seq<Value>, options: Options, fuel: nat, k: nat)
    requires k < fuel && ChatRounds(env, messages, options, k).Some?
    requires env.ollama(Request(Open(options), ChatRounds(env, messages, options, k).value)).Ok?
    requires var reply := env.ollama(Request(Open(options), ChatRounds(env, messages, options, k).value)).value;
      !IsSet(reply, StrKey("error")) && !IsSet2(reply, StrKey("message"), StrKey("tool_calls")) &&
      !IsSet2(reply, StrKey("message"), StrKey("content"))
    ensures ChatSpec(env, messages, options, fuel) ==
      Completed(Fail(Throwable(RuntimeException, "Error in the chat: " + MissingContent)))
  {
    var session := Open(options);
    var t := ChatRounds(env, messages, options, k).value;
    FinalReply(env, session, t);
    StopAfterRounds(env, messages, options, fuel, k, Fail(Throwable(RuntimeException, MissingContent)));
  }

  /**
   * A call naming a tool that is not registered, after any k tool turns within the
   * fuel, fails the whole chat with the registry's message.
   */
  lemma UnknownToolFails(env: Env, messages: seq<Value>, options: Options, fuel: nat, k: nat, name: string)
    requires k < fuel && ChatRounds(env, messages, options, k).Some? && name != Weather.Name
    requires env.ollama(Request(Open(options), ChatRounds(env, messages, options, k).value)).Ok?
    requires var reply := env.ollama(Request(Open(options), ChatRounds(env, messages, options, k).value)).value;
      !IsSet(reply, StrKey("error")) && IsSet2(reply, StrKey("message"), StrKey("tool_calls")) &&
      FirstCall(reply).Ok? && Read(FirstCall(reply).value, StrKey("name")) == Ok(Str(name))
    ensures ChatSpec(env, messages, options, fuel) == Completed(Fail(Throwable(RuntimeException,
      ChatPrefix + Tools.NotFound(name))))
  {
    var session := Open(options);
    var t := ChatRounds(env, messages, options, k).value;
    var reply := env.ollama(Request(session, t)).value;
    UnknownToolRound(env, reply, name);
    ToolFailureStops(env, session, t);
    StopAfterRounds(env, messages, options, fuel, k, Fail(Throwable(InvalidArgumentException, Tools.NotFound(name))));
  }

  /** A tool round that fails ends the loop with its exception. */
  lemma ToolFailureStops(env: Env, session: Session, messages: seq<Value>)
    requires env.ollama(Request(session, messages)).Ok?
    requires var reply := env.ollama(Request(session, messages)).value;
      !IsSet(reply, StrKey("error")) && IsSet2(reply, StrKey("message"), StrKey("tool_calls")) &&
      ToolRound(env, reply).Fail?
    ensures Step(env, session, messages) ==
      Stop(Fail(ToolRound(env, env.ollama(Request(session, messages)).value).error))
  {
  }

  /** A first call naming an unregistered tool fails the tool round with the registry's exception. */
  lemma UnknownToolRound(env: Env, response: PhpArray, name: string)
    requires name != Weather.Name
    requires FirstCall(response).Ok? && Read(FirstCall(response).value, StrKey("name")) == Ok(Str(name))
    ensures ToolRound(env, response) == Fail(Throwable(InvalidArgumentException, Tools.NotFound(name)))
  {
    Tools.StandardTools(name);
    assert Invoke(env, FirstCall(response).value) ==
      Fail(Throwable(InvalidArgumentException, Tools.NotFound(name)));
  }

  /** Every exception the chat raises carries the chat prefix; only errors pass through unwrapped. */
  lemma ChatFailure(env: Env, messages: seq<Value>, options: Options, fuel: nat)
    requires ChatSpec(env, messages, options, fuel).Completed?
    requires ChatSpec(env, messages, options, fuel).result.Fail?
    ensures var e := ChatSpec(env, messages, options, fuel).result.error;
      e.IsException() ==> e.cls == RuntimeException && "Error in the chat: " <= e.message
  {
  }
}

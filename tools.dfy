/**
 * The registry of tools the chat model may call, and the allow-list of models that
 * are offered tools at all.
 */
module Tools {
  import opened Exceptions
  import opened Php
  import Weather

  /** The tool classes of the model: the current-weather tool. */
  datatype Tool = CurrentWeather

  function Name(t: Tool): string {
    match t
    case CurrentWeather => Weather.Name
  }

  function Definition(t: Tool): PhpArray {
    match t
    case CurrentWeather => Weather.Definition()
  }

  /** `$tool->execute($arguments)`; the weather tool fetches through the given oracle. */
  function Execute(fetch: Weather.Fetch, t: Tool, arguments: Value): Result<seq<(string, string)>> {
    match t
    case CurrentWeather => Weather.Execute(fetch, arguments)
  }

  /** The models that support tool calls; compared with `in_array(..., true)`, so exactly. */
  const ToolsModels: seq<string> := ["qwen2.5:3b"]

  /** A registry: the tools in registration order. */
  datatype Registry = Registry(tools: seq<Tool>)

  /** The registry as its constructor builds it: the weather tool only. */
  const Standard: Registry := Registry([CurrentWeather])

  /** The position of the first tool with a name, if any. */
  function FirstNamed(tools: seq<Tool>, name: string): (r: Option<nat>)
    ensures r.Some? ==> r.value < |tools| && Name(tools[r.value]) == name
    ensures r.Some? ==> forall j :: 0 <= j < r.value ==> Name(tools[j]) != name
    ensures r.None? <==> forall j :: 0 <= j < |tools| ==> Name(tools[j]) != name
    decreases |tools|
  {
    if tools == [] then None
    else if Name(tools[0]) == name then Some(0)
    else
      match FirstNamed(tools[1..], name)
      case Some(i) => Some(i + 1)
      case None => None
  }

  /** The registry's message for a name no tool has. */
  function NotFound(name: string): string {
    "Tool with name '" + name + "' not found."
  }

  /**
   * `get($name)`: the first registered tool whose name is exactly `name`; an
   * InvalidArgumentException when there is none.
   */
  function Get(reg: Registry, name: string): (r: Result<Tool>)
    ensures r.Ok? ==> Name(r.value) == name
    ensures r.Ok? ==>
      exists i :: 0 <= i < |reg.tools| && reg.tools[i] == r.value &&
        forall j :: 0 <= j < i ==> Name(reg.tools[j]) != name
    ensures r.Fail? <==> forall j :: 0 <= j < |reg.tools| ==> Name(reg.tools[j]) != name
    ensures r.Fail? ==> r.error == Throwable(InvalidArgumentException, NotFound(name))
  {
    match FirstNamed(reg.tools, name)
    case Some(i) => Ok(reg.tools[i])
    case None => Fail(Throwable(InvalidArgumentException, NotFound(name)))
  }

  /**
   * `allDefinitions($model)`: nothing for a model outside the allow-list, otherwise every
   * registered tool's definition in registration order.
   */
  function AllDefinitions(reg: Registry, model: string): (defs: seq<PhpArray>)
    ensures model !in ToolsModels ==> defs == []
    ensures model in ToolsModels ==> |defs| == |reg.tools|
    ensures model in ToolsModels ==> forall i :: 0 <= i < |reg.tools| ==> defs[i] == Definition(reg.tools[i])
  {
    if model !in ToolsModels then []
    else seq(|reg.tools|, i requires 0 <= i < |reg.tools| => Definition(reg.tools[i]))
  }

  /** The registered tool answers to the weather tool's name, and to no other. */
  lemma StandardTools(name: string)
    ensures Get(Standard, name).Ok? <==> name == Weather.Name
    ensures name == Weather.Name ==> Get(Standard, name) == Ok(CurrentWeather)
  {
    if name != Weather.Name {
      assert Name(Standard.tools[0]) != name;
    }
  }

  /** The date tool exists in the code base but is not registered, so it cannot be called. */
  lemma DateToolNotRegistered()
    ensures Get(Standard, "get_date_tool") ==
      Fail(Throwable(InvalidArgumentException, "Tool with name 'get_date_tool' not found."))
  {
    StandardTools("get_date_tool");
  }

  /** The offered definitions: the weather tool's for the allow-listed model, none otherwise. */
  lemma StandardDefinitions(model: string)
    ensures AllDefinitions(Standard, model) == if model == "qwen2.5:3b" then [Weather.Definition()] else []
  {
  }
}

/**
 * The weather tool the chat model may call: its name, the definition offered to the
 * model, and the shaping of its result.
 *
 * The HTTP fetch of `https://wttr.in/<location>?format=j1` and the JSON decoding of its
 * body are one oracle: it gives the current conditions for a location, or None when
 * the fetch fails.
 */
module Weather {
  import opened Exceptions
  import opened Php

  /** The fields the tool reads from `current_condition[0]` of wttr.in's answer. */
  datatype Conditions = Conditions(
    tempC: string,
    tempF: string,
    description: string,
    humidity: string,
    windKmph: string,
    feelsLikeC: string,
    feelsLikeF: string)

  /** The fetch and decode of a location's weather; None when the fetch fails. */
  type Fetch = string -> Option<Conditions>

  const Name: string := "get_weather_tool"
  const Description: string := "Get the current weather for a location"
  const FetchFailed: string := "Could not fetch weather data"

  /** An entry `'name' => 'text'`. */
  function Text(name: string, s: string): (Key, Value) {
    Field(name, Str(s))
  }

  /** The definition's `format` parameter: a string restricted to two units. */
  function FormatParameter(): PhpArray {
    Arr([
      Text("type", "string"),
      Text("description", "The format to return the weather in, e.g. 'celsius' or 'fahrenheit'"),
      Field("enum", List([Str("celsius"), Str("fahrenheit")]))])
  }

  /** The definition's `parameters`: a JSON schema object with two required properties. */
  function Parameters(): PhpArray {
    Arr([
      Text("type", "object"),
      Field("properties", Arr([
        Field("location", Arr([
          Text("type", "string"),
          Text("description", "The location to get the weather for, e.g. San Francisco, CA")])),
        Field("format", FormatParameter())])),
      Field("required", List([Str("location"), Str("format")]))])
  }

  /** The definition's `function` part. */
  function FunctionPart(): PhpArray {
    Arr([Text("name", Name), Text("description", Description), Field("parameters", Parameters())])
  }

  /** The tool definition in the format of Ollama's `tools` request field. */
  function Definition(): PhpArray {
    Arr([Text("type", "function"), Field("function", FunctionPart())])
  }

  /** The definition describes this tool, by its own name and description. */
  lemma DefinitionNamesTool()
    ensures Get(Definition(), StrKey("type")) == Some(Str("function"))
    ensures Get2(Definition(), StrKey("function"), StrKey("name")) == Some(Str(Name))
    ensures Get2(Definition(), StrKey("function"), StrKey("description")) == Some(Str(Description))
  {
    LookupAt(Definition().entries, 1);
    LookupAt(FunctionPart().entries, 1);
  }

  /** The definition's function part carries the parameter schema. */
  lemma DefinitionHasParameters()
    ensures Get2(Definition(), StrKey("function"), StrKey("parameters")) == Some(Parameters())
  {
    LookupAt(Definition().entries, 1);
    LookupAt(FunctionPart().entries, 2);
  }

  /** Both arguments, the location and the format, are required. */
  lemma RequiredArguments()
    ensures Get(Parameters(), StrKey("required")) == Some(List([Str("location"), Str("format")]))
  {
    LookupAt(Parameters().entries, 2);
  }

  /** The format is one of two units. */
  lemma FormatChoices()
    ensures Get2(Parameters(), StrKey("properties"), StrKey("format")) == Some(FormatParameter())
    ensures Get(FormatParameter(), StrKey("enum")) == Some(List([Str("celsius"), Str("fahrenheit")]))
  {
    LookupAt(Parameters().entries, 1);
    LookupAt(Parameters().entries[1].1.entries, 1);
    LookupAt(FormatParameter().entries, 2);
  }

  /** `$format === 'fahrenheit'`: a strict comparison, so only that exact string selects Fahrenheit. */
  predicate Fahrenheit(format: Value) {
    format == Str("fahrenheit")
  }

  /** The result built from fetched conditions. */
  function Report(location: string, format: Value, c: Conditions): seq<(string, string)> {
    var f := Fahrenheit(format);
    [ ("location", location),
      ("temperature", if f then c.tempF + "°F" else c.tempC + "°C"),
      ("description", c.description),
      ("humidity", c.humidity + "%"),
      ("wind_speed", c.windKmph + " km/h"),
      ("feels_like", if f then c.feelsLikeF + "°F" else c.feelsLikeC + "°C") ]
  }

  /** The value of a key in a list of string pairs, first match. */
  function ValueOf(entries: seq<(string, string)>, k: string): (r: Option<string>)
    ensures r.None? <==> forall i :: 0 <= i < |entries| ==> entries[i].0 != k
    ensures r.Some? ==> (k, r.value) in entries
  {
    if entries == [] then None
    else if entries[0].0 == k then Some(entries[0].1)
    else ValueOf(entries[1..], k)
  }

  /** An entry whose key no earlier entry has is what a lookup of that key finds. */
  lemma {:induction false} ValueOfAt(entries: seq<(string, string)>, i: nat)
    requires i < |entries|
    requires forall j :: 0 <= j < i ==> entries[j].0 != entries[i].0
    ensures ValueOf(entries, entries[i].0) == Some(entries[i].1)
    decreases i
  {
    if i > 0 {
      assert entries[1..][i - 1] == entries[i];
      ValueOfAt(entries[1..], i - 1);
    }
  }

  /** The keys of a list of string pairs, in order. */
  function KeysOf(entries: seq<(string, string)>): (ks: seq<string>)
    ensures |ks| == |entries|
    ensures forall i :: 0 <= i < |entries| ==> ks[i] == entries[i].0
  {
    seq(|entries|, i requires 0 <= i < |entries| => entries[i].0)
  }

  /**
   * `execute($arguments)`. Both arguments are read before anything else, so a missing
   * one is an "Undefined array key" error; `urlencode` then demands a string location.
   */
  function Execute(fetch: Fetch, arguments: Value): (r: Result<seq<(string, string)>>)
    ensures r.Ok? <==>
      Get(arguments, StrKey("location")).Some? && Get(arguments, StrKey("format")).Some? &&
      Get(arguments, StrKey("location")).value.Str?
    ensures r.Ok? && fetch(Get(arguments, StrKey("location")).value.s).None? ==>
      r.value == [("error", FetchFailed)]
    ensures r.Ok? && fetch(Get(arguments, StrKey("location")).value.s).Some? ==>
      var location := Get(arguments, StrKey("location")).value.s;
      r.value == Report(location, Get(arguments, StrKey("format")).value, fetch(location).value)
  {
    var location :- Read(arguments, StrKey("location"));
    var format :- Read(arguments, StrKey("format"));
    if !location.Str? then
      Fail(Throwable(TypeError, "urlencode(): Argument #1 ($string) must be of type string, " + TypeName(location) + " given"))
    else
      match fetch(location.s)
      case None => Ok([("error", FetchFailed)])
      case Some(c) => Ok(Report(location.s, format, c))
  }

  /**
   * Fetched conditions make `execute` report them, whatever the order of the
   * arguments and whatever other arguments come with them.
   */
  lemma ExecuteReports(fetch: Fetch, arguments: Value, location: string, format: Value)
    requires Get(arguments, StrKey("location")) == Some(Str(location))
    requires Get(arguments, StrKey("format")) == Some(format)
    requires fetch(location).Some?
    ensures Execute(fetch, arguments) == Ok(Report(location, format, fetch(location).value))
  {
  }

  /** The call the model usually makes, `{location, format}`, is one such argument array. */
  lemma TwoArguments(location: string, format: Value)
    ensures var arguments := Arr([Field("location", Str(location)), Field("format", format)]);
      Get(arguments, StrKey("location")) == Some(Str(location)) && Get(arguments, StrKey("format")) == Some(format)
  {
    LookupAt([Field("location", Str(location)), Field("format", format)], 1);
  }

  /**
   * With conditions fetched, the result names its six fields in order, echoes the
   * location, and picks the unit from the format: Fahrenheit for exactly "fahrenheit",
   * Celsius for anything else.
   */
  lemma ReportFields(fetch: Fetch, arguments: Value, location: string, format: Value, c: Conditions)
    requires Get(arguments, StrKey("location")) == Some(Str(location))
    requires Get(arguments, StrKey("format")) == Some(format)
    requires fetch(location) == Some(c)
    ensures var r := Execute(fetch, arguments);
      r.Ok? &&
      KeysOf(r.value) == ["location", "temperature", "description", "humidity", "wind_speed", "feels_like"] &&
      ValueOf(r.value, "location") == Some(location) &&
      ValueOf(r.value, "temperature") == Some(if Fahrenheit(format) then c.tempF + "°F" else c.tempC + "°C") &&
      ValueOf(r.value, "description") == Some(c.description) &&
      ValueOf(r.value, "humidity") == Some(c.humidity + "%") &&
      ValueOf(r.value, "wind_speed") == Some(c.windKmph + " km/h") &&
      ValueOf(r.value, "feels_like") == Some(if Fahrenheit(format) then c.feelsLikeF + "°F" else c.feelsLikeC + "°C")
  {
    ExecuteReports(fetch, arguments, location, format);
    ReportEntries(location, format, c);
  }

  /** The keys of a report are the six field names, in order. */
  lemma ReportKeys(location: string, format: Value, c: Conditions)
    ensures KeysOf(Report(location, format, c)) == ["location", "temperature", "description", "humidity", "wind_speed", "feels_like"]
  {
  }

  /** Each field of a report is found under its own key. */
  lemma ReportValueAt(location: string, format: Value, c: Conditions, i: nat)
    requires i < 6
    ensures var r := Report(location, format, c); ValueOf(r, r[i].0) == Some(r[i].1)
  {
    ValueOfAt(Report(location, format, c), i);
  }

  /** The six fields of a report, each found under its own key. */
  lemma ReportEntries(location: string, format: Value, c: Conditions)
    ensures var r := Report(location, format, c);
      KeysOf(r) == ["location", "temperature", "description", "humidity", "wind_speed", "feels_like"] &&
      ValueOf(r, "location") == Some(location) &&
      ValueOf(r, "temperature") == Some(if Fahrenheit(format) then c.tempF + "°F" else c.tempC + "°C") &&
      ValueOf(r, "description") == Some(c.description) &&
      ValueOf(r, "humidity") == Some(c.humidity + "%") &&
      ValueOf(r, "wind_speed") == Some(c.windKmph + " km/h") &&
      ValueOf(r, "feels_like") == Some(if Fahrenheit(format) then c.feelsLikeF + "°F" else c.feelsLikeC + "°C")
  {
    ReportKeys(location, format, c);
    ReportValueAt(location, format, c, 0);
    ReportValueAt(location, format, c, 1);
    ReportValueAt(location, format, c, 2);
    ReportValueAt(location, format, c, 3);
    ReportValueAt(location, format, c, 4);
    ReportValueAt(location, format, c, 5);
  }

  /** A missing argument is PHP's undefined-key warning, raised before any fetch. */
  lemma MissingArgument(fetch: Fetch, arguments: seq<(Key, Value)>)
    requires Get(Arr(arguments), StrKey("location")).Some?
    requires Get(Arr(arguments), StrKey("format")).None?
    ensures Execute(fetch, Arr(arguments)) == Fail(Throwable(ErrorException, UndefinedKey(StrKey("format"))))
  {
  }
}

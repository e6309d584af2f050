/**
 * The settings sent with the `llm` verb when a call starts: which vendor and
 * model run the agent, which hooks receive its notifications, and the agent's
 * listen/think settings including the schema of the one tool it may call.
 * The structure is fixed; only the credential varies between sessions.
 */
module AgentConfig {
  import opened Wrappers

  /** One entry of a JSON-schema `properties` object. */
  datatype Property = Property(
    name: string,
    kind: string,
    description: Option<string>,
    allowed: Option<seq<string>>)

  /** A JSON-schema object: its properties in declaration order and the names it requires. */
  datatype Parameters = Parameters(kind: string, properties: seq<Property>, required: seq<string>)

  /** A function the agent may call. */
  datatype FunctionDef = FunctionDef(name: string, description: string, parameters: Parameters)

  datatype Think = Think(
    model: string,
    providerKind: string,
    instructions: string,
    functions: seq<FunctionDef>)

  datatype Agent = Agent(listenModel: string, think: Think)

  datatype Settings = Settings(kind: string, agent: Agent)

  /** The argument of the `llm` verb. */
  datatype LlmConfig = LlmConfig(
    vendor: string,
    model: string,
    apiKey: string,
    actionHook: string,
    eventHook: string,
    toolHook: string,
    events: seq<string>,
    settings: Settings)

  const ActionHook: string := "/final"
  const EventHook: string := "/event"
  const ToolHook: string := "/toolCall"
  const WeatherToolName: string := "get_weather"
  const ScaleValues: seq<string> := ["fahrenheit", "celsius"]

  /** The property of `ps` called `name`, if any (the first one, should names repeat). */
  function PropertyNamed(ps: seq<Property>, name: string): (r: Option<Property>)
    ensures r.Some? ==> r.value in ps && r.value.name == name
    ensures r.Some? ==> exists k :: 0 <= k < |ps| && ps[k] == r.value && forall j :: 0 <= j < k ==> ps[j].name != name
    ensures r.None? <==> forall p :: p in ps ==> p.name != name
  {
    if |ps| == 0 then None
    else if ps[0].name == name then Some(ps[0])
    else PropertyNamed(ps[1..], name)
  }

  /** Property names are distinct and every required name is one of them. */
  predicate WellFormedSchema(p: Parameters) {
    && (forall i, j :: 0 <= i < j < |p.properties| ==> p.properties[i].name != p.properties[j].name)
    && (forall r :: r in p.required ==> PropertyNamed(p.properties, r).Some?)
  }

  /** The `get_weather` tool: a free-text location and a temperature scale, both required. */
  function WeatherTool(): FunctionDef {
    FunctionDef(
      WeatherToolName,
      "Get the weather at a given location",
      Parameters(
        "object",
        [ Property("location", "string", Some("Location to get the weather from"), None),
          Property("scale", "string", None, Some(ScaleValues)) ],
        ["location", "scale"]))
  }

  /** The configuration built for a session that has the credential `apiKey`. */
  function Build(apiKey: string): (c: LlmConfig)
    ensures c.apiKey == apiKey
    ensures c.actionHook == ActionHook && c.eventHook == EventHook && c.toolHook == ToolHook
    ensures |c.settings.agent.think.functions| == 1
    ensures c.settings.agent.think.functions[0].name == WeatherToolName
  {
    LlmConfig(
      "deepgram",
      "voice-agent",
      apiKey,
      ActionHook,
      EventHook,
      ToolHook,
      ["all"],
      Settings(
        "SettingsConfiguration",
        Agent(
          "nova-2",
          Think(
            "claude-3-haiku-20240307",
            "anthropic",
            "Please help the user with their request.",
            [WeatherTool()]))))
  }

  /** The declared tool's schema is well formed, requires exactly `location` and
      `scale`, and restricts `scale` to exactly fahrenheit and celsius. */
  lemma WeatherSchemaWellFormed(apiKey: string)
    ensures var f := Build(apiKey).settings.agent.think.functions[0];
      && WellFormedSchema(f.parameters)
      && f.parameters.required == ["location", "scale"]
      && PropertyNamed(f.parameters.properties, "scale").Some?
      && PropertyNamed(f.parameters.properties, "scale").value.allowed == Some(["fahrenheit", "celsius"])
  {
  }

  /** Two sessions get the same configuration apart from the credential. */
  lemma BuildDependsOnlyOnKey(k1: string, k2: string)
    ensures Build(k1).(apiKey := k2) == Build(k2)
  {
  }
}

/** The keyword arguments of a chat-completion request (Groq.request_kwargs)
    and the configuration dictionary (Groq.to_dict). Both are built from the
    model's request-side attributes, which this adapter never writes, so
    they are grouped here as one value. */
module Requests {
  import opened Values

  /** The request attributes of the Groq model, plus the two it inherits from
      the base Model: its tool definitions (`_tools`) and `tool_choice`.
      Floats and other pass-through values are `Opaque`. */
  datatype Settings = Settings(
    frequencyPenalty: Value,
    logitBias: Value,
    logprobs: Value,
    maxTokens: Value,
    presencePenalty: Value,
    responseFormat: Option<Dict>,
    seed: Value,
    stop: Value,
    temperature: Value,
    topLogprobs: Value,
    topP: Value,
    user: Value,
    extraHeaders: Value,
    extraQuery: Value,
    requestParams: Option<Dict>,
    tools: Value,
    toolChoice: Value)

  /** The fourteen attribute names both dictionaries start from. */
  const ParameterKeys: set<string> := {
    "frequency_penalty", "logit_bias", "logprobs", "max_tokens", "presence_penalty",
    "response_format", "seed", "stop", "temperature", "top_logprobs", "top_p",
    "user", "extra_headers", "extra_query"}

  lemma ToolKeysAreNotParameters()
    ensures "tools" !in ParameterKeys && "tool_choice" !in ParameterKeys
  {
  }

  /** The fourteen attributes under their names, None included. */
  function Parameters(s: Settings): (p: Dict)
    ensures p.Keys == ParameterKeys
  {
    map[
      "frequency_penalty" := s.frequencyPenalty,
      "logit_bias" := s.logitBias,
      "logprobs" := s.logprobs,
      "max_tokens" := s.maxTokens,
      "presence_penalty" := s.presencePenalty,
      "response_format" := if s.responseFormat.Some? then Mapping(s.responseFormat.value) else Null,
      "seed" := s.seed,
      "stop" := s.stop,
      "temperature" := s.temperature,
      "top_logprobs" := s.topLogprobs,
      "top_p" := s.topP,
      "user" := s.user,
      "extra_headers" := s.extraHeaders,
      "extra_query" := s.extraQuery]
  }

  /** The overrides `request_params` applies: none when it is None or empty. */
  function Overrides(s: Settings): (r: Dict)
    // an empty request_params changes nothing either, so only None matters
    ensures r == if s.requestParams.Some? then s.requestParams.value else map[]
  {
    if s.requestParams.Some? && s.requestParams.value != map[] then s.requestParams.value else map[]
  }

  /** The three steps request_kwargs takes on the attribute dictionary `p`:
      drop the None values, add the tools (and the tool choice, if any) when
      there are tools, then apply the overrides. */
  function SendableWithTools(p: Dict, tools: Value, toolChoice: Value, overrides: Dict): (r: Dict)
    requires "tools" !in p && "tool_choice" !in p
    ensures forall k :: k in overrides ==> k in r && r[k] == overrides[k]
    ensures forall k :: k in p && k !in overrides ==> (k in r <==> p[k] != Null) && (k in r ==> r[k] == p[k])
    ensures "tools" !in overrides ==> ("tools" in r <==> tools != Null) && ("tools" in r ==> r["tools"] == tools)
    ensures "tool_choice" !in overrides ==>
              ("tool_choice" in r <==> tools != Null && toolChoice != Null)
              && ("tool_choice" in r ==> r["tool_choice"] == toolChoice)
    ensures forall k :: k in r ==> k in p || k == "tools" || k == "tool_choice" || k in overrides
    ensures forall k :: k in r && r[k] == Null ==> k in overrides
  {
    var sent := DropNone(p);
    var withTools :=
      if tools == Null then sent
      else if toolChoice == Null then sent["tools" := tools]
      else sent["tools" := tools]["tool_choice" := toolChoice];
    withTools + overrides
  }

  /** Groq.request_kwargs. */
  function RequestKwargs(s: Settings): (r: Dict)
    // every entry of request_params is sent as given, overriding what came before
    ensures forall k :: k in Overrides(s) ==> k in r && r[k] == Overrides(s)[k]
    // an attribute is sent exactly when it is not None, unless overridden
    ensures forall k :: k in ParameterKeys && k !in Overrides(s) ==>
              (k in r <==> Parameters(s)[k] != Null) && (k in r ==> r[k] == Parameters(s)[k])
    // tools are sent whenever the model has tools
    ensures "tools" !in Overrides(s) ==>
              ("tools" in r <==> s.tools != Null) && ("tools" in r ==> r["tools"] == s.tools)
    // a tool choice is sent only together with tools
    ensures "tool_choice" !in Overrides(s) ==>
              ("tool_choice" in r <==> s.tools != Null && s.toolChoice != Null)
              && ("tool_choice" in r ==> r["tool_choice"] == s.toolChoice)
    // nothing else is sent, and a None is sent only if request_params holds it
    ensures forall k :: k in r ==> k in ParameterKeys || k == "tools" || k == "tool_choice" || k in Overrides(s)
    ensures forall k :: k in r && r[k] == Null ==> k in Overrides(s)
  {
    ToolKeysAreNotParameters();
    SendableWithTools(Parameters(s), s.tools, s.toolChoice, Overrides(s))
  }

  /** The steps to_dict takes after the base class: the attribute dictionary
      `p` replaces the inherited entries, tools come with a tool choice that
      defaults to "auto", and the None values are dropped. */
  function CleanConfig(inherited: Dict, p: Dict, tools: Value, toolChoice: Value): (r: Dict)
    requires "tools" !in p && "tool_choice" !in p
    ensures forall k :: k in r ==> r[k] != Null
    ensures forall k :: k in p ==> (k in r <==> p[k] != Null) && (k in r ==> r[k] == p[k])
    ensures tools != Null ==> "tools" in r && r["tools"] == tools
    ensures tools != Null ==>
              "tool_choice" in r && r["tool_choice"] == (if toolChoice != Null then toolChoice else Str("auto"))
    ensures forall k :: k !in p && (tools == Null || (k != "tools" && k != "tool_choice")) ==>
              (k in r <==> k in inherited && inherited[k] != Null) && (k in r ==> r[k] == inherited[k])
  {
    var merged := inherited + p;
    var withTools :=
      if tools == Null then merged
      else merged["tools" := tools]["tool_choice" := if toolChoice != Null then toolChoice else Str("auto")];
    DropNone(withTools)
  }

  /** Groq.to_dict, given the dictionary the base Model's to_dict returns. */
  function ToDict(s: Settings, inherited: Dict): (r: Dict)
    // no None survives
    ensures forall k :: k in r ==> r[k] != Null
    // the fourteen attributes replace whatever the base class reported
    ensures forall k :: k in ParameterKeys ==>
              (k in r <==> Parameters(s)[k] != Null) && (k in r ==> r[k] == Parameters(s)[k])
    // with tools, the tool choice defaults to "auto"
    ensures s.tools != Null ==> "tools" in r && r["tools"] == s.tools
    ensures s.tools != Null ==>
              "tool_choice" in r && r["tool_choice"] == (if s.toolChoice != Null then s.toolChoice else Str("auto"))
    // without tools, and for every other key, the base class's non-None entries are kept
    ensures forall k :: k !in ParameterKeys && (s.tools == Null || (k != "tools" && k != "tool_choice")) ==>
              (k in r <==> k in inherited && inherited[k] != Null) && (k in r ==> r[k] == inherited[k])
  {
    ToolKeysAreNotParameters();
    CleanConfig(inherited, Parameters(s), s.tools, s.toolChoice)
  }

  /** A model with tools but no tool choice: the request leaves the choice to
      the provider while the configuration reports "auto". */
  lemma ToolChoiceOnlyDefaultedInConfig(s: Settings, inherited: Dict)
    requires s.tools != Null && s.toolChoice == Null && Overrides(s) == map[]
    ensures "tool_choice" !in RequestKwargs(s)
    ensures ToDict(s, inherited)["tool_choice"] == Str("auto")
  {
  }
}

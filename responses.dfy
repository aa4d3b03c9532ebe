/** Normalising Groq responses into the framework's ModelResponse
    (Groq.parse_provider_response, parse_provider_response_delta). */
module Responses {
  import opened Values
  import opened ToolCalls

  /** Token usage as the provider reports it; the timings are floats that
      are only passed through. */
  datatype Usage = Usage(
    promptTokens: int, completionTokens: int, totalTokens: int,
    completionTime: Value, promptTime: Value, queueTime: Value, totalTime: Value)

  /** A tool call of a complete response. Turning it into a dictionary
      (pydantic's model_dump) is a parameter that may fail. */
  datatype ProviderToolCall = ProviderToolCall(ref: nat)

  datatype ResponseMessage = ResponseMessage(role: Option<string>, content: Option<string>,
                                             toolCalls: Option<seq<ProviderToolCall>>)
  datatype Choice = Choice(message: ResponseMessage)
  datatype ChatCompletion = ChatCompletion(choices: seq<Choice>, usage: Option<Usage>)

  datatype ChoiceDelta = ChoiceDelta(content: Option<string>, toolCalls: Option<seq<Fragment>>)
  datatype ChunkChoice = ChunkChoice(delta: ChoiceDelta)
  datatype XGroq = XGroq(usage: Option<Usage>)
  datatype ChatCompletionChunk = ChatCompletionChunk(choices: seq<ChunkChoice>, xGroq: Option<XGroq>)

  /** The `response_usage` dictionary. */
  datatype ResponseUsage = ResponseUsage(inputTokens: int, outputTokens: int, totalTokens: int, additionalMetrics: Dict)

  /** Tool calls of a ModelResponse: dictionaries from a complete response,
      or the raw fragments of a stream chunk. */
  datatype ResponseToolCalls = Dumped(calls: seq<Value>) | Deltas(fragments: seq<Fragment>)

  /** agno.models.response.ModelResponse, as far as this adapter sets it;
      None stands for a field left at its default. */
  datatype ModelResponse = ModelResponse(role: Option<string>, content: Option<string>,
                                         toolCalls: Option<ResponseToolCalls>, usage: Option<ResponseUsage>)

  /** `IndexError` from `response.choices[0]` on a response without choices. */
  const NoChoice := "list index out of range"

  /** `[t.model_dump() for t in calls]` inside `try`: every call converted,
      or nothing at all. */
  function DumpAll(calls: seq<ProviderToolCall>, dump: ProviderToolCall -> Option<Value>): (r: Option<seq<Value>>)
    ensures r.Some? <==> forall i :: 0 <= i < |calls| ==> dump(calls[i]).Some?
    ensures r.Some? ==> |r.value| == |calls| && forall i :: 0 <= i < |calls| ==> dump(calls[i]) == Some(r.value[i])
    decreases |calls|
  {
    if calls == [] then Some([])
    else
      var rest := DumpAll(calls[1..], dump);
      if dump(calls[0]).Some? && rest.Some? then Some([dump(calls[0]).value] + rest.value) else None
  }

  /** The usage block both parsers build. */
  function Normalise(u: Usage): (r: ResponseUsage)
    // provider counts are copied; the total is the provider's, never a local sum
    ensures r.inputTokens == u.promptTokens && r.outputTokens == u.completionTokens
    ensures r.totalTokens == u.totalTokens
    ensures r.additionalMetrics.Keys == {"completion_time", "prompt_time", "queue_time", "total_time"}
    ensures r.additionalMetrics["completion_time"] == u.completionTime
    ensures r.additionalMetrics["prompt_time"] == u.promptTime
    ensures r.additionalMetrics["queue_time"] == u.queueTime
    ensures r.additionalMetrics["total_time"] == u.totalTime
  {
    ResponseUsage(u.promptTokens, u.completionTokens, u.totalTokens,
      map["completion_time" := u.completionTime, "prompt_time" := u.promptTime,
          "queue_time" := u.queueTime, "total_time" := u.totalTime])
  }

  /** Groq.parse_provider_response. */
  function ParseProviderResponse(response: ChatCompletion, dump: ProviderToolCall -> Option<Value>)
    : (r: Result<ModelResponse, string>)
    ensures r.Err? <==> response.choices == []
    ensures r.Err? ==> r.error == NoChoice
    // role and content of the first choice, when present
    ensures r.Ok? ==> r.value.role == response.choices[0].message.role
    ensures r.Ok? ==> r.value.content == response.choices[0].message.content
    // tool calls only for a non-empty list that converts completely
    ensures r.Ok? ==>
              var calls := response.choices[0].message.toolCalls;
              (r.value.toolCalls.Some? <==>
                 calls.Some? && calls.value != [] && forall i :: 0 <= i < |calls.value| ==> dump(calls.value[i]).Some?)
    ensures r.Ok? && r.value.toolCalls.Some? ==>
              var calls := response.choices[0].message.toolCalls.value;
              && r.value.toolCalls.value.Dumped?
              && |r.value.toolCalls.value.calls| == |calls|
              && forall i :: 0 <= i < |calls| ==> dump(calls[i]) == Some(r.value.toolCalls.value.calls[i])
    // usage exactly when the provider reports it
    ensures r.Ok? ==> (r.value.usage.Some? <==> response.usage.Some?)
    ensures r.Ok? && response.usage.Some? ==> r.value.usage == Some(Normalise(response.usage.value))
  {
    if response.choices == [] then Err(NoChoice)
    else
      var message := response.choices[0].message;
      var toolCalls :=
        if message.toolCalls.Some? && |message.toolCalls.value| > 0 then
          var dumped := DumpAll(message.toolCalls.value, dump);
          if dumped.Some? then Some(Dumped(dumped.value)) else None
        else None;
      var usage := if response.usage.Some? then Some(Normalise(response.usage.value)) else None;
      Ok(ModelResponse(message.role, message.content, toolCalls, usage))
  }

  /** Groq.parse_provider_response_delta. */
  function ParseProviderResponseDelta(chunk: ChatCompletionChunk): (r: ModelResponse)
    ensures r.role.None?
    // content and fragments come from the first choice, and are passed on as they are
    ensures chunk.choices == [] ==> r.content.None? && r.toolCalls.None?
    ensures chunk.choices != [] ==> r.content == chunk.choices[0].delta.content
    ensures chunk.choices != [] ==>
              (r.toolCalls.Some? <==> chunk.choices[0].delta.toolCalls.Some?)
              && (r.toolCalls.Some? ==> r.toolCalls.value == Deltas(chunk.choices[0].delta.toolCalls.value))
    // usage comes from the x_groq block, when it carries one
    ensures r.usage.Some? <==> chunk.xGroq.Some? && chunk.xGroq.value.usage.Some?
    ensures r.usage.Some? ==> r.usage.value == Normalise(chunk.xGroq.value.usage.value)
  {
    var content := if chunk.choices == [] then None else chunk.choices[0].delta.content;
    var toolCalls :=
      if chunk.choices != [] && chunk.choices[0].delta.toolCalls.Some?
      then Some(Deltas(chunk.choices[0].delta.toolCalls.value)) else None;
    var usage :=
      if chunk.xGroq.Some? && chunk.xGroq.value.usage.Some? then Some(Normalise(chunk.xGroq.value.usage.value)) else None;
    ModelResponse(None, content, toolCalls, usage)
  }

  /** One tool call that fails to convert drops them all, even when the
      others convert. */
  lemma OneBadToolCallDropsAll(response: ChatCompletion, dump: ProviderToolCall -> Option<Value>, bad: nat)
    requires response.choices != [] && response.choices[0].message.toolCalls.Some?
    requires bad < |response.choices[0].message.toolCalls.value|
    requires dump(response.choices[0].message.toolCalls.value[bad]).None?
    ensures ParseProviderResponse(response, dump).Ok?
    ensures ParseProviderResponse(response, dump).value.toolCalls.None?
  {
  }

  /** 10 prompt and 5 completion tokens with a provider total of 20: the
      total stays 20. */
  lemma ProviderTotalIsKept(response: ChatCompletion, dump: ProviderToolCall -> Option<Value>, times: Value)
    requires response.choices != []
    requires response.usage == Some(Usage(10, 5, 20, times, times, times, times))
    ensures ParseProviderResponse(response, dump).value.usage.value.totalTokens == 20
  {
  }
}

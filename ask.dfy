/** The model gateway, `generate_text`: the fixed request it sends to the
    Bedrock Converse API, and how it normalises the response into a stop
    reason, the requested tools and the turn history. The `converse` call
    itself is not modelled: its response is supplied by the caller. */
module Ask {
  import opened Py
  import opened ConverseApi
  import Ticker
  import Currency

  /** The Bedrock model the agent talks to. */
  const ModelId := "anthropic.claude-3-sonnet-20240229-v1:0"

  /** The system instruction; its wording carries no behaviour. */
  const SystemText := "you are a stock market bot, that provides accurate ticker prices at any currency.\nuse your tools to get stock price, and covert to another currency when asked.\n"

  /** The one block of the system prompt. */
  const SystemBlock := Dict(["text"], map["text" := Str(SystemText)])

  /** `kwargs`: fixed inference parameters. */
  const InferenceConfig := Dict(["temperature", "maxTokens", "topP"],
    map["temperature" := Int(0), "maxTokens" := Int(300), "topP" := Int(0)])

  /** The tool catalog, ticker first. */
  function Tools(): (tools: seq<Value>)
    ensures |tools| == 2
    ensures ToolName(tools[0]) == Some(Ticker.Name) && ToolName(tools[1]) == Some(Currency.Name)
  {
    [Ticker.ToolDescription(), Currency.ToolDescription()]
  }

  /** The keyword arguments of the `converse` call for a given turn history
      and tool catalog. */
  function ConverseRequest(messages: seq<Value>, tools: seq<Value>): (req: Value)
    ensures FieldOr(req, "messages", Null) == List(messages)
    ensures FieldOr(FieldOr(req, "toolConfig", Null), "tools", Null) == List(tools)
  {
    Dict(["modelId", "messages", "system", "toolConfig", "inferenceConfig"],
      map["modelId" := Str(ModelId),
          "messages" := List(messages),
          "system" := List([SystemBlock]),
          "toolConfig" := Dict(["tools"], map["tools" := List(tools)]),
          "inferenceConfig" := InferenceConfig])
  }

  /** Whatever the history, the request names the same model, the one-block
      system prompt and the fixed inference parameters. */
  lemma FixedRequestFields(messages: seq<Value>, tools: seq<Value>)
    ensures var req := ConverseRequest(messages, tools);
      FieldOr(req, "modelId", Null) == Str(ModelId) &&
      FieldOr(req, "system", Null) == List([SystemBlock]) &&
      OnlyEntry(SystemBlock, "text") == Some(Str(SystemText))
    ensures var config := FieldOr(ConverseRequest(messages, tools), "inferenceConfig", Null);
      FieldOr(config, "temperature", Null) == Int(0) && FieldOr(config, "maxTokens", Null) == Int(300) &&
      FieldOr(config, "topP", Null) == Int(0)
  {
  }

  /** The request `generate_text` sends for a turn history: always the same
      model, system prompt, inference parameters and two-tool catalog. */
  function Request(messages: seq<Value>): (req: Value)
    ensures FieldOr(req, "messages", Null) == List(messages)
    ensures FieldOr(FieldOr(req, "toolConfig", Null), "tools", Null) == List(Tools())
  {
    ConverseRequest(messages, Tools())
  }

  /** What `generate_text` extracts from a response. */
  datatype Normalised = Normalised(stopReason: Value, toolsRequested: Value, outputMessage: Value)

  /** The output message of a response, `{}` where `output` or `message` is missing. */
  function OutputMessage(response: Value): Value
  {
    FieldOr(FieldOr(response, "output", EmptyDict), "message", EmptyDict)
  }

  /** The stop reason of a response, `None` where it is missing. */
  function StopReason(response: Value): Value
  {
    FieldOr(response, "stopReason", Null)
  }

  /** The pure part of `generate_text`: read the output message and the stop
      reason; only on `tool_use` read the requested tools from the message's
      content, otherwise report none. */
  function Normalise(response: Value): (r: Result<Normalised>)
    ensures r.Ok? <==> (response.Dict? && FieldOr(response, "output", EmptyDict).Dict? &&
      (StopReason(response) == Str("tool_use") ==> OutputMessage(response).Dict?))
    ensures r.Err? ==> r.error == AttributeError
    ensures r.Ok? ==> r.value.stopReason == StopReason(response) && r.value.outputMessage == OutputMessage(response)
    ensures r.Ok? && r.value.stopReason != Str("tool_use") ==> r.value.toolsRequested == List([])
    ensures r.Ok? && r.value.stopReason == Str("tool_use") ==>
      r.value.toolsRequested == FieldOr(r.value.outputMessage, "content", EmptyDict)
  {
    var output :- Get(response, "output", EmptyDict);
    var outputMessage :- Get(output, "message", EmptyDict);
    // `response` is a dict from here on, so this lookup cannot raise
    var stopReason := FieldOr(response, "stopReason", Null);
    if stopReason == Str("tool_use") then
      var toolsRequested :- Get(outputMessage, "content", EmptyDict);
      Ok(Normalised(stopReason, toolsRequested, outputMessage))
    else
      Ok(Normalised(stopReason, List([]), outputMessage))
  }

  /** A response without `output` reads as an empty output message; on
      `tool_use` it then requests nothing. */
  lemma MissingOutputIsEmpty(response: Value)
    requires response.Dict? && "output" !in response.fields
    ensures Normalise(response).Ok?
    ensures Normalise(response).value.outputMessage == EmptyDict
    ensures StopReason(response) == Str("tool_use") ==>
      Normalise(response).value.toolsRequested == EmptyDict && Iterate(EmptyDict) == Ok([])
  {
  }

  /** The third component of `generate_text`'s result: on `tool_use` the
      caller's own list object, otherwise the bare output message. */
  datatype Returned = Messages(list: PyList) | Output(message: Value)

  datatype Generated = Generated(stopReason: Value, toolsRequested: Value, messages: Returned)

  /** `generate_text(messages)` for a gateway that answers `response` to
      `Request(messages.items)`. On `tool_use` the output message is appended
      to `messages` in place and that same list object is handed back. */
  method GenerateText(messages: PyList, response: Value) returns (r: Result<Generated>)
    modifies messages
    ensures Normalise(response).Err? ==>
      r == Err(Normalise(response).error) && messages.items == old(messages.items)
    ensures Normalise(response).Ok? ==> (r.Ok? &&
      var n := Normalise(response).value;
      r.value.stopReason == n.stopReason && r.value.toolsRequested == n.toolsRequested &&
      if n.stopReason == Str("tool_use")
      then r.value.messages == Messages(messages) && messages.items == old(messages.items) + [n.outputMessage]
      else r.value.messages == Output(n.outputMessage) && messages.items == old(messages.items))
  {
    var normalised := Normalise(response);
    if normalised.Err? {
      return Err(normalised.error);
    }
    var n := normalised.value;
    if n.stopReason == Str("tool_use") {
      messages.Append(n.outputMessage);
      return Ok(Generated(n.stopReason, n.toolsRequested, Messages(messages)));
    }
    return Ok(Generated(n.stopReason, n.toolsRequested, Output(n.outputMessage)));
  }
}

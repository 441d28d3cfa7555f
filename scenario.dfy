/** A worked run: the model first asks for the AMZN price (with a text block
    before the request), then answers in text. */
module Scenario {
  import opened Py
  import opened ConverseApi
  import opened Agent
  import Ask
  import Ticker

  function TextBlock(text: string): Value
  {
    Dict(["text"], map["text" := Str(text)])
  }

  /** The request an assistant `toolUse` block for the AMZN price under id `t1` carries. */
  const PriceCall := ToolCall(Str("t1"), Str(StockPriceTool), Dict(["ticker"], map["ticker" := Str("AMZN")]))

  /** That `toolUse` block. */
  function PriceRequest(): Value
  {
    Dict(["toolUse"], map["toolUse" := Dict(["toolUseId", "name", "input"],
      map["toolUseId" := PriceCall.id, "name" := PriceCall.name, "input" := PriceCall.input])])
  }

  /** An assistant turn. */
  function AssistantTurn(content: seq<Value>): Value
  {
    Dict(["role", "content"], map["role" := Str("assistant"), "content" := List(content)])
  }

  /** A gateway response holding an assistant turn. */
  function Response(stopReason: string, content: seq<Value>): Value
  {
    Dict(["output", "stopReason"],
      map["output" := Dict(["message"], map["message" := AssistantTurn(content)]), "stopReason" := Str(stopReason)])
  }

  lemma NormaliseResponse(stopReason: string, content: seq<Value>)
    ensures Ask.Normalise(Response(stopReason, content)) ==
      Ok(Ask.Normalised(Str(stopReason), if stopReason == "tool_use" then List(content) else List([]), AssistantTurn(content)))
  {
    var r := Response(stopReason, content);
    assert Ask.OutputMessage(r) == AssistantTurn(content);
    assert Ask.StopReason(r) == Str(stopReason);
  }

  /** A text block dispatches nothing. */
  lemma TextBlockSkipped(text: string, tools: Tools)
    ensures DispatchBlock(TextBlock(text), tools) == Ok(None)
    ensures CallOf(TextBlock(text)) == None
  {
  }

  /** The price request runs the stock-price adapter. */
  lemma PriceRequestDispatched(tools: Tools)
    requires tools.getStockPrice(Str("AMZN")).Ok?
    ensures CallOf(PriceRequest()) == Some(PriceCall)
    ensures RunTool(PriceCall, tools).Ok?
    ensures DispatchBlock(PriceRequest(), tools) == Ok(Some(RunTool(PriceCall, tools).value))
  {
    assert Ticker.TickerArg(PriceCall.input) == Str("AMZN");
    assert CallOf(PriceRequest()) == Some(PriceCall);
  }

  /** The text block is skipped and the price request answered. */
  lemma DispatchPriceRequest(tools: Tools)
    requires tools.getStockPrice(Str("AMZN")).Ok?
    ensures var blocks := [TextBlock("Checking."), PriceRequest()];
      KnownCalls(blocks) == [PriceCall] && RunTool(PriceCall, tools).Ok? &&
      DispatchAll(blocks, tools) == Batch([RunTool(PriceCall, tools).value], None)
  {
    var blocks := [TextBlock("Checking."), PriceRequest()];
    TextBlockSkipped("Checking.", tools);
    PriceRequestDispatched(tools);
    assert blocks[..1] == [TextBlock("Checking.")];
    assert blocks[..1][..0] == [];
    assert DispatchAll(blocks[..1], tools) == Batch([], None);
    assert KnownCalls(blocks[..1]) == [];
  }

  lemma AnswerOneText(text: string)
    ensures AnswerText(AssistantTurn([TextBlock(text)])) == Ok(text)
  {
    var parts := [Str(text)];
    assert FieldOr(TextBlock(text), "text", Str("\n")) == Str(text);
    assert Texts([TextBlock(text)]).value == parts;
    assert parts[1..] == [];
    assert Join(parts) == Ok(text + "");
    assert text + "" == text;
    assert Iterate(FieldOr(AssistantTurn([TextBlock(text)]), "content", EmptyDict)) == Ok([TextBlock(text)]);
  }

  /** The first pass: the assistant turn and the price result are appended
      and the loop goes on. */
  lemma PriceRound(tools: Tools, start: seq<Value>)
    requires tools.getStockPrice(Str("AMZN")).Ok?
    ensures var blocks := [TextBlock("Checking."), PriceRequest()];
      LoopPass(tools)(Response("tool_use", blocks), start) ==
        Continue(start + [AssistantTurn(blocks)] + [RunTool(PriceCall, tools).value])
  {
    NormaliseResponse("tool_use", [TextBlock("Checking."), PriceRequest()]);
    DispatchPriceRequest(tools);
  }

  /** The second pass answers and appends nothing. */
  lemma AnswerRound(history: seq<Value>, tools: Tools)
    ensures LoopPass(tools)(Response("end_turn", [TextBlock("AMZN is at 180 USD.")]), history) ==
      Stop(Answered("AMZN is at 180 USD."), history)
  {
    NormaliseResponse("end_turn", [TextBlock("AMZN is at 180 USD.")]);
    AnswerOneText("AMZN is at 180 USD.");
  }

  /** A run of two passes, the first going on and the second stopping. */
  lemma TwoPasses(responses: seq<Value>, start: seq<Value>, next: seq<Value>, step: Step, pass: Pass)
    requires |responses| == 2
    requires pass(responses[0], start) == Continue(next) && pass(responses[1], next) == step && step.Stop?
    ensures Converse(responses, start, pass) == Session(step.outcome, step.history, [start, next])
  {
    ChainStops(responses, start, pass, [start], next);
  }

  /** Two passes: one tool round, then the answer; the history ends with the
      user question, the assistant's request and the price result under the
      request's id. */
  lemma PriceThenAnswer(tools: Tools, question: string, responses: seq<Value>)
    requires tools.getStockPrice(Str("AMZN")).Ok?
    requires responses == [Response("tool_use", [TextBlock("Checking."), PriceRequest()]),
                           Response("end_turn", [TextBlock("AMZN is at 180 USD.")])]
    ensures var s := Converse(responses, BuildMessage(question), LoopPass(tools));
      s.outcome == Answered("AMZN is at 180 USD.") && |s.sent| == 2 && |s.history| == 3 &&
      AsToolResultTurn(s.history[2]).Some? && AsToolResultTurn(s.history[2]).value.toolUseId == Str("t1")
    ensures var s := Converse(responses, BuildMessage(question), LoopPass(tools));
      s.history == BuildMessage(question) + [AssistantTurn([TextBlock("Checking."), PriceRequest()])] +
        [RunTool(PriceCall, tools).value]
  {
    var blocks := [TextBlock("Checking."), PriceRequest()];
    var start := BuildMessage(question);
    var result := RunTool(PriceCall, tools).value;
    var next := start + [AssistantTurn(blocks)] + [result];
    PriceRound(tools, start);
    AnswerRound(next, tools);
    TwoPasses(responses, start, next, Stop(Answered("AMZN is at 180 USD."), next), LoopPass(tools));
    assert next[2] == result;
  }
}

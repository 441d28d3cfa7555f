/** The conversation loop of `main`: build the first user turn, call the
    gateway while it answers `tool_use`, dispatch every known `toolUse` block
    to its adapter and append the result turns to the shared history, and end
    with the joined text of the final message on `end_turn`, or give up on any
    other stop reason.

    The gateway's successive responses are supplied as a sequence; running
    out of them while the model still asks for tools ends the run with
    `Exhausted`. The specification is the recursive function `Converse`; the
    method `Run` is the loop itself, proved to compute it. */
module Agent {
  import opened Py
  import opened ConverseApi
  import Ask
  import Ticker
  import Currency

  /** The tool names the loop dispatches on. */
  const StockPriceTool := "get_stock_price"
  const CurrencyTool := "convert_currency"

  /** The tool implementations behind the two adapters. */
  datatype Tools = Tools(getStockPrice: Ticker.StockPriceLookup, convertCurrency: Currency.Converter)

  /** How a run ends: with an answer, on an unsupported stop reason, on an
      exception, or because the supplied responses ran out. */
  datatype Outcome = Answered(text: string) | Aborted(stopReason: Value) | Failed(error: PyError) | Exhausted

  /** `build_message`: the initial history, one user turn holding the text. */
  function BuildMessage(inputText: string): (r: seq<Value>)
    ensures |r| == 1 && AsUserTextTurn(r[0]) == Some(inputText)
  {
    [Dict(["role", "content"],
      map["role" := Str("user"), "content" := List([Dict(["text"], map["text" := Str(inputText)])])])]
  }

  // ---------------------------------------------------------------------
  // Tool dispatch

  /** A tool request as the loop reads it out of a content block. */
  datatype ToolCall = ToolCall(id: Value, name: Value, input: Value)

  /** The request of a dict block whose `toolUse` entry is a dict; its missing
      fields read as `None`. */
  function CallOf(block: Value): Option<ToolCall>
  {
    match Field(block, "toolUse")
    case Some(toolUse) =>
      if toolUse.Dict?
      then Some(ToolCall(FieldOr(toolUse, "toolUseId", Null), FieldOr(toolUse, "name", Null), FieldOr(toolUse, "input", Null)))
      else None
    case None => None
  }

  /** The loop handles exactly the two tool names. */
  predicate IsKnown(call: ToolCall)
  {
    call.name == Str(StockPriceTool) || call.name == Str(CurrencyTool)
  }

  /** The requests of known tools among some content blocks, in order. */
  function KnownCalls(blocks: seq<Value>): (calls: seq<ToolCall>)
    ensures |calls| <= |blocks|
    ensures forall k :: 0 <= k < |calls| ==> IsKnown(calls[k])
  {
    if blocks == [] then []
    else
      var earlier := KnownCalls(blocks[..|blocks| - 1]);
      match CallOf(blocks[|blocks| - 1])
      case Some(call) => if IsKnown(call) then earlier + [call] else earlier
      case None => earlier
  }

  /** The adapter that serves a call of a known tool. */
  function RunTool(call: ToolCall, tools: Tools): Result<Value>
    requires IsKnown(call)
  {
    if call.name == Str(StockPriceTool)
    then Ticker.ParseAndRunGetStockPrice(call.id, call.input, tools.getStockPrice)
    else Currency.ParseAndRunConvertCurrency(call.id, call.input, tools.convertCurrency)
  }

  /** The body of the inner loop for one content block: the turn to append,
      none (not a `toolUse` block, or an unknown tool), or an exception. */
  function DispatchBlock(content: Value, tools: Tools): Result<Option<Value>>
  {
    var hasToolUse :- Contains(content, "toolUse");
    if !hasToolUse then Ok(None)
    else
      var toolUse :- Get(content, "toolUse", EmptyDict);
      var toolUseId :- Get(toolUse, "toolUseId", Null);
      // `toolUse` is a dict from here on, so these lookups cannot raise
      var toolUseName := FieldOr(toolUse, "name", Null);
      var toolUseInput := FieldOr(toolUse, "input", Null);
      if toolUseName == Str(StockPriceTool) then
        var message :- Ticker.ParseAndRunGetStockPrice(toolUseId, toolUseInput, tools.getStockPrice);
        Ok(Some(message))
      else if toolUseName == Str(CurrencyTool) then
        var message :- Currency.ParseAndRunConvertCurrency(toolUseId, toolUseInput, tools.convertCurrency);
        Ok(Some(message))
      else Ok(None)
  }

  /** What the inner loop over some content blocks appends to the history,
      and the exception that stopped it, if any. */
  datatype Batch = Batch(appended: seq<Value>, failure: Option<PyError>)

  /** The inner loop, as a function of the blocks it visits. */
  function DispatchAll(blocks: seq<Value>, tools: Tools): Batch
  {
    if blocks == [] then Batch([], None)
    else
      var earlier := DispatchAll(blocks[..|blocks| - 1], tools);
      if earlier.failure.Some? then earlier
      else match DispatchBlock(blocks[|blocks| - 1], tools)
        case Err(e) => Batch(earlier.appended, Some(e))
        case Ok(None) => earlier
        case Ok(Some(message)) => Batch(earlier.appended + [message], None)
  }

  /** Once a block has raised, the later blocks are not visited. */
  lemma {:induction false} FailureStops(blocks: seq<Value>, n: nat, tools: Tools)
    requires n <= |blocks|
    requires DispatchAll(blocks[..n], tools).failure.Some?
    ensures DispatchAll(blocks, tools) == DispatchAll(blocks[..n], tools)
  {
    if n < |blocks| {
      assert blocks[..|blocks| - 1][..n] == blocks[..n];
      FailureStops(blocks[..|blocks| - 1], n, tools);
    } else {
      assert blocks[..n] == blocks;
    }
  }

  /** The inner loop over one more block. */
  lemma DispatchAllExtend(blocks: seq<Value>, j: nat, tools: Tools)
    requires j < |blocks|
    requires DispatchAll(blocks[..j], tools).failure.None?
    ensures var before := DispatchAll(blocks[..j], tools);
      var after := DispatchAll(blocks[..j + 1], tools);
      match DispatchBlock(blocks[j], tools)
      case Err(e) => after == Batch(before.appended, Some(e))
      case Ok(None) => after == before
      case Ok(Some(message)) => after == Batch(before.appended + [message], None)
  {
    assert blocks[..j + 1][..j] == blocks[..j];
  }

  /** main.py, lines 50-64: dispatch every block in order, appending each result turn
      to `messages` in place; an exception ends the loop. */
  method DispatchRequested(messages: PyList, blocks: seq<Value>, tools: Tools) returns (failure: Option<PyError>)
    modifies messages
    ensures messages.items == old(messages.items) + DispatchAll(blocks, tools).appended
    ensures failure == DispatchAll(blocks, tools).failure
  {
    var j := 0;
    while j < |blocks|
      invariant 0 <= j <= |blocks|
      invariant DispatchAll(blocks[..j], tools).failure.None?
      invariant messages.items == old(messages.items) + DispatchAll(blocks[..j], tools).appended
    {
      DispatchAllExtend(blocks, j, tools);
      var dispatched := DispatchBlock(blocks[j], tools);
      if dispatched.Err? {
        FailureStops(blocks, j + 1, tools);
        return Some(dispatched.error);
      }
      if dispatched.value.Some? {
        messages.Append(dispatched.value.value);
      }
      j := j + 1;
    }
    assert blocks[..j] == blocks;
    return None;
  }

  // ---------------------------------------------------------------------
  // The final answer

  /** `a.get('text', '\n')` for each final content block, in order. */
  function Texts(answers: seq<Value>): (r: Result<seq<Value>>)
    ensures r.Ok? <==> forall i :: 0 <= i < |answers| ==> answers[i].Dict?
    ensures r.Err? ==> r.error == AttributeError
    ensures r.Ok? ==> (|r.value| == |answers| &&
      forall i :: 0 <= i < |answers| ==> r.value[i] == FieldOr(answers[i], "text", Str("\n")))
  {
    if answers == [] then Ok([])
    else
      var text :- Get(answers[0], "text", Str("\n"));
      var rest :- Texts(answers[1..]);
      Ok([text] + rest)
  }

  /** main.py, lines 42-45: the answer is the joined text of the output message's
      content blocks. */
  function AnswerText(outputMessage: Value): Result<string>
  {
    var answers :- Get(outputMessage, "content", EmptyDict);
    var blocks :- Iterate(answers);
    var texts :- Texts(blocks);
    Join(texts)
  }

  // ---------------------------------------------------------------------
  // The conversation

  /** One pass of the `while` loop: the history to go on with, or the end of
      the run with the history it leaves. */
  datatype Step = Continue(history: seq<Value>) | Stop(outcome: Outcome, history: seq<Value>)

  /** One pass of the loop for the gateway's response to `history`. */
  function Round(response: Value, history: seq<Value>, tools: Tools): (step: Step)
    ensures history <= step.history
    ensures step.Stop? ==> !step.outcome.Exhausted?
  {
    match Ask.Normalise(response)
    case Err(e) => Stop(Failed(e), history)
    case Ok(n) =>
      if n.stopReason == Str("end_turn") then
        match AnswerText(n.outputMessage)
        case Ok(answer) => Stop(Answered(answer), history)
        case Err(e) => Stop(Failed(e), history)
      else if n.stopReason == Str("tool_use") then
        var grown := history + [n.outputMessage];
        match Iterate(n.toolsRequested)
        case Err(e) => Stop(Failed(e), grown)
        case Ok(blocks) =>
          var batch := DispatchAll(blocks, tools);
          match batch.failure
          case Some(e) => Stop(Failed(e), grown + batch.appended)
          case None => Continue(grown + batch.appended)
      else Stop(Aborted(n.stopReason), history)
  }

  /** A pass of the loop as a function of the gateway's response and the
      history sent. */
  type Pass = (Value, seq<Value>) -> Step

  /** The loop's own pass, for the given tool implementations. */
  function LoopPass(tools: Tools): Pass
  {
    (response, history) => Round(response, history, tools)
  }

  /** A whole run: how it ends, the history it leaves, and the history sent
      on each gateway call, in order. */
  datatype Session = Session(outcome: Outcome, history: seq<Value>, sent: seq<seq<Value>>)

  /** The run from `history` on, each pass made by `pass`, the gateway
      answering with `responses`. */
  function Converse(responses: seq<Value>, history: seq<Value>, pass: Pass): Session
    decreases |responses|
  {
    if responses == [] then Session(Exhausted, history, [])
    else match pass(responses[0], history)
      case Stop(outcome, final) => Session(outcome, final, [history])
      case Continue(next) =>
        var rest := Converse(responses[1..], next, pass);
        Session(rest.outcome, rest.history, [history] + rest.sent)
  }

  /** `s` with `earlier` sent before its own calls. */
  function SentAfter(earlier: seq<seq<Value>>, s: Session): Session
  {
    Session(s.outcome, s.history, earlier + s.sent)
  }

  /** The histories in `sent` were sent in turn, each pass but the last going
      on with the next one, and the last going on with `current`. */
  ghost predicate Chain(responses: seq<Value>, pass: Pass, sent: seq<seq<Value>>, current: seq<Value>)
    requires |sent| <= |responses|
    decreases |sent|
  {
    sent == [] ||
    (pass(responses[|sent| - 1], sent[|sent| - 1]) == Continue(current) &&
     Chain(responses, pass, sent[..|sent| - 1], sent[|sent| - 1]))
  }

  /** A chain from `history` is a prefix of the run: what remains is the run
      from `current` on the remaining responses. */
  lemma {:induction false} ChainConverse(responses: seq<Value>, history: seq<Value>, pass: Pass,
                                         sent: seq<seq<Value>>, current: seq<Value>)
    requires |sent| <= |responses|
    requires if sent == [] then current == history else sent[0] == history
    requires Chain(responses, pass, sent, current)
    ensures Converse(responses, history, pass) == SentAfter(sent, Converse(responses[|sent|..], current, pass))
  {
    var n := |sent|;
    if n == 0 {
      assert responses[0..] == responses;
      assert [] + Converse(responses, history, pass).sent == Converse(responses, history, pass).sent;
    } else {
      var earlier, last := sent[..n - 1], sent[n - 1];
      ChainConverse(responses, history, pass, earlier, last);
      var rest := Converse(responses[n..], current, pass);
      assert responses[n - 1..][0] == responses[n - 1] && responses[n - 1..][1..] == responses[n..];
      assert Converse(responses[n - 1..], last, pass) == SentAfter([last], rest);
      assert earlier + ([last] + rest.sent) == sent + rest.sent;
    }
  }

  /** A chain extends by a pass that goes on. */
  lemma ChainExtend(responses: seq<Value>, pass: Pass, sent: seq<seq<Value>>, current: seq<Value>, next: seq<Value>)
    requires |sent| < |responses|
    requires Chain(responses, pass, sent, current)
    requires pass(responses[|sent|], current) == Continue(next)
    ensures Chain(responses, pass, sent + [current], next)
  {
    var extended := sent + [current];
    assert extended[..|sent|] == sent && extended[|extended| - 1] == current && |extended| - 1 == |sent|;
    assert responses[|extended| - 1] == responses[|sent|];
  }

  /** A chain followed by a pass that stops is the whole run. */
  lemma ChainStops(responses: seq<Value>, history: seq<Value>, pass: Pass, sent: seq<seq<Value>>, current: seq<Value>)
    requires |sent| < |responses|
    requires if sent == [] then current == history else sent[0] == history
    requires Chain(responses, pass, sent, current)
    requires pass(responses[|sent|], current).Stop?
    ensures var step := pass(responses[|sent|], current);
      Converse(responses, history, pass) == Session(step.outcome, step.history, sent + [current])
  {
    ChainConverse(responses, history, pass, sent, current);
    assert responses[|sent|..][0] == responses[|sent|];
  }

  /** A chain over all the responses is the whole run, which then runs out. */
  lemma ChainExhausts(responses: seq<Value>, history: seq<Value>, pass: Pass, sent: seq<seq<Value>>, current: seq<Value>)
    requires |sent| == |responses|
    requires if sent == [] then current == history else sent[0] == history
    requires Chain(responses, pass, sent, current)
    ensures Converse(responses, history, pass) == Session(Exhausted, current, sent)
  {
    ChainConverse(responses, history, pass, sent, current);
    assert responses[|sent|..] == [];
    assert sent + [] == sent;
  }

  /** The body of the `while` loop on the shared list `msg`: how the pass
      ends, if it ends the run, with `msg` holding the pass's history. */
  method LoopBody(msg: PyList, response: Value, tools: Tools) returns (stopReason: Value, stop: Option<Outcome>)
    modifies msg
    ensures var step := LoopPass(tools)(response, old(msg.items));
      msg.items == step.history && (stop.None? <==> step.Continue?) && (stop.Some? ==> stop.value == step.outcome)
    ensures stop.None? ==> stopReason == Str("tool_use")
  {
    assert LoopPass(tools)(response, msg.items) == Round(response, msg.items, tools);
    var generated := Ask.GenerateText(msg, response);
    if generated.Err? {
      return Null, Some(Failed(generated.error));
    }
    stopReason := generated.value.stopReason;
    if stopReason == Str("end_turn") {
      var answer := AnswerText(generated.value.messages.message);
      return stopReason, Some(if answer.Ok? then Answered(answer.value) else Failed(answer.error));
    }
    if stopReason == Str("tool_use") {
      // `messages` is the very list that was passed in as `msg`
      var messages := generated.value.messages.list;
      var blocks := Iterate(generated.value.toolsRequested);
      if blocks.Err? {
        return stopReason, Some(Failed(blocks.error));
      }
      var failure := DispatchRequested(messages, blocks.value, tools);
      if failure.Some? {
        return stopReason, Some(Failed(failure.value));
      }
      return stopReason, None;
    }
    return stopReason, Some(Aborted(stopReason));
  }

  /** `main` for the input text, the gateway answering with `responses`:
      the outcome, the final history and the history sent on each call. */
  method Run(inputText: string, responses: seq<Value>, tools: Tools)
    returns (outcome: Outcome, history: seq<Value>, sent: seq<seq<Value>>)
    ensures Session(outcome, history, sent) == Converse(responses, BuildMessage(inputText), LoopPass(tools))
  {
    var msg := new PyList(BuildMessage(inputText));
    ghost var pass := LoopPass(tools);
    var stopReason := Null;
    sent := [];
    while stopReason != Str("end_turn")
      invariant |sent| <= |responses|
      invariant if sent == [] then msg.items == BuildMessage(inputText) else sent[0] == BuildMessage(inputText)
      invariant Chain(responses, pass, sent, msg.items)
      invariant stopReason != Str("end_turn")
      decreases |responses| - |sent|
    {
      if |sent| == |responses| {
        break;
      }
      var response := responses[|sent|];
      var before := msg.items;
      var stop;
      stopReason, stop := LoopBody(msg, response, tools);
      if stop.Some? {
        ChainStops(responses, BuildMessage(inputText), pass, sent, before);
        return stop.value, msg.items, sent + [before];
      }
      ChainExtend(responses, pass, sent, before, msg.items);
      sent := sent + [before];
    }
    ChainExhausts(responses, BuildMessage(inputText), pass, sent, msg.items);
    return Exhausted, msg.items, sent;
  }
}

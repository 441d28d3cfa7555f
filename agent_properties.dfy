/** What the conversation loop promises: every appended result answers a
    known tool request, in request order and under its id; other blocks are
    skipped; the loop goes on only on `tool_use`; the history only grows; the
    answer is the in-order concatenation of the final texts. */
module AgentProperties {
  import opened Py
  import opened ConverseApi
  import Ask
  import opened Agent

  // ---------------------------------------------------------------------
  // Dispatch

  /** A tool result answers the call it was made for: it is a tool-result
      turn carrying the call's `toolUseId`. */
  lemma RunToolAnswersCall(call: ToolCall, tools: Tools)
    requires IsKnown(call)
    ensures RunTool(call, tools).Ok? ==>
      AsToolResultTurn(RunTool(call, tools).value).Some? &&
      AsToolResultTurn(RunTool(call, tools).value).value.toolUseId == call.id
  {
  }

  /** One block of the inner loop: a non-tool block and an unknown tool are
      skipped, a known tool's request runs its adapter, and only such a
      request appends anything. */
  lemma DispatchBlockFollowsCall(content: Value, tools: Tools)
    ensures content.Dict? && "toolUse" !in content.fields ==> DispatchBlock(content, tools) == Ok(None)
    ensures CallOf(content).Some? && !IsKnown(CallOf(content).value) ==> DispatchBlock(content, tools) == Ok(None)
    ensures CallOf(content).Some? && IsKnown(CallOf(content).value) ==>
      match RunTool(CallOf(content).value, tools)
      case Ok(message) => DispatchBlock(content, tools) == Ok(Some(message))
      case Err(e) => DispatchBlock(content, tools) == Err(e)
    ensures DispatchBlock(content, tools).Ok? && DispatchBlock(content, tools).value.Some? ==>
      CallOf(content).Some? && IsKnown(CallOf(content).value)
  {
  }

  /** Without an exception, the inner loop appends exactly one turn per
      request of a known tool, in order, each the adapter's result for that
      request and carrying its `toolUseId`. */
  lemma {:induction false} DispatchAllCorrelates(blocks: seq<Value>, tools: Tools)
    requires DispatchAll(blocks, tools).failure.None?
    ensures var appended := DispatchAll(blocks, tools).appended;
      var calls := KnownCalls(blocks);
      |appended| == |calls| &&
      forall k :: 0 <= k < |calls| ==>
        RunTool(calls[k], tools) == Ok(appended[k]) &&
        AsToolResultTurn(appended[k]).Some? && AsToolResultTurn(appended[k]).value.toolUseId == calls[k].id
  {
    if blocks != [] {
      var init := blocks[..|blocks| - 1];
      DispatchAllCorrelates(init, tools);
      var last := blocks[|blocks| - 1];
      DispatchBlockFollowsCall(last, tools);
      if CallOf(last).Some? && IsKnown(CallOf(last).value) {
        RunToolAnswersCall(CallOf(last).value, tools);
      }
    }
  }

  /** Content made only of non-tool blocks (text, images) dispatches nothing. */
  lemma {:induction false} NonToolBlocksAppendNothing(blocks: seq<Value>, tools: Tools)
    requires forall i :: 0 <= i < |blocks| ==> blocks[i].Dict? && "toolUse" !in blocks[i].fields
    ensures DispatchAll(blocks, tools) == Batch([], None)
    ensures KnownCalls(blocks) == []
  {
    if blocks != [] {
      NonToolBlocksAppendNothing(blocks[..|blocks| - 1], tools);
      DispatchBlockFollowsCall(blocks[|blocks| - 1], tools);
    }
  }

  /** The loop dispatches exactly the names the catalog sent with every
      request (`Ask.Tools`) advertises: a call is served by an adapter if and
      only if its name is one of the catalog's tool names. */
  lemma DispatchNamesMatchCatalog(call: ToolCall)
    ensures |Ask.Tools()| == 2
    ensures IsKnown(call) <==> (call.name.Str? &&
      (ToolName(Ask.Tools()[0]) == Some(call.name.s) || ToolName(Ask.Tools()[1]) == Some(call.name.s)))
  {
  }

  // ---------------------------------------------------------------------
  // The final answer

  /** The text a final content block contributes: its `text`, or a newline
      where it has none. */
  function Shown(block: Value): string
  {
    var text := FieldOr(block, "text", Str("\n"));
    if text.Str? then text.s else ""
  }

  /** The reference answer: the shown texts of the blocks, in order. */
  function Concat(blocks: seq<Value>): string
  {
    if blocks == [] then "" else Shown(blocks[0]) + Concat(blocks[1..])
  }

  /** Blocks whose texts can all be joined: dicts whose `text`, where
      present, is a string. */
  predicate TextBlocks(blocks: seq<Value>)
  {
    forall i :: 0 <= i < |blocks| ==> blocks[i].Dict? && FieldOr(blocks[i], "text", Str("\n")).Str?
  }

  lemma {:induction false} JoinShown(blocks: seq<Value>)
    requires TextBlocks(blocks)
    ensures Texts(blocks).Ok? && Join(Texts(blocks).value) == Ok(Concat(blocks))
  {
    if blocks != [] {
      JoinShown(blocks[1..]);
      var texts := Texts(blocks).value;
      assert texts == [FieldOr(blocks[0], "text", Str("\n"))] + Texts(blocks[1..]).value;
      assert texts[1..] == Texts(blocks[1..]).value;
    }
  }

  /** The answer exists exactly when the content is iterable and made of
      joinable text blocks, and then it is their texts concatenated in order. */
  lemma AnswerIsConcatenation(outputMessage: Value)
    ensures var blocks := Iterate(FieldOr(outputMessage, "content", EmptyDict));
      AnswerText(outputMessage).Ok? <==> (outputMessage.Dict? && blocks.Ok? && TextBlocks(blocks.value))
    ensures var blocks := Iterate(FieldOr(outputMessage, "content", EmptyDict));
      AnswerText(outputMessage).Ok? ==> AnswerText(outputMessage).value == Concat(blocks.value)
  {
    var blocks := Iterate(FieldOr(outputMessage, "content", EmptyDict));
    if outputMessage.Dict? && blocks.Ok? && TextBlocks(blocks.value) {
      JoinShown(blocks.value);
    }
  }

  /** A final message without `content` answers with the empty string. */
  lemma MissingContentAnswersEmpty(outputMessage: Value)
    requires outputMessage.Dict? && "content" !in outputMessage.fields
    ensures AnswerText(outputMessage) == Ok("")
  {
  }

  // ---------------------------------------------------------------------
  // One pass of the loop

  /** The loop goes on exactly when the model asked for tools, the content
      could be iterated and no tool raised. */
  lemma ContinuesOnlyOnToolUse(response: Value, history: seq<Value>, tools: Tools)
    ensures var n := Ask.Normalise(response);
      Round(response, history, tools).Continue? <==>
      (n.Ok? && n.value.stopReason == Str("tool_use") && Iterate(n.value.toolsRequested).Ok? &&
       DispatchAll(Iterate(n.value.toolsRequested).value, tools).failure.None?)
    ensures Round(response, history, tools).Continue? ==>
      var n := Ask.Normalise(response).value;
      Round(response, history, tools).history ==
        history + [n.outputMessage] + DispatchAll(Iterate(n.toolsRequested).value, tools).appended
  {
  }

  /** The history after one pass that dispatched `blocks` without an
      exception: `history`, the assistant turn `assistant`, then the result
      turns. */
  lemma {:induction false} GrowthCorrelates(history: seq<Value>, assistant: Value, blocks: seq<Value>, tools: Tools)
    requires DispatchAll(blocks, tools).failure.None?
    ensures var next := history + [assistant] + DispatchAll(blocks, tools).appended;
      var calls := KnownCalls(blocks);
      |next| == |history| + 1 + |calls| && next[..|history|] == history && next[|history|] == assistant &&
      forall k :: 0 <= k < |calls| ==>
        RunTool(calls[k], tools) == Ok(next[|history| + 1 + k]) &&
        AsToolResultTurn(next[|history| + 1 + k]).value.toolUseId == calls[k].id
  {
    var appended := DispatchAll(blocks, tools).appended;
    var next := history + [assistant] + appended;
    assert next[..|history|] == history;
    assert next[|history| + 1..] == appended;
    DispatchAllCorrelates(blocks, tools);
  }

  /** A pass that goes on grows the history by the assistant turn followed
      by one result turn per known tool request, in order, each the
      adapter's answer to that request and carrying its id. */
  lemma ToolUseRoundAppends(response: Value, history: seq<Value>, tools: Tools)
    requires Round(response, history, tools).Continue?
    ensures var n := Ask.Normalise(response).value;
      var calls := KnownCalls(Iterate(n.toolsRequested).value);
      var next := Round(response, history, tools).history;
      |next| == |history| + 1 + |calls| && next[..|history|] == history && next[|history|] == n.outputMessage &&
      forall k :: 0 <= k < |calls| ==>
        RunTool(calls[k], tools) == Ok(next[|history| + 1 + k]) &&
        AsToolResultTurn(next[|history| + 1 + k]).value.toolUseId == calls[k].id
  {
    ContinuesOnlyOnToolUse(response, history, tools);
    var n := Ask.Normalise(response).value;
    GrowthCorrelates(history, n.outputMessage, Iterate(n.toolsRequested).value, tools);
  }

  /** On `end_turn` the run answers with the concatenated final texts, or
      fails when they cannot be joined, and appends nothing either way. */
  lemma EndTurnRound(response: Value, history: seq<Value>, tools: Tools)
    requires Ask.Normalise(response).Ok? && Ask.StopReason(response) == Str("end_turn")
    ensures var blocks := Iterate(FieldOr(Ask.OutputMessage(response), "content", EmptyDict));
      Ask.OutputMessage(response).Dict? && blocks.Ok? && TextBlocks(blocks.value) ==>
        Round(response, history, tools) == Stop(Answered(Concat(blocks.value)), history)
    ensures var blocks := Iterate(FieldOr(Ask.OutputMessage(response), "content", EmptyDict));
      !(Ask.OutputMessage(response).Dict? && blocks.Ok? && TextBlocks(blocks.value)) ==>
        Round(response, history, tools).Stop? && Round(response, history, tools).outcome.Failed? &&
        Round(response, history, tools).history == history
  {
    var m := Ask.Normalise(response).value.outputMessage;
    assert m == Ask.OutputMessage(response);
    AnswerIsConcatenation(m);
  }

  /** A pass that answers or aborts appends nothing. */
  lemma AnswerOrAbortKeepsHistory(response: Value, history: seq<Value>, tools: Tools)
    ensures var step := Round(response, history, tools);
      step.Stop? && (step.outcome.Answered? || step.outcome.Aborted?) ==> step.history == history
  {
  }

  /** Any other stop reason ends the run with nothing appended. */
  lemma OtherStopReasonAborts(response: Value, history: seq<Value>, tools: Tools)
    requires Ask.Normalise(response).Ok?
    requires Ask.StopReason(response) != Str("end_turn") && Ask.StopReason(response) != Str("tool_use")
    ensures Round(response, history, tools) == Stop(Aborted(Ask.StopReason(response)), history)
  {
  }

  // ---------------------------------------------------------------------
  // The whole run

  /** A pass that never shortens the history. */
  ghost predicate Grows(pass: Pass)
  {
    forall response, history :: history <= pass(response, history).history
  }

  /** A pass that never claims the responses ran out. */
  ghost predicate NeverExhausts(pass: Pass)
  {
    forall response, history :: pass(response, history).Stop? ==> !pass(response, history).outcome.Exhausted?
  }

  /** The loop's pass has both properties. */
  lemma LoopPassBehaves(tools: Tools)
    ensures Grows(LoopPass(tools)) && NeverExhausts(LoopPass(tools))
  {
    forall response, history
      ensures history <= LoopPass(tools)(response, history).history
      ensures LoopPass(tools)(response, history).Stop? ==> !LoopPass(tools)(response, history).outcome.Exhausted?
    {
      assert LoopPass(tools)(response, history) == Round(response, history, tools);
    }
  }

  /** The run makes at most one gateway call per supplied response; the
      first call sends the initial history; each call but the last follows
      a pass that went on with exactly the history sent next; the last pass
      stopped with the run's outcome, or the responses ran out. */
  lemma {:induction false} ConverseTrace(responses: seq<Value>, history: seq<Value>, pass: Pass)
    requires NeverExhausts(pass)
    ensures var s := Converse(responses, history, pass);
      |s.sent| <= |responses| &&
      (responses != [] ==> |s.sent| >= 1 && s.sent[0] == history) &&
      (forall k :: 0 <= k < |s.sent| - 1 ==> pass(responses[k], s.sent[k]) == Continue(s.sent[k + 1]))
    ensures var s := Converse(responses, history, pass);
      !s.outcome.Exhausted? ==>
        |s.sent| >= 1 && pass(responses[|s.sent| - 1], s.sent[|s.sent| - 1]) == Stop(s.outcome, s.history)
    ensures var s := Converse(responses, history, pass);
      s.outcome.Exhausted? ==> (|s.sent| == |responses| &&
        (responses == [] ==> s.history == history) &&
        (responses != [] ==> pass(responses[|s.sent| - 1], s.sent[|s.sent| - 1]) == Continue(s.history)))
  {
    if responses != [] {
      var step := pass(responses[0], history);
      if step.Continue? {
        var rest := Converse(responses[1..], step.history, pass);
        ConverseTrace(responses[1..], step.history, pass);
        var s := Converse(responses, history, pass);
        assert s.sent == [history] + rest.sent;
        forall k | 0 <= k < |s.sent| - 1
          ensures pass(responses[k], s.sent[k]) == Continue(s.sent[k + 1])
        {
          if k > 0 {
            assert responses[k] == responses[1..][k - 1];
          }
        }
      }
    }
  }

  /** The history only grows: each call sends an extension of the history
      sent before it, and the final history extends them all. */
  lemma {:induction false} HistoryGrows(responses: seq<Value>, history: seq<Value>, pass: Pass)
    requires Grows(pass)
    ensures var s := Converse(responses, history, pass);
      history <= s.history && forall k :: 0 <= k < |s.sent| ==> s.sent[k] <= s.history
    ensures var s := Converse(responses, history, pass);
      forall k :: 0 <= k < |s.sent| - 1 ==> s.sent[k] <= s.sent[k + 1]
  {
    if responses != [] {
      var step := pass(responses[0], history);
      assert history <= step.history;
      if step.Continue? {
        HistoryGrows(responses[1..], step.history, pass);
        var rest := Converse(responses[1..], step.history, pass);
        var s := Converse(responses, history, pass);
        assert s.sent == [history] + rest.sent;
        forall k | 0 <= k < |s.sent| - 1
          ensures s.sent[k] <= s.sent[k + 1]
        {
          if k == 0 {
            assert rest.sent[0] == step.history;
          } else {
            assert s.sent[k] == rest.sent[k - 1] && s.sent[k + 1] == rest.sent[k];
          }
        }
      }
    }
  }

  /** The loop stops at the first response whose stop reason is not
      `tool_use`: every pass but the last saw `tool_use`. */
  lemma OnlyToolUseContinues(responses: seq<Value>, history: seq<Value>, tools: Tools)
    ensures var s := Converse(responses, history, LoopPass(tools));
      |s.sent| <= |responses| && forall k :: 0 <= k < |s.sent| - 1 ==>
        Ask.Normalise(responses[k]).Ok? && Ask.StopReason(responses[k]) == Str("tool_use")
  {
    var pass := LoopPass(tools);
    LoopPassBehaves(tools);
    ConverseTrace(responses, history, pass);
    var s := Converse(responses, history, pass);
    forall k | 0 <= k < |s.sent| - 1
      ensures Ask.Normalise(responses[k]).Ok? && Ask.StopReason(responses[k]) == Str("tool_use")
    {
      assert pass(responses[k], s.sent[k]) == Round(responses[k], s.sent[k], tools);
      ContinuesOnlyOnToolUse(responses[k], s.sent[k], tools);
    }
  }

  /** A run of the loop that answers or aborts leaves the history it last
      sent: the final pass appends nothing. */
  lemma FinalPassAppendsNothing(responses: seq<Value>, history: seq<Value>, tools: Tools)
    requires Converse(responses, history, LoopPass(tools)).outcome.Answered? ||
             Converse(responses, history, LoopPass(tools)).outcome.Aborted?
    ensures var s := Converse(responses, history, LoopPass(tools));
      |s.sent| >= 1 && s.history == s.sent[|s.sent| - 1]
  {
    var pass := LoopPass(tools);
    LoopPassBehaves(tools);
    ConverseTrace(responses, history, pass);
    var s := Converse(responses, history, pass);
    var last := |s.sent| - 1;
    assert pass(responses[last], s.sent[last]) == Round(responses[last], s.sent[last], tools);
    AnswerOrAbortKeepsHistory(responses[last], s.sent[last], tools);
  }
}

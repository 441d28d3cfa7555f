# Function calling with Amazon Bedrock and Claude 3: the agent loop

This project models the command-line agent that answers stock-price and
currency questions by letting Claude 3 call two tools through the Amazon
Bedrock Converse API, and it proves properties of the model.

- `main` starts the history with one user turn holding the question.
- It then calls the gateway, `generate_text`, over and over.
- On `tool_use` the gateway appends the assistant turn to the shared history.
  The loop then visits every content block of that turn. It hands each
  `toolUse` block named `get_stock_price` or `convert_currency` to that tool's
  adapter, and appends the adapter's `toolResult` turn to the same list.
- On `end_turn` the answer is the concatenation of the final message's texts.
- On any other stop reason the run gives up.

The model is split into these files:

- `python.dfy` (`Py`): the slice of Python the code relies on. JSON-like
  values, exceptions as `Result` errors, `dict.get`, `in`, iteration,
  `str.join`, truthiness, and a `PyList` class whose `Append` changes the
  list in place.
- `converse_api.dfy` (`ConverseApi`): builders and readers for the Converse
  API shapes: user turns, tool-result turns and tool descriptors.
- `ticker.dfy` and `currency.dfy`: each tool's descriptor and its
  `parse_and_run_*` adapter. The lookup behind each adapter (yfinance, a
  rates table) is a function-typed parameter.
- `ask.dfy` (`Ask`): the fixed request `generate_text` sends and how it
  normalises a response. `GenerateText` is a method on the shared `PyList`.
  On `tool_use` it returns that same list object.
- `agent.dfy` (`Agent`): the loop. Its specification is `Converse`, a
  recursive function over the gateway's successive responses. Each pass is
  `Round`. `Run` is the `while` loop on a `PyList`, and its inner `for`
  loop is `DispatchRequested`. `Run` is proved to compute `Converse`.
- `agent_properties.dfy` (`AgentProperties`): what the loop promises.
  Appended results answer the known tool requests in order and under their
  ids. Other blocks are skipped. The loop goes on only on `tool_use`. The
  history only grows. The answer is the in-order concatenation of the texts.
- `scenario.dfy` (`Scenario`): a worked two-pass run. First a price request
  next to a text block, then a text answer.

The gateway's responses are an input: `Run` receives them as a sequence,
one per `converse` call. The tool implementations are parameters too.

## Model

| member | source | states |
|---|---|---|
| `Py.Get` | main.py:42 | `v.get(key, default)`: AttributeError exactly when `v` is not a dict; otherwise the stored value, or the default when the key is missing |
| `Py.Contains` | main.py:51 | `key in container`: TypeError exactly when the container is not a dict, list or string; key membership for a dict, element equality for a list, substring for a string |
| `Py.Iterate` | main.py:50 | a `for` loop visits a list's items in order, a dict's keys in insertion order, a string's characters; anything else is a TypeError |
| `Py.Join` | main.py:45 | `''.join(parts)` succeeds exactly when every part is a string and otherwise raises TypeError |
| `Py.Truthy` | tools/ticker.py:33 | no contract of its own: Python truthiness (None, False, zero, empty string, list or dict are false); `Ticker.ParseAndRunGetStockPrice` states its use |
| `Py.PyList.Append` | main.py:59 | `list.append` adds exactly one element at the end, in place |
| `ConverseApi.ToolResultTurn` | tools/ticker.py:35-47 | the tool-result turn both adapters build reads back as one `toolResult` block carrying the given id and json payload |
| `ConverseApi.ObjectSchema` | tools/ticker.py:10-19 | an object schema has type `object`, the given properties and the given required names, in order |
| `ConverseApi.Descriptor` | tools/ticker.py:5-22 | a descriptor advertises the given tool name and wraps the given input schema |
| `Ticker.ToolDescription` | tools/ticker.py:5-22 | the stock-price descriptor is named `get_stock_price`; its input is an object with one string field `ticker`, and it requires exactly that field |
| `Ticker.ParseAndRunGetStockPrice` | tools/ticker.py:25-49 | a non-dict input raises AttributeError; a falsy or missing ticker (read as `{}`) raises UnboundLocalError; a lookup failure propagates; otherwise the result is one tool-result turn under `toolUseId` whose json holds `ticker`, `price`, `currency` from the lookup, in that order |
| `Currency.ToolDescription` | tools/currency.py:4-29 | the currency descriptor is named `convert_currency`; its input has a number field `amount` and string fields `source_currency`, `target_currency`, all required, in that order |
| `Currency.ParseAndRunConvertCurrency` | tools/currency.py:32-57 | a non-dict input raises AttributeError; missing fields are passed as `{}`; a converter failure propagates; otherwise the result is one tool-result turn under `toolUseId` whose json holds only `converted_currency` |
| `Ask.Tools` | pkg/ask.py:43 | the catalog has two descriptors, the stock-price tool first and the currency tool second |
| `Ask.ConverseRequest` | pkg/ask.py:38-46 | the request carries the history as `messages` and the given catalog as `toolConfig.tools` |
| `Ask.FixedRequestFields` | pkg/ask.py:12-34 | whatever the history, the request names the Claude 3 Sonnet model, a system prompt of exactly one text block, and temperature 0, maxTokens 300, topP 0 |
| `Ask.Request` | pkg/ask.py:38-46 | the request for a history carries that history and the two-tool catalog |
| `Ask.Normalise` | pkg/ask.py:48-59 | a response that is not a dict, or whose `output` is not a dict, raises AttributeError, and so does a non-dict message on `tool_use`; missing `output` or `message` read as `{}`; the stop reason and output message are read out; tools requested are the message's `content` on `tool_use` and `[]` otherwise |
| `Ask.MissingOutputIsEmpty` | pkg/ask.py:48 | a response without `output` has the empty dict as its message, and on `tool_use` requests nothing |
| `Ask.GenerateText` | pkg/ask.py:48-59 | on `tool_use` the output message is appended to the caller's list in place, and that same list object is returned; otherwise the list is unchanged and the bare output message is returned; normalisation errors leave the list unchanged |
| `Agent.BuildMessage` | main.py:15-21 | the initial history is one user turn made of a single text block holding the input |
| `Agent.CallOf` | main.py:52-54 | no contract of its own: the id, name and input of a `toolUse` dict block, missing ones read as `None`; `AgentProperties.DispatchBlockFollowsCall` states its use |
| `Agent.RunTool` | main.py:57-64 | no contract of its own: the adapter for a known tool name; specified by `AgentProperties.RunToolAnswersCall` |
| `Agent.DispatchBlock` | main.py:51-64 | no contract of its own: the inner loop's body for one block; specified by `AgentProperties.DispatchBlockFollowsCall` |
| `Agent.DispatchAll` | main.py:50-64 | no contract of its own: the inner loop as a function of the blocks; specified by `AgentProperties.DispatchAllCorrelates`, `Agent.FailureStops` and `Agent.DispatchAllExtend` |
| `Agent.KnownCalls` | main.py:50-64 | the requests of known tools among the blocks: no more than the blocks, each naming one of the two tools |
| `Agent.FailureStops` | main.py:50-64 | once a tool raises, no later block is visited and nothing more is appended |
| `Agent.DispatchAllExtend` | main.py:50-64 | the inner loop over one more block appends that block's result, skips it, or stops on its exception |
| `Agent.DispatchRequested` | main.py:50-64 | the inner `for` loop appends to the shared list exactly the results `DispatchAll` describes and reports the exception that stopped it |
| `Agent.Texts` | main.py:44 | the texts exist exactly when every final block is a dict (else AttributeError); each is the block's `text`, or a newline where it has none |
| `Agent.AnswerText` | main.py:42-45 | no contract of its own: the joined texts of the output message's content; specified by `AgentProperties.AnswerIsConcatenation` |
| `Agent.Converse` | main.py:35-73 | no contract of its own: the whole run as a function of the responses; specified by `AgentProperties.ConverseTrace`, `AgentProperties.HistoryGrows` and `AgentProperties.OnlyToolUseContinues`, and computed by `Agent.Run` |
| `Agent.Round` | main.py:36-73 | a pass never shortens the history and never reports that the responses ran out |
| `Agent.ChainConverse` | main.py:35-73 | a chain of passes that went on is a prefix of the run: the rest is the run from the current history on the remaining responses |
| `Agent.ChainExtend` | main.py:35-36 | a chain grows by one pass that goes on |
| `Agent.ChainStops` | main.py:40-73 | a chain followed by a stopping pass is the whole run, ending with that pass's outcome and history |
| `Agent.ChainExhausts` | main.py:35 | a chain over all the supplied responses is the whole run, which then runs out |
| `Agent.LoopBody` | main.py:36-73 | one iteration of the `while` loop on the shared list leaves the list holding the pass's history; it ends the run exactly when the pass stops, and goes on only with stop reason `tool_use` |
| `Agent.Run` | main.py:24-76 | the loop computes exactly the run `Converse` specifies: its outcome, the final history, and the history sent on every gateway call |
| `AgentProperties.RunToolAnswersCall` | main.py:57-64 | a tool's successful result is a tool-result turn carrying the call's `toolUseId` |
| `AgentProperties.DispatchBlockFollowsCall` | main.py:51-64 | a dict block without `toolUse` is skipped, and so is a request for an unknown tool; a known request runs its adapter and yields its result or its exception; only known requests append anything |
| `AgentProperties.DispatchAllCorrelates` | main.py:50-64 | without an exception the inner loop appends exactly one turn per known request, in order, each that request's adapter result under its id |
| `AgentProperties.NonToolBlocksAppendNothing` | main.py:51 | content made only of non-tool blocks appends nothing and holds no known request |
| `AgentProperties.DispatchNamesMatchCatalog` | main.py:57-62 | a call is dispatched exactly when its name is one the catalog advertises |
| `AgentProperties.JoinShown` | main.py:44-45 | joining the texts of joinable blocks gives the reference concatenation |
| `AgentProperties.AnswerIsConcatenation` | main.py:42-45 | the answer exists exactly when the output message is a dict whose content can be iterated and is made of joinable text blocks; the answer is then their texts concatenated in order, a newline for a block without text |
| `AgentProperties.MissingContentAnswersEmpty` | main.py:42 | a final message without `content` answers with the empty string |
| `AgentProperties.ContinuesOnlyOnToolUse` | main.py:40-73 | a pass goes on if and only if the stop reason is `tool_use`, the requested content can be iterated and no tool raised; the history is then the old one, the assistant turn, and the appended results |
| `AgentProperties.GrowthCorrelates` | main.py:50-64 | after a tool round the history is the old history, the assistant turn, then one result per known request, in order and under its id |
| `AgentProperties.ToolUseRoundAppends` | main.py:48-67 | a pass that goes on grows the history by exactly the assistant turn and one correlated result per known request |
| `AgentProperties.EndTurnRound` | main.py:40-46 | on `end_turn` the run answers with the concatenated texts, or fails when they cannot be joined, and appends nothing |
| `AgentProperties.AnswerOrAbortKeepsHistory` | main.py:40-73 | a pass that answers or aborts appends nothing |
| `AgentProperties.OtherStopReasonAborts` | main.py:69-73 | any stop reason other than `end_turn` and `tool_use` ends the run with that reason and nothing appended |
| `AgentProperties.LoopPassBehaves` | main.py:36-73 | the loop's pass never shortens the history and never reports exhaustion |
| `AgentProperties.ConverseTrace` | main.py:35-73 | the run makes at most one call per supplied response; the first call sends the initial history; each call but the last follows a pass that went on with exactly the next history sent; the last pass gave the outcome, or the responses ran out |
| `AgentProperties.HistoryGrows` | main.py:35-73 | each history sent extends the previous one and the final history extends them all; nothing is ever removed |
| `AgentProperties.OnlyToolUseContinues` | main.py:35-48 | every pass but the last saw a well-formed response with stop reason `tool_use` |
| `AgentProperties.FinalPassAppendsNothing` | main.py:40-73 | a run that answers or aborts ends with the history it sent last |
| `Scenario.NormaliseResponse` | pkg/ask.py:48-59 | a well-formed response normalises to its stop reason, its content on `tool_use`, and its assistant turn |
| `Scenario.TextBlockSkipped` | main.py:51 | a text block holds no tool request and dispatches nothing |
| `Scenario.PriceRequestDispatched` | main.py:51-59 | the AMZN `toolUse` block reads as its call and runs the stock-price adapter |
| `Scenario.DispatchPriceRequest` | main.py:50-64 | a text block followed by the price request appends only the price result |
| `Scenario.AnswerOneText` | main.py:42-45 | a single text block answers with its text |
| `Scenario.PriceRound` | main.py:48-67 | the first pass appends the assistant turn and the price result, and goes on |
| `Scenario.AnswerRound` | main.py:40-46 | the second pass answers and appends nothing |
| `Scenario.TwoPasses` | main.py:35-46 | two passes, the first going on and the second stopping, make the whole run |
| `Scenario.PriceThenAnswer` | main.py:24-76 | the worked run answers with the final text after two calls; its history is the question, the assistant request and the price result under id `t1` |

## Left out

- The `converse` network call is not modelled. The gateway's responses are a sequence supplied to `Run`, one per call. `GenerateText` receives the response for the request `Ask.Request` describes and does not return that request.
- `get_stock_price` (yfinance) and `convert_currency` (CurrencyConverter) are function-typed parameters in `Agent.Tools`. Each returns a result or an exception. The exception may be any `PyError`, and `External` stands for the ones the modelled code does not name. The adapter passes it on unchanged, and it ends the run as `Failed`.
- Agent.Run: the source loops for as long as the model keeps asking for tools. The model's loop ends with outcome `Exhausted` once the supplied responses run out. Every other outcome is exact.
- Ticker.ToolDescription: the tool's `description` text is abridged to its first sentence. No code reads it; only the model does. The ticker field's description is kept verbatim.
- Currency.ToolDescription: the tool's `description` text is abridged to its first sentence, for the same reason. The three field descriptions are kept verbatim.
- Logging (loguru), argument parsing (`parse_args`), `json.dumps` of the history and the final `logger.info(answer)` are I/O. The question is `Run`'s input text, and the answer is the `Answered` outcome.
- Float arithmetic is not modelled. Prices and converted amounts are opaque `real` values that the adapters store unchanged.
- Python equality across numeric types (`1 == 1.0 == True`) is not modelled, because the code compares only strings. Dict keys are strings.
- `'toolUse' in content` on a string content block is modelled as a substring test, and on a list as element equality. Only dict blocks occur in Converse API output.
- Dict coherence: a dict is its mapping plus its keys in insertion order, and the model does not require the two to agree. In every Python dict each key is recorded once, and the recorded keys are exactly the mapping's keys. Every dict the model builds is coherent in this sense. The adapters' contracts state both the key order and the key set of their json payloads, and `ConverseApi.OnlyEntry` and the turn readers check both. For a dict that comes from the gateway, iteration reads the recorded keys, while truthiness, `in` and lookups read the mapping.
- An exception escaping `main` is the `Failed` outcome. No traceback is modelled.

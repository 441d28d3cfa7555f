/** The stock-price tool: its descriptor and the adapter that turns a
    `toolUse` request into a `toolResult` turn. The price lookup itself
    (`get_stock_price`, a yfinance query) is an opaque parameter. */
module Ticker {
  import opened Py
  import opened ConverseApi

  /** The name the model uses to call this tool. */
  const Name := "get_stock_price"

  /** Free text for the model; its wording carries no behaviour. */
  const Description := "Retrieves the current stock price for a given ticker symbol, and the currency that its being traded."
  const TickerDescription := "The ticker symbol of the company. e.g AAPL for Apple Inc."

  /** `ticker_tool_description`: one required string field, `ticker`. */
  function ToolDescription(): (d: Value)
    ensures ToolName(d) == Some(Name)
    ensures SchemaType(d) == Some("object")
    ensures PropertyNames(d) == Some(["ticker"])
    ensures RequiredFields(d) == PropertyNames(d)
    ensures PropertyType(d, "ticker") == Some("string")
  {
    var properties := Dict(["ticker"], map["ticker" := PropertySchema("string", TickerDescription)]);
    Descriptor(Name, Description, ObjectSchema(properties, ["ticker"]))
  }

  /** `get_stock_price(ticker)`: the latest close and the reporting currency,
      or an exception. */
  type StockPriceLookup = Value -> Result<(real, Value)>

  /** The `ticker` argument as the adapter reads it: `input.get("ticker", {})`. */
  function TickerArg(input: Value): Value
  {
    FieldOr(input, "ticker", EmptyDict)
  }

  /** `parse_and_run_get_stock_price`. A falsy ticker leaves the result
      variable unbound, so the return raises UnboundLocalError. */
  function ParseAndRunGetStockPrice(toolUseId: Value, input: Value, getStockPrice: StockPriceLookup): (r: Result<Value>)
    ensures r.Ok? <==> input.Dict? && Truthy(TickerArg(input)) && getStockPrice(TickerArg(input)).Ok?
    ensures !input.Dict? ==> r == Err(AttributeError)
    ensures input.Dict? && !Truthy(TickerArg(input)) ==> r == Err(UnboundLocalError)
    ensures input.Dict? && Truthy(TickerArg(input)) && getStockPrice(TickerArg(input)).Err? ==>
      r == Err(getStockPrice(TickerArg(input)).error)
    ensures r.Ok? ==>
      var quote := getStockPrice(TickerArg(input)).value;
      var result := AsToolResultTurn(r.value);
      result.Some? && result.value.toolUseId == toolUseId &&
      result.value.json.Dict? && result.value.json.keys == ["ticker", "price", "currency"] &&
      result.value.json.fields.Keys == {"ticker", "price", "currency"} &&
      Field(result.value.json, "ticker") == Some(TickerArg(input)) &&
      Field(result.value.json, "price") == Some(Float(quote.0)) &&
      Field(result.value.json, "currency") == Some(quote.1)
  {
    var ticker :- Get(input, "ticker", EmptyDict);
    if Truthy(ticker) then
      var (price, currency) :- getStockPrice(ticker);
      var json := Dict(["ticker", "price", "currency"],
        map["ticker" := ticker, "price" := Float(price), "currency" := currency]);
      Ok(ToolResultTurn(toolUseId, json))
    else
      Err(UnboundLocalError)
  }
}

/** The currency-conversion tool: its descriptor and the adapter that turns a
    `toolUse` request into a `toolResult` turn. The conversion itself
    (`convert_currency`, backed by a rates table) is an opaque parameter. */
module Currency {
  import opened Py
  import opened ConverseApi

  /** The name the model uses to call this tool. */
  const Name := "convert_currency"

  /** Free text for the model; its wording carries no behaviour. */
  const Description := "Converts a given amount from one currency to another."
  const AmountDescription := "The amount of the source currency to be converted."
  const SourceDescription := "The currency of the amount provided. e.g USD for US Dollars."
  const TargetDescription := "The currency to convert the amount to. e.g EUR for Euros."

  /** `currency_converter_tool_description`: three required fields, a number
      and two strings. */
  function ToolDescription(): (d: Value)
    ensures ToolName(d) == Some(Name)
    ensures SchemaType(d) == Some("object")
    ensures PropertyNames(d) == Some(["amount", "source_currency", "target_currency"])
    ensures RequiredFields(d) == PropertyNames(d)
    ensures PropertyType(d, "amount") == Some("number")
    ensures PropertyType(d, "source_currency") == Some("string")
    ensures PropertyType(d, "target_currency") == Some("string")
  {
    var properties := Dict(["amount", "source_currency", "target_currency"],
      map["amount" := PropertySchema("number", AmountDescription),
          "source_currency" := PropertySchema("string", SourceDescription),
          "target_currency" := PropertySchema("string", TargetDescription)]);
    Descriptor(Name, Description, ObjectSchema(properties, ["amount", "source_currency", "target_currency"]))
  }

  /** `convert_currency(amount, source, target)`: the converted amount, or an
      exception (for instance an unknown currency code). */
  type Converter = (Value, Value, Value) -> Result<real>

  /** An input field as the adapter reads it: `input.get(field, {})`. */
  function Arg(input: Value, field: string): Value
  {
    FieldOr(input, field, EmptyDict)
  }

  /** The converter applied to the three input fields, missing ones read as `{}`. */
  function Converted(input: Value, convertCurrency: Converter): Result<real>
  {
    convertCurrency(Arg(input, "amount"), Arg(input, "source_currency"), Arg(input, "target_currency"))
  }

  /** `parse_and_run_convert_currency`. */
  function ParseAndRunConvertCurrency(toolUseId: Value, input: Value, convertCurrency: Converter): (r: Result<Value>)
    ensures r.Ok? <==> input.Dict? && Converted(input, convertCurrency).Ok?
    ensures !input.Dict? ==> r == Err(AttributeError)
    ensures input.Dict? && Converted(input, convertCurrency).Err? ==>
      r == Err(Converted(input, convertCurrency).error)
    ensures r.Ok? ==>
      var result := AsToolResultTurn(r.value);
      result.Some? && result.value.toolUseId == toolUseId &&
      result.value.json.Dict? && result.value.json.keys == ["converted_currency"] &&
      result.value.json.fields.Keys == {"converted_currency"} &&
      Field(result.value.json, "converted_currency") == Some(Float(Converted(input, convertCurrency).value))
  {
    var amount :- Get(input, "amount", EmptyDict);
    // `input` is a dict from here on, so the other two lookups cannot raise
    var sourceCurrency := FieldOr(input, "source_currency", EmptyDict);
    var targetCurrency := FieldOr(input, "target_currency", EmptyDict);
    var convertedCurrency :- convertCurrency(amount, sourceCurrency, targetCurrency);
    var json := Dict(["converted_currency"], map["converted_currency" := Float(convertedCurrency)]);
    Ok(ToolResultTurn(toolUseId, json))
  }
}

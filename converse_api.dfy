/** Readers for the Amazon Bedrock Converse API shapes the agent exchanges:
    user turns, tool-result turns and tool descriptors. The tools build these
    shapes as dict literals; the readers take them apart again, so each
    builder's contract is a round trip through its reader. */
module ConverseApi {
  import opened Py

  /** The correlation id and json payload carried by a tool-result turn. */
  datatype ToolResult = ToolResult(toolUseId: Value, json: Value)

  /** The value of a dict whose one and only key is `key`. */
  function OnlyEntry(v: Value, key: string): Option<Value>
  {
    if v.Dict? && v.keys == [key] && v.fields.Keys == {key} then Some(v.fields[key]) else None
  }

  /** A dict whose keys are exactly `keys`, in that order. */
  predicate HasKeys(v: Value, keys: seq<string>)
  {
    v.Dict? && v.keys == keys && v.fields.Keys == set k | k in keys
  }

  /** The content blocks of a turn with the given role. */
  function TurnContent(m: Value, role: string): Option<seq<Value>>
  {
    if !HasKeys(m, ["role", "content"]) || Field(m, "role") != Some(Str(role)) then None
    else match Field(m, "content")
      case Some(List(blocks)) => Some(blocks)
      case _ => None
  }

  /** The text of a user turn made of a single text block. */
  function AsUserTextTurn(m: Value): Option<string>
  {
    match TurnContent(m, "user")
    case Some(blocks) =>
      if |blocks| == 1 && OnlyEntry(blocks[0], "text").Some? && OnlyEntry(blocks[0], "text").value.Str?
      then Some(OnlyEntry(blocks[0], "text").value.s)
      else None
    case None => None
  }

  /** The id and payload of a user turn made of a single `toolResult` block
      whose content is a single `json` block. */
  function AsToolResultTurn(m: Value): Option<ToolResult>
  {
    match TurnContent(m, "user")
    case None => None
    case Some(blocks) =>
      if |blocks| != 1 then None
      else match OnlyEntry(blocks[0], "toolResult")
        case None => None
        case Some(result) =>
          if !HasKeys(result, ["toolUseId", "content"]) then None
          else match (Field(result, "toolUseId"), Field(result, "content"))
          case (Some(id), Some(List(parts))) =>
            if |parts| == 1 && OnlyEntry(parts[0], "json").Some?
            then Some(ToolResult(id, OnlyEntry(parts[0], "json").value))
            else None
          case _ => None
  }

  /** A user turn made of one `toolResult` block carrying `toolUseId` and a
      single `json` content block. */
  function ToolResultTurn(toolUseId: Value, json: Value): (m: Value)
    ensures AsToolResultTurn(m) == Some(ToolResult(toolUseId, json))
  {
    var toolResult := Dict(["toolUseId", "content"],
      map["toolUseId" := toolUseId, "content" := List([Dict(["json"], map["json" := json])])]);
    Dict(["role", "content"],
      map["role" := Str("user"), "content" := List([Dict(["toolResult"], map["toolResult" := toolResult])])])
  }

  /** The schema of one input field: `{"type": jsonType, "description": description}`. */
  function PropertySchema(jsonType: string, description: string): (p: Value)
    ensures Field(p, "type") == Some(Str(jsonType))
  {
    Dict(["type", "description"], map["type" := Str(jsonType), "description" := Str(description)])
  }

  /** An object schema: `{"type": "object", "properties": ..., "required": [...]}`. */
  function ObjectSchema(properties: Value, required: seq<string>): (s: Value)
    ensures Field(s, "type") == Some(Str("object"))
    ensures Field(s, "properties") == Some(properties)
    ensures FieldOr(s, "required", Null).List? && Strings(FieldOr(s, "required", Null).items) == Some(required)
  {
    var names := seq(|required|, i requires 0 <= i < |required| => Str(required[i]));
    assert Strings(names).value == required;
    Dict(["type", "properties", "required"],
      map["type" := Str("object"), "properties" := properties, "required" := List(names)])
  }

  /** A tool descriptor: `{"toolSpec": {"name", "description", "inputSchema": {"json": schema}}}`. */
  function Descriptor(name: string, description: string, schema: Value): (d: Value)
    ensures ToolName(d) == Some(name)
    ensures InputSchema(d) == schema
  {
    Dict(["toolSpec"], map["toolSpec" := Dict(["name", "description", "inputSchema"],
      map["name" := Str(name),
          "description" := Str(description),
          "inputSchema" := Dict(["json"], map["json" := schema])])])
  }

  /** A list of strings as Dafny strings. */
  function Strings(items: seq<Value>): (r: Option<seq<string>>)
    ensures r.Some? <==> forall i :: 0 <= i < |items| ==> items[i].Str?
    ensures r.Some? ==> |r.value| == |items| && forall i :: 0 <= i < |items| ==> Str(r.value[i]) == items[i]
  {
    if forall i :: 0 <= i < |items| ==> items[i].Str?
    then Some(seq(|items|, i requires 0 <= i < |items| => items[i].s))
    else None
  }

  /** `d["toolSpec"]`. */
  function ToolSpec(d: Value): Value
  {
    FieldOr(d, "toolSpec", Null)
  }

  /** The dispatch name a descriptor advertises. */
  function ToolName(d: Value): Option<string>
  {
    var name := FieldOr(ToolSpec(d), "name", Null);
    if name.Str? then Some(name.s) else None
  }

  /** `d["toolSpec"]["inputSchema"]["json"]`: the JSON schema of the input. */
  function InputSchema(d: Value): Value
  {
    FieldOr(FieldOr(ToolSpec(d), "inputSchema", Null), "json", Null)
  }

  /** The declared input fields, in declaration order. */
  function PropertyNames(d: Value): Option<seq<string>>
  {
    var properties := FieldOr(InputSchema(d), "properties", Null);
    if properties.Dict? then Some(properties.keys) else None
  }

  /** The JSON type declared for one input field. */
  function PropertyType(d: Value, field: string): Option<string>
  {
    var t := FieldOr(FieldOr(FieldOr(InputSchema(d), "properties", Null), field, Null), "type", Null);
    if t.Str? then Some(t.s) else None
  }

  /** The input fields the descriptor marks as required. */
  function RequiredFields(d: Value): Option<seq<string>>
  {
    var required := FieldOr(InputSchema(d), "required", Null);
    if required.List? then Strings(required.items) else None
  }

  /** The JSON type of the whole input. */
  function SchemaType(d: Value): Option<string>
  {
    var t := FieldOr(InputSchema(d), "type", Null);
    if t.Str? then Some(t.s) else None
  }
}

/** Writing the protocol-neutral request as an Anthropic body, and parsing Anthropic bodies. */
module Anthropic {
  import opened Common
  import opened Text
  import opened Json
  import opened Exchange

  const DEFAULT_MAX_OUTPUT_TOKENS: nat := 4096

  // ---- Writing --------------------------------------------------------------------------------

  function TextBlock(text: string): Json {
    JObject(map[TypeKey := JString("text"), TextKey := JString(text)])
  }

  function ToolUseBlock(id: string, name: string, input: Json): Json {
    JObject(map[TypeKey := JString("tool_use"), IdKey := JString(id), NameKey := JString(name), InputKey := input])
  }

  function ToolResultBlock(id: string, content: string): Json {
    JObject(map[TypeKey := JString("tool_result"), ToolUseIdKey := JString(id), ContentKey := JString(content)])
  }

  /** Tool arguments must be the text of a JSON object. */
  predicate IsObjectText(codec: Codec, arguments: string) {
    codec.read(arguments).Some? && codec.read(arguments).value.JObject?
  }

  /** The block a part becomes in a message of the given role; other parts are skipped
      (None) or, for the assistant, rejected. */
  function WriteBlock(codec: Codec, role: Role, c: Content): Result<Option<Json>, Error> {
    match role
    case UserRole => Ok(if c.TextPart? then Some(TextBlock(c.text)) else None)
    case ToolRole => Ok(if c.ToolResult? then Some(ToolResultBlock(c.toolCallId, c.content)) else None)
    case AssistantRole =>
      (match c
       case TextPart(text) => Ok(Some(TextBlock(text)))
       case ToolCall(id, name, arguments) =>
         if IsObjectText(codec, arguments) then Ok(Some(ToolUseBlock(id, name, codec.read(arguments).value)))
         else Err(Invalid)
       case ToolResult(_, _) => Err(Invalid))
    case _ => Ok(None)
  }

  function WriteBlocks(codec: Codec, role: Role, content: seq<Content>): Result<seq<Json>, Error> {
    if content == [] then Ok([])
    else
      var before := WriteBlocks(codec, role, content[..|content| - 1]);
      var last := WriteBlock(codec, role, content[|content| - 1]);
      if before.Err? || last.Err? then Err(Invalid)
      else Ok(before.value + if last.value.Some? then [last.value.value] else [])
  }

  predicate IsSystem(m: Message) {
    m.role == SystemRole || m.role == DeveloperRole
  }

  function WriteMessage(codec: Codec, m: Message): Result<Json, Error> {
    var blocks := WriteBlocks(codec, m.role, m.content);
    if blocks.Err? then Err(Invalid)
    else Ok(JObject(map[RoleKey := JString(if m.role == AssistantRole then "assistant" else "user"),
                        ContentKey := JArray(blocks.value)]))
  }

  /** The conversation, without system and developer messages. */
  function WriteMessages(codec: Codec, messages: seq<Message>): Result<seq<Json>, Error> {
    if messages == [] then Ok([])
    else
      var before, m := WriteMessages(codec, messages[..|messages| - 1]), messages[|messages| - 1];
      if before.Err? then Err(Invalid)
      else if IsSystem(m) then before
      else if WriteMessage(codec, m).Err? then Err(Invalid)
      else Ok(before.value + [WriteMessage(codec, m).value])
  }

  function TextsOf(content: seq<Content>): seq<string> {
    if content == [] then []
    else
      TextsOf(content[..|content| - 1])
      + if content[|content| - 1].TextPart? then [content[|content| - 1].text] else []
  }

  function SystemParts(messages: seq<Message>): seq<string> {
    if messages == [] then []
    else
      var m := messages[|messages| - 1];
      SystemParts(messages[..|messages| - 1]) + if IsSystem(m) then TextsOf(m.content) else []
  }

  function WriteTool(t: Tool): Json {
    JObject(map[NameKey := JString(t.name),
                DescriptionKey := if t.description.Some? then JString(t.description.value) else JNull,
                InputSchemaKey := t.inputSchema])
  }

  function WriteTools(tools: seq<Tool>): (r: seq<Json>)
    ensures |r| == |tools| && forall i :: 0 <= i < |r| ==> r[i] == WriteTool(tools[i])
  {
    seq(|tools|, i requires 0 <= i < |tools| => WriteTool(tools[i]))
  }

  function ChoiceFields(choice: ToolChoice): Object {
    match choice
    case ChooseNone => map[TypeKey := JString("none")]
    case ChooseAuto => map[TypeKey := JString("auto")]
    case ChooseRequired => map[TypeKey := JString("any")]
    case ChooseFunction(name) => map[TypeKey := JString("tool"), NameKey := JString(name)]
  }

  function WithParallel(fields: Object, parallel: Option<bool>): Json {
    JObject(if parallel.Some? then fields[DisableParallelKey := JBool(!parallel.value)] else fields)
  }

  predicate ToolsDisabled(ir: Ir) {
    ir.toolChoice == Some(ChooseNone)
  }

  function WriteChoice(ir: Ir): Option<Json> {
    if ToolsDisabled(ir) then None
    else if ir.toolChoice.Some? then Some(WithParallel(ChoiceFields(ir.toolChoice.value), ir.parallel))
    else if ir.parallel.Some? then Some(WithParallel(ChoiceFields(ChooseAuto), ir.parallel))
    else None
  }

  function StopSequences(stop: Json): Json {
    if stop.JString? then JArray([stop]) else stop
  }

  /** Set a field if there is a value for it. */
  function Put(fields: Object, key: Field, v: Option<Json>): Object {
    if v.Some? then fields[key := v.value] else fields
  }

  function Parameter(fields: Object, key: Field): Option<Json> {
    if Given(fields, key) then Some(fields[key]) else None
  }

  /** The optional fields of the body. */
  function WriteExtra(ir: Ir): Object {
    var f0 := Put(map[], TemperatureKey, Parameter(ir.parameters, TemperatureKey));
    var f1 := Put(f0, TopPKey, Parameter(ir.parameters, TopPKey));
    var f2 := Put(f1, TopKKey, Parameter(ir.parameters, TopKKey));
    var stop := Parameter(ir.parameters, StopKey);
    var f3 := Put(f2, StopSequencesKey, if stop.Some? then Some(StopSequences(stop.value)) else None);
    var f4 := Put(f3, ToolsKey, if ir.tools != [] && !ToolsDisabled(ir) then Some(JArray(WriteTools(ir.tools))) else None);
    Put(f4, ToolChoiceKey, WriteChoice(ir))
  }

  function Body(model: string, tokens: U64, messages: seq<Json>, system: Option<Json>, stream: bool, extra: Object): Json {
    var fields := map[ModelKey := JString(model), MaxTokensKey := JInt(tokens), MessagesKey := JArray(messages),
                      StreamKey := JBool(stream)];
    JObject(Put(fields, SystemKey, system) + extra)
  }

  function TokenLimit(ir: Ir): U64 {
    if ir.maxOutputTokens.Some? then ir.maxOutputTokens.value else DEFAULT_MAX_OUTPUT_TOKENS
  }

  function SystemText(messages: seq<Message>): Option<Json> {
    if SystemParts(messages) == [] then None else Some(JString(Join(SystemParts(messages), "\n\n")))
  }

  function ToAnthropic(codec: Codec, ir: Ir, model: string, stream: bool): Result<Json, Error> {
    var messages := WriteMessages(codec, ir.messages);
    if messages.Err? then Err(Invalid)
    else Ok(Body(model, TokenLimit(ir), messages.value, SystemText(ir.messages), stream, WriteExtra(ir)))
  }

  // ---- Reading --------------------------------------------------------------------------------

  datatype AnthropicRequest = AnthropicRequest(model: string, maxTokens: Option<U64>, messages: seq<Json>,
                                               system: Option<Json>, stream: Option<bool>, extra: Object)

  const NAMED_FIELDS: set<Field> := {ModelKey, MaxTokensKey, MessagesKey, SystemKey, StreamKey}

  /** Deserialising a body: optional fields may be absent or null, other fields are kept. */
  function ReadRequest(v: Json): Result<AnthropicRequest, Error> {
    if !v.JObject? || AsString(Get(v, ModelKey)).None? then Err(Invalid)
    else
      var f := v.fields;
      if (Given(f, MaxTokensKey) && !(f[MaxTokensKey].JInt? && 0 <= f[MaxTokensKey].i <= U64_MAX))
         || (MessagesKey in f && !f[MessagesKey].JArray?) || (Given(f, StreamKey) && !f[StreamKey].JBool?) then Err(Invalid)
      else
        Ok(AnthropicRequest(f[ModelKey].s,
                            if Given(f, MaxTokensKey) then Some(f[MaxTokensKey].i) else None,
                            if MessagesKey in f then f[MessagesKey].items else [],
                            if Given(f, SystemKey) then Some(f[SystemKey]) else None,
                            if Given(f, StreamKey) then Some(f[StreamKey].value) else None,
                            map k | k in f && k !in NAMED_FIELDS :: f[k]))
  }

  function AnthropicText(v: Json): Result<string, Error>
    decreases v
  {
    if v.JString? then Ok(v.s) else if v.JArray? then AnthropicTexts(v.items) else Err(Invalid)
  }

  function AnthropicTexts(blocks: seq<Json>): Result<string, Error>
    decreases blocks
  {
    if blocks == [] then Ok("")
    else
      var before, block := AnthropicTexts(blocks[..|blocks| - 1]), blocks[|blocks| - 1];
      var content := Get(block, ContentKey);
      var last :=
        if Has(block, TypeKey, "text") then
          Ok(if AsString(Get(block, TextKey)).Some? then AsString(Get(block, TextKey)).value else "")
        else if Has(block, TypeKey, "tool_result") then
          if content.Some? then AnthropicText(content.value) else Err(Invalid)
        else Err(Invalid);
      if before.Err? || last.Err? then Err(Invalid) else Ok(before.value + last.value)
  }

  /** The part a block stands for; an assistant's thinking is skipped (None). */
  function ReadBlock(codec: Codec, role: Role, block: Json): Result<Option<Content>, Error> {
    var kind := AsString(Get(block, TypeKey));
    if kind == Some("text") then
      var text := RequiredString(block, TextKey);
      if text.Err? then Err(Invalid) else Ok(Some(TextPart(text.value)))
    else if kind == Some("tool_use") then
      var id, name := RequiredString(block, IdKey), RequiredString(block, NameKey);
      if id.Err? || name.Err? then Err(Invalid)
      else Ok(Some(ToolCall(id.value, name.value, codec.write(GetOr(block, InputKey, JObject(map[]))))))
    else if kind == Some("tool_result") then
      var id, text := RequiredString(block, ToolUseIdKey), AnthropicText(GetOr(block, ContentKey, JNull));
      if id.Err? || text.Err? then Err(Invalid) else Ok(Some(ToolResult(id.value, text.value)))
    else if role == AssistantRole && (kind == Some("thinking") || kind == Some("redacted_thinking")) then Ok(None)
    else Err(Invalid)
  }

  function ReadBlocks(codec: Codec, role: Role, blocks: seq<Json>): Result<seq<Content>, Error> {
    if blocks == [] then Ok([])
    else
      var before := ReadBlocks(codec, role, blocks[..|blocks| - 1]);
      var last := ReadBlock(codec, role, blocks[|blocks| - 1]);
      if before.Err? || last.Err? then Err(Invalid)
      else Ok(before.value + if last.value.Some? then [last.value.value] else [])
  }

  function ReadMessage(codec: Codec, message: Json): Result<Message, Error> {
    var kind := AsString(Get(message, RoleKey));
    if kind != Some("user") && kind != Some("assistant") then Err(Invalid)
    else
      var role := if kind == Some("user") then UserRole else AssistantRole;
      var v := GetOr(message, ContentKey, JNull);
      if v.JString? then Ok(Message(role, [TextPart(v.s)]))
      else if !v.JArray? || ReadBlocks(codec, role, v.items).Err? then Err(Invalid)
      else Ok(Message(role, ReadBlocks(codec, role, v.items).value))
  }

  function ReadMessages(codec: Codec, messages: seq<Json>): Result<seq<Message>, Error> {
    if messages == [] then Ok([])
    else
      var before := ReadMessages(codec, messages[..|messages| - 1]);
      var last := ReadMessage(codec, messages[|messages| - 1]);
      if before.Err? || last.Err? then Err(Invalid) else Ok(before.value + [last.value])
  }

  function ReadTool(tool: Json): Result<Tool, Error> {
    var name := RequiredString(tool, NameKey);
    if name.Err? then Err(Invalid)
    else Ok(Tool(name.value, AsString(Get(tool, DescriptionKey)), GetOr(tool, InputSchemaKey, DEFAULT_SCHEMA), None))
  }

  function ReadToolList(tools: seq<Json>): Result<seq<Tool>, Error> {
    if tools == [] then Ok([])
    else
      var before, last := ReadToolList(tools[..|tools| - 1]), ReadTool(tools[|tools| - 1]);
      if before.Err? || last.Err? then Err(Invalid) else Ok(before.value + [last.value])
  }

  function ReadTools(extra: Object): Result<seq<Tool>, Error> {
    if ToolsKey !in extra then Ok([])
    else if extra[ToolsKey].JArray? then ReadToolList(extra[ToolsKey].items)
    else Err(Invalid)
  }

  function ReadChoice(v: Json): Result<ToolChoice, Error> {
    var kind := AsString(Get(v, TypeKey));
    if kind == Some("none") then Ok(ChooseNone)
    else if kind == Some("auto") then Ok(ChooseAuto)
    else if kind == Some("any") then Ok(ChooseRequired)
    else if kind == Some("tool") && RequiredString(v, NameKey).Ok? then Ok(ChooseFunction(RequiredString(v, NameKey).value))
    else Err(Invalid)
  }

  function ReadOptionalChoice(extra: Object): Result<Option<ToolChoice>, Error> {
    if ToolChoiceKey !in extra then Ok(None)
    else if ReadChoice(extra[ToolChoiceKey]).Err? then Err(Invalid)
    else Ok(Some(ReadChoice(extra[ToolChoiceKey]).value))
  }

  function ReadParallel(extra: Object): Option<bool> {
    if ToolChoiceKey !in extra || AsBool(Get(extra[ToolChoiceKey], DisableParallelKey)).None? then None
    else Some(!AsBool(Get(extra[ToolChoiceKey], DisableParallelKey)).value)
  }

  function ReadSystem(system: Option<Json>): Result<seq<Message>, Error> {
    if system.None? then Ok([])
    else if AnthropicText(system.value).Err? then Err(Invalid)
    else Ok([Message(SystemRole, [TextPart(AnthropicText(system.value).value)])])
  }

  const ANTHROPIC_PARAMETERS: set<Field> :=
    {TemperatureKey, TopPKey, TopKKey, PresencePenaltyKey, FrequencyPenaltyKey, SeedKey, StopSequencesKey}

  function FromAnthropic(codec: Codec, r: AnthropicRequest): Result<Ir, Error> {
    var system, messages := ReadSystem(r.system), ReadMessages(codec, r.messages);
    var tools, choice := ReadTools(r.extra), ReadOptionalChoice(r.extra);
    if system.Err? || messages.Err? || tools.Err? || choice.Err? then Err(Invalid)
    else
      Ok(Ir(r.model, r.maxTokens, r.stream == Some(true), system.value + messages.value, tools.value, choice.value,
            ReadParallel(r.extra), None, Restrict(r.extra, ANTHROPIC_PARAMETERS)))
  }
}

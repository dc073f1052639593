/**
 The protocol-neutral request of src/exchange.rs and its parser for OpenAI Chat
 Completions. Error texts are left out; what is rejected is not.
 */
module Exchange {
  import opened Common
  import opened Text
  import opened Json

  datatype Role = SystemRole | DeveloperRole | UserRole | AssistantRole | ToolRole

  datatype Content =
    | TextPart(text: string)
    | ToolCall(id: string, name: string, arguments: string)
    | ToolResult(toolCallId: string, content: string)

  datatype Message = Message(role: Role, content: seq<Content>)

  datatype Tool = Tool(name: string, description: Option<string>, inputSchema: Json, strict: Option<bool>)

  datatype ToolChoice = ChooseNone | ChooseAuto | ChooseRequired | ChooseFunction(name: string)

  datatype Ir = Ir(model: string, maxOutputTokens: Option<U64>, stream: bool, messages: seq<Message>,
                   tools: seq<Tool>, toolChoice: Option<ToolChoice>, parallel: Option<bool>,
                   reasoning: Option<string>, parameters: Object)

  datatype OpenAiRequest = OpenAiRequest(model: string, messages: seq<Json>, maxCompletionTokens: Option<U64>,
                                         maxTokens: Option<U64>, stream: Option<bool>, extra: Object)

  // ---- Text content ------------------------------------------------------------------------------

  function OpenAiBlock(block: Json): Result<string, Error> {
    if !block.JObject? || !(block.fields.Keys <= {TypeKey, TextKey}) || !Has(block, TypeKey, "text")
       || AsString(Get(block, TextKey)).None? then Err(Invalid)
    else Ok(AsString(Get(block, TextKey)).value)
  }

  function OpenAiBlocks(blocks: seq<Json>): Result<string, Error> {
    if blocks == [] then Ok("")
    else
      var before, last := OpenAiBlocks(blocks[..|blocks| - 1]), OpenAiBlock(blocks[|blocks| - 1]);
      if before.Err? || last.Err? then Err(Invalid) else Ok(before.value + last.value)
  }

  function OpenAiText(v: Json): Result<string, Error> {
    if v.JString? then Ok(v.s) else if v.JArray? then OpenAiBlocks(v.items) else Err(Invalid)
  }

  // ---- Messages ----------------------------------------------------------------------------------

  function ParseRole(v: Json): Result<Role, Error> {
    match AsString(Get(v, RoleKey))
    case Some(s) =>
      if s == "system" then Ok(SystemRole)
      else if s == "developer" then Ok(DeveloperRole)
      else if s == "user" then Ok(UserRole)
      else if s == "assistant" then Ok(AssistantRole)
      else if s == "tool" then Ok(ToolRole)
      else Err(Invalid)
    case None => Err(Invalid)
  }

  function AllowedKeys(role: Role): set<Field> {
    match role
    case AssistantRole => {RoleKey, ContentKey, ReasoningContentKey, ToolCallsKey}
    case ToolRole => {RoleKey, ContentKey, ToolCallIdKey}
    case _ => {RoleKey, ContentKey}
  }

  function ParseToolCall(call: Json): Result<Content, Error> {
    if !call.JObject? || !(call.fields.Keys <= {IdKey, TypeKey, FunctionKey}) then Err(Invalid)
    else if Get(call, FunctionKey).None? || !Has(call, TypeKey, "function") then Err(Invalid)
    else
      var function' := Get(call, FunctionKey).value;
      if !function'.JObject? || !(function'.fields.Keys <= {NameKey, ArgumentsKey}) then Err(Invalid)
      else
        var id, name := RequiredString(call, IdKey), RequiredString(function', NameKey);
        var arguments := RequiredString(function', ArgumentsKey);
        if id.Err? || name.Err? || arguments.Err? then Err(Invalid)
        else Ok(ToolCall(id.value, name.value, arguments.value))
  }

  function ParseToolCalls(calls: seq<Json>): Result<seq<Content>, Error> {
    if calls == [] then Ok([])
    else
      var before, last := ParseToolCalls(calls[..|calls| - 1]), ParseToolCall(calls[|calls| - 1]);
      if before.Err? || last.Err? then Err(Invalid) else Ok(before.value + [last.value])
  }

  /** The text or tool result a message starts with. */
  function ParseHead(message: Json, role: Role): Result<seq<Content>, Error> {
    if role == ToolRole then
      var id := AsString(Get(message, ToolCallIdKey));
      var text := if Get(message, ContentKey).Some? then OpenAiText(Get(message, ContentKey).value) else Err(Invalid);
      if id.None? || text.Err? then Err(Invalid) else Ok([ToolResult(id.value, text.value)])
    else if Get(message, ContentKey).None? || Get(message, ContentKey) == Some(JNull) then Ok([])
    else
      var text := OpenAiText(Get(message, ContentKey).value);
      if text.Err? then Err(Invalid) else Ok(if text.value == "" then [] else [TextPart(text.value)])
  }

  /** The tool calls an assistant message adds. */
  function ParseTail(message: Json, role: Role): Result<seq<Content>, Error> {
    if role != AssistantRole || Get(message, ToolCallsKey).None? then Ok([])
    else
      var calls := Get(message, ToolCallsKey).value;
      if calls.JArray? then ParseToolCalls(calls.items) else Err(Invalid)
  }

  predicate ReasoningOk(message: Json) {
    var r := Get(message, ReasoningContentKey);
    r.None? || r.value.JNull? || r.value.JString?
  }

  function ParseOpenAiMessage(message: Json): Result<Message, Error> {
    if !message.JObject? || ParseRole(message).Err? then Err(Invalid)
    else
      var role := ParseRole(message).value;
      if !(message.fields.Keys <= AllowedKeys(role)) || (role == AssistantRole && !ReasoningOk(message)) then Err(Invalid)
      else
        var head, tail := ParseHead(message, role), ParseTail(message, role);
        if head.Err? || tail.Err? then Err(Invalid)
        else if head.value + tail.value == [] && role != AssistantRole then Err(Invalid)
        else Ok(Message(role, head.value + tail.value))
  }

  function ParseOpenAiMessages(messages: seq<Json>): Result<seq<Message>, Error> {
    if messages == [] then Ok([])
    else
      var before, last := ParseOpenAiMessages(messages[..|messages| - 1]), ParseOpenAiMessage(messages[|messages| - 1]);
      if before.Err? || last.Err? then Err(Invalid) else Ok(before.value + [last.value])
  }

  // ---- Tools -------------------------------------------------------------------------------------

  predicate ToolNameChar(c: char) {
    'a' <= c <= 'z' || 'A' <= c <= 'Z' || '0' <= c <= '9' || c == '_' || c == '-'
  }

  predicate ToolNameOk(name: string) {
    0 < |name| <= 64 && forall c :: c in name ==> ToolNameChar(c)
  }

  const DEFAULT_SCHEMA: Json := JObject(map[TypeKey := JString("object"), PropertiesKey := JObject(map[])])

  function GetOr(v: Json, key: Field, default: Json): Json {
    if Get(v, key).Some? then Get(v, key).value else default
  }

  function ParseOpenAiTool(tool: Json): Result<Tool, Error> {
    if !tool.JObject? || !(tool.fields.Keys <= {TypeKey, FunctionKey}) || !Has(tool, TypeKey, "function")
       || Get(tool, FunctionKey).None? then Err(Invalid)
    else
      var f := Get(tool, FunctionKey).value;
      if !f.JObject? || !(f.fields.Keys <= {NameKey, DescriptionKey, ParametersKey, StrictKey}) then Err(Invalid)
      else
        var name, schema := RequiredString(f, NameKey), GetOr(f, ParametersKey, DEFAULT_SCHEMA);
        if name.Err? || !ToolNameOk(name.value) || !schema.JObject? then Err(Invalid)
        else if Get(f, DescriptionKey).Some? && AsString(Get(f, DescriptionKey)).None? then Err(Invalid)
        else if Get(f, StrictKey).Some? && AsBool(Get(f, StrictKey)).None? then Err(Invalid)
        else Ok(Tool(name.value, AsString(Get(f, DescriptionKey)), schema, AsBool(Get(f, StrictKey))))
  }

  predicate Names(tools: seq<Tool>, name: string) {
    exists i :: 0 <= i < |tools| && tools[i].name == name
  }

  function ParseOpenAiToolList(tools: seq<Json>): Result<seq<Tool>, Error> {
    if tools == [] then Ok([])
    else
      var before, last := ParseOpenAiToolList(tools[..|tools| - 1]), ParseOpenAiTool(tools[|tools| - 1]);
      if before.Err? || last.Err? || Names(before.value, last.value.name) then Err(Invalid)
      else Ok(before.value + [last.value])
  }

  function ParseOpenAiTools(extra: Object): Result<seq<Tool>, Error> {
    if ToolsKey !in extra then Ok([])
    else if extra[ToolsKey].JArray? then ParseOpenAiToolList(extra[ToolsKey].items)
    else Err(Invalid)
  }

  function ParseOpenAiChoice(v: Json): Result<ToolChoice, Error> {
    if v.JString? then
      if v.s == "none" then Ok(ChooseNone)
      else if v.s == "auto" then Ok(ChooseAuto)
      else if v.s == "required" then Ok(ChooseRequired)
      else Err(Invalid)
    else if !v.JObject? || !(v.fields.Keys <= {TypeKey, FunctionKey}) || Get(v, FunctionKey).None? then Err(Invalid)
    else
      var f := Get(v, FunctionKey).value;
      if !f.JObject? || !(f.fields.Keys <= {NameKey}) || !Has(v, TypeKey, "function") then Err(Invalid)
      else if RequiredString(f, NameKey).Err? then Err(Invalid)
      else Ok(ChooseFunction(RequiredString(f, NameKey).value))
  }

  // ---- Whole requests -----------------------------------------------------------------------------

  const SUPPORTED_FIELDS: set<Field> :=
    {TemperatureKey, TopPKey, PresencePenaltyKey, FrequencyPenaltyKey, SeedKey, StopKey, ToolsKey, ToolChoiceKey,
     ParallelToolCallsKey, ResponseFormatKey, StreamOptionsKey, StoreKey, CountKey, ReasoningEffortKey}

  const PARAMETER_FIELDS: set<Field> :=
    {TemperatureKey, TopPKey, PresencePenaltyKey, FrequencyPenaltyKey, SeedKey, StopKey, ResponseFormatKey,
     StreamOptionsKey, CountKey}

  predicate OptionalNumber(extra: Object, key: Field) {
    Given(extra, key) ==> extra[key].JInt? || extra[key].JFloat?
  }

  predicate StreamOptionsOk(v: Json) {
    && v.JObject? && v.fields.Keys <= {IncludeUsageKey}
    && (IncludeUsageKey in v.fields ==> v.fields[IncludeUsageKey].JBool?)
  }

  predicate StopOk(v: Json) {
    v.JNull? || v.JString? || (v.JArray? && 1 <= |v.items| <= 4 && forall i :: 0 <= i < |v.items| ==> v.items[i].JString?)
  }

  function MaxTokens(r: OpenAiRequest): Option<U64> {
    if r.maxCompletionTokens.Some? then r.maxCompletionTokens else r.maxTokens
  }

  predicate ShapeOk(r: OpenAiRequest) {
    && !IsBlank(r.model) && r.messages != []
    && (r.maxCompletionTokens.Some? && r.maxTokens.Some? ==> r.maxCompletionTokens == r.maxTokens)
    && MaxTokens(r) != Some(0)
    && r.extra.Keys <= SUPPORTED_FIELDS
    && (Given(r.extra, StoreKey) ==> r.extra[StoreKey] == JBool(false))
    && (CountKey in r.extra ==> r.extra[CountKey] == JInt(1))
    && (StreamOptionsKey in r.extra ==> r.stream == Some(true) && StreamOptionsOk(r.extra[StreamOptionsKey]))
    && (ResponseFormatKey in r.extra ==> r.extra[ResponseFormatKey] == JObject(map[TypeKey := JString("text")]))
    && OptionalNumber(r.extra, TemperatureKey) && OptionalNumber(r.extra, TopPKey)
    && OptionalNumber(r.extra, PresencePenaltyKey) && OptionalNumber(r.extra, FrequencyPenaltyKey)
    && (Given(r.extra, SeedKey) ==> r.extra[SeedKey].JInt?)
    && (StopKey in r.extra ==> StopOk(r.extra[StopKey]))
  }

  function Restrict(fields: Object, keys: set<Field>): Object {
    map k | k in fields && k in keys :: fields[k]
  }

  predicate EffortOk(v: Json) {
    v.JString? && v.s in ["off", "none", "minimal", "low", "medium", "high", "xhigh", "max"]
  }

  predicate ChoiceFits(choice: Option<ToolChoice>, tools: seq<Tool>) {
    && (choice.Some? && choice.value.ChooseFunction? ==> Names(tools, choice.value.name))
    && (choice.Some? && choice.value.ChooseRequired? ==> tools != [])
  }

  function ParseOptionalChoice(extra: Object): Result<Option<ToolChoice>, Error> {
    if ToolChoiceKey !in extra then Ok(None)
    else if ParseOpenAiChoice(extra[ToolChoiceKey]).Err? then Err(Invalid)
    else Ok(Some(ParseOpenAiChoice(extra[ToolChoiceKey]).value))
  }

  function FromOpenAi(r: OpenAiRequest): Result<Ir, Error> {
    var messages, tools := ParseOpenAiMessages(r.messages), ParseOpenAiTools(r.extra);
    var choice := ParseOptionalChoice(r.extra);
    if !ShapeOk(r) || messages.Err? || tools.Err? || choice.Err? || !ChoiceFits(choice.value, tools.value) then
      Err(Invalid)
    else if ParallelToolCallsKey in r.extra && (!r.extra[ParallelToolCallsKey].JBool? || tools.value == []) then
      Err(Invalid)
    else if Given(r.extra, ReasoningEffortKey) && !EffortOk(r.extra[ReasoningEffortKey]) then Err(Invalid)
    else
      Ok(Ir(r.model, MaxTokens(r), r.stream == Some(true), messages.value, tools.value, choice.value,
            if ParallelToolCallsKey in r.extra then Some(r.extra[ParallelToolCallsKey].value) else None,
            if Given(r.extra, ReasoningEffortKey) then Some(r.extra[ReasoningEffortKey].s) else None,
            Restrict(r.extra, PARAMETER_FIELDS)))
  }

  // ---- What the parser guarantees -----------------------------------------------------------------

  predicate ContentOk(role: Role, c: Content) {
    match c
    case TextPart(text) => role != ToolRole && text != ""
    case ToolCall(id, name, arguments) => role == AssistantRole && !IsBlank(id) && !IsBlank(name)
    case ToolResult(_, _) => role == ToolRole
  }

  predicate MessageOk(m: Message) {
    && (m.role != AssistantRole ==> |m.content| == 1)
    && forall i :: 0 <= i < |m.content| ==> ContentOk(m.role, m.content[i])
  }

  ghost predicate WellFormed(ir: Ir) {
    && (forall i :: 0 <= i < |ir.messages| ==> MessageOk(ir.messages[i]))
    && (forall i :: 0 <= i < |ir.tools| ==> !IsBlank(ir.tools[i].name))
    && (ir.toolChoice.Some? && ir.toolChoice.value.ChooseFunction? ==> !IsBlank(ir.toolChoice.value.name))
    && ir.parameters.Keys <= PARAMETER_FIELDS
  }

  lemma {:induction false} ToolCallsOk(calls: seq<Json>)
    requires ParseToolCalls(calls).Ok?
    ensures forall i :: 0 <= i < |ParseToolCalls(calls).value| ==> ContentOk(AssistantRole, ParseToolCalls(calls).value[i])
  {
    if calls != [] {
      ToolCallsOk(calls[..|calls| - 1]);
    }
  }

  lemma HeadOk(message: Json, role: Role)
    requires ParseHead(message, role).Ok?
    ensures |ParseHead(message, role).value| <= 1
    ensures forall i :: 0 <= i < |ParseHead(message, role).value| ==> ContentOk(role, ParseHead(message, role).value[i])
  {
  }

  lemma MessageIsOk(message: Json)
    requires ParseOpenAiMessage(message).Ok?
    ensures MessageOk(ParseOpenAiMessage(message).value)
  {
    hide ParseHead, ParseToolCalls, ContentOk, ParseRole;
    var role := ParseRole(message).value;
    HeadOk(message, role);
    if role == AssistantRole && Get(message, ToolCallsKey).Some? {
      ToolCallsOk(Get(message, ToolCallsKey).value.items);
    }
  }

  lemma {:induction false} MessagesAreOk(messages: seq<Json>)
    requires ParseOpenAiMessages(messages).Ok?
    ensures forall i :: 0 <= i < |ParseOpenAiMessages(messages).value| ==> MessageOk(ParseOpenAiMessages(messages).value[i])
  {
    hide ParseOpenAiMessage, MessageOk;
    if messages != [] {
      MessagesAreOk(messages[..|messages| - 1]);
      MessageIsOk(messages[|messages| - 1]);
    }
  }

  lemma {:induction false} ToolsAreOk(tools: seq<Json>)
    requires ParseOpenAiToolList(tools).Ok?
    ensures forall i :: 0 <= i < |ParseOpenAiToolList(tools).value| ==> !IsBlank(ParseOpenAiToolList(tools).value[i].name)
  {
    if tools != [] {
      ToolsAreOk(tools[..|tools| - 1]);
    }
  }

  /** What the parser accepts is well formed. */
  lemma ParsedIsWellFormed(r: OpenAiRequest)
    requires FromOpenAi(r).Ok?
    ensures WellFormed(FromOpenAi(r).value)
  {
    hide ParseOpenAiMessages, MessageOk, IsBlank, ParseOpenAiToolList, ShapeOk;
    MessagesAreOk(r.messages);
    if ToolsKey in r.extra {
      ToolsAreOk(r.extra[ToolsKey].items);
    }
  }
}

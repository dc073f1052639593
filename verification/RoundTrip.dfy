/**
 Writing an OpenAI request as an Anthropic body and parsing it again: the same turns and
 content come back, tool turns as user turns, with the system text joined up front.
 */
module RoundTrip {
  import opened Common
  import opened Text
  import opened Json
  import opened Exchange
  import opened Anthropic

  // ---- What is expected back -----------------------------------------------------------------------

  /** Tool arguments come back as written by the codec; everything else unchanged. */
  function ExpectedPart(codec: Codec, c: Content): Content {
    if c.ToolCall? && codec.read(c.arguments).Some? then
      ToolCall(c.id, c.name, codec.write(codec.read(c.arguments).value))
    else c
  }

  function ExpectedParts(codec: Codec, content: seq<Content>): (r: seq<Content>)
    ensures |r| == |content| && forall i :: 0 <= i < |r| ==> r[i] == ExpectedPart(codec, content[i])
  {
    seq(|content|, i requires 0 <= i < |content| => ExpectedPart(codec, content[i]))
  }

  function ExpectedRole(role: Role): Role {
    if role == AssistantRole then AssistantRole else UserRole
  }

  function ExpectedMessage(codec: Codec, m: Message): Message {
    Message(ExpectedRole(m.role), ExpectedParts(codec, m.content))
  }

  function ExpectedTurns(codec: Codec, messages: seq<Message>): seq<Message> {
    if messages == [] then []
    else
      var m := messages[|messages| - 1];
      ExpectedTurns(codec, messages[..|messages| - 1]) + if IsSystem(m) then [] else [ExpectedMessage(codec, m)]
  }

  function ExpectedSystem(messages: seq<Message>): seq<Message> {
    if SystemParts(messages) == [] then []
    else [Message(SystemRole, [TextPart(Join(SystemParts(messages), "\n\n"))])]
  }

  // ---- When it succeeds ---------------------------------------------------------------------------------

  predicate PartWritable(codec: Codec, c: Content) {
    c.ToolCall? ==> IsObjectText(codec, c.arguments)
  }

  /** Blank texts and blank result ids are accepted from OpenAI clients but not from
      Anthropic ones. */
  predicate PartReadable(c: Content) {
    match c
    case TextPart(text) => !IsBlank(text)
    case ToolCall(_, _, _) => true
    case ToolResult(id, _) => !IsBlank(id)
  }

  predicate PartsWritable(codec: Codec, content: seq<Content>) {
    forall i :: 0 <= i < |content| ==> PartWritable(codec, content[i])
  }

  predicate PartsReadable(content: seq<Content>) {
    forall i :: 0 <= i < |content| ==> PartReadable(content[i])
  }

  predicate MessageWritable(codec: Codec, m: Message) {
    IsSystem(m) || PartsWritable(codec, m.content)
  }

  predicate MessageReadable(m: Message) {
    IsSystem(m) || PartsReadable(m.content)
  }

  predicate Writable(codec: Codec, messages: seq<Message>) {
    forall i :: 0 <= i < |messages| ==> MessageWritable(codec, messages[i])
  }

  predicate Readable(messages: seq<Message>) {
    forall i :: 0 <= i < |messages| ==> MessageReadable(messages[i])
  }

  // ---- Blocks and messages ---------------------------------------------------------------------------------

  lemma TextBack(codec: Codec, role: Role, text: string)
    ensures ReadBlock(codec, role, TextBlock(text)) == if IsBlank(text) then Err(Invalid) else Ok(Some(TextPart(text)))
  {
  }

  lemma ToolUseBack(codec: Codec, role: Role, id: string, name: string, input: Json)
    requires !IsBlank(id) && !IsBlank(name)
    ensures ReadBlock(codec, role, ToolUseBlock(id, name, input)) == Ok(Some(ToolCall(id, name, codec.write(input))))
  {
  }

  lemma ToolResultBack(codec: Codec, role: Role, id: string, content: string)
    ensures ReadBlock(codec, role, ToolResultBlock(id, content))
            == if IsBlank(id) then Err(Invalid) else Ok(Some(ToolResult(id, content)))
  {
  }

  lemma BlockBack(codec: Codec, role: Role, c: Content)
    requires ContentOk(role, c) && role != SystemRole && role != DeveloperRole
    ensures WriteBlock(codec, role, c).Ok? <==> PartWritable(codec, c)
    ensures WriteBlock(codec, role, c).Ok? ==>
              WriteBlock(codec, role, c).value.Some?
              && ReadBlock(codec, ExpectedRole(role), WriteBlock(codec, role, c).value.value)
                 == if PartReadable(c) then Ok(Some(ExpectedPart(codec, c))) else Err(Invalid)
  {
    hide IsBlank, ReadBlock;
    match c
    case TextPart(text) => TextBack(codec, ExpectedRole(role), text);
    case ToolCall(id, name, arguments) =>
      if IsObjectText(codec, arguments) {
        ToolUseBack(codec, ExpectedRole(role), id, name, codec.read(arguments).value);
      }
    case ToolResult(id, content) => ToolResultBack(codec, ExpectedRole(role), id, content);
  }

  lemma NoParts(codec: Codec, role: Role)
    ensures WriteBlocks(codec, role, []) == Ok([]) && ReadBlocks(codec, ExpectedRole(role), []) == Ok([])
    ensures PartsWritable(codec, []) && PartsReadable([]) && ExpectedParts(codec, []) == []
  {
  }

  /** How everything about a list of parts follows from all but its last part. */
  lemma LastPart(codec: Codec, role: Role, content: seq<Content>)
    requires content != []
    ensures var before, last := content[..|content| - 1], content[|content| - 1];
            && PartsWritable(codec, content) == (PartsWritable(codec, before) && PartWritable(codec, last))
            && PartsReadable(content) == (PartsReadable(before) && PartReadable(last))
            && ExpectedParts(codec, content) == ExpectedParts(codec, before) + [ExpectedPart(codec, last)]
            && WriteBlocks(codec, role, content) ==
                 var w, b := WriteBlocks(codec, role, before), WriteBlock(codec, role, last);
                 if w.Err? || b.Err? then Err(Invalid)
                 else Ok(w.value + if b.value.Some? then [b.value.value] else [])
  {
  }

  lemma ReadAppend(codec: Codec, role: Role, blocks: seq<Json>, block: Json)
    ensures ReadBlocks(codec, role, blocks + [block]) ==
              var before, last := ReadBlocks(codec, role, blocks), ReadBlock(codec, role, block);
              if before.Err? || last.Err? then Err(Invalid)
              else Ok(before.value + if last.value.Some? then [last.value.value] else [])
  {
  }

  lemma {:induction false} BlocksBack(codec: Codec, role: Role, content: seq<Content>)
    requires (forall i :: 0 <= i < |content| ==> ContentOk(role, content[i])) && role != SystemRole && role != DeveloperRole
    ensures WriteBlocks(codec, role, content).Ok? <==> PartsWritable(codec, content)
    ensures WriteBlocks(codec, role, content).Ok? ==>
              ReadBlocks(codec, ExpectedRole(role), WriteBlocks(codec, role, content).value)
              == if PartsReadable(content) then Ok(ExpectedParts(codec, content)) else Err(Invalid)
  {
    hide ContentOk, WriteBlock, WriteBlocks, ReadBlock, ReadBlocks, PartWritable, PartReadable, PartsWritable,
         PartsReadable, ExpectedPart, ExpectedParts, ExpectedRole;
    NoParts(codec, role);
    if content != [] {
      var before, last := content[..|content| - 1], content[|content| - 1];
      BlocksBack(codec, role, before);
      BlockBack(codec, role, last);
      LastPart(codec, role, content);
      if WriteBlocks(codec, role, content).Ok? {
        ReadAppend(codec, ExpectedRole(role), WriteBlocks(codec, role, before).value, WriteBlock(codec, role, last).value.value);
      }
    }
  }

  lemma MessageBack(codec: Codec, m: Message)
    requires MessageOk(m) && !IsSystem(m)
    ensures WriteMessage(codec, m).Ok? <==> MessageWritable(codec, m)
    ensures WriteMessage(codec, m).Ok? ==>
              ReadMessage(codec, WriteMessage(codec, m).value)
              == if MessageReadable(m) then Ok(ExpectedMessage(codec, m)) else Err(Invalid)
  {
    hide ContentOk, WriteBlocks, ReadBlocks, PartsWritable, PartsReadable, ExpectedParts;
    BlocksBack(codec, m.role, m.content);
    assert "assistant" != "user" by { assert |"assistant"| != |"user"|; }
  }

  lemma SystemIsFree(codec: Codec, m: Message)
    requires IsSystem(m)
    ensures MessageWritable(codec, m) && MessageReadable(m)
  {
  }

  lemma MessageAppend(codec: Codec, messages: seq<Json>, message: Json)
    ensures ReadMessages(codec, messages + [message]) ==
              var before, last := ReadMessages(codec, messages), ReadMessage(codec, message);
              if before.Err? || last.Err? then Err(Invalid) else Ok(before.value + [last.value])
  {
  }

  lemma {:induction false} MessagesBack(codec: Codec, messages: seq<Message>)
    requires forall i :: 0 <= i < |messages| ==> MessageOk(messages[i])
    ensures WriteMessages(codec, messages).Ok? <==> Writable(codec, messages)
    ensures WriteMessages(codec, messages).Ok? ==>
              ReadMessages(codec, WriteMessages(codec, messages).value)
              == if Readable(messages) then Ok(ExpectedTurns(codec, messages)) else Err(Invalid)
  {
    hide MessageOk, WriteMessage, ReadMessage, MessageWritable, MessageReadable, ExpectedMessage, IsSystem;
    if messages != [] {
      var before, last := messages[..|messages| - 1], messages[|messages| - 1];
      MessagesBack(codec, before);
      assert messages == before + [last];
      if IsSystem(last) {
        SystemIsFree(codec, last);
        assert ExpectedTurns(codec, before) + [] == ExpectedTurns(codec, before);
      } else {
        MessageBack(codec, last);
        if WriteMessages(codec, messages).Ok? {
          MessageAppend(codec, WriteMessages(codec, before).value, WriteMessage(codec, last).value);
        }
      }
    }
  }

  // ---- Tools and choices ----------------------------------------------------------------------------------------

  function ExpectedTools(tools: seq<Tool>): (r: seq<Tool>)
    ensures |r| == |tools| && forall i :: 0 <= i < |r| ==> r[i] == tools[i].(strict := None)
  {
    seq(|tools|, i requires 0 <= i < |tools| => tools[i].(strict := None))
  }

  lemma ToolBack(t: Tool)
    requires !IsBlank(t.name)
    ensures ReadTool(WriteTool(t)) == Ok(t.(strict := None))
  {
  }

  lemma {:induction false} ToolsBack(tools: seq<Tool>)
    requires forall i :: 0 <= i < |tools| ==> !IsBlank(tools[i].name)
    ensures ReadToolList(WriteTools(tools)) == Ok(ExpectedTools(tools))
  {
    hide IsBlank, ReadTool, WriteTool;
    if tools != [] {
      var before, last := tools[..|tools| - 1], tools[|tools| - 1];
      ToolsBack(before);
      ToolBack(last);
      assert WriteTools(tools)[..|tools| - 1] == WriteTools(before);
      assert ExpectedTools(tools) == ExpectedTools(before) + [last.(strict := None)];
    }
  }

  lemma ChoiceBack(choice: ToolChoice, parallel: Option<bool>)
    requires choice.ChooseFunction? ==> !IsBlank(choice.name)
    ensures var v := WithParallel(ChoiceFields(choice), parallel);
            ReadChoice(v) == Ok(choice)
            && AsBool(Get(v, DisableParallelKey)) == if parallel.Some? then Some(!parallel.value) else None
  {
  }

  // ---- Whole requests -----------------------------------------------------------------------------------------------

  function ExpectedChoice(ir: Ir): Option<ToolChoice> {
    if ToolsDisabled(ir) then None
    else if ir.toolChoice.Some? then ir.toolChoice
    else if ir.parallel.Some? then Some(ChooseAuto)
    else None
  }

  /** Temperature and top-p as given, and the stop sequences as a list. */
  function ExpectedParameters(ir: Ir): Object {
    var stop := Parameter(ir.parameters, StopKey);
    Put(Put(Put(map[], TemperatureKey, Parameter(ir.parameters, TemperatureKey)),
            TopPKey, Parameter(ir.parameters, TopPKey)),
        StopSequencesKey, if stop.Some? then Some(StopSequences(stop.value)) else None)
  }

  function Expected(codec: Codec, ir: Ir, model: string, stream: bool): Ir {
    Ir(model,
       Some(TokenLimit(ir)),
       stream,
       ExpectedSystem(ir.messages) + ExpectedTurns(codec, ir.messages),
       if ToolsDisabled(ir) then [] else ExpectedTools(ir.tools),
       ExpectedChoice(ir),
       if ToolsDisabled(ir) then None else ir.parallel,
       None,
       ExpectedParameters(ir))
  }

  lemma ExtraFields(ir: Ir)
    ensures WriteExtra(ir).Keys <= {TemperatureKey, TopPKey, TopKKey, StopSequencesKey, ToolsKey, ToolChoiceKey}
    ensures ToolsKey in WriteExtra(ir) <==> ir.tools != [] && !ToolsDisabled(ir)
    ensures ToolsKey in WriteExtra(ir) ==> WriteExtra(ir)[ToolsKey] == JArray(WriteTools(ir.tools))
    ensures ToolChoiceKey in WriteExtra(ir) <==> WriteChoice(ir).Some?
    ensures ToolChoiceKey in WriteExtra(ir) ==> WriteExtra(ir)[ToolChoiceKey] == WriteChoice(ir).value
  {
  }

  lemma ParametersBack(ir: Ir)
    requires ir.parameters.Keys <= PARAMETER_FIELDS
    ensures Restrict(WriteExtra(ir), ANTHROPIC_PARAMETERS) == ExpectedParameters(ir)
  {
    hide WriteTools, WriteChoice, StopSequences;
    assert TopKKey !in ir.parameters;
  }

  lemma ExtraBack(ir: Ir)
    requires WellFormed(ir)
    ensures ReadTools(WriteExtra(ir)) == Ok(if ToolsDisabled(ir) then [] else ExpectedTools(ir.tools))
    ensures ReadOptionalChoice(WriteExtra(ir)) == Ok(ExpectedChoice(ir))
    ensures ReadParallel(WriteExtra(ir)) == if ToolsDisabled(ir) then None else ir.parallel
  {
    hide WriteExtra, ReadToolList, WriteTools, ReadChoice, WithParallel, ChoiceFields, MessageOk, IsBlank;
    ExtraFields(ir);
    ToolsBack(ir.tools);
    if WriteChoice(ir).Some? {
      ChoiceBack(if ir.toolChoice.Some? then ir.toolChoice.value else ChooseAuto, ir.parallel);
    }
  }

  lemma BodyBack(model: string, tokens: U64, messages: seq<Json>, system: Option<Json>, stream: bool, extra: Object)
    requires extra.Keys !! NAMED_FIELDS && system != Some(JNull)
    ensures ReadRequest(Body(model, tokens, messages, system, stream, extra))
            == Ok(AnthropicRequest(model, Some(tokens), messages, system, Some(stream), extra))
  {
    var f := Body(model, tokens, messages, system, stream, extra).fields;
    assert f[ModelKey] == JString(model) && f[MaxTokensKey] == JInt(tokens) && f[MessagesKey] == JArray(messages);
    assert f[StreamKey] == JBool(stream) && (SystemKey in f <==> system.Some?);
    assert (map k | k in f && k !in NAMED_FIELDS :: f[k]) == extra;
  }

  lemma ExtraIsApart(ir: Ir)
    ensures WriteExtra(ir).Keys !! NAMED_FIELDS
  {
    hide WriteExtra;
    ExtraFields(ir);
  }

  lemma SystemBack(messages: seq<Message>)
    ensures ReadSystem(SystemText(messages)) == Ok(ExpectedSystem(messages))
  {
  }

  /** Parsing the parts of the body gives the parts of the expected request. */
  lemma PartsBack(codec: Codec, ir: Ir, model: string, stream: bool)
    requires WellFormed(ir) && WriteMessages(codec, ir.messages).Ok?
    ensures FromAnthropic(codec, AnthropicRequest(model, Some(TokenLimit(ir)), WriteMessages(codec, ir.messages).value,
                                                  SystemText(ir.messages), Some(stream), WriteExtra(ir)))
            == if Readable(ir.messages) then Ok(Expected(codec, ir, model, stream)) else Err(Invalid)
  {
    hide ReadMessages, WriteMessages, SystemText, ReadSystem, ExpectedSystem, ExpectedTurns, ReadTools, ReadOptionalChoice,
         ReadParallel, WriteExtra, ExpectedTools, ExpectedChoice, ExpectedParameters, Restrict, Readable, TokenLimit;
    MessagesBack(codec, ir.messages);
    ExtraBack(ir);
    ParametersBack(ir);
    SystemBack(ir.messages);
  }

  lemma WellFormedRoundTrips(codec: Codec, ir: Ir, model: string, stream: bool)
    requires WellFormed(ir)
    ensures var body := ToAnthropic(codec, ir, model, stream);
            && (body.Ok? <==> Writable(codec, ir.messages))
            && (body.Ok? ==>
                  && ReadRequest(body.value).Ok?
                  && FromAnthropic(codec, ReadRequest(body.value).value)
                     == if Readable(ir.messages) then Ok(Expected(codec, ir, model, stream)) else Err(Invalid))
  {
    MessagesBack(codec, ir.messages);
    hide WriteMessages, ReadMessages, SystemParts, Join, Body, WriteExtra, ReadRequest, FromAnthropic, Expected,
         WellFormed, Readable, Writable, ExpectedTurns;
    if WriteMessages(codec, ir.messages).Ok? {
      ExtraIsApart(ir);
      BodyBack(model, TokenLimit(ir), WriteMessages(codec, ir.messages).value, SystemText(ir.messages), stream, WriteExtra(ir));
      PartsBack(codec, ir, model, stream);
    }
  }

  /** Writing succeeds exactly if all tool arguments are JSON objects; reading back succeeds
      exactly if moreover no text and no result id is blank, and gives what is expected. */
  lemma RoundTrips(codec: Codec, r: OpenAiRequest, model: string, stream: bool)
    requires FromOpenAi(r).Ok?
    ensures var ir := FromOpenAi(r).value;
            var body := ToAnthropic(codec, ir, model, stream);
            && (body.Ok? <==> Writable(codec, ir.messages))
            && (body.Ok? ==>
                  && ReadRequest(body.value).Ok?
                  && FromAnthropic(codec, ReadRequest(body.value).value)
                     == if Readable(ir.messages) then Ok(Expected(codec, ir, model, stream)) else Err(Invalid))
  {
    ParsedIsWellFormed(r);
    hide FromOpenAi, WellFormed;
    WellFormedRoundTrips(codec, FromOpenAi(r).value, model, stream);
  }

  /** Arguments come back as text for the same value. */
  lemma ArgumentsMeanTheSame(codec: Codec, c: Content)
    requires codec.Valid() && c.ToolCall? && IsObjectText(codec, c.arguments)
    ensures codec.read(ExpectedPart(codec, c).arguments) == codec.read(c.arguments)
  {
  }

  // ---- Requests that pass the fidelity check ---------------------------------------------------------------------

  /** The position of the first turn of the conversation, or the number of messages. */
  function FirstTurn(messages: seq<Message>): (n: nat)
    ensures n <= |messages| && (forall i :: 0 <= i < n ==> IsSystem(messages[i]))
    ensures n < |messages| ==> !IsSystem(messages[n])
    decreases messages
  {
    if messages == [] || !IsSystem(messages[0]) then 0 else 1 + FirstTurn(messages[1..])
  }

  /** `validate_openai_to_anthropic_fidelity`. */
  ghost predicate FidelityOk(r: OpenAiRequest, ir: Ir) {
    && (forall i :: 0 <= i < |r.messages| ==>
          Get(r.messages[i], ReasoningContentKey).None? || Get(r.messages[i], ReasoningContentKey).value == JNull)
    && !Given(ir.parameters, PresencePenaltyKey) && !Given(ir.parameters, FrequencyPenaltyKey)
    && !Given(ir.parameters, SeedKey)
    && (ResponseFormatKey in ir.parameters ==> Has(ir.parameters[ResponseFormatKey], TypeKey, "text"))
    && (forall i :: 0 <= i < |ir.tools| ==> ir.tools[i].strict != Some(true))
    && (forall i :: FirstTurn(ir.messages) <= i < |ir.messages| ==> !IsSystem(ir.messages[i]))
  }

  lemma {:induction false} TurnsInOrder(codec: Codec, messages: seq<Message>, n: nat)
    requires n <= |messages|
    requires forall i :: 0 <= i < n ==> IsSystem(messages[i])
    requires forall i :: n <= i < |messages| ==> !IsSystem(messages[i])
    ensures |ExpectedTurns(codec, messages)| == |messages| - n
    ensures forall i :: n <= i < |messages| ==> ExpectedTurns(codec, messages)[i - n] == ExpectedMessage(codec, messages[i])
    decreases |messages|
  {
    hide ExpectedMessage;
    if messages != [] {
      var k := if n == |messages| then n - 1 else n;
      TurnsInOrder(codec, messages[..|messages| - 1], k);
    }
  }

  lemma OneText(m: Message)
    requires MessageOk(m) && IsSystem(m)
    ensures |TextsOf(m.content)| == 1 && m.content == [TextPart(TextsOf(m.content)[0])]
  {
  }

  lemma {:induction false} SystemInOrder(messages: seq<Message>, n: nat)
    requires n <= |messages| && forall i :: 0 <= i < |messages| ==> MessageOk(messages[i])
    requires forall i :: 0 <= i < n ==> IsSystem(messages[i])
    requires forall i :: n <= i < |messages| ==> !IsSystem(messages[i])
    ensures |SystemParts(messages)| == n
    ensures forall i :: 0 <= i < n ==> messages[i].content == [TextPart(SystemParts(messages)[i])]
    decreases |messages|
  {
    if messages != [] {
      var before, last := messages[..|messages| - 1], messages[|messages| - 1];
      var k := if n == |messages| then n - 1 else n;
      SystemInOrder(before, k);
      if IsSystem(last) {
        OneText(last);
      }
    }
  }

  /** The turns after the leading system messages come back one for one and in order, behind
      one system message with the leading texts joined. */
  ghost predicate SameTurns(codec: Codec, messages: seq<Message>, back: seq<Message>) {
    var n, parts := FirstTurn(messages), SystemParts(messages);
    var s := if n == 0 then 0 else 1;
    && |back| == s + (|messages| - n) && |parts| == n
    && (forall i :: 0 <= i < n ==> messages[i].content == [TextPart(parts[i])])
    && (s == 1 ==> back[0] == Message(SystemRole, [TextPart(Join(parts, "\n\n"))]))
    && (forall i :: n <= i < |messages| ==> back[s + (i - n)] == ExpectedMessage(codec, messages[i]))
  }

  lemma TurnsComeBack(codec: Codec, messages: seq<Message>)
    requires forall i :: 0 <= i < |messages| ==> MessageOk(messages[i])
    requires forall i :: FirstTurn(messages) <= i < |messages| ==> !IsSystem(messages[i])
    ensures SameTurns(codec, messages, ExpectedSystem(messages) + ExpectedTurns(codec, messages))
  {
    hide MessageOk, ExpectedTurns, SystemParts, ExpectedMessage, Join, FirstTurn, IsSystem;
    TurnsInOrder(codec, messages, FirstTurn(messages));
    SystemInOrder(messages, FirstTurn(messages));
  }

  ghost predicate SameTools(ir: Ir, back: Ir) {
    && back.parallel == ir.parallel && |back.tools| == |ir.tools|
    && forall i :: 0 <= i < |ir.tools| ==> back.tools[i] == ir.tools[i].(strict := None)
  }

  /** For an accepted request that passes the fidelity check and is readable again, the turns
      come back, and unless tools are disabled so do the tools and the parallel flag. */
  lemma FaithfulRoundTrip(codec: Codec, r: OpenAiRequest, model: string, stream: bool)
    requires FromOpenAi(r).Ok? && FidelityOk(r, FromOpenAi(r).value)
    requires Writable(codec, FromOpenAi(r).value.messages) && Readable(FromOpenAi(r).value.messages)
    ensures var ir := FromOpenAi(r).value;
            var body := ToAnthropic(codec, ir, model, stream);
            && body.Ok? && ReadRequest(body.value).Ok?
            && var back := FromAnthropic(codec, ReadRequest(body.value).value);
            && back.Ok? && SameTurns(codec, ir.messages, back.value.messages)
            && (!ToolsDisabled(ir) ==> SameTools(ir, back.value))
  {
    hide FromOpenAi, ToAnthropic, ReadRequest, FromAnthropic, ExpectedSystem, ExpectedTurns, SameTurns, MessageOk, IsBlank,
         ExpectedChoice, ExpectedParameters, Writable, Readable, FirstTurn, IsSystem, TokenLimit;
    ParsedIsWellFormed(r);
    RoundTrips(codec, r, model, stream);
    TurnsComeBack(codec, FromOpenAi(r).value.messages);
  }
}

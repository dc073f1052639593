/** The parsers and the writer as the source runs them: loops that push into local lists and
    return at the first error. */
module ExchangeLoops {
  import opened Common
  import opened Text
  import opened Json
  import opened Exchange
  import opened Anthropic

  // ---- An error in a prefix is an error of the whole ---------------------------------------------

  lemma {:induction false} OpenAiBlocksFail(blocks: seq<Json>, n: nat)
    requires n <= |blocks| && OpenAiBlocks(blocks[..n]).Err?
    ensures OpenAiBlocks(blocks) == Err(Invalid)
    decreases |blocks|
  {
    hide OpenAiBlock;
    if n < |blocks| {
      assert blocks[..|blocks| - 1][..n] == blocks[..n];
      OpenAiBlocksFail(blocks[..|blocks| - 1], n);
    } else {
      assert blocks[..n] == blocks;
    }
  }

  lemma {:induction false} ToolCallsFail(calls: seq<Json>, n: nat)
    requires n <= |calls| && ParseToolCalls(calls[..n]).Err?
    ensures ParseToolCalls(calls) == Err(Invalid)
    decreases |calls|
  {
    hide ParseToolCall;
    if n < |calls| {
      assert calls[..|calls| - 1][..n] == calls[..n];
      ToolCallsFail(calls[..|calls| - 1], n);
    } else {
      assert calls[..n] == calls;
    }
  }

  lemma {:induction false} TextsFail(blocks: seq<Json>, n: nat)
    requires n <= |blocks| && AnthropicTexts(blocks[..n]).Err?
    ensures AnthropicTexts(blocks) == Err(Invalid)
    decreases |blocks|
  {
    if n < |blocks| {
      assert blocks[..|blocks| - 1][..n] == blocks[..n];
      TextsFail(blocks[..|blocks| - 1], n);
    } else {
      assert blocks[..n] == blocks;
    }
  }

  lemma {:induction false} ReadBlocksFail(codec: Codec, role: Role, blocks: seq<Json>, n: nat)
    requires n <= |blocks| && ReadBlocks(codec, role, blocks[..n]).Err?
    ensures ReadBlocks(codec, role, blocks) == Err(Invalid)
    decreases |blocks|
  {
    hide ReadBlock;
    if n < |blocks| {
      assert blocks[..|blocks| - 1][..n] == blocks[..n];
      ReadBlocksFail(codec, role, blocks[..|blocks| - 1], n);
    } else {
      assert blocks[..n] == blocks;
    }
  }

  lemma {:induction false} WriteBlocksFail(codec: Codec, role: Role, content: seq<Content>, n: nat)
    requires n <= |content| && WriteBlocks(codec, role, content[..n]).Err?
    ensures WriteBlocks(codec, role, content) == Err(Invalid)
    decreases |content|
  {
    hide WriteBlock;
    if n < |content| {
      assert content[..|content| - 1][..n] == content[..n];
      WriteBlocksFail(codec, role, content[..|content| - 1], n);
    } else {
      assert content[..n] == content;
    }
  }

  lemma {:induction false} WriteMessagesFail(codec: Codec, messages: seq<Message>, n: nat)
    requires n <= |messages| && WriteMessages(codec, messages[..n]).Err?
    ensures WriteMessages(codec, messages) == Err(Invalid)
    decreases |messages|
  {
    hide WriteMessage;
    if n < |messages| {
      assert messages[..|messages| - 1][..n] == messages[..n];
      WriteMessagesFail(codec, messages[..|messages| - 1], n);
    } else {
      assert messages[..n] == messages;
    }
  }

  // ---- OpenAI ---------------------------------------------------------------------------------------

  method OpenAiTextContent(v: Json) returns (r: Result<string, Error>)
    ensures r == OpenAiText(v)
  {
    if v.JString? { return Ok(v.s); }
    if !v.JArray? { return Err(Invalid); }
    hide OpenAiBlock;
    var text := "";
    for i := 0 to |v.items|
      invariant OpenAiBlocks(v.items[..i]) == Ok(text)
    {
      assert v.items[..i + 1][..i] == v.items[..i];
      var block := OpenAiBlock(v.items[i]);
      if block.Err? {
        OpenAiBlocksFail(v.items, i + 1);
        return Err(Invalid);
      }
      text := text + block.value;
    }
    assert v.items[..|v.items|] == v.items;
    return Ok(text);
  }

  method ToolCallContent(calls: seq<Json>) returns (r: Result<seq<Content>, Error>)
    ensures r == ParseToolCalls(calls)
  {
    hide ParseToolCall;
    var content: seq<Content> := [];
    for i := 0 to |calls|
      invariant ParseToolCalls(calls[..i]) == Ok(content)
    {
      assert calls[..i + 1][..i] == calls[..i];
      var call := ParseToolCall(calls[i]);
      if call.Err? {
        ToolCallsFail(calls, i + 1);
        return Err(Invalid);
      }
      content := content + [call.value];
    }
    assert calls[..|calls|] == calls;
    return Ok(content);
  }

  lemma NullIsNoText()
    ensures OpenAiText(JNull).Err?
  {
  }

  method OpenAiMessage(message: Json) returns (r: Result<Message, Error>)
    ensures r == ParseOpenAiMessage(message)
  {
    hide OpenAiText, ParseToolCalls, ParseRole, AllowedKeys;
    if !message.JObject? { return Err(Invalid); }
    var role := ParseRole(message);
    if role.Err? || !(message.fields.Keys <= AllowedKeys(role.value)) { return Err(Invalid); }
    if role.value == AssistantRole && !ReasoningOk(message) { return Err(Invalid); }
    var content: seq<Content> := [];
    var value := GetOr(message, ContentKey, JNull);
    if role.value == ToolRole {
      var id := AsString(Get(message, ToolCallIdKey));
      if id.None? { return Err(Invalid); }
      var text := OpenAiTextContent(value);
      NullIsNoText();
      if text.Err? { return Err(Invalid); }
      content := [ToolResult(id.value, text.value)];
    } else if !value.JNull? {
      var text := OpenAiTextContent(value);
      if text.Err? { return Err(Invalid); }
      if text.value != "" {
        content := [TextPart(text.value)];
      }
    }
    assert ParseHead(message, role.value) == Ok(content);
    if role.value == AssistantRole && Get(message, ToolCallsKey).Some? {
      var calls := Get(message, ToolCallsKey).value;
      if !calls.JArray? { return Err(Invalid); }
      var tail := ToolCallContent(calls.items);
      if tail.Err? { return Err(Invalid); }
      content := content + tail.value;
    } else {
      assert content + [] == content;
    }
    if content == [] && role.value != AssistantRole { return Err(Invalid); }
    return Ok(Message(role.value, content));
  }

  // ---- Anthropic --------------------------------------------------------------------------------------

  method TextOf(v: Json) returns (r: Result<string, Error>)
    ensures r == AnthropicText(v)
    decreases v
  {
    if v.JString? { return Ok(v.s); }
    if !v.JArray? { return Err(Invalid); }
    var text := "";
    for i := 0 to |v.items|
      invariant AnthropicTexts(v.items[..i]) == Ok(text)
    {
      assert v.items[..i + 1][..i] == v.items[..i];
      var block := v.items[i];
      var part: Result<string, Error> := Err(Invalid);
      if Has(block, TypeKey, "text") {
        part := Ok(if AsString(Get(block, TextKey)).Some? then AsString(Get(block, TextKey)).value else "");
      } else if Has(block, TypeKey, "tool_result") && Get(block, ContentKey).Some? {
        part := TextOf(Get(block, ContentKey).value);
      }
      if part.Err? {
        TextsFail(v.items, i + 1);
        return Err(Invalid);
      }
      text := text + part.value;
    }
    assert v.items[..|v.items|] == v.items;
    return Ok(text);
  }

  method AnthropicMessage(codec: Codec, message: Json) returns (r: Result<Message, Error>)
    ensures r == ReadMessage(codec, message)
  {
    hide ReadBlock;
    var kind := AsString(Get(message, RoleKey));
    if kind != Some("user") && kind != Some("assistant") { return Err(Invalid); }
    var role := if kind == Some("user") then UserRole else AssistantRole;
    var v := GetOr(message, ContentKey, JNull);
    if v.JString? { return Ok(Message(role, [TextPart(v.s)])); }
    if !v.JArray? { return Err(Invalid); }
    var content: seq<Content> := [];
    for i := 0 to |v.items|
      invariant ReadBlocks(codec, role, v.items[..i]) == Ok(content)
    {
      assert v.items[..i + 1][..i] == v.items[..i];
      var part := ReadBlock(codec, role, v.items[i]);
      if part.Err? {
        ReadBlocksFail(codec, role, v.items, i + 1);
        return Err(Invalid);
      }
      content := content + if part.value.Some? then [part.value.value] else [];
    }
    assert v.items[..|v.items|] == v.items;
    return Ok(Message(role, content));
  }

  method Blocks(codec: Codec, role: Role, content: seq<Content>) returns (r: Result<seq<Json>, Error>)
    ensures r == WriteBlocks(codec, role, content)
  {
    hide WriteBlock;
    var blocks: seq<Json> := [];
    for i := 0 to |content|
      invariant WriteBlocks(codec, role, content[..i]) == Ok(blocks)
    {
      assert content[..i + 1][..i] == content[..i];
      var block := WriteBlock(codec, role, content[i]);
      if block.Err? {
        WriteBlocksFail(codec, role, content, i + 1);
        return Err(Invalid);
      }
      blocks := blocks + if block.value.Some? then [block.value.value] else [];
    }
    assert content[..|content|] == content;
    return Ok(blocks);
  }

  /** One pass over the messages fills the system parts and the conversation. */
  method AnthropicBody(codec: Codec, ir: Ir, model: string, stream: bool) returns (r: Result<Json, Error>)
    ensures r == ToAnthropic(codec, ir, model, stream)
  {
    hide WriteBlocks, TextsOf, WriteExtra, Body, Join, IsSystem;
    var parts: seq<string>, messages: seq<Json> := [], [];
    for i := 0 to |ir.messages|
      invariant SystemParts(ir.messages[..i]) == parts
      invariant WriteMessages(codec, ir.messages[..i]) == Ok(messages)
    {
      assert ir.messages[..i + 1][..i] == ir.messages[..i];
      var m := ir.messages[i];
      if IsSystem(m) {
        parts := parts + TextsOf(m.content);
      } else {
        var blocks := Blocks(codec, m.role, m.content);
        if blocks.Err? {
          WriteMessagesFail(codec, ir.messages, i + 1);
          return Err(Invalid);
        }
        messages := messages + [JObject(map[RoleKey := JString(if m.role == AssistantRole then "assistant" else "user"),
                                            ContentKey := JArray(blocks.value)])];
      }
    }
    assert ir.messages[..|ir.messages|] == ir.messages;
    var system := if parts == [] then None else Some(JString(Join(parts, "\n\n")));
    return Ok(Body(model, TokenLimit(ir), messages, system, stream, WriteExtra(ir)));
  }
}

/**
 What a provider reads of an encoded request. The request is read with the gateway's own client decoder, and the
 result is stated block by block, without any JSON.
 */
module RequestRoundTrip {
  import opened Collections
  import opened Protocols
  import opened JsonValues
  import opened ContentBlocks
  import opened ResponseCodec
  import opened ThinkingPayload
  import opened ThinkingPipeline
  import opened RequestDecoding
  import K = JsonKeys

  // ----- what is read --------------------------------------------------------------------

  /** What becomes of a thinking block. */
  function ReadThinking(protocol: Protocol, handling: Handling, b: Block): seq<Block>
    requires IsThinking(b)
  {
    match handling
    case Remove => []
    case Override(text) => [Text(text)]
    case Preserve => if protocol == Protocol.Messages then [b] else if b.Thinking? then [Text(b.thinking)] else []
  }

  function NonEmpty(text: string): seq<Block> {
    if text == "" then [] else [Text(text)]
  }

  /** Arguments that are a JSON text are read as the JSON they hold. */
  function Reread(s: Serde, arguments: Json): Json {
    if arguments.Str? then FromTextOr(s, arguments.s, arguments) else arguments
  }

  /** The texts of a tool result; a result without any text is one empty text. */
  function ResultTexts(content: seq<Block>): seq<Block> {
    if TextOf(content) == "" then [Text("")] else TextBlocks(TextsOf(content))
  }

  function TextBlocks(texts: seq<string>): seq<Block> {
    if texts == [] then [] else [Text(texts[0])] + TextBlocks(texts[1..])
  }

  /** What one block is read as inside the content of its message. */
  function ReadBlock(s: Serde, protocol: Protocol, handling: Handling, role: Role, b: Block): seq<Block> {
    if IsThinking(b) then ReadThinking(protocol, handling, b)
    else
      match protocol
      case ChatCompletions =>
        if b.ToolCall? || (b.Reasoning? && role == Assistant) then []
        else NonEmpty(if b.ToolResult? then Joined(TextsOf(b.content)) else b.text)
      case Responses =>
        if b.ToolCall? || b.ToolResult? || (b.Reasoning? && role == Assistant) then [] else [Text(b.text)]
      case Messages =>
        if b.ToolCall? then [ToolCall(b.id, b.name, Reread(s, b.arguments))]
        else if b.ToolResult? then [ToolResult(b.callId, ResultTexts(b.content))]
        else NonEmpty(b.text)
  }

  function ReadBlocks(s: Serde, protocol: Protocol, handling: Handling, role: Role, blocks: seq<Block>): seq<Block> {
    if blocks == [] then []
    else ReadBlock(s, protocol, handling, role, blocks[0]) + ReadBlocks(s, protocol, handling, role, blocks[1..])
  }

  // ----- parts ---------------------------------------------------------------------------

  lemma PlainPartReads(s: Serde, protocol: Protocol, assistant: bool, text: string)
    ensures ParsePart(s, PlainPart(protocol, assistant, text)) == Ok(Text(text))
  {
  }

  lemma {:induction false} TextPartsRead(s: Serde, texts: seq<string>)
    ensures ParseParts(s, TextParts(texts)) == Ok(TextBlocks(texts))
  {
    if texts == [] {
    } else {
      TextPartsRead(s, texts[1..]);
      PartsFirst(s, TextPart(texts[0]), TextParts(texts[1..]), Text(texts[0]), TextBlocks(texts[1..]));
    }
  }

  lemma PartsFirst(s: Serde, part: Json, parts: seq<Json>, first: Block, rest: seq<Block>)
    requires ParsePart(s, part) == Ok(first) && ParseParts(s, parts) == Ok(rest)
    ensures ParseParts(s, [part] + parts) == Ok([first] + rest)
  {
    assert ([part] + parts)[1..] == parts;
  }

  lemma {:induction false} AnyTextIff(content: seq<Block>)
    ensures AnyText(TextParts(TextsOf(content))) <==> TextOf(content) != ""
  {
    if content == [] {
    } else {
      AnyTextIff(content[1..]);
      if content[0].Text? {
        AnyTextFirst(content[0].text, TextsOf(content[1..]));
      } else {
        assert "" + TextOf(content[1..]) == TextOf(content[1..]);
      }
    }
  }

  lemma AnyTextFirst(text: string, texts: seq<string>)
    ensures AnyText(TextParts([text] + texts)) <==> text != "" || AnyText(TextParts(texts))
  {
    assert ([text] + texts)[1..] == texts;
    var all, rest := TextParts([text] + texts), TextParts(texts);
    assert all == [TextPart(text)] + rest;
    assert EmptyTextPart(TextPart(text)) <==> text == "";
    if text != "" {
      assert !EmptyTextPart(all[0]);
    }
    if AnyText(rest) {
      var i :| 0 <= i < |rest| && !EmptyTextPart(rest[i]);
      assert !EmptyTextPart(all[i + 1]);
    }
    if AnyText(all) {
      var i :| 0 <= i < |all| && !EmptyTextPart(all[i]);
      assert i > 0 ==> !EmptyTextPart(rest[i - 1]);
    }
  }

  lemma ToolResultReads(s: Serde, b: Block)
    requires b.ToolResult?
    ensures ParsePart(s, ToAnthropic(b)) == Ok(ToolResult(b.callId, ResultTexts(b.content)))
  {
    var part := ToAnthropic(b);
    var parts := TextParts(TextsOf(b.content));
    assert AsStr(Get(part, K.Type)) == Some(KIND_TOOL_RESULT) && Get(part, K.ToolUseId) == Some(Str(b.callId));
    assert KIND_TOOL_RESULT[0] != KIND_REDACTED[0] && KIND_TOOL_RESULT[0] != "input_text"[0] && KIND_TOOL_RESULT[0] != "output_text"[0];
    AnyTextIff(b.content);
    TextPartsRead(s, TextsOf(b.content));
    assert Get(part, K.Content) == Some(if TextOf(b.content) != "" then Arr(parts) else Str(""));
  }

  lemma ToolCallReads(s: Serde, b: Block)
    requires b.ToolCall?
    ensures ParsePart(s, ToAnthropic(b)) == Ok(ToolCall(b.id, b.name, Reread(s, b.arguments)))
  {
    KindsDiffer();
    var part := ToAnthropic(b);
    assert AsStr(Get(part, K.Type)) == Some(KIND_TOOL_USE) && Get(part, K.Id) == Some(Str(b.id));
    assert Get(part, K.Name) == Some(Str(b.name)) && Get(part, K.Input) == Some(b.arguments);
  }

  /** The extra fields a preserved thinking block needs to come back as itself. */
  predicate Returnable(protocol: Protocol, handling: Handling, b: Block) {
    protocol == Protocol.Messages && handling == Preserve ==> CleanExtra(b)
  }

  predicate AllReturnable(protocol: Protocol, handling: Handling, blocks: seq<Block>) {
    forall i :: 0 <= i < |blocks| ==> Returnable(protocol, handling, blocks[i])
  }

  lemma ThinkingReads(s: Serde, protocol: Protocol, handling: Handling, assistant: bool, b: Block)
    requires IsThinking(b) && Returnable(protocol, handling, b)
    ensures var part := Handled(protocol, handling, assistant, b);
      var read := ReadThinking(protocol, handling, b);
      if part.None? then read == [] else |read| == 1 && ParsePart(s, part.value) == Ok(read[0])
  {
    match handling
    case Remove =>
    case Override(text) => PlainPartReads(s, protocol, assistant, text);
    case Preserve =>
      if protocol == Protocol.Messages {
        PartParsesBack(s, b);
      } else if b.Thinking? {
        PlainPartReads(s, protocol, assistant, b.thinking);
      }
  }

  /** A block becomes no part and is not read, or one part that is read as one block. */
  lemma BlockReads(s: Serde, protocol: Protocol, handling: Handling, role: Role, assistant: bool, b: Block)
    requires Returnable(protocol, handling, b) && (protocol != Protocol.Messages ==> !(b.Reasoning? && role == Assistant))
    ensures var part := DirectPart(protocol, handling, assistant, b);
      var read := ReadBlock(s, protocol, handling, role, b);
      if part.None? then read == [] else |read| == 1 && ParsePart(s, part.value) == Ok(read[0])
  {
    if IsThinking(b) {
      ThinkingReads(s, protocol, handling, assistant, b);
    } else if protocol == Protocol.Messages {
      MessagesBlockReads(s, handling, role, b);
    } else {
      var text := if b.ToolResult? then Joined(TextsOf(b.content)) else if b.ToolCall? then "" else b.text;
      PlainPartReads(s, protocol, assistant, text);
    }
  }

  lemma MessagesBlockReads(s: Serde, handling: Handling, role: Role, b: Block)
    requires !IsThinking(b)
    ensures var part := OrdinaryPart(Protocol.Messages, false, b);
      var read := ReadBlock(s, Protocol.Messages, handling, role, b);
      if part.None? then read == [] else |read| == 1 && ParsePart(s, part.value) == Ok(read[0])
  {
    KindsDiffer();
    if b.ToolCall? {
      ToolCallReads(s, b);
      assert AsStr(Get(ToAnthropic(b), K.Type)) == Some(KIND_TOOL_USE);
    } else if b.ToolResult? {
      ToolResultReads(s, b);
      assert AsStr(Get(ToAnthropic(b), K.Type)) == Some(KIND_TOOL_RESULT) && |KIND_TOOL_RESULT| != |KIND_TEXT|;
    } else {
      assert ToAnthropic(b) == TextPart(b.text);
      assert EmptyTextPart(TextPart(b.text)) <==> b.text == "";
      PlainPartReads(s, Protocol.Messages, false, b.text);
    }
  }

  /** Parts without assistant reasoning, as Messages sends them. */
  lemma {:induction false} PartsRead(s: Serde, protocol: Protocol, handling: Handling, role: Role, assistant: bool, blocks: seq<Block>)
    requires AllReturnable(protocol, handling, blocks)
    requires protocol != Protocol.Messages && role == Assistant ==> ReasoningsOf(blocks) == []
    ensures ParseParts(s, DirectParts(protocol, handling, assistant, blocks)) == Ok(ReadBlocks(s, protocol, handling, role, blocks))
  {
    if blocks == [] {
    } else {
      var part := DirectPart(protocol, handling, assistant, blocks[0]);
      var read := ReadBlock(s, protocol, handling, role, blocks[0]);
      var parts, rest := DirectParts(protocol, handling, assistant, blocks[1..]), ReadBlocks(s, protocol, handling, role, blocks[1..]);
      PartsRead(s, protocol, handling, role, assistant, blocks[1..]);
      assert Returnable(protocol, handling, blocks[0]);
      BlockReads(s, protocol, handling, role, assistant, blocks[0]);
      if part.Some? {
        PartsFirst(s, part.value, parts, read[0], rest);
        assert read == [read[0]];
      } else {
        assert [] + parts == parts && [] + rest == rest;
      }
    }
  }

  lemma {:induction false} VisibleHasNoReasoning(blocks: seq<Block>)
    ensures ReasoningsOf(VisibleBlocks(Assistant, blocks)) == []
  {
    if blocks == [] {
    } else {
      VisibleHasNoReasoning(blocks[1..]);
      var rest := VisibleBlocks(Assistant, blocks[1..]);
      if blocks[0].Reasoning? {
        assert [] + rest == rest;
      } else {
        assert ([blocks[0]] + rest)[1..] == rest;
      }
    }
  }

  /** Assistant reasoning is not read, so leaving it out beforehand changes nothing. */
  lemma {:induction false} VisibleReads(s: Serde, protocol: Protocol, handling: Handling, role: Role, blocks: seq<Block>)
    requires protocol != Protocol.Messages
    ensures ReadBlocks(s, protocol, handling, role, VisibleBlocks(role, blocks)) == ReadBlocks(s, protocol, handling, role, blocks)
  {
    if blocks == [] {
    } else {
      VisibleReads(s, protocol, handling, role, blocks[1..]);
      var rest := VisibleBlocks(role, blocks[1..]);
      if role == Assistant && blocks[0].Reasoning? {
        assert [] + rest == rest;
        assert [] + ReadBlocks(s, protocol, handling, role, blocks[1..]) == ReadBlocks(s, protocol, handling, role, blocks[1..]);
      } else {
        assert ([blocks[0]] + rest)[1..] == rest;
      }
    }
  }

  /** The content parts of a Chat message or a Responses message item. */
  lemma VisiblePartsRead(s: Serde, protocol: Protocol, handling: Handling, role: Role, assistant: bool, blocks: seq<Block>)
    requires protocol != Protocol.Messages
    ensures ParseParts(s, DirectParts(protocol, handling, assistant, VisibleBlocks(role, blocks)))
         == Ok(ReadBlocks(s, protocol, handling, role, blocks))
  {
    if role == Assistant {
      VisibleHasNoReasoning(blocks);
    }
    PartsRead(s, protocol, handling, role, assistant, VisibleBlocks(role, blocks));
    VisibleReads(s, protocol, handling, role, blocks);
  }

  // ----- roles ---------------------------------------------------------------------------

  lemma RoleReads(role: Role)
    ensures ParseRole(RoleName(role)) == Ok(role)
    ensures ParseRole(SentRole(role)) == Ok(if role == Tool then User else role)
  {
    assert "developer"[0] != "assistant"[0];
    assert "tool"[0] != "user"[0];
  }

  // ----- Messages ------------------------------------------------------------------------

  /** The message a provider reads; None when nothing of it is left. */
  function ReadMessages(s: Serde, handling: Handling, m: Message): Option<Message> {
    var body := ReadBlocks(s, Protocol.Messages, handling, m.role, m.content);
    var role := if m.role == Tool then User else m.role;
    if body != [] then Some(Message(role, body, None))
    else if SomeThinking(m.content) then None
    else Some(Message(role, [Text("")], None))
  }

  predicate PlacedWell(m: Message) {
    m.role != Assistant ==> !SomeThinking(m.content)
  }

  lemma {:induction false} NoThinkingRead(s: Serde, handling: Handling, role: Role, blocks: seq<Block>)
    requires !SomeThinking(blocks)
    ensures !SomeThinking(ReadBlocks(s, Protocol.Messages, handling, role, blocks))
  {
    if blocks == [] {
    } else {
      SomeThinkingFirst(blocks);
      NoThinkingRead(s, handling, role, blocks[1..]);
      assert !IsThinking(blocks[0]);
    }
  }

  lemma RoleAndContentFields(role: Role, content: Json)
    ensures var v := RoleAndContent(role, content);
      Get(v, K.Role) == Some(Str(SentRole(role))) && Get(v, K.Content) == Some(content)
      && Get(v, K.Type).None? && Get(v, K.Name).None?
  {
  }

  lemma MessagesTurnReads(s: Serde, role: Role, content: Json, blocks: seq<Block>)
    requires ParseContent(s, content) == Ok(blocks) && (role == Assistant || !SomeThinking(blocks))
    ensures MessagesTurn(s, RoleAndContent(role, content)) == Ok(Message(if role == Tool then User else role, blocks, None))
  {
    RoleAndContentFields(role, content);
    RoleReads(role);
  }

  lemma PartsEmptyIff(s: Serde, parts: seq<Json>, blocks: seq<Block>)
    requires ParseParts(s, parts) == Ok(blocks)
    ensures parts == [] <==> blocks == []
  {
  }

  lemma MessageReads(s: Serde, handling: Handling, m: Message)
    requires AllReturnable(Protocol.Messages, handling, m.content) && PlacedWell(m)
    ensures var sent, read := DirectMessage(handling, m), ReadMessages(s, handling, m);
      if sent.None? then read.None? else read.Some? && MessagesTurn(s, sent.value) == Ok(read.value)
  {
    var parts := DirectParts(Protocol.Messages, handling, false, m.content);
    var body := ReadBlocks(s, Protocol.Messages, handling, m.role, m.content);
    PartsRead(s, Protocol.Messages, handling, m.role, false, m.content);
    PartsEmptyIff(s, parts, body);
    if m.role != Assistant {
      NoThinkingRead(s, handling, m.role, m.content);
    }
    if parts != [] {
      MessagesTurnReads(s, m.role, Arr(parts), body);
    } else if !SomeThinking(m.content) {
      assert !SomeThinking([Text("")]);
      MessagesTurnReads(s, m.role, Str(""), [Text("")]);
    }
  }

  // ----- Responses -----------------------------------------------------------------------

  /** Calls and results are read as messages of their own, before the content of their turn. */
  function ReadCalls(blocks: seq<Block>): seq<Message> {
    if blocks == [] then []
    else if blocks[0].ToolCall? then [Message(Assistant, [blocks[0]], Some(blocks[0].name))] + ReadCalls(blocks[1..])
    else if blocks[0].ToolResult? then
      [Message(Tool, [ToolResult(blocks[0].callId, [Text(Joined(TextsOf(blocks[0].content)))])], None)] + ReadCalls(blocks[1..])
    else ReadCalls(blocks[1..])
  }

  function ReadInput(s: Serde, handling: Handling, m: Message): seq<Message> {
    var body := ReadBlocks(s, Protocol.Responses, handling, m.role, m.content);
    ReadCalls(m.content) + if body == [] then [] else [Message(if m.role == Tool then User else m.role, body, None)]
  }

  lemma InputKindsDiffer()
    ensures "function_call" != KIND_TEXT && "function_call" != "input_text" && "function_call" != "output_text"
    ensures "function_call" != KIND_THINKING && "function_call" != KIND_REDACTED && "function_call" != "reasoning"
    ensures "function_call_output" != KIND_TEXT && "function_call_output" != "input_text" && "function_call_output" != "output_text"
    ensures "function_call_output" != KIND_THINKING && "function_call_output" != KIND_REDACTED && "function_call_output" != "reasoning"
    ensures "function_call_output" != KIND_TOOL_USE && "function_call_output" != "function_call"
  {
  }

  lemma CallInputFields(s: Serde, b: Block)
    requires b.ToolCall?
    ensures var item := InputItem(s, b);
      && Get(item, K.Type) == Some(Str("function_call")) && Get(item, K.CallId) == Some(Str(b.id)) && Get(item, K.Name) == Some(Str(b.name))
      && Get(item, K.Arguments) == Some(Str(s.toText(b.arguments)))
      && Get(item, K.Id).None? && Get(item, K.Input).None? && Get(item, K.Role).None? && Get(item, K.Content).None?
  {
  }

  lemma CallInputReads(s: Serde, b: Block)
    requires s.Lawful() && b.ToolCall?
    ensures InputTurn(s, InputItem(s, b)) == Ok(Message(Assistant, [b], Some(b.name)))
    ensures DecodeItem(s, InputItem(s, b)) == Ok([b])
  {
    InputKindsDiffer();
    CallInputFields(s, b);
    var item := InputItem(s, b);
    assert ParsePart(s, item) == Ok(b);
    assert ParseParts(s, [item][1..]) == Ok([]) && [b] + [] == [b] && [] + [b] == [b];
    assert ParseParts(s, [item]) == Ok([b]);
    RoleReads(Assistant);
    assert PartTexts(ItemsOf(Get(item, K.Content))) == [] && DecodeCallItem(s, item) == [b];
  }

  lemma ResultInputFields(s: Serde, b: Block)
    requires b.ToolResult?
    ensures var item := InputItem(s, b);
      && Get(item, K.Type) == Some(Str("function_call_output")) && Get(item, K.CallId) == Some(Str(b.callId))
      && Get(item, K.Output) == Some(Str(Joined(TextsOf(b.content))))
      && Get(item, K.ToolUseId).None? && Get(item, K.Name).None? && Get(item, K.Role).None? && Get(item, K.Content).None?
  {
  }

  lemma ResultInputReads(s: Serde, b: Block)
    requires b.ToolResult?
    ensures InputTurn(s, InputItem(s, b)) == Ok(Message(Tool, [ToolResult(b.callId, [Text(Joined(TextsOf(b.content)))])], None))
  {
    InputKindsDiffer();
    ResultInputFields(s, b);
    var item := InputItem(s, b);
    var read := ToolResult(b.callId, [Text(Joined(TextsOf(b.content)))]);
    assert ParsePart(s, item) == Ok(read);
    assert ParseParts(s, [item][1..]) == Ok([]) && [read] + [] == [read] && [] + [read] == [read];
    assert ParseParts(s, [item]) == Ok([read]);
    RoleReads(Tool);
  }

  lemma {:induction false} CallItemsRead(s: Serde, blocks: seq<Block>)
    requires s.Lawful()
    ensures Turns(s, Protocol.Responses, CallItemsOf(s, blocks)) == Ok(ReadCalls(blocks))
  {
    if blocks == [] {
    } else {
      CallItemsRead(s, blocks[1..]);
      var b := blocks[0];
      if b.ToolCall? {
        CallInputReads(s, b);
        CollectedFirst(InputItem(s, b), CallItemsOf(s, blocks[1..]), Reader(s, Protocol.Responses), Message(Assistant, [b], Some(b.name)), ReadCalls(blocks[1..]));
      } else if b.ToolResult? {
        ResultInputReads(s, b);
        CollectedFirst(InputItem(s, b), CallItemsOf(s, blocks[1..]), Reader(s, Protocol.Responses), ReadCalls(blocks)[0], ReadCalls(blocks[1..]));
      }
    }
  }

  lemma InputMessageReads(s: Serde, role: Role, parts: seq<Json>, blocks: seq<Block>)
    requires ParseParts(s, parts) == Ok(blocks)
    ensures InputTurn(s, RoleAndContent(role, Arr(parts))) == Ok(Message(if role == Tool then User else role, blocks, None))
  {
    RoleAndContentFields(role, Arr(parts));
    RoleReads(role);
    assert blocks + [] == blocks;
  }

  lemma ItemsRead(s: Serde, handling: Handling, m: Message)
    requires s.Lawful()
    ensures Turns(s, Protocol.Responses, DirectItems(s, handling, m)) == Ok(ReadInput(s, handling, m))
  {
    var assistant := m.role == Assistant;
    var parts := DirectParts(Protocol.Responses, handling, assistant, VisibleBlocks(m.role, m.content));
    var body := ReadBlocks(s, Protocol.Responses, handling, m.role, m.content);
    VisiblePartsRead(s, Protocol.Responses, handling, m.role, assistant, m.content);
    PartsEmptyIff(s, parts, body);
    CallItemsRead(s, m.content);
    var last := if parts == [] then [] else [RoleAndContent(m.role, Arr(parts))];
    if parts != [] {
      InputMessageReads(s, m.role, parts, body);
      CollectedOne(RoleAndContent(m.role, Arr(parts)), Reader(s, Protocol.Responses));
    }
    CollectedConcat(CallItemsOf(s, m.content), last, Reader(s, Protocol.Responses));
  }

  // ----- Chat Completions ----------------------------------------------------------------

  /** The number of blocks that are not assistant reasoning. */
  function Spoken(m: Message): int {
    |m.content| - if m.role == Assistant then |ReasoningsOf(m.content)| else 0
  }

  /** The content part of a Chat turn; None when the turn disappears. */
  function ReadBody(s: Serde, handling: Handling, m: Message): Option<seq<Block>> {
    var body := ReadBlocks(s, ChatCompletions, handling, m.role, m.content);
    if body != [] then Some(body)
    else if Spoken(m) == 1 && TextsOf(m.content) == [""] then Some([Text("")])
    else if CallsOf(m.content) != [] then Some([])
    else if SomeThinking(m.content) then None
    else Some([Text("")])
  }

  function SpokenReasoning(m: Message): string {
    if m.role == Assistant then Joined(ReasoningsOf(m.content)) else ""
  }

  /** The reasoning a client may send. */
  predicate ReasoningFits(m: Message) {
    ByteLength(SpokenReasoning(m)) <= MAX_REASONING_CONTENT_BYTES
  }

  /** The turn a Chat provider reads. */
  function ReadChat(s: Serde, handling: Handling, m: Message): Option<Message> {
    if IsToolReply(m) then
      Some(Message(Tool, [ToolResult(m.content[0].callId, [Text(Joined(TextsOf(m.content[0].content)))])], None))
    else
      var body := ReadBody(s, handling, m);
      if body.None? then None
      else
        var content := (if SpokenReasoning(m) == "" then [] else [Reasoning(SpokenReasoning(m))]) + body.value + CallsOf(m.content);
        Some(Message(m.role, if m.role == Tool then [ToolResult("", content)] else content, m.name))
  }

  lemma {:induction false} VisibleCounts(role: Role, blocks: seq<Block>)
    ensures |VisibleBlocks(role, blocks)| == |blocks| - if role == Assistant then |ReasoningsOf(blocks)| else 0
    ensures TextsOf(VisibleBlocks(role, blocks)) == TextsOf(blocks)
    ensures SomeThinking(VisibleBlocks(role, blocks)) <==> SomeThinking(blocks)
  {
    if blocks == [] {
    } else {
      VisibleCounts(role, blocks[1..]);
      SomeThinkingFirst(blocks);
      var rest := VisibleBlocks(role, blocks[1..]);
      if role == Assistant && blocks[0].Reasoning? {
        assert [] + rest == rest;
      } else {
        assert ([blocks[0]] + rest)[1..] == rest;
        SomeThinkingFirst([blocks[0]] + rest);
      }
    }
  }

  lemma OneText(blocks: seq<Block>)
    requires |blocks| == 1
    ensures TextsOf(blocks) == if blocks[0].Text? then [blocks[0].text] else []
  {
    assert TextsOf(blocks[1..]) == [];
  }

  lemma {:induction false} RequestCallsBack(s: Serde, blocks: seq<Block>)
    requires s.Lawful()
    ensures RequestCalls(s, CallObjects(s, blocks)) == CallsOf(blocks)
  {
    if blocks == [] {
    } else {
      RequestCallsBack(s, blocks[1..]);
      if blocks[0].ToolCall? {
        var call := ChatCall(s, blocks[0]);
        assert RequestCall(s, call) == blocks[0];
        assert ([call] + CallObjects(s, blocks[1..]))[1..] == CallObjects(s, blocks[1..]);
      }
    }
  }

  lemma ChatFieldsGive(s: Serde, m: Message, content: Option<Json>)
    ensures var fields := ChatFields(s, m);
      var v := Obj(if content.Some? then fields[K.Content := content.value] else fields);
      && Get(v, K.Role) == Some(Str(RoleName(m.role))) && Get(v, K.Content) == content
      && Get(v, K.ReasoningContent) == (if SpokenReasoning(m) == "" then None else Some(Str(SpokenReasoning(m))))
      && ItemsOf(Get(v, K.ToolCalls)) == CallObjects(s, m.content) && Get(v, K.ToolCallId).None?
      && AsStr(Get(v, K.Name)) == m.name
  {
  }

  /** A Chat message with this content reads as the turn with these blocks. */
  lemma ChatTurnReads(s: Serde, m: Message, content: Option<Json>, body: seq<Block>)
    requires s.Lawful() && ParseMaybe(s, content) == Ok(body)
    ensures var fields := ChatFields(s, m);
      var turn := ChatTurn(s, Obj(if content.Some? then fields[K.Content := content.value] else fields));
      var blocks := (if SpokenReasoning(m) == "" then [] else [Reasoning(SpokenReasoning(m))]) + body + CallsOf(m.content);
      if ReasoningFits(m) then turn == Ok(Message(m.role, if m.role == Tool then [ToolResult("", blocks)] else blocks, m.name))
      else turn == Err(ReasoningTooLong)
  {
    ChatFieldsGive(s, m, content);
    RequestCallsBack(s, m.content);
    RoleReads(m.role);
  }

  lemma ToolReplyReads(s: Serde, m: Message)
    requires IsToolReply(m)
    ensures ChatTurn(s, ToolReply(m))
         == Ok(Message(Tool, [ToolResult(m.content[0].callId, [Text(Joined(TextsOf(m.content[0].content)))])], None))
  {
    var v := ToolReply(m);
    RoleReads(Tool);
    assert Get(v, K.Role) == Some(Str("tool")) && Get(v, K.ToolCallId) == Some(Str(m.content[0].callId));
    assert ItemsOf(Get(v, K.ToolCalls)) == [] && RequestCalls(s, []) == [];
    var text := Text(Joined(TextsOf(m.content[0].content)));
    assert [] + [text] + [] == [text];
  }

  lemma OneVisibleText(s: Serde, handling: Handling, m: Message, text: string)
    requires VisibleBlocks(m.role, m.content) == [Text(text)]
    ensures ReadBlocks(s, ChatCompletions, handling, m.role, m.content) == NonEmpty(text)
    ensures Spoken(m) == 1 && TextsOf(m.content) == [text]
  {
    VisibleReads(s, ChatCompletions, handling, m.role, m.content);
    VisibleCounts(m.role, m.content);
    OneText([Text(text)]);
    assert ReadBlocks(s, ChatCompletions, handling, m.role, [Text(text)][1..]) == [];
    assert NonEmpty(text) + [] == NonEmpty(text);
  }

  lemma NotOneText(m: Message)
    requires var visible := VisibleBlocks(m.role, m.content); !(|visible| == 1 && visible[0].Text?)
    ensures !(Spoken(m) == 1 && TextsOf(m.content) == [""])
  {
    VisibleCounts(m.role, m.content);
    if Spoken(m) == 1 {
      OneText(VisibleBlocks(m.role, m.content));
    }
  }

  /** The message sent has this content field, and it is read as the body of the turn. */
  ghost predicate SentAs(s: Serde, handling: Handling, m: Message, content: Option<Json>) {
    var sent, body, fields := DirectChatMessage(s, handling, m), ReadBody(s, handling, m), ChatFields(s, m);
    && (sent.None? <==> body.None?)
    && (sent.Some? ==> sent.value == Obj(if content.Some? then fields[K.Content := content.value] else fields))
    && (sent.Some? && body.Some? ==> ParseMaybe(s, content) == Ok(body.value))
  }

  lemma OneTextSent(s: Serde, handling: Handling, m: Message, text: string)
    requires !IsToolReply(m) && VisibleBlocks(m.role, m.content) == [Text(text)]
    ensures SentAs(s, handling, m, Some(Str(text)))
  {
    OneVisibleText(s, handling, m, text);
  }

  lemma PartsSent(s: Serde, handling: Handling, m: Message)
    requires !IsToolReply(m)
    requires var visible := VisibleBlocks(m.role, m.content); !(|visible| == 1 && visible[0].Text?)
    requires DirectParts(ChatCompletions, handling, false, VisibleBlocks(m.role, m.content)) != []
    ensures SentAs(s, handling, m, Some(Arr(DirectParts(ChatCompletions, handling, false, VisibleBlocks(m.role, m.content)))))
  {
    VisiblePartsRead(s, ChatCompletions, handling, m.role, false, m.content);
    PartsEmptyIff(s, DirectParts(ChatCompletions, handling, false, VisibleBlocks(m.role, m.content)),
      ReadBlocks(s, ChatCompletions, handling, m.role, m.content));
  }

  lemma NothingSent(s: Serde, handling: Handling, m: Message) returns (content: Option<Json>)
    requires !IsToolReply(m)
    requires var visible := VisibleBlocks(m.role, m.content); !(|visible| == 1 && visible[0].Text?)
    requires DirectParts(ChatCompletions, handling, false, VisibleBlocks(m.role, m.content)) == []
    ensures SentAs(s, handling, m, content)
  {
    VisiblePartsRead(s, ChatCompletions, handling, m.role, false, m.content);
    assert ReadBlocks(s, ChatCompletions, handling, m.role, m.content) == [];
    NotOneText(m);
    VisibleCounts(m.role, m.content);
    content := if CallsOf(m.content) == [] then Some(Str("")) else if SomeThinking(m.content) then Some(Arr([])) else None;
  }

  lemma ChatBodyReads(s: Serde, handling: Handling, m: Message) returns (content: Option<Json>)
    requires !IsToolReply(m)
    ensures SentAs(s, handling, m, content)
  {
    var visible := VisibleBlocks(m.role, m.content);
    var parts := DirectParts(ChatCompletions, handling, false, visible);
    if |visible| == 1 && visible[0].Text? {
      assert visible == [Text(visible[0].text)];
      OneTextSent(s, handling, m, visible[0].text);
      content := Some(Str(visible[0].text));
    } else if parts != [] {
      PartsSent(s, handling, m);
      content := Some(Arr(parts));
    } else {
      content := NothingSent(s, handling, m);
    }
  }

  /** What a Chat decoder makes of an emitted message: the turn, or the refusal of reasoning beyond 4 MiB. */
  lemma ChatReads(s: Serde, handling: Handling, m: Message)
    requires s.Lawful()
    ensures var sent, read := DirectChatMessage(s, handling, m), ReadChat(s, handling, m);
      && (sent.None? <==> read.None?)
      && (sent.Some? ==> ChatTurn(s, sent.value) == if IsToolReply(m) || ReasoningFits(m) then Ok(read.value) else Err(ReasoningTooLong))
  {
    if IsToolReply(m) {
      ToolReplyReads(s, m);
    } else {
      var content := ChatBodyReads(s, handling, m);
      if DirectChatMessage(s, handling, m).Some? {
        ChatTurnReads(s, m, content, ReadBody(s, handling, m).value);
      }
    }
  }

  // ----- whole requests ------------------------------------------------------------------

  function OneOrNone(m: Option<Message>): seq<Message> {
    if m.None? then [] else [m.value]
  }

  /** What is read of one message. */
  function ReadOne(s: Serde, protocol: Protocol, handling: Handling, m: Message): seq<Message> {
    match protocol
    case ChatCompletions => OneOrNone(ReadChat(s, handling, m))
    case Responses => if IsInstruction(m) then [] else ReadInput(s, handling, m)
    case Messages => if IsInstruction(m) then [] else OneOrNone(ReadMessages(s, handling, m))
  }

  /** What is read of a request. */
  function ReadAll(s: Serde, protocol: Protocol, handling: Handling, ms: seq<Message>): seq<Message> {
    if ms == [] then [] else ReadOne(s, protocol, handling, ms[0]) + ReadAll(s, protocol, handling, ms[1..])
  }

  /** The client decoder takes the message: only reasoning of a Chat turn can be too long. */
  predicate Readable(s: Serde, protocol: Protocol, handling: Handling, m: Message) {
    protocol == ChatCompletions && ReadChat(s, handling, m).Some? ==> IsToolReply(m) || ReasoningFits(m)
  }

  predicate AllReadable(s: Serde, protocol: Protocol, handling: Handling, ms: seq<Message>) {
    forall i :: 0 <= i < |ms| ==> Readable(s, protocol, handling, ms[i])
  }

  predicate Sendable(protocol: Protocol, handling: Handling, m: Message) {
    AllReturnable(protocol, handling, m.content) && (protocol == Protocol.Messages ==> PlacedWell(m))
  }

  predicate AllSendable(protocol: Protocol, handling: Handling, ms: seq<Message>) {
    forall i :: 0 <= i < |ms| ==> Sendable(protocol, handling, ms[i])
  }

  lemma OneReads(s: Serde, protocol: Protocol, handling: Handling, m: Message)
    requires s.Lawful() && Sendable(protocol, handling, m)
    ensures var r := Turns(s, protocol, DirectOne(s, protocol, handling, m));
      && (r.Ok? <==> Readable(s, protocol, handling, m))
      && (r.Ok? ==> r.value == ReadOne(s, protocol, handling, m))
  {
    match protocol
    case ChatCompletions =>
      ChatReads(s, handling, m);
      if DirectChatMessage(s, handling, m).Some? {
        CollectedOne(DirectChatMessage(s, handling, m).value, Reader(s, protocol));
      }
    case Responses =>
      if !IsInstruction(m) {
        ItemsRead(s, handling, m);
      }
    case Messages =>
      MessageReads(s, handling, m);
      if !IsInstruction(m) && DirectMessage(handling, m).Some? {
        CollectedOne(DirectMessage(handling, m).value, Reader(s, protocol));
      }
  }

  lemma {:induction false} AllRead(s: Serde, protocol: Protocol, handling: Handling, ms: seq<Message>)
    requires s.Lawful() && AllSendable(protocol, handling, ms)
    ensures var r := Turns(s, protocol, DirectAll(s, protocol, handling, ms));
      && (r.Ok? <==> AllReadable(s, protocol, handling, ms))
      && (r.Ok? ==> r.value == ReadAll(s, protocol, handling, ms))
  {
    if ms == [] {
    } else {
      AllRead(s, protocol, handling, ms[1..]);
      assert Sendable(protocol, handling, ms[0]);
      OneReads(s, protocol, handling, ms[0]);
      CollectedConcat(DirectOne(s, protocol, handling, ms[0]), DirectAll(s, protocol, handling, ms[1..]), Reader(s, protocol));
      ReadableFirst(s, protocol, handling, ms);
    }
  }

  lemma ReadableFirst(s: Serde, protocol: Protocol, handling: Handling, ms: seq<Message>)
    requires ms != []
    ensures AllReadable(s, protocol, handling, ms) <==> Readable(s, protocol, handling, ms[0]) && AllReadable(s, protocol, handling, ms[1..])
  {
    if Readable(s, protocol, handling, ms[0]) && AllReadable(s, protocol, handling, ms[1..]) {
      forall i | 0 <= i < |ms| ensures Readable(s, protocol, handling, ms[i]) {
        assert i > 0 ==> Readable(s, protocol, handling, ms[1..][i - 1]);
      }
    }
    if AllReadable(s, protocol, handling, ms) {
      forall i | 0 <= i < |ms[1..]| ensures Readable(s, protocol, handling, ms[1..][i]) {
        assert ms[1..][i] == ms[i + 1];
      }
    }
  }

  lemma PlacedOrMisplaced(ms: seq<Message>, i: nat)
    requires i < |ms|
    ensures Misplaced(ms) || PlacedWell(ms[i])
  {
    if ms[i].role != Assistant && SomeThinking(ms[i].content) {
      var j :| 0 <= j < |ms[i].content| && IsThinking(ms[i].content[j]);
      assert Misplaced(ms);
    }
  }

  /**
   Reading an encoded request gives back its roles, texts, tool calls and tool results in order, with thinking
   handled as asked. Only Chat reasoning beyond 4 MiB is not readable.
   */
  lemma EncodedRequestReads(s: Serde, protocol: Protocol, handling: Handling, ms: seq<Message>, rest: Fields)
    requires s.Lawful() && Direct(s, protocol, handling, ms, rest).Ok?
    requires protocol == Protocol.Messages && handling == Preserve ==> AllClean(ms)
    ensures var r := Turns(s, protocol, EmittedMessages(protocol, Direct(s, protocol, handling, ms, rest).value));
      && (r.Ok? <==> AllReadable(s, protocol, handling, ms))
      && (r.Ok? ==> r.value == ReadAll(s, protocol, handling, ms))
  {
    forall i | 0 <= i < |ms| ensures Sendable(protocol, handling, ms[i]) {
      assert protocol == Protocol.Messages && handling == Preserve ==> CleanMessage(ms[i]);
      PlacedOrMisplaced(ms, i);
    }
    AllRead(s, protocol, handling, ms);
    assert EmittedMessages(protocol, Direct(s, protocol, handling, ms, rest).value) == DirectAll(s, protocol, handling, ms);
  }

  // ----- nothing is lost silently ----------------------------------------------------------

  /** Under Preserve an accepted request loses no thinking block: each is read as something. */
  lemma PreserveLosesNoThinking(s: Serde, protocol: Protocol, ms: seq<Message>, rest: Fields, i: nat, j: nat)
    requires Direct(s, protocol, Preserve, ms, rest).Ok? && i < |ms| && j < |ms[i].content| && IsThinking(ms[i].content[j])
    ensures ReadThinking(protocol, Preserve, ms[i].content[j]) != []
    ensures protocol == Protocol.Messages ==> ms[i].role == Assistant
  {
  }

  /** Every thinking block of the list becomes a part. */
  predicate AllKept(protocol: Protocol, handling: Handling, blocks: seq<Block>) {
    forall i :: 0 <= i < |blocks| && IsThinking(blocks[i]) ==> ReadThinking(protocol, handling, blocks[i]) != []
  }

  lemma {:induction false} KeptThinkingShows(protocol: Protocol, handling: Handling, assistant: bool, blocks: seq<Block>)
    requires AllKept(protocol, handling, blocks) && SomeThinking(blocks)
    ensures DirectParts(protocol, handling, assistant, blocks) != []
  {
    SomeThinkingFirst(blocks);
    if IsThinking(blocks[0]) {
      assert Handled(protocol, handling, assistant, blocks[0]).Some?;
    } else {
      KeptThinkingShows(protocol, handling, assistant, blocks[1..]);
    }
  }

  lemma {:induction false} VisibleKept(protocol: Protocol, handling: Handling, role: Role, blocks: seq<Block>)
    requires AllKept(protocol, handling, blocks)
    ensures AllKept(protocol, handling, VisibleBlocks(role, blocks))
  {
    if blocks == [] {
    } else {
      assert AllKept(protocol, handling, blocks[1..]);
      VisibleKept(protocol, handling, role, blocks[1..]);
      assert IsThinking(blocks[0]) ==> ReadThinking(protocol, handling, blocks[0]) != [];
    }
  }

  lemma KeptMessageShows(s: Serde, protocol: Protocol, handling: Handling, m: Message)
    requires AllKept(protocol, handling, m.content) && Speaks(protocol, m)
    ensures DirectOne(s, protocol, handling, m) != []
  {
    var visible := VisibleBlocks(m.role, m.content);
    VisibleKept(protocol, handling, m.role, m.content);
    VisibleCounts(m.role, m.content);
    match protocol
    case ChatCompletions =>
      if SomeThinking(visible) {
        KeptThinkingShows(protocol, handling, false, visible);
      }
    case Responses =>
      var assistant := m.role == Assistant;
      if SomeThinking(visible) {
        KeptThinkingShows(protocol, handling, assistant, visible);
      } else {
        EmptyParts(protocol, handling, assistant, visible);
        ItemsIffVisible(s, m.role, m.content, assistant);
      }
    case Messages =>
      if SomeThinking(m.content) {
        KeptThinkingShows(protocol, handling, false, m.content);
      }
  }

  lemma {:induction false} KeptRequestShows(s: Serde, protocol: Protocol, handling: Handling, ms: seq<Message>, i: nat)
    requires i < |ms| && AllKept(protocol, handling, ms[i].content) && Speaks(protocol, ms[i])
    ensures DirectAll(s, protocol, handling, ms) != []
  {
    if i == 0 {
      KeptMessageShows(s, protocol, handling, ms[0]);
    } else {
      KeptRequestShows(s, protocol, handling, ms[1..], i - 1);
    }
  }

  lemma AcceptedKeepsThinking(s: Serde, protocol: Protocol, handling: Handling, ms: seq<Message>, rest: Fields, i: nat)
    requires Direct(s, protocol, handling, ms, rest).Ok? && handling != Remove && i < |ms|
    ensures AllKept(protocol, handling, ms[i].content)
  {
    forall j | 0 <= j < |ms[i].content| && IsThinking(ms[i].content[j])
      ensures ReadThinking(protocol, handling, ms[i].content[j]) != []
    {
      if handling == Preserve {
        PreserveLosesNoThinking(s, protocol, ms, rest, i, j);
      }
    }
  }

  /** A request with something to send is refused or keeps something to send, whatever becomes of its thinking. */
  lemma NeverSentEmpty(s: Serde, protocol: Protocol, handling: Handling, ms: seq<Message>, rest: Fields)
    requires Direct(s, protocol, handling, ms, rest).Ok? && AnySpeaks(protocol, ms)
    ensures EmittedMessages(protocol, Direct(s, protocol, handling, ms, rest).value) != []
  {
    assert EmittedMessages(protocol, Direct(s, protocol, handling, ms, rest).value) == DirectAll(s, protocol, handling, ms);
    if handling != Remove {
      var i :| 0 <= i < |ms| && Speaks(protocol, ms[i]);
      AcceptedKeepsThinking(s, protocol, handling, ms, rest, i);
      KeptRequestShows(s, protocol, handling, ms, i);
    }
  }

  // ----- the text kinds of Responses -------------------------------------------------------

  /** Providers want `output_text` from the assistant and `input_text` from everyone else. */
  predicate TextKindsMatch(item: Json) {
    var kind := if AsStr(Get(item, K.Role)) == Some("assistant") then "output_text" else "input_text";
    forall i :: 0 <= i < |ItemsOf(Get(item, K.Content))| ==> AsStr(Get(ItemsOf(Get(item, K.Content))[i], K.Type)) == Some(kind)
  }

  predicate AllOfKind(parts: seq<Json>, kind: string) {
    forall i :: 0 <= i < |parts| ==> AsStr(Get(parts[i], K.Type)) == Some(kind)
  }

  lemma {:induction false} PartKinds(handling: Handling, assistant: bool, blocks: seq<Block>)
    ensures AllOfKind(DirectParts(Protocol.Responses, handling, assistant, blocks), if assistant then "output_text" else "input_text")
  {
    if blocks == [] {
    } else {
      PartKinds(handling, assistant, blocks[1..]);
      var part := DirectPart(Protocol.Responses, handling, assistant, blocks[0]);
      assert part.Some? ==> AsStr(Get(part.value, K.Type)) == Some(if assistant then "output_text" else "input_text");
    }
  }

  lemma {:induction false} CallItemsMatch(s: Serde, blocks: seq<Block>, i: nat)
    requires i < |CallItemsOf(s, blocks)|
    ensures TextKindsMatch(CallItemsOf(s, blocks)[i])
  {
    if blocks[0].ToolCall? || blocks[0].ToolResult? {
      if i == 0 {
        assert ItemsOf(Get(InputItem(s, blocks[0]), K.Content)) == [];
      } else {
        CallItemsMatch(s, blocks[1..], i - 1);
      }
    } else {
      CallItemsMatch(s, blocks[1..], i);
    }
  }

  lemma MessageItemMatches(handling: Handling, m: Message)
    ensures TextKindsMatch(RoleAndContent(m.role,
      Arr(DirectParts(Protocol.Responses, handling, m.role == Assistant, VisibleBlocks(m.role, m.content)))))
  {
    var parts := DirectParts(Protocol.Responses, handling, m.role == Assistant, VisibleBlocks(m.role, m.content));
    RoleAndContentFields(m.role, Arr(parts));
    SentRoleAssistant(m.role);
    PartKinds(handling, m.role == Assistant, VisibleBlocks(m.role, m.content));
  }

  /** Every text of a Responses request has the kind its role requires. */
  lemma {:induction false} ResponsesTextKinds(s: Serde, handling: Handling, ms: seq<Message>, i: nat)
    requires i < |DirectAll(s, Protocol.Responses, handling, ms)|
    ensures TextKindsMatch(DirectAll(s, Protocol.Responses, handling, ms)[i])
  {
    var first := DirectOne(s, Protocol.Responses, handling, ms[0]);
    if i >= |first| {
      ResponsesTextKinds(s, handling, ms[1..], i - |first|);
    } else if i < |CallItemsOf(s, ms[0].content)| {
      CallItemsMatch(s, ms[0].content, i);
    } else {
      MessageItemMatches(handling, ms[0]);
    }
  }
}

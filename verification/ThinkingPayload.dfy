/**
 Thinking blocks in a provider request. Requests are encoded with private markers,
 `src/protocol/request_encode.rs`, and the markers are rewritten afterwards, `src/protocol/thinking.rs`.
 */
module ThinkingPayload {
  import opened Collections
  import opened Protocols
  import opened JsonValues
  import opened TokenUsage
  import opened ContentBlocks
  import K = JsonKeys

  datatype Role = System | Developer | User | Assistant | Tool

  datatype Message = Message(role: Role, content: seq<Block>, name: Option<string>)

  datatype Handling = Preserve | Override(text: string) | Remove

  const MARKER := "__exoroute_internal_thinking_block"

  function RoleName(role: Role): string {
    match role
    case System => "system"
    case Developer => "developer"
    case User => "user"
    case Assistant => "assistant"
    case Tool => "tool"
  }

  /** Tool messages are sent as user messages outside Chat Completions. */
  function SentRole(role: Role): string {
    if role == Tool then "user" else RoleName(role)
  }

  // ----- first pass ----------------------------------------------------------------------

  /** `internal_thinking_block` */
  function Marker(b: Block): Json
    requires IsThinking(b)
  {
    match b
    case Thinking(thinking, signature, extra) =>
      Obj(map[K.Type := Str(MARKER), K.Kind := Str(KIND_THINKING), K.Thinking := Str(thinking), K.Extra := Obj(extra)]
        + SignatureFields(signature))
    case RedactedThinking(data, extra) =>
      Obj(map[K.Type := Str(MARKER), K.Kind := Str(KIND_REDACTED), K.Data := Str(data), K.Extra := Obj(extra)])
  }

  predicate IsMarker(part: Json) {
    AsStr(Get(part, K.Type)) == Some(MARKER)
  }

  /** The kind of a plain text part. */
  function TextKind(protocol: Protocol, assistant: bool): string {
    if protocol != Protocol.Responses then KIND_TEXT else if assistant then "output_text" else "input_text"
  }

  function PlainPart(protocol: Protocol, assistant: bool, text: string): Json {
    Obj(map[K.Type := Str(TextKind(protocol, assistant)), K.Text := Str(text)])
  }

  /** The content part of a block that is not thinking; Chat and Messages leave empty text out. */
  function OrdinaryPart(protocol: Protocol, assistant: bool, b: Block): Option<Json>
    requires !IsThinking(b)
  {
    match protocol
    case ChatCompletions =>
      var text := if b.ToolResult? then Joined(TextsOf(b.content)) else if b.ToolCall? then "" else b.text;
      if text == "" then None else Some(PlainPart(protocol, assistant, text))
    case Responses =>
      if b.ToolCall? || b.ToolResult? then None else Some(PlainPart(protocol, assistant, b.text))
    case Messages =>
      if EmptyTextPart(ToAnthropic(b)) then None else Some(ToAnthropic(b))
  }

  function MarkedPart(protocol: Protocol, assistant: bool, b: Block): Option<Json> {
    if IsThinking(b) then Some(Marker(b)) else OrdinaryPart(protocol, assistant, b)
  }

  function MarkedParts(protocol: Protocol, assistant: bool, blocks: seq<Block>): seq<Json> {
    if blocks == [] then []
    else Listed(MarkedPart(protocol, assistant, blocks[0])) + MarkedParts(protocol, assistant, blocks[1..])
  }

  function Listed(part: Option<Json>): seq<Json> {
    if part.None? then [] else [part.value]
  }

  /** Assistant reasoning does not become a content part outside Messages. */
  function VisibleBlocks(role: Role, blocks: seq<Block>): seq<Block> {
    if blocks == [] then []
    else VisibleBlock(role, blocks[0]) + VisibleBlocks(role, blocks[1..])
  }

  function VisibleBlock(role: Role, b: Block): seq<Block> {
    if role == Assistant && b.Reasoning? then [] else [b]
  }

  function CallObjects(s: Serde, blocks: seq<Block>): seq<Json> {
    if blocks == [] then []
    else if blocks[0].ToolCall? then [ChatCall(s, blocks[0])] + CallObjects(s, blocks[1..])
    else CallObjects(s, blocks[1..])
  }

  /** The fields of a Chat message beside its content. */
  function ChatFields(s: Serde, m: Message): Fields {
    var reasoning := if m.role == Assistant then Joined(ReasoningsOf(m.content)) else "";
    var calls := CallObjects(s, m.content);
    map[K.Role := Str(RoleName(m.role))]
    + (if reasoning == "" then map[] else map[K.ReasoningContent := Str(reasoning)])
    + (if calls == [] then map[] else map[K.ToolCalls := Arr(calls)])
    + (if m.name.None? then map[] else map[K.Name := Str(m.name.value)])
  }

  predicate IsToolReply(m: Message) {
    m.role == Tool && m.content != [] && m.content[0].ToolResult?
  }

  function ToolReply(m: Message): Json
    requires IsToolReply(m)
  {
    Obj(map[K.Role := Str("tool"), K.ToolCallId := Str(m.content[0].callId), K.Content := Str(Joined(TextsOf(m.content[0].content)))])
  }

  /** `encode_chat_message` */
  function MarkedChatMessage(s: Serde, m: Message): Json {
    if IsToolReply(m) then ToolReply(m)
    else
      var visible := VisibleBlocks(m.role, m.content);
      var parts := MarkedParts(ChatCompletions, false, visible);
      var fields := ChatFields(s, m);
      if |visible| == 1 && visible[0].Text? then Obj(fields[K.Content := Str(visible[0].text)])
      else if parts != [] then Obj(fields[K.Content := Arr(parts)])
      else if CallObjects(s, m.content) == [] then Obj(fields[K.Content := Str("")])
      else Obj(fields)
  }

  function InputItem(s: Serde, b: Block): Json
    requires b.ToolCall? || b.ToolResult?
  {
    if b.ToolCall? then
      Obj(map[K.Type := Str("function_call"), K.CallId := Str(b.id), K.Name := Str(b.name), K.Arguments := Str(s.toText(b.arguments))])
    else
      Obj(map[K.Type := Str("function_call_output"), K.CallId := Str(b.callId), K.Output := Str(Joined(TextsOf(b.content)))])
  }

  /** Items of calls and call results, which stand outside the message in the Responses shape. */
  function CallItemsOf(s: Serde, blocks: seq<Block>): seq<Json> {
    if blocks == [] then []
    else if blocks[0].ToolCall? || blocks[0].ToolResult? then [InputItem(s, blocks[0])] + CallItemsOf(s, blocks[1..])
    else CallItemsOf(s, blocks[1..])
  }

  predicate IsInstruction(m: Message) {
    m.role == System || m.role == Developer
  }

  function RoleField(role: Role): Fields {
    map[K.Role := Str(SentRole(role))]
  }

  function RoleAndContent(role: Role, content: Json): Json {
    Obj(RoleField(role)[K.Content := content])
  }

  function MarkedItems(s: Serde, m: Message): seq<Json> {
    var parts := MarkedParts(Protocol.Responses, m.role == Assistant, VisibleBlocks(m.role, m.content));
    CallItemsOf(s, m.content) + if parts == [] then [] else [RoleAndContent(m.role, Arr(parts))]
  }

  lemma {:induction false} CallItemsConcat(s: Serde, a: seq<Block>, b: seq<Block>)
    ensures CallItemsOf(s, a + b) == CallItemsOf(s, a) + CallItemsOf(s, b)
  {
    if a == [] {
      assert a + b == b;
    } else {
      assert (a + b)[1..] == a[1..] + b;
      CallItemsConcat(s, a[1..], b);
    }
  }

  lemma {:induction false} VisibleConcat(role: Role, a: seq<Block>, b: seq<Block>)
    ensures VisibleBlocks(role, a + b) == VisibleBlocks(role, a) + VisibleBlocks(role, b)
  {
    if a == [] {
      assert a + b == b;
    } else {
      assert (a + b)[0] == a[0] && (a + b)[1..] == a[1..] + b;
      VisibleConcat(role, a[1..], b);
      var first, rest := VisibleBlock(role, a[0]), VisibleBlocks(role, a[1..]);
      assert first + (rest + VisibleBlocks(role, b)) == first + rest + VisibleBlocks(role, b);
    }
  }

  lemma {:induction false} MarkedPartsConcat(protocol: Protocol, assistant: bool, a: seq<Block>, b: seq<Block>)
    ensures MarkedParts(protocol, assistant, a + b) == MarkedParts(protocol, assistant, a) + MarkedParts(protocol, assistant, b)
  {
    if a == [] {
      assert a + b == b;
    } else {
      assert (a + b)[1..] == a[1..] + b;
      MarkedPartsConcat(protocol, assistant, a[1..], b);
    }
  }

  /** The parts of the first blocks, one block further. */
  lemma PartsReach(role: Role, blocks: seq<Block>, i: nat)
    requires i < |blocks|
    ensures var assistant := role == Assistant;
      var before := MarkedParts(Protocol.Responses, assistant, VisibleBlocks(role, blocks[..i]));
      MarkedParts(Protocol.Responses, assistant, VisibleBlocks(role, blocks[..i + 1]))
      == if (assistant && blocks[i].Reasoning?) || MarkedPart(Protocol.Responses, assistant, blocks[i]).None? then before
         else before + [MarkedPart(Protocol.Responses, assistant, blocks[i]).value]
  {
    var assistant, b := role == Assistant, blocks[i];
    assert blocks[..i + 1] == blocks[..i] + [b];
    VisibleConcat(role, blocks[..i], [b]);
    MarkedPartsConcat(Protocol.Responses, assistant, VisibleBlocks(role, blocks[..i]), VisibleBlocks(role, [b]));
    assert VisibleBlocks(role, [b]) == if assistant && b.Reasoning? then [] else [b];
    assert MarkedParts(Protocol.Responses, assistant, [b]) == Listed(MarkedPart(Protocol.Responses, assistant, b));
  }

  lemma CallItemsReach(s: Serde, blocks: seq<Block>, i: nat)
    requires i < |blocks|
    ensures CallItemsOf(s, blocks[..i + 1])
      == if blocks[i].ToolCall? || blocks[i].ToolResult? then CallItemsOf(s, blocks[..i]) + [InputItem(s, blocks[i])]
         else CallItemsOf(s, blocks[..i])
  {
    assert blocks[..i + 1] == blocks[..i] + [blocks[i]];
    CallItemsConcat(s, blocks[..i], [blocks[i]]);
  }

  /** The input items of one message, gathered by the loop of the source. */
  method EncodeInput(s: Serde, m: Message) returns (input: seq<Json>)
    ensures input == MarkedItems(s, m)
  {
    input := [];
    var content := [];
    var assistant := m.role == Assistant;
    for i := 0 to |m.content|
      invariant input == CallItemsOf(s, m.content[..i])
      invariant content == MarkedParts(Protocol.Responses, assistant, VisibleBlocks(m.role, m.content[..i]))
    {
      PartsReach(m.role, m.content, i);
      CallItemsReach(s, m.content, i);
      var b := m.content[i];
      if b.ToolCall? || b.ToolResult? {
        input := input + [InputItem(s, b)];
      } else if !(b.Reasoning? && assistant) {
        var part := MarkedPart(Protocol.Responses, assistant, b);
        if part.Some? {
          content := content + [part.value];
        }
      }
    }
    assert m.content[..|m.content|] == m.content;
    if content != [] {
      input := input + [RoleAndContent(m.role, Arr(content))];
    }
  }

  function MarkedMessage(m: Message): Json {
    var parts := MarkedParts(Protocol.Messages, false, m.content);
    RoleAndContent(m.role, if parts == [] then Str("") else Arr(parts))
  }

  /** What one message contributes to the marked payload. */
  function Marked(s: Serde, protocol: Protocol, m: Message): seq<Json> {
    match protocol
    case ChatCompletions => [MarkedChatMessage(s, m)]
    case Responses => if IsInstruction(m) then [] else MarkedItems(s, m)
    case Messages => if IsInstruction(m) then [] else [MarkedMessage(m)]
  }

  function MarkedAll(s: Serde, protocol: Protocol, ms: seq<Message>): seq<Json> {
    if ms == [] then [] else Marked(s, protocol, ms[0]) + MarkedAll(s, protocol, ms[1..])
  }

  // ----- second pass ---------------------------------------------------------------------

  function ExtraFields(block: Json): Fields {
    var extra := Get(block, K.Extra);
    if extra.Some? && extra.value.Obj? then extra.value.fields else map[]
  }

  /** What takes the place of a marker. */
  function Replacement(protocol: Protocol, handling: Handling, assistant: bool, block: Json): Option<Json> {
    match handling
    case Remove => None
    case Override(text) => Some(PlainPart(protocol, assistant, text))
    case Preserve =>
      var kind := AsStr(Get(block, K.Kind));
      if kind == Some(KIND_THINKING) then
        var thinking := AsStr(Get(block, K.Thinking));
        if thinking.None? then None
        else if protocol == Protocol.Messages then
          var fields := map[K.Type := Str(KIND_THINKING), K.Thinking := Str(thinking.value)];
          var signature := Get(block, K.Signature);
          var signed := if signature.Some? then fields[K.Signature := signature.value] else fields;
          Some(Obj(signed + ExtraFields(block)))
        else Some(PlainPart(protocol, assistant, thinking.value))
      else if kind == Some(KIND_REDACTED) && protocol == Protocol.Messages then
        var data := AsStr(Get(block, K.Data));
        if data.None? then None
        else Some(Obj(map[K.Type := Str(KIND_REDACTED), K.Data := Str(data.value)] + ExtraFields(block)))
      else None
  }

  function RewrittenBlock(protocol: Protocol, handling: Handling, assistant: bool, block: Json): Option<Json> {
    if IsMarker(block) then Replacement(protocol, handling, assistant, block) else Some(block)
  }

  function RewrittenBlocks(protocol: Protocol, handling: Handling, assistant: bool, blocks: seq<Json>): seq<Json> {
    if blocks == [] then []
    else Listed(RewrittenBlock(protocol, handling, assistant, blocks[0])) + RewrittenBlocks(protocol, handling, assistant, blocks[1..])
  }

  /** A message after rewriting; None when it has nothing left and is taken out. */
  function RewrittenMessage(protocol: Protocol, handling: Handling, message: Json): Option<Json> {
    if !message.Obj? || AsArr(Get(message, K.Content)).None? then Some(message)
    else
      var assistant := protocol == Protocol.Responses && AsStr(Get(message, K.Role)) == Some("assistant");
      var blocks := AsArr(Get(message, K.Content)).value;
      var kept := RewrittenBlocks(protocol, handling, assistant, blocks);
      if kept == [] && blocks != [] && !(protocol == ChatCompletions && K.ToolCalls in message.fields) then None
      else Some(Obj(message.fields[K.Content := Arr(kept)]))
  }

  function RewrittenMessages(protocol: Protocol, handling: Handling, messages: seq<Json>): seq<Json> {
    if messages == [] then []
    else Listed(RewrittenMessage(protocol, handling, messages[0])) + RewrittenMessages(protocol, handling, messages[1..])
  }

  // ----- the second pass as the source runs it -------------------------------------------

  lemma {:induction false} RewrittenBlocksConcat(protocol: Protocol, handling: Handling, assistant: bool, a: seq<Json>, b: seq<Json>)
    ensures RewrittenBlocks(protocol, handling, assistant, a + b)
         == RewrittenBlocks(protocol, handling, assistant, a) + RewrittenBlocks(protocol, handling, assistant, b)
  {
    if a == [] {
      assert a + b == b;
    } else {
      assert (a + b)[1..] == a[1..] + b;
      RewrittenBlocksConcat(protocol, handling, assistant, a[1..], b);
    }
  }

  lemma {:induction false} RewrittenMessagesConcat(protocol: Protocol, handling: Handling, a: seq<Json>, b: seq<Json>)
    ensures RewrittenMessages(protocol, handling, a + b) == RewrittenMessages(protocol, handling, a) + RewrittenMessages(protocol, handling, b)
  {
    if a == [] {
      assert a + b == b;
    } else {
      assert (a + b)[1..] == a[1..] + b;
      RewrittenMessagesConcat(protocol, handling, a[1..], b);
    }
  }

  lemma RewrittenReach(protocol: Protocol, handling: Handling, assistant: bool, blocks: seq<Json>, i: nat)
    requires i < |blocks|
    ensures RewrittenBlocks(protocol, handling, assistant, blocks[..i + 1])
         == RewrittenBlocks(protocol, handling, assistant, blocks[..i]) + Listed(RewrittenBlock(protocol, handling, assistant, blocks[i]))
  {
    assert blocks[..i + 1] == blocks[..i] + [blocks[i]];
    RewrittenBlocksConcat(protocol, handling, assistant, blocks[..i], [blocks[i]]);
    assert RewrittenBlocks(protocol, handling, assistant, [blocks[i]][1..]) == [];
  }

  /** `rewrite_content_blocks` of an array; also says whether anything was removed. */
  method RewriteContentBlocks(protocol: Protocol, handling: Handling, assistant: bool, blocks: seq<Json>)
    returns (kept: seq<Json>, removed: bool)
    ensures kept == RewrittenBlocks(protocol, handling, assistant, blocks)
    ensures |kept| <= |blocks| && (removed <==> |kept| < |blocks|)
  {
    kept, removed := [], false;
    for i := 0 to |blocks|
      invariant kept == RewrittenBlocks(protocol, handling, assistant, blocks[..i])
      invariant |kept| <= i && (removed <==> |kept| < i)
    {
      RewrittenReach(protocol, handling, assistant, blocks, i);
      var part := RewrittenBlock(protocol, handling, assistant, blocks[i]);
      if part.None? {
        removed := true;
      } else {
        kept := kept + [part.value];
      }
    }
    assert blocks[..|blocks|] == blocks;
  }

  method RewriteMessage(protocol: Protocol, handling: Handling, message: Json) returns (rewritten: Option<Json>, removed: bool)
    ensures rewritten == RewrittenMessage(protocol, handling, message)
    ensures rewritten.None? ==> removed
    ensures !removed ==> rewritten.Some?
  {
    if !message.Obj? || AsArr(Get(message, K.Content)).None? {
      return Some(message), false;
    }
    var assistant := protocol == Protocol.Responses && AsStr(Get(message, K.Role)) == Some("assistant");
    var blocks := AsArr(Get(message, K.Content)).value;
    var kept;
    kept, removed := RewriteContentBlocks(protocol, handling, assistant, blocks);
    var preserved := protocol == ChatCompletions && K.ToolCalls in message.fields;
    if removed && kept == [] && !preserved {
      return None, removed;
    }
    rewritten := Some(Obj(message.fields[K.Content := Arr(kept)]));
  }

  /** `rewrite_messages_field` of an array; also says whether the request lost everything it had. */
  method RewriteMessagesField(protocol: Protocol, handling: Handling, messages: seq<Json>) returns (kept: seq<Json>, empty: bool)
    ensures kept == RewrittenMessages(protocol, handling, messages)
    ensures empty <==> kept == [] && messages != []
  {
    kept := [];
    var removedAny := false;
    for i := 0 to |messages|
      invariant kept == RewrittenMessages(protocol, handling, messages[..i])
      invariant |kept| <= i && (|kept| < i ==> removedAny) && (removedAny ==> i > 0)
    {
      assert messages[..i + 1] == messages[..i] + [messages[i]];
      RewrittenMessagesConcat(protocol, handling, messages[..i], [messages[i]]);
      var message, removed := RewriteMessage(protocol, handling, messages[i]);
      assert RewrittenMessages(protocol, handling, [messages[i]]) == Listed(message);
      removedAny := removedAny || removed;
      if message.Some? {
        kept := kept + [message.value];
      }
    }
    assert messages[..|messages|] == messages;
    empty := removedAny && kept == [];
  }
}

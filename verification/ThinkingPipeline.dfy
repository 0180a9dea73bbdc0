/**
 Encoding a provider request in two passes, `encode_upstream_request_with_thinking` of
 `src/protocol/mod.rs`, equals one direct pass over the canonical blocks.
 */
module ThinkingPipeline {
  import opened Collections
  import opened Protocols
  import opened JsonValues
  import opened TokenUsage
  import opened ContentBlocks
  import opened ThinkingPayload
  import opened ResponseCodec
  import K = JsonKeys

  // ----- the pipeline --------------------------------------------------------------------

  /** `contains_thinking_block`, which also looks into tool results. */
  predicate HoldsThinking(b: Block) {
    IsThinking(b) || (b.ToolResult? && exists i :: 0 <= i < |b.content| && HoldsThinking(b.content[i]))
  }

  predicate AnyThinking(ms: seq<Message>) {
    exists i, j :: 0 <= i < |ms| && 0 <= j < |ms[i].content| && HoldsThinking(ms[i].content[j])
  }

  predicate Misplaced(ms: seq<Message>) {
    exists i, j :: 0 <= i < |ms| && ms[i].role != Assistant && 0 <= j < |ms[i].content| && IsThinking(ms[i].content[j])
  }

  predicate AnyRedacted(ms: seq<Message>) {
    exists i, j :: 0 <= i < |ms| && 0 <= j < |ms[i].content| && ms[i].content[j].RedactedThinking?
  }

  function MessagesKey(protocol: Protocol): K.Key {
    if protocol == Protocol.Responses then K.Input else K.Messages
  }

  /** The two passes; `rest` are all other fields of the request. */
  method EncodeRequest(s: Serde, protocol: Protocol, handling: Handling, ms: seq<Message>, rest: Fields)
    returns (r: Result<Json, Error>)
    ensures r == Direct(s, protocol, handling, ms, rest)
  {
    if protocol == Protocol.Messages && Misplaced(ms) {
      return Err(MisplacedThinking);
    }
    if protocol != Protocol.Messages && handling == Preserve && AnyRedacted(ms) {
      return Err(RedactedUnsupported);
    }
    var encoded := MarkedAll(s, protocol, ms);
    AllAgree(s, protocol, handling, ms);
    MarkedIffSpeaks(s, protocol, ms);
    if !AnyThinking(ms) {
      NothingToRewrite(s, protocol, handling, ms);
      return Ok(Obj(rest[MessagesKey(protocol) := Arr(encoded)]));
    }
    var empty;
    encoded, empty := RewriteMessagesField(protocol, handling, encoded);
    if handling == Remove && empty {
      return Err(NothingLeft);
    }
    return Ok(Obj(rest[MessagesKey(protocol) := Arr(encoded)]));
  }

  // ----- one direct pass -----------------------------------------------------------------

  /** What becomes of a thinking block. */
  function Handled(protocol: Protocol, handling: Handling, assistant: bool, b: Block): Option<Json>
    requires IsThinking(b)
  {
    match handling
    case Remove => None
    case Override(text) => Some(PlainPart(protocol, assistant, text))
    case Preserve =>
      if protocol == Protocol.Messages then Some(ToAnthropic(b))
      else if b.Thinking? then Some(PlainPart(protocol, assistant, b.thinking))
      else None
  }

  function DirectPart(protocol: Protocol, handling: Handling, assistant: bool, b: Block): Option<Json> {
    if IsThinking(b) then Handled(protocol, handling, assistant, b) else OrdinaryPart(protocol, assistant, b)
  }

  function DirectParts(protocol: Protocol, handling: Handling, assistant: bool, blocks: seq<Block>): seq<Json> {
    if blocks == [] then []
    else Listed(DirectPart(protocol, handling, assistant, blocks[0])) + DirectParts(protocol, handling, assistant, blocks[1..])
  }

  /** A turn that lost all its content disappears, unless it still carries tool calls. */
  function DirectChatMessage(s: Serde, handling: Handling, m: Message): Option<Json> {
    if IsToolReply(m) then Some(ToolReply(m))
    else
      var visible := VisibleBlocks(m.role, m.content);
      var parts := DirectParts(ChatCompletions, handling, false, visible);
      var fields := ChatFields(s, m);
      if |visible| == 1 && visible[0].Text? then Some(Obj(fields[K.Content := Str(visible[0].text)]))
      else if parts != [] then Some(Obj(fields[K.Content := Arr(parts)]))
      else if CallsOf(m.content) != [] then
        Some(if SomeThinking(visible) then Obj(fields[K.Content := Arr([])]) else Obj(fields))
      else if SomeThinking(visible) then None
      else Some(Obj(fields[K.Content := Str("")]))
  }

  function DirectItems(s: Serde, handling: Handling, m: Message): seq<Json> {
    var parts := DirectParts(Protocol.Responses, handling, m.role == Assistant, VisibleBlocks(m.role, m.content));
    CallItemsOf(s, m.content) + if parts == [] then [] else [RoleAndContent(m.role, Arr(parts))]
  }

  function DirectMessage(handling: Handling, m: Message): Option<Json> {
    var parts := DirectParts(Protocol.Messages, handling, false, m.content);
    if parts != [] then Some(RoleAndContent(m.role, Arr(parts)))
    else if SomeThinking(m.content) then None
    else Some(RoleAndContent(m.role, Str("")))
  }

  function DirectOne(s: Serde, protocol: Protocol, handling: Handling, m: Message): seq<Json> {
    match protocol
    case ChatCompletions => Listed(DirectChatMessage(s, handling, m))
    case Responses => if IsInstruction(m) then [] else DirectItems(s, handling, m)
    case Messages => if IsInstruction(m) then [] else Listed(DirectMessage(handling, m))
  }

  function DirectAll(s: Serde, protocol: Protocol, handling: Handling, ms: seq<Message>): seq<Json> {
    if ms == [] then [] else DirectOne(s, protocol, handling, ms[0]) + DirectAll(s, protocol, handling, ms[1..])
  }

  /** The request has something to send before thinking is removed. */
  predicate Speaks(protocol: Protocol, m: Message) {
    match protocol
    case ChatCompletions => true
    case Responses => !IsInstruction(m) && VisibleBlocks(m.role, m.content) != []
    case Messages => !IsInstruction(m)
  }

  predicate AnySpeaks(protocol: Protocol, ms: seq<Message>) {
    exists i :: 0 <= i < |ms| && Speaks(protocol, ms[i])
  }

  /** The specification: errors first, then a map and filter over the messages. */
  function Direct(s: Serde, protocol: Protocol, handling: Handling, ms: seq<Message>, rest: Fields): Result<Json, Error> {
    if protocol == Protocol.Messages && Misplaced(ms) then Err(MisplacedThinking)
    else if protocol != Protocol.Messages && handling == Preserve && AnyRedacted(ms) then Err(RedactedUnsupported)
    else
      var messages := DirectAll(s, protocol, handling, ms);
      if handling == Remove && messages == [] && AnySpeaks(protocol, ms) then Err(NothingLeft)
      else Ok(Obj(rest[MessagesKey(protocol) := Arr(messages)]))
  }

  // ----- why they agree: parts -----------------------------------------------------------

  lemma MarkerDiffers(kind: string)
    requires |kind| < |MARKER|
    ensures kind != MARKER
  {
  }

  /** No block but thinking is encoded as a marker. */
  lemma OrdinaryIsNoMarker(protocol: Protocol, assistant: bool, b: Block)
    requires !IsThinking(b) && OrdinaryPart(protocol, assistant, b).Some?
    ensures !IsMarker(OrdinaryPart(protocol, assistant, b).value)
  {
    MarkerDiffers(TextKind(protocol, assistant));
    MarkerDiffers(KIND_TEXT);
    MarkerDiffers(KIND_TOOL_USE);
    MarkerDiffers(KIND_TOOL_RESULT);
  }

  /** Rewriting a marker gives what the block becomes directly. */
  lemma MarkerIsHandled(protocol: Protocol, handling: Handling, assistant: bool, b: Block)
    requires IsThinking(b)
    ensures RewrittenBlock(protocol, handling, assistant, Marker(b)) == Handled(protocol, handling, assistant, b)
  {
    KindsDiffer();
    MarkerFields(b);
    if b.Thinking? {
      var own := map[K.Type := Str(KIND_THINKING), K.Thinking := Str(b.thinking)];
      assert own + SignatureFields(None) == own;
      assert b.signature.Some? ==> own + SignatureFields(b.signature) == own[K.Signature := Str(b.signature.value)];
    }
  }

  lemma MarkerFields(b: Block)
    requires IsThinking(b)
    ensures var marker := Marker(b);
      && AsStr(Get(marker, K.Type)) == Some(MARKER) && ExtraFields(marker) == b.extra
      && AsStr(Get(marker, K.Kind)) == Some(if b.Thinking? then KIND_THINKING else KIND_REDACTED)
      && (b.Thinking? ==> Get(marker, K.Thinking) == Some(Str(b.thinking)))
      && (b.Thinking? ==> Get(marker, K.Signature) == if b.signature.Some? then Some(Str(b.signature.value)) else None)
      && (b.RedactedThinking? ==> Get(marker, K.Data) == Some(Str(b.data)))
  {
  }

  lemma OneBlockRewritten(protocol: Protocol, handling: Handling, assistant: bool, block: Json)
    ensures RewrittenBlocks(protocol, handling, assistant, [block]) == Listed(RewrittenBlock(protocol, handling, assistant, block))
  {
    assert RewrittenBlocks(protocol, handling, assistant, [block][1..]) == [];
  }

  lemma {:induction false} PartsAgree(protocol: Protocol, handling: Handling, assistant: bool, blocks: seq<Block>)
    ensures RewrittenBlocks(protocol, handling, assistant, MarkedParts(protocol, assistant, blocks))
         == DirectParts(protocol, handling, assistant, blocks)
  {
    if blocks == [] {
    } else {
      PartsAgree(protocol, handling, assistant, blocks[1..]);
      var part := MarkedPart(protocol, assistant, blocks[0]);
      if IsThinking(blocks[0]) {
        MarkerIsHandled(protocol, handling, assistant, blocks[0]);
      } else if part.Some? {
        OrdinaryIsNoMarker(protocol, assistant, blocks[0]);
      }
      RewrittenBlocksConcat(protocol, handling, assistant, Listed(part), MarkedParts(protocol, assistant, blocks[1..]));
      if part.Some? {
        OneBlockRewritten(protocol, handling, assistant, part.value);
      }
    }
  }

  /** Only thinking can make the two lists differ in being empty. */
  lemma {:induction false} EmptyParts(protocol: Protocol, handling: Handling, assistant: bool, blocks: seq<Block>)
    ensures MarkedParts(protocol, assistant, blocks) == [] ==> DirectParts(protocol, handling, assistant, blocks) == [] && !SomeThinking(blocks)
    ensures DirectParts(protocol, handling, assistant, blocks) == [] && !SomeThinking(blocks) ==> MarkedParts(protocol, assistant, blocks) == []
  {
    if blocks == [] {
    } else {
      EmptyParts(protocol, handling, assistant, blocks[1..]);
      SomeThinkingFirst(blocks);
    }
  }

  lemma SomeThinkingFirst(blocks: seq<Block>)
    requires blocks != []
    ensures SomeThinking(blocks) <==> IsThinking(blocks[0]) || SomeThinking(blocks[1..])
  {
    if SomeThinking(blocks[1..]) {
      var i :| 0 <= i < |blocks[1..]| && IsThinking(blocks[1..][i]);
      assert IsThinking(blocks[i + 1]);
    }
    if SomeThinking(blocks) {
      var i :| 0 <= i < |blocks| && IsThinking(blocks[i]);
      assert i > 0 ==> IsThinking(blocks[1..][i - 1]);
    }
  }

  // ----- messages ------------------------------------------------------------------------

  lemma {:induction false} CallObjectsOf(s: Serde, blocks: seq<Block>)
    ensures CallObjects(s, blocks) == [] <==> CallsOf(blocks) == []
  {
    if blocks == [] {
    } else {
      CallObjectsOf(s, blocks[1..]);
    }
  }

  lemma ChatFieldsShape(s: Serde, m: Message)
    ensures K.Content !in ChatFields(s, m) && (K.ToolCalls in ChatFields(s, m) <==> CallsOf(m.content) != [])
  {
    CallObjectsOf(s, m.content);
  }

  /** A message without a content array stays as it is. */
  lemma NoArrayNoChange(protocol: Protocol, handling: Handling, message: Json)
    requires AsArr(Get(message, K.Content)).None?
    ensures RewrittenMessage(protocol, handling, message) == Some(message)
  {
  }

  lemma ChatAgrees(s: Serde, handling: Handling, m: Message)
    ensures RewrittenMessage(ChatCompletions, handling, MarkedChatMessage(s, m)) == DirectChatMessage(s, handling, m)
  {
    ChatFieldsShape(s, m);
    CallObjectsOf(s, m.content);
    var visible := VisibleBlocks(m.role, m.content);
    var parts := MarkedParts(ChatCompletions, false, visible);
    if IsToolReply(m) || (|visible| == 1 && visible[0].Text?) || parts == [] {
      EmptyParts(ChatCompletions, handling, false, visible);
      NoArrayNoChange(ChatCompletions, handling, MarkedChatMessage(s, m));
    } else {
      ChatArrayAgrees(s, handling, m, visible, parts);
    }
  }

  lemma ChatArrayAgrees(s: Serde, handling: Handling, m: Message, visible: seq<Block>, parts: seq<Json>)
    requires visible == VisibleBlocks(m.role, m.content) && parts == MarkedParts(ChatCompletions, false, visible)
    requires !IsToolReply(m) && !(|visible| == 1 && visible[0].Text?) && parts != []
    ensures RewrittenMessage(ChatCompletions, handling, Obj(ChatFields(s, m)[K.Content := Arr(parts)])) == DirectChatMessage(s, handling, m)
  {
    ChatFieldsShape(s, m);
    ContentReplaced(ChatCompletions, handling, ChatFields(s, m), parts, false);
    PartsAgree(ChatCompletions, handling, false, visible);
    EmptyParts(ChatCompletions, handling, false, visible);
  }

  /** Rewriting touches nothing but the content array. */
  lemma ContentReplaced(protocol: Protocol, handling: Handling, fields: Fields, parts: seq<Json>, assistant: bool)
    requires parts != [] && assistant == (protocol == Protocol.Responses && K.Role in fields && fields[K.Role] == Str("assistant"))
    ensures var kept := RewrittenBlocks(protocol, handling, assistant, parts);
      RewrittenMessage(protocol, handling, Obj(fields[K.Content := Arr(parts)]))
      == if kept == [] && !(protocol == ChatCompletions && K.ToolCalls in fields) then None else Some(Obj(fields[K.Content := Arr(kept)]))
  {
    var message := Obj(fields[K.Content := Arr(parts)]);
    assert AsArr(Get(message, K.Content)) == Some(parts);
    var kept := RewrittenBlocks(protocol, handling, assistant, parts);
    assert message.fields[K.Content := Arr(kept)] == fields[K.Content := Arr(kept)];
  }

  lemma SentRoleAssistant(role: Role)
    ensures SentRole(role) == "assistant" <==> role == Assistant
  {
    assert "developer"[0] != "assistant"[0];
  }

  /** Calls and results carry no content array and stay as they are. */
  lemma {:induction false} CallItemsStay(s: Serde, protocol: Protocol, handling: Handling, blocks: seq<Block>)
    ensures RewrittenMessages(protocol, handling, CallItemsOf(s, blocks)) == CallItemsOf(s, blocks)
  {
    if blocks == [] {
    } else {
      CallItemsStay(s, protocol, handling, blocks[1..]);
      var items := CallItemsOf(s, blocks);
      if blocks[0].ToolCall? || blocks[0].ToolResult? {
        assert items[1..] == CallItemsOf(s, blocks[1..]) && Get(items[0], K.Content).None?;
      } else {
        assert items == CallItemsOf(s, blocks[1..]);
      }
    }
  }

  lemma RoleAndContentRewritten(protocol: Protocol, handling: Handling, role: Role, parts: seq<Json>)
    requires protocol != ChatCompletions && parts != []
    ensures var kept := RewrittenBlocks(protocol, handling, protocol == Protocol.Responses && role == Assistant, parts);
      RewrittenMessage(protocol, handling, RoleAndContent(role, Arr(parts)))
      == if kept == [] then None else Some(RoleAndContent(role, Arr(kept)))
  {
    SentRoleAssistant(role);
    ContentReplaced(protocol, handling, RoleField(role), parts, protocol == Protocol.Responses && role == Assistant);
  }

  lemma ItemsAgree(s: Serde, handling: Handling, m: Message)
    ensures RewrittenMessages(Protocol.Responses, handling, MarkedItems(s, m)) == DirectItems(s, handling, m)
  {
    var visible := VisibleBlocks(m.role, m.content);
    var parts := MarkedParts(Protocol.Responses, m.role == Assistant, visible);
    PartsAgree(Protocol.Responses, handling, m.role == Assistant, visible);
    EmptyParts(Protocol.Responses, handling, m.role == Assistant, visible);
    CallItemsStay(s, Protocol.Responses, handling, m.content);
    var last := if parts == [] then [] else [RoleAndContent(m.role, Arr(parts))];
    RewrittenMessagesConcat(Protocol.Responses, handling, CallItemsOf(s, m.content), last);
    if parts != [] {
      RoleAndContentRewritten(Protocol.Responses, handling, m.role, parts);
      OneMessage(Protocol.Responses, handling, RoleAndContent(m.role, Arr(parts)));
    }
  }

  lemma OneMessage(protocol: Protocol, handling: Handling, message: Json)
    ensures RewrittenMessages(protocol, handling, [message]) == Listed(RewrittenMessage(protocol, handling, message))
  {
    assert RewrittenMessages(protocol, handling, [message][1..]) == [];
  }

  lemma MessageAgrees(handling: Handling, m: Message)
    ensures RewrittenMessage(Protocol.Messages, handling, MarkedMessage(m)) == DirectMessage(handling, m)
  {
    var parts := MarkedParts(Protocol.Messages, false, m.content);
    PartsAgree(Protocol.Messages, handling, false, m.content);
    EmptyParts(Protocol.Messages, handling, false, m.content);
    if parts != [] {
      RoleAndContentRewritten(Protocol.Messages, handling, m.role, parts);
    }
  }

  lemma OneAgrees(s: Serde, protocol: Protocol, handling: Handling, m: Message)
    ensures RewrittenMessages(protocol, handling, Marked(s, protocol, m)) == DirectOne(s, protocol, handling, m)
  {
    match protocol
    case ChatCompletions =>
      ChatAgrees(s, handling, m);
      OneMessage(protocol, handling, MarkedChatMessage(s, m));
    case Responses => ItemsAgree(s, handling, m);
    case Messages =>
      MessageAgrees(handling, m);
      OneMessage(protocol, handling, MarkedMessage(m));
  }

  // ----- requests ------------------------------------------------------------------------

  lemma {:induction false} AllAgree(s: Serde, protocol: Protocol, handling: Handling, ms: seq<Message>)
    ensures RewrittenMessages(protocol, handling, MarkedAll(s, protocol, ms)) == DirectAll(s, protocol, handling, ms)
  {
    if ms == [] {
    } else {
      OneAgrees(s, protocol, handling, ms[0]);
      AllAgree(s, protocol, handling, ms[1..]);
      RewrittenMessagesConcat(protocol, handling, Marked(s, protocol, ms[0]), MarkedAll(s, protocol, ms[1..]));
    }
  }

  lemma {:induction false} PartsWithoutThinking(protocol: Protocol, handling: Handling, assistant: bool, blocks: seq<Block>)
    requires NoThinking(blocks)
    ensures DirectParts(protocol, handling, assistant, blocks) == MarkedParts(protocol, assistant, blocks)
  {
    if blocks == [] {
    } else {
      PartsWithoutThinking(protocol, handling, assistant, blocks[1..]);
    }
  }

  lemma {:induction false} VisibleWithoutThinking(role: Role, blocks: seq<Block>)
    requires NoThinking(blocks)
    ensures NoThinking(VisibleBlocks(role, blocks))
  {
    if blocks == [] {
    } else {
      VisibleWithoutThinking(role, blocks[1..]);
    }
  }

  predicate NoThinking(blocks: seq<Block>) {
    forall i :: 0 <= i < |blocks| ==> !IsThinking(blocks[i])
  }

  lemma ChatWithoutThinking(s: Serde, handling: Handling, m: Message)
    requires NoThinking(m.content)
    ensures DirectChatMessage(s, handling, m) == Some(MarkedChatMessage(s, m))
  {
    var visible := VisibleBlocks(m.role, m.content);
    VisibleWithoutThinking(m.role, m.content);
    PartsWithoutThinking(ChatCompletions, handling, false, visible);
    CallObjectsOf(s, m.content);
    assert !SomeThinking(visible);
  }

  lemma OneWithoutThinking(s: Serde, protocol: Protocol, handling: Handling, m: Message)
    requires NoThinking(m.content)
    ensures DirectOne(s, protocol, handling, m) == Marked(s, protocol, m)
  {
    match protocol
    case ChatCompletions => ChatWithoutThinking(s, handling, m);
    case Responses =>
      VisibleWithoutThinking(m.role, m.content);
      PartsWithoutThinking(protocol, handling, m.role == Assistant, VisibleBlocks(m.role, m.content));
    case Messages =>
      PartsWithoutThinking(protocol, handling, false, m.content);
      assert !SomeThinking(m.content);
  }

  /** Skipping the second pass when no block holds thinking changes nothing. */
  lemma {:induction false} NothingToRewrite(s: Serde, protocol: Protocol, handling: Handling, ms: seq<Message>)
    requires !AnyThinking(ms)
    ensures DirectAll(s, protocol, handling, ms) == MarkedAll(s, protocol, ms)
  {
    if ms == [] {
    } else {
      forall i | 0 <= i < |ms[0].content| ensures !IsThinking(ms[0].content[i]) {
        assert !HoldsThinking(ms[0].content[i]);
      }
      OneWithoutThinking(s, protocol, handling, ms[0]);
      forall i, j | 0 <= i < |ms[1..]| && 0 <= j < |ms[1..][i].content| ensures !HoldsThinking(ms[1..][i].content[j]) {
        assert ms[1..][i] == ms[i + 1];
      }
      NothingToRewrite(s, protocol, handling, ms[1..]);
    }
  }

  lemma {:induction false} ItemsIffVisible(s: Serde, role: Role, blocks: seq<Block>, assistant: bool)
    ensures CallItemsOf(s, blocks) == [] && MarkedParts(Protocol.Responses, assistant, VisibleBlocks(role, blocks)) == []
       <==> VisibleBlocks(role, blocks) == []
  {
    if blocks == [] {
    } else {
      ItemsIffVisible(s, role, blocks[1..], assistant);
      var visible := VisibleBlocks(role, blocks);
      if role == Assistant && blocks[0].Reasoning? {
        assert visible == VisibleBlocks(role, blocks[1..]);
        assert CallItemsOf(s, blocks) == CallItemsOf(s, blocks[1..]);
      } else {
        assert visible[0] == blocks[0];
        assert blocks[0].ToolCall? || blocks[0].ToolResult? || MarkedPart(Protocol.Responses, assistant, visible[0]).Some?;
      }
    }
  }

  lemma {:induction false} MarkedIffSpeaks(s: Serde, protocol: Protocol, ms: seq<Message>)
    ensures MarkedAll(s, protocol, ms) != [] <==> AnySpeaks(protocol, ms)
  {
    if ms == [] {
    } else {
      MarkedIffSpeaks(s, protocol, ms[1..]);
      ItemsIffVisible(s, ms[0].role, ms[0].content, ms[0].role == Assistant);
      assert Marked(s, protocol, ms[0]) != [] <==> Speaks(protocol, ms[0]);
      if AnySpeaks(protocol, ms[1..]) {
        var i :| 0 <= i < |ms[1..]| && Speaks(protocol, ms[1..][i]);
        assert Speaks(protocol, ms[i + 1]);
      }
      if AnySpeaks(protocol, ms) {
        var i :| 0 <= i < |ms| && Speaks(protocol, ms[i]);
        assert i > 0 ==> Speaks(protocol, ms[1..][i - 1]);
      }
    }
  }

  // ----- what the result guarantees ------------------------------------------------------

  /** A thinking block whose extra fields pose as a marker; no parser builds one. */
  predicate Forged(b: Block) {
    IsThinking(b) && K.Type in b.extra && b.extra[K.Type] == Str(MARKER)
  }

  lemma PartIsMarkerIff(protocol: Protocol, handling: Handling, assistant: bool, b: Block)
    requires DirectPart(protocol, handling, assistant, b).Some?
    ensures IsMarker(DirectPart(protocol, handling, assistant, b).value)
       <==> protocol == Protocol.Messages && handling == Preserve && Forged(b)
  {
    MarkerDiffers(TextKind(protocol, assistant));
    MarkerDiffers(KIND_THINKING);
    MarkerDiffers(KIND_REDACTED);
    if !IsThinking(b) {
      OrdinaryIsNoMarker(protocol, assistant, b);
    }
  }

  predicate AnyMarker(parts: seq<Json>) {
    exists i :: 0 <= i < |parts| && IsMarker(parts[i])
  }

  predicate AnyForged(blocks: seq<Block>) {
    exists i :: 0 <= i < |blocks| && Forged(blocks[i])
  }

  /** A marker is left in the content exactly when thinking is preserved for Messages and a block is forged. */
  lemma {:induction false} MarkerSurvivesIff(protocol: Protocol, handling: Handling, assistant: bool, blocks: seq<Block>)
    ensures AnyMarker(DirectParts(protocol, handling, assistant, blocks))
       <==> protocol == Protocol.Messages && handling == Preserve && AnyForged(blocks)
  {
    if blocks == [] {
    } else {
      MarkerSurvivesIff(protocol, handling, assistant, blocks[1..]);
      var first := DirectPart(protocol, handling, assistant, blocks[0]);
      var rest := DirectParts(protocol, handling, assistant, blocks[1..]);
      if first.Some? {
        PartIsMarkerIff(protocol, handling, assistant, blocks[0]);
      }
      MarkerInList(first, rest);
      ForgedInList(blocks);
    }
  }

  lemma MarkerInList(first: Option<Json>, rest: seq<Json>)
    ensures AnyMarker(Listed(first) + rest) <==> (first.Some? && IsMarker(first.value)) || AnyMarker(rest)
  {
    var all := Listed(first) + rest;
    if AnyMarker(rest) {
      var i :| 0 <= i < |rest| && IsMarker(rest[i]);
      assert all[i + |Listed(first)|] == rest[i];
    }
    if first.Some? && IsMarker(first.value) {
      assert all[0] == first.value;
    }
    if AnyMarker(all) {
      var i :| 0 <= i < |all| && IsMarker(all[i]);
      assert i >= |Listed(first)| ==> all[i] == rest[i - |Listed(first)|];
    }
  }

  lemma ForgedInList(blocks: seq<Block>)
    requires blocks != []
    ensures AnyForged(blocks) <==> Forged(blocks[0]) || AnyForged(blocks[1..])
  {
    if AnyForged(blocks[1..]) {
      var i :| 0 <= i < |blocks[1..]| && Forged(blocks[1..][i]);
      assert Forged(blocks[i + 1]);
    }
    if AnyForged(blocks) {
      var i :| 0 <= i < |blocks| && Forged(blocks[i]);
      assert i > 0 ==> Forged(blocks[1..][i - 1]);
    }
  }

  /** The thinking blocks of a list. */
  function ThinkingOf(blocks: seq<Block>): seq<Block> {
    if blocks == [] then [] else if IsThinking(blocks[0]) then [blocks[0]] + ThinkingOf(blocks[1..])
 else ThinkingOf(blocks[1..])
  }

  lemma {:induction false} TextPartsParse(s: Serde, texts: seq<string>)
    ensures ParseParts(s, TextParts(texts)).Ok?
  {
    if texts == [] {
    } else {
      TextPartsParse(s, texts[1..]);
      assert TextParts(texts)[1..] == TextParts(texts[1..]);
    }
  }

  lemma PartParsesBack(s: Serde, b: Block)
    requires CleanExtra(b)
    ensures var parsed := ParsePart(s, ToAnthropic(b));
      parsed.Ok? && (if IsThinking(b) then parsed.value == b else !IsThinking(parsed.value))
  {
    if IsThinking(b) {
      KindsDiffer();
      ThinkingRoundTripIff(b);
    } else if b.ToolResult? {
      ToolResultParses(s, b);
    } else if b.ToolCall? {
      ToolCallParses(s, b);
    }
  }

  lemma ToolResultParses(s: Serde, b: Block)
    requires b.ToolResult?
    ensures ParsePart(s, ToAnthropic(b)).Ok? && ParsePart(s, ToAnthropic(b)).value.ToolResult?
  {
    TextPartsParse(s, TextsOf(b.content));
    var part := ToAnthropic(b);
    assert AsStr(Get(part, K.Type)) == Some(KIND_TOOL_RESULT);
    assert KIND_TOOL_RESULT[0] != KIND_REDACTED[0] && KIND_TOOL_RESULT[0] != "input_text"[0] && KIND_TOOL_RESULT[0] != "output_text"[0];
    assert Get(part, K.Content).value.Str? || Get(part, K.Content) == Some(Arr(TextParts(TextsOf(b.content))));
  }

  lemma ToolCallParses(s: Serde, b: Block)
    requires b.ToolCall?
    ensures ParsePart(s, ToAnthropic(b)).Ok? && ParsePart(s, ToAnthropic(b)).value.ToolCall?
  {
    KindsDiffer();
    assert AsStr(Get(ToAnthropic(b), K.Type)) == Some(KIND_TOOL_USE);
  }

  lemma ThinkingPartsParse(s: Serde, part: Json, parts: seq<Json>)
    requires ParsePart(s, part).Ok? && ParseParts(s, parts).Ok?
    ensures ParseParts(s, [part] + parts) == Ok([ParsePart(s, part).value] + ParseParts(s, parts).value)
  {
    assert ([part] + parts)[1..] == parts;
  }

  /** Preserved for Messages, the thinking blocks parse back to exactly the blocks that were sent, in order. */
  lemma {:induction false} PreservedThinkingReturns(s: Serde, blocks: seq<Block>)
    requires forall i :: 0 <= i < |blocks| ==> CleanExtra(blocks[i])
    ensures var parsed := ParseParts(s, DirectParts(Protocol.Messages, Preserve, false, blocks));
      parsed.Ok? && ThinkingOf(parsed.value) == ThinkingOf(blocks)
  {
    if blocks == [] {
    } else {
      PreservedThinkingReturns(s, blocks[1..]);
      PartParsesBack(s, blocks[0]);
      var first := DirectPart(Protocol.Messages, Preserve, false, blocks[0]);
      var rest := DirectParts(Protocol.Messages, Preserve, false, blocks[1..]);
      if first.Some? {
        ThinkingPartsParse(s, first.value, rest);
        var parsed := ParseParts(s, [first.value] + rest).value;
        assert parsed[1..] == ParseParts(s, rest).value;
      } else {
        assert [] + rest == rest;
      }
    }
  }

  // ----- the encoded request as a whole --------------------------------------------------

  /** The content array of an emitted message holds a marker. */
  predicate HoldsMarker(message: Json) {
    AsArr(Get(message, K.Content)).Some? && AnyMarker(AsArr(Get(message, K.Content)).value)
  }

  predicate AnyHoldsMarker(messages: seq<Json>) {
    exists i :: 0 <= i < |messages| && HoldsMarker(messages[i])
  }

  lemma AnyHoldsConcat(a: seq<Json>, b: seq<Json>)
    ensures AnyHoldsMarker(a + b) <==> AnyHoldsMarker(a) || AnyHoldsMarker(b)
  {
    var all := a + b;
    if AnyHoldsMarker(a) {
      var i :| 0 <= i < |a| && HoldsMarker(a[i]);
      assert HoldsMarker(all[i]);
    }
    if AnyHoldsMarker(b) {
      var i :| 0 <= i < |b| && HoldsMarker(b[i]);
      assert HoldsMarker(all[|a| + i]);
    }
    if AnyHoldsMarker(all) {
      var i :| 0 <= i < |all| && HoldsMarker(all[i]);
      assert if i < |a| then HoldsMarker(a[i]) else HoldsMarker(b[i - |a|]);
    }
  }

  lemma HoldsMarkerOne(message: Json)
    ensures AnyHoldsMarker([message]) <==> HoldsMarker(message)
  {
    assert [message][0] == message;
  }

  lemma WithContent(fields: Fields, content: Json)
    ensures Get(Obj(fields[K.Content := content]), K.Content) == Some(content)
  {
  }

  /** The content of an emitted Chat message is missing, a text, or the direct parts. */
  lemma ChatContentOf(s: Serde, handling: Handling, m: Message)
    requires DirectChatMessage(s, handling, m).Some?
    ensures var content := AsArr(Get(DirectChatMessage(s, handling, m).value, K.Content));
      content.None? || content.value == DirectParts(ChatCompletions, handling, false, VisibleBlocks(m.role, m.content))
  {
    ChatFieldsShape(s, m);
    var visible := VisibleBlocks(m.role, m.content);
    var parts, fields := DirectParts(ChatCompletions, handling, false, visible), ChatFields(s, m);
    WithContent(fields, Arr(parts));
    WithContent(fields, Str(""));
    if |visible| == 1 && visible[0].Text? {
      WithContent(fields, Str(visible[0].text));
    }
  }

  lemma ChatHoldsNoMarker(s: Serde, handling: Handling, m: Message)
    ensures !AnyHoldsMarker(Listed(DirectChatMessage(s, handling, m)))
  {
    if DirectChatMessage(s, handling, m).Some? {
      ChatContentOf(s, handling, m);
      MarkerSurvivesIff(ChatCompletions, handling, false, VisibleBlocks(m.role, m.content));
      HoldsMarkerOne(DirectChatMessage(s, handling, m).value);
    }
  }

  lemma {:induction false} CallItemsHoldNoMarker(s: Serde, blocks: seq<Block>)
    ensures !AnyHoldsMarker(CallItemsOf(s, blocks))
  {
    if blocks == [] {
    } else {
      CallItemsHoldNoMarker(s, blocks[1..]);
      if blocks[0].ToolCall? || blocks[0].ToolResult? {
        assert Get(InputItem(s, blocks[0]), K.Content).None?;
        HoldsMarkerOne(InputItem(s, blocks[0]));
        AnyHoldsConcat([InputItem(s, blocks[0])], CallItemsOf(s, blocks[1..]));
      } else {
        assert CallItemsOf(s, blocks) == CallItemsOf(s, blocks[1..]);
      }
    }
  }

  lemma RoleAndContentHolds(role: Role, parts: seq<Json>)
    ensures HoldsMarker(RoleAndContent(role, Arr(parts))) <==> AnyMarker(parts)
    ensures !HoldsMarker(RoleAndContent(role, Str("")))
  {
    assert Get(RoleAndContent(role, Arr(parts)), K.Content) == Some(Arr(parts));
    assert Get(RoleAndContent(role, Str("")), K.Content) == Some(Str(""));
  }

  lemma ItemsHoldNoMarker(s: Serde, handling: Handling, m: Message)
    ensures !AnyHoldsMarker(DirectItems(s, handling, m))
  {
    var assistant := m.role == Assistant;
    var parts := DirectParts(Protocol.Responses, handling, assistant, VisibleBlocks(m.role, m.content));
    MarkerSurvivesIff(Protocol.Responses, handling, assistant, VisibleBlocks(m.role, m.content));
    CallItemsHoldNoMarker(s, m.content);
    RoleAndContentHolds(m.role, parts);
    HoldsMarkerOne(RoleAndContent(m.role, Arr(parts)));
    AnyHoldsConcat(CallItemsOf(s, m.content), if parts == [] then [] else [RoleAndContent(m.role, Arr(parts))]);
  }

  lemma MessageHoldsMarkerIff(handling: Handling, m: Message)
    ensures AnyHoldsMarker(Listed(DirectMessage(handling, m))) <==> handling == Preserve && AnyForged(m.content)
  {
    var parts := DirectParts(Protocol.Messages, handling, false, m.content);
    MarkerSurvivesIff(Protocol.Messages, handling, false, m.content);
    RoleAndContentHolds(m.role, parts);
    if DirectMessage(handling, m).Some? {
      HoldsMarkerOne(DirectMessage(handling, m).value);
    }
  }

  lemma OneHoldsMarkerIff(s: Serde, protocol: Protocol, handling: Handling, m: Message)
    ensures AnyHoldsMarker(DirectOne(s, protocol, handling, m))
       <==> protocol == Protocol.Messages && handling == Preserve && ForgedMessage(m)
  {
    match protocol
    case ChatCompletions => ChatHoldsNoMarker(s, handling, m);
    case Responses => ItemsHoldNoMarker(s, handling, m);
    case Messages => MessageHoldsMarkerIff(handling, m);
  }

  predicate ForgedMessage(m: Message) {
    !IsInstruction(m) && AnyForged(m.content)
  }

  predicate AnyForgedMessage(ms: seq<Message>) {
    exists i :: 0 <= i < |ms| && ForgedMessage(ms[i])
  }

  lemma {:induction false} AllHoldMarkerIff(s: Serde, protocol: Protocol, handling: Handling, ms: seq<Message>)
    ensures AnyHoldsMarker(DirectAll(s, protocol, handling, ms))
       <==> protocol == Protocol.Messages && handling == Preserve && AnyForgedMessage(ms)
  {
    if ms == [] {
    } else {
      AllHoldMarkerIff(s, protocol, handling, ms[1..]);
      OneHoldsMarkerIff(s, protocol, handling, ms[0]);
      AnyHoldsConcat(DirectOne(s, protocol, handling, ms[0]), DirectAll(s, protocol, handling, ms[1..]));
      ForgedMessageFirst(ms);
    }
  }

  lemma ForgedMessageFirst(ms: seq<Message>)
    requires ms != []
    ensures AnyForgedMessage(ms) <==> ForgedMessage(ms[0]) || AnyForgedMessage(ms[1..])
  {
    if AnyForgedMessage(ms[1..]) {
      var i :| 0 <= i < |ms[1..]| && ForgedMessage(ms[1..][i]);
      assert ForgedMessage(ms[i + 1]);
    }
    if AnyForgedMessage(ms) {
      var i :| 0 <= i < |ms| && ForgedMessage(ms[i]);
      assert i > 0 ==> ForgedMessage(ms[1..][i - 1]);
    }
  }

  /** The messages of an encoded request. */
  function EmittedMessages(protocol: Protocol, body: Json): seq<Json> {
    ItemsOf(Get(body, MessagesKey(protocol)))
  }

  /** No message of an encoded request holds a marker, unless thinking is preserved for Messages and a block is forged. */
  lemma RequestHoldsMarkerIff(s: Serde, protocol: Protocol, handling: Handling, ms: seq<Message>, rest: Fields)
    requires Direct(s, protocol, handling, ms, rest).Ok?
    ensures AnyHoldsMarker(EmittedMessages(protocol, Direct(s, protocol, handling, ms, rest).value))
       <==> protocol == Protocol.Messages && handling == Preserve && AnyForgedMessage(ms)
  {
    AllHoldMarkerIff(s, protocol, handling, ms);
    assert EmittedMessages(protocol, Direct(s, protocol, handling, ms, rest).value) == DirectAll(s, protocol, handling, ms);
  }

  predicate AllClean(ms: seq<Message>) {
    forall i :: 0 <= i < |ms| ==> CleanMessage(ms[i])
  }

  predicate CleanMessage(m: Message) {
    forall i :: 0 <= i < |m.content| ==> CleanExtra(m.content[i])
  }

  /** The messages that are not instructions. */
  function Conversation(ms: seq<Message>): seq<Message> {
    if ms == [] then []
    else if IsInstruction(ms[0]) then Conversation(ms[1..])
    else [ms[0]] + Conversation(ms[1..])
  }

  /** The content of an emitted message parses, and its thinking is that of `m`. */
  predicate ReturnsThinking(s: Serde, message: Json, m: Message) {
    var content := Get(message, K.Content);
    content.Some? && ParseContent(s, content.value).Ok? && ThinkingOf(ParseContent(s, content.value).value) == ThinkingOf(m.content)
  }

  lemma {:induction false} SomeThinkingListed(blocks: seq<Block>)
    requires SomeThinking(blocks)
    ensures ThinkingOf(blocks) != []
  {
    if IsThinking(blocks[0]) {
    } else {
      var i :| 0 <= i < |blocks| && IsThinking(blocks[i]);
      assert IsThinking(blocks[1..][i - 1]);
      SomeThinkingListed(blocks[1..]);
    }
  }

  lemma MessageReturnsThinking(s: Serde, m: Message)
    requires CleanMessage(m)
    ensures DirectMessage(Preserve, m).Some? && ReturnsThinking(s, DirectMessage(Preserve, m).value, m)
  {
    PreservedThinkingReturns(s, m.content);
    var parts := DirectParts(Protocol.Messages, Preserve, false, m.content);
    if parts == [] {
      assert ParseParts(s, parts) == Ok([]);
      if SomeThinking(m.content) {
        SomeThinkingListed(m.content);
      }
      assert Get(RoleAndContent(m.role, Str("")), K.Content) == Some(Str(""));
      assert [Text("")][1..] == [];
    } else {
      assert Get(RoleAndContent(m.role, Arr(parts)), K.Content) == Some(Arr(parts));
    }
  }

  /** One message per turn, each with the thinking of its turn. */
  predicate AllReturn(s: Serde, messages: seq<Json>, turns: seq<Message>) {
    |messages| == |turns| && forall i :: 0 <= i < |messages| ==> ReturnsThinking(s, messages[i], turns[i])
  }

  lemma AllReturnFirst(s: Serde, message: Json, messages: seq<Json>, turn: Message, turns: seq<Message>)
    requires ReturnsThinking(s, message, turn) && AllReturn(s, messages, turns)
    ensures AllReturn(s, [message] + messages, [turn] + turns)
  {
    var all, ms := [message] + messages, [turn] + turns;
    forall i | 0 <= i < |all| ensures ReturnsThinking(s, all[i], ms[i]) {
      assert i > 0 ==> all[i] == messages[i - 1] && ms[i] == turns[i - 1];
    }
  }

  /** Preserved for Messages, a request has one message per turn, and each parses back to the thinking of its turn. */
  lemma {:induction false} PreservedRequestReturns(s: Serde, ms: seq<Message>)
    requires AllClean(ms)
    ensures AllReturn(s, DirectAll(s, Protocol.Messages, Preserve, ms), Conversation(ms))
  {
    if ms == [] {
    } else {
      PreservedRequestReturns(s, ms[1..]);
      var rest := DirectAll(s, Protocol.Messages, Preserve, ms[1..]);
      if IsInstruction(ms[0]) {
        assert [] + rest == rest;
      } else {
        assert CleanMessage(ms[0]);
        MessageReturnsThinking(s, ms[0]);
        AllReturnFirst(s, DirectMessage(Preserve, ms[0]).value, rest, ms[0], Conversation(ms[1..]));
      }
    }
  }

  /** The same of what the encoder returns. */
  lemma EncodedThinkingReturns(s: Serde, ms: seq<Message>, rest: Fields)
    requires AllClean(ms) && Direct(s, Protocol.Messages, Preserve, ms, rest).Ok?
    ensures AllReturn(s, EmittedMessages(Protocol.Messages, Direct(s, Protocol.Messages, Preserve, ms, rest).value), Conversation(ms))
  {
    PreservedRequestReturns(s, ms);
    assert EmittedMessages(Protocol.Messages, Direct(s, Protocol.Messages, Preserve, ms, rest).value)
      == DirectAll(s, Protocol.Messages, Preserve, ms);
  }
}

/**
 The canonical assistant response on the wire: `src/protocol/response_encode.rs` and
 `src/protocol/response_decoding.rs`, without images, documents and costs.
 */
module ResponseCodec {
  import opened Collections
  import opened Protocols
  import opened JsonValues
  import opened TokenUsage
  import opened ContentBlocks
  import K = JsonKeys

  datatype Response = Response(id: string, model: string, content: seq<Block>, finishReason: string, usage: Option<Usage>)

  // ----- finish reasons ------------------------------------------------------------------

  function ChatFinish(reason: string): string {
    if Contains(reason, "tool") then "tool_calls"
    else if Contains(reason, "length") || Contains(reason, "max_tokens") then "length"
    else "stop"
  }

  function MessagesFinish(reason: string): string {
    if Contains(reason, "tool") then "tool_use"
    else if Contains(reason, "length") || Contains(reason, "max_tokens") then "max_tokens"
    else if Contains(reason, "stop_sequence") then "stop_sequence"
    else "end_turn"
  }

  function ResponsesStatus(reason: string): string {
    if Contains(reason, "length") then "incomplete" else "completed"
  }

  // ----- encoding ------------------------------------------------------------------------

  function ChatCalls(s: Serde, calls: seq<Block>): seq<Json>
    requires OnlyCalls(calls)
  {
    if calls == [] then [] else [ChatCall(s, calls[0])] + ChatCalls(s, calls[1..])
  }

  function ChatMessage(text: string, reasoning: string, calls: seq<Json>): Json {
    Obj(map[K.Role := Str("assistant"), K.Content := if text == "" then Null else Str(text)]
      + (if reasoning == "" then map[] else map[K.ReasoningContent := Str(reasoning)])
      + (if calls == [] then map[] else map[K.ToolCalls := Arr(calls)]))
  }

  function EncodeChat(s: Serde, r: Response): Json {
    CallsAreCalls(r.content);
    Obj(map[
      K.Id := Str(r.id), K.Object := Str("chat.completion"), K.Created := Num(0), K.Model := Str(r.model),
      K.Choices := Arr([Obj(map[
        K.Index := Num(0),
        K.Message := ChatMessage(TextOf(r.content), Joined(ReasoningsOf(r.content)), ChatCalls(s, CallsOf(r.content))),
        K.FinishReason := Str(ChatFinish(r.finishReason))])]),
      K.Usage := EncodeUsage(ChatCompletions, r.usage)])
  }

  /** Reasoning that is more than white space. */
  function Shown(reasonings: seq<string>): seq<string> {
    if reasonings == [] then []
    else (if Blank(reasonings[0]) then [] else [reasonings[0]]) + Shown(reasonings[1..])
  }

  function Digits(n: nat): string {
    if n < 10 then [(48 + n) as char] else Digits(n / 10) + [(48 + n % 10) as char]
  }

  function ReasoningItem(position: nat, text: string): Json {
    Obj(map[
      K.Id := Str("rs_" + Digits(position)), K.Type := Str("reasoning"),
      K.Content := Arr([Obj(map[K.Type := Str("reasoning_text"), K.Text := Str(text)])]),
      K.Summary := Arr([])])
  }

  function ReasoningItems(position: nat, texts: seq<string>): seq<Json>
    decreases |texts|
  {
    if texts == [] then [] else [ReasoningItem(position, texts[0])] + ReasoningItems(position + 1, texts[1..])
  }

  function MessageItem(text: string): Json {
    Obj(map[
      K.Id := Str("msg_0"), K.Type := Str("message"), K.Role := Str("assistant"),
      K.Content := Arr([Obj(map[K.Type := Str("output_text"), K.Text := Str(text), K.Annotations := Arr([])])])])
  }

  function CallItem(s: Serde, call: Block): Json
    requires call.ToolCall?
  {
    Obj(map[
      K.Id := Str(call.id), K.Type := Str("function_call"), K.CallId := Str(call.id), K.Name := Str(call.name),
      K.Arguments := Str(s.toText(call.arguments))])
  }

  function CallItems(s: Serde, calls: seq<Block>): seq<Json>
    requires OnlyCalls(calls)
  {
    if calls == [] then [] else [CallItem(s, calls[0])] + CallItems(s, calls[1..])
  }

  function OutputItems(s: Serde, content: seq<Block>): seq<Json> {
    CallsAreCalls(content);
    ReasoningItems(0, Shown(ReasoningsOf(content)))
    + (if TextOf(content) == "" then [] else [MessageItem(TextOf(content))])
    + CallItems(s, CallsOf(content))
  }

  function EncodeResponses(s: Serde, r: Response): Json {
    Obj(map[
      K.Id := Str(r.id), K.Object := Str("response"), K.Status := Str(ResponsesStatus(r.finishReason)),
      K.Model := Str(r.model), K.Output := Arr(OutputItems(s, r.content)), K.OutputText := Str(TextOf(r.content)),
      K.Usage := EncodeUsage(Protocol.Responses, r.usage)])
  }

  /** Everything but tool calls, in the Anthropic shape. */
  function AnthropicParts(content: seq<Block>): seq<Json> {
    if content == [] then []
    else (if content[0].ToolCall? then [] else [ToAnthropic(content[0])]) + AnthropicParts(content[1..])
  }

  function AnthropicCalls(calls: seq<Block>): seq<Json> {
    if calls == [] then [] else [ToAnthropic(calls[0])] + AnthropicCalls(calls[1..])
  }

  function MessagesContent(content: seq<Block>): seq<Json> {
    var parts := AnthropicParts(content);
    (if parts == [] then [TextPart(TextOf(content))] else parts) + AnthropicCalls(CallsOf(content))
  }

  function EncodeMessages(r: Response): Json {
    Obj(map[
      K.Id := Str(r.id), K.Type := Str("message"), K.Role := Str("assistant"), K.Model := Str(r.model),
      K.Content := Arr(MessagesContent(r.content)), K.StopReason := Str(MessagesFinish(r.finishReason)),
      K.StopSequence := Null, K.Usage := EncodeUsage(Protocol.Messages, r.usage)])
  }

  /** `encode_response` */
  function Encode(s: Serde, protocol: Protocol, r: Response): Json {
    match protocol
    case ChatCompletions => EncodeChat(s, r)
    case Responses => EncodeResponses(s, r)
    case Messages => EncodeMessages(r)
  }

  // ----- decoding ------------------------------------------------------------------------

  function ParseReasoning(v: Option<Json>): Result<Option<string>, Error> {
    if v.None? || v.value.Null? then Ok(None)
    else if !v.value.Str? then Err(BadReasoning)
    else if ByteLength(v.value.s) > MAX_REASONING_CONTENT_BYTES then Err(ReasoningTooLong)
    else Ok(if v.value.s == "" then None else Some(v.value.s))
  }

  /** `parse_content_part`; parts that hold images or documents are not modelled and are refused. */
  function ParsePart(s: Serde, part: Json): Result<Block, Error>
    decreases part, 0
  {
    var kind := StrOr(Get(part, K.Type), "");
    if kind == KIND_TEXT || kind == "input_text" || kind == "output_text" then
      Ok(Text(StrOr(Get(part, K.Text), "")))
    else if kind == KIND_THINKING || kind == KIND_REDACTED then ParseThinkingPart(part)
    else if kind == KIND_TOOL_USE || kind == "function_call" then
      var given := Or(Get(part, K.Input), Get(part, K.Arguments));
      var arguments := if given.None? then Obj(map[]) else given.value;
      Ok(ToolCall(
        StrOr(Or(Get(part, K.Id), Get(part, K.CallId)), "call"),
        StrOr(Get(part, K.Name), ""),
        if arguments.Str? && s.fromText(arguments.s).Some? then s.fromText(arguments.s).value else arguments))
    else if kind == KIND_TOOL_RESULT || kind == "function_call_output" then
      var inner := Or(Get(part, K.Content), Get(part, K.Output));
      var content :- if inner.None? then Ok([]) else ParseContent(s, inner.value);
      Ok(ToolResult(StrOr(Or(Get(part, K.ToolUseId), Get(part, K.CallId)), ""), content))
    else Err(Unsupported)
  }

  function ParseParts(s: Serde, parts: seq<Json>): Result<seq<Block>, Error>
    decreases parts, 0
  {
    if parts == [] then Ok([])
    else
      var first :- ParsePart(s, parts[0]);
      var rest :- ParseParts(s, parts[1..]);
      Ok([first] + rest)
  }

  /** `parse_content` of a value that is there. */
  function ParseContent(s: Serde, v: Json): Result<seq<Block>, Error>
    decreases v, 1
  {
    match v
    case Str(text) => Ok([Text(text)])
    case Arr(parts) => ParseParts(s, parts)
    case Obj(fields) =>
      if K.Type in fields then
        var block :- ParsePart(s, v);
        Ok([block])
      else if AsStr(Get(v, K.Text)).Some? then Ok([Text(AsStr(Get(v, K.Text)).value)])
      else Ok([])
    case _ => Ok([])
  }

  function ParseMaybe(s: Serde, v: Option<Json>): Result<seq<Block>, Error> {
    if v.None? then Ok([]) else ParseContent(s, v.value)
  }

  function FromTextOr(s: Serde, text: string, default: Json): Json {
    if s.fromText(text).Some? then s.fromText(text).value else default
  }

  function DecodeChatCall(s: Serde, call: Json): Block {
    var f := if Get(call, K.Function).Some? then Get(call, K.Function).value else call;
    ToolCall(
      StrOr(Get(call, K.Id), "call"),
      StrOr(Get(f, K.Name), ""),
      FromTextOr(s, StrOr(Get(f, K.Arguments), "{}"), Obj(map[])))
  }

  function DecodeChatCalls(s: Serde, calls: seq<Json>): seq<Block> {
    if calls == [] then [] else [DecodeChatCall(s, calls[0])] + DecodeChatCalls(s, calls[1..])
  }

  function ChatContent(s: Serde, raw: Json): Result<seq<Block>, Error> {
    var reasoning :- ParseReasoning(Get(raw, K.ReasoningContent));
    var parsed :- ParseMaybe(s, Get(raw, K.Content));
    Ok((if reasoning.Some? then [Reasoning(reasoning.value)] else []) + parsed
      + DecodeChatCalls(s, ItemsOf(Get(raw, K.ToolCalls))))
  }

  function DecodeChat(s: Serde, v: Json, requestedModel: string): Result<Response, Error> {
    var choices := ItemsOf(Get(v, K.Choices));
    if choices == [] then Err(NoChoices)
    else if Get(choices[0], K.Message).None? then Err(NoMessage)
    else
      var content :- ChatContent(s, Get(choices[0], K.Message).value);
      Ok(Response(
        StrOr(Get(v, K.Id), "exo-response"), StrOr(Get(v, K.Model), requestedModel), content,
        StrOr(Get(choices[0], K.FinishReason), "stop"), DecodeUsage(ChatCompletions, Get(v, K.Usage))))
  }

  /** The reasoning texts among the parts of a reasoning item. */
  function ReasoningParts(parts: seq<Json>): Result<seq<Block>, Error> {
    if parts == [] then Ok([])
    else
      var kind := AsStr(Get(parts[0], K.Type));
      var text :- if kind == Some("reasoning_text") || kind == Some("summary_text")
        then ParseReasoning(Get(parts[0], K.Text)) else Ok(None);
      var rest :- ReasoningParts(parts[1..]);
      Ok((if text.Some? then [Reasoning(text.value)] else []) + rest)
  }

  /** The texts among the parts of any other item. */
  function PartTexts(parts: seq<Json>): seq<Block> {
    if parts == [] then []
    else
      var text := AsStr(Get(parts[0], K.Text));
      (if text.Some? then [Text(text.value)] else []) + PartTexts(parts[1..])
  }

  function DecodeCallItem(s: Serde, item: Json): seq<Block> {
    var kind := AsStr(Get(item, K.Type));
    var id := StrOr(Or(Get(item, K.CallId), Get(item, K.Id)), "call");
    var name := StrOr(Get(item, K.Name), "");
    if kind == Some("custom_tool_call") then
      var input := Get(item, K.Input);
      if name == "" then []
      else [ToolCall(id, name,
        if input.None? then Str("") else if input.value.Str? then FromTextOr(s, input.value.s, input.value) else input.value)]
    else if kind == Some("function_call") then
      var given := Get(item, K.Arguments);
      var otherwise := if given.None? then Obj(map[]) else given.value;
      [ToolCall(id, name, if AsStr(given).Some? then FromTextOr(s, given.value.s, otherwise) else otherwise)]
    else []
  }

  /** One output item. */
  function DecodeItem(s: Serde, item: Json): Result<seq<Block>, Error> {
    if AsStr(Get(item, K.Type)) == Some("reasoning") then
      var main :- ReasoningParts(ItemsOf(Get(item, K.Content)));
      var summary :- ReasoningParts(ItemsOf(Get(item, K.Summary)));
      Ok(main + summary)
    else Ok(PartTexts(ItemsOf(Get(item, K.Content))) + DecodeCallItem(s, item))
  }

  function DecodeItems(s: Serde, items: seq<Json>): Result<seq<Block>, Error> {
    if items == [] then Ok([])
    else
      var first :- DecodeItem(s, items[0]);
      var rest :- DecodeItems(s, items[1..]);
      Ok(first + rest)
  }

  function ResponsesFinish(v: Json, content: seq<Block>): Result<string, Error> {
    var status := StrOr(Get(v, K.Status), "completed");
    if status == "completed" then Ok(if CallsOf(content) != [] then "tool_calls" else "stop")
    else if status == "incomplete" then Ok("length")
    else if status == "failed" || status == "cancelled" then Err(FailedStatus)
    else Err(NotTerminal)
  }

  function DecodeResponses(s: Serde, v: Json, requestedModel: string): Result<Response, Error> {
    var items :- DecodeItems(s, ItemsOf(Get(v, K.Output)));
    var text := AsStr(Get(v, K.OutputText));
    var content := items + if TextsOf(items) == [] && text.Some? then [Text(text.value)] else [];
    var finish :- ResponsesFinish(v, content);
    Ok(Response(
      StrOr(Get(v, K.Id), "exo-response"), StrOr(Get(v, K.Model), requestedModel), content,
      finish, DecodeUsage(Protocol.Responses, Get(v, K.Usage))))
  }

  function DecodeMessagesPart(s: Serde, part: Json): Result<seq<Block>, Error> {
    var kind := AsStr(Get(part, K.Type));
    if kind == Some(KIND_TEXT) then
      Ok(if AsStr(Get(part, K.Text)).Some? then [Text(AsStr(Get(part, K.Text)).value)] else [])
    else if kind == Some(KIND_THINKING) || kind == Some(KIND_REDACTED) then ParseParts(s, [part])
    else if kind == Some("image") || kind == Some("document") then Err(Unsupported)
    else if kind == Some(KIND_TOOL_USE) then
      Ok([ToolCall(StrOr(Get(part, K.Id), "call"), StrOr(Get(part, K.Name), ""),
                   if Get(part, K.Input).Some? then Get(part, K.Input).value else Obj(map[]))])
    else Ok([])
  }

  function DecodeMessagesParts(s: Serde, parts: seq<Json>): Result<seq<Block>, Error> {
    if parts == [] then Ok([])
    else
      var first :- DecodeMessagesPart(s, parts[0]);
      var rest :- DecodeMessagesParts(s, parts[1..]);
      Ok(first + rest)
  }

  function DecodeMessages(s: Serde, v: Json, requestedModel: string): Result<Response, Error> {
    var content :- DecodeMessagesParts(s, ItemsOf(Get(v, K.Content)));
    Ok(Response(
      StrOr(Get(v, K.Id), "exo-response"), StrOr(Get(v, K.Model), requestedModel), content,
      StrOr(Get(v, K.StopReason), "end_turn"), DecodeUsage(Protocol.Messages, Get(v, K.Usage))))
  }

  /** What a payload looks like; `None` when it is ambiguous. */
  datatype Shape = GooglePayload | ClientPayload(protocol: Protocol)

  predicate HasTypedPart(parts: seq<Json>) {
    exists i :: 0 <= i < |parts| && AsStr(Get(parts[i], K.Type)).Some?
  }

  /** `detected_payload_protocol` */
  function DetectedShape(v: Json): Option<Shape> {
    if Get(v, K.Candidates).Some? || Get(v, K.UsageMetadata).Some? then Some(GooglePayload)
    else if AsStr(Get(v, K.Object)) == Some("response") || AsArr(Get(v, K.Output)).Some? || AsStr(Get(v, K.OutputText)).Some? then
      Some(ClientPayload(Protocol.Responses))
    else if HasTypedPart(ItemsOf(Get(v, K.Content)))
         && (Get(v, K.StopReason).Some? || AsStr(Get(v, K.Role)) == Some("assistant") || AsStr(Get(v, K.Type)) == Some("message")) then
      Some(ClientPayload(Protocol.Messages))
    else if Get(v, K.Choices).Some? then Some(ClientPayload(ChatCompletions))
    else None
  }

  predicate BlockHasOutput(b: Block) {
    match b
    case Text(text) => !Blank(text)
    case Reasoning(text) => !Blank(text)
    case Thinking(thinking, _, _) => !Blank(thinking)
    case RedactedThinking(data, _) => !Blank(data)
    case ToolCall(_, name, _) => !Blank(name)
    case ToolResult(_, content) => HasOutput(content)
  }

  predicate HasOutput(content: seq<Block>) {
    exists i :: 0 <= i < |content| && BlockHasOutput(content[i])
  }

  /** `decode_upstream_response` */
  function Decode(s: Serde, protocol: Protocol, v: Json, requestedModel: string): Result<Response, Error> {
    var r :- match protocol
      case ChatCompletions => DecodeChat(s, v, requestedModel)
      case Responses => DecodeResponses(s, v, requestedModel)
      case Messages => DecodeMessages(s, v, requestedModel);
    if HasOutput(r.content) then Ok(r) else Err(NoContent)
  }
}

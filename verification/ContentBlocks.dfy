/** Canonical content blocks, `src/protocol/model.rs`, and their Anthropic shape and parser. */
module ContentBlocks {
  import opened Collections
  import opened JsonValues
  import K = JsonKeys

  type Fields = map<K.Key, Json>

  datatype Block =
    | Text(text: string)
    | Reasoning(text: string)
    | Thinking(thinking: string, signature: Option<string>, extra: Fields)
    | RedactedThinking(data: string, extra: Fields)
    | ToolCall(id: string, name: string, arguments: Json)
    | ToolResult(callId: string, content: seq<Block>)

  const KIND_TEXT := "text"
  const KIND_THINKING := "thinking"
  const KIND_REDACTED := "redacted_thinking"
  const KIND_TOOL_USE := "tool_use"
  const KIND_TOOL_RESULT := "tool_result"

  /** The kinds are told apart. */
  lemma KindsDiffer()
    ensures KIND_TEXT != KIND_THINKING && KIND_TEXT != KIND_REDACTED && KIND_TEXT != KIND_TOOL_USE
    ensures KIND_THINKING != KIND_REDACTED && KIND_THINKING != KIND_TOOL_USE && KIND_REDACTED != KIND_TOOL_USE
  {
    assert KIND_THINKING[1] != KIND_TOOL_USE[1];
  }

  const MAX_REASONING_CONTENT_BYTES: nat := 4 * 1024 * 1024

  datatype Error =
    | NoChoices | NoMessage | BadReasoning | ReasoningTooLong | MissingThinking | BadSignature | MissingData
    | Unsupported | FailedStatus | NotTerminal | NoContent | MisplacedThinking | RedactedUnsupported | NothingLeft | MissingRole | UnknownRole

  // ----- projections ---------------------------------------------------------------------

  /** All text, concatenated. */
  function TextOf(blocks: seq<Block>): string {
    if blocks == [] then ""
    else (if blocks[0].Text? then blocks[0].text else "") + TextOf(blocks[1..])
  }

  function TextsOf(blocks: seq<Block>): seq<string> {
    if blocks == [] then []
    else if blocks[0].Text? then [blocks[0].text] + TextsOf(blocks[1..])
    else TextsOf(blocks[1..])
  }

  function ReasoningsOf(blocks: seq<Block>): seq<string> {
    if blocks == [] then []
    else if blocks[0].Reasoning? then [blocks[0].text] + ReasoningsOf(blocks[1..])
    else ReasoningsOf(blocks[1..])
  }

  function CallsOf(blocks: seq<Block>): seq<Block> {
    if blocks == [] then []
    else if blocks[0].ToolCall? then [blocks[0]] + CallsOf(blocks[1..])
    else CallsOf(blocks[1..])
  }

  lemma {:induction false} TextOfConcat(a: seq<Block>, b: seq<Block>)
    ensures TextOf(a + b) == TextOf(a) + TextOf(b)
  {
    if a == [] {
      assert a + b == b;
    } else {
      assert (a + b)[1..] == a[1..] + b;
      TextOfConcat(a[1..], b);
    }
  }

  lemma {:induction false} ReasoningsOfConcat(a: seq<Block>, b: seq<Block>)
    ensures ReasoningsOf(a + b) == ReasoningsOf(a) + ReasoningsOf(b)
  {
    if a == [] {
      assert a + b == b;
    } else {
      assert (a + b)[1..] == a[1..] + b;
      ReasoningsOfConcat(a[1..], b);
    }
  }

  lemma {:induction false} CallsOfConcat(a: seq<Block>, b: seq<Block>)
    ensures CallsOf(a + b) == CallsOf(a) + CallsOf(b)
  {
    if a == [] {
      assert a + b == b;
    } else {
      assert (a + b)[1..] == a[1..] + b;
      CallsOfConcat(a[1..], b);
    }
  }

  predicate OnlyCalls(blocks: seq<Block>) {
    forall i :: 0 <= i < |blocks| ==> blocks[i].ToolCall?
  }

  lemma {:induction false} OnlyCallsProjects(calls: seq<Block>)
    requires OnlyCalls(calls)
    ensures TextOf(calls) == "" && ReasoningsOf(calls) == [] && CallsOf(calls) == calls
  {
    if calls == [] {
    } else {
      OnlyCallsProjects(calls[1..]);
    }
  }

  lemma {:induction false} CallsAreCalls(blocks: seq<Block>)
    ensures OnlyCalls(CallsOf(blocks))
  {
    if blocks == [] {
    } else {
      CallsAreCalls(blocks[1..]);
    }
  }

  /** A tool call in the Chat Completions shape. */
  function ChatCall(s: Serde, call: Block): Json
    requires call.ToolCall?
  {
    Obj(map[K.Id := Str(call.id), K.Type := Str("function"),
            K.Function := Obj(map[K.Name := Str(call.name), K.Arguments := Str(s.toText(call.arguments))])])
  }

  // ----- the Anthropic shape -------------------------------------------------------------

  function TextPart(text: string): Json {
    Obj(map[K.Type := Str(KIND_TEXT), K.Text := Str(text)])
  }

  function TextParts(texts: seq<string>): seq<Json> {
    if texts == [] then [] else [TextPart(texts[0])] + TextParts(texts[1..])
  }

  /** An exactly empty text part. */
  predicate EmptyTextPart(part: Json) {
    AsStr(Get(part, K.Type)) == Some(KIND_TEXT) && AsStr(Get(part, K.Text)) == Some("")
  }

  /** Some part is more than an empty text. */
  predicate AnyText(parts: seq<Json>) {
    exists i :: 0 <= i < |parts| && !EmptyTextPart(parts[i])
  }

  function SignatureFields(signature: Option<string>): Fields {
    if signature.None? then map[] else map[K.Signature := Str(signature.value)]
  }

  /** `content_to_anthropic`, which has a value for each of these blocks. */
  function ToAnthropic(b: Block): Json {
    match b
    case Text(text) => TextPart(text)
    case Reasoning(text) => TextPart(text)
    case Thinking(thinking, signature, extra) =>
      Obj(map[K.Type := Str(KIND_THINKING), K.Thinking := Str(thinking)] + SignatureFields(signature) + extra)
    case RedactedThinking(data, extra) =>
      Obj(map[K.Type := Str(KIND_REDACTED), K.Data := Str(data)] + extra)
    case ToolCall(id, name, arguments) =>
      Obj(map[K.Type := Str(KIND_TOOL_USE), K.Id := Str(id), K.Name := Str(name), K.Input := arguments])
    case ToolResult(callId, content) =>
      var parts := TextParts(TextsOf(content));
      Obj(map[K.Type := Str(KIND_TOOL_RESULT), K.ToolUseId := Str(callId),
              K.Content := if AnyText(parts) then Arr(parts) else Str("")])
  }

  /** The thinking arms of `parse_content_part`. */
  function ParseThinkingPart(part: Json): Result<Block, Error>
    requires part.Obj?
  {
    if AsStr(Get(part, K.Type)) == Some(KIND_THINKING) then
      var thinking := AsStr(Get(part, K.Thinking));
      var signature := Get(part, K.Signature);
      if thinking.None? then Err(MissingThinking)
      else if signature.None? || signature.value.Null? then
        Ok(Thinking(thinking.value, None, part.fields - {K.Type, K.Thinking, K.Signature}))
      else if signature.value.Str? then
        Ok(Thinking(thinking.value, Some(signature.value.s), part.fields - {K.Type, K.Thinking, K.Signature}))
      else Err(BadSignature)
    else
      var data := AsStr(Get(part, K.Data));
      if data.None? then Err(MissingData) else Ok(RedactedThinking(data.value, part.fields - {K.Type, K.Data}))
  }

  predicate IsThinking(b: Block) {
    b.Thinking? || b.RedactedThinking?
  }

  predicate SomeThinking(blocks: seq<Block>) {
    exists i :: 0 <= i < |blocks| && IsThinking(blocks[i])
  }

  /** Extra fields do not reuse a name the block itself writes; every parser guarantees it. */
  predicate CleanExtra(b: Block) {
    (b.Thinking? ==> b.extra.Keys !! {K.Type, K.Thinking, K.Signature})
    && (b.RedactedThinking? ==> b.extra.Keys !! {K.Type, K.Data})
  }

  /** A thinking block survives its own encoding exactly when its extra fields are clean. */
  lemma ThinkingRoundTripIff(b: Block)
    requires IsThinking(b)
    ensures ParseThinkingPart(ToAnthropic(b)) == Ok(b) <==> CleanExtra(b)
  {
    KindsDiffer();
    var part := ToAnthropic(b);
    var own := if b.Thinking? then {K.Type, K.Thinking, K.Signature} else {K.Type, K.Data};
    if CleanExtra(b) {
      assert part.fields - own == b.extra;
    }
  }

  /** Parsing yields clean extra fields, and encoding undoes parsing unless a null signature was sent. */
  lemma ParsedThinking(part: Json)
    requires part.Obj? && ParseThinkingPart(part).Ok?
    requires AsStr(Get(part, K.Type)) == Some(KIND_THINKING) || AsStr(Get(part, K.Type)) == Some(KIND_REDACTED)
    ensures var b := ParseThinkingPart(part).value;
      && IsThinking(b) && CleanExtra(b)
      && (ToAnthropic(b) == part <==> b.RedactedThinking? || Get(part, K.Signature) != Some(Null))
  {
    KindsDiffer();
    var b := ParseThinkingPart(part).value;
    var fields := ToAnthropic(b).fields;
    if b.Thinking? && Get(part, K.Signature) == Some(Null) {
      assert K.Signature !in fields;
    } else {
      assert fields.Keys == part.fields.Keys;
      assert fields == part.fields;
    }
  }
}

/** Reading the messages of a client request, `src/protocol/request_decoding.rs`. */
module RequestDecoding {
  import opened Collections
  import opened Protocols
  import opened JsonValues
  import opened ContentBlocks
  import opened ResponseCodec
  import opened ThinkingPayload
  import K = JsonKeys

  /** `parse_role` */
  function ParseRole(name: string): Result<Role, Error> {
    if name == "system" then Ok(System)
    else if name == "developer" then Ok(Developer)
    else if name == "user" then Ok(User)
    else if name == "assistant" then Ok(Assistant)
    else if name == "tool" then Ok(Tool)
    else Err(UnknownRole)
  }

  /** A tool call of a Chat message; arguments that are not JSON text stay text. */
  function RequestCall(s: Serde, call: Json): Block {
    var f := if Get(call, K.Function).Some? then Get(call, K.Function).value else call;
    var given := Get(f, K.Arguments);
    ToolCall(
      StrOr(Get(call, K.Id), "call"),
      StrOr(Get(f, K.Name), ""),
      if given.None? then Obj(map[]) else if given.value.Str? then FromTextOr(s, given.value.s, given.value) else given.value)
  }

  function RequestCalls(s: Serde, calls: seq<Json>): seq<Block> {
    if calls == [] then [] else [RequestCall(s, calls[0])] + RequestCalls(s, calls[1..])
  }

  function ChatTurn(s: Serde, raw: Json): Result<Message, Error> {
    var name := AsStr(Get(raw, K.Role));
    if name.None? then Err(MissingRole)
    else
      var role :- ParseRole(name.value);
      var reasoning :- if role == Assistant then ParseReasoning(Get(raw, K.ReasoningContent)) else Ok(None);
      var parsed :- ParseMaybe(s, Get(raw, K.Content));
      var content := (if reasoning.Some? then [Reasoning(reasoning.value)] else []) + parsed
        + RequestCalls(s, ItemsOf(Get(raw, K.ToolCalls)));
      Ok(Message(role,
        if role == Tool then [ToolResult(StrOr(Get(raw, K.ToolCallId), ""), content)] else content,
        AsStr(Get(raw, K.Name))))
  }

  /** An input item; calls and results carry no role and no content array. */
  function InputTurn(s: Serde, item: Json): Result<Message, Error> {
    var kind := AsStr(Get(item, K.Type));
    var inferred :=
      if kind == Some("function_call") || kind == Some("reasoning") then "assistant"
      else if kind == Some("function_call_output") then "tool"
      else "user";
    var role :- ParseRole(StrOr(Get(item, K.Role), inferred));
    var content :- if kind == Some("reasoning") then DecodeItem(s, item) else ParseMaybe(s, Get(item, K.Content));
    var own :- if kind == Some("function_call") || kind == Some("function_call_output") || kind == Some("input_text")
                  || kind == Some("input_image") || kind == Some("input_file")
      then ParseParts(s, [item]) else Ok([]);
    Ok(Message(role, content + own, AsStr(Get(item, K.Name))))
  }

  function MessagesTurn(s: Serde, raw: Json): Result<Message, Error> {
    var name := AsStr(Get(raw, K.Role));
    if name.None? then Err(MissingRole)
    else
      var role :- ParseRole(name.value);
      var content :- ParseMaybe(s, Get(raw, K.Content));
      if role != Assistant && SomeThinking(content) then Err(MisplacedThinking) else Ok(Message(role, content, None))
  }

  function Turn(s: Serde, protocol: Protocol, raw: Json): Result<Message, Error> {
    match protocol
    case ChatCompletions => ChatTurn(s, raw)
    case Responses => InputTurn(s, raw)
    case Messages => MessagesTurn(s, raw)
  }

  function Reader(s: Serde, protocol: Protocol): Json -> Result<Message, Error> {
    (raw: Json) => Turn(s, protocol, raw)
  }

  /** All messages in order, or the first error. */
  function Turns(s: Serde, protocol: Protocol, raws: seq<Json>): Result<seq<Message>, Error> {
    Collected(raws, Reader(s, protocol))
  }

  /** The loop over the messages, which stops at the first error. */
  method DecodeTurns(s: Serde, protocol: Protocol, raws: seq<Json>) returns (r: Result<seq<Message>, Error>)
    ensures r == Turns(s, protocol, raws)
  {
    var messages: seq<Message> := [];
    for i := 0 to |raws|
      invariant Turns(s, protocol, raws[..i]) == Ok(messages)
    {
      var turn := Reader(s, protocol)(raws[i]);
      if turn.Err? {
        CollectedFailsAt(raws, Reader(s, protocol), i);
        return Err(turn.error);
      }
      CollectedOne(raws[i], Reader(s, protocol));
      CollectedConcat(raws[..i], [raws[i]], Reader(s, protocol));
      assert raws[..i] + [raws[i]] == raws[..i + 1];
      messages := messages + [turn.value];
    }
    assert raws[..|raws|] == raws;
    return Ok(messages);
  }
}

/** When an encoded response is recognised and accepted by the decoder: `src/protocol/response_decoding.rs`. */
module ResponseDelivery {
  import opened Collections
  import opened Protocols
  import opened JsonValues
  import opened TokenUsage
  import opened ContentBlocks
  import opened ResponseCodec
  import opened ResponseRoundTrip
  import K = JsonKeys

  /** Every encoded response is recognised as a payload of its own protocol. */
  lemma EncodedIsRecognised(s: Serde, protocol: Protocol, r: Response)
    requires protocol == Protocol.Messages ==> Built(r.content)
    ensures DetectedShape(Encode(s, protocol, r)) == Some(ClientPayload(protocol))
  {
    match protocol
    case ChatCompletions => ChatRecognised(s, r);
    case Responses => ResponsesFields(s, r);
      NotGoogle(s, r);
    case Messages => MessagesRecognised(r);
  }

  lemma NotGoogle(s: Serde, r: Response)
    ensures Get(EncodeResponses(s, r), K.Candidates).None? && Get(EncodeResponses(s, r), K.UsageMetadata).None?
  {
  }

  lemma ChatRecognised(s: Serde, r: Response)
    ensures DetectedShape(EncodeChat(s, r)) == Some(ClientPayload(ChatCompletions))
  {
    CallsAreCalls(r.content);
    var v := EncodeChat(s, r);
    assert AsStr(Get(v, K.Object)) == Some("chat.completion") && |"chat.completion"| != |"response"|;
    assert Get(v, K.Candidates).None? && Get(v, K.UsageMetadata).None? && Get(v, K.Output).None? && Get(v, K.OutputText).None?;
    assert ItemsOf(Get(v, K.Content)) == [] && Get(v, K.Choices).Some?;
  }

  lemma PartHasType(b: Block)
    requires CleanExtra(b)
    ensures AsStr(Get(ToAnthropic(b), K.Type)).Some?
  {
  }

  lemma MessagesRecognised(r: Response)
    requires Built(r.content)
    ensures DetectedShape(EncodeMessages(r)) == Some(ClientPayload(Protocol.Messages))
  {
    MessagesFields(r);
    MessagesAbsentFields(r);
    FirstPartTyped(r.content);
    assert ItemsOf(Get(EncodeMessages(r), K.Content)) == MessagesContent(r.content);
  }

  lemma MessagesAbsentFields(r: Response)
    ensures var v := EncodeMessages(r);
      Get(v, K.Candidates).None? && Get(v, K.UsageMetadata).None? && Get(v, K.Output).None? && Get(v, K.OutputText).None?
      && Get(v, K.Object).None?
  {
  }

  lemma {:induction false} FirstPartTyped(content: seq<Block>)
    requires Built(content)
    ensures HasTypedPart(MessagesContent(content))
  {
    var parts := AnthropicParts(content);
    if parts == [] {
      assert AsStr(Get(MessagesContent(content)[0], K.Type)) == Some(KIND_TEXT);
    } else {
      PartsTyped(content);
      assert MessagesContent(content)[0] == parts[0];
    }
  }

  lemma {:induction false} PartsTyped(content: seq<Block>)
    requires Built(content)
    ensures forall i :: 0 <= i < |AnthropicParts(content)| ==> AsStr(Get(AnthropicParts(content)[i], K.Type)).Some?
  {
    if content == [] {
    } else {
      PartsTyped(content[1..]);
      PartHasType(content[0]);
    }
  }

  // ----- acceptance ----------------------------------------------------------------------

  lemma HasOutputConcat(a: seq<Block>, b: seq<Block>)
    ensures HasOutput(a + b) <==> HasOutput(a) || HasOutput(b)
  {
    var all := a + b;
    if HasOutput(a) {
      var i :| 0 <= i < |a| && BlockHasOutput(a[i]);
      assert BlockHasOutput(all[i]);
    }
    if HasOutput(b) {
      var i :| 0 <= i < |b| && BlockHasOutput(b[i]);
      assert BlockHasOutput(all[|a| + i]);
    }
    if HasOutput(all) {
      var i :| 0 <= i < |all| && BlockHasOutput(all[i]);
      assert if i < |a| then BlockHasOutput(a[i]) else BlockHasOutput(b[i - |a|]);
    }
  }

  lemma HasOutputOne(b: Block)
    ensures HasOutput([b]) <==> BlockHasOutput(b)
  {
    assert [b][0] == b;
  }

  /** Some tool call has a name. */
  predicate NamedCall(content: seq<Block>) {
    exists i :: 0 <= i < |content| && content[i].ToolCall? && !Blank(content[i].name)
  }

  /** Some other block says something. */
  predicate SaysSomething(content: seq<Block>) {
    exists i :: 0 <= i < |content| && !content[i].ToolCall? && BlockHasOutput(content[i])
  }

  predicate AnyShown(reasonings: seq<string>) {
    exists i :: 0 <= i < |reasonings| && !Blank(reasonings[i])
  }

  predicate ShownFit(reasonings: seq<string>) {
    forall i :: 0 <= i < |reasonings| && !Blank(reasonings[i]) ==> Fits(reasonings[i])
  }

  predicate Fits(reasoning: string) {
    ByteLength(reasoning) <= MAX_REASONING_CONTENT_BYTES
  }

  /** What a decoder accepts: reasoning within its limit, and something to show. */
  predicate Deliverable(protocol: Protocol, content: seq<Block>) {
    var reasonings := ReasoningsOf(content);
    match protocol
    case ChatCompletions =>
      Fits(Joined(reasonings)) && (!Blank(Joined(reasonings)) || !Blank(TextOf(content)) || NamedCall(content))
    case Responses => ShownFit(reasonings) && (AnyShown(reasonings) || !Blank(TextOf(content)) || NamedCall(content))
    case Messages => SaysSomething(content) || NamedCall(content)
  }

  lemma {:induction false} CallsOutput(content: seq<Block>)
    ensures HasOutput(CallsOf(content)) <==> NamedCall(content)
  {
    if content == [] {
    } else {
      CallsOutput(content[1..]);
      NamedCallFirst(content);
      if content[0].ToolCall? {
        HasOutputConcat([content[0]], CallsOf(content[1..]));
        HasOutputOne(content[0]);
      }
    }
  }

  lemma NamedCallFirst(content: seq<Block>)
    requires content != []
    ensures NamedCall(content) <==> (content[0].ToolCall? && !Blank(content[0].name)) || NamedCall(content[1..])
  {
    var rest := content[1..];
    if NamedCall(rest) {
      var i :| 0 <= i < |rest| && rest[i].ToolCall? && !Blank(rest[i].name);
      assert content[i + 1] == rest[i];
    }
    if NamedCall(content) {
      var i :| 0 <= i < |content| && content[i].ToolCall? && !Blank(content[i].name);
      assert i > 0 ==> rest[i - 1] == content[i];
    }
  }

  lemma AssembledOutput(reasonings: seq<Block>, texts: seq<Block>, calls: seq<Block>)
    ensures HasOutput(Assembled(reasonings, texts, calls)) <==> HasOutput(reasonings) || HasOutput(texts) || HasOutput(calls)
  {
    HasOutputConcat(reasonings + texts, calls);
    HasOutputConcat(reasonings, texts);
  }

  lemma MaybeTextOutput(text: string)
    ensures HasOutput(MaybeText(text)) <==> !Blank(text)
    ensures HasOutput(MaybeReasoning(text)) <==> !Blank(text)
  {
    HasOutputOne(Text(text));
    HasOutputOne(Reasoning(text));
  }

  lemma ChatAccepted(s: Serde, r: Response, requestedModel: string)
    requires s.Lawful()
    ensures Decode(s, ChatCompletions, EncodeChat(s, r), requestedModel).Ok? <==> Deliverable(ChatCompletions, r.content)
  {
    var text, reasoning, calls := TextOf(r.content), Joined(ReasoningsOf(r.content)), CallsOf(r.content);
    ChatDecoded(s, r, requestedModel);
    ChatEnvelope(s, r);
    ChatMessageFields(text, reasoning, ChatCalls(s, calls));
    AssembledOutput(MaybeReasoning(reasoning), MaybeText(text), calls);
    MaybeTextOutput(text);
    MaybeTextOutput(reasoning);
    CallsOutput(r.content);
    assert DecodeChat(s, EncodeChat(s, r), requestedModel).Ok? <==> Fits(reasoning);
  }

  lemma {:induction false} ReasoningOutput(reasonings: seq<string>)
    ensures HasOutput(ReasoningBlocks(Shown(reasonings))) <==> AnyShown(reasonings)
    ensures ShownFit(Shown(reasonings)) <==> ShownFit(reasonings)
  {
    if reasonings == [] {
    } else {
      ReasoningOutput(reasonings[1..]);
      ShownFirst(reasonings);
      var first, rest := reasonings[0], Shown(reasonings[1..]);
      if Blank(first) {
        assert [] + rest == rest;
      } else {
        assert ([first] + rest)[1..] == rest;
        HasOutputConcat([Reasoning(first)], ReasoningBlocks(rest));
        HasOutputOne(Reasoning(first));
        ShownFirst([first] + rest);
      }
    }
  }

  lemma ShownFirst(reasonings: seq<string>)
    requires reasonings != []
    ensures AnyShown(reasonings) <==> !Blank(reasonings[0]) || AnyShown(reasonings[1..])
    ensures ShownFit(reasonings) <==> (!Blank(reasonings[0]) ==> Fits(reasonings[0])) && ShownFit(reasonings[1..])
  {
    var rest := reasonings[1..];
    assert forall i :: 0 <= i < |rest| ==> rest[i] == reasonings[i + 1];
    if AnyShown(reasonings) {
      var i :| 0 <= i < |reasonings| && !Blank(reasonings[i]);
      assert i > 0 ==> rest[i - 1] == reasonings[i];
    }
    if (!Blank(reasonings[0]) ==> Fits(reasonings[0])) && ShownFit(rest) {
      forall i | 0 <= i < |reasonings| && !Blank(reasonings[i]) ensures Fits(reasonings[i]) {
        assert i > 0 ==> rest[i - 1] == reasonings[i];
      }
    }
  }

  lemma ReasoningItemAccepted(s: Serde, position: nat, text: string)
    requires !Blank(text)
    ensures DecodeItem(s, ReasoningItem(position, text)).Ok? <==> Fits(text)
  {
    var item := ReasoningItem(position, text);
    var part := Obj(map[K.Type := Str("reasoning_text"), K.Text := Str(text)]);
    assert ItemsOf(Get(item, K.Content)) == [part] && ItemsOf(Get(item, K.Summary)) == [];
    assert ReasoningParts([part][1..]) == Ok([]);
  }

  lemma {:induction false} ReasoningItemsAccepted(s: Serde, position: nat, texts: seq<string>)
    requires NoneBlank(texts)
    ensures DecodeItems(s, ReasoningItems(position, texts)).Ok? <==> ShownFit(texts)
    decreases |texts|
  {
    if texts == [] {
    } else {
      ReasoningItemAccepted(s, position, texts[0]);
      ReasoningItemsAccepted(s, position + 1, texts[1..]);
      ShownFirst(texts);
      DecodeItemsConcat(s, [ReasoningItem(position, texts[0])], ReasoningItems(position + 1, texts[1..]));
      OneItemAccepted(s, ReasoningItem(position, texts[0]));
    }
  }

  lemma OneItemAccepted(s: Serde, item: Json)
    ensures DecodeItems(s, [item]).Ok? <==> DecodeItem(s, item).Ok?
  {
    assert DecodeItems(s, [item][1..]) == Ok([]);
  }

  lemma OutputAccepted(s: Serde, content: seq<Block>)
    requires s.Lawful()
    ensures DecodeItems(s, OutputItems(s, content)).Ok? <==> ShownFit(ReasoningsOf(content))
  {
    CallsAreCalls(content);
    var shown := Shown(ReasoningsOf(content));
    var texts := if TextOf(content) == "" then [] else [MessageItem(TextOf(content))];
    ShownNoneBlank(ReasoningsOf(content));
    ReasoningItemsAccepted(s, 0, shown);
    ReasoningOutput(ReasoningsOf(content));
    MessageItemBack(s, TextOf(content));
    CallItemsBack(s, CallsOf(content));
    DecodeItemsConcat(s, ReasoningItems(0, shown) + texts, CallItems(s, CallsOf(content)));
    DecodeItemsConcat(s, ReasoningItems(0, shown), texts);
  }

  lemma ResponsesViewOutput(content: seq<Block>)
    ensures HasOutput(ResponsesView(content)) <==> AnyShown(ReasoningsOf(content)) || !Blank(TextOf(content)) || NamedCall(content)
  {
    var last := if TextOf(content) == "" then [Text("")] else [];
    HasOutputConcat(ItemsView(content), last);
    HasOutputOne(Text(""));
    AssembledOutput(ReasoningBlocks(Shown(ReasoningsOf(content))), MaybeText(TextOf(content)), CallsOf(content));
    ReasoningOutput(ReasoningsOf(content));
    MaybeTextOutput(TextOf(content));
    CallsOutput(content);
  }

  lemma ResponsesAccepted(s: Serde, r: Response, requestedModel: string)
    requires s.Lawful()
    ensures Decode(s, Protocol.Responses, EncodeResponses(s, r), requestedModel).Ok? <==> Deliverable(Protocol.Responses, r.content)
  {
    OutputAccepted(s, r.content);
    ResponsesFields(s, r);
    ResponsesDecoded(s, r, requestedModel);
    ResponsesViewOutput(r.content);
    DecodeResponsesOk(s, EncodeResponses(s, r), r.finishReason, requestedModel);
  }

  lemma DecodeResponsesOk(s: Serde, v: Json, reason: string, requestedModel: string)
    requires Get(v, K.Status) == Some(Str(ResponsesStatus(reason)))
    ensures DecodeResponses(s, v, requestedModel).Ok? <==> DecodeItems(s, ItemsOf(Get(v, K.Output))).Ok?
  {
    if DecodeItems(s, ItemsOf(Get(v, K.Output))).Ok? {
      var items := DecodeItems(s, ItemsOf(Get(v, K.Output))).value;
      var text := AsStr(Get(v, K.OutputText));
      ResponsesFinishStable(v, reason, items + if TextsOf(items) == [] && text.Some? then [Text(text.value)] else []);
    }
  }

  lemma {:induction false} VisibleOutput(content: seq<Block>)
    ensures HasOutput(Visible(content)) <==> SaysSomething(content)
  {
    if content == [] {
    } else {
      VisibleOutput(content[1..]);
      SaysFirst(content);
      var b, rest := content[0], Visible(content[1..]);
      if b.ToolCall? {
        assert [] + rest == rest;
      } else {
        var first := if b.Reasoning? then Text(b.text) else b;
        HasOutputConcat([first], rest);
        HasOutputOne(first);
      }
    }
  }

  lemma SaysFirst(content: seq<Block>)
    requires content != []
    ensures SaysSomething(content) <==> (!content[0].ToolCall? && BlockHasOutput(content[0])) || SaysSomething(content[1..])
  {
    var rest := content[1..];
    if SaysSomething(rest) {
      var i :| 0 <= i < |rest| && !rest[i].ToolCall? && BlockHasOutput(rest[i]);
      assert content[i + 1] == rest[i];
    }
    if SaysSomething(content) {
      var i :| 0 <= i < |content| && !content[i].ToolCall? && BlockHasOutput(content[i]);
      assert i > 0 ==> rest[i - 1] == content[i];
    }
  }

  lemma MessagesAccepted(s: Serde, r: Response, requestedModel: string)
    requires Built(r.content)
    ensures Decode(s, Protocol.Messages, EncodeMessages(r), requestedModel).Ok? <==> Deliverable(Protocol.Messages, r.content)
  {
    MessagesDecoded(s, r, requestedModel);
    VisibleOutput(r.content);
    CallsOutput(r.content);
    HasOutputOne(Text(""));
    HasOutputConcat(if Visible(r.content) == [] then [Text("")] else Visible(r.content), CallsOf(r.content));
  }

  /** Exactly which responses come back from their own encoding. */
  lemma AcceptedIff(s: Serde, protocol: Protocol, r: Response, requestedModel: string)
    requires s.Lawful() && Built(r.content)
    ensures Decode(s, protocol, Encode(s, protocol, r), requestedModel).Ok? <==> Deliverable(protocol, r.content)
  {
    match protocol
    case ChatCompletions => ChatAccepted(s, r, requestedModel);
    case Responses => ResponsesAccepted(s, r, requestedModel);
    case Messages => MessagesAccepted(s, r, requestedModel);
  }

  // ----- items of other providers ----------------------------------------------------------

  /** An upstream call item: its own id, the id of the call, a name and a payload. */
  function UpstreamCall(kind: string, id: string, callId: string, name: string, key: K.Key, payload: string): Json {
    Obj(map[K.Type := Str(kind), K.Id := Str(id), K.CallId := Str(callId), K.Name := Str(name)][key := Str(payload)])
  }

  lemma UpstreamCallFields(kind: string, id: string, callId: string, name: string, key: K.Key, payload: string)
    requires key == K.Arguments || key == K.Input
    ensures var item := UpstreamCall(kind, id, callId, name, key, payload);
      && Get(item, K.Type) == Some(Str(kind)) && Get(item, K.CallId) == Some(Str(callId)) && Get(item, K.Id) == Some(Str(id))
      && Get(item, K.Name) == Some(Str(name)) && Get(item, key) == Some(Str(payload)) && Get(item, K.Content).None?
      && (key == K.Arguments ==> Get(item, K.Input).None?)
  {
  }

  /** A custom tool call goes by its call id and keeps its input, as JSON when it is JSON text; without a name it is no call. */
  lemma CustomCallDecodes(s: Serde, id: string, callId: string, name: string, input: string)
    ensures DecodeItem(s, UpstreamCall("custom_tool_call", id, callId, name, K.Input, input))
      == Ok(if name == "" then [] else [ToolCall(callId, name, if s.fromText(input).Some? then s.fromText(input).value else Str(input))])
  {
    var item := UpstreamCall("custom_tool_call", id, callId, name, K.Input, input);
    UpstreamCallFields("custom_tool_call", id, callId, name, K.Input, input);
    assert "custom_tool_call"[0] != "reasoning"[0];
    assert PartTexts(ItemsOf(Get(item, K.Content))) == [];
    assert [] + DecodeCallItem(s, item) == DecodeCallItem(s, item);
  }

  /** A function call goes by its call id as well; arguments that are not JSON text stay text. */
  lemma FunctionCallDecodes(s: Serde, id: string, callId: string, name: string, arguments: string)
    ensures DecodeItem(s, UpstreamCall("function_call", id, callId, name, K.Arguments, arguments))
      == Ok([ToolCall(callId, name, if s.fromText(arguments).Some? then s.fromText(arguments).value else Str(arguments))])
  {
    var item := UpstreamCall("function_call", id, callId, name, K.Arguments, arguments);
    UpstreamCallFields("function_call", id, callId, name, K.Arguments, arguments);
    assert "function_call"[0] != "reasoning"[0] && "function_call"[0] != "custom_tool_call"[0];
    assert PartTexts(ItemsOf(Get(item, K.Content))) == [];
    assert [] + DecodeCallItem(s, item) == DecodeCallItem(s, item);
  }

  /** Reasoning is read from the content of its item, then from its summary. */
  lemma ReasoningItemReads(s: Serde, text: string, summary: string)
    requires text != "" && Fits(text) && summary != "" && Fits(summary)
    ensures var item := Obj(map[K.Type := Str("reasoning"),
        K.Content := Arr([Obj(map[K.Type := Str("reasoning_text"), K.Text := Str(text)])]),
        K.Summary := Arr([Obj(map[K.Type := Str("summary_text"), K.Text := Str(summary)])])]);
      DecodeItem(s, item) == Ok([Reasoning(text), Reasoning(summary)])
  {
    OneReasoningPart("reasoning_text", text);
    OneReasoningPart("summary_text", summary);
    assert [Reasoning(text)] + [Reasoning(summary)] == [Reasoning(text), Reasoning(summary)];
  }

  lemma OneReasoningPart(kind: string, text: string)
    requires (kind == "reasoning_text" || kind == "summary_text") && text != "" && Fits(text)
    ensures ReasoningParts([Obj(map[K.Type := Str(kind), K.Text := Str(text)])]) == Ok([Reasoning(text)])
  {
    var part := Obj(map[K.Type := Str(kind), K.Text := Str(text)]);
    assert ReasoningParts([part][1..]) == Ok([]);
    assert [Reasoning(text)] + [] == [Reasoning(text)];
  }

  // ----- what decoders do not look at ------------------------------------------------------

  lemma {:induction false} DigitsDiffer(m: nat, n: nat)
    requires m != n
    ensures Digits(m) != Digits(n)
    decreases m + n
  {
    var a, b := Digits(m), Digits(n);
    if m < 10 && n < 10 {
      assert a[0] != b[0];
    } else if m < 10 || n < 10 {
      DigitsLong(if m < 10 then n else m);
    } else {
      assert a[|a| - 1] == (48 + m % 10) as char && b[|b| - 1] == (48 + n % 10) as char;
      if m % 10 == n % 10 {
        DigitsDiffer(m / 10, n / 10);
        assert a[..|a| - 1] == Digits(m / 10) && b[..|b| - 1] == Digits(n / 10);
      }
    }
  }

  lemma {:induction false} DigitsLong(n: nat)
    ensures |Digits(n)| >= if n < 10 then 1 else 2
  {
    if n < 10 {
    } else {
      DigitsLong(n / 10);
    }
  }

  lemma {:induction false} ReasoningItemAt(position: nat, texts: seq<string>, i: nat)
    requires i < |texts|
    ensures |ReasoningItems(position, texts)| == |texts| && ReasoningItems(position, texts)[i] == ReasoningItem(position + i, texts[i])
    decreases |texts|
  {
    if |texts| == 1 {
      assert ReasoningItems(position + 1, texts[1..]) == [];
    } else {
      ReasoningItemAt(position + 1, texts[1..], if i == 0 then 0 else i - 1);
    }
  }

  /** Reasoning items have different ids. */
  lemma ReasoningIdsDiffer(texts: seq<string>, i: nat, j: nat)
    requires i < j < |texts|
    ensures var items := ReasoningItems(0, texts);
      |items| == |texts| && AsStr(Get(items[i], K.Id)).Some? && AsStr(Get(items[i], K.Id)) != AsStr(Get(items[j], K.Id))
  {
    ReasoningItemAt(0, texts, i);
    ReasoningItemAt(0, texts, j);
    DigitsDiffer(i, j);
    var a, b := "rs_" + Digits(i), "rs_" + Digits(j);
    assert a[3..] == Digits(i) && b[3..] == Digits(j);
  }

  /** Every message a client receives is the assistant's. */
  lemma ChatIsAssistant(s: Serde, r: Response)
    ensures var choices := ItemsOf(Get(EncodeChat(s, r), K.Choices));
      |choices| == 1 && AsStr(GetIn(Get(choices[0], K.Message), K.Role)) == Some("assistant")
  {
    ChatEnvelope(s, r);
  }

  lemma MessagesIsAssistant(r: Response)
    ensures AsStr(Get(EncodeMessages(r), K.Role)) == Some("assistant") && AsStr(Get(EncodeMessages(r), K.Type)) == Some("message")
  {
  }

  predicate AssistantItem(item: Json) {
    AsStr(Get(item, K.Type)) == Some("message") ==> AsStr(Get(item, K.Role)) == Some("assistant")
  }

  lemma OutputIsAssistant(s: Serde, content: seq<Block>, k: nat)
    requires k < |OutputItems(s, content)|
    ensures AssistantItem(OutputItems(s, content)[k])
  {
    CallsAreCalls(content);
    var reasonings, calls := ReasoningItems(0, Shown(ReasoningsOf(content))), CallItems(s, CallsOf(content));
    var texts := if TextOf(content) == "" then [] else [MessageItem(TextOf(content))];
    var items := reasonings + texts + calls;
    assert items == OutputItems(s, content);
    if k < |reasonings| {
      ReasoningIsNoMessage(Shown(ReasoningsOf(content)), k);
      assert items[k] == reasonings[k];
    } else if |reasonings| + |texts| <= k {
      CallIsNoMessage(s, CallsOf(content), k - |reasonings| - |texts|);
      assert items[k] == calls[k - |reasonings| - |texts|];
    } else {
      assert items[k] == MessageItem(TextOf(content));
    }
  }

  lemma ReasoningIsNoMessage(texts: seq<string>, k: nat)
    requires k < |ReasoningItems(0, texts)|
    ensures AssistantItem(ReasoningItems(0, texts)[k])
  {
    ReasoningCount(0, texts);
    ReasoningItemAt(0, texts, k);
    NotAMessage(ReasoningItem(k, texts[k]), "reasoning");
  }

  lemma CallIsNoMessage(s: Serde, calls: seq<Block>, k: nat)
    requires OnlyCalls(calls) && k < |CallItems(s, calls)|
    ensures AssistantItem(CallItems(s, calls)[k])
  {
    CallItemAt(s, calls, k);
    NotAMessage(CallItem(s, calls[k]), "function_call");
  }

  lemma NotAMessage(item: Json, kind: string)
    requires AsStr(Get(item, K.Type)) == Some(kind) && |kind| != 7
    ensures AssistantItem(item)
  {
  }

  lemma {:induction false} ReasoningCount(position: nat, texts: seq<string>)
    ensures |ReasoningItems(position, texts)| == |texts|
    decreases |texts|
  {
    if texts == [] {
    } else {
      ReasoningCount(position + 1, texts[1..]);
    }
  }

  lemma {:induction false} CallItemAt(s: Serde, calls: seq<Block>, i: nat)
    requires OnlyCalls(calls) && i < |CallItems(s, calls)|
    ensures i < |calls| && CallItems(s, calls)[i] == CallItem(s, calls[i])
  {
    if i == 0 {
    } else {
      CallItemAt(s, calls[1..], i - 1);
    }
  }
}

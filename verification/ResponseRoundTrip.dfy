/** What survives a response that is encoded for a client and decoded again. */
module ResponseRoundTrip {
  import opened Collections
  import opened Protocols
  import opened JsonValues
  import opened TokenUsage
  import opened ContentBlocks
  import opened ResponseCodec
  import K = JsonKeys

  // ----- finish reasons ------------------------------------------------------------------

  /** A text without one letter of a word does not contain the word. */
  lemma {:induction false} NotWithout(s: string, word: string, k: nat)
    requires k < |word| && word[k] !in s
    ensures !Contains(s, word)
  {
    if s == [] {
    } else {
      NotWithout(s[1..], word, k);
    }
  }

  lemma ChatFinishStable(reason: string)
    ensures ChatFinish(ChatFinish(reason)) == ChatFinish(reason)
  {
    assert "tool_calls"[..4] == "tool";
    NotWithout("length", "tool", 1);
    NotWithout("stop", "tool", 3);
    NotWithout("stop", "length", 0);
    NotWithout("stop", "max_tokens", 0);
  }

  lemma NoneOfThese(reason: string)
    requires 'l' !in reason && 'm' !in reason
    ensures !Contains(reason, "tool") && !Contains(reason, "length") && !Contains(reason, "max_tokens")
  {
    NotWithout(reason, "tool", 3);
    NotWithout(reason, "length", 0);
    NotWithout(reason, "max_tokens", 0);
  }

  lemma OtherFinishStable(reason: string)
    requires reason == "stop_sequence" || reason == "end_turn"
    ensures MessagesFinish(reason) == reason
  {
    NoneOfThese(reason);
    if reason == "end_turn" {
      NotWithout(reason, "stop_sequence", 0);
    }
  }

  lemma MessagesFinishStable(reason: string)
    ensures MessagesFinish(MessagesFinish(reason)) == MessagesFinish(reason)
  {
    if Contains(reason, "tool") {
      assert "tool_use"[..4] == "tool";
    } else if Contains(reason, "length") || Contains(reason, "max_tokens") {
      NotWithout("max_tokens", "tool", 3);
    } else {
      OtherFinishStable(MessagesFinish(reason));
    }
  }

  lemma Completed(reason: string)
    requires reason == "stop" || reason == "tool_calls"
    ensures ResponsesStatus(reason) == "completed"
  {
    NotWithout(reason, "length", 1);
  }

  lemma ResponsesFinishStable(v: Json, reason: string, content: seq<Block>)
    requires Get(v, K.Status) == Some(Str(ResponsesStatus(reason)))
    ensures ResponsesFinish(v, content).Ok? && ResponsesStatus(ResponsesFinish(v, content).value) == ResponsesStatus(reason)
  {
    if Contains(reason, "length") {
      assert Contains("length", "length");
    } else {
      Completed(ResponsesFinish(v, content).value);
    }
  }

  // ----- Chat Completions ----------------------------------------------------------------

  lemma {:induction false} ChatCallsBack(s: Serde, calls: seq<Block>)
    requires s.Lawful() && OnlyCalls(calls)
    ensures DecodeChatCalls(s, ChatCalls(s, calls)) == calls
  {
    if calls == [] {
    } else {
      assert DecodeChatCall(s, ChatCall(s, calls[0])) == calls[0];
      ChatCallsBack(s, calls[1..]);
      assert ChatCalls(s, calls)[1..] == ChatCalls(s, calls[1..]);
    }
  }

  /** A list made of reasoning, then text, then calls. */
  function Assembled(reasonings: seq<Block>, texts: seq<Block>, calls: seq<Block>): seq<Block> {
    reasonings + texts + calls
  }

  lemma AssembledProjects(reasonings: seq<Block>, texts: seq<Block>, calls: seq<Block>)
    requires OnlyCalls(calls) && TextOf(reasonings) == "" && CallsOf(reasonings) == []
    requires ReasoningsOf(texts) == [] && CallsOf(texts) == []
    ensures var content := Assembled(reasonings, texts, calls);
      TextOf(content) == TextOf(texts) && ReasoningsOf(content) == ReasoningsOf(reasonings) && CallsOf(content) == calls
  {
    OnlyCallsProjects(calls);
    TextOfConcat(reasonings + texts, calls);
    TextOfConcat(reasonings, texts);
    ReasoningsOfConcat(reasonings + texts, calls);
    ReasoningsOfConcat(reasonings, texts);
    CallsOfConcat(reasonings + texts, calls);
    CallsOfConcat(reasonings, texts);
  }

  function MaybeReasoning(text: string): seq<Block> {
    if text == "" then [] else [Reasoning(text)]
  }

  function MaybeText(text: string): seq<Block> {
    if text == "" then [] else [Text(text)]
  }

  /** What a Chat Completions client reads, block by block. */
  function ChatView(content: seq<Block>): seq<Block> {
    Assembled(MaybeReasoning(Joined(ReasoningsOf(content))), MaybeText(TextOf(content)), CallsOf(content))
  }

  lemma ChatMessageBack(s: Serde, text: string, reasoning: string, calls: seq<Block>)
    requires s.Lawful() && OnlyCalls(calls)
    ensures var content := ChatContent(s, ChatMessage(text, reasoning, ChatCalls(s, calls)));
      content.Ok? ==> content.value == Assembled(MaybeReasoning(reasoning), MaybeText(text), calls)
  {
    ChatCallsBack(s, calls);
    ChatMessageFields(text, reasoning, ChatCalls(s, calls));
  }

  lemma ChatMessageFields(text: string, reasoning: string, calls: seq<Json>)
    ensures var m := ChatMessage(text, reasoning, calls);
      && Get(m, K.Content) == Some(if text == "" then Null else Str(text))
      && Get(m, K.ReasoningContent) == (if reasoning == "" then None else Some(Str(reasoning)))
      && ItemsOf(Get(m, K.ToolCalls)) == calls
  {
  }

  lemma ChatDecoded(s: Serde, r: Response, requestedModel: string)
    requires s.Lawful()
    ensures var r' := DecodeChat(s, EncodeChat(s, r), requestedModel);
      r'.Ok? ==> r'.value == Response(r.id, r.model, ChatView(r.content), ChatFinish(r.finishReason),
        DecodeUsage(ChatCompletions, Some(EncodeUsage(ChatCompletions, r.usage))))
  {
    CallsAreCalls(r.content);
    ChatMessageBack(s, TextOf(r.content), Joined(ReasoningsOf(r.content)), CallsOf(r.content));
    ChatEnvelope(s, r);
  }

  /** Where the message is in a Chat response. */
  lemma ChatEnvelope(s: Serde, r: Response)
    ensures OnlyCalls(CallsOf(r.content))
    ensures var v := EncodeChat(s, r);
      var choices := ItemsOf(Get(v, K.Choices));
      && Get(v, K.Id) == Some(Str(r.id)) && Get(v, K.Model) == Some(Str(r.model))
      && Get(v, K.Usage) == Some(EncodeUsage(ChatCompletions, r.usage)) && |choices| == 1
      && Get(choices[0], K.FinishReason) == Some(Str(ChatFinish(r.finishReason)))
      && Get(choices[0], K.Message)
         == Some(ChatMessage(TextOf(r.content), Joined(ReasoningsOf(r.content)), ChatCalls(s, CallsOf(r.content))))
  {
    CallsAreCalls(r.content);
  }

  lemma ChatViewProjects(content: seq<Block>)
    ensures var view := ChatView(content);
      TextOf(view) == TextOf(content) && Joined(ReasoningsOf(view)) == Joined(ReasoningsOf(content))
      && CallsOf(view) == CallsOf(content)
  {
    CallsAreCalls(content);
    var text := TextOf(content);
    assert TextOf(MaybeText(text)) == text;
    AssembledProjects(MaybeReasoning(Joined(ReasoningsOf(content))), MaybeText(text), CallsOf(content));
  }

  lemma ChatRoundTrip(s: Serde, r: Response, requestedModel: string)
    requires s.Lawful()
    ensures var r' := DecodeChat(s, EncodeChat(s, r), requestedModel);
      r'.Ok? ==> EncodeChat(s, r'.value) == EncodeChat(s, r)
  {
    ChatDecoded(s, r, requestedModel);
    ChatViewProjects(r.content);
    ChatFinishStable(r.finishReason);
    UsageStable(ChatCompletions, r.usage);
  }

  // ----- Responses -----------------------------------------------------------------------

  function ReasoningBlocks(texts: seq<string>): seq<Block> {
    if texts == [] then [] else [Reasoning(texts[0])] + ReasoningBlocks(texts[1..])
  }

  predicate NoneBlank(texts: seq<string>) {
    forall i :: 0 <= i < |texts| ==> !Blank(texts[i])
  }

  lemma {:induction false} ShownNoneBlank(texts: seq<string>)
    ensures NoneBlank(Shown(texts))
  {
    if texts == [] {
    } else {
      ShownNoneBlank(texts[1..]);
    }
  }

  lemma {:induction false} ShownKeepsNoneBlank(texts: seq<string>)
    requires NoneBlank(texts)
    ensures Shown(texts) == texts
  {
    if texts == [] {
    } else {
      ShownKeepsNoneBlank(texts[1..]);
    }
  }

  lemma {:induction false} ReasoningBlocksProject(texts: seq<string>)
    ensures var blocks := ReasoningBlocks(texts);
      TextOf(blocks) == "" && TextsOf(blocks) == [] && CallsOf(blocks) == [] && ReasoningsOf(blocks) == texts
  {
    if texts == [] {
    } else {
      ReasoningBlocksProject(texts[1..]);
    }
  }

  lemma {:induction false} DecodeItemsConcat(s: Serde, a: seq<Json>, b: seq<Json>)
    ensures DecodeItems(s, a + b).Ok? <==> DecodeItems(s, a).Ok? && DecodeItems(s, b).Ok?
    ensures DecodeItems(s, a + b).Ok? ==> DecodeItems(s, a + b).value == DecodeItems(s, a).value + DecodeItems(s, b).value
  {
    if a == [] {
      assert a + b == b;
    } else {
      assert (a + b)[1..] == a[1..] + b;
      DecodeItemsConcat(s, a[1..], b);
    }
  }

  lemma ReasoningItemBack(s: Serde, position: nat, text: string)
    requires !Blank(text)
    ensures var blocks := DecodeItem(s, ReasoningItem(position, text));
      blocks.Ok? ==> blocks.value == [Reasoning(text)]
  {
    var item := ReasoningItem(position, text);
    var part := Obj(map[K.Type := Str("reasoning_text"), K.Text := Str(text)]);
    assert ItemsOf(Get(item, K.Content)) == [part] && ItemsOf(Get(item, K.Summary)) == [];
    assert ReasoningParts([part][1..]) == Ok([]);
  }

  lemma {:induction false} ReasoningItemsBack(s: Serde, position: nat, texts: seq<string>)
    requires NoneBlank(texts)
    ensures var blocks := DecodeItems(s, ReasoningItems(position, texts));
      blocks.Ok? ==> blocks.value == ReasoningBlocks(texts)
    decreases |texts|
  {
    if texts == [] {
    } else {
      ReasoningItemBack(s, position, texts[0]);
      ReasoningItemsBack(s, position + 1, texts[1..]);
      assert ReasoningItems(position, texts)[1..] == ReasoningItems(position + 1, texts[1..]);
    }
  }

  lemma CallItemBack(s: Serde, call: Block)
    requires s.Lawful() && call.ToolCall?
    ensures DecodeItem(s, CallItem(s, call)) == Ok([call])
  {
    var item := CallItem(s, call);
    assert AsStr(Get(item, K.Type)) == Some("function_call");
    assert "function_call"[0] != "reasoning"[0] && "function_call"[0] != "custom_tool_call"[0];
    assert DecodeCallItem(s, item) == [call];
    assert PartTexts(ItemsOf(Get(item, K.Content))) == [];
    assert [] + [call] == [call];
  }

  lemma DecodeItemsFirst(s: Serde, item: Json, items: seq<Json>, first: seq<Block>, rest: seq<Block>)
    requires DecodeItem(s, item) == Ok(first) && DecodeItems(s, items) == Ok(rest)
    ensures DecodeItems(s, [item] + items) == Ok(first + rest)
  {
    assert ([item] + items)[1..] == items;
  }

  lemma {:induction false} CallItemsBack(s: Serde, calls: seq<Block>)
    requires s.Lawful() && OnlyCalls(calls)
    ensures DecodeItems(s, CallItems(s, calls)) == Ok(calls)
  {
    if calls == [] {
    } else {
      CallItemBack(s, calls[0]);
      CallItemsBack(s, calls[1..]);
      DecodeItemsFirst(s, CallItem(s, calls[0]), CallItems(s, calls[1..]), [calls[0]], calls[1..]);
      assert [calls[0]] + calls[1..] == calls;
    }
  }

  lemma MessageItemBack(s: Serde, text: string)
    ensures DecodeItems(s, [MessageItem(text)]) == Ok([Text(text)])
  {
    var item := MessageItem(text);
    var part := Obj(map[K.Type := Str("output_text"), K.Text := Str(text), K.Annotations := Arr([])]);
    assert AsStr(Get(item, K.Type)) == Some("message");
    assert "message"[0] != "reasoning"[0] && "message"[0] != "custom_tool_call"[0] && "message"[0] != "function_call"[0];
    assert ItemsOf(Get(item, K.Content)) == [part];
    assert PartTexts([part][1..]) == [];
    assert PartTexts([part]) == [Text(text)] && DecodeCallItem(s, item) == [];
    assert DecodeItem(s, item) == Ok([Text(text)]);
    assert DecodeItems(s, [item][1..]) == Ok([]);
  }

  function ItemsView(content: seq<Block>): seq<Block> {
    Assembled(ReasoningBlocks(Shown(ReasoningsOf(content))), MaybeText(TextOf(content)), CallsOf(content))
  }

  /** What a Responses client reads; an empty text is read from `output_text` and comes last. */
  function ResponsesView(content: seq<Block>): seq<Block> {
    ItemsView(content) + if TextOf(content) == "" then [Text("")] else []
  }

  lemma OutputItemsBack(s: Serde, content: seq<Block>)
    requires s.Lawful()
    ensures var blocks := DecodeItems(s, OutputItems(s, content));
      blocks.Ok? ==> blocks.value == ItemsView(content)
  {
    CallsAreCalls(content);
    var text, calls := TextOf(content), CallsOf(content);
    var reasonings := ReasoningItems(0, Shown(ReasoningsOf(content)));
    var texts := if text == "" then [] else [MessageItem(text)];
    ShownNoneBlank(ReasoningsOf(content));
    ReasoningItemsBack(s, 0, Shown(ReasoningsOf(content)));
    MessageItemBack(s, text);
    CallItemsBack(s, calls);
    DecodeItemsConcat(s, reasonings + texts, CallItems(s, calls));
    DecodeItemsConcat(s, reasonings, texts);
  }

  lemma {:induction false} TextsOfConcat(a: seq<Block>, b: seq<Block>)
    ensures TextsOf(a + b) == TextsOf(a) + TextsOf(b)
  {
    if a == [] {
      assert a + b == b;
    } else {
      assert (a + b)[1..] == a[1..] + b;
      TextsOfConcat(a[1..], b);
    }
  }

  lemma {:induction false} CallsHaveNoTexts(calls: seq<Block>)
    requires OnlyCalls(calls)
    ensures TextsOf(calls) == []
  {
    if calls == [] {
    } else {
      CallsHaveNoTexts(calls[1..]);
    }
  }

  lemma ItemsViewTexts(content: seq<Block>)
    ensures TextsOf(ItemsView(content)) == [] <==> TextOf(content) == ""
  {
    CallsAreCalls(content);
    var a, b, c := ReasoningBlocks(Shown(ReasoningsOf(content))), MaybeText(TextOf(content)), CallsOf(content);
    TextsOfConcat(a + b, c);
    TextsOfConcat(a, b);
    ReasoningBlocksProject(Shown(ReasoningsOf(content)));
    CallsHaveNoTexts(c);
  }

  lemma ResponsesFields(s: Serde, r: Response)
    ensures var v := EncodeResponses(s, r);
      && Get(v, K.Id) == Some(Str(r.id)) && Get(v, K.Model) == Some(Str(r.model))
      && Get(v, K.Output) == Some(Arr(OutputItems(s, r.content))) && Get(v, K.OutputText) == Some(Str(TextOf(r.content)))
      && Get(v, K.Status) == Some(Str(ResponsesStatus(r.finishReason)))
      && Get(v, K.Usage) == Some(EncodeUsage(Protocol.Responses, r.usage))
  {
  }

  lemma DecodeResponsesFrom(s: Serde, v: Json, requestedModel: string, items: seq<Block>, content: seq<Block>)
    requires DecodeItems(s, ItemsOf(Get(v, K.Output))) == Ok(items)
    requires content == items + if TextsOf(items) == [] && AsStr(Get(v, K.OutputText)).Some? then [Text(AsStr(Get(v, K.OutputText)).value)] else []
    ensures var r := DecodeResponses(s, v, requestedModel);
      var finish := ResponsesFinish(v, content);
      r.Ok? ==> finish.Ok? && r.value == Response(
        StrOr(Get(v, K.Id), "exo-response"), StrOr(Get(v, K.Model), requestedModel), content, finish.value,
        DecodeUsage(Protocol.Responses, Get(v, K.Usage)))
  {
  }

  lemma ResponsesDecoded(s: Serde, r: Response, requestedModel: string)
    requires s.Lawful()
    ensures var v := EncodeResponses(s, r);
      var r' := DecodeResponses(s, v, requestedModel);
      var finish := ResponsesFinish(v, ResponsesView(r.content));
      var usage := DecodeUsage(Protocol.Responses, Some(EncodeUsage(Protocol.Responses, r.usage)));
      r'.Ok? ==> finish.Ok? && r'.value == Response(r.id, r.model, ResponsesView(r.content), finish.value, usage)
  {
    OutputItemsBack(s, r.content);
    ItemsViewTexts(r.content);
    ResponsesFields(s, r);
    var v := EncodeResponses(s, r);
    if DecodeItems(s, OutputItems(s, r.content)).Ok? {
      DecodeResponsesFrom(s, v, requestedModel, ItemsView(r.content), ResponsesView(r.content));
    }
  }

  lemma ResponsesViewProjects(content: seq<Block>)
    ensures var view := ResponsesView(content);
      TextOf(view) == TextOf(content) && ReasoningsOf(view) == Shown(ReasoningsOf(content)) && CallsOf(view) == CallsOf(content)
  {
    CallsAreCalls(content);
    var a, b, c := ReasoningBlocks(Shown(ReasoningsOf(content))), MaybeText(TextOf(content)), CallsOf(content);
    var last := if TextOf(content) == "" then [Text("")] else [];
    ReasoningBlocksProject(Shown(ReasoningsOf(content)));
    assert TextOf(b) == TextOf(content);
    AssembledProjects(a, b, c);
    TextOfConcat(Assembled(a, b, c), last);
    ReasoningsOfConcat(Assembled(a, b, c), last);
    CallsOfConcat(Assembled(a, b, c), last);
    assert TextOf(last) == "" && ReasoningsOf(last) == [] && CallsOf(last) == [];
  }

  lemma ResponsesRoundTrip(s: Serde, r: Response, requestedModel: string)
    requires s.Lawful()
    ensures var r' := DecodeResponses(s, EncodeResponses(s, r), requestedModel);
      r'.Ok? ==> EncodeResponses(s, r'.value) == EncodeResponses(s, r)
  {
    ResponsesDecoded(s, r, requestedModel);
    ResponsesViewProjects(r.content);
    ShownNoneBlank(ReasoningsOf(r.content));
    ShownKeepsNoneBlank(Shown(ReasoningsOf(r.content)));
    ResponsesFinishStable(EncodeResponses(s, r), r.finishReason, ResponsesView(r.content));
    UsageStable(Protocol.Responses, r.usage);
  }

  // ----- Messages ------------------------------------------------------------------------

  /** Blocks of an assistant response: no tool results, and extra fields as parsers build them. */
  predicate Built(content: seq<Block>) {
    forall i :: 0 <= i < |content| ==> !content[i].ToolResult? && CleanExtra(content[i])
  }

  /** What a Messages client reads; it cannot tell reasoning from text. */
  function Visible(content: seq<Block>): seq<Block> {
    if content == [] then []
    else
      (if content[0].ToolCall? then [] else if content[0].Reasoning? then [Text(content[0].text)] else [content[0]])
      + Visible(content[1..])
  }

  function MessagesView(content: seq<Block>): seq<Block> {
    (if Visible(content) == [] then [Text("")] else Visible(content)) + CallsOf(content)
  }

  lemma DecodeMessagesFirst(s: Serde, part: Json, parts: seq<Json>, first: seq<Block>, rest: seq<Block>)
    requires DecodeMessagesPart(s, part) == Ok(first) && DecodeMessagesParts(s, parts) == Ok(rest)
    ensures DecodeMessagesParts(s, [part] + parts) == Ok(first + rest)
  {
    assert ([part] + parts)[1..] == parts;
  }

  lemma {:induction false} DecodeMessagesPartsConcat(s: Serde, a: seq<Json>, b: seq<Json>)
    requires DecodeMessagesParts(s, a).Ok? && DecodeMessagesParts(s, b).Ok?
    ensures DecodeMessagesParts(s, a + b) == Ok(DecodeMessagesParts(s, a).value + DecodeMessagesParts(s, b).value)
  {
    if a == [] {
      assert a + b == b;
      assert [] + DecodeMessagesParts(s, b).value == DecodeMessagesParts(s, b).value;
    } else {
      assert (a + b)[1..] == a[1..] + b;
      DecodeMessagesPartsConcat(s, a[1..], b);
      var first, rest := DecodeMessagesPart(s, a[0]).value, DecodeMessagesParts(s, a[1..]).value;
      assert (a + b)[0] == a[0];
      assert first + rest + DecodeMessagesParts(s, b).value == first + (rest + DecodeMessagesParts(s, b).value);
    }
  }

  lemma PartBack(s: Serde, b: Block)
    requires !b.ToolResult? && CleanExtra(b)
    ensures DecodeMessagesPart(s, ToAnthropic(b)) == Ok([if b.Reasoning? then Text(b.text) else b])
  {
    KindsDiffer();
    var part := ToAnthropic(b);
    if IsThinking(b) {
      ThinkingRoundTripIff(b);
      assert AsStr(Get(part, K.Type)) == Some(if b.Thinking? then KIND_THINKING else KIND_REDACTED);
      assert ParsePart(s, part) == Ok(b);
      assert ParseParts(s, [part][1..]) == Ok([]);
      assert [b] + [] == [b];
    }
  }

  lemma {:induction false} AnthropicPartsBack(s: Serde, content: seq<Block>)
    requires Built(content)
    ensures DecodeMessagesParts(s, AnthropicParts(content)) == Ok(Visible(content))
  {
    if content == [] {
    } else {
      PartBack(s, content[0]);
      AnthropicPartsBack(s, content[1..]);
      var b, rest := content[0], Visible(content[1..]);
      if b.ToolCall? {
        assert [] + AnthropicParts(content[1..]) == AnthropicParts(content[1..]) && [] + rest == rest;
      } else {
        var first := if b.Reasoning? then Text(b.text) else b;
        DecodeMessagesFirst(s, ToAnthropic(b), AnthropicParts(content[1..]), [first], rest);
      }
    }
  }

  lemma {:induction false} AnthropicCallsBack(s: Serde, calls: seq<Block>)
    requires OnlyCalls(calls)
    ensures DecodeMessagesParts(s, AnthropicCalls(calls)) == Ok(calls)
  {
    if calls == [] {
    } else {
      PartBack(s, calls[0]);
      AnthropicCallsBack(s, calls[1..]);
      DecodeMessagesFirst(s, ToAnthropic(calls[0]), AnthropicCalls(calls[1..]), [calls[0]], calls[1..]);
      assert [calls[0]] + calls[1..] == calls;
    }
  }

  lemma {:induction false} NothingVisible(content: seq<Block>)
    ensures |AnthropicParts(content)| == |Visible(content)|
    ensures Visible(content) == [] ==> TextOf(content) == ""
  {
    if content == [] {
    } else {
      NothingVisible(content[1..]);
    }
  }

  lemma MessagesContentBack(s: Serde, content: seq<Block>)
    requires Built(content)
    ensures DecodeMessagesParts(s, MessagesContent(content)) == Ok(MessagesView(content))
  {
    CallsAreCalls(content);
    NothingVisible(content);
    AnthropicPartsBack(s, content);
    AnthropicCallsBack(s, CallsOf(content));
    AnthropicCallsBack(s, []);
    PartBack(s, Text(""));
    DecodeMessagesFirst(s, TextPart(""), [], [Text("")], []);
    assert [TextPart("")] + [] == [TextPart("")] && [Text("")] + [] == [Text("")];
    var parts := AnthropicParts(content);
    DecodeMessagesPartsConcat(s, if parts == [] then [TextPart("")] else parts, AnthropicCalls(CallsOf(content)));
  }

  lemma MessagesFields(r: Response)
    ensures var v := EncodeMessages(r);
      && Get(v, K.Id) == Some(Str(r.id)) && Get(v, K.Model) == Some(Str(r.model))
      && Get(v, K.Content) == Some(Arr(MessagesContent(r.content)))
      && Get(v, K.StopReason) == Some(Str(MessagesFinish(r.finishReason)))
      && Get(v, K.Usage) == Some(EncodeUsage(Protocol.Messages, r.usage))
  {
  }

  lemma MessagesDecoded(s: Serde, r: Response, requestedModel: string)
    requires Built(r.content)
    ensures DecodeMessages(s, EncodeMessages(r), requestedModel) == Ok(Response(
      r.id, r.model, MessagesView(r.content), MessagesFinish(r.finishReason),
      DecodeUsage(Protocol.Messages, Some(EncodeUsage(Protocol.Messages, r.usage)))))
  {
    MessagesContentBack(s, r.content);
    MessagesFields(r);
  }

  lemma {:induction false} VisibleStable(content: seq<Block>)
    ensures AnthropicParts(Visible(content)) == AnthropicParts(content) && CallsOf(Visible(content)) == []
  {
    if content == [] {
    } else {
      VisibleStable(content[1..]);
      var rest := Visible(content[1..]);
      if content[0].ToolCall? {
        assert [] + rest == rest;
      } else {
        var first := if content[0].Reasoning? then Text(content[0].text) else content[0];
        assert Visible(content)[0] == first && ToAnthropic(first) == ToAnthropic(content[0]);
        assert Visible(content)[1..] == rest;
      }
    }
  }

  lemma {:induction false} AnthropicPartsConcat(a: seq<Block>, b: seq<Block>)
    ensures AnthropicParts(a + b) == AnthropicParts(a) + AnthropicParts(b)
  {
    if a == [] {
      assert a + b == b;
    } else {
      assert (a + b)[1..] == a[1..] + b;
      AnthropicPartsConcat(a[1..], b);
    }
  }

  lemma {:induction false} CallsHaveNoParts(calls: seq<Block>)
    requires OnlyCalls(calls)
    ensures AnthropicParts(calls) == []
  {
    if calls == [] {
    } else {
      CallsHaveNoParts(calls[1..]);
    }
  }

  lemma MessagesViewProjects(content: seq<Block>)
    ensures MessagesContent(MessagesView(content)) == MessagesContent(content)
    ensures CallsOf(MessagesView(content)) == CallsOf(content)
  {
    CallsAreCalls(content);
    NothingVisible(content);
    VisibleStable(content);
    var calls := CallsOf(content);
    var head := if Visible(content) == [] then [Text("")] else Visible(content);
    assert AnthropicParts([Text("")]) == [TextPart("")];
    AnthropicPartsConcat(head, calls);
    CallsHaveNoParts(calls);
    CallsOfConcat(head, calls);
    OnlyCallsProjects(calls);
    assert AnthropicParts(head) + [] == AnthropicParts(head);
    assert [] + calls == calls;
  }

  lemma MessagesRoundTrip(s: Serde, r: Response, requestedModel: string)
    requires Built(r.content)
    ensures var r' := DecodeMessages(s, EncodeMessages(r), requestedModel);
      r'.Ok? && EncodeMessages(r'.value) == EncodeMessages(r)
  {
    MessagesDecoded(s, r, requestedModel);
    MessagesViewProjects(r.content);
    MessagesFinishStable(r.finishReason);
    UsageStable(Protocol.Messages, r.usage);
  }

  // ----- all three -----------------------------------------------------------------------

  /** Decoding what was sent, and sending it again, sends the same. */
  lemma EncodeDecodeEncode(s: Serde, protocol: Protocol, r: Response, requestedModel: string)
    requires s.Lawful() && Built(r.content)
    ensures var r' := Decode(s, protocol, Encode(s, protocol, r), requestedModel);
      r'.Ok? ==> Encode(s, protocol, r'.value) == Encode(s, protocol, r)
  {
    match protocol
    case ChatCompletions => ChatRoundTrip(s, r, requestedModel);
    case Responses => ResponsesRoundTrip(s, r, requestedModel);
    case Messages => MessagesRoundTrip(s, r, requestedModel);
  }

  lemma OneBlock(b: Block)
    requires !b.ToolCall?
    ensures MessagesContent([b]) == [ToAnthropic(b)] + []
  {
    assert AnthropicParts([b][1..]) == [] && CallsOf([b][1..]) == [];
    assert AnthropicParts([b]) == [ToAnthropic(b)] + [] && CallsOf([b]) == [] + [];
  }

  /** Extra fields that reuse a name are not stable: a null signature is gone the second time. */
  lemma NullSignatureIsLost(s: Serde, requestedModel: string)
    ensures var r := Response("id", "m", [Thinking("x", None, map[K.Signature := Null])], "stop", None);
      var r' := DecodeMessages(s, EncodeMessages(r), requestedModel);
      r'.Ok? && EncodeMessages(r'.value) != EncodeMessages(r)
  {
    KindsDiffer();
    var b := Thinking("x", None, map[K.Signature := Null]);
    var b' := Thinking("x", None, map[]);
    var r := Response("id", "m", [b], "stop", None);
    MessagesFields(r);
    var part := ToAnthropic(b);
    assert Get(part, K.Thinking) == Some(Str("x")) && Get(part, K.Type) == Some(Str(KIND_THINKING));
    assert part.fields - {K.Type, K.Thinking, K.Signature} == map[];
    assert ParsePart(s, part) == Ok(b');
    assert ParseParts(s, [part][1..]) == Ok([]) && [b'] + [] == [b'];
    assert DecodeMessagesPart(s, part) == Ok([b']);
    AnthropicCallsBack(s, []);
    OneBlock(b);
    OneBlock(b');
    DecodeMessagesFirst(s, part, [], [b'], []);
    var r' := DecodeMessages(s, EncodeMessages(r), requestedModel);
    MessagesFields(r'.value);
    assert r'.value.content == [b'];
    assert K.Signature !in ToAnthropic(b').fields && K.Signature in part.fields;
  }

  // ----- whatever a decoder returns is stable --------------------------------------------

  lemma ParsedPartClean(s: Serde, part: Json)
    requires ParsePart(s, part).Ok?
    ensures CleanExtra(ParsePart(s, part).value)
  {
    KindsDiffer();
  }

  lemma {:induction false} MessagesPartsBuilt(s: Serde, parts: seq<Json>)
    requires DecodeMessagesParts(s, parts).Ok?
    ensures Built(DecodeMessagesParts(s, parts).value)
  {
    if parts == [] {
    } else {
      MessagesPartsBuilt(s, parts[1..]);
      var part := parts[0];
      var kind := AsStr(Get(part, K.Type));
      if kind == Some(KIND_THINKING) || kind == Some(KIND_REDACTED) {
        KindsDiffer();
        ParsedPartClean(s, part);
        assert ParseParts(s, [part][1..]) == Ok([]);
      }
      assert Built(DecodeMessagesPart(s, part).value);
    }
  }

  lemma {:induction false} ReasoningPartsBuilt(parts: seq<Json>)
    requires ReasoningParts(parts).Ok?
    ensures Built(ReasoningParts(parts).value)
  {
    if parts == [] {
    } else {
      ReasoningPartsBuilt(parts[1..]);
    }
  }

  lemma {:induction false} PartTextsBuilt(parts: seq<Json>)
    ensures Built(PartTexts(parts))
  {
    if parts == [] {
    } else {
      PartTextsBuilt(parts[1..]);
    }
  }

  lemma {:induction false} ItemsBuilt(s: Serde, items: seq<Json>)
    requires DecodeItems(s, items).Ok?
    ensures Built(DecodeItems(s, items).value)
  {
    if items == [] {
    } else {
      ItemsBuilt(s, items[1..]);
      var item := items[0];
      if AsStr(Get(item, K.Type)) == Some("reasoning") {
        ReasoningPartsBuilt(ItemsOf(Get(item, K.Content)));
        ReasoningPartsBuilt(ItemsOf(Get(item, K.Summary)));
      } else {
        PartTextsBuilt(ItemsOf(Get(item, K.Content)));
      }
      assert Built(DecodeItem(s, item).value);
    }
  }

  lemma {:induction false} ChatPartsClean(s: Serde, parts: seq<Json>, i: nat)
    requires ParseParts(s, parts).Ok? && i < |ParseParts(s, parts).value|
    ensures CleanExtra(ParseParts(s, parts).value[i])
  {
    ParsedPartClean(s, parts[0]);
    if i > 0 {
      ChatPartsClean(s, parts[1..], i - 1);
    }
  }

  lemma ChatContentClean(s: Serde, v: Json, i: nat)
    requires ParseContent(s, v).Ok? && i < |ParseContent(s, v).value|
    ensures CleanExtra(ParseContent(s, v).value[i])
  {
    if v.Arr? {
      ChatPartsClean(s, v.items, i);
    } else if v.Obj? && K.Type in v.fields {
      ParsedPartClean(s, v);
    }
  }

  lemma {:induction false} ChatCallsBuilt(s: Serde, calls: seq<Json>)
    ensures OnlyCalls(DecodeChatCalls(s, calls))
  {
    if calls == [] {
    } else {
      ChatCallsBuilt(s, calls[1..]);
    }
  }

  lemma ChatIsClean(s: Serde, raw: Json)
    requires ChatContent(s, raw).Ok?
    ensures forall i :: 0 <= i < |ChatContent(s, raw).value| ==> CleanExtra(ChatContent(s, raw).value[i])
  {
    var parsed := ParseMaybe(s, Get(raw, K.Content)).value;
    forall i | 0 <= i < |parsed| ensures CleanExtra(parsed[i]) {
      ChatContentClean(s, Get(raw, K.Content).value, i);
    }
    ChatCallsBuilt(s, ItemsOf(Get(raw, K.ToolCalls)));
  }

  predicate NoToolResults(content: seq<Block>) {
    forall i :: 0 <= i < |content| ==> !content[i].ToolResult?
  }

  /** Decoders build what the round trip needs; only Chat content can hold tool results. */
  lemma DecodedIsBuilt(s: Serde, protocol: Protocol, v: Json, requestedModel: string)
    requires Decode(s, protocol, v, requestedModel).Ok?
    ensures var content := Decode(s, protocol, v, requestedModel).value.content;
      (protocol != ChatCompletions || NoToolResults(content)) ==> Built(content)
  {
    match protocol
    case ChatCompletions => ChatIsClean(s, Get(ItemsOf(Get(v, K.Choices))[0], K.Message).value);
    case Responses => ItemsBuilt(s, ItemsOf(Get(v, K.Output)));
    case Messages => MessagesPartsBuilt(s, ItemsOf(Get(v, K.Content)));
  }

  // ----- chains of protocols -------------------------------------------------------------

  function RelayResponse(s: Serde, r: Response, chain: seq<Protocol>, requestedModel: string): Result<Response, Error>
    decreases |chain|
  {
    if chain == [] then Ok(r)
    else
      var next :- Decode(s, chain[0], Encode(s, chain[0], r), requestedModel);
      RelayResponse(s, next, chain[1..], requestedModel)
  }

  lemma {:induction false} VisibleText(content: seq<Block>)
    requires ReasoningsOf(content) == []
    ensures TextOf(Visible(content)) == TextOf(content) && ReasoningsOf(Visible(content)) == []
  {
    if content == [] {
    } else {
      VisibleText(content[1..]);
      var first := if content[0].ToolCall? then [] else [content[0]];
      assert Visible(content) == first + Visible(content[1..]);
      TextOfConcat(first, Visible(content[1..]));
      ReasoningsOfConcat(first, Visible(content[1..]));
    }
  }

  /** Everything a client must not lose on the way, as one value. */
  datatype Essence = Essence(id: string, model: string, calls: seq<Block>)

  function EssenceOf(r: Response): Essence {
    Essence(r.id, r.model, CallsOf(r.content))
  }

  lemma {:induction false} VisibleBuilt(content: seq<Block>)
    requires Built(content)
    ensures Built(Visible(content))
  {
    if content == [] {
    } else {
      VisibleBuilt(content[1..]);
    }
  }

  lemma {:induction false} CallsBuilt(calls: seq<Block>)
    requires OnlyCalls(calls)
    ensures Built(calls)
  {
  }

  lemma {:induction false} ReasoningBlocksBuilt(texts: seq<string>)
    ensures Built(ReasoningBlocks(texts))
  {
    if texts == [] {
    } else {
      ReasoningBlocksBuilt(texts[1..]);
    }
  }

  lemma MessagesViewText(content: seq<Block>)
    requires ReasoningsOf(content) == []
    ensures TextOf(MessagesView(content)) == TextOf(content) && ReasoningsOf(MessagesView(content)) == []
  {
    CallsAreCalls(content);
    VisibleText(content);
    NothingVisible(content);
    OnlyCallsProjects(CallsOf(content));
    var head := if Visible(content) == [] then [Text("")] else Visible(content);
    assert TextOf([Text("")]) == "" && ReasoningsOf([Text("")]) == [];
    TextOfConcat(head, CallsOf(content));
    ReasoningsOfConcat(head, CallsOf(content));
  }

  /** What one step keeps. */
  ghost predicate Kept(protocol: Protocol, r: Response, r': Response) {
    && Built(r'.content) && EssenceOf(r') == EssenceOf(r)
    && r'.usage == DecodeUsage(protocol, Some(EncodeUsage(protocol, r.usage)))
    && (ReasoningsOf(r.content) == [] ==> TextOf(r'.content) == TextOf(r.content) && ReasoningsOf(r'.content) == [])
  }

  lemma ChatViewBuilt(content: seq<Block>)
    ensures Built(ChatView(content))
    ensures ReasoningsOf(content) == [] ==> ReasoningsOf(ChatView(content)) == []
  {
    CallsAreCalls(content);
    CallsBuilt(CallsOf(content));
    AssembledProjects(MaybeReasoning(Joined(ReasoningsOf(content))), MaybeText(TextOf(content)), CallsOf(content));
  }

  lemma ChatConserves(s: Serde, r: Response, requestedModel: string)
    requires s.Lawful()
    ensures var r' := DecodeChat(s, EncodeChat(s, r), requestedModel);
      r'.Ok? ==> Kept(ChatCompletions, r, r'.value)
  {
    ChatDecoded(s, r, requestedModel);
    ChatViewProjects(r.content);
    ChatViewBuilt(r.content);
  }

  lemma ResponsesViewBuilt(content: seq<Block>)
    ensures Built(ResponsesView(content))
  {
    CallsAreCalls(content);
    CallsBuilt(CallsOf(content));
    ReasoningBlocksBuilt(Shown(ReasoningsOf(content)));
  }

  lemma ResponsesConserves(s: Serde, r: Response, requestedModel: string)
    requires s.Lawful()
    ensures var r' := DecodeResponses(s, EncodeResponses(s, r), requestedModel);
      r'.Ok? ==> Kept(Protocol.Responses, r, r'.value)
  {
    ResponsesDecoded(s, r, requestedModel);
    ResponsesViewProjects(r.content);
    ResponsesViewBuilt(r.content);
  }

  lemma MessagesConserves(s: Serde, r: Response, requestedModel: string)
    requires Built(r.content)
    ensures var r' := DecodeMessages(s, EncodeMessages(r), requestedModel);
      r'.Ok? ==> Kept(Protocol.Messages, r, r'.value)
  {
    CallsAreCalls(r.content);
    CallsBuilt(CallsOf(r.content));
    MessagesDecoded(s, r, requestedModel);
    MessagesViewProjects(r.content);
    VisibleBuilt(r.content);
    assert Built(MessagesView(r.content));
    if ReasoningsOf(r.content) == [] {
      MessagesViewText(r.content);
    }
  }

  lemma HopConserves(s: Serde, protocol: Protocol, r: Response, requestedModel: string)
    requires s.Lawful() && Built(r.content)
    ensures var r' := Decode(s, protocol, Encode(s, protocol, r), requestedModel);
      r'.Ok? ==> Kept(protocol, r, r'.value)
  {
    match protocol
    case ChatCompletions => ChatConserves(s, r, requestedModel);
    case Responses => ResponsesConserves(s, r, requestedModel);
    case Messages => MessagesConserves(s, r, requestedModel);
  }

  /**
   Through any chain of protocols that delivers a response, the id, the model and all tool calls arrive
   unchanged; so does the text when there was no separate reasoning, and the tokens as `TokensConservedIff` says.
   */
  lemma {:induction false} ChainConserves(s: Serde, r: Response, chain: seq<Protocol>, requestedModel: string)
    requires s.Lawful() && Built(r.content) && RelayResponse(s, r, chain, requestedModel).Ok?
    ensures var r' := RelayResponse(s, r, chain, requestedModel).value;
      && EssenceOf(r') == EssenceOf(r) && r'.usage == Relay(r.usage, chain)
      && (ReasoningsOf(r.content) == [] ==> TextOf(r'.content) == TextOf(r.content))
    decreases |chain|
  {
    if chain == [] {
    } else {
      HopConserves(s, chain[0], r, requestedModel);
      ChainConserves(s, Decode(s, chain[0], Encode(s, chain[0], r), requestedModel).value, chain[1..], requestedModel);
    }
  }

  predicate KeepsFinish(reason: string, calls: bool) {
    if Contains(reason, "tool") then !Contains(reason, "length") && calls
    else Contains(reason, "length") || (!Contains(reason, "max_tokens") && !calls)
  }

  /** The finish reason a Chat client sees survives a step through Responses in exactly these cases. */
  lemma FinishSurvivesResponsesIff(s: Serde, r: Response, requestedModel: string)
    requires s.Lawful() && Built(r.content)
    requires Decode(s, Protocol.Responses, Encode(s, Protocol.Responses, r), requestedModel).Ok?
    ensures var r' := Decode(s, Protocol.Responses, Encode(s, Protocol.Responses, r), requestedModel).value;
      ChatFinish(r'.finishReason) == ChatFinish(r.finishReason) <==> KeepsFinish(r.finishReason, CallsOf(r.content) != [])
  {
    ResponsesDecoded(s, r, requestedModel);
    ResponsesViewProjects(r.content);
    ResponsesFields(s, r);
    FinishWords();
  }

  /** The finish reason a Chat client sees always survives a step through Messages. */
  lemma FinishSurvivesMessages(s: Serde, r: Response, requestedModel: string)
    requires Built(r.content)
    ensures var r' := DecodeMessages(s, EncodeMessages(r), requestedModel);
      r'.Ok? && ChatFinish(r'.value.finishReason) == ChatFinish(r.finishReason)
  {
    MessagesDecoded(s, r, requestedModel);
    ChatAfterMessages(r.finishReason);
  }

  lemma ChatAfterMessages(reason: string)
    ensures ChatFinish(MessagesFinish(reason)) == ChatFinish(reason)
  {
    if Contains(reason, "tool") {
      assert "tool_use"[..4] == "tool";
    } else if Contains(reason, "length") || Contains(reason, "max_tokens") {
      NotWithout("max_tokens", "tool", 3);
    } else {
      NoneOfThese(MessagesFinish(reason));
    }
  }

  /** The stop reason a Messages client sees survives a step through Chat unless it is a stop sequence. */
  lemma FinishSurvivesChatIff(s: Serde, r: Response, requestedModel: string)
    requires s.Lawful() && DecodeChat(s, EncodeChat(s, r), requestedModel).Ok?
    ensures var r' := DecodeChat(s, EncodeChat(s, r), requestedModel).value;
      MessagesFinish(r'.finishReason) == MessagesFinish(r.finishReason) <==> MessagesFinish(r.finishReason) != "stop_sequence"
  {
    ChatDecoded(s, r, requestedModel);
    MessagesAfterChat(r.finishReason);
  }

  lemma MessagesAfterChat(reason: string)
    ensures MessagesFinish(ChatFinish(reason)) == MessagesFinish(reason) <==> MessagesFinish(reason) != "stop_sequence"
  {
    if Contains(reason, "tool") {
      assert "tool_calls"[..4] == "tool";
    } else if Contains(reason, "length") || Contains(reason, "max_tokens") {
      NotWithout("length", "tool", 1);
    } else {
      PlainStop("stop");
    }
  }

  lemma PlainStop(reason: string)
    requires reason == "stop"
    ensures MessagesFinish(reason) == "end_turn"
  {
    NoneOfThese(reason);
    NotWithout(reason, "stop_sequence", 4);
  }

  lemma FinishWords()
    ensures ChatFinish("length") == "length" && ChatFinish("tool_calls") == "tool_calls" && ChatFinish("stop") == "stop"
    ensures "length" != "tool_calls" && "stop" != "tool_calls" && "length" != "stop"
  {
    assert "tool_calls"[..4] == "tool";
    NotWithout("length", "tool", 1);
    NoneOfThese("stop");
  }
}

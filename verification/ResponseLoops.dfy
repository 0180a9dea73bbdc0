/** The loops of the response encoder and decoders, each proved to compute the value of its function. */
module ResponseLoops {
  import opened Collections
  import opened JsonValues
  import opened ContentBlocks
  import opened ResponseCodec
  import opened ResponseRoundTrip

  lemma {:induction false} ReasoningItemsSnoc(position: nat, texts: seq<string>, text: string)
    ensures ReasoningItems(position, texts + [text]) == ReasoningItems(position, texts) + [ReasoningItem(position + |texts|, text)]
    ensures |ReasoningItems(position, texts)| == |texts|
    decreases |texts|
  {
    if texts == [] {
      assert texts + [text] == [text];
    } else {
      assert (texts + [text])[1..] == texts[1..] + [text];
      ReasoningItemsSnoc(position + 1, texts[1..], text);
    }
  }

  lemma {:induction false} ShownSnoc(texts: seq<string>, text: string)
    ensures Shown(texts + [text]) == if Blank(text) then Shown(texts) else Shown(texts) + [text]
  {
    if texts == [] {
      assert texts + [text] == [text];
    } else {
      assert (texts + [text])[1..] == texts[1..] + [text];
      ShownSnoc(texts[1..], text);
    }
  }

  lemma {:induction false} CallItemsSnoc(s: Serde, calls: seq<Block>, call: Block)
    requires OnlyCalls(calls) && call.ToolCall?
    ensures CallItems(s, calls + [call]) == CallItems(s, calls) + [CallItem(s, call)]
  {
    if calls == [] {
      assert calls + [call] == [call];
    } else {
      assert (calls + [call])[1..] == calls[1..] + [call];
      CallItemsSnoc(s, calls[1..], call);
    }
  }

  lemma Reaches(content: seq<Block>, i: nat)
    requires i < |content|
    ensures content[..i + 1] == content[..i] + [content[i]]
    ensures ReasoningsOf(content[..i + 1]) == if content[i].Reasoning? then ReasoningsOf(content[..i]) + [content[i].text] else ReasoningsOf(content[..i])
    ensures CallsOf(content[..i + 1]) == if content[i].ToolCall? then CallsOf(content[..i]) + [content[i]] else CallsOf(content[..i])
  {
    assert content[..i + 1] == content[..i] + [content[i]];
    ReasoningsOfConcat(content[..i], [content[i]]);
    CallsOfConcat(content[..i], [content[i]]);
  }

  lemma ReasoningReaches(content: seq<Block>, i: nat)
    requires i < |content|
    ensures var items := ReasoningItems(0, Shown(ReasoningsOf(content[..i])));
      ReasoningItems(0, Shown(ReasoningsOf(content[..i + 1])))
      == if content[i].Reasoning? && !Blank(content[i].text) then items + [ReasoningItem(|items|, content[i].text)] else items
  {
    Reaches(content, i);
    if content[i].Reasoning? {
      ShownSnoc(ReasoningsOf(content[..i]), content[i].text);
      ReasoningItemsSnoc(0, Shown(ReasoningsOf(content[..i])), content[i].text);
    }
  }

  /** Reasoning items, each numbered by its position in the output. */
  method EncodeReasonings(content: seq<Block>) returns (output: seq<Json>)
    ensures output == ReasoningItems(0, Shown(ReasoningsOf(content)))
  {
    output := [];
    for i := 0 to |content|
      invariant output == ReasoningItems(0, Shown(ReasoningsOf(content[..i])))
    {
      ReasoningReaches(content, i);
      if content[i].Reasoning? && !Blank(content[i].text) {
        output := output + [ReasoningItem(|output|, content[i].text)];
      }
    }
    assert content[..|content|] == content;
  }

  lemma CallReaches(s: Serde, content: seq<Block>, i: nat)
    requires i < |content|
    ensures OnlyCalls(CallsOf(content[..i])) && OnlyCalls(CallsOf(content[..i + 1]))
    ensures CallItems(s, CallsOf(content[..i + 1]))
      == if content[i].ToolCall? then CallItems(s, CallsOf(content[..i])) + [CallItem(s, content[i])] else CallItems(s, CallsOf(content[..i]))
  {
    Reaches(content, i);
    CallsAreCalls(content[..i]);
    CallsAreCalls(content[..i + 1]);
    if content[i].ToolCall? {
      CallItemsSnoc(s, CallsOf(content[..i]), content[i]);
    }
  }

  /** The whole output: reasoning, then the text, then the calls. */
  method EncodeOutput(s: Serde, content: seq<Block>) returns (output: seq<Json>)
    ensures output == OutputItems(s, content)
  {
    output := EncodeReasonings(content);
    if TextOf(content) != "" {
      output := output + [MessageItem(TextOf(content))];
    }
    ghost var head := output;
    for i := 0 to |content|
      invariant OnlyCalls(CallsOf(content[..i])) && output == head + CallItems(s, CallsOf(content[..i]))
    {
      CallReaches(s, content, i);
      if content[i].ToolCall? {
        output := output + [CallItem(s, content[i])];
      }
    }
    assert content[..|content|] == content;
  }

  /** The error of the first item that fails is the result. */
  lemma {:induction false} DecodeItemsFailsAt(s: Serde, items: seq<Json>, i: nat)
    requires i < |items| && DecodeItems(s, items[..i]).Ok? && DecodeItem(s, items[i]).Err?
    ensures DecodeItems(s, items) == Err(DecodeItem(s, items[i]).error)
    decreases i
  {
    if i == 0 {
    } else {
      assert items[..i][1..] == items[1..][..i - 1];
      DecodeItemsFailsAt(s, items[1..], i - 1);
    }
  }

  lemma DecodeItemsNext(s: Serde, items: seq<Json>, i: nat)
    requires i < |items| && DecodeItems(s, items[..i]).Ok? && DecodeItem(s, items[i]).Ok?
    ensures DecodeItems(s, items[..i + 1]) == Ok(DecodeItems(s, items[..i]).value + DecodeItem(s, items[i]).value)
  {
    var item := DecodeItem(s, items[i]).value;
    assert DecodeItems(s, []) == Ok([]);
    DecodeItemsFirst(s, items[i], [], item, []);
    assert [items[i]] + [] == [items[i]] && item + [] == item;
    DecodeItemsConcat(s, items[..i], [items[i]]);
    assert items[..i] + [items[i]] == items[..i + 1];
  }

  method DecodeOutput(s: Serde, items: seq<Json>) returns (r: Result<seq<Block>, Error>)
    ensures r == DecodeItems(s, items)
  {
    var content: seq<Block> := [];
    for i := 0 to |items|
      invariant DecodeItems(s, items[..i]) == Ok(content)
    {
      var item := DecodeItem(s, items[i]);
      if item.Err? {
        DecodeItemsFailsAt(s, items, i);
        return Err(item.error);
      }
      DecodeItemsNext(s, items, i);
      content := content + item.value;
    }
    assert items[..|items|] == items;
    return Ok(content);
  }

  lemma {:induction false} DecodeChatCallsSnoc(s: Serde, calls: seq<Json>, call: Json)
    ensures DecodeChatCalls(s, calls + [call]) == DecodeChatCalls(s, calls) + [DecodeChatCall(s, call)]
  {
    if calls == [] {
      assert calls + [call] == [call];
    } else {
      assert (calls + [call])[1..] == calls[1..] + [call];
      DecodeChatCallsSnoc(s, calls[1..], call);
    }
  }

  method DecodeToolCalls(s: Serde, calls: seq<Json>) returns (content: seq<Block>)
    ensures content == DecodeChatCalls(s, calls)
  {
    content := [];
    for i := 0 to |calls|
      invariant content == DecodeChatCalls(s, calls[..i])
    {
      assert calls[..i + 1] == calls[..i] + [calls[i]];
      DecodeChatCallsSnoc(s, calls[..i], calls[i]);
      content := content + [DecodeChatCall(s, calls[i])];
    }
    assert calls[..|calls|] == calls;
  }

  lemma {:induction false} DecodePartsFailsAt(s: Serde, parts: seq<Json>, i: nat)
    requires i < |parts| && DecodeMessagesParts(s, parts[..i]).Ok? && DecodeMessagesPart(s, parts[i]).Err?
    ensures DecodeMessagesParts(s, parts) == Err(DecodeMessagesPart(s, parts[i]).error)
    decreases i
  {
    if i == 0 {
    } else {
      assert parts[..i][1..] == parts[1..][..i - 1];
      DecodePartsFailsAt(s, parts[1..], i - 1);
    }
  }

  lemma DecodePartsNext(s: Serde, parts: seq<Json>, i: nat)
    requires i < |parts| && DecodeMessagesParts(s, parts[..i]).Ok? && DecodeMessagesPart(s, parts[i]).Ok?
    ensures DecodeMessagesParts(s, parts[..i + 1]) == Ok(DecodeMessagesParts(s, parts[..i]).value + DecodeMessagesPart(s, parts[i]).value)
  {
    var part := DecodeMessagesPart(s, parts[i]).value;
    assert DecodeMessagesParts(s, []) == Ok([]);
    DecodeMessagesFirst(s, parts[i], [], part, []);
    assert [parts[i]] + [] == [parts[i]] && part + [] == part;
    DecodeMessagesPartsConcat(s, parts[..i], [parts[i]]);
    assert parts[..i] + [parts[i]] == parts[..i + 1];
  }

  method DecodeBlocks(s: Serde, parts: seq<Json>) returns (r: Result<seq<Block>, Error>)
    ensures r == DecodeMessagesParts(s, parts)
  {
    var content: seq<Block> := [];
    for i := 0 to |parts|
      invariant DecodeMessagesParts(s, parts[..i]) == Ok(content)
    {
      var part := DecodeMessagesPart(s, parts[i]);
      if part.Err? {
        DecodePartsFailsAt(s, parts, i);
        return Err(part.error);
      }
      DecodePartsNext(s, parts, i);
      content := content + part.value;
    }
    assert parts[..|parts|] == parts;
    return Ok(content);
  }
}

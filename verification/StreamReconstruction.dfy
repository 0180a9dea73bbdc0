/** Rebuilding the whole response, `reconstruct_response` of `src/provider_adapters/sse.rs`. */
module StreamReconstruction {
  import opened Collections
  import opened JsonValues
  import opened StreamAccumulator
  import K = JsonKeys

  // ----- one output item -----------------------------------------------------------------

  predicate Vacant(fields: map<K.Key, Json>, key: K.Key) {
    key !in fields || fields[key].Null? || fields[key] == Str("")
  }

  /** `merge_response_output_item`: only missing, null or empty fields are filled in. */
  function MergeItem(target: Json, source: Json): Json {
    if !target.Obj? || !source.Obj? then target
    else Obj(target.fields + map key | key in source.fields && Vacant(target.fields, key) :: source.fields[key])
  }

  predicate IsTextPart(part: Json) {
    AsStr(Get(part, K.Type)) == Some("output_text")
  }

  function TextPartOf(text: string): Json {
    Obj(map[K.Type := Str("output_text"), K.Text := Str(text), K.Annotations := Arr([])])
  }

  function FilledPart(part: Json, text: string): Json
    requires IsTextPart(part)
  {
    var given := AsStr(Get(part, K.Text));
    if given.None? || given.value == "" then Obj(part.fields[K.Text := Str(text)]) else part
  }

  /** The first text part is filled when it is empty; without one a part is added. */
  function FillParts(parts: seq<Json>, text: string): seq<Json> {
    if parts == [] then [TextPartOf(text)]
    else if IsTextPart(parts[0]) then [FilledPart(parts[0], text)] + parts[1..]
    else [parts[0]] + FillParts(parts[1..], text)
  }

  /** `merge_codex_message_text` */
  function MergeText(item: Json, text: string): Json {
    if AsStr(Get(item, K.Type)) != Some("message") then item
    else
      var content := if K.Content in item.fields then item.fields[K.Content] else Arr([]);
      if !content.Arr? then Obj(item.fields[K.Content := content])
      else Obj(item.fields[K.Content := Arr(FillParts(content.items, text))])
  }

  function NewMessage(id: string, parts: seq<Json>): Json {
    Obj(map[K.Id := Str(id), K.Type := Str("message"), K.Role := Str("assistant"), K.Content := Arr(parts)])
  }

  /** The text to show at a position: a completed text that is not blank wins over the deltas. */
  function ShownText(acc: Acc, response: Json, p: Position): Option<string> {
    var final := AsStr(Get(response, K.OutputText));
    var text :=
      if p in acc.textDone && !Blank(acc.textDone[p]) then Some(acc.textDone[p])
      else if p in acc.textDeltas then Some(acc.textDeltas[p])
      else if p == (0, 0) then final
      else None;
    if text.None? || Blank(text.value) then None else text
  }

  function ItemId(acc: Acc, index: nat): string {
    if index in acc.itemIds then acc.itemIds[index] else "msg_0"
  }

  function GivenItem(response: Json, index: nat): Option<Json> {
    var items := AsArr(Get(response, K.Output));
    if items.Some? && index < |items.value| then Some(items.value[index]) else None
  }

  function BaseItem(acc: Acc, response: Json, index: nat): Option<Json> {
    var given := GivenItem(response, index);
    if index !in acc.outputItems then given
    else if given.None? then Some(acc.outputItems[index])
    else Some(MergeItem(given.value, acc.outputItems[index]))
  }

  function WithShownText(acc: Acc, response: Json, index: nat, part: nat, item: Option<Json>): Option<Json> {
    var text := ShownText(acc, response, (index, part));
    if text.None? then item
    else Some(MergeText(if item.Some? then item.value else NewMessage(ItemId(acc, index), []), text.value))
  }

  /** The item with the texts of its first parts. */
  function TextedItem(acc: Acc, response: Json, index: nat, parts: nat): Option<Json> {
    if parts == 0 then BaseItem(acc, response, index)
    else WithShownText(acc, response, index, parts - 1, TextedItem(acc, response, index, parts - 1))
  }

  /** Completed texts replace gathered ones unless they are empty. */
  function Completed(gathered: map<nat, string>, done: map<nat, string>, index: nat): string {
    if index in done && done[index] != "" then done[index] else TextAt(gathered, index)
  }

  function WithField(item: Option<Json>, kind: string, key: K.Key, text: string): Option<Json> {
    if text != "" && item.Some? && AsStr(Get(item.value, K.Type)) == Some(kind) then Some(Obj(item.value.fields[key := Str(text)]))
    else item
  }

  function CalledItem(acc: Acc, response: Json, index: nat, parts: nat): Option<Json> {
    WithField(TextedItem(acc, response, index, parts), "function_call", K.Arguments, Completed(acc.callArguments, acc.callArgumentsDone, index))
  }

  function FinalItem(acc: Acc, response: Json, index: nat, parts: nat): Option<Json> {
    WithField(CalledItem(acc, response, index, parts), "custom_tool_call", K.Input, Completed(acc.customInput, acc.customInputDone, index))
  }

  /** The final items below a bound, in index order. */
  function Listing(acc: Acc, response: Json, bound: nat, parts: nat): seq<Json> {
    if bound == 0 then []
    else
      var item := FinalItem(acc, response, bound - 1, parts);
      Listing(acc, response, bound - 1, parts) + if item.Some? then [item.value] else []
  }

  /** Every index is below the bounds. */
  ghost predicate Covers(acc: Acc, response: Json, bound: nat, parts: nat) {
    && bound > 0 && parts > 0
    && (AsArr(Get(response, K.Output)).Some? ==> |AsArr(Get(response, K.Output)).value| <= bound)
    && (forall i :: i in acc.outputItems ==> i < bound)
    && (forall p: Position :: p in acc.textDeltas ==> p.0 < bound && p.1 < parts)
    && (forall p: Position :: p in acc.textDone ==> p.0 < bound && p.1 < parts)
  }

  function Rebuilt(response: Json, items: seq<Json>): Option<Json>
    requires response.Obj?
  {
    if items == [] then None else Some(Obj(response.fields[K.Output := Arr(items)]))
  }

  // ----- order and membership ------------------------------------------------------------

  /** An item was sent or streamed at this index, or a text is shown at it. */
  ghost predicate Present(acc: Acc, response: Json, index: nat) {
    GivenItem(response, index).Some? || index in acc.outputItems || exists c: nat :: ShownText(acc, response, (index, c)).Some?
  }

  ghost predicate NonePresent(acc: Acc, response: Json) {
    forall i: nat :: !Present(acc, response, i)
  }

  predicate Increasing(indexes: seq<nat>) {
    forall i, j :: 0 <= i < j < |indexes| ==> indexes[i] < indexes[j]
  }

  /** The output is the item of every index that is present, in the order of the indexes. */
  ghost predicate InIndexOrder(acc: Acc, response: Json, parts: nat, indexes: seq<nat>, output: seq<Json>) {
    && Increasing(indexes) && |indexes| == |output|
    && (forall k :: 0 <= k < |indexes| ==> FinalItem(acc, response, indexes[k], parts) == Some(output[k]))
    && (forall i: nat :: i in indexes <==> Present(acc, response, i))
  }

  lemma {:induction false} TextedWhen(acc: Acc, response: Json, index: nat, parts: nat)
    ensures TextedItem(acc, response, index, parts).Some?
       <==> BaseItem(acc, response, index).Some? || exists c: nat :: c < parts && ShownText(acc, response, (index, c)).Some?
  {
    if parts == 0 {
    } else {
      TextedWhen(acc, response, index, parts - 1);
    }
  }

  lemma PresentIff(acc: Acc, response: Json, bound: nat, parts: nat, index: nat)
    requires Covers(acc, response, bound, parts)
    ensures FinalItem(acc, response, index, parts).Some? <==> Present(acc, response, index)
  {
    TextedWhen(acc, response, index, parts);
    forall c: nat | ShownText(acc, response, (index, c)).Some? ensures c < parts {
    }
  }

  lemma {:induction false} ListingIndexes(acc: Acc, response: Json, bound: nat, parts: nat) returns (indexes: seq<nat>)
    ensures var output := Listing(acc, response, bound, parts);
      && Increasing(indexes) && |indexes| == |output|
      && (forall k :: 0 <= k < |indexes| ==> indexes[k] < bound && FinalItem(acc, response, indexes[k], parts) == Some(output[k]))
      && (forall i: nat :: i in indexes <==> i < bound && FinalItem(acc, response, i, parts).Some?)
    decreases bound
  {
    indexes := [];
    if bound == 0 {
    } else {
      var before := ListingIndexes(acc, response, bound - 1, parts);
      indexes := before;
      if FinalItem(acc, response, bound - 1, parts).Some? {
        indexes := before + [bound - 1];
        forall i: nat ensures i in indexes <==> i < bound && FinalItem(acc, response, i, parts).Some? {
          assert i in indexes <==> i in before || i == bound - 1;
        }
      }
    }
  }

  /** The listing is the present items in index order. */
  lemma ListedInOrder(acc: Acc, response: Json, bound: nat, parts: nat) returns (indexes: seq<nat>)
    requires Covers(acc, response, bound, parts)
    ensures InIndexOrder(acc, response, parts, indexes, Listing(acc, response, bound, parts))
  {
    indexes := ListingIndexes(acc, response, bound, parts);
    forall i: nat ensures i in indexes <==> Present(acc, response, i) {
      PresentIff(acc, response, bound, parts, i);
      if i >= bound {
        NothingBeyond(acc, response, bound, parts, i, parts);
      }
    }
  }

  // ----- what an item holds --------------------------------------------------------------

  /** A sent field that says something survives; a vacant one is filled from the streamed item. */
  lemma MergedField(target: Json, source: Json, key: K.Key)
    requires target.Obj? && source.Obj?
    ensures Get(MergeItem(target, source), key)
      == if Vacant(target.fields, key) && key in source.fields then Some(source.fields[key]) else Get(target, key)
  {
  }

  lemma {:induction false} TextLeavesFields(acc: Acc, response: Json, index: nat, parts: nat, key: K.Key)
    requires BaseItem(acc, response, index).Some? && key != K.Content
    ensures TextedItem(acc, response, index, parts).Some?
    ensures Get(TextedItem(acc, response, index, parts).value, key) == Get(BaseItem(acc, response, index).value, key)
  {
    if parts == 0 {
    } else {
      TextLeavesFields(acc, response, index, parts - 1, key);
    }
  }

  /** A sent field that is not vacant is in the final item, whatever was streamed. */
  lemma SentFieldSurvives(acc: Acc, response: Json, index: nat, parts: nat, key: K.Key)
    requires var given := GivenItem(response, index);
      given.Some? && given.value.Obj? && !Vacant(given.value.fields, key)
    requires key != K.Content && key != K.Arguments && key != K.Input
    ensures FinalItem(acc, response, index, parts).Some?
    ensures Get(FinalItem(acc, response, index, parts).value, key) == Get(GivenItem(response, index).value, key)
  {
    BaseKeepsSent(acc, response, index, key);
    TextLeavesFields(acc, response, index, parts, key);
    var texted, called := TextedItem(acc, response, index, parts), CalledItem(acc, response, index, parts);
    FieldLeavesOthers(texted, "function_call", K.Arguments, Completed(acc.callArguments, acc.callArgumentsDone, index), key);
    FieldLeavesOthers(called, "custom_tool_call", K.Input, Completed(acc.customInput, acc.customInputDone, index), key);
  }

  lemma BaseKeepsSent(acc: Acc, response: Json, index: nat, key: K.Key)
    requires var given := GivenItem(response, index);
      given.Some? && given.value.Obj? && !Vacant(given.value.fields, key)
    ensures BaseItem(acc, response, index).Some?
    ensures Get(BaseItem(acc, response, index).value, key) == Get(GivenItem(response, index).value, key)
  {
    if index in acc.outputItems && acc.outputItems[index].Obj? {
      MergedField(GivenItem(response, index).value, acc.outputItems[index], key);
    }
  }

  lemma FieldLeavesOthers(item: Option<Json>, kind: string, written: K.Key, text: string, key: K.Key)
    requires item.Some? && key != written
    ensures WithField(item, kind, written, text).Some? && Get(WithField(item, kind, written, text).value, key) == Get(item.value, key)
  {
  }

  /** A function call carries its completed arguments, or else the arguments gathered, or else what its item had. */
  lemma CallCarriesArguments(acc: Acc, response: Json, index: nat, parts: nat)
    requires var base := BaseItem(acc, response, index);
      base.Some? && AsStr(Get(base.value, K.Type)) == Some("function_call")
    ensures FinalItem(acc, response, index, parts).Some?
    ensures var text := Completed(acc.callArguments, acc.callArgumentsDone, index);
      Get(FinalItem(acc, response, index, parts).value, K.Arguments)
      == if text != "" then Some(Str(text)) else Get(BaseItem(acc, response, index).value, K.Arguments)
  {
    TextLeavesFields(acc, response, index, parts, K.Type);
    TextLeavesFields(acc, response, index, parts, K.Arguments);
    assert "function_call"[0] != "custom_tool_call"[0];
  }

  /** The same for the input of a custom tool call. */
  lemma CustomCallCarriesInput(acc: Acc, response: Json, index: nat, parts: nat)
    requires var base := BaseItem(acc, response, index);
      base.Some? && AsStr(Get(base.value, K.Type)) == Some("custom_tool_call")
    ensures FinalItem(acc, response, index, parts).Some?
    ensures var text := Completed(acc.customInput, acc.customInputDone, index);
      Get(FinalItem(acc, response, index, parts).value, K.Input)
      == if text != "" then Some(Str(text)) else Get(BaseItem(acc, response, index).value, K.Input)
  {
    TextLeavesFields(acc, response, index, parts, K.Type);
    TextLeavesFields(acc, response, index, parts, K.Input);
    assert "function_call"[0] != "custom_tool_call"[0];
  }

  predicate NoTextPart(parts: seq<Json>) {
    forall i :: 0 <= i < |parts| ==> !IsTextPart(parts[i])
  }

  /** With a text part, nothing but the first text part changes. */
  lemma {:induction false} FilledParts(parts: seq<Json>, text: string, k: nat)
    requires k < |parts| && IsTextPart(parts[k]) && NoTextPart(parts[..k])
    ensures FillParts(parts, text) == parts[k := FilledPart(parts[k], text)]
  {
    if k == 0 {
    } else {
      assert !IsTextPart(parts[..k][0]);
      assert parts[1..][..k - 1] == parts[..k][1..];
      FilledParts(parts[1..], text, k - 1);
    }
  }

  /** It changes in its text only, and only when that was empty. */
  lemma FilledPartFields(part: Json, text: string, key: K.Key)
    requires IsTextPart(part)
    ensures Get(FilledPart(part, text), key)
      == if key == K.Text && StrOr(Get(part, K.Text), "") == "" then Some(Str(text)) else Get(part, key)
  {
  }

  /** Without a text part the text is added at the end. */
  lemma {:induction false} AddedPart(parts: seq<Json>, text: string)
    requires NoTextPart(parts)
    ensures FillParts(parts, text) == parts + [TextPartOf(text)]
  {
    if parts == [] {
    } else {
      AddedPart(parts[1..], text);
    }
  }

  // ----- the loops -----------------------------------------------------------------------

  function ItemAt(items: map<nat, Json>, i: nat): Option<Json> {
    if i in items then Some(items[i]) else None
  }

  method KeyBound(keys: set<nat>, atLeast: nat) returns (bound: nat)
    ensures bound >= atLeast && forall k :: k in keys ==> k < bound
  {
    bound := atLeast;
    var rest := keys;
    while rest != {}
      invariant bound >= atLeast && rest <= keys
      invariant forall k :: k in keys ==> k in rest || k < bound
    {
      var k :| k in rest;
      rest := rest - {k};
      if bound <= k {
        bound := k + 1;
      }
    }
  }

  method PositionBound(positions: set<Position>, atLeast: nat, partsAtLeast: nat) returns (bound: nat, parts: nat)
    ensures bound >= atLeast && parts >= partsAtLeast
    ensures forall p: Position :: p in positions ==> p.0 < bound && p.1 < parts
  {
    var indexes := set p | p in positions :: p.0;
    var contents := set p | p in positions :: p.1;
    bound := KeyBound(indexes, atLeast);
    parts := KeyBound(contents, partsAtLeast);
    forall p: Position | p in positions ensures p.0 < bound && p.1 < parts {
      assert p.0 in indexes && p.1 in contents;
    }
  }

  method Bounds(acc: Acc, response: Json) returns (bound: nat, parts: nat)
    ensures Covers(acc, response, bound, parts)
  {
    var items := AsArr(Get(response, K.Output));
    bound := KeyBound(acc.outputItems.Keys, if items.Some? then |items.value| + 1 else 1);
    parts := 1;
    bound, parts := PositionBound(acc.textDeltas.Keys, bound, parts);
    bound, parts := PositionBound(acc.textDone.Keys, bound, parts);
  }

  /** The items of the response, with the streamed items merged in. */
  method MergeItems(acc: Acc, response: Json, bound: nat, ghost parts: nat) returns (items: map<nat, Json>)
    requires Covers(acc, response, bound, parts)
    ensures forall i: nat :: ItemAt(items, i) == BaseItem(acc, response, i)
  {
    items := map[];
    var given := AsArr(Get(response, K.Output));
    if given.Some? {
      for i := 0 to |given.value|
        invariant forall j: nat :: ItemAt(items, j) == if j < i then GivenItem(response, j) else None
      {
        assert GivenItem(response, i) == Some(given.value[i]);
        ghost var before := items;
        items := items[i := given.value[i]];
        assert forall j: nat :: j != i ==> ItemAt(items, j) == ItemAt(before, j);
      }
    }
    for i := 0 to bound
      invariant forall j: nat :: ItemAt(items, j) == if j < i then BaseItem(acc, response, j) else GivenItem(response, j)
    {
      if i in acc.outputItems {
        var item := ItemAt(items, i);
        items := items[i := if item.Some? then MergeItem(item.value, acc.outputItems[i]) else acc.outputItems[i]];
      }
    }
  }

  /** The texts, position by position. */
  method MergeTexts(acc: Acc, response: Json, bound: nat, parts: nat, base: map<nat, Json>) returns (items: map<nat, Json>)
    requires Covers(acc, response, bound, parts)
    requires forall i: nat :: ItemAt(base, i) == BaseItem(acc, response, i)
    ensures forall i: nat :: ItemAt(items, i) == if i < bound then TextedItem(acc, response, i, parts) else BaseItem(acc, response, i)
  {
    items := base;
    for i := 0 to bound
      invariant forall j: nat :: ItemAt(items, j) == if j < i then TextedItem(acc, response, j, parts) else BaseItem(acc, response, j)
    {
      for c := 0 to parts
        invariant ItemAt(items, i) == TextedItem(acc, response, i, c)
        invariant forall j: nat :: j != i ==> ItemAt(items, j) == if j < i then TextedItem(acc, response, j, parts) else BaseItem(acc, response, j)
      {
        var text := ShownText(acc, response, (i, c));
        if text.Some? {
          var item := if i in items then items[i] else NewMessage(ItemId(acc, i), []);
          items := items[i := MergeText(item, text.value)];
        }
      }
    }
  }

  /** Completed or gathered call texts, written into items of their kind. */
  method MergeField(before: map<nat, Json>, gathered: map<nat, string>, done: map<nat, string>, kind: string, key: K.Key, bound: nat)
    returns (items: map<nat, Json>)
    ensures forall i: nat :: ItemAt(items, i) == if i < bound then WithField(ItemAt(before, i), kind, key, Completed(gathered, done, i)) else ItemAt(before, i)
  {
    items := before;
    for i := 0 to bound
      invariant forall j: nat :: ItemAt(items, j) == if j < i then WithField(ItemAt(before, j), kind, key, Completed(gathered, done, j)) else ItemAt(before, j)
    {
      var text := Completed(gathered, done, i);
      if text != "" && i in items && AsStr(Get(items[i], K.Type)) == Some(kind) {
        items := items[i := Obj(items[i].fields[key := Str(text)])];
      }
    }
  }

  /** All items below the bound, merged and in index order. */
  method CollectItems(acc: Acc, response: Json, bound: nat, parts: nat) returns (output: seq<Json>)
    requires Covers(acc, response, bound, parts)
    ensures output == Listing(acc, response, bound, parts)
  {
    var base := MergeItems(acc, response, bound, parts);
    var texted := MergeTexts(acc, response, bound, parts, base);
    var called := MergeField(texted, acc.callArguments, acc.callArgumentsDone, "function_call", K.Arguments, bound);
    var items := MergeField(called, acc.customInput, acc.customInputDone, "custom_tool_call", K.Input, bound);
    output := [];
    for i := 0 to bound
      invariant output == Listing(acc, response, i, parts)
    {
      assert ItemAt(items, i) == FinalItem(acc, response, i, parts) by {
        assert ItemAt(called, i) == CalledItem(acc, response, i, parts) by {
          assert ItemAt(texted, i) == TextedItem(acc, response, i, parts);
        }
      }
      if i in items {
        output := output + [items[i]];
      }
    }
  }

  lemma EmptyWhenNonePresent(acc: Acc, response: Json, parts: nat, indexes: seq<nat>, output: seq<Json>)
    requires InIndexOrder(acc, response, parts, indexes, output)
    ensures output == [] <==> NonePresent(acc, response)
  {
    if output != [] {
      assert indexes[0] in indexes;
    }
  }

  lemma RebuiltFields(response: Json, items: seq<Json>)
    requires response.Obj? && items != []
    ensures var r := Rebuilt(response, items);
      r.Some? && r.value.Obj? && r.value.fields - {K.Output} == response.fields - {K.Output} && ItemsOf(Get(r.value, K.Output)) == items
  {
  }

  /**
   None when no item is present; otherwise the response with the final item of every index that is present, in
   index order, and all its other fields as they were.
   */
  method Reconstruct(acc: Acc, response: Json) returns (r: Option<Json>, ghost indexes: seq<nat>, ghost width: nat)
    requires response.Obj?
    ensures r.None? <==> NonePresent(acc, response)
    ensures r.Some? ==> r.value.Obj? && r.value.fields - {K.Output} == response.fields - {K.Output}
    ensures r.Some? ==> InIndexOrder(acc, response, width, indexes, ItemsOf(Get(r.value, K.Output)))
    ensures forall bound, parts :: Covers(acc, response, bound, parts) ==> r == Rebuilt(response, Listing(acc, response, bound, parts))
  {
    var bound, parts := Bounds(acc, response);
    var output := CollectItems(acc, response, bound, parts);
    r, width := Rebuilt(response, output), parts;
    indexes := ListedInOrder(acc, response, bound, parts);
    EmptyWhenNonePresent(acc, response, parts, indexes, output);
    if output != [] {
      RebuiltFields(response, output);
    }
    forall b, p | Covers(acc, response, b, p) ensures Listing(acc, response, bound, parts) == Listing(acc, response, b, p) {
      BoundsDoNotMatter(acc, response, bound, parts, b, p);
    }
  }

  // ----- the bounds do not matter --------------------------------------------------------

  lemma {:induction false} PartsDoNotMatter(acc: Acc, response: Json, bound: nat, parts: nat, more: nat, index: nat)
    requires Covers(acc, response, bound, parts) && parts <= more
    ensures TextedItem(acc, response, index, more) == TextedItem(acc, response, index, parts)
    decreases more
  {
    if parts < more {
      PartsDoNotMatter(acc, response, bound, parts, more - 1, index);
      assert ShownText(acc, response, (index, more - 1)).None?;
    }
  }

  lemma {:induction false} NothingBeyond(acc: Acc, response: Json, bound: nat, parts: nat, index: nat, upto: nat)
    requires Covers(acc, response, bound, parts) && index >= bound
    ensures TextedItem(acc, response, index, upto).None?
    decreases upto
  {
    if upto == 0 {
    } else {
      NothingBeyond(acc, response, bound, parts, index, upto - 1);
      assert ShownText(acc, response, (index, upto - 1)).None?;
    }
  }

  lemma {:induction false} ListingStops(acc: Acc, response: Json, bound: nat, parts: nat, more: nat)
    requires Covers(acc, response, bound, parts) && bound <= more
    ensures Listing(acc, response, more, parts) == Listing(acc, response, bound, parts)
    decreases more
  {
    if bound < more {
      ListingStops(acc, response, bound, parts, more - 1);
      NothingBeyond(acc, response, bound, parts, more - 1, parts);
    }
  }

  lemma {:induction false} ListingParts(acc: Acc, response: Json, bound: nat, parts: nat, more: nat, n: nat)
    requires Covers(acc, response, bound, parts) && parts <= more
    ensures Listing(acc, response, n, more) == Listing(acc, response, n, parts)
    decreases n
  {
    if n == 0 {
    } else {
      ListingParts(acc, response, bound, parts, more, n - 1);
      PartsDoNotMatter(acc, response, bound, parts, more, n - 1);
    }
  }

  lemma BoundsDoNotMatter(acc: Acc, response: Json, b: nat, p: nat, b': nat, p': nat)
    requires Covers(acc, response, b, p) && Covers(acc, response, b', p')
    ensures Listing(acc, response, b, p) == Listing(acc, response, b', p')
  {
    var n, m := Max(b, b'), Max(p, p');
    ListingStops(acc, response, b, p, n);
    ListingStops(acc, response, b', p', n);
    ListingParts(acc, response, b, p, m, n);
    ListingParts(acc, response, b', p', m, n);
  }

  // ----- what the result holds -----------------------------------------------------------

  /** Two accumulators that differ only in deltas which a completed text replaces. */
  ghost predicate SameButReplaced(a: Acc, b: Acc) {
    && a == b.(textDeltas := a.textDeltas)
    && forall p: Position :: (p in a.textDone && !Blank(a.textDone[p])) || EntryText(a.textDeltas, p) == EntryText(b.textDeltas, p)
  }

  lemma ReplacedTextShown(a: Acc, b: Acc, response: Json, p: Position)
    requires SameButReplaced(a, b)
    ensures ShownText(a, response, p) == ShownText(b, response, p)
  {
    assert (p in a.textDone && !Blank(a.textDone[p])) || EntryText(a.textDeltas, p) == EntryText(b.textDeltas, p);
  }

  lemma {:induction false} ReplacedTextedItem(a: Acc, b: Acc, response: Json, index: nat, parts: nat)
    requires SameButReplaced(a, b)
    ensures TextedItem(a, response, index, parts) == TextedItem(b, response, index, parts)
  {
    if parts == 0 {
    } else {
      ReplacedTextedItem(a, b, response, index, parts - 1);
      ReplacedTextShown(a, b, response, (index, parts - 1));
    }
  }

  /** A completed text that is not blank makes the deltas of its position irrelevant to the whole response. */
  lemma {:induction false} DoneReplacesDeltas(a: Acc, b: Acc, response: Json, bound: nat, parts: nat)
    requires SameButReplaced(a, b)
    ensures Listing(a, response, bound, parts) == Listing(b, response, bound, parts)
    decreases bound
  {
    if bound == 0 {
    } else {
      DoneReplacesDeltas(a, b, response, bound - 1, parts);
      ReplacedTextedItem(a, b, response, bound - 1, parts);
    }
  }

  /** The first text shown among the first parts of an item. */
  function FirstShown(acc: Acc, response: Json, index: nat, parts: nat): Option<string> {
    if parts == 0 then None
    else Or(FirstShown(acc, response, index, parts - 1), ShownText(acc, response, (index, parts - 1)))
  }

  lemma FilledMessage(id: string, text: string, other: string)
    requires text != ""
    ensures MergeText(NewMessage(id, []), text) == NewMessage(id, [TextPartOf(text)])
    ensures MergeText(NewMessage(id, [TextPartOf(text)]), other) == NewMessage(id, [TextPartOf(text)])
  {
    var empty, full := NewMessage(id, []), NewMessage(id, [TextPartOf(text)]);
    assert empty.fields[K.Content := Arr([TextPartOf(text)])] == full.fields;
    assert FillParts([TextPartOf(text)], other) == [TextPartOf(text)];
    assert full.fields[K.Content := Arr([TextPartOf(text)])] == full.fields;
  }

  lemma {:induction false} FirstShownNotEmpty(acc: Acc, response: Json, index: nat, parts: nat)
    ensures FirstShown(acc, response, index, parts).Some? ==> FirstShown(acc, response, index, parts).value != ""
  {
    if parts == 0 {
    } else {
      FirstShownNotEmpty(acc, response, index, parts - 1);
    }
  }

  /** An item that only streamed as text becomes one message with the first text shown; further parts are not added. */
  lemma {:induction false} StreamedTextBecomesMessage(acc: Acc, response: Json, index: nat, parts: nat)
    requires BaseItem(acc, response, index).None?
    ensures TextedItem(acc, response, index, parts)
      == match FirstShown(acc, response, index, parts)
         case None => None
         case Some(text) => Some(NewMessage(ItemId(acc, index), [TextPartOf(text)]))
  {
    if parts == 0 {
    } else {
      StreamedTextBecomesMessage(acc, response, index, parts - 1);
      FirstShownNotEmpty(acc, response, index, parts - 1);
      var before, text := FirstShown(acc, response, index, parts - 1), ShownText(acc, response, (index, parts - 1));
      var other := if text.Some? then text.value else "";
      if before.Some? {
        FilledMessage(ItemId(acc, index), before.value, other);
      } else if text.Some? {
        FilledMessage(ItemId(acc, index), text.value, other);
      }
    }
  }
}

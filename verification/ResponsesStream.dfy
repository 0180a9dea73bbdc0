/** The accumulator object of `src/provider_adapters/sse.rs`. */
module ResponsesStream {
  import opened Collections
  import opened JsonValues
  import opened StreamAccumulator
  import opened StreamReconstruction
  import K = JsonKeys

  class ResponsesStreamAccumulator {
    var outputItems: map<nat, Json>
    var textDeltas: map<Position, string>
    var textDone: map<Position, string>
    var callArguments: map<nat, string>
    var callArgumentsDone: map<nat, string>
    var customInput: map<nat, string>
    var customInputDone: map<nat, string>
    var itemIds: map<nat, string>

    function State(): Acc
      reads this
    {
      Acc(outputItems, textDeltas, textDone, callArguments, callArgumentsDone, customInput, customInputDone, itemIds)
    }

    constructor ()
      ensures State() == EMPTY
    {
      outputItems, textDeltas, textDone := map[], map[], map[];
      callArguments, callArgumentsDone := map[], map[];
      customInput, customInputDone, itemIds := map[], map[], map[];
    }

    method Observe(s: Serde, kind: EventType, event: Json, maxBytes: nat) returns (accepted: bool)
      modifies this
      ensures Outcome(State(), accepted) == Apply(s, maxBytes, old(State()), Read(kind, event))
    {
      var signal := Read(kind, event);
      if signal.Nothing? {
        accepted := true;
      } else if signal.PutItem? || signal.AddText? || signal.FixText? {
        accepted := ObserveContent(s, signal, maxBytes);
      } else {
        accepted := ObserveCall(s, signal, maxBytes);
      }
    }

    /** Items and texts. */
    method ObserveContent(s: Serde, signal: Signal, maxBytes: nat) returns (accepted: bool)
      requires signal.PutItem? || signal.AddText? || signal.FixText?
      modifies this
      ensures Outcome(State(), accepted) == Apply(s, maxBytes, old(State()), signal)
    {
      accepted := true;
      match signal
      case PutItem(index, item) =>
        if TooLong(s.toText(item), maxBytes) {
          return false;
        }
        var id := AsStr(Get(item, K.Id));
        if id.Some? {
          itemIds := itemIds[index := id.value];
        }
        outputItems := outputItems[index := item];
      case AddText(index, part, text, id) =>
        itemIds := Identified(itemIds, index, id);
        accepted := !Overflows(textDeltas, (index, part), text, maxBytes);
        textDeltas := Appended(textDeltas, (index, part), text, maxBytes);
      case FixText(index, part, text) =>
        if TooLong(text, maxBytes) {
          return false;
        }
        textDone := textDone[(index, part) := text];
    }

    /** Arguments of function calls and input of custom tools, for the item the event is about. */
    method ObserveCall(s: Serde, signal: Signal, maxBytes: nat) returns (accepted: bool)
      requires signal.AddArguments? || signal.FixArguments? || signal.AddInput? || signal.FixInput?
      modifies this
      ensures Outcome(State(), accepted) == Apply(s, maxBytes, old(State()), signal)
    {
      accepted := true;
      var index := Locate(State(), signal.address);
      if index.None? {
        return;
      }
      match signal
      case AddArguments(_, text) =>
        accepted := !Overflows(callArguments, index.value, text, maxBytes);
        callArguments := Appended(callArguments, index.value, text, maxBytes);
      case FixArguments(_, text) =>
        if TooLong(text, maxBytes) {
          return false;
        }
        callArgumentsDone := callArgumentsDone[index.value := text];
      case AddInput(_, text) =>
        accepted := !Overflows(customInput, index.value, text, maxBytes);
        customInput := Appended(customInput, index.value, text, maxBytes);
      case FixInput(_, text) =>
        if TooLong(text, maxBytes) {
          return false;
        }
        customInputDone := customInputDone[index.value := text];
    }

    /** None when nothing was streamed and nothing was sent; otherwise the response with its items in index order. */
    method ReconstructResponse(response: Json) returns (r: Option<Json>, ghost indexes: seq<nat>, ghost width: nat)
      requires response.Obj?
      ensures r.None? <==> NonePresent(State(), response)
      ensures r.Some? ==> InIndexOrder(State(), response, width, indexes, ItemsOf(Get(r.value, K.Output)))
      ensures forall bound, parts :: Covers(State(), response, bound, parts) ==>
        r == Rebuilt(response, Listing(State(), response, bound, parts))
    {
      r, indexes, width := Reconstruct(State(), response);
    }
  }

  /** A stream in any interleaving of its items, with any of its deltas cut in two, rebuilds the same response. */
  lemma SameStreamSameResponse(s: Serde, maxBytes: nat, before: seq<Signal>, delta: Signal, a: string, b: string, after: seq<Signal>,
                               other: seq<Signal>, response: Json, bound: nat, parts: nat)
    requires IsDelta(delta) && AllAddressed(other)
    requires AllAddressed(before + [WithText(delta, a + b)] + after)
    requires forall index: nat :: About(before + [WithText(delta, a + b)] + after, index) == About(other, index)
    requires Run(s, maxBytes, EMPTY, other).Some?
    ensures var split := Run(s, maxBytes, EMPTY, before + [WithText(delta, a), WithText(delta, b)] + after);
      split.Some?
      && Listing(split.value, response, bound, parts) == Listing(Run(s, maxBytes, EMPTY, other).value, response, bound, parts)
  {
    SplittingChangesNothing(s, maxBytes, EMPTY, before, delta, a, b, after);
    InterleavingDoesNotMatter(s, maxBytes, EMPTY, before + [WithText(delta, a + b)] + after, other);
  }

  /**
   A function call item of a stream: its arguments are the last completed ones unless those are missing or empty,
   then the joined deltas, then what the item itself had.
   */
  lemma StreamedCallArguments(s: Serde, maxBytes: nat, signals: seq<Signal>, response: Json, index: nat, parts: nat)
    requires AllAddressed(signals) && Run(s, maxBytes, EMPTY, signals).Some?
    requires var base := BaseItem(Run(s, maxBytes, EMPTY, signals).value, response, index);
      base.Some? && AsStr(Get(base.value, K.Type)) == Some("function_call")
    ensures var acc := Run(s, maxBytes, EMPTY, signals).value;
      var done, gathered := LastArguments(signals, index, None), ArgumentTexts(signals, index);
      var text := if done.Some? && done.value != "" then done.value else gathered;
      var item := FinalItem(acc, response, index, parts);
      item.Some? && Get(item.value, K.Arguments)
        == if text != "" then Some(Str(text)) else Get(BaseItem(acc, response, index).value, K.Arguments)
  {
    var acc := Run(s, maxBytes, EMPTY, signals).value;
    ArgumentsGathered(s, maxBytes, EMPTY, signals, index);
    LastCallGathered(s, maxBytes, EMPTY, signals, index);
    CallCarriesArguments(acc, response, index, parts);
    assert "" + ArgumentTexts(signals, index) == ArgumentTexts(signals, index);
    assert EntryText(acc.callArgumentsDone, index) == LastArguments(signals, index, None);
  }

  /**
   The text shown at a position of a stream: its last completed text unless that is missing or blank, then its
   joined deltas; the text of the whole response is shown at the first position when no delta arrived there.
   */
  lemma StreamedText(s: Serde, maxBytes: nat, signals: seq<Signal>, response: Json, p: Position)
    requires Run(s, maxBytes, EMPTY, signals).Some?
    ensures var shown := ShownText(Run(s, maxBytes, EMPTY, signals).value, response, p);
      var done, gathered, whole := LastDone(signals, p, None), DeltaTexts(signals, p), StrOr(Get(response, K.OutputText), "");
      && (done.Some? && !Blank(done.value) ==> shown == done)
      && (!(done.Some? && !Blank(done.value)) && !Blank(gathered) ==> shown == Some(gathered))
      && (!(done.Some? && !Blank(done.value)) && Blank(gathered) ==>
            shown == if p == (0, 0) && !AnyDelta(signals, p) && !Blank(whole) then Some(whole) else None)
  {
    var acc := Run(s, maxBytes, EMPTY, signals).value;
    DeltasGathered(s, maxBytes, EMPTY, signals, p);
    LastDoneGathered(s, maxBytes, EMPTY, signals, p);
    DeltasPresentIff(s, maxBytes, EMPTY, signals, p);
    assert "" + DeltaTexts(signals, p) == DeltaTexts(signals, p);
    assert EntryText(acc.textDone, p) == LastDone(signals, p, None);
    assert TextAt(acc.textDeltas, p) == DeltaTexts(signals, p);
  }
}

/** Gathering a streamed response, `ResponsesStreamAccumulator::observe` of `src/provider_adapters/sse.rs`. */
module StreamAccumulator {
  import opened Collections
  import opened JsonValues
  import K = JsonKeys

  type Position = (nat, nat)

  /** The eight maps of the accumulator. */
  datatype Acc = Acc(
    outputItems: map<nat, Json>,
    textDeltas: map<Position, string>,
    textDone: map<Position, string>,
    callArguments: map<nat, string>,
    callArgumentsDone: map<nat, string>,
    customInput: map<nat, string>,
    customInputDone: map<nat, string>,
    itemIds: map<nat, string>)

  const EMPTY: Acc := Acc(map[], map[], map[], map[], map[], map[], map[], map[])

  // ----- events --------------------------------------------------------------------------

  datatype EventType =
    | OutputItem | TextDelta | TextDone | ContentPartDone
    | CallArgumentsDelta | CallArgumentsDone | CustomInputDelta | CustomInputDone | Unknown

  /** An output item named by its index, or by its id when the event has no index. */
  datatype Address = At(index: nat) | Named(id: string) | Nowhere

  /** What an event asks for. */
  datatype Signal =
    | Nothing
    | PutItem(index: nat, item: Json)
    | AddText(index: nat, part: nat, text: string, id: Option<string>)
    | FixText(index: nat, part: nat, text: string)
    | AddArguments(address: Address, text: string)
    | FixArguments(address: Address, text: string)
    | AddInput(address: Address, text: string)
    | FixInput(address: Address, text: string)

  function IndexOr(v: Option<Json>, default: nat): nat {
    if AsU64(v).Some? then AsU64(v).value else default
  }

  function AddressOf(event: Json): Address {
    if AsU64(Get(event, K.OutputIndex)).Some? then At(AsU64(Get(event, K.OutputIndex)).value)
    else if AsStr(Get(event, K.ItemId)).Some? then Named(AsStr(Get(event, K.ItemId)).value)
    else Nowhere
  }

  /** The matching on event types and fields. */
  function Read(kind: EventType, event: Json): Signal {
    var index := IndexOr(Get(event, K.OutputIndex), 0);
    var part := IndexOr(Get(event, K.ContentIndex), 0);
    var delta, text := AsStr(Get(event, K.Delta)), AsStr(Get(event, K.Text));
    match kind
    case OutputItem =>
      var item := Get(event, K.Item);
      if AsU64(Get(event, K.OutputIndex)).None? || item.None? || !item.value.Obj? then Nothing else PutItem(index, item.value)
    case TextDelta =>
      if delta.None? then Nothing else AddText(index, part, delta.value, AsStr(Get(event, K.ItemId)))
    case TextDone =>
      if text.None? then Nothing else FixText(index, part, text.value)
    case ContentPartDone =>
      var done := Or(AsStr(GetIn(Get(event, K.Part), K.Text)), text);
      if done.None? then Nothing else FixText(index, part, done.value)
    case CallArgumentsDelta =>
      if delta.None? then Nothing else AddArguments(AddressOf(event), delta.value)
    case CallArgumentsDone =>
      var arguments := AsStr(Get(event, K.Arguments));
      if arguments.None? then Nothing else FixArguments(AddressOf(event), arguments.value)
    case CustomInputDelta =>
      if delta.None? then Nothing else AddInput(AddressOf(event), delta.value)
    case CustomInputDone =>
      var input := AsStr(Get(event, K.Input));
      if input.None? then Nothing else FixInput(AddressOf(event), input.value)
    case Unknown => Nothing
  }

  // ----- one step ------------------------------------------------------------------------

  predicate TooLong(text: string, maxBytes: nat) {
    maxBytes != 0 && ByteLength(text) > maxBytes
  }

  function TextAt<P(==)>(m: map<P, string>, p: P): string {
    if p in m then m[p] else ""
  }

  predicate Overflows<P(==)>(m: map<P, string>, p: P, text: string, maxBytes: nat) {
    maxBytes != 0 && ByteLength(TextAt(m, p)) + ByteLength(text) > maxBytes
  }

  /** `append_bounded` on a map entry; on overflow only the entry is made. */
  function Appended<P(==)>(m: map<P, string>, p: P, text: string, maxBytes: nat): map<P, string> {
    m[p := if Overflows(m, p, text, maxBytes) then TextAt(m, p) else TextAt(m, p) + text]
  }

  predicate HasId(ids: map<nat, string>, id: string, i: nat) {
    i in ids && ids[i] == id
  }

  /** The output index of an event; a named item is the first one with that id. */
  ghost function Resolve(acc: Acc, address: Address): Option<nat> {
    match address
    case At(index) => Some(index)
    case Nowhere => None
    case Named(id) =>
      if k :| HasId(acc.itemIds, id, k) && forall j :: HasId(acc.itemIds, id, j) ==> k <= j then Some(k) else None
  }

  /** The accumulator after an event, and whether the event was accepted. */
  datatype Outcome = Outcome(acc: Acc, accepted: bool)

  function Identified(ids: map<nat, string>, index: nat, id: Option<string>): map<nat, string> {
    if id.None? || index in ids then ids else ids[index := id.value]
  }

  /** `observe` */
  ghost function Apply(s: Serde, maxBytes: nat, acc: Acc, signal: Signal): Outcome {
    match signal
    case Nothing => Outcome(acc, true)
    case PutItem(index, item) =>
      if TooLong(s.toText(item), maxBytes) then Outcome(acc, false)
      else
        var id := AsStr(Get(item, K.Id));
        Outcome(acc.(itemIds := if id.None? then acc.itemIds else acc.itemIds[index := id.value],
                     outputItems := acc.outputItems[index := item]), true)
    case AddText(index, part, text, id) =>
      Outcome(acc.(itemIds := Identified(acc.itemIds, index, id),
                   textDeltas := Appended(acc.textDeltas, (index, part), text, maxBytes)),
              !Overflows(acc.textDeltas, (index, part), text, maxBytes))
    case FixText(index, part, text) =>
      if TooLong(text, maxBytes) then Outcome(acc, false)
      else Outcome(acc.(textDone := acc.textDone[(index, part) := text]), true)
    case AddArguments(address, text) =>
      var index := Resolve(acc, address);
      if index.None? then Outcome(acc, true)
      else Outcome(acc.(callArguments := Appended(acc.callArguments, index.value, text, maxBytes)),
                   !Overflows(acc.callArguments, index.value, text, maxBytes))
    case FixArguments(address, text) =>
      var index := Resolve(acc, address);
      if index.None? then Outcome(acc, true)
      else if TooLong(text, maxBytes) then Outcome(acc, false)
      else Outcome(acc.(callArgumentsDone := acc.callArgumentsDone[index.value := text]), true)
    case AddInput(address, text) =>
      var index := Resolve(acc, address);
      if index.None? then Outcome(acc, true)
      else Outcome(acc.(customInput := Appended(acc.customInput, index.value, text, maxBytes)),
                   !Overflows(acc.customInput, index.value, text, maxBytes))
    case FixInput(address, text) =>
      var index := Resolve(acc, address);
      if index.None? then Outcome(acc, true)
      else if TooLong(text, maxBytes) then Outcome(acc, false)
      else Outcome(acc.(customInputDone := acc.customInputDone[index.value := text]), true)
  }

  // ----- the limit -----------------------------------------------------------------------

  predicate Within<P>(m: map<P, string>, maxBytes: nat) {
    forall p :: p in m ==> ByteLength(m[p]) <= maxBytes
  }

  /** Every gathered text is within the limit. */
  predicate Bounded(acc: Acc, maxBytes: nat) {
    && Within(acc.textDeltas, maxBytes) && Within(acc.textDone, maxBytes)
    && Within(acc.callArguments, maxBytes) && Within(acc.callArgumentsDone, maxBytes)
    && Within(acc.customInput, maxBytes) && Within(acc.customInputDone, maxBytes)
  }

  lemma AppendedWithin<P>(m: map<P, string>, p: P, text: string, maxBytes: nat)
    requires maxBytes != 0 && Within(m, maxBytes)
    ensures Within(Appended(m, p, text, maxBytes), maxBytes)
  {
    ByteLengthConcat(TextAt(m, p), text);
  }

  lemma UpdatedWithin<P>(m: map<P, string>, p: P, text: string, maxBytes: nat)
    requires maxBytes != 0 && Within(m, maxBytes) && !TooLong(text, maxBytes)
    ensures Within(m[p := text], maxBytes)
  {
  }

  lemma BoundedTextStep(s: Serde, maxBytes: nat, acc: Acc, signal: Signal)
    requires maxBytes != 0 && Bounded(acc, maxBytes) && (signal.AddText? || signal.FixText?)
    ensures Bounded(Apply(s, maxBytes, acc, signal).acc, maxBytes)
  {
    var p := (signal.index, signal.part);
    AppendedWithin(acc.textDeltas, p, signal.text, maxBytes);
    if !TooLong(signal.text, maxBytes) {
      UpdatedWithin(acc.textDone, p, signal.text, maxBytes);
    }
  }

  lemma BoundedCallStep(s: Serde, maxBytes: nat, acc: Acc, signal: Signal, index: nat)
    requires maxBytes != 0 && Bounded(acc, maxBytes)
    requires (signal.AddArguments? || signal.FixArguments? || signal.AddInput? || signal.FixInput?)
    requires Resolve(acc, signal.address) == Some(index)
    ensures Bounded(Apply(s, maxBytes, acc, signal).acc, maxBytes)
  {
    AppendedWithin(acc.callArguments, index, signal.text, maxBytes);
    AppendedWithin(acc.customInput, index, signal.text, maxBytes);
    if !TooLong(signal.text, maxBytes) {
      UpdatedWithin(acc.callArgumentsDone, index, signal.text, maxBytes);
      UpdatedWithin(acc.customInputDone, index, signal.text, maxBytes);
    }
  }

  /** No event takes a text over a non-zero limit, whether it is accepted or refused. */
  lemma BoundedStep(s: Serde, maxBytes: nat, acc: Acc, signal: Signal)
    requires maxBytes != 0 && Bounded(acc, maxBytes)
    ensures Bounded(Apply(s, maxBytes, acc, signal).acc, maxBytes)
  {
    if signal.AddText? || signal.FixText? {
      BoundedTextStep(s, maxBytes, acc, signal);
    } else if !signal.Nothing? && !signal.PutItem? && Resolve(acc, signal.address).Some? {
      BoundedCallStep(s, maxBytes, acc, signal, Resolve(acc, signal.address).value);
    }
  }

  // ----- streams -------------------------------------------------------------------------

  /** A whole stream; None when an event is refused. */
  ghost function Run(s: Serde, maxBytes: nat, acc: Acc, signals: seq<Signal>): Option<Acc>
    decreases |signals|
  {
    if signals == [] then Some(acc)
    else
      var next := Apply(s, maxBytes, acc, signals[0]);
      if next.accepted then Run(s, maxBytes, next.acc, signals[1..]) else None
  }

  lemma {:induction false} BoundedRun(s: Serde, maxBytes: nat, acc: Acc, signals: seq<Signal>)
    requires maxBytes != 0 && Bounded(acc, maxBytes) && Run(s, maxBytes, acc, signals).Some?
    ensures Bounded(Run(s, maxBytes, acc, signals).value, maxBytes)
    decreases |signals|
  {
    if signals == [] {
    } else {
      BoundedStep(s, maxBytes, acc, signals[0]);
      BoundedRun(s, maxBytes, Apply(s, maxBytes, acc, signals[0]).acc, signals[1..]);
    }
  }

  lemma {:induction false} RunConcat(s: Serde, maxBytes: nat, acc: Acc, a: seq<Signal>, b: seq<Signal>)
    ensures Run(s, maxBytes, acc, a + b)
         == if Run(s, maxBytes, acc, a).None? then None else Run(s, maxBytes, Run(s, maxBytes, acc, a).value, b)
    decreases |a|
  {
    if a == [] {
      assert a + b == b;
    } else {
      assert (a + b)[1..] == a[1..] + b;
      RunConcat(s, maxBytes, Apply(s, maxBytes, acc, a[0]).acc, a[1..], b);
    }
  }

  // ----- splitting deltas ----------------------------------------------------------------

  predicate IsDelta(signal: Signal) {
    signal.AddText? || signal.AddArguments? || signal.AddInput?
  }

  /** The same delta with another text. */
  function WithText(signal: Signal, text: string): Signal
    requires IsDelta(signal)
  {
    match signal
    case AddText(index, part, _, id) => AddText(index, part, text, id)
    case AddArguments(address, _) => AddArguments(address, text)
    case AddInput(address, _) => AddInput(address, text)
  }

  lemma AppendedTwice<P>(m: map<P, string>, p: P, a: string, b: string, maxBytes: nat)
    ensures Overflows(m, p, a + b, maxBytes) <==> Overflows(m, p, a, maxBytes) || Overflows(Appended(m, p, a, maxBytes), p, b, maxBytes)
    ensures !Overflows(m, p, a + b, maxBytes) ==>
      Appended(Appended(m, p, a, maxBytes), p, b, maxBytes) == Appended(m, p, a + b, maxBytes)
  {
    ByteLengthConcat(a, b);
    ByteLengthConcat(TextAt(m, p), a);
    assert TextAt(m, p) + a + b == TextAt(m, p) + (a + b);
  }

  lemma RunOneOrTwo(s: Serde, maxBytes: nat, acc: Acc, x: Signal, y: Signal)
    ensures var one := Apply(s, maxBytes, acc, x);
      Run(s, maxBytes, acc, [x]) == if one.accepted then Some(one.acc) else None
    ensures var one := Apply(s, maxBytes, acc, x);
      var two := Apply(s, maxBytes, one.acc, y);
      Run(s, maxBytes, acc, [x, y]) == if one.accepted && two.accepted then Some(two.acc) else None
  {
    assert [x, y][1..] == [y] && [y][1..] == [] && [x][1..] == [];
    var one := Apply(s, maxBytes, acc, x).acc;
    assert Run(s, maxBytes, one, [y]) == if Apply(s, maxBytes, one, y).accepted then Some(Apply(s, maxBytes, one, y).acc) else None;
  }

  lemma TextDeltasJoin(s: Serde, maxBytes: nat, acc: Acc, index: nat, part: nat, id: Option<string>, a: string, b: string)
    ensures Run(s, maxBytes, acc, [AddText(index, part, a, id), AddText(index, part, b, id)])
         == Run(s, maxBytes, acc, [AddText(index, part, a + b, id)])
  {
    RunOneOrTwo(s, maxBytes, acc, AddText(index, part, a, id), AddText(index, part, b, id));
    RunOneOrTwo(s, maxBytes, acc, AddText(index, part, a + b, id), Nothing);
    AppendedTwice(acc.textDeltas, (index, part), a, b, maxBytes);
    var ids := Identified(acc.itemIds, index, id);
    assert Identified(ids, index, id) == ids;
  }

  lemma ArgumentDeltasJoin(s: Serde, maxBytes: nat, acc: Acc, address: Address, a: string, b: string)
    ensures Run(s, maxBytes, acc, [AddArguments(address, a), AddArguments(address, b)])
         == Run(s, maxBytes, acc, [AddArguments(address, a + b)])
  {
    RunOneOrTwo(s, maxBytes, acc, AddArguments(address, a), AddArguments(address, b));
    RunOneOrTwo(s, maxBytes, acc, AddArguments(address, a + b), Nothing);
    var index := Resolve(acc, address);
    var next := Apply(s, maxBytes, acc, AddArguments(address, a)).acc;
    assert Resolve(next, address) == index by { SameIds(acc, next, address); }
    if index.Some? {
      AppendedTwice(acc.callArguments, index.value, a, b, maxBytes);
    }
  }

  lemma InputDeltasJoin(s: Serde, maxBytes: nat, acc: Acc, address: Address, a: string, b: string)
    ensures Run(s, maxBytes, acc, [AddInput(address, a), AddInput(address, b)])
         == Run(s, maxBytes, acc, [AddInput(address, a + b)])
  {
    RunOneOrTwo(s, maxBytes, acc, AddInput(address, a), AddInput(address, b));
    RunOneOrTwo(s, maxBytes, acc, AddInput(address, a + b), Nothing);
    var index := Resolve(acc, address);
    var next := Apply(s, maxBytes, acc, AddInput(address, a)).acc;
    assert Resolve(next, address) == index by { SameIds(acc, next, address); }
    if index.Some? {
      AppendedTwice(acc.customInput, index.value, a, b, maxBytes);
    }
  }

  lemma SameIds(a: Acc, b: Acc, address: Address)
    requires a.itemIds == b.itemIds
    ensures Resolve(a, address) == Resolve(b, address)
  {
  }

  /** Two deltas in a row do what one delta with the joined text does. */
  lemma DeltasJoin(s: Serde, maxBytes: nat, acc: Acc, signal: Signal, a: string, b: string)
    requires IsDelta(signal)
    ensures Run(s, maxBytes, acc, [WithText(signal, a), WithText(signal, b)]) == Run(s, maxBytes, acc, [WithText(signal, a + b)])
  {
    match signal
    case AddText(index, part, _, id) => TextDeltasJoin(s, maxBytes, acc, index, part, id, a, b);
    case AddArguments(address, _) => ArgumentDeltasJoin(s, maxBytes, acc, address, a, b);
    case AddInput(address, _) => InputDeltasJoin(s, maxBytes, acc, address, a, b);
  }

  /** Anywhere in a stream, a delta may arrive in pieces. */
  lemma SplittingChangesNothing(s: Serde, maxBytes: nat, acc: Acc, before: seq<Signal>, signal: Signal, a: string, b: string, after: seq<Signal>)
    requires IsDelta(signal)
    ensures Run(s, maxBytes, acc, before + [WithText(signal, a), WithText(signal, b)] + after)
         == Run(s, maxBytes, acc, before + [WithText(signal, a + b)] + after)
  {
    var split, whole := [WithText(signal, a), WithText(signal, b)], [WithText(signal, a + b)];
    RunConcat(s, maxBytes, acc, before + split, after);
    RunConcat(s, maxBytes, acc, before, split);
    RunConcat(s, maxBytes, acc, before + whole, after);
    RunConcat(s, maxBytes, acc, before, whole);
    if Run(s, maxBytes, acc, before).Some? {
      DeltasJoin(s, maxBytes, Run(s, maxBytes, acc, before).value, signal, a, b);
    }
  }

  // ----- reordering ----------------------------------------------------------------------

  /** One entry of one of the maps. */
  datatype Slot =
    | ItemSlot(index: nat) | IdSlot(index: nat)
    | DeltaSlot(index: nat, part: nat) | DoneSlot(index: nat, part: nat)
    | ArgumentsSlot(index: nat) | ArgumentsDoneSlot(index: nat)
    | InputSlot(index: nat) | InputDoneSlot(index: nat)

  function Entry<P(==)>(m: map<P, string>, p: P): Option<Json> {
    if p in m then Some(Str(m[p])) else None
  }

  function Lookup(acc: Acc, slot: Slot): Option<Json> {
    match slot
    case ItemSlot(i) => if i in acc.outputItems then Some(acc.outputItems[i]) else None
    case IdSlot(i) => Entry(acc.itemIds, i)
    case DeltaSlot(i, c) => Entry(acc.textDeltas, (i, c))
    case DoneSlot(i, c) => Entry(acc.textDone, (i, c))
    case ArgumentsSlot(i) => Entry(acc.callArguments, i)
    case ArgumentsDoneSlot(i) => Entry(acc.callArgumentsDone, i)
    case InputSlot(i) => Entry(acc.customInput, i)
    case InputDoneSlot(i) => Entry(acc.customInputDone, i)
  }

  /** Both hold the same about one output item. */
  ghost predicate Agree(a: Acc, b: Acc, index: nat) {
    forall slot: Slot :: slot.index == index ==> Lookup(a, slot) == Lookup(b, slot)
  }

  /** The event says which output item it is about. */
  predicate Addressed(signal: Signal) {
    (signal.AddArguments? || signal.FixArguments? || signal.AddInput? || signal.FixInput?) ==> signal.address.At?
  }

  function ItemOf(signal: Signal): nat
    requires Addressed(signal)
  {
    match signal
    case Nothing => 0
    case PutItem(index, _) => index
    case AddText(index, _, _, _) => index
    case FixText(index, _, _) => index
    case AddArguments(address, _) => address.index
    case FixArguments(address, _) => address.index
    case AddInput(address, _) => address.index
    case FixInput(address, _) => address.index
  }

  /** An event leaves all other output items alone. */
  lemma ElsewhereUnchanged(s: Serde, maxBytes: nat, acc: Acc, signal: Signal, index: nat)
    requires Addressed(signal) && index != ItemOf(signal)
    ensures Agree(Apply(s, maxBytes, acc, signal).acc, acc, index)
  {
  }

  lemma AppendedSame<P>(m: map<P, string>, n: map<P, string>, p: P, q: P, text: string, maxBytes: nat)
    requires Entry(m, p) == Entry(n, p) && Entry(m, q) == Entry(n, q)
    ensures Entry(Appended(m, p, text, maxBytes), q) == Entry(Appended(n, p, text, maxBytes), q)
    ensures Overflows(m, p, text, maxBytes) == Overflows(n, p, text, maxBytes)
  {
  }

  /** The slot an event may append to. */
  function Target(signal: Signal): Slot
    requires Addressed(signal)
  {
    var i := ItemOf(signal);
    match signal
    case AddText(_, part, _, _) => DeltaSlot(i, part)
    case AddArguments(_, _) => ArgumentsSlot(i)
    case AddInput(_, _) => InputSlot(i)
    case _ => ItemSlot(i)
  }

  lemma TextSlotDecides(s: Serde, maxBytes: nat, a: Acc, b: Acc, signal: Signal, slot: Slot)
    requires signal.AddText? && slot.index == signal.index
    requires Lookup(a, slot) == Lookup(b, slot) && Lookup(a, Target(signal)) == Lookup(b, Target(signal))
    ensures var x, y := Apply(s, maxBytes, a, signal), Apply(s, maxBytes, b, signal);
      x.accepted == y.accepted && Lookup(x.acc, slot) == Lookup(y.acc, slot)
  {
    var p := (signal.index, signal.part);
    AppendedSame(a.textDeltas, b.textDeltas, p, p, signal.text, maxBytes);
    if slot.DeltaSlot? {
      AppendedSame(a.textDeltas, b.textDeltas, p, (slot.index, slot.part), signal.text, maxBytes);
    }
  }

  lemma CallSlotDecides(s: Serde, maxBytes: nat, a: Acc, b: Acc, signal: Signal, slot: Slot)
    requires (signal.AddArguments? || signal.AddInput?) && Addressed(signal) && slot.index == ItemOf(signal)
    requires Lookup(a, slot) == Lookup(b, slot) && Lookup(a, Target(signal)) == Lookup(b, Target(signal))
    ensures var x, y := Apply(s, maxBytes, a, signal), Apply(s, maxBytes, b, signal);
      x.accepted == y.accepted && Lookup(x.acc, slot) == Lookup(y.acc, slot)
  {
    var i := ItemOf(signal);
    if signal.AddArguments? {
      AppendedSame(a.callArguments, b.callArguments, i, i, signal.text, maxBytes);
    } else {
      AppendedSame(a.customInput, b.customInput, i, i, signal.text, maxBytes);
    }
  }

  lemma SlotDecides(s: Serde, maxBytes: nat, a: Acc, b: Acc, signal: Signal, slot: Slot)
    requires Addressed(signal) && slot.index == ItemOf(signal)
    requires Lookup(a, slot) == Lookup(b, slot) && Lookup(a, Target(signal)) == Lookup(b, Target(signal))
    ensures var x, y := Apply(s, maxBytes, a, signal), Apply(s, maxBytes, b, signal);
      x.accepted == y.accepted && Lookup(x.acc, slot) == Lookup(y.acc, slot)
  {
    if signal.AddText? {
      TextSlotDecides(s, maxBytes, a, b, signal, slot);
    } else if signal.AddArguments? || signal.AddInput? {
      CallSlotDecides(s, maxBytes, a, b, signal, slot);
    } else if signal.FixText? {
      FixTextSlotDecides(s, maxBytes, a, b, signal, slot);
    } else if signal.FixArguments? || signal.FixInput? {
      FixCallSlotDecides(s, maxBytes, a, b, signal, slot);
    } else {
      PutSlotDecides(s, maxBytes, a, b, signal, slot);
    }
  }

  lemma PutSlotDecides(s: Serde, maxBytes: nat, a: Acc, b: Acc, signal: Signal, slot: Slot)
    requires (signal.Nothing? || signal.PutItem?) && slot.index == ItemOf(signal) && Lookup(a, slot) == Lookup(b, slot)
    ensures var x, y := Apply(s, maxBytes, a, signal), Apply(s, maxBytes, b, signal);
      x.accepted == y.accepted && Lookup(x.acc, slot) == Lookup(y.acc, slot)
  {
  }

  lemma FixTextSlotDecides(s: Serde, maxBytes: nat, a: Acc, b: Acc, signal: Signal, slot: Slot)
    requires signal.FixText? && slot.index == signal.index && Lookup(a, slot) == Lookup(b, slot)
    ensures var x, y := Apply(s, maxBytes, a, signal), Apply(s, maxBytes, b, signal);
      x.accepted == y.accepted && Lookup(x.acc, slot) == Lookup(y.acc, slot)
  {
    if slot.DoneSlot? {
      UpdatedSame(a.textDone, b.textDone, (signal.index, signal.part), (slot.index, slot.part), signal.text);
    }
  }

  lemma FixCallSlotDecides(s: Serde, maxBytes: nat, a: Acc, b: Acc, signal: Signal, slot: Slot)
    requires (signal.FixArguments? || signal.FixInput?) && Addressed(signal)
    requires slot.index == ItemOf(signal) && Lookup(a, slot) == Lookup(b, slot)
    ensures var x, y := Apply(s, maxBytes, a, signal), Apply(s, maxBytes, b, signal);
      x.accepted == y.accepted && Lookup(x.acc, slot) == Lookup(y.acc, slot)
  {
    var i := ItemOf(signal);
    assert Resolve(a, signal.address) == Some(i) == Resolve(b, signal.address);
    if signal.FixArguments? {
      UpdatedSame(a.callArgumentsDone, b.callArgumentsDone, i, i, signal.text);
    } else {
      UpdatedSame(a.customInputDone, b.customInputDone, i, i, signal.text);
    }
  }

  lemma UpdatedSame<P>(m: map<P, string>, n: map<P, string>, p: P, q: P, text: string)
    requires p == q || Entry(m, q) == Entry(n, q)
    ensures Entry(m[p := text], q) == Entry(n[p := text], q)
  {
  }

  /** What an event does to its own item depends on that item alone. */
  lemma OwnItemDecides(s: Serde, maxBytes: nat, a: Acc, b: Acc, signal: Signal)
    requires Addressed(signal) && Agree(a, b, ItemOf(signal))
    ensures Apply(s, maxBytes, a, signal).accepted == Apply(s, maxBytes, b, signal).accepted
    ensures Agree(Apply(s, maxBytes, a, signal).acc, Apply(s, maxBytes, b, signal).acc, ItemOf(signal))
  {
    var x, y := Apply(s, maxBytes, a, signal), Apply(s, maxBytes, b, signal);
    assert Lookup(a, Target(signal)) == Lookup(b, Target(signal));
    SlotDecides(s, maxBytes, a, b, signal, Target(signal));
    forall slot: Slot | slot.index == ItemOf(signal) ensures Lookup(x.acc, slot) == Lookup(y.acc, slot) {
      assert Lookup(a, slot) == Lookup(b, slot);
      SlotDecides(s, maxBytes, a, b, signal, slot);
    }
  }

  predicate AllAddressed(signals: seq<Signal>) {
    forall i :: 0 <= i < |signals| ==> Addressed(signals[i])
  }

  /** The events of a stream that are about one output item. */
  function About(signals: seq<Signal>, index: nat): seq<Signal>
    requires AllAddressed(signals)
  {
    if signals == [] then []
    else if ItemOf(signals[0]) == index then [signals[0]] + About(signals[1..], index)
    else About(signals[1..], index)
  }

  lemma {:induction false} AboutIsAddressed(signals: seq<Signal>, index: nat)
    requires AllAddressed(signals)
    ensures AllAddressed(About(signals, index)) && About(About(signals, index), index) == About(signals, index)
  {
    if signals == [] {
    } else {
      AboutIsAddressed(signals[1..], index);
      var rest := About(signals[1..], index);
      if ItemOf(signals[0]) == index {
        assert About(signals, index)[1..] == rest;
      } else {
        assert About(signals, index) == rest;
      }
    }
  }

  /** For one item, the whole stream does what its own events do. */
  lemma {:induction false} RunAbout(s: Serde, maxBytes: nat, a: Acc, b: Acc, signals: seq<Signal>, index: nat)
    requires AllAddressed(signals) && Agree(a, b, index) && Run(s, maxBytes, a, signals).Some?
    ensures Run(s, maxBytes, b, About(signals, index)).Some?
    ensures Agree(Run(s, maxBytes, a, signals).value, Run(s, maxBytes, b, About(signals, index)).value, index)
    decreases |signals|
  {
    if signals == [] {
    } else {
      var next := Apply(s, maxBytes, a, signals[0]).acc;
      if ItemOf(signals[0]) == index {
        OwnItemDecides(s, maxBytes, a, b, signals[0]);
        assert About(signals, index)[1..] == About(signals[1..], index);
        RunAbout(s, maxBytes, next, Apply(s, maxBytes, b, signals[0]).acc, signals[1..], index);
      } else {
        ElsewhereUnchanged(s, maxBytes, a, signals[0], index);
        assert About(signals, index) == About(signals[1..], index);
        RunAbout(s, maxBytes, next, b, signals[1..], index);
      }
    }
  }

  /** A refused stream is refused because of one item's events. */
  lemma {:induction false} RefusedAbout(s: Serde, maxBytes: nat, acc: Acc, signals: seq<Signal>) returns (index: nat)
    requires AllAddressed(signals) && Run(s, maxBytes, acc, signals).None?
    ensures Run(s, maxBytes, acc, About(signals, index)).None?
    decreases |signals|
  {
    var next := Apply(s, maxBytes, acc, signals[0]);
    if !next.accepted {
      index := ItemOf(signals[0]);
      assert About(signals, index)[0] == signals[0];
    } else {
      index := RefusedAbout(s, maxBytes, next.acc, signals[1..]);
      var rest := About(signals[1..], index);
      if ItemOf(signals[0]) == index {
        assert About(signals, index)[1..] == rest;
      } else {
        assert About(signals, index) == rest;
        AboutIsAddressed(signals[1..], index);
        if Run(s, maxBytes, acc, rest).Some? {
          ElsewhereUnchanged(s, maxBytes, acc, signals[0], index);
          RunAbout(s, maxBytes, acc, next.acc, rest, index);
        }
      }
    }
  }

  lemma SameEntries<P>(m: map<P, string>, n: map<P, string>)
    requires forall p :: Entry(m, p) == Entry(n, p)
    ensures m == n
  {
    forall p: P ensures (p in m <==> p in n) && (p in m ==> m[p] == n[p]) {
      assert Entry(m, p) == Entry(n, p);
    }
  }

  ghost predicate SameSlots(a: Acc, b: Acc) {
    forall slot: Slot :: Lookup(a, slot) == Lookup(b, slot)
  }

  lemma SameItems(a: Acc, b: Acc)
    requires SameSlots(a, b)
    ensures a.outputItems == b.outputItems && a.itemIds == b.itemIds
  {
    forall i: nat ensures Entry(a.itemIds, i) == Entry(b.itemIds, i) {
      assert Lookup(a, IdSlot(i)) == Lookup(b, IdSlot(i));
    }
    SameEntries(a.itemIds, b.itemIds);
    forall i: nat ensures (i in a.outputItems <==> i in b.outputItems) && (i in a.outputItems ==> a.outputItems[i] == b.outputItems[i]) {
      assert Lookup(a, ItemSlot(i)) == Lookup(b, ItemSlot(i));
    }
  }

  lemma SameTexts(a: Acc, b: Acc)
    requires SameSlots(a, b)
    ensures a.textDeltas == b.textDeltas && a.textDone == b.textDone
  {
    forall p: Position ensures Entry(a.textDeltas, p) == Entry(b.textDeltas, p) && Entry(a.textDone, p) == Entry(b.textDone, p) {
      assert p == (p.0, p.1);
      assert Lookup(a, DeltaSlot(p.0, p.1)) == Lookup(b, DeltaSlot(p.0, p.1));
      assert Lookup(a, DoneSlot(p.0, p.1)) == Lookup(b, DoneSlot(p.0, p.1));
    }
    SameEntries(a.textDeltas, b.textDeltas);
    SameEntries(a.textDone, b.textDone);
  }

  lemma SameArguments(a: Acc, b: Acc)
    requires SameSlots(a, b)
    ensures a.callArguments == b.callArguments && a.callArgumentsDone == b.callArgumentsDone
  {
    forall i: nat ensures Entry(a.callArguments, i) == Entry(b.callArguments, i) && Entry(a.callArgumentsDone, i) == Entry(b.callArgumentsDone, i) {
      assert Lookup(a, ArgumentsSlot(i)) == Lookup(b, ArgumentsSlot(i)) && Lookup(a, ArgumentsDoneSlot(i)) == Lookup(b, ArgumentsDoneSlot(i));
    }
    SameEntries(a.callArguments, b.callArguments);
    SameEntries(a.callArgumentsDone, b.callArgumentsDone);
  }

  lemma SameInputs(a: Acc, b: Acc)
    requires SameSlots(a, b)
    ensures a.customInput == b.customInput && a.customInputDone == b.customInputDone
  {
    forall i: nat ensures Entry(a.customInput, i) == Entry(b.customInput, i) && Entry(a.customInputDone, i) == Entry(b.customInputDone, i) {
      assert Lookup(a, InputSlot(i)) == Lookup(b, InputSlot(i)) && Lookup(a, InputDoneSlot(i)) == Lookup(b, InputDoneSlot(i));
    }
    SameEntries(a.customInput, b.customInput);
    SameEntries(a.customInputDone, b.customInputDone);
  }

  /** Agreeing on every item is being equal. */
  lemma AgreeEverywhere(a: Acc, b: Acc)
    requires forall index: nat :: Agree(a, b, index)
    ensures a == b
  {
    forall slot: Slot ensures Lookup(a, slot) == Lookup(b, slot) {
      assert Agree(a, b, slot.index);
    }
    SameItems(a, b);
    SameTexts(a, b);
    SameArguments(a, b);
    SameInputs(a, b);
  }

  /** Two streams with the same events for every item, in any interleaving, are both refused or end alike. */
  lemma InterleavingDoesNotMatter(s: Serde, maxBytes: nat, acc: Acc, one: seq<Signal>, two: seq<Signal>)
    requires AllAddressed(one) && AllAddressed(two)
    requires forall index: nat :: About(one, index) == About(two, index)
    ensures Run(s, maxBytes, acc, one) == Run(s, maxBytes, acc, two)
  {
    var x, y := Run(s, maxBytes, acc, one), Run(s, maxBytes, acc, two);
    if x.Some? && y.Some? {
      forall index: nat ensures Agree(x.value, y.value, index) {
        RunAbout(s, maxBytes, acc, acc, one, index);
        RunAbout(s, maxBytes, acc, acc, two, index);
      }
      AgreeEverywhere(x.value, y.value);
    } else if x.Some? {
      var index := RefusedAbout(s, maxBytes, acc, two);
      RunAbout(s, maxBytes, acc, acc, one, index);
    } else if y.Some? {
      var index := RefusedAbout(s, maxBytes, acc, one);
      RunAbout(s, maxBytes, acc, acc, two, index);
    }
  }

  // ----- what the texts are --------------------------------------------------------------

  /** All delta texts of one position, joined. */
  function DeltaTexts(signals: seq<Signal>, p: Position): string {
    if signals == [] then ""
    else
      (if signals[0].AddText? && (signals[0].index, signals[0].part) == p then signals[0].text else "")
      + DeltaTexts(signals[1..], p)
  }

  function DoneAfter(signal: Signal, p: Position, done: Option<string>): Option<string> {
    if signal.FixText? && (signal.index, signal.part) == p then Some(signal.text) else done
  }

  /** The last completed text of one position. */
  function LastDone(signals: seq<Signal>, p: Position, done: Option<string>): Option<string>
    decreases |signals|
  {
    if signals == [] then done else LastDone(signals[1..], p, DoneAfter(signals[0], p, done))
  }

  function EntryText<P(==)>(m: map<P, string>, p: P): Option<string> {
    if p in m then Some(m[p]) else None
  }

  lemma OneDeltaText(signal: Signal, p: Position)
    ensures DeltaTexts([signal], p) == if signal.AddText? && (signal.index, signal.part) == p then signal.text else ""
  {
    assert DeltaTexts([signal][1..], p) == "";
  }

  lemma StepKeepsTexts(s: Serde, maxBytes: nat, acc: Acc, signal: Signal)
    ensures !signal.AddText? ==> Apply(s, maxBytes, acc, signal).acc.textDeltas == acc.textDeltas
    ensures !signal.FixText? ==> Apply(s, maxBytes, acc, signal).acc.textDone == acc.textDone
  {
  }

  lemma AppendedAt<P>(m: map<P, string>, p: P, q: P, text: string, maxBytes: nat)
    requires !Overflows(m, p, text, maxBytes)
    ensures TextAt(Appended(m, p, text, maxBytes), q) == if p == q then TextAt(m, q) + text else TextAt(m, q)
  {
  }

  lemma StepAtPosition(s: Serde, maxBytes: nat, acc: Acc, signal: Signal, p: Position)
    requires Apply(s, maxBytes, acc, signal).accepted
    ensures var next := Apply(s, maxBytes, acc, signal).acc;
      && EntryText(next.textDone, p) == DoneAfter(signal, p, EntryText(acc.textDone, p))
      && TextAt(next.textDeltas, p) == TextAt(acc.textDeltas, p) + DeltaTexts([signal], p)
  {
    OneDeltaText(signal, p);
    StepKeepsTexts(s, maxBytes, acc, signal);
    if signal.AddText? {
      AppendedAt(acc.textDeltas, (signal.index, signal.part), p, signal.text, maxBytes);
    }
  }

  lemma DeltaTextsFirst(before: string, signals: seq<Signal>, p: Position)
    requires signals != []
    ensures before + DeltaTexts(signals, p) == before + DeltaTexts([signals[0]], p) + DeltaTexts(signals[1..], p)
  {
    OneDeltaText(signals[0], p);
  }

  /** An accepted stream leaves at each position all its deltas, joined in order. */
  lemma {:induction false} DeltasGathered(s: Serde, maxBytes: nat, acc: Acc, signals: seq<Signal>, p: Position)
    requires Run(s, maxBytes, acc, signals).Some?
    ensures TextAt(Run(s, maxBytes, acc, signals).value.textDeltas, p) == TextAt(acc.textDeltas, p) + DeltaTexts(signals, p)
    decreases |signals|
  {
    if signals == [] {
    } else {
      StepAtPosition(s, maxBytes, acc, signals[0], p);
      DeltaTextsFirst(TextAt(acc.textDeltas, p), signals, p);
      DeltasGathered(s, maxBytes, Apply(s, maxBytes, acc, signals[0]).acc, signals[1..], p);
    }
  }

  /** And the last completed text. */
  lemma {:induction false} LastDoneGathered(s: Serde, maxBytes: nat, acc: Acc, signals: seq<Signal>, p: Position)
    requires Run(s, maxBytes, acc, signals).Some?
    ensures EntryText(Run(s, maxBytes, acc, signals).value.textDone, p) == LastDone(signals, p, EntryText(acc.textDone, p))
    decreases |signals|
  {
    if signals == [] {
    } else {
      StepAtPosition(s, maxBytes, acc, signals[0], p);
      LastDoneGathered(s, maxBytes, Apply(s, maxBytes, acc, signals[0]).acc, signals[1..], p);
    }
  }

  // ----- what the calls and items are ------------------------------------------------------

  /** The arguments an event adds to the call at `index`. */
  function ArgumentsAdded(signal: Signal, index: nat): string {
    if signal.AddArguments? && signal.address == At(index) then signal.text else ""
  }

  function InputAdded(signal: Signal, index: nat): string {
    if signal.AddInput? && signal.address == At(index) then signal.text else ""
  }

  function ArgumentTexts(signals: seq<Signal>, index: nat): string {
    if signals == [] then "" else ArgumentsAdded(signals[0], index) + ArgumentTexts(signals[1..], index)
  }

  function InputTexts(signals: seq<Signal>, index: nat): string {
    if signals == [] then "" else InputAdded(signals[0], index) + InputTexts(signals[1..], index)
  }

  lemma StepKeepsArguments(s: Serde, maxBytes: nat, acc: Acc, signal: Signal)
    requires !signal.AddArguments?
    ensures Apply(s, maxBytes, acc, signal).acc.callArguments == acc.callArguments
  {
  }

  lemma StepKeepsInput(s: Serde, maxBytes: nat, acc: Acc, signal: Signal)
    requires !signal.AddInput?
    ensures Apply(s, maxBytes, acc, signal).acc.customInput == acc.customInput
  {
  }

  lemma StepPutsItem(s: Serde, maxBytes: nat, acc: Acc, signal: Signal, index: nat)
    requires Apply(s, maxBytes, acc, signal).accepted
    ensures Lookup(Apply(s, maxBytes, acc, signal).acc, ItemSlot(index)) == ItemPut(signal, index, Lookup(acc, ItemSlot(index)))
  {
    if !signal.PutItem? {
      StepKeepsItems(s, maxBytes, acc, signal);
    }
  }

  lemma StepKeepsItems(s: Serde, maxBytes: nat, acc: Acc, signal: Signal)
    requires !signal.PutItem?
    ensures Apply(s, maxBytes, acc, signal).acc.outputItems == acc.outputItems
  {
  }

  lemma StepAddsArguments(s: Serde, maxBytes: nat, acc: Acc, signal: Signal, index: nat)
    requires Addressed(signal) && Apply(s, maxBytes, acc, signal).accepted
    ensures TextAt(Apply(s, maxBytes, acc, signal).acc.callArguments, index)
         == TextAt(acc.callArguments, index) + ArgumentsAdded(signal, index)
  {
    if signal.AddArguments? {
      AppendedAt(acc.callArguments, signal.address.index, index, signal.text, maxBytes);
    } else {
      StepKeepsArguments(s, maxBytes, acc, signal);
    }
  }

  lemma StepAddsInput(s: Serde, maxBytes: nat, acc: Acc, signal: Signal, index: nat)
    requires Addressed(signal) && Apply(s, maxBytes, acc, signal).accepted
    ensures TextAt(Apply(s, maxBytes, acc, signal).acc.customInput, index)
         == TextAt(acc.customInput, index) + InputAdded(signal, index)
  {
    if signal.AddInput? {
      AppendedAt(acc.customInput, signal.address.index, index, signal.text, maxBytes);
    } else {
      StepKeepsInput(s, maxBytes, acc, signal);
    }
  }

  lemma ArgumentsFirst(before: string, signals: seq<Signal>, index: nat)
    requires signals != []
    ensures before + ArgumentTexts(signals, index) == before + ArgumentsAdded(signals[0], index) + ArgumentTexts(signals[1..], index)
  {
  }

  lemma InputFirst(before: string, signals: seq<Signal>, index: nat)
    requires signals != []
    ensures before + InputTexts(signals, index) == before + InputAdded(signals[0], index) + InputTexts(signals[1..], index)
  {
  }

  /** An accepted stream leaves at each call all its argument deltas, joined in order. */
  lemma {:induction false} ArgumentsGathered(s: Serde, maxBytes: nat, acc: Acc, signals: seq<Signal>, index: nat)
    requires AllAddressed(signals) && Run(s, maxBytes, acc, signals).Some?
    ensures TextAt(Run(s, maxBytes, acc, signals).value.callArguments, index)
         == TextAt(acc.callArguments, index) + ArgumentTexts(signals, index)
    decreases |signals|
  {
    if signals == [] {
    } else {
      StepAddsArguments(s, maxBytes, acc, signals[0], index);
      ArgumentsFirst(TextAt(acc.callArguments, index), signals, index);
      ArgumentsGathered(s, maxBytes, Apply(s, maxBytes, acc, signals[0]).acc, signals[1..], index);
    }
  }

  /** The same for the input of custom tools. */
  lemma {:induction false} InputGathered(s: Serde, maxBytes: nat, acc: Acc, signals: seq<Signal>, index: nat)
    requires AllAddressed(signals) && Run(s, maxBytes, acc, signals).Some?
    ensures TextAt(Run(s, maxBytes, acc, signals).value.customInput, index)
         == TextAt(acc.customInput, index) + InputTexts(signals, index)
    decreases |signals|
  {
    if signals == [] {
    } else {
      StepAddsInput(s, maxBytes, acc, signals[0], index);
      InputFirst(TextAt(acc.customInput, index), signals, index);
      InputGathered(s, maxBytes, Apply(s, maxBytes, acc, signals[0]).acc, signals[1..], index);
    }
  }

  /** The text a completing event leaves at the call `index`. */
  function ArgumentsFixed(signal: Signal, index: nat, done: Option<string>): Option<string> {
    if signal.FixArguments? && signal.address == At(index) then Some(signal.text) else done
  }

  function InputFixed(signal: Signal, index: nat, done: Option<string>): Option<string> {
    if signal.FixInput? && signal.address == At(index) then Some(signal.text) else done
  }

  function LastArguments(signals: seq<Signal>, index: nat, done: Option<string>): Option<string>
    decreases |signals|
  {
    if signals == [] then done else LastArguments(signals[1..], index, ArgumentsFixed(signals[0], index, done))
  }

  function LastInput(signals: seq<Signal>, index: nat, done: Option<string>): Option<string>
    decreases |signals|
  {
    if signals == [] then done else LastInput(signals[1..], index, InputFixed(signals[0], index, done))
  }

  lemma StepFixesCall(s: Serde, maxBytes: nat, acc: Acc, signal: Signal, index: nat)
    requires Addressed(signal) && Apply(s, maxBytes, acc, signal).accepted
    ensures var next := Apply(s, maxBytes, acc, signal).acc;
      && EntryText(next.callArgumentsDone, index) == ArgumentsFixed(signal, index, EntryText(acc.callArgumentsDone, index))
      && EntryText(next.customInputDone, index) == InputFixed(signal, index, EntryText(acc.customInputDone, index))
  {
  }

  /** And the last completed arguments and input. */
  lemma {:induction false} LastCallGathered(s: Serde, maxBytes: nat, acc: Acc, signals: seq<Signal>, index: nat)
    requires AllAddressed(signals) && Run(s, maxBytes, acc, signals).Some?
    ensures var end := Run(s, maxBytes, acc, signals).value;
      && EntryText(end.callArgumentsDone, index) == LastArguments(signals, index, EntryText(acc.callArgumentsDone, index))
      && EntryText(end.customInputDone, index) == LastInput(signals, index, EntryText(acc.customInputDone, index))
    decreases |signals|
  {
    if signals == [] {
    } else {
      StepFixesCall(s, maxBytes, acc, signals[0], index);
      LastCallGathered(s, maxBytes, Apply(s, maxBytes, acc, signals[0]).acc, signals[1..], index);
    }
  }

  function ItemPut(signal: Signal, index: nat, item: Option<Json>): Option<Json> {
    if signal.PutItem? && signal.index == index then Some(signal.item) else item
  }

  function LastItem(signals: seq<Signal>, index: nat, item: Option<Json>): Option<Json>
    decreases |signals|
  {
    if signals == [] then item else LastItem(signals[1..], index, ItemPut(signals[0], index, item))
  }

  /** Each index holds the last item put there. */
  lemma {:induction false} LastItemGathered(s: Serde, maxBytes: nat, acc: Acc, signals: seq<Signal>, index: nat)
    requires Run(s, maxBytes, acc, signals).Some?
    ensures Lookup(Run(s, maxBytes, acc, signals).value, ItemSlot(index)) == LastItem(signals, index, Lookup(acc, ItemSlot(index)))
    decreases |signals|
  {
    if signals == [] {
    } else {
      StepPutsItem(s, maxBytes, acc, signals[0], index);
      LastItemGathered(s, maxBytes, Apply(s, maxBytes, acc, signals[0]).acc, signals[1..], index);
    }
  }

  // ----- reading events ----------------------------------------------------------------

  /** An event as a provider writes it, with all its indexes. */
  function WrittenEvent(signal: Signal): (EventType, Json) {
    match signal
    case Nothing => (Unknown, Obj(map[]))
    case PutItem(index, item) => (OutputItem, Obj(map[K.OutputIndex := Num(index), K.Item := item]))
    case AddText(index, part, text, id) =>
      (TextDelta, Obj(map[K.OutputIndex := Num(index), K.ContentIndex := Num(part), K.Delta := Str(text)]
                      + if id.None? then map[] else map[K.ItemId := Str(id.value)]))
    case FixText(index, part, text) =>
      (TextDone, Obj(map[K.OutputIndex := Num(index), K.ContentIndex := Num(part), K.Text := Str(text)]))
    case AddArguments(address, text) => (CallArgumentsDelta, Obj(AddressFields(address)[K.Delta := Str(text)]))
    case FixArguments(address, text) => (CallArgumentsDone, Obj(AddressFields(address)[K.Arguments := Str(text)]))
    case AddInput(address, text) => (CustomInputDelta, Obj(AddressFields(address)[K.Delta := Str(text)]))
    case FixInput(address, text) => (CustomInputDone, Obj(AddressFields(address)[K.Input := Str(text)]))
  }

  function AddressFields(address: Address): map<K.Key, Json> {
    match address
    case At(index) => map[K.OutputIndex := Num(index)]
    case Named(id) => map[K.ItemId := Str(id)]
    case Nowhere => map[]
  }

  /** Indexes are 64-bit numbers and items are objects. */
  predicate Writable(signal: Signal) {
    match signal
    case Nothing => true
    case PutItem(index, item) => index < U64_LIMIT && item.Obj?
    case AddText(index, part, _, _) => index < U64_LIMIT && part < U64_LIMIT
    case FixText(index, part, _) => index < U64_LIMIT && part < U64_LIMIT
    case AddArguments(address, _) => address.At? ==> address.index < U64_LIMIT
    case FixArguments(address, _) => address.At? ==> address.index < U64_LIMIT
    case AddInput(address, _) => address.At? ==> address.index < U64_LIMIT
    case FixInput(address, _) => address.At? ==> address.index < U64_LIMIT
  }

  /** Reading a written event gives the signal it was written for. */
  lemma WrittenEventRead(signal: Signal)
    requires Writable(signal)
    ensures Read(WrittenEvent(signal).0, WrittenEvent(signal).1) == signal
  {
    if signal.AddArguments? || signal.FixArguments? || signal.AddInput? || signal.FixInput? {
      CallEventRead(signal);
    }
  }

  lemma CallEventRead(signal: Signal)
    requires Writable(signal) && (signal.AddArguments? || signal.FixArguments? || signal.AddInput? || signal.FixInput?)
    ensures Read(WrittenEvent(signal).0, WrittenEvent(signal).1) == signal
  {
    var key := if signal.FixArguments? then K.Arguments else if signal.FixInput? then K.Input else K.Delta;
    AddressRead(signal.address, key, Str(signal.text));
  }

  lemma AddressRead(address: Address, key: K.Key, value: Json)
    requires (address.At? ==> address.index < U64_LIMIT) && key != K.OutputIndex && key != K.ItemId
    ensures var event := Obj(AddressFields(address)[key := value]);
      AddressOf(event) == address && Get(event, key) == Some(value)
  {
  }

  /** A completed content part says its text in the part; a text event without indexes is about the first position. */
  lemma PartialEventsRead(index: nat, part: nat, text: string, other: string)
    requires index < U64_LIMIT && part < U64_LIMIT
    ensures Read(ContentPartDone, Obj(map[K.OutputIndex := Num(index), K.ContentIndex := Num(part),
                                          K.Part := Obj(map[K.Text := Str(text)]), K.Text := Str(other)])) == FixText(index, part, text)
    ensures Read(ContentPartDone, Obj(map[K.OutputIndex := Num(index), K.ContentIndex := Num(part), K.Text := Str(other)]))
         == FixText(index, part, other)
    ensures Read(TextDelta, Obj(map[K.Delta := Str(text)])) == AddText(0, 0, text, None)
    ensures Read(TextDone, Obj(map[K.Text := Str(text)])) == FixText(0, 0, text)
    ensures Read(OutputItem, Obj(map[K.Item := Obj(map[])])) == Nothing
    ensures Read(TextDelta, Obj(map[K.Text := Str(text)])) == Nothing
  {
  }

  // ----- finding an item by its id -------------------------------------------------------

  /** The first index with an id. */
  method FindIndex(ids: map<nat, string>, id: string) returns (index: Option<nat>)
    ensures index.None? ==> forall j :: !HasId(ids, id, j)
    ensures index.Some? ==> HasId(ids, id, index.value) && forall j :: HasId(ids, id, j) ==> index.value <= j
  {
    index := None;
    var rest := ids.Keys;
    while rest != {}
      invariant rest <= ids.Keys
      invariant index.None? ==> forall j :: HasId(ids, id, j) ==> j in rest
      invariant index.Some? ==> HasId(ids, id, index.value) && forall j :: HasId(ids, id, j) ==> j in rest || index.value <= j
    {
      var k :| k in rest;
      rest := rest - {k};
      if ids[k] == id && (index.None? || k < index.value) {
        index := Some(k);
      }
    }
  }

  method Locate(acc: Acc, address: Address) returns (index: Option<nat>)
    ensures index == Resolve(acc, address)
  {
    match address
    case At(i) => index := Some(i);
    case Nowhere => index := None;
    case Named(id) => index := FindIndex(acc.itemIds, id);
  }

  // ----- items and ids -------------------------------------------------------------------

  /** Every gathered item is within the limit too, as text. */
  predicate ItemsWithin(s: Serde, items: map<nat, Json>, maxBytes: nat) {
    forall i :: i in items ==> ByteLength(s.toText(items[i])) <= maxBytes
  }

  lemma ItemsWithinStep(s: Serde, maxBytes: nat, acc: Acc, signal: Signal)
    requires maxBytes != 0 && ItemsWithin(s, acc.outputItems, maxBytes)
    ensures ItemsWithin(s, Apply(s, maxBytes, acc, signal).acc.outputItems, maxBytes)
  {
    if !signal.PutItem? {
      StepKeepsItems(s, maxBytes, acc, signal);
    }
  }

  lemma {:induction false} ItemsWithinRun(s: Serde, maxBytes: nat, acc: Acc, signals: seq<Signal>)
    requires maxBytes != 0 && ItemsWithin(s, acc.outputItems, maxBytes) && Run(s, maxBytes, acc, signals).Some?
    ensures ItemsWithin(s, Run(s, maxBytes, acc, signals).value.outputItems, maxBytes)
    decreases |signals|
  {
    if signals == [] {
    } else {
      ItemsWithinStep(s, maxBytes, acc, signals[0]);
      ItemsWithinRun(s, maxBytes, Apply(s, maxBytes, acc, signals[0]).acc, signals[1..]);
    }
  }

  /** The id an event leaves at an index: an item's own id always, a delta's only when there was none. */
  function IdAfter(signal: Signal, index: nat, id: Option<string>): Option<string> {
    if signal.PutItem? && signal.index == index then Or(AsStr(Get(signal.item, K.Id)), id)
    else if signal.AddText? && signal.index == index then Or(id, signal.id)
    else id
  }

  function LastId(signals: seq<Signal>, index: nat, id: Option<string>): Option<string>
    decreases |signals|
  {
    if signals == [] then id else LastId(signals[1..], index, IdAfter(signals[0], index, id))
  }

  lemma StepIdentifies(s: Serde, maxBytes: nat, acc: Acc, signal: Signal, index: nat)
    requires Apply(s, maxBytes, acc, signal).accepted
    ensures EntryText(Apply(s, maxBytes, acc, signal).acc.itemIds, index) == IdAfter(signal, index, EntryText(acc.itemIds, index))
  {
  }

  /** Each index has the id of its last item that has one, or else of its first delta that has one. */
  lemma {:induction false} IdsGathered(s: Serde, maxBytes: nat, acc: Acc, signals: seq<Signal>, index: nat)
    requires Run(s, maxBytes, acc, signals).Some?
    ensures EntryText(Run(s, maxBytes, acc, signals).value.itemIds, index) == LastId(signals, index, EntryText(acc.itemIds, index))
    decreases |signals|
  {
    if signals == [] {
    } else {
      StepIdentifies(s, maxBytes, acc, signals[0], index);
      IdsGathered(s, maxBytes, Apply(s, maxBytes, acc, signals[0]).acc, signals[1..], index);
    }
  }

  /** Some delta of the position arrived. */
  predicate AnyDelta(signals: seq<Signal>, p: Position) {
    exists i :: 0 <= i < |signals| && signals[i].AddText? && (signals[i].index, signals[i].part) == p
  }

  lemma StepTouches(s: Serde, maxBytes: nat, acc: Acc, signal: Signal, p: Position)
    ensures p in Apply(s, maxBytes, acc, signal).acc.textDeltas
       <==> p in acc.textDeltas || (signal.AddText? && (signal.index, signal.part) == p)
  {
    StepKeepsTexts(s, maxBytes, acc, signal);
  }

  lemma {:induction false} DeltasPresentIff(s: Serde, maxBytes: nat, acc: Acc, signals: seq<Signal>, p: Position)
    requires Run(s, maxBytes, acc, signals).Some?
    ensures p in Run(s, maxBytes, acc, signals).value.textDeltas <==> p in acc.textDeltas || AnyDelta(signals, p)
    decreases |signals|
  {
    if signals == [] {
    } else {
      StepTouches(s, maxBytes, acc, signals[0], p);
      DeltasPresentIff(s, maxBytes, Apply(s, maxBytes, acc, signals[0]).acc, signals[1..], p);
      AnyDeltaFirst(signals, p);
    }
  }

  lemma AnyDeltaFirst(signals: seq<Signal>, p: Position)
    requires signals != []
    ensures AnyDelta(signals, p) <==> (signals[0].AddText? && (signals[0].index, signals[0].part) == p) || AnyDelta(signals[1..], p)
  {
    var rest := signals[1..];
    if AnyDelta(rest, p) {
      var i :| 0 <= i < |rest| && rest[i].AddText? && (rest[i].index, rest[i].part) == p;
      assert signals[i + 1] == rest[i];
    }
    if AnyDelta(signals, p) {
      var i :| 0 <= i < |signals| && signals[i].AddText? && (signals[i].index, signals[i].part) == p;
      assert i > 0 ==> rest[i - 1] == signals[i];
    }
  }
}

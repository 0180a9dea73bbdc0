/**
 The provider key cursor of `src/provider_adapters/keys.rs`.

 A snapshot of the ordering index is a sequence of entries sorted by position. A call reads it in
 windows of at most `window` entries; every window is a read transaction and may see another snapshot.
 */
module KeyCursor {
  import opened Collections
  import opened ByteOrder

  const KEY_INVALIDATION_COOLDOWN_SECONDS: nat := 30

  type Position = Bytes

  datatype Timestamp = Parsed(seconds: nat) | Unreadable

  datatype Record = Record(
    providerId: string,
    enabled: bool,
    invalid: bool,
    invalidatedAt: Option<Timestamp>,
    lastUsedAt: Option<Timestamp>)

  /** One ordering entry; the record it points at may be missing. */
  datatype Entry = Entry(position: Position, id: string, record: Option<Record>)

  type Table = seq<Entry>

  predicate Sorted(t: Table) {
    forall i, j :: 0 <= i < j < |t| ==> Less(t[i].position, t[j].position)
  }

  /** `is_key_cooldown_elapsed` */
  predicate CooldownElapsed(r: Record, now: nat) {
    r.invalid &&
    var timestamp := if r.invalidatedAt.Some? then r.invalidatedAt else r.lastUsedAt;
    timestamp.Some? && timestamp.value.Parsed? && now - timestamp.value.seconds >= KEY_INVALIDATION_COOLDOWN_SECONDS
  }

  /** A usable key: valid in the active phases, cooled down in the recovery phase. */
  predicate Selected(e: Entry, provider: string, recovering: bool, now: nat) {
    e.record.Some? && e.record.value.providerId == provider && e.record.value.enabled
    && if recovering then e.record.value.invalid && CooldownElapsed(e.record.value, now) else !e.record.value.invalid
  }

  predicate AtStop(e: Entry, stop: Option<Position>) {
    stop.Some? && !Less(e.position, stop.value)
  }

  /** Index of the first entry strictly after a position. */
  function FirstAfter(t: Table, after: Option<Position>): (i: nat)
    ensures i <= |t|
  {
    if after.None? || t == [] || Less(after.value, t[0].position) then 0
    else 1 + FirstAfter(t[1..], after)
  }

  /** The selected entries from index `from` on that lie before `stop`, in order. */
  function Pick(t: Table, provider: string, recovering: bool, now: nat, from: nat, stop: Option<Position>): Table
    decreases |t| - from
  {
    if from >= |t| || AtStop(t[from], stop) then []
    else if Selected(t[from], provider, recovering, now) then [t[from]] + Pick(t, provider, recovering, now, from + 1, stop)
    else Pick(t, provider, recovering, now, from + 1, stop)
  }

  datatype Cursor = Cursor(
    provider: string,
    after: Option<Position>,
    finished: bool,
    stopBefore: Option<Position>,
    wrapped: bool,
    recovering: bool)

  /**
   Everything the cursor will still return on a table that does not change: the rest of the
   current pass, the wrapped pass that is still due, and the recovery pass that is still due.
   */
  function Remaining(c: Cursor, t: Table, now: nat): Table {
    (if c.finished then []
     else Pick(t, c.provider, c.recovering, now, FirstAfter(t, c.after), if c.wrapped then c.stopBefore else None))
    + (if !c.wrapped && c.stopBefore.Some? then Pick(t, c.provider, c.recovering, now, 0, c.stopBefore) else [])
    + (if !c.recovering then Pick(t, c.provider, true, now, 0, None) else [])
  }

  function New(provider: string, after: Option<Position>): Cursor {
    Cursor(provider, after, false, None, false, false)
  }

  // ----- positions and indexes ----------------------------------------------

  /** After a position of the table, the scan goes on with the next entry. */
  lemma {:induction false} FirstAfterEntry(t: Table, k: nat)
    requires Sorted(t) && k < |t|
    ensures FirstAfter(t, Some(t[k].position)) == k + 1
    decreases |t|
  {
    if k == 0 {
      Irreflexive(t[0].position);
      if |t| > 1 {
        assert t[1..][0] == t[1];
      }
    } else {
      Asymmetric(t[0].position, t[k].position);
      FirstAfterEntry(t[1..], k - 1);
    }
  }

  lemma {:induction false} FirstAfterSplits(t: Table, p: Position)
    requires Sorted(t)
    ensures forall i :: FirstAfter(t, Some(p)) <= i < |t| ==> Less(p, t[i].position)
    decreases |t|
  {
    if t == [] {
    } else {
      if Less(p, t[0].position) {
        forall i | 0 < i < |t| ensures Less(p, t[i].position) {
          Transitive(p, t[0].position, t[i].position);
        }
      } else {
        FirstAfterSplits(t[1..], p);
        forall i | FirstAfter(t, Some(p)) <= i < |t| ensures Less(p, t[i].position) {
          assert t[i] == t[1..][i - 1];
        }
      }
    }
  }

  /** Phase changes leave what is still to come as it is. */
  function Wrap(c: Cursor): Cursor {
    c.(wrapped := true, after := None, finished := false)
  }

  function Recover(c: Cursor): Cursor {
    c.(recovering := true, after := None, finished := false, wrapped := false, stopBefore := None)
  }

  function NextPhase(c: Cursor): Cursor {
    if !c.finished then c
    else if !c.wrapped && c.stopBefore.Some? then Wrap(c)
    else if !c.recovering then Recover(c)
    else c
  }

  lemma WrapKeeps(c: Cursor, t: Table, now: nat)
    requires c.finished && !c.wrapped && c.stopBefore.Some?
    ensures Remaining(Wrap(c), t, now) == Remaining(c, t, now)
  {
  }

  lemma RecoverKeeps(c: Cursor, t: Table, now: nat)
    requires c.finished && (c.wrapped || c.stopBefore.None?) && !c.recovering
    ensures Remaining(Recover(c), t, now) == Remaining(c, t, now)
  {
  }

  /** The rest of the pass the cursor is in. */
  function Pass(c: Cursor, t: Table, now: nat, after: Option<Position>): Table {
    Pick(t, c.provider, c.recovering, now, FirstAfter(t, after), if c.wrapped then c.stopBefore else None)
  }

  lemma PassFound(c: Cursor, t: Table, now: nat, e: Entry)
    requires !c.finished && Pass(c, t, now, c.after) == [e] + Pass(c, t, now, Some(e.position))
    ensures Remaining(c, t, now) == [e] + Remaining(c.(after := Some(e.position)), t, now)
  {
    var d := c.(after := Some(e.position));
    var rest := (if !c.wrapped && c.stopBefore.Some? then Pick(t, c.provider, c.recovering, now, 0, c.stopBefore) else [])
      + (if !c.recovering then Pick(t, c.provider, true, now, 0, None) else []);
    assert Remaining(c, t, now) == Pass(c, t, now, c.after) + rest;
    assert Remaining(d, t, now) == Pass(c, t, now, d.after) + rest;
  }

  lemma PassMissed(c: Cursor, t: Table, now: nat, d: Cursor)
    requires !c.finished && d == c.(after := d.after, finished := d.finished)
    requires Pass(c, t, now, c.after) == if d.finished then [] else Pass(c, t, now, d.after)
    ensures Remaining(d, t, now) == Remaining(c, t, now)
  {
  }

  // ----- the cursor object -----------------------------------------------------

  class ProviderApiKeyCursor {
    const provider: string
    var after: Option<Position>
    var finished: bool
    var stopBefore: Option<Position>
    var wrapped: bool
    var recovering: bool

    ghost function View(): Cursor
      reads this
    {
      Cursor(provider, after, finished, stopBefore, wrapped, recovering)
    }

    constructor (provider: string, after: Option<Position>)
      ensures View() == New(provider, after)
    {
      this.provider, this.after := provider, after;
      finished, stopBefore, wrapped, recovering := false, None, false, false;
    }

    /** Enters the pass that follows an exhausted one; reports when none is left. */
    method ChangePhase() returns (ended: bool)
      modifies this
      ensures ended <==> old(finished && (wrapped || stopBefore.None?) && recovering)
      ensures View() == NextPhase(old(View()))
    {
      ended := false;
      if finished {
        if !wrapped && stopBefore.Some? {
          wrapped, after, finished := true, None, false;
        } else if !recovering {
          recovering, after, finished, wrapped, stopBefore := true, None, false, false, None;
        } else {
          ended := true;
        }
      }
    }

    /** Reads one window and moves to the key it found, or past what it skipped. */
    method Scan(t: Table, window: nat, now: nat) returns (found: Option<Entry>)
      requires Sorted(t) && window >= 1 && !finished
      modifies this
      ensures View() == old(View()).(after := after, finished := finished)
      ensures match found
              case Some(e) => old(Remaining(View(), t, now)) == [e] + Remaining(View(), t, now)
              case None => Remaining(View(), t, now) == old(Remaining(View(), t, now))
      ensures found.Some? ==> after == Some(found.value.position) && !AtStop(found.value, if wrapped then stopBefore else None)
                              && Selected(found.value, provider, recovering, now) && !finished && found.value in t
      ensures found.None? && !finished ==> after.Some? && Holds(t, after.value) && after != old(after)
      ensures (found.None? && after == old(after))
              || (after.Some? && (old(after).Some? ==> Less(old(after).value, after.value)))
    {
      ghost var c := View();
      var last, exhausted;
      found, last, exhausted := ReadWindow(t, provider, after, if wrapped then stopBefore else None, recovering, window, now);
      if found.Some? {
        after := Some(found.value.position);
        PassFound(c, t, now, found.value);
        return;
      }
      match last {
        case Some(position) => after := last;
        case None => finished := true;
      }
      if exhausted {
        finished := true;
      }
      PassMissed(c, t, now, View());
    }

    /** One turn of the loop of `next`: a phase change when one is due, then one window of the snapshot `t`. */
    method Advance(t: Table, window: nat, now: nat, ghost start: Cursor) returns (found: Option<Entry>, ended: bool)
      requires Sorted(t) && window >= 1 && Moves(start, View())
      modifies this
      ensures Moves(start, View())
      ensures match found
              case Some(e) => old(Remaining(View(), t, now)) == [e] + Remaining(View(), t, now)
              case None => Remaining(View(), t, now) == old(Remaining(View(), t, now))
      ensures found.Some? ==> !ended && Yields(start, found, View()) && Selected(found.value, provider, recovering, now) && found.value in t
      ensures ended ==> found.None? && Remaining(View(), t, now) == [] && Yields(start, None, View())
      ensures found.None? && !ended ==> Progress(old(View()), View(), t)
    {
      NextPhaseKeeps(start, View(), t, now);
      ended := ChangePhase();
      if ended {
        return None, ended;
      }
      ghost var d := View();
      found := Scan(t, window, now);
      MovesOn(start, d, View());
    }

    /** The next usable key of the snapshot `t`, when it does not change during the call. */
    method Next(t: Table, window: nat, now: nat) returns (found: Option<Entry>)
      requires Sorted(t) && window >= 1
      modifies this
      ensures match found
              case Some(e) => old(Remaining(View(), t, now)) == [e] + Remaining(View(), t, now)
              case None => old(Remaining(View(), t, now)) == [] == Remaining(View(), t, now)
      ensures Yields(old(View()), found, View())
      ensures found.Some? ==> Selected(found.value, provider, recovering, now)
    {
      ghost var start := View();
      ghost var expected := Remaining(start, t, now);
      MovesReflexive(start);
      assert Within(t, t);
      while true
        invariant Remaining(View(), t, now) == expected
        invariant Moves(start, View())
        decreases Budget(View(), t)
      {
        ghost var before := View();
        var ended;
        found, ended := Advance(t, window, now, start);
        if ended || found.Some? {
          return;
        }
        ProgressShrinks(before, View(), t, t);
      }
    }

    /**
     The same call when every window reads a snapshot of its own: `snapshots[i]` is what window i sees. It returns
     at the latest when these exceed the budget of any sorted table `all` that has the positions of all snapshots.
     */
    method NextAcross(snapshots: seq<Snapshot>, window: nat, ghost all: Table) returns (found: Option<Entry>, returned: bool, used: nat)
      requires window >= 1 && Sorted(all)
      requires forall i :: 0 <= i < |snapshots| ==> Sorted(snapshots[i].table) && Within(snapshots[i].table, all)
      modifies this
      ensures used <= |snapshots| && (returned ==> Yields(old(View()), found, View()))
      ensures returned && found.Some? ==> used > 0 && found.value in snapshots[used - 1].table
      ensures returned && found.Some? ==> used > 0 && Selected(found.value, provider, recovering, snapshots[used - 1].now)
      ensures !returned ==> found.None? && used == |snapshots| && Moves(old(View()), View())
      ensures |snapshots| > old(Budget(View(), all)) ==> returned
    {
      ghost var start := View();
      MovesReflexive(start);
      found, returned, used := None, false, 0;
      while used < |snapshots|
        invariant used <= |snapshots| && Moves(start, View()) && found.None? && !returned
        invariant Budget(View(), all) + used <= Budget(start, all)
      {
        ghost var before := View();
        used := used + 1;
        found, returned := Advance(snapshots[used - 1].table, window, snapshots[used - 1].now, start);
        if returned || found.Some? {
          return found, true, used;
        }
        ProgressShrinks(before, View(), snapshots[used - 1].table, all);
      }
    }
  }

  /** What one read transaction sees. */
  datatype Snapshot = Snapshot(table: Table, now: nat)

  predicate Holds(t: Table, p: Position) {
    exists k :: 0 <= k < |t| && t[k].position == p
  }

  predicate Within(t: Table, all: Table) {
    forall k :: 0 <= k < |t| ==> Holds(all, t[k].position)
  }

  /** A window without a key ends its pass, starts a later one, or comes further in it. */
  predicate Progress(c: Cursor, d: Cursor, t: Table) {
    || PassesLeft(d) < PassesLeft(c)
    || (PassesLeft(d) == PassesLeft(c) && !c.finished
        && (d.finished || (d.after.Some? && Holds(t, d.after.value) && (c.after.Some? ==> Less(c.after.value, d.after.value)))))
  }

  /** Passes ahead, then entries ahead in this pass. */
  function Budget(c: Cursor, all: Table): nat {
    PassesLeft(c) * (|all| + 2) + if c.finished then 0 else |all| + 1 - FirstAfter(all, c.after)
  }

  lemma {:induction false} FirstAfterAtMost(t: Table, p: Position, k: nat)
    requires k < |t| && Less(p, t[k].position)
    ensures FirstAfter(t, Some(p)) <= k
  {
    if k == 0 {
    } else {
      FirstAfterAtMost(t[1..], p, k - 1);
    }
  }

  lemma ProgressShrinks(c: Cursor, d: Cursor, t: Table, all: Table)
    requires Sorted(all) && Within(t, all) && Progress(c, d, t)
    ensures Budget(d, all) < Budget(c, all)
  {
    var n := |all| + 2;
    if PassesLeft(d) < PassesLeft(c) {
      assert (PassesLeft(d) + 1) * n <= PassesLeft(c) * n;
    } else if !d.finished {
      var i :| 0 <= i < |t| && t[i].position == d.after.value;
      var k :| 0 <= k < |all| && all[k].position == t[i].position;
      FirstAfterEntry(all, k);
      if c.after.Some? {
        FirstAfterAtMost(all, c.after.value, k);
      }
    }
  }

  /**
   One read transaction: up to `window` entries strictly after `after`, until a usable key or the
   stop position.
   */
  method ReadWindow(t: Table, provider: string, after: Option<Position>, stop: Option<Position>, recovering: bool, window: nat, now: nat)
    returns (found: Option<Entry>, last: Option<Position>, exhausted: bool)
    requires Sorted(t) && window >= 1
    ensures var here := Pick(t, provider, recovering, now, FirstAfter(t, after), stop);
            match found
            case Some(e) =>
              here == [e] + Pick(t, provider, recovering, now, FirstAfter(t, Some(e.position)), stop)
              && (after.Some? ==> Less(after.value, e.position)) && !AtStop(e, stop)
              && Selected(e, provider, recovering, now) && e in t
            case None =>
              && (exhausted || last.None? ==> here == [])
              && (last.Some? ==> Holds(t, last.value))
              && (last.Some? ==> here == Pick(t, provider, recovering, now, FirstAfter(t, last), stop)
                                 && FirstAfter(t, after) < FirstAfter(t, last)
                                 && (after.Some? ==> Less(after.value, last.value)))
  {
    var first := FirstAfter(t, after);
    var end := if |t| - first < window then |t| else first + window;
    if after.Some? {
      FirstAfterSplits(t, after.value);
    }
    exhausted := end - first < window;
    last, found := None, None;
    var k := first;
    while k < end
      invariant first <= k <= end
      invariant Pick(t, provider, recovering, now, first, stop) == Pick(t, provider, recovering, now, k, stop)
      invariant if k == first then last == None else last == Some(t[k - 1].position) && FirstAfter(t, last) == k
    {
      if AtStop(t[k], stop) {
        exhausted := true;
        return;
      }
      last := Some(t[k].position);
      FirstAfterEntry(t, k);
      if Selected(t[k], provider, recovering, now) {
        found := Some(t[k]);
        return;
      }
      k := k + 1;
    }
  }

  lemma MovesReflexive(c: Cursor)
    ensures Moves(c, c)
  {
  }

  lemma MovesOn(start: Cursor, c: Cursor, d: Cursor)
    requires Moves(start, c) && d == c.(after := d.after, finished := d.finished)
    requires d.after == c.after || (d.after.Some? && (c.after.Some? ==> Less(c.after.value, d.after.value)))
    ensures Moves(start, d)
    ensures d.recovering == start.recovering && d.wrapped == start.wrapped && start.after.Some? && d.after != c.after ==>
              d.after.Some? && Less(start.after.value, d.after.value)
  {
    if d.after.Some? && c.after.Some? && start.after.Some? && d.recovering == start.recovering && d.wrapped == start.wrapped {
      if c.after != start.after && d.after != c.after {
        Transitive(start.after.value, c.after.value, d.after.value);
      }
    }
  }

  /** How many passes are still ahead of the current one. */
  function PassesLeft(c: Cursor): nat {
    (if c.recovering then 0 else 2) + if !c.wrapped && c.stopBefore.Some? then 1 else 0
  }

  lemma NextPhaseKeeps(start: Cursor, c: Cursor, t: Table, now: nat)
    requires Moves(start, c)
    ensures Remaining(NextPhase(c), t, now) == Remaining(c, t, now)
    ensures Moves(start, NextPhase(c))
    ensures c.finished && NextPhase(c) != c ==> PassesLeft(NextPhase(c)) < PassesLeft(c) && !NextPhase(c).finished
    ensures c.finished && NextPhase(c) == c ==> Remaining(c, t, now) == []
  {
    if c.finished {
      if !c.wrapped && c.stopBefore.Some? {
        WrapKeeps(c, t, now);
      } else if !c.recovering {
        RecoverKeeps(c, t, now);
      }
    }
  }

  // ----- what one call does, whatever the table ---------------------------------

  /** The cursor only moves forward inside a pass, and passes only follow one another. */
  predicate Moves(c: Cursor, d: Cursor) {
    && c.provider == d.provider
    && (if d.recovering == c.recovering && d.wrapped == c.wrapped then
          d.stopBefore == c.stopBefore && (c.after.Some? ==> d.after.Some? && (d.after == c.after || Less(c.after.value, d.after.value)))
        else if d.recovering == c.recovering then
          d.wrapped && !c.wrapped && c.stopBefore.Some? && d.stopBefore == c.stopBefore
        else
          d.recovering && !d.wrapped && d.stopBefore.None?)
  }

  predicate Yields(c: Cursor, found: Option<Entry>, d: Cursor) {
    Moves(c, d) &&
    match found
    case None => d.finished && d.recovering && (d.wrapped || d.stopBefore.None?)
    case Some(e) =>
      && d.after == Some(e.position) && !d.finished
      && (d.wrapped && d.stopBefore.Some? ==> Less(e.position, d.stopBefore.value))
      && (d.recovering == c.recovering && d.wrapped == c.wrapped && c.after.Some? ==> Less(c.after.value, e.position))
  }

  // ----- a fixed table ---------------------------------------------------------------

  /** The valid keys of the provider, and its cooled-down invalid keys, in fallback order. */
  function Active(t: Table, provider: string, now: nat): Table {
    Pick(t, provider, false, now, 0, None)
  }

  function CooledDown(t: Table, provider: string, now: nat): Table {
    Pick(t, provider, true, now, 0, None)
  }

  lemma {:induction false} PickMembers(t: Table, provider: string, recovering: bool, now: nat, from: nat, stop: Option<Position>, e: Entry)
    requires Sorted(t)
    ensures e in Pick(t, provider, recovering, now, from, stop)
            <==> e in t[Min(from, |t|)..] && Selected(e, provider, recovering, now) && !AtStop(e, stop)
    decreases |t| - from
  {
    if from < |t| {
      var rest := t[from + 1..];
      assert t[from..] == [t[from]] + rest;
      if AtStop(t[from], stop) {
        forall x | x in rest ensures AtStop(x, stop) {
          var i :| 0 <= i < |rest| && rest[i] == x;
          assert x == t[from + 1 + i];
          if Less(x.position, stop.value) {
            Transitive(t[from].position, x.position, stop.value);
          }
        }
      } else {
        PickMembers(t, provider, recovering, now, from + 1, stop, e);
      }
    }
  }

  lemma {:induction false} PickSorted(t: Table, provider: string, recovering: bool, now: nat, from: nat, stop: Option<Position>)
    requires Sorted(t)
    ensures Sorted(Pick(t, provider, recovering, now, from, stop))
    decreases |t| - from
  {
    if from < |t| && !AtStop(t[from], stop) {
      PickSorted(t, provider, recovering, now, from + 1, stop);
      var rest := Pick(t, provider, recovering, now, from + 1, stop);
      forall j | 0 <= j < |rest| ensures Less(t[from].position, rest[j].position) {
        PickMembers(t, provider, recovering, now, from + 1, stop, rest[j]);
        assert rest[j] in t[from + 1..];
        var k :| 0 <= k < |t[from + 1..]| && t[from + 1..][k] == rest[j];
        assert rest[j] == t[from + 1 + k];
      }
    }
  }

  /** The two lists hold exactly the keys of their kind, in fallback order, and never share a key. */
  lemma ListsExact(t: Table, provider: string, now: nat, e: Entry)
    requires Sorted(t)
    ensures Sorted(Active(t, provider, now)) && Sorted(CooledDown(t, provider, now))
    ensures e in Active(t, provider, now) <==> e in t && Selected(e, provider, false, now)
    ensures e in CooledDown(t, provider, now) <==> e in t && Selected(e, provider, true, now)
    ensures !(e in Active(t, provider, now) && e in CooledDown(t, provider, now))
  {
    PickSorted(t, provider, false, now, 0, None);
    PickSorted(t, provider, true, now, 0, None);
    PickMembers(t, provider, false, now, 0, None, e);
    PickMembers(t, provider, true, now, 0, None, e);
    assert t[0..] == t;
  }

  /** The moment an invalid key was last known to fail. */
  function FailedAt(r: Record): Option<nat> {
    var timestamp := if r.invalidatedAt.Some? then r.invalidatedAt else r.lastUsedAt;
    if timestamp.Some? && timestamp.value.Parsed? then Some(timestamp.value.seconds) else None
  }

  /** An enabled invalid key is probed again from 30 seconds after its failure on, and never before or without a time. */
  lemma CooledDownIff(t: Table, provider: string, now: nat, e: Entry)
    requires Sorted(t) && e in t && e.record.Some? && e.record.value.enabled && e.record.value.invalid
    requires e.record.value.providerId == provider
    ensures e !in Active(t, provider, now)
    ensures e in CooledDown(t, provider, now) <==> FailedAt(e.record.value).Some? && FailedAt(e.record.value).value + 30 <= now
  {
    ListsExact(t, provider, now, e);
  }

  /** An enabled valid key of the provider is always tried; a disabled key, or one of another provider, never. */
  lemma ActiveIff(t: Table, provider: string, now: nat, e: Entry)
    requires Sorted(t) && e in t && e.record.Some?
    ensures !e.record.value.invalid ==>
      (e in Active(t, provider, now) <==> e.record.value.enabled && e.record.value.providerId == provider)
    ensures !(e.record.value.enabled && e.record.value.providerId == provider) ==>
      e !in Active(t, provider, now) && e !in CooledDown(t, provider, now)
  {
    ListsExact(t, provider, now, e);
  }

  /** Calls `Next` on one table until it reports no key. */
  method Drain(cursor: ProviderApiKeyCursor, t: Table, window: nat, now: nat) returns (keys: Table)
    requires Sorted(t) && window >= 1
    modifies cursor
    ensures keys == old(Remaining(cursor.View(), t, now))
    ensures Remaining(cursor.View(), t, now) == []
  {
    keys := [];
    ghost var all := Remaining(cursor.View(), t, now);
    while true
      invariant all == keys + Remaining(cursor.View(), t, now)
      decreases |all| - |keys|
    {
      ghost var before := Remaining(cursor.View(), t, now);
      var found := cursor.Next(t, window, now);
      if found.None? {
        return;
      }
      assert keys + before == keys + [found.value] + Remaining(cursor.View(), t, now);
      keys := keys + [found.value];
    }
  }

  /** A sequential cursor returns the active keys, then the cooled-down ones, then nothing for good. */
  method StartAndDrain(t: Table, provider: string, window: nat, now: nat) returns (keys: Table, again: Option<Entry>)
    requires Sorted(t) && window >= 1
    ensures keys == Active(t, provider, now) + CooledDown(t, provider, now)
    ensures again.None?
  {
    var cursor := new ProviderApiKeyCursor(provider, None);
    keys := Drain(cursor, t, window, now);
    again := cursor.Next(t, window, now);
  }

  /** The active keys strictly after the stored position. */
  function ActiveAfter(t: Table, provider: string, now: nat, after: Option<Position>): Table {
    Pick(t, provider, false, now, FirstAfter(t, after), None)
  }

  method StartRotating(t: Table, provider: string, after: Option<Position>, window: nat, now: nat)
    returns (cursor: ProviderApiKeyCursor?, first: Option<Entry>)
    requires Sorted(t) && window >= 1
    ensures cursor == null <==> first.None?
    ensures cursor != null ==> fresh(cursor)
    ensures first.None? ==> ActiveAfter(t, provider, now, after) == [] == CooledDown(t, provider, now)
    ensures first.Some? ==>
      [first.value] + Remaining(cursor.View(), t, now)
      == if ActiveAfter(t, provider, now, after) != [] then
           ActiveAfter(t, provider, now, after)
           + Pick(t, provider, false, now, 0, Some(ActiveAfter(t, provider, now, after)[0].position))
           + CooledDown(t, provider, now)
         else CooledDown(t, provider, now)
  {
    cursor := new ProviderApiKeyCursor(provider, after);
    ghost var c := cursor.View();
    first := cursor.Next(t, window, now);
    if first.None? {
      return null, None;
    }
    ghost var d := cursor.View();
    cursor.stopBefore := cursor.after;
    RotationPlan(t, c, first.value, d, now);
  }

  /** Nothing of the same kind lies before the first key of that kind. */
  lemma PickBeforeFirst(t: Table, provider: string, recovering: bool, now: nat)
    requires Sorted(t) && Pick(t, provider, recovering, now, 0, None) != []
    ensures Pick(t, provider, recovering, now, 0, Some(Pick(t, provider, recovering, now, 0, None)[0].position)) == []
  {
    var all := Pick(t, provider, recovering, now, 0, None);
    var early := Pick(t, provider, recovering, now, 0, Some(all[0].position));
    if early != [] {
      PickMembers(t, provider, recovering, now, 0, Some(all[0].position), early[0]);
      PickMembers(t, provider, recovering, now, 0, None, early[0]);
      PickSorted(t, provider, recovering, now, 0, None);
      var i :| 0 <= i < |all| && all[i] == early[0];
      Asymmetric(early[0].position, all[0].position);
    }
  }

  /** The first key was an active one: the rest of the rotation, then the recovery probes. */
  lemma RotationFromActive(t: Table, e: Entry, d: Cursor, now: nat, ahead: Table)
    requires !d.finished && !d.wrapped && !d.recovering && d.stopBefore.None? && d.after == Some(e.position)
    requires ahead != [] && ahead + CooledDown(t, d.provider, now) == [e] + Remaining(d, t, now)
    ensures e == ahead[0]
    ensures [e] + Remaining(d.(stopBefore := d.after), t, now)
         == ahead + Pick(t, d.provider, false, now, 0, Some(e.position)) + CooledDown(t, d.provider, now)
  {
    var cooled := CooledDown(t, d.provider, now);
    var rest := ActiveAfter(t, d.provider, now, d.after);
    var behind := Pick(t, d.provider, false, now, 0, Some(e.position));
    assert Remaining(d, t, now) == rest + [] + cooled == rest + cooled;
    SameSuffix(ahead, [e] + rest, cooled);
    assert Remaining(d.(stopBefore := d.after), t, now) == rest + behind + cooled;
  }

  lemma SameSuffix(a: Table, b: Table, suffix: Table)
    requires a + suffix == b + suffix
    ensures a == b
  {
    assert |a| == |b|;
    assert a == (a + suffix)[..|a|] == (b + suffix)[..|b|] == b;
  }

  lemma RotationPlan(t: Table, c: Cursor, e: Entry, d: Cursor, now: nat)
    requires Sorted(t) && c == New(c.provider, c.after) && Yields(c, Some(e), d) && Selected(e, c.provider, d.recovering, now)
    requires Remaining(c, t, now) == [e] + Remaining(d, t, now)
    ensures var ahead := ActiveAfter(t, c.provider, now, c.after);
            [e] + Remaining(d.(stopBefore := d.after), t, now)
            == if ahead != [] then ahead + Pick(t, c.provider, false, now, 0, Some(ahead[0].position)) + CooledDown(t, c.provider, now)
               else CooledDown(t, c.provider, now)
  {
    var ahead := ActiveAfter(t, c.provider, now, c.after);
    var cooled := CooledDown(t, c.provider, now);
    assert Remaining(c, t, now) == ahead + [] + cooled == ahead + cooled;
    if ahead != [] {
      assert e == Remaining(c, t, now)[0] == ahead[0];
      PickMembers(t, c.provider, false, now, FirstAfter(t, c.after), None, e);
      RotationFromActive(t, e, d, now, ahead);
    } else {
      assert cooled == [e] + Remaining(d, t, now);
      PickMembers(t, c.provider, true, now, 0, None, cooled[0]);
      PickBeforeFirst(t, c.provider, true, now);
      assert Remaining(d.(stopBefore := d.after), t, now) == Remaining(d, t, now);
    }
  }

  lemma {:induction false} PickSplit(t: Table, provider: string, now: nat, i: nat, j: nat)
    requires Sorted(t) && i <= j < |t|
    ensures Pick(t, provider, false, now, i, None)
         == Pick(t, provider, false, now, i, Some(t[j].position)) + Pick(t, provider, false, now, j, None)
    decreases j - i
  {
    if i == j {
      Irreflexive(t[j].position);
    } else {
      PickSplit(t, provider, now, i + 1, j);
    }
  }

  lemma {:induction false} PickHead(t: Table, provider: string, now: nat, from: nat) returns (j: nat)
    requires Pick(t, provider, false, now, from, None) != []
    ensures from <= j < |t| && Pick(t, provider, false, now, from, None)[0] == t[j]
    ensures Pick(t, provider, false, now, j, None) == Pick(t, provider, false, now, from, None)
    decreases |t| - from
  {
    if Selected(t[from], provider, false, now) {
      j := from;
    } else {
      j := PickHead(t, provider, now, from + 1);
    }
  }

  /** With an active key after the position, the rotating scan tries a rotation of the active keys. */
  lemma RotatesActiveKeys(t: Table, provider: string, now: nat, after: Option<Position>)
    requires Sorted(t) && ActiveAfter(t, provider, now, after) != []
    ensures var ahead := ActiveAfter(t, provider, now, after);
            IsRotation(ahead + Pick(t, provider, false, now, 0, Some(ahead[0].position)), Active(t, provider, now))
  {
    var ahead := ActiveAfter(t, provider, now, after);
    var j := PickHead(t, provider, now, FirstAfter(t, after));
    PickSplit(t, provider, now, 0, j);
    var behind := Pick(t, provider, false, now, 0, Some(ahead[0].position));
    var all := Active(t, provider, now);
    assert all == behind + ahead;
    var k := |behind|;
    assert all[k..] == ahead && all[..k] == behind;
  }

  /** Everything a rotating scan returns on a fixed table. */
  function RotatingYield(t: Table, provider: string, now: nat, after: Option<Position>): Table {
    var ahead := ActiveAfter(t, provider, now, after);
    (if ahead == [] then [] else ahead + Pick(t, provider, false, now, 0, Some(ahead[0].position)))
    + CooledDown(t, provider, now)
  }

  /**
   The scan reaches every active key exactly when there is none or one of them lies after the
   stored position; otherwise it goes straight to the cooled-down keys.
   */
  lemma RotatingReachesActiveIff(t: Table, provider: string, now: nat, after: Option<Position>)
    requires Sorted(t)
    ensures (forall e :: e in Active(t, provider, now) ==> e in RotatingYield(t, provider, now, after))
            <==> (Active(t, provider, now) == [] || ActiveAfter(t, provider, now, after) != [])
  {
    var all := Active(t, provider, now);
    var ahead := ActiveAfter(t, provider, now, after);
    if ahead != [] {
      RotatesActiveKeys(t, provider, now, after);
      var behind := Pick(t, provider, false, now, 0, Some(ahead[0].position));
      var k :| 0 <= k <= |all| && ahead + behind == all[k..] + all[..k];
      forall e | e in all ensures e in RotatingYield(t, provider, now, after) {
        var i :| 0 <= i < |all| && all[i] == e;
        assert e in all[k..] + all[..k] by {
          if i >= k {
            assert e == all[k..][i - k];
          } else {
            assert e == all[..k][i];
          }
        }
      }
    } else if all != [] {
      ListsExact(t, provider, now, all[0]);
      assert all[0] !in CooledDown(t, provider, now);
      assert RotatingYield(t, provider, now, after) == CooledDown(t, provider, now);
    }
  }

  /** The stored position is the only active key: the rotating scan skips it and probes a cooled-down key. */
  lemma RotatingSkipsLastActiveKey()
    ensures var active := Entry([1], "a", Some(Record("p", true, false, None, None)));
            var cooled := Entry([2], "b", Some(Record("p", true, true, Some(Parsed(0)), None)));
            Sorted([active, cooled])
            && RotatingYield([active, cooled], "p", 60, Some([1])) == [cooled]
            && Active([active, cooled], "p", 60) == [active]
  {
    var active := Entry([1], "a", Some(Record("p", true, false, None, None)));
    var cooled := Entry([2], "b", Some(Record("p", true, true, Some(Parsed(0)), None)));
    var t := [active, cooled];
    assert Sorted(t);
    FirstAfterEntry(t, 0);
    assert Pick(t, "p", false, 60, 2, None) == [] == Pick(t, "p", true, 60, 2, None);
    assert Pick(t, "p", false, 60, 1, None) == [];
    assert Pick(t, "p", true, 60, 1, None) == [cooled];
  }

  // ----- changing tables -----------------------------------------------------------

  /**
   A run over arbitrary, changing tables: `cs[i]` yields `fs[i]` and becomes `cs[i + 1]`, and a
   rotating cursor fixes its stop position right after its first key.
   */
  predicate Run(cs: seq<Cursor>, fs: seq<Entry>, rotating: bool) {
    && |cs| == |fs| + 1
    && cs[0] == New(cs[0].provider, cs[0].after)
    && forall i :: 0 <= i < |fs| ==> RunStep(cs[i], fs[i], cs[i + 1], rotating && i == 0)
  }

  predicate RunStep(c: Cursor, e: Entry, d: Cursor, fixesStop: bool) {
    if fixesStop then d.stopBefore == d.after && Yields(c, Some(e), d.(stopBefore := None))
    else Yields(c, Some(e), d)
  }

  predicate AtOrAfter(a: Position, b: Position) {
    a == b || Less(a, b)
  }

  /** Where the keys returned so far in the current kind of pass lie, seen from the cursor. */
  predicate Behind(c: Cursor, p: Position) {
    if !c.wrapped then
      c.after.Some? && AtOrAfter(p, c.after.value) && (c.stopBefore.Some? ==> AtOrAfter(c.stopBefore.value, p))
    else
      c.stopBefore.Some? && c.after.Some?
      && (AtOrAfter(c.stopBefore.value, p) || AtOrAfter(p, c.after.value))
  }

  predicate Trail(cs: seq<Cursor>, fs: seq<Entry>, n: nat)
    requires n < |cs| == |fs| + 1
  {
    && (cs[n].wrapped ==> cs[n].stopBefore.Some?)
    && forall i :: 0 <= i < n && cs[i + 1].recovering == cs[n].recovering ==> Behind(cs[n], fs[i].position)
  }

  lemma AtOrAfterTransitive(a: Position, b: Position, c: Position)
    requires AtOrAfter(a, b) && Less(b, c)
    ensures Less(a, c)
  {
    if a != b {
      Transitive(a, b, c);
    }
  }

  /** A key behind the cursor is not the key it yields next, and stays behind it. */
  lemma BehindStep(c: Cursor, d: Cursor, e: Entry, p: Position)
    requires Yields(c, Some(e), d) && (c.wrapped ==> c.stopBefore.Some?) && c.recovering == d.recovering && Behind(c, p)
    requires c.stopBefore.Some? && c.after.Some? && !c.wrapped ==> AtOrAfter(c.stopBefore.value, c.after.value)
    ensures p != e.position && Behind(d, p)
  {
    var q := e.position;
    if d.wrapped == c.wrapped {
      if AtOrAfter(p, c.after.value) {
        AtOrAfterTransitive(p, c.after.value, q);
        Asymmetric(p, q);
      } else {
        Asymmetric(q, c.stopBefore.value);
      }
    } else {
      Asymmetric(q, c.stopBefore.value);
      if p != c.stopBefore.value {
        Transitive(q, c.stopBefore.value, p);
        Asymmetric(q, p);
      }
    }
  }

  /** A cursor in its first pass that has a stop is at or after it. */
  predicate PastStop(c: Cursor) {
    (c.wrapped ==> c.stopBefore.Some?)
    && (!c.wrapped && c.stopBefore.Some? ==> c.after.Some? && AtOrAfter(c.stopBefore.value, c.after.value))
  }

  lemma PastStopStep(c: Cursor, d: Cursor, e: Entry)
    requires PastStop(c) && Yields(c, Some(e), d)
    ensures PastStop(d)
  {
    if d.recovering == c.recovering && d.wrapped == c.wrapped && !c.wrapped && c.stopBefore.Some? {
      AtOrAfterTransitive(c.stopBefore.value, c.after.value, e.position);
    }
  }

  lemma {:induction false} TrailHolds(cs: seq<Cursor>, fs: seq<Entry>, rotating: bool, n: nat)
    requires Run(cs, fs, rotating) && n < |cs|
    ensures PastStop(cs[n]) && Trail(cs, fs, n)
    ensures forall i :: 0 <= i < n - 1 && cs[i + 1].recovering == cs[n].recovering ==> fs[i].position != fs[n - 1].position
  {
    if n == 0 {
    } else {
      var c, e, d := cs[n - 1], fs[n - 1], cs[n];
      TrailHolds(cs, fs, rotating, n - 1);
      assert RunStep(c, e, d, rotating && n - 1 == 0);
      if rotating && n == 1 {
        assert d.after == Some(e.position) == d.stopBefore;
      } else {
        PastStopStep(c, d, e);
        forall i | 0 <= i < n && cs[i + 1].recovering == d.recovering
          ensures Behind(d, fs[i].position) && (i < n - 1 ==> fs[i].position != e.position)
        {
          if i < n - 1 {
            PhasesOrdered(cs, fs, rotating, i + 1, n - 1);
            BehindStep(c, d, e, fs[i].position);
          } else if !d.wrapped && d.stopBefore.Some? {
            assert AtOrAfter(d.stopBefore.value, e.position);
          }
        }
      }
    }
  }

  /** Recovery is never left. */
  lemma {:induction false} PhasesOrdered(cs: seq<Cursor>, fs: seq<Entry>, rotating: bool, i: nat, j: nat)
    requires Run(cs, fs, rotating) && i <= j < |cs|
    ensures cs[i].recovering ==> cs[j].recovering
    decreases j - i
  {
    if i < j {
      PhasesOrdered(cs, fs, rotating, i, j - 1);
      assert RunStep(cs[j - 1], fs[j - 1], cs[j], rotating && j - 1 == 0);
    }
  }

  /**
   However the table changes between calls, no position is returned twice among the active keys,
   nor twice among the recovery probes.
   */
  lemma NoPositionTwice(cs: seq<Cursor>, fs: seq<Entry>, rotating: bool, i: nat, j: nat)
    requires Run(cs, fs, rotating) && i < j < |fs| && cs[i + 1].recovering == cs[j + 1].recovering
    ensures fs[i].position != fs[j].position
  {
    TrailHolds(cs, fs, rotating, j + 1);
  }
}

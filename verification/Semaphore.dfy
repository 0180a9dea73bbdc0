/**
 The dynamic concurrency gate of `src/state/runtime_controls.rs` as a transition system.

 Every atomic access of `try_acquire_owned`, `acquire_owned`, `set_limit` and `release_slot`
 is one step, and the steps of any number of calls interleave freely. An agent is one call
 together with the permit it may obtain. The `tokio` wait queue is part of the state: a waiter
 is registered until it is notified, `notify_one` goes to one registered waiter or is stored,
 a notification that reached a dropped waiter is passed on, `notify_waiters` reaches every
 registered waiter.
 */
module Semaphore {
  import opened Collections

  type Id = nat

  /** What the `Notified` future of an agent knows. */
  datatype Note =
    | Absent   // no future: a plain try, or the future was dropped
    | Waiting  // registered in the wait queue, not notified
    | One      // received a notify_one that was not consumed yet
    | All      // received a notify_waiters
    | Done     // consumed a stored notification while enabling

  datatype Pc =
    | Top                      // start of the acquire loop
    | Enabled                  // about to load `active`
    | Loaded(seen: nat)        // about to load `limit`
    | Checked(seen: nat)       // about to compare-exchange
    | Reserved(before: nat)    // slot taken, about to load `limit` again
    | Withdrawing              // second check refused, about to give the slot back
    | Withdrawn                // slot given back, about to notify
    | Refused                  // the try returned None; a waiting call awaits here
    | Granted                  // the try returned a permit; the future is about to be dropped
    | Holding                  // the permit is alive
    | Dropped                  // permit slot given back, about to notify
    | Gone

  /** `woken` records that the current attempt was started by a notify_one. */
  datatype Agent = Agent(pc: Pc, note: Note, woken: bool)

  /** `broadcasts` counts `set_limit` calls between their swap and their notify_waiters. */
  datatype State = State(active: nat, limit: nat, agents: map<Id, Agent>, stored: bool, broadcasts: nat)

  datatype Event =
    | Arrive(id: Id, waits: bool)
    | Enable(id: Id)
    | LoadActive(id: Id)
    | LoadLimit(id: Id)
    | Swap(id: Id, spurious: bool)
    | Recheck(id: Id)
    | Withdraw(id: Id)
    | Wake(id: Id, target: Option<Id>)
    | Settle(id: Id, target: Option<Id>)
    | Poll(id: Id)
    | Cancel(id: Id, target: Option<Id>)
    | Drop(id: Id)
    | SetLimit(limit: nat)
    | WakeAll

  function Init(limit: nat): State {
    State(0, limit, map[], false, 0)
  }

  /** A limit of zero is unlimited, up to the counter overflow check. */
  function Effective(limit: nat): nat {
    if limit == 0 then MAX_USIZE else limit
  }

  predicate At(s: State, id: Id, pc: Pc) {
    id in s.agents && s.agents[id].pc == pc
  }

  predicate Registered(s: State, id: Id) {
    id in s.agents && s.agents[id].note == Waiting
  }

  /** `notify_one` picks some registered waiter; only when there is none does it store. */
  ghost predicate Delivers(s: State, target: Option<Id>) {
    match target
    case Some(t) => Registered(s, t)
    case None => forall id :: !Registered(s, id)
  }

  ghost predicate Can(s: State, e: Event) {
    match e
    case Arrive(id, _) => id !in s.agents
    case Enable(id) => At(s, id, Top)
    case LoadActive(id) => At(s, id, Enabled)
    case LoadLimit(id) => id in s.agents && s.agents[id].pc.Loaded?
    case Swap(id, _) => id in s.agents && s.agents[id].pc.Checked?
    case Recheck(id) => id in s.agents && s.agents[id].pc.Reserved?
    case Withdraw(id) => At(s, id, Withdrawing)
    case Wake(id, target) => (At(s, id, Withdrawn) || At(s, id, Dropped)) && Delivers(s, target)
    case Settle(id, target) => At(s, id, Granted) && (s.agents[id].note == One ==> Delivers(s, target))
    case Poll(id) => At(s, id, Refused) && s.agents[id].note in {One, All, Done}
    case Cancel(id, target) =>
      At(s, id, Refused) && s.agents[id].note != Absent && (s.agents[id].note == One ==> Delivers(s, target))
    case Drop(id) => At(s, id, Holding)
    case SetLimit(limit) => limit <= MAX_USIZE
    case WakeAll => s.broadcasts > 0
  }

  function Put(s: State, id: Id, a: Agent): State {
    s.(agents := s.agents[id := a])
  }

  function Deliver(s: State, target: Option<Id>): State
    requires target.Some? ==> target.value in s.agents
  {
    match target
    case Some(t) => Put(s, t, s.agents[t].(note := One))
    case None => s.(stored := true)
  }

  function Broadcast(agents: map<Id, Agent>): map<Id, Agent> {
    map id | id in agents :: if agents[id].note == Waiting then agents[id].(note := All) else agents[id]
  }

  /** Whether the first check refuses: the limit is reached or `active + 1` overflows. */
  predicate FirstCheckRefuses(limit: nat, seen: nat) {
    (limit != 0 && seen >= limit) || seen >= MAX_USIZE
  }

  predicate SecondCheckGrants(limit: nat, before: nat) {
    limit == 0 || before < limit
  }

  ghost function Apply(s: State, e: Event): State
    requires Can(s, e)
  {
    match e
    case Arrive(id, waits) => Put(s, id, Agent(if waits then Top else Enabled, Absent, false))
    case Enable(id) =>
      Put(s, id, Agent(Enabled, if s.stored then Done else Waiting, s.agents[id].woken)).(stored := false)
    case LoadActive(id) => Put(s, id, s.agents[id].(pc := Loaded(s.active)))
    case LoadLimit(id) =>
      var a := s.agents[id];
      if FirstCheckRefuses(s.limit, a.pc.seen) then Put(s, id, Agent(Refused, a.note, false))
      else Put(s, id, a.(pc := Checked(a.pc.seen)))
    case Swap(id, spurious) =>
      var a := s.agents[id];
      if spurious || s.active != a.pc.seen then Put(s, id, a.(pc := Loaded(s.active)))
      else Put(s, id, Agent(Reserved(s.active), a.note, false)).(active := s.active + 1)
    case Recheck(id) =>
      var a := s.agents[id];
      Put(s, id, a.(pc := if SecondCheckGrants(s.limit, a.pc.before) then Granted else Withdrawing))
    case Withdraw(id) =>
      Put(s, id, s.agents[id].(pc := Withdrawn)).(active := if s.active == 0 then MAX_USIZE else s.active - 1)
    case Wake(id, target) =>
      var a := s.agents[id];
      Deliver(Put(s, id, a.(pc := if a.pc == Withdrawn then Refused else Gone)), target)
    case Settle(id, target) =>
      var quiet := Put(s, id, Agent(Holding, Absent, false));
      if s.agents[id].note == One then Deliver(quiet, target) else quiet
    case Poll(id) => Put(s, id, Agent(Top, Absent, s.agents[id].note == One))
    case Cancel(id, target) =>
      var quiet := Put(s, id, Agent(Gone, Absent, false));
      if s.agents[id].note == One then Deliver(quiet, target) else quiet
    case Drop(id) =>
      Put(s, id, s.agents[id].(pc := Dropped)).(active := if s.active == 0 then MAX_USIZE else s.active - 1)
    case SetLimit(limit) =>
      var previous := s.limit;
      var announced := limit == 0 || (previous != 0 && limit > previous);
      s.(limit := limit, broadcasts := s.broadcasts + if announced then 1 else 0)
    case WakeAll => s.(agents := Broadcast(s.agents), broadcasts := s.broadcasts - 1)
  }

  /** `es` is a possible continuation of `s`. */
  ghost predicate Runs(s: State, es: seq<Event>)
    decreases |es|
  {
    es == [] || (Can(s, es[0]) && Runs(Apply(s, es[0]), es[1..]))
  }

  ghost function Final(s: State, es: seq<Event>): State
    requires Runs(s, es)
    decreases |es|
  {
    if es == [] then s else Final(Apply(s, es[0]), es[1..])
  }

  predicate KeepsLimit(es: seq<Event>) {
    forall i :: 0 <= i < |es| ==> !es[i].SetLimit?
  }

  // ----- weights ---------------------------------------------------------

  function Slot(a: Agent): nat {
    if a.pc.Reserved? || a.pc in {Withdrawing, Granted, Holding} then 1 else 0
  }

  function Held(a: Agent): nat {
    if a.pc in {Granted, Holding} then 1 else 0
  }

  /** A reservation that the second check would turn into a permit under `limit`. */
  function Confirmable(a: Agent, limit: nat): nat {
    if a.pc.Reserved? && a.pc.before < limit then 1 else 0
  }

  ghost function Slots(s: State): nat {
    Total(s.agents, Slot)
  }

  ghost function Permits(s: State): nat {
    Total(s.agents, Held)
  }

  ghost function PendingAt(limit: nat): Agent -> nat {
    (a: Agent) => Confirmable(a, limit)
  }

  ghost function ClaimAt(limit: nat): Agent -> nat {
    (a: Agent) => Held(a) + Confirmable(a, limit)
  }

  /** Reservations that can still become permits while the limit stays at `limit`. */
  ghost function Pending(s: State, limit: nat): nat {
    Total(s.agents, PendingAt(limit))
  }

  /** Permits together with the reservations that can still become permits. */
  ghost function Claims(s: State, limit: nat): nat {
    Total(s.agents, ClaimAt(limit))
  }

  predicate Attempting(pc: Pc, c: nat) {
    match pc
    case Top => true
    case Enabled => true
    case Loaded(seen) => seen < c
    case Checked(_) => true
    case _ => false
  }

  /**
   The wake-ups an agent carries for the free slots below occupancy `c`: a notification it is
   about to send, one that it received and did not consume, and an attempt that such a
   notification started and that is not yet bound to fail.
   */
  function Weight(a: Agent, c: nat): nat {
    (if a.pc in {Withdrawn, Dropped} || (a.woken && Attempting(a.pc, c)) then 1 else 0)
    + (if a.note == One then 1 else 0)
  }

  ghost function WeightAt(c: nat): Agent -> nat {
    (a: Agent) => Weight(a, c)
  }

  ghost function WakeUps(s: State, c: nat): nat {
    Total(s.agents, WeightAt(c))
  }

  // ----- invariant -------------------------------------------------------

  /** Occupancies below which a registered agent has seen no free slot since it looked. */
  function Bound(pc: Pc): nat {
    match pc
    case Loaded(seen) => seen
    case Reserved(before) => before
    case Withdrawing => MAX_USIZE
    case Withdrawn => MAX_USIZE
    case Refused => MAX_USIZE
    case _ => 0
  }

  ghost predicate Covered(s: State, bound: nat, owed: nat) {
    forall c: nat :: c <= bound && c <= Effective(s.limit) ==> c <= s.active + WakeUps(s, c) + owed
  }

  /** Every registered agent is covered by the wake-ups in flight, up to `owed` of them. */
  ghost predicate NoLostWake(s: State, owed: nat) {
    s.broadcasts > 0 ||
    forall id :: Registered(s, id) ==> Covered(s, Bound(s.agents[id].pc), owed)
  }

  /** Only a try in progress or a parked call owns a `Notified` future. */
  ghost predicate FuturesScoped(s: State) {
    forall id :: id in s.agents && s.agents[id].pc in {Top, Holding, Dropped, Gone} ==> s.agents[id].note == Absent
  }

  ghost predicate Inv(s: State) {
    s.active == Slots(s) && s.limit <= MAX_USIZE && FuturesScoped(s) && NoLostWake(s, 0)
  }

  // ----- slot accounting -------------------------------------------------

  lemma SlotMember(s: State, id: Id)
    requires id in s.agents && s.active == Slots(s) && Slot(s.agents[id]) == 1
    ensures s.active > 0
  {
    TotalMember(s.agents, Slot, id);
  }

  lemma DeliverSlots(s: State, target: Option<Id>)
    requires target.Some? ==> target.value in s.agents
    ensures Slots(Deliver(s, target)) == Slots(s)
    ensures Permits(Deliver(s, target)) == Permits(s)
    ensures forall l :: Claims(Deliver(s, target), l) == Claims(s, l) && Pending(Deliver(s, target), l) == Pending(s, l)
  {
    if target.Some? {
      var t := target.value;
      var a := s.agents[t].(note := One);
      TotalUpdate(s.agents, Slot, t, a);
      TotalUpdate(s.agents, Held, t, a);
      forall l ensures Claims(Deliver(s, target), l) == Claims(s, l) && Pending(Deliver(s, target), l) == Pending(s, l) {
        TotalUpdate(s.agents, ClaimAt(l), t, a);
        TotalUpdate(s.agents, PendingAt(l), t, a);
      }
    }
  }

  lemma BroadcastTotal(agents: map<Id, Agent>, w: Agent -> nat)
    requires forall a: Agent :: a.note == Waiting ==> w(a) == w(a.(note := All))
    ensures Total(Broadcast(agents), w) == Total(agents, w)
  {
    TotalMonotone(agents, w, Broadcast(agents), w);
    TotalMonotone(Broadcast(agents), w, agents, w);
  }

  /** One agent moves and `active` follows the change of its slot. */
  lemma SlotsMove(s: State, id: Id, b: Agent)
    requires s.active == Slots(s)
    ensures Slots(Put(s, id, b)) == s.active + Slot(b) - if id in s.agents then Slot(s.agents[id]) else 0
  {
    TotalUpdate(s.agents, Slot, id, b);
  }

  lemma SlotsMoveThenDeliver(s: State, id: Id, b: Agent, target: Option<Id>)
    requires s.active == Slots(s) && id in s.agents && Slot(b) == Slot(s.agents[id])
    requires target.Some? ==> target.value in s.agents
    ensures Slots(Put(s, id, b)) == s.active
    ensures Deliver(Put(s, id, b), target).active == Slots(Deliver(Put(s, id, b), target))
  {
    SlotsMove(s, id, b);
    DeliverSlots(Put(s, id, b), target);
  }

  /** `active` counts exactly the permits and the reservations not yet confirmed or given back. */
  lemma SlotsStep(s: State, e: Event)
    requires s.active == Slots(s) && Can(s, e)
    ensures Apply(s, e).active == Slots(Apply(s, e))
    ensures e.Withdraw? || e.Drop? ==> s.active > 0
  {
    match e
    case SetLimit(_) =>
    case WakeAll => BroadcastTotal(s.agents, Slot);
    case Wake(id, target) =>
      var a := s.agents[id];
      SlotsMoveThenDeliver(s, id, a.(pc := if a.pc == Withdrawn then Refused else Gone), target);
    case Settle(id, target) => SlotsQuiet(s, id, Agent(Holding, Absent, false), target);
    case Cancel(id, target) => SlotsQuiet(s, id, Agent(Gone, Absent, false), target);
    case Withdraw(id) =>
      SlotMember(s, id);
      SlotsMove(s, id, s.agents[id].(pc := Withdrawn));
    case Drop(id) =>
      SlotMember(s, id);
      SlotsMove(s, id, s.agents[id].(pc := Dropped));
    case Arrive(id, waits) => SlotsMove(s, id, Apply(s, e).agents[id]);
    case _ => SlotsMove(s, e.id, Apply(s, e).agents[e.id]);
  }

  lemma SlotsQuiet(s: State, id: Id, b: Agent, target: Option<Id>)
    requires s.active == Slots(s) && id in s.agents && Slot(b) == Slot(s.agents[id])
    requires s.agents[id].note == One ==> Delivers(s, target)
    ensures Slots(Put(s, id, b)) == s.active
    ensures s.agents[id].note == One ==>
      (target.Some? ==> target.value in Put(s, id, b).agents)
      && Deliver(Put(s, id, b), target).active == Slots(Deliver(Put(s, id, b), target))
  {
    SlotsMove(s, id, b);
    if s.agents[id].note == One {
      SlotsMoveThenDeliver(s, id, b, target);
    }
  }

  // ----- wake-up accounting ----------------------------------------------

  /** One agent moves from `s.agents[id]` (or nothing) to `b`; the rest of the queue is untouched. */
  lemma MoveKeepsCover(s: State, active: nat, stored: bool, id: Id, b: Agent, owed: nat, owed': nat)
    requires NoLostWake(s, owed)
    requires forall c: nat :: active < c <= Effective(s.limit) ==>
      (if id in s.agents then Weight(s.agents[id], c) else 0) + s.active + owed <= Weight(b, c) + active + owed'
    requires b.note == Waiting ==>
      Bound(b.pc) <= active
      || (Registered(s, id)
          && (Bound(b.pc) <= Bound(s.agents[id].pc) || Effective(s.limit) <= Bound(s.agents[id].pc)))
    ensures NoLostWake(Put(s, id, b).(active := active, stored := stored), owed')
  {
    var s' := Put(s, id, b).(active := active, stored := stored);
    if s.broadcasts == 0 {
      forall j | Registered(s', j)
        ensures Covered(s', Bound(s'.agents[j].pc), owed')
      {
        forall c: nat | c <= Bound(s'.agents[j].pc) && c <= Effective(s'.limit)
          ensures c <= s'.active + WakeUps(s', c) + owed'
        {
          if active < c {
            assert Registered(s, j);
            assert c <= s.active + WakeUps(s, c) + owed;
            TotalUpdate(s.agents, WeightAt(c), id, b);
          }
        }
      }
    }
  }

  /** A notification that is owed reaches a registered agent, or there is none to reach. */
  lemma DeliverKeepsCover(s: State, target: Option<Id>)
    requires NoLostWake(s, 1) && Delivers(s, target)
    ensures NoLostWake(Deliver(s, target), 0)
  {
    match target
    case Some(t) =>
      var b := s.agents[t].(note := One);
      MoveKeepsCover(s, s.active, s.stored, t, b, 1, 0);
      assert Deliver(s, target) == Put(s, t, b).(active := s.active, stored := s.stored);
    case None =>
      var s' := Deliver(s, target);
      assert forall id :: Registered(s', id) == Registered(s, id);
  }

  /** The steps of one attempt, from the top of the loop to the second check. */
  lemma AttemptStep(s: State, e: Event)
    requires Inv(s) && Can(s, e)
    requires e.LoadActive? || e.LoadLimit? || e.Swap? || e.Recheck?
    ensures NoLostWake(Apply(s, e), 0)
  {
    var s' := Apply(s, e);
    var b := s'.agents[e.id];
    assert s' == Put(s, e.id, b).(active := s'.active, stored := s'.stored);
    MoveKeepsCover(s, s'.active, s'.stored, e.id, b, 0, 0);
  }

  lemma EntryStep(s: State, e: Event)
    requires Inv(s) && Can(s, e)
    requires e.Arrive? || e.Enable? || e.Poll?
    ensures NoLostWake(Apply(s, e), 0)
  {
    var s' := Apply(s, e);
    var b := s'.agents[e.id];
    assert s' == Put(s, e.id, b).(active := s'.active, stored := s'.stored);
    MoveKeepsCover(s, s'.active, s'.stored, e.id, b, 0, 0);
  }

  lemma ReturnStep(s: State, e: Event)
    requires Inv(s) && Can(s, e)
    requires e.Withdraw? || e.Drop?
    ensures NoLostWake(Apply(s, e), 0)
  {
    var s' := Apply(s, e);
    var b := s'.agents[e.id];
    SlotMember(s, e.id);
    assert s' == Put(s, e.id, b).(active := s'.active, stored := s'.stored);
    MoveKeepsCover(s, s'.active, s'.stored, e.id, b, 0, 0);
  }

  lemma SetLimitStep(s: State, limit: nat)
    requires Inv(s) && limit <= MAX_USIZE
    ensures NoLostWake(Apply(s, SetLimit(limit)), 0)
  {
    var s' := Apply(s, SetLimit(limit));
    if s'.broadcasts == 0 {
      assert Effective(limit) <= Effective(s.limit);
      forall id | Registered(s', id) ensures Covered(s', Bound(s'.agents[id].pc), 0) {
        assert Registered(s, id);
        forall c: nat | c <= Bound(s'.agents[id].pc) && c <= Effective(s'.limit)
          ensures c <= s'.active + WakeUps(s', c)
        {
          assert WakeUps(s', c) == WakeUps(s, c);
        }
      }
    }
  }

  lemma WakeOneStep(s: State, id: Id, target: Option<Id>)
    requires Inv(s) && Can(s, Wake(id, target))
    ensures NoLostWake(Apply(s, Wake(id, target)), 0)
  {
    var a := s.agents[id];
    var b := a.(pc := if a.pc == Withdrawn then Refused else Gone);
    MoveKeepsCover(s, s.active, s.stored, id, b, 0, 1);
    var quiet := Put(s, id, b);
    assert quiet == Put(s, id, b).(active := s.active, stored := s.stored);
    assert forall j :: Registered(quiet, j) == Registered(s, j);
    DeliverKeepsCover(quiet, target);
  }

  lemma WakeStep(s: State, e: Event)
    requires Inv(s) && Can(s, e)
    ensures NoLostWake(Apply(s, e), 0)
  {
    match e
    case SetLimit(limit) => SetLimitStep(s, limit);
    case WakeAll => assert forall id :: !Registered(Apply(s, e), id);
    case Wake(id, target) => WakeOneStep(s, id, target);
    case Settle(id, target) => QuietThenDeliver(s, id, Agent(Holding, Absent, false), target);
    case Cancel(id, target) => QuietThenDeliver(s, id, Agent(Gone, Absent, false), target);
    case Withdraw(_) => ReturnStep(s, e);
    case Drop(_) => ReturnStep(s, e);
    case Arrive(_, _) => EntryStep(s, e);
    case Enable(_) => EntryStep(s, e);
    case Poll(_) => EntryStep(s, e);
    case _ => AttemptStep(s, e);
  }

  lemma QuietThenDeliver(s: State, id: Id, b: Agent, target: Option<Id>)
    requires NoLostWake(s, 0) && id in s.agents
    requires s.agents[id].pc in {Granted, Refused} && b.pc in {Holding, Gone} && b.note == Absent
    requires s.agents[id].note == One ==> Delivers(s, target)
    ensures s.agents[id].note == One ==> target.Some? ==> target.value in Put(s, id, b).agents
    ensures NoLostWake(if s.agents[id].note == One then Deliver(Put(s, id, b), target) else Put(s, id, b), 0)
  {
    var quiet := Put(s, id, b);
    assert quiet == Put(s, id, b).(active := s.active, stored := s.stored);
    if s.agents[id].note == One {
      MoveKeepsCover(s, s.active, s.stored, id, b, 0, 1);
      assert forall j :: Registered(quiet, j) == Registered(s, j);
      DeliverKeepsCover(quiet, target);
    } else {
      MoveKeepsCover(s, s.active, s.stored, id, b, 0, 0);
    }
  }

  lemma FuturesStep(s: State, e: Event)
    requires FuturesScoped(s) && Can(s, e)
    ensures FuturesScoped(Apply(s, e))
  {
  }

  lemma InvStep(s: State, e: Event)
    requires Inv(s) && Can(s, e)
    ensures Inv(Apply(s, e))
  {
    FuturesStep(s, e);
    SlotsStep(s, e);
    WakeStep(s, e);
  }

  lemma {:induction false} InvRun(s: State, es: seq<Event>)
    requires Inv(s) && Runs(s, es)
    ensures Inv(Final(s, es))
    decreases |es|
  {
    if es == [] {
    } else {
      InvStep(s, es[0]);
      InvRun(Apply(s, es[0]), es[1..]);
    }
  }

  // ----- main results ----------------------------------------------------

  /** Slot conservation in every interleaving; the counter never underflows. */
  lemma SlotsConserved(limit: nat, es: seq<Event>, e: Event)
    requires limit <= MAX_USIZE && Runs(Init(limit), es)
    ensures Final(Init(limit), es).active == Slots(Final(Init(limit), es))
    ensures Can(Final(Init(limit), es), e) && (e.Withdraw? || e.Drop?) ==> Final(Init(limit), es).active > 0
  {
    InvRun(Init(limit), es);
    var s := Final(Init(limit), es);
    if Can(s, e) {
      SlotsStep(s, e);
    }
  }

  /** A parked waiter never sleeps beside more free slots than there are wake-ups in flight. */
  lemma NoLostWakeUp(limit: nat, es: seq<Event>, id: Id)
    requires limit <= MAX_USIZE && Runs(Init(limit), es)
    requires At(Final(Init(limit), es), id, Refused) && Registered(Final(Init(limit), es), id)
    ensures var s := Final(Init(limit), es);
            s.broadcasts > 0 || Effective(s.limit) <= s.active + WakeUps(s, Effective(s.limit))
  {
    InvRun(Init(limit), es);
    var s := Final(Init(limit), es);
    if s.broadcasts == 0 {
      assert Covered(s, Bound(s.agents[id].pc), 0);
      assert Effective(s.limit) <= MAX_USIZE;
    }
  }

  /** Nothing is running: no notification is owed or undelivered, and no attempt is under way. */
  predicate Quiet(s: State) {
    s.broadcasts == 0 &&
    forall id :: id in s.agents ==> s.agents[id].pc in {Refused, Holding, Gone} && s.agents[id].note != One
  }

  /** In a quiet state no waiter is parked while a slot is free. */
  lemma NobodySleepsBesideAFreeSlot(limit: nat, es: seq<Event>, id: Id)
    requires limit <= MAX_USIZE && Runs(Init(limit), es) && Quiet(Final(Init(limit), es))
    requires Registered(Final(Init(limit), es), id)
    ensures Final(Init(limit), es).active >= Effective(Final(Init(limit), es).limit)
  {
    var s := Final(Init(limit), es);
    InvRun(Init(limit), es);
    NoLostWakeUp(limit, es, id);
    if WakeUps(s, Effective(s.limit)) > 0 {
      var j := TotalWitness(s.agents, WeightAt(Effective(s.limit)));
      assert false;
    }
  }

  // ----- limits ----------------------------------------------------------

  lemma ClaimsMove(s: State, id: Id, b: Agent, l: nat)
    ensures Claims(Put(s, id, b), l)
         == Claims(s, l) + ClaimAt(l)(b) - if id in s.agents then ClaimAt(l)(s.agents[id]) else 0
    ensures Pending(Put(s, id, b), l)
         == Pending(s, l) + PendingAt(l)(b) - if id in s.agents then PendingAt(l)(s.agents[id]) else 0
  {
    TotalUpdate(s.agents, ClaimAt(l), id, b);
    TotalUpdate(s.agents, PendingAt(l), id, b);
  }

  lemma ClaimsBelowSlots(s: State, l: nat)
    ensures Permits(s) <= Claims(s, l) <= Slots(s)
    ensures Pending(s, l) <= Claims(s, l)
  {
    TotalMonotone(s.agents, Held, s.agents, ClaimAt(l));
    TotalMonotone(s.agents, PendingAt(l), s.agents, ClaimAt(l));
    TotalMonotone(s.agents, ClaimAt(l), s.agents, Slot);
  }

  /** While the limit stays at `l`, claims only grow through a reservation made below `l`. */
  lemma ClaimsStep(s: State, e: Event, l: nat)
    requires s.active == Slots(s) && s.limit == l != 0 && Can(s, e) && !e.SetLimit?
    ensures var s' := Apply(s, e);
            (Claims(s', l) <= Claims(s, l) && Pending(s', l) <= Pending(s, l)) || Claims(s', l) <= l
  {
    ClaimsBelowSlots(s, l);
    match e
    case WakeAll =>
      BroadcastTotal(s.agents, ClaimAt(l));
      BroadcastTotal(s.agents, PendingAt(l));
    case Wake(id, target) =>
      var a := s.agents[id];
      var b := a.(pc := if a.pc == Withdrawn then Refused else Gone);
      ClaimsMove(s, id, b, l);
      DeliverSlots(Put(s, id, b), target);
    case Settle(id, target) => ClaimsQuiet(s, id, Agent(Holding, Absent, false), target, l);
    case Cancel(id, target) => ClaimsQuiet(s, id, Agent(Gone, Absent, false), target, l);
    case Swap(id, _) => ClaimsMove(s, id, Apply(s, e).agents[id], l);
    case _ => ClaimsLocal(s, e, l);
  }

  /** Steps of one agent that take no slot. */
  lemma ClaimsLocal(s: State, e: Event, l: nat)
    requires s.limit == l != 0 && Can(s, e)
    requires e.Arrive? || e.Enable? || e.LoadActive? || e.LoadLimit? || e.Recheck? || e.Withdraw? || e.Poll? || e.Drop?
    ensures Claims(Apply(s, e), l) <= Claims(s, l) && Pending(Apply(s, e), l) <= Pending(s, l)
  {
    ClaimsMove(s, e.id, Apply(s, e).agents[e.id], l);
  }

  lemma ClaimsQuiet(s: State, id: Id, b: Agent, target: Option<Id>, l: nat)
    requires id in s.agents && ClaimAt(l)(b) <= ClaimAt(l)(s.agents[id]) && PendingAt(l)(b) == 0
    requires s.agents[id].note == One ==> Delivers(s, target)
    ensures Claims(Put(s, id, b), l) <= Claims(s, l) && Pending(Put(s, id, b), l) <= Pending(s, l)
    ensures s.agents[id].note == One ==>
      (target.Some? ==> target.value in Put(s, id, b).agents)
      && Claims(Deliver(Put(s, id, b), target), l) <= Claims(s, l)
      && Pending(Deliver(Put(s, id, b), target), l) <= Pending(s, l)
  {
    ClaimsMove(s, id, b, l);
    if s.agents[id].note == One {
      DeliverSlots(Put(s, id, b), target);
    }
  }

  lemma {:induction false} ClaimsRun(s: State, es: seq<Event>, l: nat, bound: nat)
    requires Inv(s) && Runs(s, es) && KeepsLimit(es) && s.limit == l != 0
    requires l <= bound && Claims(s, l) <= bound
    ensures Permits(Final(s, es)) <= bound
    decreases |es|
  {
    if es == [] {
      ClaimsBelowSlots(s, l);
    } else {
      InvStep(s, es[0]);
      ClaimsStep(s, es[0], l);
      ClaimsRun(Apply(s, es[0]), es[1..], l, bound);
    }
  }

  /**
   After `set_limit(l)` and until the next change, the number of permits never exceeds
   max(l, slots occupied at that moment).
   */
  lemma PermitsBounded(limit: nat, before: seq<Event>, l: nat, after: seq<Event>)
    requires limit <= MAX_USIZE && Runs(Init(limit), before) && 0 < l <= MAX_USIZE
    requires Runs(Apply(Final(Init(limit), before), SetLimit(l)), after) && KeepsLimit(after)
    ensures Permits(Final(Apply(Final(Init(limit), before), SetLimit(l)), after))
         <= Max(l, Final(Init(limit), before).active)
  {
    InvRun(Init(limit), before);
    var s := Final(Init(limit), before);
    var s1 := Apply(s, SetLimit(l));
    InvStep(s, SetLimit(l));
    ClaimsBelowSlots(s1, l);
    ClaimsRun(s1, after, l, Max(l, s.active));
  }

  /** Every agent that passed the first check saw fewer than `l` slots. */
  ghost predicate ChecksBelow(s: State, l: nat) {
    s.limit == l && s.active <= l && forall id :: id in s.agents && s.agents[id].pc.Checked? ==> s.agents[id].pc.seen < l
  }

  lemma ChecksStep(s: State, e: Event, l: nat)
    requires Inv(s) && Can(s, e) && !e.SetLimit? && l != 0 && ChecksBelow(s, l)
    ensures ChecksBelow(Apply(s, e), l)
  {
    SlotsStep(s, e);
  }

  lemma {:induction false} ActiveRun(s: State, es: seq<Event>, l: nat)
    requires Inv(s) && Runs(s, es) && KeepsLimit(es) && l != 0 && ChecksBelow(s, l)
    ensures Final(s, es).active <= l
    decreases |es|
  {
    if es == [] {
    } else {
      InvStep(s, es[0]);
      ChecksStep(s, es[0], l);
      ActiveRun(Apply(s, es[0]), es[1..], l);
    }
  }

  /** Under a limit that never changes, the occupied slots stay within it in every interleaving. */
  lemma ActiveBounded(limit: nat, es: seq<Event>)
    requires 0 < limit <= MAX_USIZE && Runs(Init(limit), es) && KeepsLimit(es)
    ensures Final(Init(limit), es).active <= limit
  {
    ActiveRun(Init(limit), es, limit);
  }

  // ----- lowering the limit ----------------------------------------------

  /** The step hands out a permit. */
  predicate Grants(s: State, e: Event) {
    e.Recheck? && e.id in s.agents && s.agents[e.id].pc.Reserved? && SecondCheckGrants(s.limit, s.agents[e.id].pc.before)
  }

  /** Every permit handed out along the run found fewer than `l` permits alive. */
  ghost predicate GrantsBelow(s: State, es: seq<Event>, l: nat)
    requires Runs(s, es)
    decreases |es|
  {
    es == [] || ((Grants(s, es[0]) ==> Permits(s) < l) && GrantsBelow(Apply(s, es[0]), es[1..], l))
  }

  /** No reservation can still be confirmed, or all claims fit under the limit. */
  ghost predicate Settled(s: State, l: nat) {
    Pending(s, l) == 0 || Claims(s, l) <= l
  }

  lemma {:induction false} ClaimsAdd(agents: map<Id, Agent>, l: nat)
    ensures Total(agents, ClaimAt(l)) == Total(agents, Held) + Total(agents, PendingAt(l))
    decreases |agents|
  {
    if agents != map[] {
      var k :| k in agents;
      TotalSplit(agents, ClaimAt(l), k);
      TotalSplit(agents, Held, k);
      TotalSplit(agents, PendingAt(l), k);
      assert (agents - {k}).Keys == agents.Keys - {k};
      ClaimsAdd(agents - {k}, l);
    }
  }

  lemma {:induction false} SettledGrantsBelow(s: State, es: seq<Event>, l: nat)
    requires Inv(s) && Runs(s, es) && KeepsLimit(es) && s.limit == l != 0 && Settled(s, l)
    ensures GrantsBelow(s, es, l)
    decreases |es|
  {
    if es == [] {
    } else {
      var e := es[0];
      if Grants(s, e) {
        TotalMember(s.agents, PendingAt(l), e.id);
        ClaimsAdd(s.agents, l);
      }
      InvStep(s, e);
      ClaimsStep(s, e, l);
      ClaimsBelowSlots(Apply(s, e), l);
      SettledGrantsBelow(Apply(s, e), es[1..], l);
    }
  }

  lemma {:induction false} UnsettledGrantsAbove(s: State, l: nat) returns (es: seq<Event>)
    requires Inv(s) && s.limit == l != 0 && !Settled(s, l)
    ensures Runs(s, es) && KeepsLimit(es) && !GrantsBelow(s, es, l)
    decreases Pending(s, l)
  {
    ClaimsAdd(s.agents, l);
    var id := TotalWitness(s.agents, PendingAt(l));
    var e := Recheck(id);
    var s' := Apply(s, e);
    if Permits(s) >= l {
      es := [e];
      assert Runs(s', es[1..]);
    } else {
      InvStep(s, e);
      ClaimsMove(s, id, s'.agents[id], l);
      var rest := UnsettledGrantsAbove(s', l);
      es := [e] + rest;
      assert es[1..] == rest;
    }
  }

  /**
   The documented promise that a lowered limit `l` hands out no permit while `l` permits are
   alive holds for all continuations exactly when, at the moment of the change, no confirmable
   reservation is pending or the claims fit under `l`.
   */
  lemma LoweringHonouredIff(s: State, l: nat)
    requires Inv(s) && 0 < l <= MAX_USIZE
    ensures (forall es :: Runs(Apply(s, SetLimit(l)), es) && KeepsLimit(es) ==> GrantsBelow(Apply(s, SetLimit(l)), es, l))
       <==> Settled(Apply(s, SetLimit(l)), l)
  {
    var s1 := Apply(s, SetLimit(l));
    InvStep(s, SetLimit(l));
    if Settled(s1, l) {
      forall es | Runs(s1, es) && KeepsLimit(es) ensures GrantsBelow(s1, es, l) {
        SettledGrantsBelow(s1, es, l);
      }
    } else {
      var es := UnsettledGrantsAbove(s1, l);
    }
  }

  lemma {:induction false} RunsAppend(s: State, es: seq<Event>, e: Event)
    requires Runs(s, es) && Can(Final(s, es), e)
    ensures Runs(s, es + [e]) && Final(s, es + [e]) == Apply(Final(s, es), e)
    decreases |es|
  {
    if es == [] {
      assert (es + [e])[1..] == [];
    } else {
      RunsAppend(Apply(s, es[0]), es[1..], e);
      assert (es + [e])[1..] == es[1..] + [e];
    }
  }

  /** A plain try of a fresh agent, undisturbed up to its reservation. */
  lemma Reserve(i: State, es: seq<Event>, id: Id) returns (es': seq<Event>)
    requires Runs(i, es) && id !in Final(i, es).agents
    requires Final(i, es).active < Final(i, es).limit <= MAX_USIZE
    ensures Runs(i, es')
    ensures var s := Final(i, es);
            Final(i, es') == Put(s, id, Agent(Reserved(s.active), Absent, false)).(active := s.active + 1)
  {
    var s := Final(i, es);
    RunsAppend(i, es, Arrive(id, false));
    var e1 := es + [Arrive(id, false)];
    RunsAppend(i, e1, LoadActive(id));
    var e2 := e1 + [LoadActive(id)];
    RunsAppend(i, e2, LoadLimit(id));
    var e3 := e2 + [LoadLimit(id)];
    assert Final(i, e3) == Put(s, id, Agent(Checked(s.active), Absent, false));
    RunsAppend(i, e3, Swap(id, false));
    es' := e3 + [Swap(id, false)];
  }

  /**
   The promise does fail: under limit 2 one call reserves a slot, a second call obtains a
   permit, the limit drops to 1, and the first call is still granted a second permit.
   */
  lemma LoweringCanOvershoot() returns (before: seq<Event>)
    ensures Runs(Init(2), before)
    ensures var s := Apply(Final(Init(2), before), SetLimit(1));
            s.limit == 1 && Permits(s) == 1 && Can(s, Recheck(0)) && Grants(s, Recheck(0)) && Permits(Apply(s, Recheck(0))) == 2
  {
    var i := Init(2);
    var a0 := Agent(Reserved(0), Absent, false);
    var a1 := Agent(Granted, Absent, false);
    before := Reserve(i, [], 0);
    assert Final(i, before) == State(1, 2, map[0 := a0], false, 0);
    before := Reserve(i, before, 1);
    RunsAppend(i, before, Recheck(1));
    before := before + [Recheck(1)];
    assert Final(i, before) == State(2, 2, map[0 := a0, 1 := a1], false, 0);
    var s := Apply(Final(i, before), SetLimit(1));
    var m: map<Id, Agent> := map[];
    TotalUpdate(m, Held, 0, a0);
    TotalUpdate(m[0 := a0], Held, 1, a1);
    assert s.agents == m[0 := a0][1 := a1];
    TotalUpdate(s.agents, Held, 0, Agent(Granted, Absent, false));
  }
}

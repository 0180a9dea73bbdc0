/**
 The per-provider circuit breaker of `src/state/runtime_controls.rs` and
 `src/state/runtime_gates.rs`.

 The breaker map is shared behind a mutex, so every operation is one step. The classes carry
 the in-place updates; the functions say what each update does to the shared map, and the
 run theorems are about arbitrary sequences of those updates over any number of leases.
 */
module CircuitBreaker {
  import opened Collections

  const MAX_U32: nat := 0xFFFF_FFFF

  /** Last representable point of the monotone clock. */
  const MAX_INSTANT: nat := 0xFFFF_FFFF_FFFF_FFFF_FFFF_FFFF

  datatype CircuitState = CircuitState(
    generation: nat,
    consecutiveFailures: nat,
    openUntil: Option<nat>,
    openedAt: Option<nat>,
    halfOpenProbe: Option<nat>)
  {
    predicate Open() {
      openUntil.Some?
    }
  }

  datatype Settings = Settings(failureThreshold: nat, cooldown: nat)

  /** The shared gate state: breakers by provider id, and the two id counters. */
  datatype Gates = Gates(breakers: map<string, CircuitState>, nextGeneration: nat, nextProbeId: nat)

  /** What a lease knows. `generation` is None while the breaker feature is disabled. */
  datatype Lease = Lease(provider: string, generation: Option<nat>, probeId: Option<nat>)

  /** The lease still speaks about the circuit its provider has now. */
  predicate Current(g: Gates, l: Lease) {
    l.generation.Some? && l.provider in g.breakers && g.breakers[l.provider].generation == l.generation.value
  }

  /** The lease owns the half-open slot of its provider. */
  predicate Owns(g: Gates, l: Lease) {
    Current(g, l) && l.probeId.Some? && g.breakers[l.provider].halfOpenProbe == l.probeId
  }

  function WithCircuit(g: Gates, provider: string, c: CircuitState): Gates {
    g.(breakers := g.breakers[provider := c])
  }

  // ----- what the operations do to the shared state -----------------------

  /** The circuit of `provider`, created closed with a fresh generation when missing. */
  function Ensure(g: Gates, provider: string): Option<Gates> {
    if provider in g.breakers then Some(g)
    else if g.nextGeneration >= MAX_U64 then None
    else Some(WithCircuit(g, provider, CircuitState(g.nextGeneration, 0, None, None, None))
                .(nextGeneration := g.nextGeneration + 1))
  }

  function Admit(g: Gates, provider: string, breakerEnabled: bool, now: nat): (Gates, Option<Lease>) {
    if !breakerEnabled then (g, Some(Lease(provider, None, None)))
    else
      match Ensure(g, provider)
      case None => (g, None)
      case Some(g1) =>
        var c := g1.breakers[provider];
        if c.openUntil.None? then (g1, Some(Lease(provider, Some(c.generation), None)))
        else if now < c.openUntil.value || c.halfOpenProbe.Some? || g1.nextProbeId >= MAX_U64 then (g1, None)
        else
          var id := g1.nextProbeId;
          (WithCircuit(g1, provider, c.(halfOpenProbe := Some(id))).(nextProbeId := id + 1),
           Some(Lease(provider, Some(c.generation), Some(id))))
  }

  function Success(g: Gates, l: Lease): Gates {
    if !Current(g, l) then g
    else
      var c := g.breakers[l.provider];
      if l.probeId.Some? then
        if c.halfOpenProbe == l.probeId then WithCircuit(g, l.provider, CircuitState(c.generation, 0, None, None, None))
        else g
      else if c.openUntil.None? && c.halfOpenProbe.None? then
        WithCircuit(g, l.provider, c.(consecutiveFailures := 0, openedAt := None))
      else g
  }

  /** `saturating_add(1)` on the failure counter. */
  function CountFailure(c: CircuitState): nat {
    if c.consecutiveFailures < MAX_U32 then c.consecutiveFailures + 1 else c.consecutiveFailures
  }

  function Failure(g: Gates, l: Lease, settings: Settings, now: nat): Gates {
    if !Current(g, l) then g
    else
      var c := g.breakers[l.provider];
      var failures := CountFailure(c);
      var opens := failures >= settings.failureThreshold;
      WithCircuit(g, l.provider,
        CircuitState(
          c.generation,
          failures,
          if !opens then c.openUntil else if now + settings.cooldown <= MAX_INSTANT then Some(now + settings.cooldown) else None,
          if opens then Some(now) else c.openedAt,
          if l.probeId.Some? && c.halfOpenProbe == l.probeId then None else c.halfOpenProbe))
  }

  function Release(g: Gates, l: Lease): Gates {
    if Owns(g, l) then WithCircuit(g, l.provider, g.breakers[l.provider].(halfOpenProbe := None)) else g
  }

  function Clear(g: Gates, provider: string): Gates {
    g.(breakers := g.breakers - {provider})
  }

  // ----- the objects ------------------------------------------------------

  class CircuitBreakers {
    var breakers: map<string, CircuitState>
    var nextGeneration: nat
    var nextProbeId: nat

    ghost function View(): Gates
      reads this
    {
      Gates(breakers, nextGeneration, nextProbeId)
    }

    constructor ()
      ensures View() == Gates(map[], 1, 1)
    {
      breakers, nextGeneration, nextProbeId := map[], 1, 1;
    }

    /** `permit_provider_with_settings` */
    method PermitProvider(provider: string, breakerEnabled: bool, now: nat) returns (permit: CircuitProbePermit?)
      modifies this
      ensures View() == Admit(old(View()), provider, breakerEnabled, now).0
      ensures permit == null <==> Admit(old(View()), provider, breakerEnabled, now).1 == None
      ensures permit != null ==>
        fresh(permit) && permit.gates == this
        && Some(permit.View()) == Admit(old(View()), provider, breakerEnabled, now).1
    {
      var probeId: Option<nat> := None;
      var generation: Option<nat> := None;
      if breakerEnabled {
        if provider !in breakers {
          if nextGeneration >= MAX_U64 {
            return null;
          }
          breakers := breakers[provider := CircuitState(nextGeneration, 0, None, None, None)];
          nextGeneration := nextGeneration + 1;
        }
        var state := breakers[provider];
        if state.openUntil.Some? {
          if now < state.openUntil.value || state.halfOpenProbe.Some? || nextProbeId >= MAX_U64 {
            return null;
          }
          probeId := Some(nextProbeId);
          nextProbeId := nextProbeId + 1;
          breakers := breakers[provider := state.(halfOpenProbe := probeId)];
        }
        generation := Some(state.generation);
      }
      permit := new CircuitProbePermit(this, provider, generation, probeId);
    }

    /** The breaker part of `clear_provider_runtime_state`. */
    method ClearProvider(provider: string)
      modifies this
      ensures View() == Clear(old(View()), provider)
    {
      breakers := breakers - {provider};
    }
  }

  class CircuitProbePermit {
    const gates: CircuitBreakers
    const provider: string
    const generation: Option<nat>
    var probeId: Option<nat>

    ghost function View(): Lease
      reads this
    {
      Lease(provider, generation, probeId)
    }

    constructor (gates: CircuitBreakers, provider: string, generation: Option<nat>, probeId: Option<nat>)
      ensures this.gates == gates && View() == Lease(provider, generation, probeId)
    {
      this.gates, this.provider, this.generation, this.probeId := gates, provider, generation, probeId;
    }

    method Succeeded()
      modifies this, gates
      ensures gates.View() == Success(old(gates.View()), old(View()))
      ensures View() == old(View()).(probeId := None)
    {
      if generation.Some? && provider in gates.breakers && gates.breakers[provider].generation == generation.value {
        var state := gates.breakers[provider];
        if probeId.Some? {
          if state.halfOpenProbe == probeId {
            state := state.(consecutiveFailures := 0, openUntil := None, openedAt := None, halfOpenProbe := None);
            gates.breakers := gates.breakers[provider := state];
          }
        } else if state.openUntil.None? && state.halfOpenProbe.None? {
          state := state.(consecutiveFailures := 0, openedAt := None);
          gates.breakers := gates.breakers[provider := state];
        }
      }
      probeId := None;
    }

    method Failed(settings: Settings, now: nat)
      modifies this, gates
      ensures gates.View() == Failure(old(gates.View()), old(View()), settings, now)
      ensures View() == old(View()).(probeId := None)
    {
      if generation.Some? && provider in gates.breakers && gates.breakers[provider].generation == generation.value {
        var state := gates.breakers[provider];
        if state.consecutiveFailures < MAX_U32 {
          state := state.(consecutiveFailures := state.consecutiveFailures + 1);
        }
        if state.consecutiveFailures >= settings.failureThreshold {
          state := state.(
            openedAt := Some(now),
            openUntil := if now + settings.cooldown <= MAX_INSTANT then Some(now + settings.cooldown) else None);
        }
        if probeId.Some? && state.halfOpenProbe == probeId {
          state := state.(halfOpenProbe := None);
        }
        gates.breakers := gates.breakers[provider := state];
      }
      probeId := None;
    }

    /** `abort`, and what `drop` does. */
    method ReleaseProbe()
      modifies this, gates
      ensures gates.View() == Release(old(gates.View()), old(View()))
      ensures View() == old(View()).(probeId := None)
    {
      var taken := probeId;
      probeId := None;
      if taken.Some? && generation.Some? && provider in gates.breakers {
        var state := gates.breakers[provider];
        if state.generation == generation.value && state.halfOpenProbe == taken {
          gates.breakers := gates.breakers[provider := state.(halfOpenProbe := None)];
        }
      }
    }
  }

  // ----- runs -------------------------------------------------------------

  type LeaseId = nat

  datatype System = System(gates: Gates, leases: map<LeaseId, Lease>)

  datatype Event =
    | Request(id: LeaseId, provider: string, breakerEnabled: bool, now: nat)
    | Succeed(id: LeaseId)
    | Fail(id: LeaseId, now: nat)
    | Abort(id: LeaseId)
    | Drop(id: LeaseId)
    | ClearOne(provider: string)
    | ClearAll

  const START := System(Gates(map[], 1, 1), map[])

  predicate Can(s: System, e: Event) {
    match e
    case Request(id, _, _, _) => id !in s.leases
    case Succeed(id) => id in s.leases
    case Fail(id, _) => id in s.leases
    case Abort(id) => id in s.leases
    case Drop(id) => id in s.leases
    case _ => true
  }

  function Spent(s: System, id: LeaseId): map<LeaseId, Lease>
    requires id in s.leases
  {
    s.leases[id := s.leases[id].(probeId := None)]
  }

  function Apply(s: System, e: Event, settings: Settings): System
    requires Can(s, e)
  {
    match e
    case Request(id, provider, breakerEnabled, now) =>
      var (g, lease) := Admit(s.gates, provider, breakerEnabled, now);
      System(g, if lease.Some? then s.leases[id := lease.value] else s.leases)
    case Succeed(id) => System(Success(s.gates, s.leases[id]), Spent(s, id))
    case Fail(id, now) => System(Failure(s.gates, s.leases[id], settings, now), Spent(s, id))
    case Abort(id) => System(Release(s.gates, s.leases[id]), Spent(s, id))
    case Drop(id) => System(Release(s.gates, s.leases[id]), s.leases - {id})
    case ClearOne(provider) => s.(gates := Clear(s.gates, provider))
    case ClearAll => s.(gates := s.gates.(breakers := map[]))
  }

  predicate Runs(s: System, es: seq<Event>, settings: Settings)
    decreases |es|
  {
    es == [] || (Can(s, es[0]) && Runs(Apply(s, es[0], settings), es[1..], settings))
  }

  function Final(s: System, es: seq<Event>, settings: Settings): System
    requires Runs(s, es, settings)
    decreases |es|
  {
    if es == [] then s else Final(Apply(s, es[0], settings), es[1..], settings)
  }

  // ----- one probe per provider -------------------------------------------

  predicate Owner(s: System, id: LeaseId) {
    id in s.leases && Owns(s.gates, s.leases[id])
  }

  /** The live leases that own the half-open slot of `p`. */
  ghost function Probers(s: System, p: string): set<LeaseId> {
    set id | id in s.leases && s.leases[id].provider == p && Owns(s.gates, s.leases[id])
  }

  /** Ids are handed out once: every id in use lies below its counter. */
  predicate IdsFresh(s: System) {
    && (forall p :: p in s.gates.breakers ==> s.gates.breakers[p].generation < s.gates.nextGeneration)
    && (forall id :: id in s.leases ==>
         && (s.leases[id].generation.Some? ==> s.leases[id].generation.value < s.gates.nextGeneration)
         && (s.leases[id].probeId.Some? ==> s.leases[id].probeId.value < s.gates.nextProbeId))
  }

  predicate ProbesDistinct(s: System) {
    forall i, j :: i in s.leases && j in s.leases && i != j && s.leases[i].probeId.Some? ==>
      s.leases[i].probeId != s.leases[j].probeId
  }

  /** A current lease that carries a probe id owns the slot it was admitted to. */
  predicate ProbesOwn(s: System) {
    forall id :: id in s.leases && s.leases[id].probeId.Some? && Current(s.gates, s.leases[id]) ==> Owns(s.gates, s.leases[id])
  }

  ghost predicate SlotOwned(s: System, p: string) {
    exists id :: id in s.leases && s.leases[id].provider == p && Owns(s.gates, s.leases[id])
  }

  ghost predicate SlotsOwned(s: System) {
    forall p :: p in s.gates.breakers && s.gates.breakers[p].halfOpenProbe.Some? ==> SlotOwned(s, p)
  }

  ghost predicate Linked(s: System) {
    IdsFresh(s) && ProbesDistinct(s) && ProbesOwn(s) && SlotsOwned(s)
  }

  /** Reports never touch the counters and never move a circuit to another generation. */
  lemma ReportFrame(s: System, e: Event, settings: Settings)
    requires Can(s, e) && !e.Request?
    ensures var g := Apply(s, e, settings).gates;
            g.nextGeneration == s.gates.nextGeneration && g.nextProbeId == s.gates.nextProbeId
            && forall p :: p in g.breakers ==> p in s.gates.breakers && g.breakers[p].generation == s.gates.breakers[p].generation
    ensures forall id :: id in Apply(s, e, settings).leases ==>
              id in s.leases && (Apply(s, e, settings).leases[id] == s.leases[id]
                                 || Apply(s, e, settings).leases[id] == s.leases[id].(probeId := None))
  {
  }

  lemma IdsStep(s: System, e: Event, settings: Settings)
    requires IdsFresh(s) && ProbesDistinct(s) && Can(s, e)
    ensures IdsFresh(Apply(s, e, settings)) && ProbesDistinct(Apply(s, e, settings))
  {
    if e.Request? {
      RequestIds(s, e.id, e.provider, e.breakerEnabled, e.now);
    } else {
      ReportFrame(s, e, settings);
    }
  }

  lemma RequestIds(s: System, id: LeaseId, provider: string, breakerEnabled: bool, now: nat)
    requires IdsFresh(s) && ProbesDistinct(s) && id !in s.leases
    ensures var (g, lease) := Admit(s.gates, provider, breakerEnabled, now);
            var s' := System(g, if lease.Some? then s.leases[id := lease.value] else s.leases);
            IdsFresh(s') && ProbesDistinct(s')
  {
  }

  lemma ProbesOwnStep(s: System, e: Event, settings: Settings)
    requires IdsFresh(s) && ProbesDistinct(s) && ProbesOwn(s) && Can(s, e)
    ensures ProbesOwn(Apply(s, e, settings))
  {
    var s' := Apply(s, e, settings);
    forall id | id in s'.leases && s'.leases[id].probeId.Some? && Current(s'.gates, s'.leases[id])
      ensures Owns(s'.gates, s'.leases[id])
    {
      if !(e.Request? && e.id == id) {
        assert s'.leases[id] == s.leases[id];
        assert Current(s.gates, s.leases[id]);
      }
    }
  }

  /** A slot keeps its owner through every step that leaves it occupied. */
  lemma SlotOwnedStep(s: System, e: Event, settings: Settings, p: string)
    requires Linked(s) && Can(s, e)
    requires var g := Apply(s, e, settings).gates; p in g.breakers && g.breakers[p].halfOpenProbe.Some?
    ensures SlotOwned(Apply(s, e, settings), p)
  {
    var s' := Apply(s, e, settings);
    if p in s.gates.breakers && s.gates.breakers[p].halfOpenProbe.Some? {
      assert SlotOwned(s, p);
      var id :| id in s.leases && s.leases[id].provider == p && Owns(s.gates, s.leases[id]);
      assert s'.gates.breakers[p].halfOpenProbe == s.gates.breakers[p].halfOpenProbe;
      assert id in s'.leases && Owns(s'.gates, s'.leases[id]);
    } else {
      assert e.Request? && e.provider == p;
      assert e.id in s'.leases && Owns(s'.gates, s'.leases[e.id]);
    }
  }

  lemma LinkedStep(s: System, e: Event, settings: Settings)
    requires Linked(s) && Can(s, e)
    ensures Linked(Apply(s, e, settings))
  {
    IdsStep(s, e, settings);
    ProbesOwnStep(s, e, settings);
    var s' := Apply(s, e, settings);
    forall p | p in s'.gates.breakers && s'.gates.breakers[p].halfOpenProbe.Some?
      ensures SlotOwned(s', p)
    {
      SlotOwnedStep(s, e, settings, p);
    }
  }

  lemma {:induction false} LinkedRun(s: System, es: seq<Event>, settings: Settings)
    requires Linked(s) && Runs(s, es, settings)
    ensures Linked(Final(s, es, settings))
    decreases |es|
  {
    if es == [] {
    } else {
      LinkedStep(s, es[0], settings);
      LinkedRun(Apply(s, es[0], settings), es[1..], settings);
    }
  }

  /**
   In every reachable state the occupied half-open slots and the live leases that own them are
   in bijection: one owner for an occupied slot, none for a free one.
   */
  lemma OneProbePerProvider(es: seq<Event>, settings: Settings, p: string)
    requires Runs(START, es, settings)
    ensures var s := Final(START, es, settings);
            p in s.gates.breakers ==>
              |Probers(s, p)| == if s.gates.breakers[p].halfOpenProbe.Some? then 1 else 0
  {
    LinkedRun(START, es, settings);
    var s := Final(START, es, settings);
    if p in s.gates.breakers {
      if s.gates.breakers[p].halfOpenProbe.Some? {
        assert SlotOwned(s, p);
        var id :| id in s.leases && s.leases[id].provider == p && Owns(s.gates, s.leases[id]);
        assert Probers(s, p) == {id};
      } else {
        assert Probers(s, p) == {};
      }
    }
  }

  /** Live leases of the current generation that still carry a probe id. */
  ghost function LiveProbes(s: System, p: string): set<LeaseId> {
    set id | id in s.leases && s.leases[id].provider == p && s.leases[id].probeId.Some? && Current(s.gates, s.leases[id])
  }

  /** No lease is left holding a probe id for a slot that someone else occupies or freed. */
  lemma LiveProbesAreProbers(es: seq<Event>, settings: Settings, p: string)
    requires Runs(START, es, settings)
    ensures var s := Final(START, es, settings); LiveProbes(s, p) == Probers(s, p)
  {
    LinkedRun(START, es, settings);
  }

  /** The event is a report or the end of a lease for provider `p`. */
  predicate ReportOf(s: System, e: Event, p: string)
    requires Can(s, e)
  {
    (e.Succeed? || e.Fail? || e.Abort? || e.Drop?) && s.leases[e.id].provider == p
  }

  predicate Clears(e: Event, p: string) {
    e == ClearOne(p) || e == ClearAll
  }

  /** An occupied slot is freed by its owner or by clearing the provider, and by nothing else. */
  lemma SlotFreedIff(s: System, e: Event, settings: Settings, p: string)
    requires Linked(s) && Can(s, e)
    requires p in s.gates.breakers && s.gates.breakers[p].halfOpenProbe.Some?
    ensures var g := Apply(s, e, settings).gates;
            (p in g.breakers && g.breakers[p].halfOpenProbe == s.gates.breakers[p].halfOpenProbe)
            <==> !(ReportOf(s, e, p) && Owner(s, e.id)) && !Clears(e, p)
  {
  }

  // ----- open exactly when the failures reached the threshold ---------------

  predicate OpenIffFailed(g: Gates, threshold: nat) {
    forall p :: p in g.breakers ==>
      && (g.breakers[p].Open() <==> g.breakers[p].consecutiveFailures >= threshold)
      && g.breakers[p].consecutiveFailures <= MAX_U32
  }

  predicate ClockFits(es: seq<Event>, settings: Settings) {
    forall i :: 0 <= i < |es| && es[i].Fail? ==> es[i].now + settings.cooldown <= MAX_INSTANT
  }

  lemma OpenIffFailedStep(s: System, e: Event, settings: Settings)
    requires 1 <= settings.failureThreshold <= MAX_U32 && Can(s, e) && OpenIffFailed(s.gates, settings.failureThreshold)
    requires e.Fail? ==> e.now + settings.cooldown <= MAX_INSTANT
    ensures OpenIffFailed(Apply(s, e, settings).gates, settings.failureThreshold)
  {
  }

  lemma {:induction false} OpenIffFailedRun(s: System, es: seq<Event>, settings: Settings)
    requires 1 <= settings.failureThreshold <= MAX_U32 && Runs(s, es, settings) && ClockFits(es, settings)
    requires OpenIffFailed(s.gates, settings.failureThreshold)
    ensures OpenIffFailed(Final(s, es, settings).gates, settings.failureThreshold)
    decreases |es|
  {
    if es == [] {
    } else {
      OpenIffFailedStep(s, es[0], settings);
      OpenIffFailedRun(Apply(s, es[0], settings), es[1..], settings);
    }
  }

  /** Over every run a circuit is open exactly when its consecutive failures reached the threshold. */
  lemma CircuitOpenIff(es: seq<Event>, settings: Settings, p: string)
    requires 1 <= settings.failureThreshold <= MAX_U32 && Runs(START, es, settings) && ClockFits(es, settings)
    ensures var g := Final(START, es, settings).gates;
            p in g.breakers ==> (g.breakers[p].Open() <==> g.breakers[p].consecutiveFailures >= settings.failureThreshold)
  {
    OpenIffFailedRun(START, es, settings);
  }

  /** Half-open slots exist on open circuits only. */
  predicate ProbesOnlyOpen(g: Gates) {
    forall p :: p in g.breakers && g.breakers[p].halfOpenProbe.Some? ==> g.breakers[p].Open()
  }

  lemma {:induction false} ProbesOnlyOpenRun(s: System, es: seq<Event>, settings: Settings)
    requires Runs(s, es, settings) && ClockFits(es, settings) && ProbesOnlyOpen(s.gates)
    ensures ProbesOnlyOpen(Final(s, es, settings).gates)
    decreases |es|
  {
    if es == [] {
    } else {
      ProbesOnlyOpenRun(Apply(s, es[0], settings), es[1..], settings);
    }
  }

  lemma StaysOpenStep(s: System, e: Event, settings: Settings, p: string)
    requires Linked(s) && Can(s, e) && p in s.gates.breakers && s.gates.breakers[p].Open()
    ensures var g := Apply(s, e, settings).gates;
            (p in g.breakers && g.breakers[p].Open()) <==> !ClosedBy(s, e, settings, p)
  {
  }

  /** The lease owning the probe slot succeeds, the provider is cleared, or a failure pushes the reopening past the clock. */
  ghost predicate ClosedBy(s: System, e: Event, settings: Settings, p: string)
    requires Can(s, e) && p in s.gates.breakers
  {
    || (e.Succeed? && s.leases[e.id].provider == p && e.id in Probers(s, p))
    || Clears(e, p)
    || (e.Fail? && s.leases[e.id].provider == p && Current(s.gates, s.leases[e.id])
        && CountFailure(s.gates.breakers[p]) >= settings.failureThreshold
        && e.now + settings.cooldown > MAX_INSTANT)
  }

  /**
   After any run, an open circuit stays open unless the lease owning its probe slot succeeds, the
   provider is cleared, or a counted failure pushes the reopening time past the end of the clock.
   */
  lemma StaysOpenIff(es: seq<Event>, e: Event, settings: Settings, p: string)
    requires Runs(START, es, settings) && Can(Final(START, es, settings), e)
    requires var g := Final(START, es, settings).gates; p in g.breakers && g.breakers[p].Open()
    ensures var s := Final(START, es, settings);
            var g := Apply(s, e, settings).gates;
            (p in g.breakers && g.breakers[p].Open()) <==> !ClosedBy(s, e, settings, p)
  {
    LinkedRun(START, es, settings);
    StaysOpenStep(Final(START, es, settings), e, settings, p);
  }

  // ----- counting failures -------------------------------------------------------

  /** The event is a failure report about the circuit `p` has now. */
  predicate FailureOf(s: System, e: Event, p: string)
    requires Can(s, e)
  {
    e.Fail? && s.leases[e.id].provider == p && Current(s.gates, s.leases[e.id])
  }

  /** Nothing in the run is a success for `p` or clears it. */
  ghost predicate OnlyFailures(s: System, es: seq<Event>, settings: Settings, p: string)
    requires Runs(s, es, settings)
    decreases |es|
  {
    es == [] || (!(es[0].Succeed? && s.leases[es[0].id].provider == p) && !Clears(es[0], p)
                 && OnlyFailures(Apply(s, es[0], settings), es[1..], settings, p))
  }

  ghost function FailuresOf(s: System, es: seq<Event>, settings: Settings, p: string): nat
    requires Runs(s, es, settings)
    decreases |es|
  {
    if es == [] then 0
    else (if FailureOf(s, es[0], p) then 1 else 0) + FailuresOf(Apply(s, es[0], settings), es[1..], settings, p)
  }

  lemma FailuresStep(s: System, e: Event, settings: Settings, p: string)
    requires Can(s, e) && p in s.gates.breakers && s.gates.breakers[p].consecutiveFailures <= MAX_U32
    requires !(e.Succeed? && s.leases[e.id].provider == p) && !Clears(e, p)
    ensures var g := Apply(s, e, settings).gates;
      p in g.breakers && g.breakers[p].consecutiveFailures
        == Min(MAX_U32, s.gates.breakers[p].consecutiveFailures + if FailureOf(s, e, p) then 1 else 0)
  {
  }

  /** Between successes, the counter is the number of failures reported about this circuit. */
  lemma {:induction false} FailuresAddUp(s: System, es: seq<Event>, settings: Settings, p: string)
    requires Runs(s, es, settings) && OnlyFailures(s, es, settings, p)
    requires p in s.gates.breakers && s.gates.breakers[p].consecutiveFailures <= MAX_U32
    ensures var g := Final(s, es, settings).gates;
      p in g.breakers
      && g.breakers[p].consecutiveFailures == Min(MAX_U32, s.gates.breakers[p].consecutiveFailures + FailuresOf(s, es, settings, p))
    decreases |es|
  {
    if es == [] {
    } else {
      FailuresStep(s, es[0], settings, p);
      FailuresAddUp(Apply(s, es[0], settings), es[1..], settings, p);
    }
  }

  /** A success resets the counter: of any lease while the circuit is closed, of the slot owner while it is open. */
  lemma SuccessResets(s: System, id: LeaseId, settings: Settings)
    requires id in s.leases && Current(s.gates, s.leases[id])
    requires var c := s.gates.breakers[s.leases[id].provider];
      Owner(s, id) || (s.leases[id].probeId.None? && !c.Open() && c.halfOpenProbe.None?)
    ensures var p, g := s.leases[id].provider, Apply(s, Succeed(id), settings).gates;
      p in g.breakers && g.breakers[p].consecutiveFailures == 0 && !g.breakers[p].Open()
  {
  }

  /** Counting from a reset, the circuit is open exactly when at least `failureThreshold` failures were reported. */
  lemma OpensAtThreshold(before: seq<Event>, es: seq<Event>, settings: Settings, p: string)
    requires 1 <= settings.failureThreshold <= MAX_U32
    requires Runs(START, before, settings) && ClockFits(before, settings) && ClockFits(es, settings)
    requires var s := Final(START, before, settings);
      && p in s.gates.breakers && s.gates.breakers[p].consecutiveFailures == 0
      && Runs(s, es, settings) && OnlyFailures(s, es, settings, p)
    ensures var s := Final(START, before, settings);
      var g := Final(s, es, settings).gates;
      p in g.breakers && (g.breakers[p].Open() <==> FailuresOf(s, es, settings, p) >= settings.failureThreshold)
  {
    OpenIffFailedRun(START, before, settings);
    var s := Final(START, before, settings);
    OpenIffFailedRun(s, es, settings);
    FailuresAddUp(s, es, settings, p);
  }

  // ----- the cooldown ----------------------------------------------------------

  /** The circuit of `p` is open at least until `until`. */
  predicate OpenAtLeast(g: Gates, p: string, until: nat) {
    p in g.breakers && g.breakers[p].Open() && g.breakers[p].openUntil.value >= until
  }

  /** No step of the run closes the circuit of `p`. */
  ghost predicate NeverClosed(s: System, es: seq<Event>, settings: Settings, p: string)
    requires Runs(s, es, settings)
    decreases |es|
  {
    es == [] || (p in s.gates.breakers && !ClosedBy(s, es[0], settings, p) && NeverClosed(Apply(s, es[0], settings), es[1..], settings, p))
  }

  /** No failure is reported before `t`. */
  predicate FailuresFrom(es: seq<Event>, t: nat) {
    forall i :: 0 <= i < |es| && es[i].Fail? ==> es[i].now >= t
  }

  /** A failure that counts and reaches the threshold opens the circuit for the cooldown, whatever it was before. */
  predicate Opens(s: System, id: LeaseId, t: nat, settings: Settings, p: string) {
    && id in s.leases && s.leases[id].provider == p && Current(s.gates, s.leases[id])
    && CountFailure(s.gates.breakers[p]) >= settings.failureThreshold && t + settings.cooldown <= MAX_INSTANT
  }

  lemma StillOpen(s: System, e: Event, settings: Settings, p: string, t: nat)
    requires Can(s, e) && OpenAtLeast(s.gates, p, t + settings.cooldown) && !ClosedBy(s, e, settings, p)
    requires Linked(s) && (e.Fail? ==> e.now >= t)
    ensures OpenAtLeast(Apply(s, e, settings).gates, p, t + settings.cooldown)
  {
    StaysOpenStep(s, e, settings, p);
  }

  lemma {:induction false} StillOpenRun(s: System, es: seq<Event>, settings: Settings, p: string, t: nat)
    requires Linked(s) && Runs(s, es, settings) && NeverClosed(s, es, settings, p) && FailuresFrom(es, t)
    requires OpenAtLeast(s.gates, p, t + settings.cooldown)
    ensures OpenAtLeast(Final(s, es, settings).gates, p, t + settings.cooldown)
    decreases |es|
  {
    if es == [] {
    } else {
      LinkedStep(s, es[0], settings);
      StillOpen(s, es[0], settings, p, t);
      StillOpenRun(Apply(s, es[0], settings), es[1..], settings, p, t);
    }
  }

  /** The circuit of `p` opens until exactly `until`, as long as nobody reports another failure for it. */
  ghost predicate NoFailureOf(s: System, es: seq<Event>, settings: Settings, p: string)
    requires Runs(s, es, settings)
    decreases |es|
  {
    es == [] || (!(es[0].Fail? && s.leases[es[0].id].provider == p) && NoFailureOf(Apply(s, es[0], settings), es[1..], settings, p))
  }

  lemma SameOpening(s: System, e: Event, settings: Settings, p: string)
    requires Linked(s) && Can(s, e) && p in s.gates.breakers && s.gates.breakers[p].Open() && !ClosedBy(s, e, settings, p)
    requires !(e.Fail? && s.leases[e.id].provider == p)
    ensures var g := Apply(s, e, settings).gates;
      p in g.breakers && g.breakers[p].openUntil == s.gates.breakers[p].openUntil
  {
  }

  lemma {:induction false} SameOpeningRun(s: System, es: seq<Event>, settings: Settings, p: string)
    requires Linked(s) && Runs(s, es, settings) && NeverClosed(s, es, settings, p) && NoFailureOf(s, es, settings, p)
    requires p in s.gates.breakers && s.gates.breakers[p].Open()
    ensures var g := Final(s, es, settings).gates;
      p in g.breakers && g.breakers[p].openUntil == s.gates.breakers[p].openUntil
    decreases |es|
  {
    if es == [] {
    } else {
      LinkedStep(s, es[0], settings);
      SameOpening(s, es[0], settings, p);
      SameOpeningRun(Apply(s, es[0], settings), es[1..], settings, p);
    }
  }

  /** A request for `p` at time `now` obtains a lease. */
  predicate Admitted(s: System, id: LeaseId, p: string, now: nat, settings: Settings)
    requires id !in s.leases
  {
    id in Apply(s, Request(id, p, true, now), settings).leases
  }

  lemma AdmittedWhenOpen(s: System, id: LeaseId, p: string, now: nat, settings: Settings)
    requires id !in s.leases && p in s.gates.breakers && s.gates.breakers[p].Open()
    ensures var c := s.gates.breakers[p];
      Admitted(s, id, p, now, settings) <==> c.openUntil.value <= now && c.halfOpenProbe.None? && s.gates.nextProbeId < MAX_U64
    ensures Admitted(s, id, p, now, settings) ==>
      Owner(Apply(s, Request(id, p, true, now), settings), id)
    ensures !Admitted(s, id, p, now, settings) ==> Apply(s, Request(id, p, true, now), settings) == s
  {
  }

  /**
   After a failure at time `t` opened the circuit, every request before `t + cooldown` is refused and leaves no
   trace, until the circuit is closed or cleared.
   */
  lemma CooldownHolds(before: seq<Event>, id: LeaseId, t: nat, after: seq<Event>, settings: Settings, p: string, next: LeaseId, now: nat)
    requires Runs(START, before, settings) && Opens(Final(START, before, settings), id, t, settings, p)
    requires var s := Apply(Final(START, before, settings), Fail(id, t), settings);
      && Runs(s, after, settings) && NeverClosed(s, after, settings, p) && FailuresFrom(after, t)
      && next !in Final(s, after, settings).leases
    requires now < t + settings.cooldown
    ensures var f := Final(Apply(Final(START, before, settings), Fail(id, t), settings), after, settings);
      !Admitted(f, next, p, now, settings) && Apply(f, Request(next, p, true, now), settings) == f
  {
    LinkedRun(START, before, settings);
    var s := Final(START, before, settings);
    LinkedStep(s, Fail(id, t), settings);
    var s1 := Apply(s, Fail(id, t), settings);
    StillOpenRun(s1, after, settings, p, t);
    AdmittedWhenOpen(Final(s1, after, settings), next, p, now, settings);
  }

  /**
   Without another failure, a request at or after `t + cooldown` that finds the slot free is admitted as the probe,
   and no request is admitted otherwise.
   */
  lemma ProbeAfterCooldown(before: seq<Event>, id: LeaseId, t: nat, after: seq<Event>, settings: Settings, p: string, next: LeaseId, now: nat)
    requires Runs(START, before, settings) && Opens(Final(START, before, settings), id, t, settings, p)
    requires var s := Apply(Final(START, before, settings), Fail(id, t), settings);
      && Runs(s, after, settings) && NeverClosed(s, after, settings, p) && NoFailureOf(s, after, settings, p)
      && next !in Final(s, after, settings).leases && Final(s, after, settings).gates.nextProbeId < MAX_U64
    ensures var f := Final(Apply(Final(START, before, settings), Fail(id, t), settings), after, settings);
      && p in f.gates.breakers
      && (Admitted(f, next, p, now, settings) <==> t + settings.cooldown <= now && f.gates.breakers[p].halfOpenProbe.None?)
      && (Admitted(f, next, p, now, settings) ==> Owner(Apply(f, Request(next, p, true, now), settings), next))
  {
    LinkedRun(START, before, settings);
    var s := Final(START, before, settings);
    LinkedStep(s, Fail(id, t), settings);
    var s1 := Apply(s, Fail(id, t), settings);
    SameOpeningRun(s1, after, settings, p);
    AdmittedWhenOpen(Final(s1, after, settings), next, p, now, settings);
  }

  /** A closed circuit admits every request, and its lease speaks about that circuit. */
  lemma ClosedAdmitsAll(s: System, id: LeaseId, p: string, now: nat, settings: Settings)
    requires id !in s.leases && (p in s.gates.breakers ==> !s.gates.breakers[p].Open())
    requires p in s.gates.breakers || s.gates.nextGeneration < MAX_U64
    ensures Admitted(s, id, p, now, settings)
    ensures var s' := Apply(s, Request(id, p, true, now), settings);
      s'.leases[id].provider == p && Current(s'.gates, s'.leases[id]) && s'.leases[id].probeId.None?
  {
  }

  // ----- leases of an older generation ---------------------------------------

  /** The lease is gone or speaks about a circuit its provider no longer has. */
  predicate Stale(s: System, id: LeaseId) {
    id in s.leases ==> !Current(s.gates, s.leases[id])
  }

  /** The event is a report or the end of lease `id`. */
  predicate By(e: Event, id: LeaseId) {
    (e.Succeed? || e.Fail? || e.Abort? || e.Drop?) && e.id == id
  }

  /** Lease `id` is not issued again. */
  predicate NotReissued(es: seq<Event>, id: LeaseId) {
    forall i :: 0 <= i < |es| ==> !(es[i].Request? && es[i].id == id)
  }

  /** New circuits have new generations, so a lease that is not current never becomes current. */
  lemma StaleStep(s: System, e: Event, settings: Settings, id: LeaseId)
    requires IdsFresh(s) && Can(s, e) && Stale(s, id) && !(e.Request? && e.id == id)
    ensures Stale(Apply(s, e, settings), id)
  {
    if !e.Request? {
      ReportFrame(s, e, settings);
    }
  }

  /** However often the provider is cleared and admitted again, a stale lease stays stale. */
  lemma {:induction false} StaleLeaseStaysStale(s: System, es: seq<Event>, settings: Settings, id: LeaseId)
    requires Linked(s) && Runs(s, es, settings) && Stale(s, id) && NotReissued(es, id)
    ensures Stale(Final(s, es, settings), id)
    decreases |es|
  {
    if es == [] {
    } else {
      LinkedStep(s, es[0], settings);
      StaleStep(s, es[0], settings, id);
      StaleLeaseStaysStale(Apply(s, es[0], settings), es[1..], settings, id);
    }
  }

  /** The run without anything lease `id` does. */
  function Without(es: seq<Event>, id: LeaseId): seq<Event> {
    if es == [] then []
    else if By(es[0], id) then Without(es[1..], id)
    else [es[0]] + Without(es[1..], id)
  }

  /** The two systems differ at most in lease `id`. */
  ghost predicate SameBut(s: System, t: System, id: LeaseId) {
    s.gates == t.gates && forall j :: j != id ==> SameLease(s, t, j)
  }

  predicate SameLease(s: System, t: System, j: LeaseId) {
    (j in s.leases <==> j in t.leases) && (j in s.leases ==> s.leases[j] == t.leases[j])
  }

  /** What a stale lease does is not seen by anyone else. */
  lemma StaleStepUnseen(s: System, t: System, e: Event, settings: Settings, id: LeaseId)
    requires SameBut(s, t, id) && Stale(s, id) && Can(s, e) && By(e, id)
    ensures SameBut(Apply(s, e, settings), t, id)
  {
    forall j | j != id ensures SameLease(Apply(s, e, settings), t, j) {
      assert SameLease(s, t, j);
    }
  }

  lemma OtherStepSame(s: System, t: System, e: Event, settings: Settings, id: LeaseId)
    requires SameBut(s, t, id) && id in t.leases && Can(s, e) && !By(e, id) && !(e.Request? && e.id == id)
    ensures Can(t, e) && SameBut(Apply(s, e, settings), Apply(t, e, settings), id) && id in Apply(t, e, settings).leases
  {
    assert e.ClearOne? || e.ClearAll? || SameLease(s, t, e.id);
    forall j | j != id ensures SameLease(Apply(s, e, settings), Apply(t, e, settings), j) {
      assert SameLease(s, t, j);
    }
  }

  lemma {:induction false} StaleRunUnseen(s: System, t: System, es: seq<Event>, settings: Settings, id: LeaseId)
    requires Linked(s) && Runs(s, es, settings) && Stale(s, id) && NotReissued(es, id) && SameBut(s, t, id) && id in t.leases
    ensures Runs(t, Without(es, id), settings)
    ensures Final(t, Without(es, id), settings).gates == Final(s, es, settings).gates
    decreases |es|
  {
    if es == [] {
    } else {
      var e, s' := es[0], Apply(s, es[0], settings);
      LinkedStep(s, e, settings);
      StaleStep(s, e, settings, id);
      if By(e, id) {
        StaleStepUnseen(s, t, e, settings, id);
        StaleRunUnseen(s', t, es[1..], settings, id);
      } else {
        OtherStepSame(s, t, e, settings, id);
        StaleRunUnseen(s', Apply(t, e, settings), es[1..], settings, id);
        assert ([e] + Without(es[1..], id))[1..] == Without(es[1..], id);
      }
    }
  }

  /**
   Once a lease is not current, everything it reports over the rest of any run changes nothing: the shared
   state ends as if those reports had not been made.
   */
  lemma StaleLeaseChangesNothing(before: seq<Event>, es: seq<Event>, settings: Settings, id: LeaseId)
    requires Runs(START, before, settings) && Runs(Final(START, before, settings), es, settings)
    requires var s := Final(START, before, settings); id in s.leases && !Current(s.gates, s.leases[id])
    requires NotReissued(es, id)
    ensures var s := Final(START, before, settings);
      && Stale(Final(s, es, settings), id)
      && Runs(s, Without(es, id), settings)
      && Final(s, Without(es, id), settings).gates == Final(s, es, settings).gates
  {
    LinkedRun(START, before, settings);
    var s := Final(START, before, settings);
    StaleLeaseStaysStale(s, es, settings, id);
    StaleRunUnseen(s, s, es, settings, id);
  }
}

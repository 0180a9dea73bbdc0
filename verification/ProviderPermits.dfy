/**
 Per-provider concurrency permits, `src/state/runtime_gates.rs`.

 `try_provider_permit` first prunes and reads the semaphore map under its lock and later acquires
 on the semaphore it found, so a call spans two steps and other calls run in between. A dropped
 permit gives its slot back before it gives up its reference. All semaphores share one limit;
 the acquire step is `try_acquire_owned`, whose own interleavings are the subject of `Semaphore`.
 */
module ProviderPermits {
  import opened Collections

  const MAX_TRACKED_PROVIDER_SEMAPHORES: nat := 256

  datatype ProviderId = ProviderId(name: string)

  type SemId = nat
  type CallId = nat

  datatype Stage = Mapped | Holding | Releasing

  /** A call that holds a reference to semaphore `sem`, obtained for `provider`. */
  datatype Call = Call(provider: ProviderId, sem: SemId, stage: Stage)

  /** `tracked` is the map behind the lock, `active` the counters of all semaphores ever made. */
  datatype State = State(
    tracked: map<ProviderId, SemId>,
    active: map<SemId, nat>,
    calls: map<CallId, Call>,
    nextCall: CallId,
    nextSem: SemId)

  datatype Event =
    | Lookup(provider: ProviderId)
    | Acquire(call: CallId)
    | Release(call: CallId)
    | Forget(call: CallId)
    | Clear(provider: ProviderId)

  const START := State(map[], map[], map[], 0, 0)

  /** Someone besides the map references the semaphore, or it has permits outstanding. */
  predicate Live(s: State, sem: SemId) {
    (exists c :: c in s.calls && s.calls[c].sem == sem) || (sem in s.active && s.active[sem] > 0)
  }

  function Pruned(s: State): map<ProviderId, SemId> {
    map p | p in s.tracked && Live(s, s.tracked[p]) :: s.tracked[p]
  }

  predicate Can(s: State, e: Event) {
    match e
    case Lookup(_) => true
    case Acquire(c) => c in s.calls && s.calls[c].stage == Mapped && s.calls[c].sem in s.active
    case Release(c) => c in s.calls && s.calls[c].stage == Holding && s.calls[c].sem in s.active
    case Forget(c) => c in s.calls && s.calls[c].stage == Releasing
    case Clear(_) => true
  }

  function Apply(s: State, e: Event, limit: nat): State
    requires Can(s, e)
  {
    match e
    case Lookup(p) =>
      var kept := Pruned(s);
      if p in kept then
        s.(tracked := kept, calls := s.calls[s.nextCall := Call(p, kept[p], Mapped)], nextCall := s.nextCall + 1)
      else if |kept| >= MAX_TRACKED_PROVIDER_SEMAPHORES then
        s.(tracked := kept)
      else
        var sem := s.nextSem;
        State(kept[p := sem], s.active[sem := 0], s.calls[s.nextCall := Call(p, sem, Mapped)], s.nextCall + 1, sem + 1)
    case Acquire(c) =>
      var call := s.calls[c];
      if limit != 0 && s.active[call.sem] >= limit then s.(calls := s.calls - {c})
      else s.(active := s.active[call.sem := s.active[call.sem] + 1], calls := s.calls[c := call.(stage := Holding)])
    case Release(c) =>
      var call := s.calls[c];
      s.(active := s.active[call.sem := if s.active[call.sem] == 0 then 0 else s.active[call.sem] - 1],
         calls := s.calls[c := call.(stage := Releasing)])
    case Forget(c) => s.(calls := s.calls - {c})
    case Clear(p) =>
      if p in s.tracked && !Live(s, s.tracked[p]) then s.(tracked := s.tracked - {p}) else s
  }

  /** `clear_restored_provider_runtime_state` keeps a semaphore only for its outstanding permits. */
  function Restore(s: State): State {
    s.(tracked := map p | p in s.tracked && s.tracked[p] in s.active && s.active[s.tracked[p]] > 0 :: s.tracked[p])
  }

  predicate Runs(s: State, es: seq<Event>, limit: nat)
    decreases |es|
  {
    es == [] || (Can(s, es[0]) && Runs(Apply(s, es[0], limit), es[1..], limit))
  }

  function Final(s: State, es: seq<Event>, limit: nat): State
    requires Runs(s, es, limit)
    decreases |es|
  {
    if es == [] then s else Final(Apply(s, es[0], limit), es[1..], limit)
  }

  // ----- counting ----------------------------------------------------------

  ghost function HeldOn(sem: SemId): Call -> nat {
    (c: Call) => if c.stage == Holding && c.sem == sem then 1 else 0
  }

  ghost function HeldFor(p: ProviderId): Call -> nat {
    (c: Call) => if c.stage == Holding && c.provider == p then 1 else 0
  }

  /** Permits outstanding for provider `p`, on whatever semaphore. */
  ghost function Permits(s: State, p: ProviderId): nat {
    Total(s.calls, HeldFor(p))
  }

  // ----- invariant -----------------------------------------------------------

  /** Ids are handed out in order, so the next ones are unused. */
  predicate IdsFresh(s: State) {
    && (forall sem :: sem in s.active ==> sem < s.nextSem)
    && (forall c :: c in s.calls ==> c < s.nextCall && s.calls[c].sem in s.active)
    && (forall p :: p in s.tracked ==> s.tracked[p] in s.active)
  }

  /** A call that has, or may still get, a permit uses the semaphore the map names. */
  predicate Attached(s: State) {
    && (forall c :: c in s.calls && s.calls[c].stage != Releasing ==>
          s.calls[c].provider in s.tracked && s.tracked[s.calls[c].provider] == s.calls[c].sem)
    && (forall p, q :: p in s.tracked && q in s.tracked && s.tracked[p] == s.tracked[q] ==> p == q)
  }

  ghost predicate Counted(s: State, limit: nat) {
    forall sem :: sem in s.active ==>
      s.active[sem] == Total(s.calls, HeldOn(sem)) && (limit != 0 ==> s.active[sem] <= limit)
  }

  ghost predicate Inv(s: State, limit: nat) {
    IdsFresh(s) && Attached(s) && Counted(s, limit) && |s.tracked| <= MAX_TRACKED_PROVIDER_SEMAPHORES
  }

  lemma PrunedSmaller(s: State)
    ensures |Pruned(s)| <= |s.tracked|
  {
    SubsetSize(Pruned(s).Keys, s.tracked.Keys);
  }

  lemma CountedPut(s: State, c: CallId, call: Call, sem: SemId)
    ensures Total(s.calls[c := call], HeldOn(sem)) + (if c in s.calls then HeldOn(sem)(s.calls[c]) else 0)
         == Total(s.calls, HeldOn(sem)) + HeldOn(sem)(call)
  {
    TotalUpdate(s.calls, HeldOn(sem), c, call);
  }

  lemma CountedRemove(s: State, c: CallId, sem: SemId)
    requires c in s.calls
    ensures Total(s.calls - {c}, HeldOn(sem)) + HeldOn(sem)(s.calls[c]) == Total(s.calls, HeldOn(sem))
  {
    TotalSplit(s.calls, HeldOn(sem), c);
  }

  lemma {:induction false} NothingHeld(calls: map<CallId, Call>, sem: SemId)
    requires forall c :: c in calls ==> calls[c].sem != sem
    ensures Total(calls, HeldOn(sem)) == 0
  {
    if Total(calls, HeldOn(sem)) > 0 {
      var c := TotalWitness(calls, HeldOn(sem));
      assert false;
    }
  }

  lemma LookupIds(s: State, p: ProviderId, limit: nat)
    requires IdsFresh(s)
    ensures IdsFresh(Apply(s, Lookup(p), limit))
  {
  }

  lemma LookupAttached(s: State, p: ProviderId, limit: nat)
    requires IdsFresh(s) && Attached(s)
    ensures Attached(Apply(s, Lookup(p), limit))
  {
    var s' := Apply(s, Lookup(p), limit);
    forall c | c in s'.calls && s'.calls[c].stage != Releasing
      ensures s'.calls[c].provider in s'.tracked && s'.tracked[s'.calls[c].provider] == s'.calls[c].sem
    {
      if c in s.calls && c != s.nextCall {
        assert Live(s, s.calls[c].sem);
        assert s.calls[c].provider in Pruned(s);
      }
    }
  }

  lemma OneMore(m: map<ProviderId, SemId>, p: ProviderId, sem: SemId)
    ensures |m[p := sem]| <= |m| + 1
  {
    assert m[p := sem].Keys == m.Keys + {p};
  }

  lemma LookupSize(s: State, p: ProviderId, limit: nat)
    requires |s.tracked| <= MAX_TRACKED_PROVIDER_SEMAPHORES
    ensures |Apply(s, Lookup(p), limit).tracked| <= MAX_TRACKED_PROVIDER_SEMAPHORES
  {
    PrunedSmaller(s);
    OneMore(Pruned(s), p, s.nextSem);
  }

  /** A call that holds nothing yet does not count. */
  lemma MappedCountsNothing(s: State, p: ProviderId, sem: SemId, t: SemId)
    requires s.nextCall !in s.calls
    ensures Total(s.calls[s.nextCall := Call(p, sem, Mapped)], HeldOn(t)) == Total(s.calls, HeldOn(t))
  {
    CountedPut(s, s.nextCall, Call(p, sem, Mapped), t);
  }

  lemma LookupCounts(s: State, p: ProviderId, limit: nat)
    requires IdsFresh(s) && Counted(s, limit)
    ensures Counted(Apply(s, Lookup(p), limit), limit)
  {
    var kept := Pruned(s);
    var sem := if p in kept then kept[p] else s.nextSem;
    NothingHeld(s.calls, s.nextSem);
    forall t: SemId ensures Total(s.calls[s.nextCall := Call(p, sem, Mapped)], HeldOn(t)) == Total(s.calls, HeldOn(t)) {
      MappedCountsNothing(s, p, sem, t);
    }
  }

  lemma CallFrame(s: State, e: Event, limit: nat)
    requires IdsFresh(s) && Attached(s) && Can(s, e) && (e.Acquire? || e.Release? || e.Forget?)
    ensures IdsFresh(Apply(s, e, limit)) && Attached(Apply(s, e, limit))
    ensures Apply(s, e, limit).tracked == s.tracked
  {
    assert Apply(s, e, limit).active.Keys == s.active.Keys;
  }

  lemma CallCounts(s: State, e: Event, limit: nat)
    requires Counted(s, limit) && Can(s, e) && (e.Acquire? || e.Release? || e.Forget?)
    ensures Counted(Apply(s, e, limit), limit)
    ensures e.Release? ==> s.active[s.calls[e.call].sem] > 0
  {
    var s' := Apply(s, e, limit);
    var call := s.calls[e.call];
    if e.Release? {
      TotalMember(s.calls, HeldOn(call.sem), e.call);
    }
    forall sem | sem in s'.active
      ensures s'.active[sem] == Total(s'.calls, HeldOn(sem)) && (limit != 0 ==> s'.active[sem] <= limit)
    {
      if e.call in s'.calls {
        CountedPut(s, e.call, s'.calls[e.call], sem);
      } else {
        CountedRemove(s, e.call, sem);
      }
    }
  }

  lemma ClearStep(s: State, p: ProviderId, limit: nat)
    requires Inv(s, limit)
    ensures Inv(Apply(s, Clear(p), limit), limit)
  {
    SubsetSize(Apply(s, Clear(p), limit).tracked.Keys, s.tracked.Keys);
    assert forall c :: c in s.calls ==> Live(s, s.calls[c].sem);
  }

  lemma InvStep(s: State, e: Event, limit: nat)
    requires Inv(s, limit) && Can(s, e)
    ensures Inv(Apply(s, e, limit), limit)
  {
    match e
    case Lookup(p) =>
      LookupIds(s, p, limit);
      LookupAttached(s, p, limit);
      LookupSize(s, p, limit);
      LookupCounts(s, p, limit);
    case Clear(p) => ClearStep(s, p, limit);
    case _ =>
      CallFrame(s, e, limit);
      CallCounts(s, e, limit);
  }

  lemma {:induction false} InvRun(s: State, es: seq<Event>, limit: nat)
    requires Inv(s, limit) && Runs(s, es, limit)
    ensures Inv(Final(s, es, limit), limit)
    decreases |es|
  {
    if es == [] {
    } else {
      InvStep(s, es[0], limit);
      InvRun(Apply(s, es[0], limit), es[1..], limit);
    }
  }

  lemma PermitsWithinLimit(s: State, limit: nat, p: ProviderId)
    requires Inv(s, limit) && limit != 0
    ensures Permits(s, p) <= limit
  {
    if p in s.tracked {
      TotalMonotone(s.calls, HeldFor(p), s.calls, HeldOn(s.tracked[p]));
    } else if Permits(s, p) > 0 {
      var c := TotalWitness(s.calls, HeldFor(p));
      assert false;
    }
  }

  /**
   Pruning never separates the callers of one provider: in every run the permits of a provider
   all sit on the tracked semaphore and stay within the shared limit, and at most 256
   semaphores are tracked.
   */
  lemma ProviderPermitsBounded(es: seq<Event>, limit: nat, p: ProviderId)
    requires limit != 0 && Runs(START, es, limit)
    ensures Permits(Final(START, es, limit), p) <= limit
    ensures |Final(START, es, limit).tracked| <= MAX_TRACKED_PROVIDER_SEMAPHORES
    ensures forall c :: c in Final(START, es, limit).calls && Final(START, es, limit).calls[c].stage == Holding ==>
              var s := Final(START, es, limit);
              s.calls[c].provider in s.tracked && s.tracked[s.calls[c].provider] == s.calls[c].sem
  {
    InvRun(START, es, limit);
    PermitsWithinLimit(Final(START, es, limit), limit, p);
  }

  // ----- restoring a backup --------------------------------------------------

  /** A call between its two steps whose semaphore has no permit outstanding. */
  predicate Stranded(s: State, c: CallId) {
    c in s.calls && s.calls[c].stage == Mapped && s.calls[c].sem in s.active && s.active[s.calls[c].sem] == 0
  }

  lemma RestoreKeepsInv(s: State, limit: nat)
    requires Inv(s, limit) && forall c :: !Stranded(s, c)
    ensures Inv(Restore(s), limit)
  {
    SubsetSize(Restore(s).tracked.Keys, s.tracked.Keys);
    forall c | c in s.calls && s.calls[c].stage != Releasing
      ensures s.active[s.calls[c].sem] > 0
    {
      assert !Stranded(s, c);
      if s.calls[c].stage == Holding {
        TotalMember(s.calls, HeldOn(s.calls[c].sem), c);
      }
    }
  }

  lemma {:induction false} RunsConcat(s: State, es: seq<Event>, fs: seq<Event>, limit: nat)
    requires Runs(s, es, limit) && Runs(Final(s, es, limit), fs, limit)
    ensures Runs(s, es + fs, limit) && Final(s, es + fs, limit) == Final(Final(s, es, limit), fs, limit)
    decreases |es|
  {
    if es == [] {
      assert es + fs == fs;
    } else {
      assert (es + fs)[0] == es[0] && (es + fs)[1..] == es[1..] + fs;
      RunsConcat(Apply(s, es[0], limit), es[1..], fs, limit);
    }
  }

  /** The counters agree with the calls, whatever the map names. */
  ghost predicate Sound(s: State) {
    IdsFresh(s) && forall sem :: sem in s.active ==> s.active[sem] == Total(s.calls, HeldOn(sem))
  }

  /** A lookup that finds or makes semaphore `sem` for `p`, followed by a successful acquire. */
  lemma TakePermit(s: State, p: ProviderId, sem: SemId, limit: nat) returns (es: seq<Event>, f: State)
    requires Sound(s)
    requires if p in s.tracked then s.tracked[p] == sem && 0 < s.active[sem] < limit
             else sem == s.nextSem && |s.tracked| < MAX_TRACKED_PROVIDER_SEMAPHORES && limit != 0
    ensures Runs(s, es, limit) && f == Final(s, es, limit)
    ensures p in f.tracked && f.tracked[p] == sem && f.nextCall == s.nextCall + 1
    ensures f.nextSem == (if sem in s.active then s.nextSem else sem + 1)
    ensures f.active == s.active[sem := if sem in s.active then s.active[sem] + 1 else 1]
    ensures f.calls == s.calls[s.nextCall := Call(p, sem, Holding)]
    ensures forall q :: q in f.tracked ==> f.tracked[q] in f.active
  {
    var c := s.nextCall;
    var s1 := LookupFinds(s, p, sem, limit);
    f := AcquireGrants(s1, c, limit);
    es := [Lookup(p), Acquire(c)];
    RunsTwo(s, Lookup(p), s1, Acquire(c), f, limit);
    assert f.calls == s.calls[c := Call(p, sem, Holding)];
  }

  /** The acquire step of a call that finds a free slot. */
  lemma AcquireGrants(s: State, c: CallId, limit: nat) returns (f: State)
    requires Can(s, Acquire(c)) && s.active[s.calls[c].sem] < limit
    ensures f == Apply(s, Acquire(c), limit)
    ensures f == s.(active := s.active[s.calls[c].sem := s.active[s.calls[c].sem] + 1],
                    calls := s.calls[c := s.calls[c].(stage := Holding)])
  {
    f := Apply(s, Acquire(c), limit);
  }

  lemma RunsTwo(s: State, d: Event, s1: State, e: Event, f: State, limit: nat)
    requires Can(s, d) && s1 == Apply(s, d, limit) && Can(s1, e) && f == Apply(s1, e, limit)
    ensures Runs(s, [d, e], limit) && Final(s, [d, e], limit) == f
  {
    assert [d, e][1..] == [e] && [e][1..] == [];
    assert Runs(f, [], limit) && Runs(s1, [e], limit);
    assert Final(s1, [e], limit) == Final(f, [], limit);
  }

  /** The map step of a call that will find or make `sem`. */
  lemma LookupFinds(s: State, p: ProviderId, sem: SemId, limit: nat) returns (s1: State)
    requires Sound(s)
    requires if p in s.tracked then s.tracked[p] == sem && 0 < s.active[sem] < limit
             else sem == s.nextSem && |s.tracked| < MAX_TRACKED_PROVIDER_SEMAPHORES && limit != 0
    ensures s1 == Apply(s, Lookup(p), limit) && p in s1.tracked && s1.tracked[p] == sem
    ensures s1.calls == s.calls[s.nextCall := Call(p, sem, Mapped)] && s1.nextCall == s.nextCall + 1
    ensures s1.active == (if sem in s.active then s.active else s.active[sem := 0])
    ensures s1.nextSem == (if sem in s.active then s.nextSem else sem + 1)
    ensures forall q :: q in s1.tracked ==> s1.tracked[q] in s1.active
  {
    PrunedSmaller(s);
    s1 := Apply(s, Lookup(p), limit);
    if p in s.tracked {
      assert Live(s, sem) && Pruned(s)[p] == sem;
    }
  }

  lemma TakeKeepsSound(s: State, f: State, c: CallId, call: Call)
    requires Sound(s) && call.stage == Holding && c == s.nextCall < f.nextCall && s.nextSem <= f.nextSem
    requires f.active == s.active[call.sem := if call.sem in s.active then s.active[call.sem] + 1 else 1]
    requires f.calls == s.calls[c := call] && (call.sem in s.active || s.nextSem == call.sem < f.nextSem)
    requires forall p :: p in f.tracked ==> f.tracked[p] in f.active
    ensures Sound(f)
  {
    assert forall t :: t in f.active ==> t < f.nextSem;
    if call.sem !in s.active {
      NothingHeld(s.calls, call.sem);
    }
    forall t | t in f.active ensures f.active[t] == Total(f.calls, HeldOn(t)) {
      CountedPut(s, c, call, t);
    }
  }

  /** Calls and foreign counters of `s` are still there in `f`. */
  predicate Extends(s: State, f: State, sem: SemId) {
    && (forall c :: c in s.calls ==> c in f.calls && f.calls[c] == s.calls[c])
    && (forall t :: t in s.active && t != sem ==> t in f.active && f.active[t] == s.active[t])
  }

  lemma TakeEffect(s: State, f: State, p: ProviderId, sem: SemId)
    requires IdsFresh(s) && f.calls == s.calls[s.nextCall := Call(p, sem, Holding)]
    requires f.active == s.active[sem := if sem in s.active then s.active[sem] + 1 else 1]
    ensures Permits(f, p) == Permits(s, p) + 1 && Extends(s, f, sem)
  {
    TotalUpdate(s.calls, HeldFor(p), s.nextCall, Call(p, sem, Holding));
  }

  /** What taking one permit does to the counts of its provider. */
  lemma TakeOne(s: State, p: ProviderId, sem: SemId, limit: nat) returns (es: seq<Event>, f: State)
    requires Sound(s)
    requires if p in s.tracked then s.tracked[p] == sem && 0 < s.active[sem] < limit
             else sem == s.nextSem && |s.tracked| < MAX_TRACKED_PROVIDER_SEMAPHORES && limit != 0
    ensures Runs(s, es, limit) && f == Final(s, es, limit)
    ensures Sound(f) && p in f.tracked && f.tracked[p] == sem && sem in f.active
    ensures f.active[sem] == (if sem in s.active then s.active[sem] + 1 else 1)
    ensures Permits(f, p) == Permits(s, p) + 1 && Extends(s, f, sem)
  {
    es, f := TakePermit(s, p, sem, limit);
    TakeKeepsSound(s, f, s.nextCall, Call(p, sem, Holding));
    TakeEffect(s, f, p, sem);
  }

  lemma ExtendsTransitive(s: State, f: State, g: State, sem: SemId)
    requires Extends(s, f, sem) && Extends(f, g, sem)
    ensures Extends(s, g, sem)
  {
  }

  lemma {:induction false} FillUp(s: State, p: ProviderId, sem: SemId, limit: nat) returns (es: seq<Event>, f: State)
    requires Sound(s) && p in s.tracked && s.tracked[p] == sem && 0 < s.active[sem] <= limit
    ensures Runs(s, es, limit) && f == Final(s, es, limit)
    ensures Permits(f, p) == Permits(s, p) + limit - s.active[sem] && Extends(s, f, sem)
    decreases limit - s.active[sem]
  {
    if s.active[sem] == limit {
      es, f := [], s;
    } else {
      var one, next := TakeOne(s, p, sem, limit);
      var rest;
      rest, f := FillUp(next, p, sem, limit);
      RunsConcat(s, one, rest, limit);
      ExtendsTransitive(s, next, f, sem);
      es := one + rest;
    }
  }

  /** The restore forgets the semaphore of a stranded call and keeps all counters. */
  lemma RestoreDrops(s: State, c: CallId, limit: nat)
    requires Inv(s, limit) && Stranded(s, c)
    ensures Sound(Restore(s)) && Stranded(Restore(s), c)
    ensures s.calls[c].provider !in Restore(s).tracked && |Restore(s).tracked| < MAX_TRACKED_PROVIDER_SEMAPHORES
  {
    var r := Restore(s);
    var p := s.calls[c].provider;
    assert p in s.tracked && p !in r.tracked;
    SubsetSize(r.tracked.Keys, s.tracked.Keys - {p});
  }

  /** A stranded call lets its provider exceed the limit by one permit. */
  lemma StrandedOvershoots(s: State, c: CallId, limit: nat) returns (es: seq<Event>)
    requires Inv(s, limit) && limit != 0 && Stranded(s, c)
    ensures Runs(Restore(s), es, limit)
    ensures Permits(Final(Restore(s), es, limit), s.calls[c].provider) > limit
  {
    RestoreDrops(s, c, limit);
    var fill, g := FillNew(Restore(s), s.calls[c].provider, limit);
    LateAcquire(g, c, limit);
    RunsConcat(Restore(s), fill, [Acquire(c)], limit);
    es := fill + [Acquire(c)];
  }

  /** It happens: a first call that has only looked up its semaphore is stranded by a restore. */
  lemma RestoreCanOvershoot(p: ProviderId, limit: nat) returns (before: seq<Event>, after: seq<Event>)
    requires limit != 0
    ensures Runs(START, before, limit)
    ensures Runs(Restore(Final(START, before, limit)), after, limit)
    ensures Permits(Final(Restore(Final(START, before, limit)), after, limit), p) > limit
  {
    before := [Lookup(p)];
    assert before[1..] == [];
    var s := Apply(START, Lookup(p), limit);
    assert Runs(s, [], limit) && Final(START, before, limit) == Final(s, [], limit) == s;
    assert Pruned(START) == map[];
    assert s.calls == map[0 := Call(p, 0, Mapped)] && s.active == map[0 := 0];
    InvRun(START, before, limit);
    after := StrandedOvershoots(s, 0, limit);
  }

  /** Calls that come after the restore take all `limit` permits of a new semaphore. */
  lemma FillNew(r: State, p: ProviderId, limit: nat) returns (es: seq<Event>, g: State)
    requires Sound(r) && p !in r.tracked && |r.tracked| < MAX_TRACKED_PROVIDER_SEMAPHORES && limit != 0
    ensures Runs(r, es, limit) && g == Final(r, es, limit)
    ensures Permits(g, p) >= limit && Extends(r, g, r.nextSem)
  {
    var first, f := TakeOne(r, p, r.nextSem, limit);
    var fill;
    fill, g := FillUp(f, p, r.nextSem, limit);
    ExtendsTransitive(r, f, g, r.nextSem);
    RunsConcat(r, first, fill, limit);
    es := first + fill;
  }

  /** The late call still acquires on the semaphore it found before. */
  lemma LateAcquire(g: State, c: CallId, limit: nat)
    requires limit != 0 && Stranded(g, c)
    ensures Runs(g, [Acquire(c)], limit)
    ensures Permits(Final(g, [Acquire(c)], limit), g.calls[c].provider) == Permits(g, g.calls[c].provider) + 1
  {
    var last := Apply(g, Acquire(c), limit);
    assert Runs(last, [], limit) && [Acquire(c)][1..] == [];
    TotalUpdate(g.calls, HeldFor(g.calls[c].provider), c, last.calls[c]);
  }

  /**
   Restoring a backup keeps the provider limits in every continuation exactly when no call is
   stranded between its map step and its acquire step at that moment.
   */
  lemma RestoreKeepsLimitIff(s: State, limit: nat)
    requires Inv(s, limit) && limit != 0
    ensures (forall es, p :: Runs(Restore(s), es, limit) ==> Permits(Final(Restore(s), es, limit), p) <= limit)
            <==> (forall c :: !Stranded(s, c))
  {
    if c :| Stranded(s, c) {
      var es := StrandedOvershoots(s, c, limit);
    } else {
      RestoreKeepsInv(s, limit);
      forall es, p | Runs(Restore(s), es, limit) ensures Permits(Final(Restore(s), es, limit), p) <= limit {
        InvRun(Restore(s), es, limit);
        PermitsWithinLimit(Final(Restore(s), es, limit), limit, p);
      }
    }
  }
}

/**
 The epoch-guarded quota cache of `src/state/provider_usage.rs`.

 A refresh reads an epoch token, works for a while, and then inserts its result; an invalidation
 advances the epoch and then clears the cache. The atomics are read outside the cache lock too,
 so every load, store and lock acquisition is a step of its own and any number of refreshes,
 invalidations and reads interleave.

 `bumps` counts the invalidations that have begun (advanced the epoch, or found it exhausted).
 A token and the entry made from it carry the value of `bumps` at the moment the token was read.
 */
module ProviderUsage {
  import opened Collections

  const MAX_PROVIDER_USAGE_CACHE_ENTRIES: nat := 512
  const PROVIDER_USAGE_CACHE_MAX_AGE: nat := 30 * 60 * 1_000_000_000

  type CallId = nat

  datatype Entry = Entry(lastAttemptAt: nat, stamp: nat)

  datatype Token = Token(epoch: nat, stamp: nat)

  datatype Stage =
    | ReadingFlag                            // epoch(): about to load `disabled`
    | ReadingEpoch                           // epoch(): about to load `epoch`
    | Refreshing(token: Token)               // token in hand, insert not called yet
    | FirstFlag(token: Token, at: nat)       // insert(): first check, loading `disabled`
    | FirstEpoch(token: Token, at: nat)      // insert(): first check, loading `epoch`
    | AwaitingLock(token: Token, at: nat)    // insert(): waiting for the cache lock
    | SecondFlag(token: Token, at: nat)      // insert(): lock held, loading `disabled`
    | SecondEpoch(token: Token, at: nat)     // insert(): lock held, loading `epoch`
    | Writing(token: Token, at: nat)         // insert(): lock held, both checks passed
    | Bumping                                // invalidate(): about to advance the epoch
    | Disabling(n: nat)                      // invalidate(): epoch exhausted, about to set `disabled`
    | Clearing(n: nat)                       // invalidate(): waiting for the lock to clear
    | Invalidated(n: nat)                    // invalidate() returned; it was invalidation number n
    | Finished

  datatype Call = Call(credential: string, stage: Stage)

  /** `cleared` is the highest invalidation number whose clear has been carried out. */
  datatype State = State(
    epoch: nat, disabled: bool, cache: map<string, Entry>, holder: Option<CallId>,
    calls: map<CallId, Call>, bumps: nat, cleared: nat)

  datatype Event =
    | StartRefresh(id: CallId, credential: string)
    | StartInvalidate(id: CallId)
    | Insert(id: CallId, at: nat)                // the refresh calls insert() with an entry of time `at`
    | Step(id: CallId)                           // the next load or store of the call
    | Lock(id: CallId)
    | Write(id: CallId, now: nat, victim: string)
    | Clear(id: CallId)
    | Cancel(id: CallId)
    | Cached(now: nat)                           // cached() drops aged entries before it looks up

  const START := State(1, false, map[], None, map[], 0, 0)

  predicate Fresh(e: Entry, now: nat) {
    now - e.lastAttemptAt <= PROVIDER_USAGE_CACHE_MAX_AGE
  }

  function Retained(cache: map<string, Entry>, now: nat): map<string, Entry> {
    map c | c in cache && Fresh(cache[c], now) :: cache[c]
  }

  /** `min_by_key`: some entry no younger than any other. */
  predicate Oldest(cache: map<string, Entry>, victim: string) {
    victim in cache && forall c :: c in cache ==> cache[victim].lastAttemptAt <= cache[c].lastAttemptAt
  }

  predicate NeedsVictim(kept: map<string, Entry>, credential: string) {
    credential !in kept && |kept| >= MAX_PROVIDER_USAGE_CACHE_ENTRIES
  }

  function Stored(cache: map<string, Entry>, credential: string, e: Entry, now: nat, victim: string): map<string, Entry> {
    var kept := Retained(cache, now);
    (if NeedsVictim(kept, credential) then kept - {victim} else kept)[credential := e]
  }

  predicate At(s: State, id: CallId, stage: Stage) {
    id in s.calls && s.calls[id].stage == stage
  }

  predicate CanStep(stage: Stage) {
    stage.ReadingFlag? || stage.ReadingEpoch? || stage.FirstFlag? || stage.FirstEpoch?
    || stage.SecondFlag? || stage.SecondEpoch? || stage.Bumping? || stage.Disabling?
  }

  predicate Can(s: State, e: Event) {
    match e
    case StartRefresh(id, _) => id !in s.calls
    case StartInvalidate(id) => id !in s.calls
    case Insert(id, _) => id in s.calls && s.calls[id].stage.Refreshing?
    case Step(id) => id in s.calls && CanStep(s.calls[id].stage)
    case Lock(id) => id in s.calls && s.calls[id].stage.AwaitingLock? && s.holder.None?
    case Write(id, now, victim) =>
      id in s.calls && s.calls[id].stage.Writing?
      && (NeedsVictim(Retained(s.cache, now), s.calls[id].credential) ==> Oldest(Retained(s.cache, now), victim))
    case Clear(id) => id in s.calls && s.calls[id].stage.Clearing? && s.holder.None?
    case Cancel(id) =>
      id in s.calls && (s.calls[id].stage.Refreshing? || s.calls[id].stage.AwaitingLock? || s.calls[id].stage.Clearing?)
    case Cached(_) => s.holder.None?
  }

  function Goto(s: State, id: CallId, stage: Stage): State
    requires id in s.calls
  {
    s.(calls := s.calls[id := s.calls[id].(stage := stage)])
  }

  /** An insert that gives up while holding the lock lets it go. */
  function GiveUp(s: State, id: CallId): State
    requires id in s.calls
  {
    Goto(s, id, Finished).(holder := None)
  }

  function ApplyStep(s: State, id: CallId): State
    requires id in s.calls && CanStep(s.calls[id].stage)
  {
    match s.calls[id].stage
    case ReadingFlag => Goto(s, id, if s.disabled then Finished else ReadingEpoch)
    case ReadingEpoch => Goto(s, id, Refreshing(Token(s.epoch, s.bumps)))
    case FirstFlag(token, at) => Goto(s, id, if s.disabled then Finished else FirstEpoch(token, at))
    case FirstEpoch(token, at) => Goto(s, id, if s.epoch != token.epoch then Finished else AwaitingLock(token, at))
    case SecondFlag(token, at) => if s.disabled then GiveUp(s, id) else Goto(s, id, SecondEpoch(token, at))
    case SecondEpoch(token, at) => if s.epoch != token.epoch then GiveUp(s, id) else Goto(s, id, Writing(token, at))
    case Bumping =>
      var n := s.bumps + 1;
      if s.epoch < MAX_U64 then Goto(s, id, Clearing(n)).(epoch := s.epoch + 1, bumps := n)
      else Goto(s, id, Disabling(n)).(bumps := n)
    case Disabling(n) => Goto(s, id, Clearing(n)).(disabled := true)
  }

  function Apply(s: State, e: Event): State
    requires Can(s, e)
  {
    match e
    case StartRefresh(id, credential) => s.(calls := s.calls[id := Call(credential, ReadingFlag)])
    case StartInvalidate(id) => s.(calls := s.calls[id := Call("", Bumping)])
    case Insert(id, at) => Goto(s, id, FirstFlag(s.calls[id].stage.token, at))
    case Step(id) => ApplyStep(s, id)
    case Lock(id) => Goto(s, id, SecondFlag(s.calls[id].stage.token, s.calls[id].stage.at)).(holder := Some(id))
    case Write(id, now, victim) =>
      var call := s.calls[id];
      var entry := Entry(call.stage.at, call.stage.token.stamp);
      GiveUp(s, id).(cache := Stored(s.cache, call.credential, entry, now, victim))
    case Clear(id) =>
      var n := s.calls[id].stage.n;
      Goto(s, id, Invalidated(n)).(cache := map[], cleared := Max(s.cleared, n))
    case Cancel(id) => Goto(s, id, Finished)
    case Cached(now) => s.(cache := Retained(s.cache, now))
  }

  predicate Runs(s: State, es: seq<Event>)
    decreases |es|
  {
    es == [] || (Can(s, es[0]) && Runs(Apply(s, es[0]), es[1..]))
  }

  function Final(s: State, es: seq<Event>): State
    requires Runs(s, es)
    decreases |es|
  {
    if es == [] then s else Final(Apply(s, es[0]), es[1..])
  }

  // ----- invariant -----------------------------------------------------------

  /** The epoch after `bumps` invalidations: one more each time, until it is exhausted. */
  function EpochAfter(bumps: nat): nat {
    Min(1 + bumps, MAX_U64)
  }

  predicate Genuine(token: Token, bumps: nat) {
    token.stamp <= bumps && token.epoch == EpochAfter(token.stamp)
  }

  predicate StageOk(s: State, id: CallId, stage: Stage) {
    match stage
    case Refreshing(token) => Genuine(token, s.bumps)
    case FirstFlag(token, _) => Genuine(token, s.bumps)
    case FirstEpoch(token, _) => Genuine(token, s.bumps)
    case AwaitingLock(token, _) => Genuine(token, s.bumps)
    case SecondFlag(token, _) => Genuine(token, s.bumps) && s.holder == Some(id)
    case SecondEpoch(token, _) => Genuine(token, s.bumps) && s.holder == Some(id) && s.cleared < MAX_U64
    case Writing(token, _) => Genuine(token, s.bumps) && s.holder == Some(id) && s.cleared <= token.stamp && s.cleared < MAX_U64
    case Disabling(n) => n <= s.bumps
    case Clearing(n) => n <= s.bumps && (n >= MAX_U64 ==> s.disabled)
    case Invalidated(n) => n <= s.cleared
    case _ => true
  }

  predicate Inv(s: State) {
    && s.epoch == EpochAfter(s.bumps)
    && s.cleared <= s.bumps
    && (s.cleared >= MAX_U64 ==> s.disabled && s.cache == map[])
    && (forall id :: id in s.calls ==> StageOk(s, id, s.calls[id].stage))
    && (forall c :: c in s.cache ==> s.cleared <= s.cache[c].stamp)
  }

  /** What a call knows survives the steps of the others. */
  lemma StageFrame(s: State, s': State, id: CallId, stage: Stage)
    requires StageOk(s, id, stage) && s.bumps <= s'.bumps && s.cleared == s'.cleared && (s.disabled ==> s'.disabled)
    requires s.holder == Some(id) ==> s'.holder == Some(id)
    ensures StageOk(s', id, stage)
  {
  }

  lemma OwnStep(s: State, id: CallId)
    requires Inv(s) && id in s.calls && CanStep(s.calls[id].stage)
    ensures var s' := ApplyStep(s, id); StageOk(s', id, s'.calls[id].stage)
  {
    assert StageOk(s, id, s.calls[id].stage);
  }

  lemma StepKeepsInv(s: State, id: CallId)
    requires Inv(s) && id in s.calls && CanStep(s.calls[id].stage)
    ensures Inv(ApplyStep(s, id))
  {
    var s' := ApplyStep(s, id);
    OwnStep(s, id);
    assert StageOk(s, id, s.calls[id].stage);
    forall j | j in s'.calls ensures StageOk(s', j, s'.calls[j].stage) {
      if j != id {
        StageFrame(s, s', j, s.calls[j].stage);
      }
    }
  }

  lemma WriteKeepsInv(s: State, e: Event)
    requires Inv(s) && Can(s, e) && e.Write?
    ensures Inv(Apply(s, e))
  {
    var s' := Apply(s, e);
    assert StageOk(s, e.id, s.calls[e.id].stage);
    forall j | j in s'.calls ensures StageOk(s', j, s'.calls[j].stage) {
      assert StageOk(s, j, s.calls[j].stage);
    }
  }

  lemma ClearKeepsInv(s: State, e: Event)
    requires Inv(s) && Can(s, e) && e.Clear?
    ensures Inv(Apply(s, e))
  {
    var s' := Apply(s, e);
    assert StageOk(s, e.id, s.calls[e.id].stage);
    forall j | j in s'.calls ensures StageOk(s', j, s'.calls[j].stage) {
      assert StageOk(s, j, s.calls[j].stage);
    }
  }

  /** The calls of the others do not notice a call that starts, moves on to its lock, or gives up. */
  lemma OtherKeepsInv(s: State, e: Event)
    requires Inv(s) && Can(s, e) && !e.Step? && !e.Write? && !e.Clear?
    ensures Inv(Apply(s, e))
  {
    var s' := Apply(s, e);
    forall j | j in s'.calls ensures StageOk(s', j, s'.calls[j].stage) {
      if j in s.calls {
        assert StageOk(s, j, s.calls[j].stage);
      }
    }
  }

  lemma InvStep(s: State, e: Event)
    requires Inv(s) && Can(s, e)
    ensures Inv(Apply(s, e))
  {
    if e.Step? {
      StepKeepsInv(s, e.id);
    } else if e.Write? {
      WriteKeepsInv(s, e);
    } else if e.Clear? {
      ClearKeepsInv(s, e);
    } else {
      OtherKeepsInv(s, e);
    }
  }

  lemma {:induction false} InvRun(s: State, es: seq<Event>)
    requires Inv(s) && Runs(s, es)
    ensures Inv(Final(s, es))
    decreases |es|
  {
    if es == [] {
    } else {
      InvStep(s, es[0]);
      InvRun(Apply(s, es[0]), es[1..]);
    }
  }

  /**
   Once invalidation number n has returned, no read yields an entry whose token was read before
   that invalidation began; the exhausted epoch is no exception.
   */
  lemma NoStaleReads(es: seq<Event>, id: CallId, now: nat, credential: string)
    requires Runs(START, es) && id in Final(START, es).calls && Final(START, es).calls[id].stage.Invalidated?
    ensures credential in Retained(Final(START, es).cache, now) ==>
              Final(START, es).cache[credential].stamp >= Final(START, es).calls[id].stage.n
  {
    InvRun(START, es);
    var s := Final(START, es);
    assert StageOk(s, id, s.calls[id].stage);
  }

  /** Once an invalidation that found the epoch exhausted has returned, the cache is empty for good. */
  lemma ExhaustedStaysEmpty(es: seq<Event>, id: CallId)
    requires Runs(START, es) && id in Final(START, es).calls && Final(START, es).calls[id].stage.Invalidated?
    requires Final(START, es).calls[id].stage.n >= MAX_U64
    ensures Final(START, es).cache == map[]
  {
    InvRun(START, es);
    var s := Final(START, es);
    assert StageOk(s, id, s.calls[id].stage);
  }

  // ----- capacity --------------------------------------------------------------

  lemma RetainedSize(cache: map<string, Entry>, now: nat)
    ensures |Retained(cache, now)| <= |cache|
  {
    SubsetSize(Retained(cache, now).Keys, cache.Keys);
  }

  lemma StoredSize(cache: map<string, Entry>, credential: string, e: Entry, now: nat, victim: string)
    requires |cache| <= MAX_PROVIDER_USAGE_CACHE_ENTRIES
    requires NeedsVictim(Retained(cache, now), credential) ==> Oldest(Retained(cache, now), victim)
    ensures |Stored(cache, credential, e, now, victim)| <= MAX_PROVIDER_USAGE_CACHE_ENTRIES
  {
    var kept := Retained(cache, now);
    RetainedSize(cache, now);
    var base := if NeedsVictim(kept, credential) then kept - {victim} else kept;
    assert (kept - {victim}).Keys == kept.Keys - {victim};
    assert Stored(cache, credential, e, now, victim).Keys == base.Keys + {credential};
  }

  /** The cache never holds more than 512 entries. */
  lemma {:induction false} CacheBounded(s: State, es: seq<Event>)
    requires |s.cache| <= MAX_PROVIDER_USAGE_CACHE_ENTRIES && Runs(s, es)
    ensures |Final(s, es).cache| <= MAX_PROVIDER_USAGE_CACHE_ENTRIES
    decreases |es|
  {
    if es == [] {
    } else {
      match es[0] {
        case Write(id, now, victim) =>
          var call := s.calls[id];
          StoredSize(s.cache, call.credential, Entry(call.stage.at, call.stage.token.stamp), now, victim);
        case Cached(now) => RetainedSize(s.cache, now);
        case _ =>
      }
      CacheBounded(Apply(s, es[0]), es[1..]);
    }
  }

  // ----- an undisturbed refresh is visible ---------------------------------------

  /** From the lock request on, a matching token is written. */
  lemma UndisturbedInsert(s: State, id: CallId, token: Token, at: nat, now: nat, victim: string) returns (es: seq<Event>)
    requires !s.disabled && s.holder.None? && s.epoch == token.epoch
    requires At(s, id, AwaitingLock(token, at))
    requires NeedsVictim(Retained(s.cache, now), s.calls[id].credential) ==> Oldest(Retained(s.cache, now), victim)
    ensures Runs(s, es)
    ensures Final(s, es).cache == Stored(s.cache, s.calls[id].credential, Entry(at, token.stamp), now, victim)
    ensures Final(s, es).holder.None?
  {
    var s7 := Apply(s, Lock(id));
    var s8 := Apply(s7, Step(id));
    var s9 := Apply(s8, Step(id));
    var s10 := Apply(s9, Write(id, now, victim));
    es := Prepend(s9, Write(id, now, victim), s10, []);
    es := Prepend(s8, Step(id), s9, es);
    es := Prepend(s7, Step(id), s8, es);
    es := Prepend(s, Lock(id), s7, es);
  }

  /** A refresh that no invalidation overtakes does populate the cache. */
  lemma UndisturbedRefresh(s: State, id: CallId, credential: string, at: nat, now: nat, victim: string) returns (es: seq<Event>)
    requires !s.disabled && s.holder.None? && id !in s.calls
    requires NeedsVictim(Retained(s.cache, now), credential) ==> Oldest(Retained(s.cache, now), victim)
    ensures Runs(s, es)
    ensures Final(s, es).cache == Stored(s.cache, credential, Entry(at, s.bumps), now, victim)
    ensures Final(s, es).holder.None?
  {
    var s1 := Apply(s, StartRefresh(id, credential));
    var s2 := Apply(s1, Step(id));
    var s3 := Apply(s2, Step(id));
    var s4 := Apply(s3, Insert(id, at));
    var s5 := Apply(s4, Step(id));
    var s6 := Apply(s5, Step(id));
    es := UndisturbedInsert(s6, id, Token(s.epoch, s.bumps), at, now, victim);
    es := Prepend(s5, Step(id), s6, es);
    es := Prepend(s4, Step(id), s5, es);
    es := Prepend(s3, Insert(id, at), s4, es);
    es := Prepend(s2, Step(id), s3, es);
    es := Prepend(s1, Step(id), s2, es);
    es := Prepend(s, StartRefresh(id, credential), s1, es);
  }

  lemma Prepend(s: State, e: Event, s': State, es: seq<Event>) returns (es': seq<Event>)
    requires Can(s, e) && Apply(s, e) == s' && Runs(s', es)
    ensures es' == [e] + es && Runs(s, es') && Final(s, es') == Final(s', es)
  {
    es' := [e] + es;
    assert es'[1..] == es;
  }

  /** Storing keeps every fresh entry but the oldest, and drops that one only when the cache is full. */
  lemma StoredKeeps(cache: map<string, Entry>, credential: string, e: Entry, now: nat, victim: string, c: string)
    ensures Stored(cache, credential, e, now, victim)[credential] == e
    ensures c != credential ==>
      (c in Stored(cache, credential, e, now, victim)
       <==> c in cache && now - cache[c].lastAttemptAt <= PROVIDER_USAGE_CACHE_MAX_AGE
            && !(c == victim && NeedsVictim(Retained(cache, now), credential)))
  {
  }
}

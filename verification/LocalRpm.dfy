/**
 The per-provider request counter over the last 60 seconds, `src/state/local_rpm.rs`.

 The specification is a plain log: for every provider the whole second of each accepted request
 since the counting epoch. The ring of 60 buckets, the pruning and the capacity limit must never
 show in the answers.
 */
module LocalRpm {
  import opened Collections

  const WINDOW_SECONDS: nat := 60
  const BUCKET_COUNT: nat := 60
  const MAX_LOCAL_PROVIDER_RPM_TRACKERS: nat := 512

  /** The clock ticks in nanoseconds. */
  const SECOND: nat := 1_000_000_000
  const PRUNE_INTERVAL: nat := SECOND

  datatype Bucket = Bucket(second: Option<nat>, requests: nat)

  // ----- the log --------------------------------------------------------------------

  type Log = seq<nat>

  ghost function Tally(log: Log, p: nat -> bool): nat {
    if log == [] then 0
    else Tally(log[..|log| - 1], p) + if p(log[|log| - 1]) then 1 else 0
  }

  ghost function At(second: nat): nat -> bool {
    (x: nat) => x == second
  }

  /** Within the last 60 whole seconds, the current one included. */
  predicate IsRecent(x: nat, current: nat) {
    x <= current && current - x < WINDOW_SECONDS
  }

  ghost function Recent(current: nat): nat -> bool {
    (x: nat) => IsRecent(x, current)
  }

  /** Recent, and kept in one of the first `n` buckets. */
  ghost function RecentBelow(current: nat, n: nat): nat -> bool {
    (x: nat) => IsRecent(x, current) && x % BUCKET_COUNT < n
  }

  ghost function RecentIn(current: nat, i: nat): nat -> bool {
    (x: nat) => IsRecent(x, current) && x % BUCKET_COUNT == i
  }

  lemma {:induction false} TallySame(log: Log, p: nat -> bool, q: nat -> bool)
    requires forall k :: 0 <= k < |log| ==> p(log[k]) == q(log[k])
    ensures Tally(log, p) == Tally(log, q)
  {
    if log == [] {
    } else {
      TallySame(log[..|log| - 1], p, q);
    }
  }

  lemma {:induction false} TallyNone(log: Log, p: nat -> bool)
    requires forall k :: 0 <= k < |log| ==> !p(log[k])
    ensures Tally(log, p) == 0
  {
    if log == [] {
    } else {
      TallyNone(log[..|log| - 1], p);
    }
  }

  lemma {:induction false} TallyAt(log: Log, s: nat)
    ensures Tally(log, At(s)) == multiset(log)[s]
  {
    if log == [] {
    } else {
      TallyAt(log[..|log| - 1], s);
      assert log == log[..|log| - 1] + [log[|log| - 1]];
    }
  }

  lemma {:induction false} TallySplit(log: Log, current: nat, i: nat)
    ensures Tally(log, RecentBelow(current, i + 1)) == Tally(log, RecentBelow(current, i)) + Tally(log, RecentIn(current, i))
  {
    if log == [] {
    } else {
      TallySplit(log[..|log| - 1], current, i);
    }
  }

  // ----- the ring -------------------------------------------------------------------

  /** Bucket `i` holds the newest second of its residue and the number of requests in it. */
  ghost predicate SlotMatches(b: Bucket, i: nat, log: Log) {
    match b.second
    case None => forall k :: 0 <= k < |log| ==> log[k] % BUCKET_COUNT != i
    case Some(s) =>
      && s in log && s % BUCKET_COUNT == i
      && (forall k :: 0 <= k < |log| && log[k] % BUCKET_COUNT == i ==> log[k] <= s)
      && b.requests == Min(MAX_U64, multiset(log)[s])
  }

  ghost predicate RingMatches(ring: seq<Bucket>, log: Log) {
    |ring| == BUCKET_COUNT && forall i :: 0 <= i < BUCKET_COUNT ==> SlotMatches(ring[i], i, log)
  }

  predicate UpTo(log: Log, second: nat) {
    forall k :: 0 <= k < |log| ==> log[k] <= second
  }

  predicate Counts(b: Bucket, current: nat) {
    b.second.Some? && current - b.second.value < WINDOW_SECONDS
  }

  /** Two seconds of one bucket that are less than a turn apart are the same. */
  lemma SameResidue(x: nat, s: nat)
    requires x <= s < x + BUCKET_COUNT && x % BUCKET_COUNT == s % BUCKET_COUNT
    ensures x == s
  {
  }

  lemma SlotContributes(b: Bucket, i: nat, log: Log, current: nat)
    requires i < BUCKET_COUNT && SlotMatches(b, i, log) && UpTo(log, current)
    ensures Min(MAX_U64, Tally(log, RecentIn(current, i))) == if Counts(b, current) then b.requests else 0
  {
    if Counts(b, current) {
      var s := b.second.value;
      forall k | 0 <= k < |log| ensures RecentIn(current, i)(log[k]) == At(s)(log[k]) {
        if RecentIn(current, i)(log[k]) {
          SameResidue(log[k], s);
        }
      }
      TallySame(log, RecentIn(current, i), At(s));
      TallyAt(log, s);
    } else {
      TallyNone(log, RecentIn(current, i));
    }
  }

  /** Recording a request at the newest second keeps the ring in step with the log. */
  lemma SlotAfterRecord(b: Bucket, i: nat, log: Log, second: nat)
    requires i < BUCKET_COUNT && SlotMatches(b, i, log) && UpTo(log, second)
    ensures second % BUCKET_COUNT != i ==> SlotMatches(b, i, log + [second])
    ensures second % BUCKET_COUNT == i ==> SlotMatches(Recorded(b, second), i, log + [second])
  {
    assert multiset(log + [second]) == multiset(log) + multiset{second};
    if second % BUCKET_COUNT == i && b.second != Some(second) {
      assert second !in log;
    }
  }

  function Recorded(b: Bucket, second: nat): Bucket {
    var before := if b.second != Some(second) then 0 else b.requests;
    Bucket(Some(second), Min(MAX_U64, before + 1))
  }

  datatype Window = Window(buckets: seq<Bucket>, lastActivityAt: nat)

  function NewWindow(now: nat): Window {
    Window(seq(BUCKET_COUNT, _ => Bucket(None, 0)), now)
  }

  /** `ProviderRpmWindow::record` */
  method RecordInWindow(w: Window, second: nat, now: nat, ghost log: Log) returns (w': Window)
    requires RingMatches(w.buckets, log) && UpTo(log, second)
    ensures RingMatches(w'.buckets, log + [second]) && w'.lastActivityAt == now
  {
    var i := second % WINDOW_SECONDS;
    var bucket := w.buckets[i];
    if bucket.second != Some(second) {
      bucket := Bucket(Some(second), 0);
    }
    bucket := bucket.(requests := if bucket.requests < MAX_U64 then bucket.requests + 1 else MAX_U64);
    w' := Window(w.buckets[i := bucket], now);
    forall k | 0 <= k < BUCKET_COUNT ensures SlotMatches(w'.buckets[k], k, log + [second]) {
      SlotAfterRecord(w.buckets[k], k, log, second);
    }
  }

  /** The folded ring is the number of recent entries of the log, as a 64-bit saturating sum. */
  method RequestsLast60s(w: Window, current: nat, ghost log: Log) returns (total: nat)
    requires RingMatches(w.buckets, log) && UpTo(log, current)
    ensures total == Min(MAX_U64, Tally(log, Recent(current)))
  {
    total := 0;
    TallyNone(log, RecentBelow(current, 0));
    var i := 0;
    while i < BUCKET_COUNT
      invariant 0 <= i <= BUCKET_COUNT
      invariant total == Min(MAX_U64, Tally(log, RecentBelow(current, i)))
    {
      SlotContributes(w.buckets[i], i, log, current);
      TallySplit(log, current, i);
      if w.buckets[i].second.Some? && current - w.buckets[i].second.value < WINDOW_SECONDS {
        total := if total + w.buckets[i].requests < MAX_U64 then total + w.buckets[i].requests else MAX_U64;
      }
      i := i + 1;
    }
    TallySame(log, RecentBelow(current, BUCKET_COUNT), Recent(current));
  }

  // ----- logs and time --------------------------------------------------------------------

  /** `live` is the end of `log`, and nothing before it can count at second `current` or later. */
  ghost predicate Covers(log: Log, live: Log, current: nat) {
    |live| <= |log| && log[|log| - |live|..] == live
    && forall i :: 0 <= i < |log| - |live| ==> log[i] + WINDOW_SECONDS <= current
  }

  lemma CoversNothing(log: Log, live: Log, newest: nat, current: nat)
    requires Covers(log, live, current) && UpTo(live, newest) && newest + WINDOW_SECONDS <= current
    ensures Covers(log, [], current)
  {
    forall i | 0 <= i < |log| ensures log[i] + WINDOW_SECONDS <= current {
      if i >= |log| - |live| {
        assert log[i] == live[i - (|log| - |live|)];
      }
    }
  }

  lemma CoversRecord(log: Log, live: Log, second: nat, current: nat)
    requires Covers(log, live, current)
    ensures Covers(log + [second], live + [second], current)
  {
    var k := |log| - |live|;
    assert (log + [second])[k..] == log[k..] + [second];
  }

  lemma {:induction false} CoversTally(log: Log, live: Log, current: nat)
    requires Covers(log, live, current)
    ensures Tally(log, Recent(current)) == Tally(live, Recent(current))
    decreases |live|
  {
    if live == [] {
      TallyNone(log, Recent(current));
    } else {
      var k := |log| - |live|;
      assert log[|log| - 1] == log[k..][|live| - 1] == live[|live| - 1];
      var log', live' := log[..|log| - 1], live[..|live| - 1];
      assert log'[k..] == log[k..][..|live| - 1] == live';
      CoversTally(log', live', current);
    }
  }

  function SecondsSince(epoch: nat, now: nat): nat {
    (if now < epoch then 0 else now - epoch) / SECOND
  }

  lemma SecondsPass(epoch: nat, a: nat, b: nat)
    requires a <= b
    ensures SecondsSince(epoch, a) <= SecondsSince(epoch, b)
  {
  }

  lemma MinutePasses(epoch: nat, a: nat, b: nat)
    requires epoch <= a && a + WINDOW_SECONDS * SECOND <= b
    ensures SecondsSince(epoch, a) + WINDOW_SECONDS <= SecondsSince(epoch, b)
  {
  }

  // ----- the tracker ------------------------------------------------------------------

  datatype TrackingStatus = Ready | WarmingUp | CapacityLimited

  datatype Snapshot = Snapshot(requestsLast60s: nat, coverageSeconds: nat, status: TrackingStatus)

  type Logs = map<string, Log>

  function LogOf(logs: Logs, provider: string): Log {
    if provider in logs then logs[provider] else []
  }

  /** The window of a provider holds all of its log that can still count. */
  ghost predicate WindowOk(w: Window, live: Log, log: Log, epoch: nat, prunedAt: nat, latest: nat) {
    && RingMatches(w.buckets, live)
    && epoch <= w.lastActivityAt <= latest
    && UpTo(live, SecondsSince(epoch, w.lastActivityAt))
    && live != [] && live[|live| - 1] == SecondsSince(epoch, w.lastActivityAt)
    && prunedAt - w.lastActivityAt < WINDOW_SECONDS * SECOND
    && Covers(log, live, SecondsSince(epoch, latest))
  }

  /** What is kept about `p` is enough: all of its log that can still count is in its window, if any. */
  ghost predicate ProviderOk(windows: map<string, Window>, live: Logs, history: Logs, epoch: nat, prunedAt: nat, latest: nat, p: string) {
    if p in windows then WindowOk(windows[p], LogOf(live, p), LogOf(history, p), epoch, prunedAt, latest)
    else Covers(LogOf(history, p), [], SecondsSince(epoch, latest))
  }

  ghost predicate Consistent(windows: map<string, Window>, live: Logs, history: Logs, epoch: nat, prunedAt: nat, latest: nat) {
    && epoch <= prunedAt <= latest
    && |windows| <= MAX_LOCAL_PROVIDER_RPM_TRACKERS
    && (forall p :: ProviderOk(windows, live, history, epoch, prunedAt, latest, p))
  }

  lemma TimePasses(windows: map<string, Window>, live: Logs, history: Logs, epoch: nat, prunedAt: nat, latest: nat, now: nat)
    requires Consistent(windows, live, history, epoch, prunedAt, latest) && latest <= now
    ensures Consistent(windows, live, history, epoch, prunedAt, now)
  {
    forall p ensures ProviderOk(windows, live, history, epoch, prunedAt, now, p) {
      assert ProviderOk(windows, live, history, epoch, prunedAt, latest, p);
      SecondsPass(epoch, latest, now);
      if p in windows {
        WindowOkLater(windows[p], LogOf(live, p), LogOf(history, p), epoch, prunedAt, latest, now);
      }
    }
  }

  lemma WindowOkLater(w: Window, live: Log, log: Log, epoch: nat, prunedAt: nat, latest: nat, now: nat)
    requires WindowOk(w, live, log, epoch, prunedAt, latest) && latest <= now
    ensures WindowOk(w, live, log, epoch, prunedAt, now)
  {
    SecondsPass(epoch, latest, now);
  }

  function Retained(windows: map<string, Window>, now: nat): map<string, Window> {
    map p | p in windows && now - windows[p].lastActivityAt < WINDOW_SECONDS * SECOND :: windows[p]
  }

  /** Pruning forgets only requests that can no longer count. */
  lemma PruneForgets(w: Window, live: Log, log: Log, epoch: nat, prunedAt: nat, now: nat)
    requires WindowOk(w, live, log, epoch, prunedAt, now) && now - w.lastActivityAt >= WINDOW_SECONDS * SECOND
    ensures Covers(log, [], SecondsSince(epoch, now))
  {
    MinutePasses(epoch, w.lastActivityAt, now);
    CoversNothing(log, live, SecondsSince(epoch, w.lastActivityAt), SecondsSince(epoch, now));
  }

  lemma PruneKeeps(windows: map<string, Window>, live: Logs, history: Logs, epoch: nat, prunedAt: nat, now: nat)
    requires Consistent(windows, live, history, epoch, prunedAt, now)
    ensures Consistent(Retained(windows, now), live, history, epoch, now, now)
  {
    var kept := Retained(windows, now);
    SubsetSize(kept.Keys, windows.Keys);
    forall p ensures ProviderOk(kept, live, history, epoch, now, now, p) {
      assert ProviderOk(windows, live, history, epoch, prunedAt, now, p);
      if p in windows && p !in kept {
        PruneForgets(windows[p], LogOf(live, p), LogOf(history, p), epoch, prunedAt, now);
      }
    }
  }

  lemma PutOther(windows: map<string, Window>, live: Logs, history: Logs, epoch: nat, prunedAt: nat, now: nat,
                 p: string, w: Window, wlive: Log, wlog: Log, q: string)
    requires ProviderOk(windows, live, history, epoch, prunedAt, now, q) && q != p
    ensures ProviderOk(windows[p := w], live[p := wlive], history[p := wlog], epoch, prunedAt, now, q)
  {
    assert LogOf(live[p := wlive], q) == LogOf(live, q) && LogOf(history[p := wlog], q) == LogOf(history, q);
    assert q in windows[p := w] <==> q in windows;
    assert q in windows ==> windows[p := w][q] == windows[q];
  }

  lemma PutOwn(windows: map<string, Window>, live: Logs, history: Logs, epoch: nat, prunedAt: nat, now: nat,
               p: string, w: Window, wlive: Log, wlog: Log)
    requires WindowOk(w, wlive, wlog, epoch, prunedAt, now)
    ensures ProviderOk(windows[p := w], live[p := wlive], history[p := wlog], epoch, prunedAt, now, p)
  {
    assert LogOf(live[p := wlive], p) == wlive && LogOf(history[p := wlog], p) == wlog;
  }

  lemma PutSize(windows: map<string, Window>, p: string, w: Window)
    ensures |windows[p := w]| == if p in windows then |windows| else |windows| + 1
  {
    assert windows[p := w].Keys == windows.Keys + {p};
  }

  /** Replacing or adding one window, with its logs, leaves the others alone. */
  lemma PutKeeps(windows: map<string, Window>, live: Logs, history: Logs, epoch: nat, prunedAt: nat, now: nat,
                 p: string, w: Window, wlive: Log, wlog: Log)
    requires Consistent(windows, live, history, epoch, prunedAt, now)
    requires WindowOk(w, wlive, wlog, epoch, prunedAt, now)
    requires p in windows || |windows| < MAX_LOCAL_PROVIDER_RPM_TRACKERS
    ensures Consistent(windows[p := w], live[p := wlive], history[p := wlog], epoch, prunedAt, now)
  {
    PutSize(windows, p, w);
    PutOwn(windows, live, history, epoch, prunedAt, now, p, w, wlive, wlog);
    var windows', live', history' := windows[p := w], live[p := wlive], history[p := wlog];
    forall q ensures ProviderOk(windows', live', history', epoch, prunedAt, now, q) {
      if q != p {
        assert ProviderOk(windows, live, history, epoch, prunedAt, now, q);
        PutOther(windows, live, history, epoch, prunedAt, now, p, w, wlive, wlog, q);
      }
    }
  }

  lemma RemoveKeeps(windows: map<string, Window>, live: Logs, history: Logs, epoch: nat, prunedAt: nat, now: nat, p: string)
    requires Consistent(windows, live, history, epoch, prunedAt, now)
    ensures Consistent(windows - {p}, live, history - {p}, epoch, prunedAt, now)
  {
    var windows', history' := windows - {p}, history - {p};
    SubsetSize(windows'.Keys, windows.Keys);
    forall q ensures ProviderOk(windows', live, history', epoch, prunedAt, now, q) {
      if q != p {
        assert LogOf(history', q) == LogOf(history, q);
        assert ProviderOk(windows, live, history, epoch, prunedAt, now, q);
      }
    }
  }

  /** What a window, old or new, has seen of its provider. */
  function SeenBy(windows: map<string, Window>, live: Logs, p: string): Log {
    if p in windows then LogOf(live, p) else []
  }

  function WindowFor(windows: map<string, Window>, p: string, now: nat): Window {
    if p in windows then windows[p] else NewWindow(now)
  }

  lemma WindowForOk(windows: map<string, Window>, live: Logs, history: Logs, epoch: nat, prunedAt: nat, now: nat, p: string)
    requires Consistent(windows, live, history, epoch, prunedAt, now)
    ensures RingMatches(WindowFor(windows, p, now).buckets, SeenBy(windows, live, p))
    ensures UpTo(SeenBy(windows, live, p), SecondsSince(epoch, now))
    ensures Covers(LogOf(history, p), SeenBy(windows, live, p), SecondsSince(epoch, now))
  {
    assert ProviderOk(windows, live, history, epoch, prunedAt, now, p);
    if p in windows {
      SecondsPass(epoch, windows[p].lastActivityAt, now);
    }
  }

  lemma RecordedOk(w: Window, live: Log, log: Log, epoch: nat, prunedAt: nat, now: nat)
    requires epoch <= prunedAt <= now == w.lastActivityAt
    requires var second := SecondsSince(epoch, now);
             RingMatches(w.buckets, live + [second]) && UpTo(live, second) && Covers(log, live, second)
    ensures var second := SecondsSince(epoch, now);
            WindowOk(w, live + [second], log + [second], epoch, prunedAt, now)
  {
    var second := SecondsSince(epoch, now);
    CoversRecord(log, live, second, second);
  }

  /** The requests of `provider` that count now, read from its window. */
  method CountFor(windows: map<string, Window>, provider: string, epoch: nat, now: nat, ghost live: Logs, ghost history: Logs, ghost prunedAt: nat)
    returns (requests: nat)
    requires Consistent(windows, live, history, epoch, prunedAt, now)
    ensures requests == Min(MAX_U64, Tally(LogOf(history, provider), Recent(SecondsSince(epoch, now))))
  {
    var current := SecondsSince(epoch, now);
    ghost var seen := SeenBy(windows, live, provider);
    WindowForOk(windows, live, history, epoch, prunedAt, now, provider);
    CoversTally(LogOf(history, provider), seen, current);
    requests := 0;
    if provider in windows {
      requests := RequestsLast60s(windows[provider], current, seen);
    }
  }

  /** One accepted request: the window of the provider, made when missing, and the logs move together. */
  method RecordFor(windows: map<string, Window>, provider: string, epoch: nat, now: nat, ghost live: Logs, ghost history: Logs, ghost prunedAt: nat)
    returns (updated: map<string, Window>, ghost seenNow: Logs)
    requires Consistent(windows, live, history, epoch, prunedAt, now)
    requires provider in windows || |windows| < MAX_LOCAL_PROVIDER_RPM_TRACKERS
    ensures provider in updated && updated[provider].lastActivityAt == now && updated == windows[provider := updated[provider]]
    ensures Consistent(updated, seenNow, history[provider := LogOf(history, provider) + [SecondsSince(epoch, now)]], epoch, prunedAt, now)
  {
    ghost var log, seen := LogOf(history, provider), SeenBy(windows, live, provider);
    WindowForOk(windows, live, history, epoch, prunedAt, now, provider);
    var second := SecondsSince(epoch, now);
    var w := RecordInWindow(WindowFor(windows, provider, now), second, now, seen);
    RecordedOk(w, seen, log, epoch, prunedAt, now);
    PutKeeps(windows, live, history, epoch, prunedAt, now, provider, w, seen + [second], log + [second]);
    updated, seenNow := windows[provider := w], live[provider := seen + [second]];
  }

  /** The newest logged request is at most 61 whole seconds old. */
  predicate LoggedLately(log: Log, current: nat) {
    log != [] && current - log[|log| - 1] <= WINDOW_SECONDS + 1
  }

  /** A window that was active lately belongs to a provider that logged a request lately. */
  lemma ActiveMeansLogged(windows: map<string, Window>, live: Logs, history: Logs, epoch: nat, prunedAt: nat, now: nat, p: string)
    requires Consistent(windows, live, history, epoch, prunedAt, now)
    requires p in windows && now - windows[p].lastActivityAt < (WINDOW_SECONDS + 1) * SECOND
    ensures LoggedLately(LogOf(history, p), SecondsSince(epoch, now))
  {
    assert ProviderOk(windows, live, history, epoch, prunedAt, now, p);
    var log, seen := LogOf(history, p), LogOf(live, p);
    assert log[|log| - 1] == log[|log| - |seen|..][|seen| - 1] == seen[|seen| - 1];
  }

  class ProviderRpmTracker {
    var windows: map<string, Window>
    var epochStartedAt: nat
    var lastPrunedAt: nat

    /** The accepted requests of every provider since the epoch, and the last clock reading. */
    ghost var history: Logs
    ghost var latest: nat

    /** The part of each log that its window was there to see. */
    ghost var live: Logs

    ghost predicate Valid()
      reads this
    {
      Consistent(windows, live, history, epochStartedAt, lastPrunedAt, latest)
    }

    constructor (now: nat)
      ensures Valid() && history == map[] && latest == now && epochStartedAt == now
    {
      windows, epochStartedAt, lastPrunedAt := map[], now, now;
      history, latest, live := map[], now, map[];
    }

    /** Drops idle windows, at most once a second; the logs do not change. */
    method Prune(now: nat)
      requires Valid() && latest <= now
      modifies this
      ensures Valid() && latest == now && history == old(history) && epochStartedAt == old(epochStartedAt)
      ensures forall p :: p in windows ==> now - windows[p].lastActivityAt < (WINDOW_SECONDS + 1) * SECOND
    {
      TimePasses(windows, live, history, epochStartedAt, lastPrunedAt, latest, now);
      latest := now;
      if now - lastPrunedAt < PRUNE_INTERVAL {
        forall p | p in windows ensures now - windows[p].lastActivityAt < (WINDOW_SECONDS + 1) * SECOND {
          assert ProviderOk(windows, live, history, epochStartedAt, lastPrunedAt, now, p);
        }
        return;
      }
      PruneKeeps(windows, live, history, epochStartedAt, lastPrunedAt, now);
      lastPrunedAt := now;
      windows := Retained(windows, now);
    }

    method Record(provider: string, now: nat) returns (accepted: bool)
      requires Valid() && latest <= now
      modifies this
      ensures Valid() && latest == now && epochStartedAt == old(epochStartedAt)
      ensures accepted ==>
        history == old(history)[provider := LogOf(old(history), provider) + [SecondsSince(epochStartedAt, now)]]
      ensures !accepted ==>
        && history == old(history)
        && provider !in windows && |windows| == MAX_LOCAL_PROVIDER_RPM_TRACKERS
        && (forall p :: p in windows ==> now - windows[p].lastActivityAt < (WINDOW_SECONDS + 1) * SECOND)
        && (forall p :: p in windows ==> LoggedLately(LogOf(history, p), SecondsSince(epochStartedAt, now)))
    {
      Prune(now);
      if provider !in windows && |windows| >= MAX_LOCAL_PROVIDER_RPM_TRACKERS {
        forall p | p in windows ensures LoggedLately(LogOf(history, p), SecondsSince(epochStartedAt, now)) {
          ActiveMeansLogged(windows, live, history, epochStartedAt, lastPrunedAt, now, p);
        }
        return false;
      }
      ghost var log := LogOf(history, provider) + [SecondsSince(epochStartedAt, now)];
      windows, live := RecordFor(windows, provider, epochStartedAt, now, live, history, lastPrunedAt);
      history := history[provider := log];
      return true;
    }

    /** The answer is the number of accepted requests of the last 60 whole seconds. */
    method TakeSnapshot(provider: string, now: nat) returns (s: Snapshot)
      requires Valid() && latest <= now
      modifies this
      ensures Valid() && latest == now && epochStartedAt == old(epochStartedAt) && history == old(history)
      ensures s.requestsLast60s == Min(MAX_U64, Tally(LogOf(history, provider), Recent(SecondsSince(epochStartedAt, now))))
      ensures s.coverageSeconds == Min(SecondsSince(epochStartedAt, now), WINDOW_SECONDS)
      ensures s.status == CapacityLimited <==> provider !in windows && |windows| == MAX_LOCAL_PROVIDER_RPM_TRACKERS
      ensures s.status == WarmingUp ==> s.coverageSeconds < WINDOW_SECONDS
      ensures s.status == Ready ==> s.coverageSeconds == WINDOW_SECONDS
    {
      Prune(now);
      var current := SecondsSince(epochStartedAt, now);
      var coverage := Min(current, WINDOW_SECONDS);
      var limited := provider !in windows && |windows| >= MAX_LOCAL_PROVIDER_RPM_TRACKERS;
      var requests := CountFor(windows, provider, epochStartedAt, now, live, history, lastPrunedAt);
      s := Snapshot(requests, coverage, if limited then CapacityLimited else if coverage < WINDOW_SECONDS then WarmingUp else Ready);
    }

    method RemoveProvider(provider: string)
      requires Valid()
      modifies this
      ensures Valid() && history == old(history) - {provider} && latest == old(latest) && epochStartedAt == old(epochStartedAt)
    {
      RemoveKeeps(windows, live, history, epochStartedAt, lastPrunedAt, latest, provider);
      windows := windows - {provider};
      history := history - {provider};
    }

    method Reset(now: nat)
      requires Valid() && latest <= now
      modifies this
      ensures Valid() && history == map[] && latest == now && epochStartedAt == now
    {
      windows, epochStartedAt, lastPrunedAt := map[], now, now;
      history, latest, live := map[], now, map[];
    }
  }
}

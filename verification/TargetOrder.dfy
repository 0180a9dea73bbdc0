/**
 Ordering and filtering of the candidate targets of one request:
 `src/gateway/request_preparation.rs`, `src/security/api_key_scope.rs` and the retry loop of
 `src/gateway/flow.rs`.
 */
module TargetOrder {
  import opened Collections
  import opened Protocols
  import opened RouteFlattening
  import opened RouteAddresses
  import opened ApiKeyScopes

  // ----- key scope --------------------------------------------------------------------

  /** Whether the scope, if any, lets a request for `model` land on target `t`. */
  predicate Permitted(scope: Option<ApiKeyScope>, t: Target) {
    scope.None? || scope.value.AllowsProvider(t.providerId)
  }

  function Permits(scope: Option<ApiKeyScope>): Target -> bool {
    (t: Target) => Permitted(scope, t)
  }

  /** The targets the scope leaves, in order. */
  function Allowed(scope: Option<ApiKeyScope>, targets: seq<Target>): seq<Target> {
    Filter(targets, Permits(scope))
  }

  datatype Denial = NotFound | Unavailable | Forbidden

  datatype Outcome = Ok(targets: seq<Target>) | Err(denial: Denial)

  /** `apply_api_key_scope`: the model rules decide first, then the provider rules drop targets. */
  method ApplyApiKeyScope(scope: Option<ApiKeyScope>, model: string, targets: seq<Target>) returns (r: Outcome)
    requires targets != []
    ensures r == Scoped(scope, model, targets)
  {
    if scope.None? || scope.value.allowedProviderIds == [] {
      AllowedEverything(scope, targets);
    }
    if scope.None? {
      return Ok(targets);
    }
    if !scope.value.AllowsModel(model) {
      return Err(Forbidden);
    }
    if scope.value.allowedProviderIds == [] {
      return Ok(targets);
    }
    var kept := [];
    var i := 0;
    while i < |targets|
      invariant 0 <= i <= |targets| && kept == Allowed(scope, targets[..i])
    {
      AllowedConcat(scope, targets[..i], [targets[i]]);
      FilterOne(targets[i], Permits(scope));
      assert targets[..i] + [targets[i]] == targets[..i + 1];
      if scope.value.AllowsProvider(targets[i].providerId) {
        kept := kept + [targets[i]];
      }
      i := i + 1;
    }
    assert targets[..i] == targets;
    return if kept == [] then Err(Forbidden) else Ok(kept);
  }

  lemma {:induction false} AllowedEverything(scope: Option<ApiKeyScope>, targets: seq<Target>)
    requires scope.None? || scope.value.allowedProviderIds == []
    ensures Allowed(scope, targets) == targets
  {
    if targets == [] {
    } else {
      AllowedEverything(scope, targets[1..]);
    }
  }

  lemma AllowedConcat(scope: Option<ApiKeyScope>, a: seq<Target>, b: seq<Target>)
    ensures Allowed(scope, a + b) == Allowed(scope, a) + Allowed(scope, b)
  {
    FilterConcat(a, b, Permits(scope));
  }

  // ----- rotation ----------------------------------------------------------------------

  function RotateLeft(s: seq<Target>, k: nat): seq<Target>
    requires k <= |s|
  {
    s[k..] + s[..k]
  }

  /** `order_priority_targets`, on a non-empty list. */
  function Rotated(s: seq<Target>, offset: nat): seq<Target>
    requires s != []
  {
    RotateLeft(s, offset % |s|)
  }

  /** Filtering a rotation rotates the filtered list. */
  lemma AllowedRotation(scope: Option<ApiKeyScope>, s: seq<Target>, k: nat)
    requires k <= |s|
    ensures IsRotation(Allowed(scope, RotateLeft(s, k)), Allowed(scope, s))
  {
    AllowedConcat(scope, s[k..], s[..k]);
    AllowedConcat(scope, s[..k], s[k..]);
    assert s[..k] + s[k..] == s;
    var front := Allowed(scope, s[..k]);
    var all := Allowed(scope, s);
    assert Allowed(scope, RotateLeft(s, k)) == RotateLeft(all, |front|);
  }

  // ----- resolving a request ------------------------------------------------------------

  /** The targets a request may use before any rotation, or the reason why there are none. */
  ghost function Candidates(db: Store, alias: Id, proto: Protocol, imported: Option<Target>): Outcome {
    if alias in db.routes then
      var route := db.routes[alias];
      var all := Expansion(db, proto, [alias]);
      if !route.enabled || proto !in route.accepted then Err(NotFound)
      else if !Clean(db, proto, alias) || |all| > MAX_ROUTE_TARGETS || all == [] then Err(Unavailable)
      else Ok(all)
    else if imported.None? then Err(NotFound)
    else if !imported.value.enabled then Err(Unavailable)
    else Ok([imported.value])
  }

  /** The part of `resolve_gateway_targets` before the rotation. */
  method LoadCandidates(db: Store, alias: Id, proto: Protocol, imported: Option<Target>) returns (r: Outcome, strategy: string)
    ensures r == Candidates(db, alias, proto, imported) && (r.Ok? ==> r.targets != [])
    ensures strategy == if alias in db.routes then db.routes[alias].strategy else "priority"
  {
    var stored := LoadStoredRoute(db, alias, proto);
    var targets := [];
    strategy := "priority";
    if stored.Some? {
      var route := stored.value.route;
      strategy := route.strategy;
      if !route.enabled || proto !in route.accepted {
        return Err(NotFound), strategy;
      }
      if stored.value.flattenIssue.Some? {
        return Err(Unavailable), strategy;
      }
      targets := stored.value.targets;
      LeavesEnabled(db, proto, [alias], Rows(db, alias));
      RetainEnabled(targets);
    } else {
      if imported.None? {
        return Err(NotFound), strategy;
      }
      targets := [imported.value];
      assert EnabledOnly(targets) == if imported.value.enabled then targets else [];
    }
    targets := EnabledOnly(targets);
    return if targets == [] then Err(Unavailable) else Ok(targets), strategy;
  }

  /** How far the list is rotated. */
  function Turn(db: Store, alias: Id, counter: nat, offset: nat): nat {
    if RoundRobinRoute(db, alias) then counter else offset
  }

  predicate RoundRobinRoute(db: Store, alias: Id) {
    alias in db.routes && db.routes[alias].strategy == "round_robin"
  }

  /** The targets after the scope, or the refusal. */
  function Scoped(scope: Option<ApiKeyScope>, model: string, targets: seq<Target>): Outcome {
    if (scope.Some? && !scope.value.AllowsModel(model)) || Allowed(scope, targets) == [] then Err(Forbidden)
    else Ok(Allowed(scope, targets))
  }

  /** What preparing a request gives: the candidates turned, then scoped. */
  function Prepared(candidates: Outcome, alias: Id, turn: nat, scope: Option<ApiKeyScope>): Outcome {
    if candidates.Err? || candidates.targets == [] then candidates
    else Scoped(scope, alias, Rotated(candidates.targets, turn))
  }

  class RoundRobin {
    var indexes: map<Id, nat>

    constructor ()
      ensures indexes == map[]
    {
      indexes := map[];
    }

    function Counter(alias: Id): nat
      reads this
    {
      if alias in indexes then indexes[alias] else 0
    }

    /** `resolve_gateway_targets`; `imported` is the imported provider model of that name, if any. */
    method ResolveTargets(db: Store, alias: Id, proto: Protocol, imported: Option<Target>, offset: nat) returns (r: Outcome)
      modifies this
      ensures match Candidates(db, alias, proto, imported)
              case Err(d) => r == Err(d) && indexes == old(indexes)
              case Ok(all) => all != [] && r == Ok(Rotated(all, Turn(db, alias, old(Counter(alias)), offset)))
      ensures RoundRobinRoute(db, alias) && r.Ok? ==>
                indexes == old(indexes)[alias := (old(Counter(alias)) + 1) % (MAX_USIZE + 1)]
      ensures !RoundRobinRoute(db, alias) ==> indexes == old(indexes)
    {
      var candidates, strategy := LoadCandidates(db, alias, proto, imported);
      if candidates.Err? {
        return candidates;
      }
      var targets := candidates.targets;
      if strategy == "round_robin" {
        var current := if alias in indexes then indexes[alias] else 0;
        targets := RotateLeft(targets, current % |targets|);
        indexes := indexes[alias := (current + 1) % (MAX_USIZE + 1)];
      } else {
        targets := Rotated(targets, offset);
      }
      return Ok(targets);
    }

    /** Resolving and scoping together, as one prepared request; the counter moves before the scope is applied. */
    method PrepareTargets(db: Store, alias: Id, proto: Protocol, imported: Option<Target>, offset: nat, scope: Option<ApiKeyScope>)
      returns (r: Outcome)
      modifies this
      ensures r == Prepared(Candidates(db, alias, proto, imported), alias, Turn(db, alias, old(Counter(alias)), offset), scope)
      ensures Counter(alias) == CounterAfter(db, alias, Candidates(db, alias, proto, imported), old(Counter(alias)), 1)
    {
      r := ResolveTargets(db, alias, proto, imported, offset);
      if r.Ok? {
        r := ApplyApiKeyScope(scope, alias, r.targets);
      }
    }
  }

  /** The counter of a route after i successful resolutions. */
  function CounterAfter(db: Store, alias: Id, candidates: Outcome, start: nat, i: nat): nat {
    if RoundRobinRoute(db, alias) && candidates.Ok? then (start + i) % (MAX_USIZE + 1) else start
  }

  /** For every turn the prepared list is a rotation of the allowed candidates, or a refusal when there are none. */
  lemma PreparedIsRotation(all: seq<Target>, alias: Id, turn: nat, scope: Option<ApiKeyScope>)
    requires all != []
    ensures var r := Prepared(Ok(all), alias, turn, scope);
      if (scope.Some? && !scope.value.AllowsModel(alias)) || Allowed(scope, all) == [] then r == Err(Forbidden)
      else r.Ok? && IsRotation(r.targets, Allowed(scope, all)) && r.targets != []
  {
    AllowedRotation(scope, all, turn % |all|);
    RotationEmpty(scope, all, turn % |all|);
  }

  lemma RotationEmpty(scope: Option<ApiKeyScope>, s: seq<Target>, k: nat)
    requires k <= |s|
    ensures Allowed(scope, RotateLeft(s, k)) == [] <==> Allowed(scope, s) == []
  {
    AllowedRotation(scope, s, k);
  }

  function EnabledOnly(targets: seq<Target>): seq<Target> {
    if targets == [] then []
    else if targets[0].enabled then [targets[0]] + EnabledOnly(targets[1..])
    else EnabledOnly(targets[1..])
  }

  lemma {:induction false} RetainEnabled(targets: seq<Target>)
    requires AllEnabled(targets)
    ensures EnabledOnly(targets) == targets
  {
    if targets == [] {
    } else {
      RetainEnabled(targets[1..]);
    }
  }

  // ----- every target leads once ----------------------------------------------------------

  lemma LeaderOf(s: seq<Target>, turn: nat)
    requires s != []
    ensures Rotated(s, turn)[0] == s[turn % |s|]
  {
    var k := turn % |s|;
    assert s[k..][0] == s[k];
  }

  lemma {:induction false} ModStep(a: nat, i: nat, n: nat)
    requires n > 0
    ensures (a + i) % n == (a % n + i) % n
    decreases i
  {
    if i > 0 {
      ModStep(a, i - 1, n);
      var b := a + i - 1;
      var c := a % n + i - 1;
      ModNext(b, n);
      ModNext(c, n);
    } else {
      ModSmall(a % n, n);
    }
  }

  lemma ModNext(b: nat, n: nat)
    requires n > 0
    ensures (b + 1) % n == if b % n + 1 == n then 0 else b % n + 1
  {
    var q, r := b / n, b % n;
    assert b == q * n + r;
    if r + 1 == n {
      assert b + 1 == (q + 1) * n;
      ModUnique(b + 1, n, q + 1, 0);
    } else {
      ModUnique(b + 1, n, q, r + 1);
    }
  }

  lemma ModSmall(a: nat, n: nat)
    requires a < n
    ensures a % n == a
  {
    ModUnique(a, n, 0, a);
  }

  lemma MulSign(d: int, n: nat)
    requires n > 0
    ensures (d >= 1 ==> d * n >= n) && (d <= -1 ==> d * n + n <= 0)
  {
    if d >= 1 {
      assert d * n == n + (d - 1) * n;
    } else {
      assert d * n + n == (d + 1) * n;
    }
  }

  lemma ModUnique(a: nat, n: nat, q: nat, r: nat)
    requires n > 0 && a == q * n + r && r < n
    ensures a % n == r
  {
    var d := a / n - q;
    assert d * n == (a / n) * n - q * n;
    MulSign(d, n);
  }

  /** The index of the target that leads the i-th turn after `start`. */
  function Lead(start: nat, i: nat, n: nat): nat
    requires n > 0
  {
    (start + i) % n
  }

  /** Among n consecutive turns exactly one puts target number j first. */
  lemma EachLeadsOnce(start: nat, n: nat, j: nat)
    requires j < n
    ensures exists i :: 0 <= i < n && Lead(start, i, n) == j
    ensures forall i, k :: 0 <= i < n && 0 <= k < n && Lead(start, i, n) == Lead(start, k, n) ==> i == k
  {
    var s := start % n;
    var i := if j >= s then j - s else j + n - s;
    ModStep(start, i, n);
    WindowMod(s, i, n);
    assert Lead(start, i, n) == j;
    forall i, k | 0 <= i < n && 0 <= k < n && Lead(start, i, n) == Lead(start, k, n)
      ensures i == k
    {
      ModStep(start, i, n);
      ModStep(start, k, n);
      WindowMod(s, i, n);
      WindowMod(s, k, n);
    }
  }

  lemma WindowMod(s: nat, i: nat, n: nat)
    requires s < n && i < n
    ensures (s + i) % n == if s + i < n then s + i else s + i - n
  {
    ModUnique(s + i, n, if s + i < n then 0 else 1, if s + i < n then s + i else s + i - n);
  }

  /** `leads[i]` is the first target of the i-th of n consecutive requests. */
  ghost predicate LeadsAll(leads: seq<Target>, all: seq<Target>, start: nat) {
    |leads| == |all| > 0 && forall i :: 0 <= i < |all| ==> leads[i] == all[Lead(start, i, |all|)]
  }

  /** Such a sequence of leaders is a rotation of the targets: each one leads exactly once. */
  lemma LeadersAreARotation(leads: seq<Target>, all: seq<Target>, start: nat)
    requires LeadsAll(leads, all, start)
    ensures IsRotation(leads, all)
  {
    var n := |all|;
    var s := start % n;
    forall i | 0 <= i < n ensures leads[i] == RotateLeft(all, s)[i] {
      ModStep(start, i, n);
      WindowMod(s, i, n);
    }
    assert leads == RotateLeft(all, s);
  }

  /** One round-robin request: it leads with the target the counter points at. */
  method LeadOfTurn(rr: RoundRobin, db: Store, alias: Id, proto: Protocol, ghost all: seq<Target>) returns (lead: Target, n: nat)
    requires Candidates(db, alias, proto, None) == Ok(all) && all != [] && RoundRobinRoute(db, alias)
    requires rr.Counter(alias) < MAX_USIZE
    modifies rr
    ensures n == |all| && lead == all[old(rr.Counter(alias)) % n]
    ensures rr.Counter(alias) == old(rr.Counter(alias)) + 1
  {
    ghost var turn := rr.Counter(alias);
    LeaderOf(all, turn);
    ModSmall(turn + 1, MAX_USIZE + 1);
    var r := rr.ResolveTargets(db, alias, proto, None, 0);
    lead, n := r.targets[0], |r.targets|;
  }

  /** n consecutive round-robin requests on an unchanged route, by a key without a scope. */
  method RoundRobinCycle(rr: RoundRobin, db: Store, alias: Id, proto: Protocol) returns (leads: seq<Target>)
    requires Candidates(db, alias, proto, None).Ok? && RoundRobinRoute(db, alias)
    requires rr.Counter(alias) + |Candidates(db, alias, proto, None).targets| <= MAX_USIZE
    modifies rr
    ensures LeadsAll(leads, Candidates(db, alias, proto, None).targets, old(rr.Counter(alias)))
    ensures IsRotation(leads, Candidates(db, alias, proto, None).targets)
  {
    ghost var all := Candidates(db, alias, proto, None).targets;
    ghost var start := rr.Counter(alias);
    var first, n := LeadOfTurn(rr, db, alias, proto, all);
    leads := [first];
    while |leads| < n
      invariant 1 <= |leads| <= n == |all|
      invariant rr.Counter(alias) == start + |leads|
      invariant forall i :: 0 <= i < |leads| ==> leads[i] == all[Lead(start, i, n)]
    {
      var lead, _ := LeadOfTurn(rr, db, alias, proto, all);
      leads := leads + [lead];
    }
    LeadersAreARotation(leads, all, start);
  }

  // ----- retries -----------------------------------------------------------------------------

  predicate IsServerError(status: nat) {
    500 <= status < 600
  }

  /** The status of an attempt: the dispatcher answers for prepared targets, a refusal has its own status. */
  function StatusOf(answer: (nat, seq<Target>) -> nat, attempt: nat, prepared: Outcome): nat {
    match prepared
    case Ok(targets) => answer(attempt, targets)
    case Err(NotFound) => 404
    case Err(Unavailable) => 503
    case Err(Forbidden) => 403
  }

  /** What attempt i of one request prepares: its offset is i, and earlier attempts have moved the counter. */
  function Attempt(db: Store, alias: Id, candidates: Outcome, start: nat, scope: Option<ApiKeyScope>, i: nat): Outcome {
    Prepared(candidates, alias, Turn(db, alias, CounterAfter(db, alias, candidates, start, i), i), scope)
  }

  /** Attempts 0, 1, .. of one request, all but the last of them answered with a server error. */
  predicate Attempted(db: Store, alias: Id, candidates: Outcome, start: nat, scope: Option<ApiKeyScope>,
                      answer: (nat, seq<Target>) -> nat, attempts: seq<Outcome>)
  {
    && (forall i :: 0 <= i < |attempts| ==> AttemptAt(db, alias, candidates, start, scope, attempts, i))
    && (forall i :: 0 <= i < |attempts| - 1 ==> FailedAt(answer, attempts, i))
  }

  predicate AttemptAt(db: Store, alias: Id, candidates: Outcome, start: nat, scope: Option<ApiKeyScope>, attempts: seq<Outcome>, i: nat)
    requires i < |attempts|
  {
    attempts[i] == Attempt(db, alias, candidates, start, scope, i)
  }

  predicate FailedAt(answer: (nat, seq<Target>) -> nat, attempts: seq<Outcome>, i: nat)
    requires i < |attempts|
  {
    IsServerError(StatusOf(answer, i, attempts[i]))
  }

  /**
   `execute_with_server_retries` without stream continuity, on an unchanged store: attempt i prepares the
   request anew with rotation offset i and dispatches it. `answer(i, targets)` is the status attempt i gets
   for those targets; `attempts` is what was prepared.
   */
  method ExecuteWithServerRetries(rr: RoundRobin, db: Store, alias: Id, proto: Protocol, imported: Option<Target>,
                                  scope: Option<ApiKeyScope>, answer: (nat, seq<Target>) -> nat, maxAttempts: nat)
    returns (status: nat, attempts: seq<Outcome>)
    requires rr.Counter(alias) <= MAX_USIZE
    modifies rr
    ensures Attempted(db, alias, Candidates(db, alias, proto, imported), old(rr.Counter(alias)), scope, answer, attempts)
    ensures 1 <= |attempts| <= Max(1, maxAttempts)
    ensures status == StatusOf(answer, |attempts| - 1, attempts[|attempts| - 1])
    ensures IsServerError(status) ==> |attempts| >= maxAttempts
    ensures rr.Counter(alias) == CounterAfter(db, alias, Candidates(db, alias, proto, imported), old(rr.Counter(alias)), |attempts|)
  {
    ghost var start := rr.Counter(alias);
    ghost var candidates := Candidates(db, alias, proto, imported);
    var attempt := 0;
    attempts := [];
    CounterStart(start);
    while true
      invariant |attempts| == attempt && (attempt == 0 || attempt < maxAttempts)
      invariant Attempted(db, alias, candidates, start, scope, answer, attempts)
      invariant attempt > 0 ==> FailedAt(answer, attempts, attempt - 1)
      invariant rr.Counter(alias) == CounterAfter(db, alias, candidates, start, attempt)
      decreases maxAttempts - attempt
    {
      attempts := PrepareAttempt(rr, db, alias, proto, imported, scope, attempts, start, candidates, answer);
      status := StatusOf(answer, attempt, attempts[attempt]);
      if !IsServerError(status) || attempt + 1 >= maxAttempts {
        return;
      }
      attempt := attempt + 1;
    }
  }

  /** One more attempt. */
  method PrepareAttempt(rr: RoundRobin, db: Store, alias: Id, proto: Protocol, imported: Option<Target>, scope: Option<ApiKeyScope>,
                        before: seq<Outcome>, ghost start: nat, ghost candidates: Outcome, ghost answer: (nat, seq<Target>) -> nat)
    returns (attempts: seq<Outcome>)
    requires candidates == Candidates(db, alias, proto, imported)
    requires rr.Counter(alias) == CounterAfter(db, alias, candidates, start, |before|)
    requires Attempted(db, alias, candidates, start, scope, answer, before)
    requires before != [] ==> FailedAt(answer, before, |before| - 1)
    modifies rr
    ensures |attempts| == |before| + 1 && Attempted(db, alias, candidates, start, scope, answer, attempts)
    ensures rr.Counter(alias) == CounterAfter(db, alias, candidates, start, |attempts|)
  {
    CounterStep(start, |before|);
    var prepared := rr.PrepareTargets(db, alias, proto, imported, |before|, scope);
    attempts := before + [prepared];
    OneMoreAttempt(db, alias, candidates, start, scope, answer, before, prepared);
  }

  lemma OneMoreAttempt(db: Store, alias: Id, candidates: Outcome, start: nat, scope: Option<ApiKeyScope>,
                       answer: (nat, seq<Target>) -> nat, before: seq<Outcome>, prepared: Outcome)
    requires Attempted(db, alias, candidates, start, scope, answer, before)
    requires before != [] ==> FailedAt(answer, before, |before| - 1)
    requires prepared == Attempt(db, alias, candidates, start, scope, |before|)
    ensures Attempted(db, alias, candidates, start, scope, answer, before + [prepared])
  {
    var attempts := before + [prepared];
    forall i | 0 <= i < |attempts| ensures AttemptAt(db, alias, candidates, start, scope, attempts, i) {
      if i < |before| {
        assert AttemptAt(db, alias, candidates, start, scope, before, i);
      }
    }
    forall i | 0 <= i < |attempts| - 1 ensures FailedAt(answer, attempts, i) {
      assert FailedAt(answer, before, i);
    }
  }

  lemma CounterStart(start: nat)
    requires start <= MAX_USIZE
    ensures (start + 0) % (MAX_USIZE + 1) == start
  {
    ModSmall(start, MAX_USIZE + 1);
  }

  lemma CounterStep(start: nat, i: nat)
    ensures ((start + i) % (MAX_USIZE + 1) + 1) % (MAX_USIZE + 1) == (start + (i + 1)) % (MAX_USIZE + 1)
  {
    ModStep(start + i, 1, MAX_USIZE + 1);
  }

  /** A turn that falls on a target the key may use leads with that target. */
  lemma TurnLeads(all: seq<Target>, alias: Id, turn: nat, scope: Option<ApiKeyScope>)
    requires all != [] && (scope.Some? ==> scope.value.AllowsModel(alias)) && Permitted(scope, all[turn % |all|])
    ensures LeadsWith(Prepared(Ok(all), alias, turn, scope), all[turn % |all|])
  {
    LeaderOf(all, turn);
    var r := Rotated(all, turn);
    assert r == [r[0]] + r[1..];
    AllowedConcat(scope, [r[0]], r[1..]);
    FilterOne(r[0], Permits(scope));
  }

  predicate LeadsWith(attempt: Outcome, target: Target) {
    attempt.Ok? && attempt.targets != [] && attempt.targets[0] == target
  }

  /** Attempt i turns the candidates by `start + i`, where a route without a counter starts at 0. */
  lemma AttemptLeads(db: Store, alias: Id, all: seq<Target>, start: nat, scope: Option<ApiKeyScope>, i: nat)
    requires all != [] && (RoundRobinRoute(db, alias) ==> start + i <= MAX_USIZE) && (scope.Some? ==> scope.value.AllowsModel(alias))
    requires Permitted(scope, all[Lead(Turn(db, alias, start, 0), i, |all|)])
    ensures LeadsWith(Attempt(db, alias, Ok(all), start, scope, i), all[Lead(Turn(db, alias, start, 0), i, |all|)])
  {
    if RoundRobinRoute(db, alias) {
      ModSmall(start + i, MAX_USIZE + 1);
    }
    TurnLeads(all, alias, Turn(db, alias, start, 0) + i, scope);
  }

  /**
   When every attempt fails, the attempts of one request lead with the targets in their order, each of the n
   targets once in n attempts; a round-robin route starts at its counter, and a scoped key leads with every
   target it may use.
   */
  method RetriesLeadWithEachTarget(rr: RoundRobin, db: Store, alias: Id, proto: Protocol, imported: Option<Target>,
                                   scope: Option<ApiKeyScope>, answer: (nat, seq<Target>) -> nat, maxAttempts: nat)
    returns (attempts: seq<Outcome>, ghost all: seq<Target>)
    requires Candidates(db, alias, proto, imported).Ok? && maxAttempts >= 1
    requires rr.Counter(alias) <= MAX_USIZE && (RoundRobinRoute(db, alias) ==> rr.Counter(alias) + maxAttempts <= MAX_USIZE)
    requires forall i, targets :: IsServerError(answer(i, targets))
    requires scope.Some? ==> scope.value.AllowsModel(alias)
    requires Allowed(scope, Candidates(db, alias, proto, imported).targets) != []
    modifies rr
    ensures all == Candidates(db, alias, proto, imported).targets && all != [] && |attempts| == maxAttempts
    ensures forall i :: 0 <= i < maxAttempts && Permitted(scope, all[Lead(Turn(db, alias, old(rr.Counter(alias)), 0), i, |all|)]) ==>
              LeadsWith(attempts[i], all[Lead(Turn(db, alias, old(rr.Counter(alias)), 0), i, |all|)])
    ensures scope.None? && maxAttempts == |all| ==> AllLead(attempts) && IsRotation(Leads(attempts), all)
    ensures scope.None? && maxAttempts == |all| && !RoundRobinRoute(db, alias) ==> Leads(attempts) == all
  {
    all := Candidates(db, alias, proto, imported).targets;
    ghost var start := rr.Counter(alias);
    var status;
    status, attempts := ExecuteWithServerRetries(rr, db, alias, proto, imported, scope, answer, maxAttempts);
    AttemptsNeverRefused(db, alias, all, start, scope, attempts);
    forall i | 0 <= i < maxAttempts && Permitted(scope, all[Lead(Turn(db, alias, start, 0), i, |all|)])
      ensures LeadsWith(attempts[i], all[Lead(Turn(db, alias, start, 0), i, |all|)])
    {
      assert AttemptAt(db, alias, Ok(all), start, scope, attempts, i);
      AttemptLeads(db, alias, all, start, scope, i);
    }
    if scope.None? && maxAttempts == |all| {
      LeadersAreARotation(Leads(attempts), all, Turn(db, alias, start, 0));
      if !RoundRobinRoute(db, alias) {
        LeadersInOrder(Leads(attempts), all);
      }
    }
  }

  /** With something left for the key, no attempt is refused. */
  lemma AttemptsNeverRefused(db: Store, alias: Id, all: seq<Target>, start: nat, scope: Option<ApiKeyScope>, attempts: seq<Outcome>)
    requires all != [] && (scope.Some? ==> scope.value.AllowsModel(alias)) && Allowed(scope, all) != []
    requires forall i :: 0 <= i < |attempts| ==> AttemptAt(db, alias, Ok(all), start, scope, attempts, i)
    ensures AllLead(attempts)
  {
    forall i | 0 <= i < |attempts| ensures attempts[i].Ok? && attempts[i].targets != [] {
      PreparedIsRotation(all, alias, Turn(db, alias, CounterAfter(db, alias, Ok(all), start, i), i), scope);
      assert AttemptAt(db, alias, Ok(all), start, scope, attempts, i);
    }
  }

  lemma LeadersInOrder(leads: seq<Target>, all: seq<Target>)
    requires LeadsAll(leads, all, 0)
    ensures leads == all
  {
    forall i | 0 <= i < |all| ensures leads[i] == all[i] {
      assert leads[i] == all[Lead(0, i, |all|)];
      ModSmall(i, |all|);
    }
  }

  predicate AllLead(attempts: seq<Outcome>) {
    forall i :: 0 <= i < |attempts| ==> attempts[i].Ok? && attempts[i].targets != []
  }

  /** The first target of every attempt. */
  function Leads(attempts: seq<Outcome>): seq<Target>
    requires AllLead(attempts)
  {
    seq(|attempts|, i requires 0 <= i < |attempts| => attempts[i].targets[0])
  }

  /** Unknown or forbidden requests are answered at once; an unavailable route is tried as often as a failing provider. */
  lemma RefusalsRetried(db: Store, alias: Id, candidates: Outcome, start: nat, scope: Option<ApiKeyScope>,
                        answer: (nat, seq<Target>) -> nat, attempts: seq<Outcome>)
    requires Attempted(db, alias, candidates, start, scope, answer, attempts) && attempts != []
    ensures candidates == Err(NotFound) || candidates == Err(Forbidden) ==> |attempts| == 1
    ensures candidates.Ok? && candidates.targets != [] && Scoped(scope, alias, candidates.targets).Err? ==> |attempts| == 1
    ensures candidates == Err(Unavailable) ==> IsServerError(StatusOf(answer, |attempts| - 1, attempts[|attempts| - 1]))
  {
    assert AttemptAt(db, alias, candidates, start, scope, attempts, 0);
    assert AttemptAt(db, alias, candidates, start, scope, attempts, |attempts| - 1);
    if candidates.Ok? && candidates.targets != [] {
      PreparedIsRotation(candidates.targets, alias, Turn(db, alias, CounterAfter(db, alias, candidates, start, 0), 0), scope);
    }
    if |attempts| > 1 {
      assert FailedAt(answer, attempts, 0);
    }
  }

  /**
   Whatever the turn, a request is only ever sent to an enabled target that the key may use and that a chain of
   references from an enabled route accepting the protocol offers, or to the imported model of that name.
   */
  lemma PreparedTargetsAreOffered(db: Store, alias: Id, proto: Protocol, imported: Option<Target>, turn: nat, scope: Option<ApiKeyScope>, t: Target)
    requires var r := Prepared(Candidates(db, alias, proto, imported), alias, turn, scope); r.Ok? && t in r.targets
    ensures t.enabled && Permitted(scope, t) && (scope.Some? ==> scope.value.AllowsModel(alias))
    ensures alias in db.routes ==>
      && db.routes[alias].enabled && proto in db.routes[alias].accepted
      && exists q: Path :: q[0] == alias && Chain(db, proto, q) && Offers(db, Here(q), t)
    ensures alias !in db.routes ==> imported == Some(t)
  {
    var all := Candidates(db, alias, proto, imported).targets;
    var k := turn % |all|;
    FilterMembers(Rotated(all, turn), Permits(scope), t);
    assert t in all[k..] + all[..k];
    assert t in all;
    if alias in db.routes {
      FlattenedIff(db, proto, alias, t);
    }
  }
}

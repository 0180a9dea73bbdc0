/**
 Expansion of nested combo references, `src/gateway/request_preparation.rs`.

 A store maps route ids to route records and to their target rows in stored order. Flattening
 walks the rows of a route depth first, replaces every reference to another combo by that
 combo's own targets, and stops at the first structural problem.
 */
module RouteFlattening {
  import opened Collections
  import opened Protocols

  const MAX_ROUTE_TARGETS: nat := 32
  const MAX_COMBO_NESTING_DEPTH: nat := 8

  type Id = string

  datatype Target = Target(providerId: string, model: string, enabled: bool)

  /** One stored row: a provider target, or a reference to another combo. */
  datatype Row = ProviderRow(enabled: bool, providerId: string, model: string) | ComboRow(enabled: bool, comboId: Id)

  /** `build_target`, without the upstream protocols looked up for it. */
  function BuildTarget(row: Row): Target
    requires row.ProviderRow?
  {
    Target(row.providerId, row.model, row.enabled)
  }

  datatype Route = Route(enabled: bool, strategy: string, accepted: set<Protocol>)

  datatype Store = Store(routes: map<Id, Route>, rows: map<Id, seq<Row>>)

  datatype Issue =
    | TooManyTargets(expanded: nat)
    | Missing(comboId: Id)
    | Cycle(comboId: Id)
    | Depth(comboId: Id)

  function Rows(db: Store, id: Id): seq<Row> {
    if id in db.rows then db.rows[id] else []
  }

  /** A nested combo that is expanded: it is enabled and accepts the client protocol. */
  predicate Entered(db: Store, proto: Protocol, id: Id) {
    id in db.routes && db.routes[id].enabled && proto in db.routes[id].accepted
  }

  type Path = p: seq<Id> | 1 <= |p| witness [""]

  function Here(path: Path): Id {
    path[|path| - 1]
  }

  // ----- the expansion, in place and in stored order ---------------------------------

  /** The targets one row stands for. */
  function RowLeaves(db: Store, proto: Protocol, path: Path, row: Row): seq<Target>
    decreases MAX_COMBO_NESTING_DEPTH + 1 - |path|, 0
  {
    if !row.enabled then []
    else if row.ProviderRow? then [BuildTarget(row)]
    else if row.comboId in path || |path| > MAX_COMBO_NESTING_DEPTH || !Entered(db, proto, row.comboId) then []
    else Leaves(db, proto, path + [row.comboId], Rows(db, row.comboId))
  }

  /** The concatenation of what the rows stand for. */
  function Leaves(db: Store, proto: Protocol, path: Path, rows: seq<Row>): seq<Target>
    decreases MAX_COMBO_NESTING_DEPTH + 1 - |path|, 1, |rows|
  {
    if rows == [] then []
    else Leaves(db, proto, path, rows[..|rows| - 1]) + RowLeaves(db, proto, path, rows[|rows| - 1])
  }

  function Expansion(db: Store, proto: Protocol, path: Path): seq<Target> {
    Leaves(db, proto, path, Rows(db, Here(path)))
  }

  // ----- structural soundness ---------------------------------------------------------

  /** A reference that can be followed from `path`, down to the last nested row. */
  ghost predicate RowOk(db: Store, proto: Protocol, path: Path, row: Row)
    decreases MAX_COMBO_NESTING_DEPTH + 1 - |path|, 0
  {
    row.enabled && row.ComboRow? ==>
      && row.comboId !in path
      && |path| <= MAX_COMBO_NESTING_DEPTH
      && row.comboId in db.routes
      && (Entered(db, proto, row.comboId) ==> RouteOk(db, proto, path + [row.comboId]))
  }

  ghost predicate RouteOk(db: Store, proto: Protocol, path: Path)
    decreases MAX_COMBO_NESTING_DEPTH + 1 - |path|, 1
  {
    var rows := Rows(db, Here(path));
    |rows| <= MAX_ROUTE_TARGETS && forall i :: 0 <= i < |rows| ==> RowOk(db, proto, path, rows[i])
  }

  /** An enabled row of `parent` refers to `child`. */
  predicate Refers(db: Store, parent: Id, child: Id) {
    exists i :: 0 <= i < |Rows(db, parent)| && Rows(db, parent)[i] == ComboRow(true, child)
  }

  /** A way down the explored expansion tree: every combo is referred to by the one before and entered. */
  ghost predicate Chain(db: Store, proto: Protocol, path: Path) {
    forall i :: 0 < i < |path| ==> Linked(db, proto, path, i)
  }

  predicate Linked(db: Store, proto: Protocol, path: Path, i: nat)
    requires 0 < i < |path|
  {
    Refers(db, path[i - 1], path[i]) && Entered(db, proto, path[i])
  }

  /** What is wrong at the end of a chain. */
  predicate FaultAt(db: Store, path: Path, issue: Issue) {
    match issue
    case TooManyTargets(n) => |Rows(db, Here(path))| > MAX_ROUTE_TARGETS && n == MAX_ROUTE_TARGETS + 1
    case Cycle(c) => Refers(db, Here(path), c) && c in path
    case Depth(c) => Refers(db, Here(path), c) && |path| > MAX_COMBO_NESTING_DEPTH
    case Missing(c) => Refers(db, Here(path), c) && c !in db.routes
  }

  /** The issue is real: some chain below `path` has it, or the expansion is too long. */
  ghost predicate Blamed(db: Store, proto: Protocol, path: Path, issue: Issue, expanded: nat) {
    || (exists q: Path :: path <= q && Chain(db, proto, q) && FaultAt(db, q, issue))
    || (issue == TooManyTargets(MAX_ROUTE_TARGETS + 1) && expanded > MAX_ROUTE_TARGETS)
  }

  // ----- the first issue in walk order --------------------------------------------------

  /** The issue met in one row, when `count` targets were collected before it. */
  function RowIssue(db: Store, proto: Protocol, path: Path, row: Row, count: nat): Option<Issue>
    decreases MAX_COMBO_NESTING_DEPTH + 1 - |path|, 0
  {
    if !row.enabled then None
    else if row.ProviderRow? then if count < MAX_ROUTE_TARGETS then None else Some(TooManyTargets(count + 1))
    else if row.comboId in path then Some(Cycle(row.comboId))
    else if |path| > MAX_COMBO_NESTING_DEPTH then Some(Depth(row.comboId))
    else if row.comboId !in db.routes then Some(Missing(row.comboId))
    else if !Entered(db, proto, row.comboId) then None
    else RouteIssue(db, proto, path + [row.comboId], count)
  }

  /** The issue of the earliest row that has one. */
  function RowsIssue(db: Store, proto: Protocol, path: Path, rows: seq<Row>, count: nat): Option<Issue>
    decreases MAX_COMBO_NESTING_DEPTH + 1 - |path|, 1, |rows|
  {
    if rows == [] then None
    else
      var before := rows[..|rows| - 1];
      var issue := RowsIssue(db, proto, path, before, count);
      if issue.Some? then issue
      else RowIssue(db, proto, path, rows[|rows| - 1], count + |Leaves(db, proto, path, before)|)
  }

  function RouteIssue(db: Store, proto: Protocol, path: Path, count: nat): Option<Issue>
    decreases MAX_COMBO_NESTING_DEPTH + 1 - |path|, 2
  {
    var rows := Rows(db, Here(path));
    if |rows| > MAX_ROUTE_TARGETS then Some(TooManyTargets(MAX_ROUTE_TARGETS + 1))
    else RowsIssue(db, proto, path, rows, count)
  }

  lemma RowsIssueNext(db: Store, proto: Protocol, path: Path, done: seq<Row>, row: Row, count: nat)
    requires RowsIssue(db, proto, path, done, count).None?
    ensures RowsIssue(db, proto, path, done + [row], count)
         == RowIssue(db, proto, path, row, count + |Leaves(db, proto, path, done)|)
  {
    assert (done + [row])[..|done|] == done;
  }

  lemma {:induction false} RowsIssueStays(db: Store, proto: Protocol, path: Path, rows: seq<Row>, k: nat, count: nat)
    requires k <= |rows| && (k < |rows| ==> RowsIssue(db, proto, path, rows[..k], count).Some?)
    ensures RowsIssue(db, proto, path, rows, count) == RowsIssue(db, proto, path, rows[..k], count)
    decreases |rows|
  {
    if k == |rows| {
      assert rows[..k] == rows;
    } else {
      assert rows[..|rows| - 1][..k] == rows[..k];
      RowsIssueStays(db, proto, path, rows[..|rows| - 1], k, count);
    }
  }

  // ----- the recursive walk -------------------------------------------------------------

  /** The accumulated targets and the first problem, together with the combos being expanded. */
  class FlattenedTargets {
    var targets: seq<Target>
    var issue: Option<Issue>
    var path: Path

    constructor (root: Id)
      ensures targets == [] && issue.None? && path == [root]
    {
      targets, issue, path := [], None, [root];
    }
  }

  /** `flatten_route_targets`: appends the targets of the route at the end of `out.path`. */
  method FlattenRouteTargets(db: Store, proto: Protocol, out: FlattenedTargets)
    requires |out.path| <= MAX_COMBO_NESTING_DEPTH + 1 && Chain(db, proto, out.path)
    requires out.issue.None? && |out.targets| <= MAX_ROUTE_TARGETS
    modifies out
    ensures out.path == old(out.path)
    ensures out.issue.None? <==>
              RouteOk(db, proto, out.path) && |old(out.targets)| + |Expansion(db, proto, out.path)| <= MAX_ROUTE_TARGETS
    ensures out.issue.None? ==> out.targets == old(out.targets) + Expansion(db, proto, out.path)
    ensures out.issue.Some? ==>
              Blamed(db, proto, out.path, out.issue.value, |old(out.targets)| + |Expansion(db, proto, out.path)|)
    ensures out.issue == RouteIssue(db, proto, out.path, |old(out.targets)|)
    decreases MAX_COMBO_NESTING_DEPTH + 1 - |out.path|, 2
  {
    ghost var path, start := out.path, out.targets;
    var all := Rows(db, Here(out.path));
    var records := if |all| > MAX_ROUTE_TARGETS + 1 then all[..MAX_ROUTE_TARGETS + 1] else all;
    if |records| > MAX_ROUTE_TARGETS {
      out.issue := Some(TooManyTargets(|records|));
      assert FaultAt(db, path, out.issue.value);
      return;
    }
    WalkRows(db, proto, records, out, start);
  }

  /** The row loop: it stops at the first issue. */
  method WalkRows(db: Store, proto: Protocol, records: seq<Row>, out: FlattenedTargets, ghost start: seq<Target>)
    requires |out.path| <= MAX_COMBO_NESTING_DEPTH + 1 && Chain(db, proto, out.path)
    requires records == Rows(db, Here(out.path))
    requires out.issue.None? && out.targets == start && |start| <= MAX_ROUTE_TARGETS
    modifies out
    ensures out.path == old(out.path)
    ensures WalkedTo(db, proto, out.path, start, records, out.targets, out.issue)
    ensures out.issue == RowsIssue(db, proto, out.path, records, |start|)
    decreases MAX_COMBO_NESTING_DEPTH + 1 - |out.path|, 1
  {
    ghost var path := out.path;
    var k := 0;
    while k < |records|
      invariant 0 <= k <= |records| && out.path == path
      invariant WalkedTo(db, proto, path, start, records[..k], out.targets, out.issue)
      invariant out.issue == RowsIssue(db, proto, path, records[..k], |start|)
    {
      if out.issue.Some? {
        break;
      }
      RowsIssueNext(db, proto, path, records[..k], records[k], |start|);
      FlattenRow(db, proto, records[k], out, start, records[..k]);
      assert records[..k] + [records[k]] == records[..k + 1];
      k := k + 1;
    }
    WalkedAll(db, proto, path, start, records, k, out.targets, out.issue);
    RowsIssueStays(db, proto, path, records, k, |start|);
  }

  ghost predicate RowsOk(db: Store, proto: Protocol, path: Path, rows: seq<Row>) {
    forall i :: 0 <= i < |rows| ==> RowOk(db, proto, path, rows[i])
  }

  lemma RowsOkAppend(db: Store, proto: Protocol, path: Path, rows: seq<Row>, row: Row)
    ensures RowsOk(db, proto, path, rows + [row]) <==> RowsOk(db, proto, path, rows) && RowOk(db, proto, path, row)
  {
    var all := rows + [row];
    if RowsOk(db, proto, path, all) {
      assert RowOk(db, proto, path, all[|rows|]);
      forall i | 0 <= i < |rows| ensures RowOk(db, proto, path, rows[i]) {
        assert all[i] == rows[i];
      }
    }
  }

  /** The state of the walk after a prefix of the rows. */
  ghost predicate WalkedTo(db: Store, proto: Protocol, path: Path, start: seq<Target>, rows: seq<Row>, targets: seq<Target>, issue: Option<Issue>) {
    var size := |start| + |Leaves(db, proto, path, rows)|;
    && (issue.None? <==> RowsOk(db, proto, path, rows) && size <= MAX_ROUTE_TARGETS)
    && (issue.None? ==> targets == start + Leaves(db, proto, path, rows))
    && (issue.Some? ==> Blamed(db, proto, path, issue.value, size))
  }

  lemma {:induction false} LeavesGrow(db: Store, proto: Protocol, path: Path, rows: seq<Row>, k: nat)
    requires k <= |rows|
    ensures |Leaves(db, proto, path, rows[..k])| <= |Leaves(db, proto, path, rows)|
    decreases |rows|
  {
    if k < |rows| {
      LeavesGrow(db, proto, path, rows[..|rows| - 1], k);
      assert rows[..|rows| - 1][..k] == rows[..k];
    } else {
      assert rows[..k] == rows;
    }
  }

  /** An issue found in a prefix is an issue of the whole route. */
  lemma WalkedAll(db: Store, proto: Protocol, path: Path, start: seq<Target>, rows: seq<Row>, k: nat, targets: seq<Target>, issue: Option<Issue>)
    requires k <= |rows| && (k < |rows| ==> issue.Some?)
    requires WalkedTo(db, proto, path, start, rows[..k], targets, issue)
    ensures WalkedTo(db, proto, path, start, rows, targets, issue)
  {
    LeavesGrow(db, proto, path, rows, k);
    if k == |rows| {
      assert rows[..k] == rows;
    } else {
      assert forall i :: 0 <= i < k ==> rows[..k][i] == rows[i];
    }
  }

  lemma LeavesAppend(db: Store, proto: Protocol, path: Path, rows: seq<Row>, row: Row)
    ensures Leaves(db, proto, path, rows + [row]) == Leaves(db, proto, path, rows) + RowLeaves(db, proto, path, row)
  {
    assert (rows + [row])[..|rows|] == rows;
  }

  lemma ChainExtend(db: Store, proto: Protocol, path: Path, c: Id)
    requires Chain(db, proto, path) && Refers(db, Here(path), c) && Entered(db, proto, c)
    ensures Chain(db, proto, path + [c])
  {
    var q: Path := path + [c];
    forall i | 0 < i < |q| ensures Linked(db, proto, q, i) {
      if i < |path| {
        assert Linked(db, proto, path, i);
      }
    }
  }

  /** One iteration of the row loop. */
  method FlattenRow(db: Store, proto: Protocol, row: Row, out: FlattenedTargets, ghost start: seq<Target>, ghost done: seq<Row>)
    requires |out.path| <= MAX_COMBO_NESTING_DEPTH + 1 && Chain(db, proto, out.path)
    requires exists i :: 0 <= i < |Rows(db, Here(out.path))| && Rows(db, Here(out.path))[i] == row
    requires out.issue.None? && WalkedTo(db, proto, out.path, start, done, out.targets, None)
    modifies out
    ensures out.path == old(out.path)
    ensures WalkedTo(db, proto, out.path, start, done + [row], out.targets, out.issue)
    ensures out.issue == RowIssue(db, proto, out.path, row, |old(out.targets)|)
    decreases MAX_COMBO_NESTING_DEPTH + 1 - |out.path|, 0, 1
  {
    ghost var path, before := out.path, out.targets;
    if !row.enabled {
      RowDone(db, proto, path, start, done, row, before, before);
      return;
    }
    if row.ProviderRow? {
      out.targets := out.targets + [BuildTarget(row)];
      RowDone(db, proto, path, start, done, row, before, out.targets);
      if |out.targets| > MAX_ROUTE_TARGETS {
        out.issue := Some(TooManyTargets(|out.targets|));
      }
      return;
    }
    FlattenReference(db, proto, row, out, start, done);
  }

  /** An enabled reference to another combo. */
  method FlattenReference(db: Store, proto: Protocol, row: Row, out: FlattenedTargets, ghost start: seq<Target>, ghost done: seq<Row>)
    requires |out.path| <= MAX_COMBO_NESTING_DEPTH + 1 && Chain(db, proto, out.path)
    requires row.ComboRow? && row.enabled && Refers(db, Here(out.path), row.comboId)
    requires out.issue.None? && WalkedTo(db, proto, out.path, start, done, out.targets, None)
    modifies out
    ensures out.path == old(out.path)
    ensures WalkedTo(db, proto, out.path, start, done + [row], out.targets, out.issue)
    ensures out.issue == RowIssue(db, proto, out.path, row, |old(out.targets)|)
    decreases MAX_COMBO_NESTING_DEPTH + 1 - |out.path|, 0, 0
  {
    ghost var path, before := out.path, out.targets;
    var c := row.comboId;
    if c in out.path {
      out.issue := Some(Cycle(c));
      RowFaulty(db, proto, path, start, done, row, before, out.issue.value);
      return;
    }
    if |out.path| > MAX_COMBO_NESTING_DEPTH {
      out.issue := Some(Depth(c));
      RowFaulty(db, proto, path, start, done, row, before, out.issue.value);
      return;
    }
    if c !in db.routes {
      out.issue := Some(Missing(c));
      RowFaulty(db, proto, path, start, done, row, before, out.issue.value);
      return;
    }
    if !db.routes[c].enabled || proto !in db.routes[c].accepted {
      RowDone(db, proto, path, start, done, row, before, before);
      return;
    }
    ChainExtend(db, proto, path, c);
    out.path := out.path + [c];
    FlattenRouteTargets(db, proto, out);
    assert out.path == path + [c];
    out.path := out.path[..|out.path| - 1];
    RowNested(db, proto, path, start, done, row, before, out.targets, out.issue);
  }

  /** A sound row contributes its leaves; they may push the list over the limit. */
  lemma RowDone(db: Store, proto: Protocol, path: Path, start: seq<Target>, done: seq<Row>, row: Row, before: seq<Target>, after: seq<Target>)
    requires WalkedTo(db, proto, path, start, done, before, None) && RowOk(db, proto, path, row)
    requires after == before + RowLeaves(db, proto, path, row) && |after| <= MAX_ROUTE_TARGETS + 1
    ensures WalkedTo(db, proto, path, start, done + [row], after,
              if |after| > MAX_ROUTE_TARGETS then Some(TooManyTargets(|after|)) else None)
  {
    LeavesAppend(db, proto, path, done, row);
    RowsOkAppend(db, proto, path, done, row);
    assert after == start + Leaves(db, proto, path, done + [row]);
  }

  lemma RowFaulty(db: Store, proto: Protocol, path: Path, start: seq<Target>, done: seq<Row>, row: Row, before: seq<Target>, issue: Issue)
    requires WalkedTo(db, proto, path, start, done, before, None) && !RowOk(db, proto, path, row)
    requires Chain(db, proto, path) && FaultAt(db, path, issue)
    ensures WalkedTo(db, proto, path, start, done + [row], before, Some(issue))
  {
    RowsOkAppend(db, proto, path, done, row);
    assert path <= path;
  }

  lemma RowNested(db: Store, proto: Protocol, path: Path, start: seq<Target>, done: seq<Row>, row: Row, before: seq<Target>, after: seq<Target>, issue: Option<Issue>)
    requires WalkedTo(db, proto, path, start, done, before, None)
    requires row.enabled && row.ComboRow? && row.comboId !in path && |path| <= MAX_COMBO_NESTING_DEPTH && Entered(db, proto, row.comboId)
    requires var inner := path + [row.comboId];
             var size := |before| + |Expansion(db, proto, inner)|;
             && (issue.None? <==> RouteOk(db, proto, inner) && size <= MAX_ROUTE_TARGETS)
             && (issue.None? ==> after == before + Expansion(db, proto, inner))
             && (issue.Some? ==> Blamed(db, proto, inner, issue.value, size))
    ensures WalkedTo(db, proto, path, start, done + [row], after, issue)
  {
    var inner: Path := path + [row.comboId];
    LeavesAppend(db, proto, path, done, row);
    RowsOkAppend(db, proto, path, done, row);
    assert RowOk(db, proto, path, row) <==> RouteOk(db, proto, inner);
    assert RowLeaves(db, proto, path, row) == Expansion(db, proto, inner);
    if issue.Some? {
      if q: Path :| inner <= q && Chain(db, proto, q) && FaultAt(db, q, issue.value) {
        assert path <= q;
      }
    }
  }

  datatype StoredRoute = StoredRoute(route: Route, targets: seq<Target>, flattenIssue: Option<Issue>)

  /** No chain from the root has a fault. */
  ghost predicate Clean(db: Store, proto: Protocol, root: Id) {
    forall q: Path, issue :: q[0] == root && Chain(db, proto, q) ==> !FaultAt(db, q, issue)
  }

  /** `load_stored_route` */
  method LoadStoredRoute(db: Store, routeId: Id, proto: Protocol) returns (r: Option<StoredRoute>)
    ensures r.None? <==> routeId !in db.routes
    ensures r.Some? ==>
      && r.value.route == db.routes[routeId]
      && (r.value.flattenIssue.None? <==>
            Clean(db, proto, routeId) && |Expansion(db, proto, [routeId])| <= MAX_ROUTE_TARGETS)
      && (r.value.flattenIssue.None? ==> r.value.targets == Expansion(db, proto, [routeId]))
      && (r.value.flattenIssue.Some? ==>
            Blamed(db, proto, [routeId], r.value.flattenIssue.value, |Expansion(db, proto, [routeId])|))
      && r.value.flattenIssue == RouteIssue(db, proto, [routeId], 0)
  {
    if routeId !in db.routes {
      return None;
    }
    var out := new FlattenedTargets(routeId);
    FlattenRouteTargets(db, proto, out);
    CleanIffRouteOk(db, proto, routeId);
    r := Some(StoredRoute(db.routes[routeId], out.targets, out.issue));
  }

  // ----- soundness is the absence of faults on all chains ---------------------------------

  lemma {:induction false} OkAlongChain(db: Store, proto: Protocol, q: Path, n: nat)
    requires 1 <= n <= |q| && Chain(db, proto, q) && RouteOk(db, proto, q[..1])
    ensures RouteOk(db, proto, q[..n])
  {
    if n > 1 {
      OkAlongChain(db, proto, q, n - 1);
      var p: Path := q[..n - 1];
      assert Linked(db, proto, q, n - 1);
      assert Here(p) == q[n - 2];
      var i :| 0 <= i < |Rows(db, Here(p))| && Rows(db, Here(p))[i] == ComboRow(true, q[n - 1]);
      assert RowOk(db, proto, p, Rows(db, Here(p))[i]);
      assert p + [q[n - 1]] == q[..n];
    }
  }

  lemma OkReference(db: Store, proto: Protocol, q: Path, c: Id)
    requires RouteOk(db, proto, q) && Refers(db, Here(q), c)
    ensures c !in q && |q| <= MAX_COMBO_NESTING_DEPTH && c in db.routes
  {
    var i :| 0 <= i < |Rows(db, Here(q))| && Rows(db, Here(q))[i] == ComboRow(true, c);
    assert RowOk(db, proto, q, Rows(db, Here(q))[i]);
  }

  lemma OkHasNoFault(db: Store, proto: Protocol, q: Path, issue: Issue)
    requires Chain(db, proto, q) && RouteOk(db, proto, q[..1])
    ensures !FaultAt(db, q, issue)
  {
    OkAlongChain(db, proto, q, |q|);
    assert q[..|q|] == q;
    if !issue.TooManyTargets? && Refers(db, Here(q), issue.comboId) {
      OkReference(db, proto, q, issue.comboId);
    }
  }

  lemma {:induction false} NotOkHasFault(db: Store, proto: Protocol, path: Path) returns (q: Path, issue: Issue)
    requires |path| <= MAX_COMBO_NESTING_DEPTH + 1 && Chain(db, proto, path) && !RouteOk(db, proto, path)
    ensures path <= q && Chain(db, proto, q) && FaultAt(db, q, issue)
    decreases MAX_COMBO_NESTING_DEPTH + 1 - |path|
  {
    var rows := Rows(db, Here(path));
    q := path;
    if |rows| > MAX_ROUTE_TARGETS {
      issue := TooManyTargets(MAX_ROUTE_TARGETS + 1);
    } else {
      var i :| 0 <= i < |rows| && !RowOk(db, proto, path, rows[i]);
      var c := rows[i].comboId;
      assert Refers(db, Here(path), c);
      if c in path {
        issue := Cycle(c);
      } else if |path| > MAX_COMBO_NESTING_DEPTH {
        issue := Depth(c);
      } else if c !in db.routes {
        issue := Missing(c);
      } else {
        ChainExtend(db, proto, path, c);
        q, issue := NotOkHasFault(db, proto, path + [c]);
      }
    }
  }

  /** The recursive check agrees with the absence of faults on every chain of any length. */
  lemma CleanIffRouteOk(db: Store, proto: Protocol, root: Id)
    ensures Clean(db, proto, root) <==> RouteOk(db, proto, [root])
  {
    if RouteOk(db, proto, [root]) {
      forall q: Path, issue | q[0] == root && Chain(db, proto, q) ensures !FaultAt(db, q, issue) {
        assert q[..1] == [root];
        OkHasNoFault(db, proto, q, issue);
      }
    } else {
      var q, issue := NotOkHasFault(db, proto, [root]);
    }
  }

  predicate AllEnabled(targets: seq<Target>) {
    forall i :: 0 <= i < |targets| ==> targets[i].enabled
  }

  /** Disabled rows contribute nothing, at any depth. */
  lemma {:induction false} LeavesEnabled(db: Store, proto: Protocol, path: Path, rows: seq<Row>)
    ensures AllEnabled(Leaves(db, proto, path, rows))
    decreases MAX_COMBO_NESTING_DEPTH + 1 - |path|, |rows|
  {
    if rows == [] {
    } else {
      var row := rows[|rows| - 1];
      LeavesEnabled(db, proto, path, rows[..|rows| - 1]);
      if row.enabled && row.ComboRow? && row.comboId !in path && |path| <= MAX_COMBO_NESTING_DEPTH {
        LeavesEnabled(db, proto, path + [row.comboId], Rows(db, row.comboId));
      }
      assert AllEnabled(RowLeaves(db, proto, path, row));
    }
  }

  /** A combo that contains itself, however deep, is never expanded. */
  lemma CyclesAreReported(db: Store, proto: Protocol, q: Path, i: nat, j: nat)
    requires Chain(db, proto, q) && i < j < |q| && q[i] == q[j]
    ensures !Clean(db, proto, q[0])
  {
    var p: Path := q[..j];
    assert Linked(db, proto, q, j) && Here(p) == q[j - 1];
    assert q[j] == p[i];
    forall k | 0 < k < |p| ensures Linked(db, proto, p, k) {
      assert Linked(db, proto, q, k);
    }
    assert p[0] == q[0] && Chain(db, proto, p) && FaultAt(db, p, Cycle(q[j]));
  }
}

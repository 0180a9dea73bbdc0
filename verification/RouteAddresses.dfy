/**
 What a flattened route holds. An address is the way down to a row: the number of a row of the route, then the
 number of a row of the combo it refers to, and so on. Addresses are ordered like the rows: lexicographically.
 */
module RouteAddresses {
  import opened Collections
  import opened Protocols
  import opened ByteOrder
  import opened RouteFlattening

  type Address = seq<nat>

  /** The target at an address: the last row is an enabled provider row, all others are followed references. */
  function TargetAt(db: Store, proto: Protocol, id: Id, a: Address): Option<Target>
    decreases |a|
  {
    if a == [] || a[0] >= |Rows(db, id)| then None
    else
      match Rows(db, id)[a[0]]
      case ProviderRow(enabled, providerId, model) =>
        if enabled && |a| == 1 then Some(Target(providerId, model, true)) else None
      case ComboRow(enabled, comboId) =>
        if enabled && Entered(db, proto, comboId) then TargetAt(db, proto, comboId, a[1..]) else None
  }

  predicate Ascending(addresses: seq<Address>) {
    forall i, j :: 0 <= i < j < |addresses| ==> Less(addresses[i], addresses[j])
  }

  /** The list is what the addresses below `id` hold: every address with a target, once, in ascending order. */
  ghost predicate Lists(db: Store, proto: Protocol, id: Id, addresses: seq<Address>, targets: seq<Target>) {
    && Ascending(addresses) && |addresses| == |targets|
    && (forall k :: 0 <= k < |addresses| ==> TargetAt(db, proto, id, addresses[k]) == Some(targets[k]))
    && (forall a :: TargetAt(db, proto, id, a).Some? ==> a in addresses)
  }

  /** The same for the rows before row `n`. */
  ghost predicate ListsBelow(db: Store, proto: Protocol, id: Id, n: nat, addresses: seq<Address>, targets: seq<Target>) {
    && Ascending(addresses) && |addresses| == |targets|
    && (forall k :: 0 <= k < |addresses| ==> InRow(db, proto, id, addresses[k], targets[k]) && addresses[k][0] < n)
    && (forall a :: TargetAt(db, proto, id, a).Some? && a[0] < n ==> a in addresses)
  }

  ghost predicate InRow(db: Store, proto: Protocol, id: Id, a: Address, t: Target)
    ensures InRow(db, proto, id, a, t) ==> a != []
  {
    TargetAt(db, proto, id, a) == Some(t)
  }

  /** Addresses one level up. */
  function Below(n: nat, addresses: seq<Address>): seq<Address> {
    seq(|addresses|, k requires 0 <= k < |addresses| => [n] + addresses[k])
  }

  lemma BelowAscending(n: nat, addresses: seq<Address>)
    requires Ascending(addresses)
    ensures Ascending(Below(n, addresses))
  {
    forall i, j | 0 <= i < j < |addresses| ensures Less(Below(n, addresses)[i], Below(n, addresses)[j]) {
      LessAfterPrefix([n], addresses[i], addresses[j]);
    }
  }

  /** The addresses of one row that is followed. */
  lemma ReferenceLists(db: Store, proto: Protocol, id: Id, n: nat, addresses: seq<Address>, targets: seq<Target>)
    requires n < |Rows(db, id)| && Rows(db, id)[n].ComboRow? && Rows(db, id)[n].enabled && Entered(db, proto, Rows(db, id)[n].comboId)
    requires Lists(db, proto, Rows(db, id)[n].comboId, addresses, targets)
    ensures ListsRow(db, proto, id, n, Below(n, addresses), targets)
  {
    var c := Rows(db, id)[n].comboId;
    BelowAscending(n, addresses);
    forall k | 0 <= k < |addresses| ensures InRow(db, proto, id, Below(n, addresses)[k], targets[k]) {
      assert ([n] + addresses[k])[1..] == addresses[k];
    }
    forall a | TargetAt(db, proto, id, a).Some? && a[0] == n ensures a in Below(n, addresses) {
      assert TargetAt(db, proto, c, a[1..]).Some?;
      var k :| 0 <= k < |addresses| && addresses[k] == a[1..];
      assert Below(n, addresses)[k] == [n] + a[1..] == a;
    }
  }

  /** The addresses that begin with row `n`. */
  ghost predicate ListsRow(db: Store, proto: Protocol, id: Id, n: nat, addresses: seq<Address>, targets: seq<Target>) {
    && Ascending(addresses) && |addresses| == |targets|
    && (forall k :: 0 <= k < |addresses| ==> InRow(db, proto, id, addresses[k], targets[k]) && addresses[k][0] == n)
    && (forall a :: TargetAt(db, proto, id, a).Some? && a[0] == n ==> a in addresses)
  }

  /** The addresses of any row of a sound route. */
  lemma RowLists(db: Store, proto: Protocol, path: Path, n: nat) returns (addresses: seq<Address>)
    requires |path| <= MAX_COMBO_NESTING_DEPTH + 1 && RouteOk(db, proto, path) && n < |Rows(db, Here(path))|
    ensures ListsRow(db, proto, Here(path), n, addresses, RowLeaves(db, proto, path, Rows(db, Here(path))[n]))
    decreases MAX_COMBO_NESTING_DEPTH + 1 - |path|, 0
  {
    var id := Here(path);
    var row := Rows(db, id)[n];
    assert RowOk(db, proto, path, row);
    if row.ProviderRow? && row.enabled {
      addresses := [[n]];
      forall a | TargetAt(db, proto, id, a).Some? && a[0] == n ensures a in addresses {
        assert a == [n];
      }
    } else if row.ComboRow? && row.enabled && Entered(db, proto, row.comboId) {
      var inner := RouteLists(db, proto, path + [row.comboId]);
      ReferenceLists(db, proto, id, n, inner, Expansion(db, proto, path + [row.comboId]));
      addresses := Below(n, inner);
    } else {
      addresses := [];
    }
  }

  lemma RowsListed(db: Store, proto: Protocol, id: Id, n: nat, a: seq<Address>, s: seq<Target>, b: seq<Address>, t: seq<Target>)
    requires ListsBelow(db, proto, id, n, a, s) && ListsRow(db, proto, id, n, b, t)
    ensures ListsBelow(db, proto, id, n + 1, a + b, s + t)
  {
    var all := a + b;
    forall i, j | 0 <= i < j < |all| ensures Less(all[i], all[j]) {
      if i < |a| <= j {
        assert InRow(db, proto, id, a[i], s[i]) && InRow(db, proto, id, b[j - |a|], t[j - |a|]);
        assert all[i][0] < n == all[j][0];
      }
    }
  }

  lemma {:induction false} PrefixLists(db: Store, proto: Protocol, path: Path, n: nat) returns (addresses: seq<Address>)
    requires |path| <= MAX_COMBO_NESTING_DEPTH + 1 && RouteOk(db, proto, path) && n <= |Rows(db, Here(path))|
    ensures ListsBelow(db, proto, Here(path), n, addresses, Leaves(db, proto, path, Rows(db, Here(path))[..n]))
    decreases MAX_COMBO_NESTING_DEPTH + 1 - |path|, 1, n
  {
    var rows := Rows(db, Here(path));
    if n == 0 {
      addresses := [];
    } else {
      var before := PrefixLists(db, proto, path, n - 1);
      var last := RowLists(db, proto, path, n - 1);
      RowsListed(db, proto, Here(path), n - 1, before, Leaves(db, proto, path, rows[..n - 1]), last, RowLeaves(db, proto, path, rows[n - 1]));
      LeavesAppend(db, proto, path, rows[..n - 1], rows[n - 1]);
      assert rows[..n - 1] + [rows[n - 1]] == rows[..n];
      addresses := before + last;
    }
  }

  lemma RouteLists(db: Store, proto: Protocol, path: Path) returns (addresses: seq<Address>)
    requires |path| <= MAX_COMBO_NESTING_DEPTH + 1 && RouteOk(db, proto, path)
    ensures Lists(db, proto, Here(path), addresses, Expansion(db, proto, path))
    decreases MAX_COMBO_NESTING_DEPTH + 1 - |path|, 2
  {
    var rows := Rows(db, Here(path));
    addresses := PrefixLists(db, proto, path, |rows|);
    assert rows[..|rows|] == rows;
    forall k | 0 <= k < |addresses| ensures TargetAt(db, proto, Here(path), addresses[k]) == Some(Expansion(db, proto, path)[k]) {
      assert InRow(db, proto, Here(path), addresses[k], Expansion(db, proto, path)[k]);
    }
  }

  /**
   A clean route flattens to exactly the targets at its addresses: each address once, in the order of the rows,
   at every depth.
   */
  lemma FlattenedByAddress(db: Store, proto: Protocol, root: Id) returns (addresses: seq<Address>)
    requires Clean(db, proto, root)
    ensures Lists(db, proto, root, addresses, Expansion(db, proto, [root]))
  {
    CleanIffRouteOk(db, proto, root);
    addresses := RouteLists(db, proto, [root]);
  }

  // ----- addresses and chains of references ----------------------------------------------

  /** The combo has an enabled row for the target. */
  predicate Offers(db: Store, id: Id, t: Target) {
    exists i :: 0 <= i < |Rows(db, id)| && Rows(db, id)[i] == ProviderRow(true, t.providerId, t.model) && t.enabled
  }

  lemma {:induction false} AddressGivesChain(db: Store, proto: Protocol, path: Path, a: Address, t: Target) returns (q: Path)
    requires Chain(db, proto, path) && TargetAt(db, proto, Here(path), a) == Some(t)
    ensures path <= q && Chain(db, proto, q) && Offers(db, Here(q), t)
    decreases |a|
  {
    var row := Rows(db, Here(path))[a[0]];
    if row.ProviderRow? {
      q := path;
    } else {
      assert Refers(db, Here(path), row.comboId);
      ChainExtend(db, proto, path, row.comboId);
      q := AddressGivesChain(db, proto, path + [row.comboId], a[1..], t);
    }
  }

  lemma {:induction false} ChainGivesAddress(db: Store, proto: Protocol, path: Path, q: Path, t: Target) returns (a: Address)
    requires path <= q && Chain(db, proto, q) && Offers(db, Here(q), t)
    ensures TargetAt(db, proto, Here(path), a) == Some(t)
    decreases |q| - |path|
  {
    if path == q {
      var i :| 0 <= i < |Rows(db, Here(q))| && Rows(db, Here(q))[i] == ProviderRow(true, t.providerId, t.model) && t.enabled;
      a := [i];
    } else {
      var c := q[|path|];
      assert Linked(db, proto, q, |path|) && Here(path) == q[|path| - 1];
      var i :| 0 <= i < |Rows(db, Here(path))| && Rows(db, Here(path))[i] == ComboRow(true, c);
      var rest := ChainGivesAddress(db, proto, path + [c], q, t);
      a := [i] + rest;
      assert a[1..] == rest;
    }
  }

  /** A target is in the flattened list of a clean route exactly when some chain of references reaches an enabled row for it. */
  lemma FlattenedIff(db: Store, proto: Protocol, root: Id, t: Target)
    requires Clean(db, proto, root)
    ensures t in Expansion(db, proto, [root]) <==> exists q: Path :: q[0] == root && Chain(db, proto, q) && Offers(db, Here(q), t)
  {
    var path: Path := [root];
    var all := Expansion(db, proto, path);
    var addresses := FlattenedByAddress(db, proto, root);
    if t in all {
      var k :| 0 <= k < |all| && all[k] == t;
      var q := AddressGivesChain(db, proto, path, addresses[k], t);
      assert q[0] == path[0];
    }
    if q: Path :| q[0] == root && Chain(db, proto, q) && Offers(db, Here(q), t) {
      assert path <= q;
      var a := ChainGivesAddress(db, proto, path, q, t);
      var k :| 0 <= k < |addresses| && addresses[k] == a;
      assert all[k] == t;
    }
  }

  /** A target of an earlier row comes before a target of a later row of the same route. */
  lemma EarlierRowsFirst(db: Store, proto: Protocol, root: Id, a: Address, b: Address) returns (i: nat, j: nat)
    requires Clean(db, proto, root) && Less(a, b)
    requires TargetAt(db, proto, root, a).Some? && TargetAt(db, proto, root, b).Some?
    ensures var all := Expansion(db, proto, [root]);
      i < j < |all| && all[i] == TargetAt(db, proto, root, a).value && all[j] == TargetAt(db, proto, root, b).value
  {
    var addresses := FlattenedByAddress(db, proto, root);
    i :| 0 <= i < |addresses| && addresses[i] == a;
    j :| 0 <= j < |addresses| && addresses[j] == b;
    Irreflexive(a);
    Asymmetric(a, b);
  }

  /** Only combos that are enabled and accept the protocol are followed. */
  lemma FollowedCombosAccept(db: Store, proto: Protocol, q: Path, i: nat)
    requires Chain(db, proto, q) && 0 < i < |q|
    ensures q[i] in db.routes && db.routes[q[i]].enabled && proto in db.routes[q[i]].accepted
  {
    assert Linked(db, proto, q, i);
  }
}

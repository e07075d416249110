/** The edge loaders: one batched query each, joined in memory by key, written into the nodes in place. */
module Loaders {
  import opened Collections
  import opened AccountEntity
  import opened EagerSpec
  import opened AccountGraph

  ghost predicate DistinctNodes(nodes: seq<Account>) {
    forall i, j :: 0 <= i < j < |nodes| ==> nodes[i] != nodes[j]
  }

  /** es are the entities the nodes hold. */
  ghost predicate Holding(nodes: seq<Account>, es: seq<Entity>)
    reads nodes
  {
    |es| == |nodes| && forall i :: 0 <= i < |nodes| ==> nodes[i].entity == es[i]
  }

  ghost function NodeSet(nodes: seq<Account>): set<Account> {
    set n | n in nodes
  }

  lemma {:induction false} InPick<T>(keys: seq<Option<int>>, values: seq<T>, k: int, v: T)
    requires |keys| == |values|
    ensures v in PickBy(keys, values, k) <==> exists i :: 0 <= i < |keys| && keys[i] == Some(k) && values[i] == v
    decreases |keys|
  {
    if keys != [] {
      InPick(keys[..|keys| - 1], values[..|keys| - 1], k, v);
    }
  }

  lemma {:induction false} NodeInPick(keys: seq<Option<int>>, nodes: seq<Account>, k: int, i: nat)
    requires |keys| == |nodes| && i < |nodes| && DistinctNodes(nodes)
    ensures nodes[i] in PickBy(keys, nodes, k) <==> keys[i] == Some(k)
  {
    InPick(keys, nodes, k, nodes[i]);
  }

  lemma {:induction false} LastNext<T>(keys: seq<Option<int>>, values: seq<T>, k: int, j: nat)
    requires |keys| == |values| && j < |keys|
    ensures LastBy(keys[..j + 1], values[..j + 1], k)
            == if keys[j] == Some(k) then Some(values[j]) else LastBy(keys[..j], values[..j], k)
  {
    PickNext(keys, values, k, j);
  }

  lemma {:induction false} FirstSeenNext(keys: seq<Option<int>>, i: nat)
    requires i < |keys|
    ensures FirstSeen(keys[..i + 1])
            == var before := FirstSeen(keys[..i]);
               if keys[i].None? || keys[i].value in before then before else before + [keys[i].value]
  {
    assert keys[..i + 1][..i] == keys[..i];
  }

  lemma {:induction false} PickNone<T>(keys: seq<Option<int>>, values: seq<T>, k: int)
    requires |keys| == |values| && Some(k) !in keys
    ensures PickBy(keys, values, k) == []
    decreases |keys|
  {
    if keys != [] {
      assert keys[|keys| - 1] in keys;
      forall x | x in keys[..|keys| - 1] ensures x in keys {
      }
      PickNone(keys[..|keys| - 1], values[..|keys| - 1], k);
    }
  }

  /** nodeids groups the nodes by non-nil key, in node order; ids lists the keys once each. */
  ghost predicate Grouped(ids: seq<int>, nodeids: map<int, seq<Account>>, keys: seq<Option<int>>, nodes: seq<Account>)
    requires |keys| == |nodes|
  {
    && ids == FirstSeen(keys)
    && (forall k :: k in nodeids <==> k in ids)
    && (forall k :: k in nodeids ==> nodeids[k] == PickBy(keys, nodes, k))
  }

  lemma {:induction false} PicksNext<T>(keys: seq<Option<int>>, values: seq<T>, i: nat)
    requires |keys| == |values| && i < |values|
    ensures forall k :: PickBy(keys[..i + 1], values[..i + 1], k)
                        == PickBy(keys[..i], values[..i], k) + if keys[i] == Some(k) then [values[i]] else []
  {
    forall k ensures PickBy(keys[..i + 1], values[..i + 1], k)
                     == PickBy(keys[..i], values[..i], k) + if keys[i] == Some(k) then [values[i]] else [] {
      PickNext(keys, values, k, i);
    }
  }

  lemma {:induction false} GroupNil(ids: seq<int>, nodeids: map<int, seq<Account>>, keys: seq<Option<int>>,
                                    nodes: seq<Account>, i: nat)
    requires |keys| == |nodes| && i < |nodes| && Grouped(ids, nodeids, keys[..i], nodes[..i])
    requires keys[i].None?
    ensures Grouped(ids, nodeids, keys[..i + 1], nodes[..i + 1])
  {
    FirstSeenNext(keys, i);
    PicksNext(keys, nodes, i);
  }

  lemma {:induction false} GroupKnown(ids: seq<int>, nodeids: map<int, seq<Account>>, keys: seq<Option<int>>,
                                      nodes: seq<Account>, i: nat)
    requires |keys| == |nodes| && i < |nodes| && Grouped(ids, nodeids, keys[..i], nodes[..i])
    requires keys[i].Some? && keys[i].value in nodeids
    ensures var k := keys[i].value;
            Grouped(ids, nodeids[k := nodeids[k] + [nodes[i]]], keys[..i + 1], nodes[..i + 1])
  {
    FirstSeenNext(keys, i);
    PicksNext(keys, nodes, i);
  }

  lemma {:induction false} GroupFresh(ids: seq<int>, nodeids: map<int, seq<Account>>, keys: seq<Option<int>>,
                                      nodes: seq<Account>, i: nat)
    requires |keys| == |nodes| && i < |nodes| && Grouped(ids, nodeids, keys[..i], nodes[..i])
    requires keys[i].Some? && keys[i].value !in nodeids
    ensures var k := keys[i].value;
            Grouped(ids + [k], nodeids[k := [nodes[i]]], keys[..i + 1], nodes[..i + 1])
  {
    FirstSeenNext(keys, i);
    PicksNext(keys, nodes, i);
    PickNone(keys[..i], nodes[..i], keys[i].value);
  }

  /** The foreign-key index of the M2O loaders: the ids to query are duplicate-free and exactly the non-nil keys, and
      each id leads to the nodes with that key, in node order. Nodes with repeated ids are all kept. */
  method GroupByKey(nodes: seq<Account>, column: Column, ghost es: seq<Entity>)
      returns (ids: seq<int>, nodeids: map<int, seq<Account>>)
    requires Holding(nodes, es)
    ensures Grouped(ids, nodeids, KeysOf(es, column), nodes) && Distinct(ids)
  {
    ghost var fks := KeysOf(es, column);
    ids, nodeids := [], map[];
    for i := 0 to |nodes|
      invariant Grouped(ids, nodeids, fks[..i], nodes[..i])
    {
      if nodes[i].entity.ForeignKey(column).None? {
        GroupNil(ids, nodeids, fks, nodes, i);
        continue;
      }
      var fk := nodes[i].entity.ForeignKey(column).value;
      if fk in nodeids {
        GroupKnown(ids, nodeids, fks, nodes, i);
      } else {
        GroupFresh(ids, nodeids, fks, nodes, i);
        ids := ids + [fk];
        nodeids := nodeids[fk := []];
      }
      nodeids := nodeids[fk := nodeids[fk] + [nodes[i]]];
    }
    assert fks[..|nodes|] == fks && nodes[..|nodes|] == nodes;
  }

  lemma {:induction false} RowsOfAppend(ns: seq<Neighbour>, e: Neighbour)
    ensures RowsOf(ns + [e]) == RowsOf(ns) + [e.row]
  {
  }

  method LeafAll(drv: Driver, table: Table, query: LeafQuery) returns (r: Result<seq<Neighbour>, LoadError>)
    requires !drv.failed
    modifies drv`queries, drv`failed
    ensures drv.queries == old(drv.queries) + 1
    ensures drv.failed <==> r == Err(DriverError)
    ensures r.Ok? ==> RowsOf(r.value) == LeafRows(RowsIn(drv.db, table), query.tree)
    ensures r.Err? ==> r.error == DriverError
  {
    var rows := drv.QueryLeaf(table, query.tree);
    if rows.Err? {
      return Err(rows.error);
    }
    var ns: seq<Neighbour> := [];
    for i := 0 to |rows.value|
      modifies {}
      invariant |ns| == i
      invariant forall j :: 0 <= j < i ==> ns[j].row == rows.value[j]
    {
      var n := new Neighbour(rows.value[i]);
      ns := ns + [n];
    }
    assert RowsOf(ns) == rows.value;
    r := Ok(ns);
  }

  /** One neighbour more: the nodes it belongs to, and what their last match becomes. */
  lemma {:induction false} MatchNext<T>(fks: seq<Option<int>>, nodes: seq<Account>, keys: seq<Option<int>>,
                                        values: seq<T>, j: nat, id: int)
    requires |fks| == |nodes| && |keys| == |values| && j < |keys| && DistinctNodes(nodes) && keys[j] == Some(id)
    ensures forall i :: 0 <= i < |nodes| ==> (nodes[i] in PickBy(fks, nodes, id) <==> fks[i] == Some(id))
    ensures forall i :: 0 <= i < |nodes| && fks[i].Some? ==>
      LastBy(keys[..j + 1], values[..j + 1], fks[i].value)
      == if fks[i] == Some(id) then Some(values[j]) else LastBy(keys[..j], values[..j], fks[i].value)
    ensures forall m :: m in PickBy(fks, nodes, id) ==> m in nodes
  {
    forall i | 0 <= i < |nodes| ensures nodes[i] in PickBy(fks, nodes, id) <==> fks[i] == Some(id) {
      NodeInPick(fks, nodes, id, i);
    }
    forall i | 0 <= i < |nodes| && fks[i].Some?
      ensures LastBy(keys[..j + 1], values[..j + 1], fks[i].value)
              == if fks[i] == Some(id) then Some(values[j]) else LastBy(keys[..j], values[..j], fks[i].value)
    {
      LastNext(keys, values, fks[i].value, j);
    }
    forall m | m in PickBy(fks, nodes, id) ensures m in nodes {
      InPick(fks, nodes, id, m);
    }
  }

  method SetProxy(ms: seq<Account>, n: Neighbour)
    modifies NodeSet(ms)`proxy
    ensures forall m :: m in ms ==> m.proxy == n
  {
    for i := 0 to |ms|
      invariant forall j :: 0 <= j < i ==> ms[j].proxy == n
      modifies NodeSet(ms)`proxy
    {
      ms[i].proxy := n;
    }
  }

  lemma {:induction false} KnownNext(keys: seq<Option<int>>, ids: seq<int>, j: nat)
    requires j < |keys|
    ensures KnownKeys(keys[..j + 1], ids) <==> KnownKeys(keys[..j], ids) && keys[j].Some? && keys[j].value in ids
    ensures KnownKeys(keys, ids) ==> keys[j].Some? && keys[j].value in ids
  {
    assert keys[..j + 1] == keys[..j] + [keys[j]];
  }

  /** Every node whose key a neighbour carries ends pointing to the last such neighbour, the others are left alone; a
      neighbour nobody asked for is an error. */
  method AttachProxies(ns: seq<Neighbour>, nodeids: map<int, seq<Account>>, nodes: seq<Account>,
                       ghost ids: seq<int>, ghost fks: seq<Option<int>>) returns (r: Result<(), LoadError>)
    requires |fks| == |nodes| && Grouped(ids, nodeids, fks, nodes) && DistinctNodes(nodes)
    requires forall n :: n in nodes ==> n.proxy == null
    modifies NodeSet(nodes)`proxy
    ensures r.Ok? <==> KnownKeys(RowKeys(RowsOf(ns), ID), ids)
    ensures r.Ok? ==> forall i :: 0 <= i < |nodes| ==>
      nodes[i].ProxyRow() == Lookup(fks, RowKeys(RowsOf(ns), ID), RowsOf(ns))[i]
    ensures r.Err? ==> r.error.UnexpectedNode?
  {
    ghost var rows, keys := RowsOf(ns), RowKeys(RowsOf(ns), ID);
    for j := 0 to |ns|
      modifies NodeSet(nodes)`proxy
      invariant KnownKeys(keys[..j], ids)
      invariant forall i :: 0 <= i < |nodes| ==>
        nodes[i].ProxyRow() == if fks[i].None? then None else LastBy(keys[..j], rows[..j], fks[i].value)
    {
      var id := IntOrZero(ns[j].row, ID);
      assert keys[j] == Some(id);
      KnownNext(keys, ids, j);
      if id !in nodeids {
        return Err(UnexpectedNode(id));
      }
      MatchNext(fks, nodes, keys, rows, j, id);
      SetProxy(nodeids[id], ns[j]);
    }
    assert keys[..|ns|] == keys && rows[..|ns|] == rows;
    r := Ok(());
  }

  method LoadProxy(drv: Driver, query: LeafQuery, nodes: seq<Account>, ghost es: seq<Entity>)
      returns (r: Result<(), LoadError>)
    requires !drv.failed
    requires DistinctNodes(nodes) && Holding(nodes, es)
    requires forall n :: n in nodes ==> n.proxy == null
    modifies drv`queries, drv`failed, query`tree, NodeSet(nodes)`proxy
    ensures drv.queries <= old(drv.queries) + 1
    ensures drv.failed <==> r == Err(DriverError)
    ensures query.tree == if FirstSeen(KeysOf(es, ProxyID)) == [] then old(query.tree)
                          else old(query.tree).Where(In(ID, FirstSeen(KeysOf(es, ProxyID))))
    ensures r.Ok? ==>
      var picks := ProxyPicks(drv.db, Some(old(query.tree)), KeysOf(es, ProxyID));
      picks.Some? && forall i :: 0 <= i < |nodes| ==> nodes[i].ProxyRow() == picks.value[i]
    ensures r.Err? && r.error != DriverError ==>
      ProxyPicks(drv.db, Some(old(query.tree)), KeysOf(es, ProxyID)).None?
  {
    ghost var fks := KeysOf(es, ProxyID);
    var ids, nodeids := GroupByKey(nodes, ProxyID, es);
    if |ids| == 0 {
      return Ok(());
    }
    query.Where(In(ID, ids));
    var neighbors := LeafAll(drv, Proxies, query);
    if neighbors.Err? {
      return Err(neighbors.error);
    }
    r := AttachProxies(neighbors.value, nodeids, nodes, ids, fks);
  }

  // ---------------------------------------------------------------- O2M: usage logs and account-group entries

  /** The two edges loaded by the same O2M code: each owns a neighbour table and a field of the node. */
  datatype OwnedEdge = UsageLogEdge | AccountGroupEdge {
    /** The nodes of ns if this edge fills the usage_logs (account_groups) field, none otherwise. */
    ghost function ForLogs(ns: set<Account>): set<Account> {
      if UsageLogEdge? then ns else {}
    }

    ghost function ForEntries(ns: set<Account>): set<Account> {
      if UsageLogEdge? then {} else ns
    }

    function Source(): Table {
      if UsageLogEdge? then UsageLogs else AccountGroups
    }
  }

  function OwnedOf(edge: OwnedEdge, n: Account): seq<Neighbour>
    reads n
  {
    if edge.UsageLogEdge? then n.usageLogs else n.accountGroups
  }

  /** The assign callback of the edge: append to the node's own list. */
  method AssignOwned(edge: OwnedEdge, n: Account, e: Neighbour)
    modifies edge.ForLogs({n})`usageLogs, edge.ForEntries({n})`accountGroups
    ensures OwnedOf(edge, n) == old(OwnedOf(edge, n)) + [e]
  {
    if edge.UsageLogEdge? {
      n.usageLogs := n.usageLogs + [e];
    } else {
      n.accountGroups := n.accountGroups + [e];
    }
  }

  /** The init callback of the edge: an empty list rather than none. */
  method InitOwned(edge: OwnedEdge, n: Account)
    modifies edge.ForLogs({n})`usageLogs, edge.ForEntries({n})`accountGroups
    ensures OwnedOf(edge, n) == []
  {
    if edge.UsageLogEdge? {
      n.usageLogs := [];
    } else {
      n.accountGroups := [];
    }
  }

  /** The index by id: a repeated id keeps its last node. */
  ghost predicate Indexed(nodeids: map<int, Account>, ids: seq<int>, nodes: seq<Account>)
    requires |ids| == |nodes|
  {
    && (forall k :: k in nodeids <==> k in ids)
    && (forall k, i :: k in nodeids && 0 <= i < |nodes| ==>
         (nodeids[k] == nodes[i] <==> ids[i] == k && IsLast(ids, i)))
    && (forall k :: k in nodeids ==> nodeids[k] in nodes)
  }

  lemma {:induction false} LastNextIndex(ids: seq<int>, i: nat, j: nat)
    requires j <= i < |ids|
    ensures IsLast(ids[..i + 1], j) <==> j == i || (IsLast(ids[..i], j) && ids[i] != ids[j])
  {
    var before, after := ids[..i], ids[..i + 1];
    assert forall k :: 0 <= k < i ==> before[k] == ids[k];
    assert forall k :: 0 <= k <= i ==> after[k] == ids[k];
    if j < i && IsLast(after, j) {
      assert after[i] != after[j];
    }
  }

  lemma {:induction false} IndexNext(nodeids: map<int, Account>, ids: seq<int>, nodes: seq<Account>, i: nat)
    requires |ids| == |nodes| && i < |nodes| && DistinctNodes(nodes) && Indexed(nodeids, ids[..i], nodes[..i])
    ensures Indexed(nodeids[ids[i] := nodes[i]], ids[..i + 1], nodes[..i + 1])
  {
    var next := nodeids[ids[i] := nodes[i]];
    forall k, j | k in next && 0 <= j <= i
      ensures next[k] == nodes[j] <==> ids[j] == k && IsLast(ids[..i + 1], j)
    {
      LastNextIndex(ids, i, j);
      if j < i {
        assert nodes[j] != nodes[i] && nodes[..i][j] == nodes[j] && ids[..i][j] == ids[j];
      } else if k != ids[i] {
        assert next[k] in nodes[..i];
        var m :| 0 <= m < i && nodes[..i][m] == next[k];
        assert nodes[m] != nodes[i];
      }
    }
    forall k | k in next ensures next[k] in nodes[..i + 1] {
      if k != ids[i] {
        var m :| 0 <= m < i && nodes[..i][m] == next[k];
        assert nodes[..i + 1][m] == next[k];
      } else {
        assert nodes[..i + 1][i] == next[k];
      }
    }
  }

  method IndexOwners(edge: OwnedEdge, nodes: seq<Account>, ghost es: seq<Entity>)
      returns (fks: seq<int>, nodeids: map<int, Account>)
    requires DistinctNodes(nodes) && Holding(nodes, es)
    modifies edge.ForLogs(NodeSet(nodes))`usageLogs, edge.ForEntries(NodeSet(nodes))`accountGroups
    ensures fks == IdsOf(es) && Indexed(nodeids, fks, nodes)
    ensures forall n :: n in nodes ==> OwnedOf(edge, n) == []
  {
    fks, nodeids := [], map[];
    ghost var ids := IdsOf(es);
    for i := 0 to |nodes|
      modifies edge.ForLogs(NodeSet(nodes))`usageLogs, edge.ForEntries(NodeSet(nodes))`accountGroups
      invariant fks == ids[..i] && Indexed(nodeids, ids[..i], nodes[..i])
      invariant forall j :: 0 <= j < i ==> OwnedOf(edge, nodes[j]) == []
    {
      fks := fks + [nodes[i].entity.Id()];
      nodeids := IndexOne(nodeids, nodes, ids, i);
      InitOwned(edge, nodes[i]);
    }
    assert ids[..|nodes|] == ids && nodes[..|nodes|] == nodes;
  }

  method IndexOne(nodeids: map<int, Account>, nodes: seq<Account>, ghost ids: seq<int>, i: nat)
      returns (next: map<int, Account>)
    requires |ids| == |nodes| && i < |nodes| && DistinctNodes(nodes) && Indexed(nodeids, ids[..i], nodes[..i])
    requires nodes[i].entity.Id() == ids[i]
    ensures Indexed(next, ids[..i + 1], nodes[..i + 1])
  {
    IndexNext(nodeids, ids, nodes, i);
    next := nodeids[nodes[i].entity.Id() := nodes[i]];
  }

  /** The dealing so far: the first j neighbours all have known owners, and each owner holds its own among them. */
  ghost predicate Dealt(edge: OwnedEdge, nodes: seq<Account>, ids: seq<int>, keys: seq<Option<int>>, rows: seq<Row>,
                        j: nat)
    requires |ids| == |nodes| && |keys| == |rows| && j <= |rows|
    reads nodes
  {
    && KnownKeys(keys[..j], ids)
    && forall i :: 0 <= i < |nodes| ==>
      RowsOf(OwnedOf(edge, nodes[i])) == if IsLast(ids, i) then PickBy(keys[..j], rows[..j], ids[i]) else []
  }

  /** Hands neighbour j to its owner, if it has a known one. */
  method DealOne(edge: OwnedEdge, e: Neighbour, nodeids: map<int, Account>, nodes: seq<Account>,
                 ghost ids: seq<int>, ghost keys: seq<Option<int>>, ghost rows: seq<Row>, ghost j: nat)
      returns (r: Result<(), LoadError>)
    requires |ids| == |nodes| && Indexed(nodeids, ids, nodes) && DistinctNodes(nodes)
    requires |keys| == |rows| && j < |rows| && rows[j] == e.row && keys[j] == Some(IntOrZero(e.row, ACCOUNT_ID))
    requires Dealt(edge, nodes, ids, keys, rows, j)
    modifies edge.ForLogs(NodeSet(nodes))`usageLogs, edge.ForEntries(NodeSet(nodes))`accountGroups
    ensures r.Ok? ==> Dealt(edge, nodes, ids, keys, rows, j + 1)
    ensures r.Err? ==> r.error.UnexpectedNode? && !KnownKeys(keys, ids)
  {
    var fk := IntOrZero(e.row, ACCOUNT_ID);
    KnownNext(keys, ids, j);
    if fk !in nodeids {
      return Err(UnexpectedNode(fk));
    }
    var owner := nodeids[fk];
    DealNext(nodeids, ids, nodes, keys, rows, j, fk);
    RowsOfAppend(OwnedOf(edge, owner), e);
    AssignOwned(edge, owner, e);
    forall i | 0 <= i < |nodes|
      ensures RowsOf(OwnedOf(edge, nodes[i]))
              == if IsLast(ids, i) then PickBy(keys[..j + 1], rows[..j + 1], ids[i]) else []
    {
      if nodes[i] != owner {
        assert OwnedOf(edge, nodes[i]) == old(OwnedOf(edge, nodes[i]));
      }
    }
    r := Ok(());
  }

  /** Deals the neighbours to their owners in order; a neighbour of an unknown owner is an error. */
  method AttachOwned(edge: OwnedEdge, ns: seq<Neighbour>, nodeids: map<int, Account>, nodes: seq<Account>,
                     ghost ids: seq<int>) returns (r: Result<(), LoadError>)
    requires |ids| == |nodes| && Indexed(nodeids, ids, nodes) && DistinctNodes(nodes)
    requires forall n :: n in nodes ==> OwnedOf(edge, n) == []
    modifies edge.ForLogs(NodeSet(nodes))`usageLogs, edge.ForEntries(NodeSet(nodes))`accountGroups
    ensures r.Ok? <==> KnownKeys(RowKeys(RowsOf(ns), ACCOUNT_ID), ids)
    ensures r.Ok? ==> forall i :: 0 <= i < |nodes| ==>
      RowsOf(OwnedOf(edge, nodes[i])) == Deal(ids, RowKeys(RowsOf(ns), ACCOUNT_ID), RowsOf(ns))[i]
    ensures r.Err? ==> r.error.UnexpectedNode?
  {
    ghost var rows, keys := RowsOf(ns), RowKeys(RowsOf(ns), ACCOUNT_ID);
    DealtNone(edge, nodes, ids, keys, rows);
    for j := 0 to |ns|
      modifies edge.ForLogs(NodeSet(nodes))`usageLogs, edge.ForEntries(NodeSet(nodes))`accountGroups
      invariant Dealt(edge, nodes, ids, keys, rows, j)
    {
      r := DealOne(edge, ns[j], nodeids, nodes, ids, keys, rows, j);
      if r.Err? {
        return;
      }
    }
    DealtAll(edge, nodes, ids, keys, rows);
    r := Ok(());
  }

  lemma {:induction false} DealtAll(edge: OwnedEdge, nodes: seq<Account>, ids: seq<int>, keys: seq<Option<int>>,
                                    rows: seq<Row>)
    requires |ids| == |nodes| && |keys| == |rows| && Dealt(edge, nodes, ids, keys, rows, |rows|)
    ensures KnownKeys(keys, ids)
    ensures forall i :: 0 <= i < |nodes| ==> RowsOf(OwnedOf(edge, nodes[i])) == Deal(ids, keys, rows)[i]
  {
    assert keys[..|keys|] == keys && rows[..|rows|] == rows;
  }

  lemma {:induction false} DealtNone(edge: OwnedEdge, nodes: seq<Account>, ids: seq<int>, keys: seq<Option<int>>,
                                     rows: seq<Row>)
    requires |ids| == |nodes| && |keys| == |rows|
    requires forall n :: n in nodes ==> OwnedOf(edge, n) == []
    ensures Dealt(edge, nodes, ids, keys, rows, 0)
  {
  }

  lemma {:induction false} DealNext<T>(nodeids: map<int, Account>, ids: seq<int>, nodes: seq<Account>,
                                       keys: seq<Option<int>>,
                    values: seq<T>, j: nat, fk: int)
    requires |ids| == |nodes| && Indexed(nodeids, ids, nodes) && DistinctNodes(nodes) && fk in nodeids
    requires |keys| == |values| && j < |keys| && keys[j] == Some(fk)
    ensures nodeids[fk] in nodes
    ensures forall i :: 0 <= i < |nodes| ==> (nodes[i] == nodeids[fk] <==> ids[i] == fk && IsLast(ids, i))
    ensures forall i :: 0 <= i < |nodes| ==>
      PickBy(keys[..j + 1], values[..j + 1], ids[i])
      == PickBy(keys[..j], values[..j], ids[i]) + if ids[i] == fk then [values[j]] else []
  {
    forall i | 0 <= i < |nodes|
      ensures PickBy(keys[..j + 1], values[..j + 1], ids[i])
              == PickBy(keys[..j], values[..j], ids[i]) + if ids[i] == fk then [values[j]] else []
    {
      PickNext(keys, values, ids[i], j);
    }
  }

  method LoadOwned(edge: OwnedEdge, drv: Driver, query: LeafQuery, nodes: seq<Account>, ghost es: seq<Entity>)
      returns (r: Result<(), LoadError>)
    requires !drv.failed
    requires DistinctNodes(nodes) && Holding(nodes, es)
    modifies drv`queries, drv`failed, query`tree
    modifies edge.ForLogs(NodeSet(nodes))`usageLogs, edge.ForEntries(NodeSet(nodes))`accountGroups
    ensures drv.queries <= old(drv.queries) + 1
    ensures drv.failed <==> r == Err(DriverError)
    ensures query.tree == OwnedQuery(old(query.tree), IdsOf(es))
    ensures r.Ok? ==>
      var lists := OwnedLists(RowsIn(drv.db, edge.Source()), Some(old(query.tree)), IdsOf(es));
      lists.Some? && forall i :: 0 <= i < |nodes| ==> RowsOf(OwnedOf(edge, nodes[i])) == lists.value[i]
    ensures r.Err? && r.error != DriverError ==>
      OwnedLists(RowsIn(drv.db, edge.Source()), Some(old(query.tree)), IdsOf(es)).None?
  {
    var fks, nodeids := IndexOwners(edge, nodes, es);
    if |query.tree.ctx.fields| > 0 {
      query.AppendFieldOnce(ACCOUNT_ID);
    }
    query.Where(In(ACCOUNT_ID, fks));
    var neighbors := LeafAll(drv, edge.Source(), query);
    if neighbors.Err? {
      return Err(neighbors.error);
    }
    r := AttachOwned(edge, neighbors.value, nodeids, nodes, fks);
  }

  // ---------------------------------------------------------------- M2M: groups

  /** Every join row belongs to one of the requested accounts. */
  lemma {:induction false} JoinAccounts(links: seq<Row>, groups: seq<Row>, fields: seq<Column>, ids: seq<int>)
    ensures forall m :: m in Join(links, groups, fields, ids) ==> m.0 in ids
  {
    if groups != [] {
      JoinAccounts(links, groups[1..], fields, ids);
      MatchAccounts(links, groups[0], Project(fields, groups[0]), ids);
    }
  }

  lemma {:induction false} MatchAccounts(links: seq<Row>, group: Row, shown: Row, ids: seq<int>)
    ensures forall m :: m in Matches(links, group, shown, ids) ==> m.0 in ids
  {
    if links != [] { MatchAccounts(links[1..], group, shown, ids); }
  }

  lemma {:induction false} WindowIn<T>(ctx: Context, s: seq<T>, x: T)
    requires x in Window(ctx, s)
    ensures x in s
  {
  }

  lemma {:induction false} JoinRowsKnown(db: Database, q: LeafTree, ids: seq<int>)
    ensures forall i :: 0 <= i < |JoinRows(db, q, ids)| ==> JoinRows(db, q, ids)[i].0 in ids
  {
    var all := Join(db.links, Select(db.groups, q.preds, q.order), q.ctx.fields, ids);
    JoinAccounts(db.links, Select(db.groups, q.preds, q.order), q.ctx.fields, ids);
    forall i | 0 <= i < |JoinRows(db, q, ids)| ensures JoinRows(db, q, ids)[i].0 in ids {
      WindowIn(q.ctx, all, JoinRows(db, q, ids)[i]);
    }
  }

  method IndexNodes(nodes: seq<Account>, ghost es: seq<Entity>) returns (edgeIDs: seq<int>, byID: map<int, Account>)
    requires DistinctNodes(nodes) && Holding(nodes, es)
    modifies NodeSet(nodes)`groups
    ensures edgeIDs == IdsOf(es) && Indexed(byID, edgeIDs, nodes)
    ensures forall n :: n in nodes ==> n.groups == []
  {
    edgeIDs, byID := [], map[];
    ghost var ids := IdsOf(es);
    for i := 0 to |nodes|
      modifies NodeSet(nodes)`groups
      invariant edgeIDs == ids[..i] && Indexed(byID, ids[..i], nodes[..i])
      invariant forall j :: 0 <= j < i ==> nodes[j].groups == []
    {
      edgeIDs := edgeIDs + [nodes[i].entity.Id()];
      byID := IndexOne(byID, nodes, ids, i);
      nodes[i].groups := [];
    }
    assert ids[..|nodes|] == ids && nodes[..|nodes|] == nodes;
  }

  /** nids records, for each group seen, the set of nodes joined to it. */
  ghost predicate Recorded(nids: map<int, set<Account>>, rows: seq<(int, Row)>, ids: seq<int>, nodes: seq<Account>)
    requires |ids| == |nodes|
  {
    && (forall g :: g in nids <==> g in GroupIds(rows))
    && (forall g, n :: g in nids && n in nids[g] ==> n in nodes)
    && (forall g, i :: g in nids && 0 <= i < |nodes| ==>
         (nodes[i] in nids[g] <==> IsLast(ids, i) && Joined(rows, ids[i], g)))
  }

  lemma {:induction false} JoinedNext(rows: seq<(int, Row)>, j: nat, a: int, g: int)
    requires j < |rows|
    ensures Joined(rows[..j + 1], a, g) <==>
      Joined(rows[..j], a, g) || (rows[j].0 == a && IntOrZero(rows[j].1, ID) == g)
    ensures GroupIds(rows[..j + 1]) == GroupIds(rows[..j]) + {IntOrZero(rows[j].1, ID)}
  {
    var before, after := rows[..j], rows[..j + 1];
    assert forall i :: 0 <= i < j ==> after[i] == before[i];
    assert after[j] == rows[j];
    if Joined(before, a, g) {
      var i :| 0 <= i < j && before[i].0 == a && IntOrZero(before[i].1, ID) == g;
      assert after[i].0 == a;
    }
  }

  lemma {:induction false} NotSeenNotJoined(rows: seq<(int, Row)>, a: int, g: int)
    requires g !in GroupIds(rows)
    ensures !Joined(rows, a, g)
  {
  }

  lemma {:induction false} RecordNext(nids: map<int, set<Account>>, rows: seq<(int, Row)>, ids: seq<int>,
                                      nodes: seq<Account>,
                   byID: map<int, Account>, j: nat)
    requires |ids| == |nodes| && DistinctNodes(nodes) && Indexed(byID, ids, nodes) && j < |rows| && rows[j].0 in byID
    requires Recorded(nids, rows[..j], ids, nodes)
    ensures var g, n := IntOrZero(rows[j].1, ID), byID[rows[j].0];
            Recorded(nids[g := (if g in nids then nids[g] else {}) + {n}], rows[..j + 1], ids, nodes)
  {
    var g, n := IntOrZero(rows[j].1, ID), byID[rows[j].0];
    var next := nids[g := (if g in nids then nids[g] else {}) + {n}];
    JoinedNext(rows, j, 0, g);
    forall h, i | h in next && 0 <= i < |nodes|
      ensures nodes[i] in next[h] <==> IsLast(ids, i) && Joined(rows[..j + 1], ids[i], h)
    {
      JoinedNext(rows, j, ids[i], h);
      if h == g && g !in nids {
        NotSeenNotJoined(rows[..j], ids[i], g);
      }
    }
  }

  lemma {:induction false} FirstGroupsNext(rows: seq<(int, Row)>, j: nat)
    requires j < |rows|
    ensures FirstGroups(rows[..j + 1])
            == FirstGroups(rows[..j]) + if IntOrZero(rows[j].1, ID) in GroupIds(rows[..j]) then [] else [rows[j].1]
  {
    assert rows[..j + 1][..j] == rows[..j];
  }

  /** The wrapped row callback: a group becomes a node on its first row only, every row records its account. */
  method CollectGroups(rows: seq<(int, Row)>, byID: map<int, Account>, nodes: seq<Account>, ghost ids: seq<int>)
      returns (neighbors: seq<Neighbour>, nids: map<int, set<Account>>)
    requires |ids| == |nodes| && DistinctNodes(nodes) && Indexed(byID, ids, nodes)
    requires forall j :: 0 <= j < |rows| ==> rows[j].0 in byID
    ensures RowsOf(neighbors) == FirstGroups(rows)
    ensures Recorded(nids, rows, ids, nodes)
  {
    neighbors, nids := [], map[];
    for j := 0 to |rows|
      invariant RowsOf(neighbors) == FirstGroups(rows[..j])
      invariant Recorded(nids, rows[..j], ids, nodes)
    {
      FirstGroupsNext(rows, j);
      RecordNext(nids, rows, ids, nodes, byID, j);
      var outValue, inValue := rows[j].0, IntOrZero(rows[j].1, ID);
      if inValue !in nids {
        nids := nids[inValue := {byID[outValue]}];
        var n := new Neighbour(rows[j].1);
        neighbors := neighbors + [n];
      } else {
        nids := nids[inValue := nids[inValue] + {byID[outValue]}];
      }
    }
    assert rows[..|rows|] == rows;
  }

  /** Appends the group to every node of the set, in whatever order the set is iterated. */
  method AssignGroup(ns: set<Account>, e: Neighbour)
    modifies ns`groups
    ensures forall n :: n in ns ==> n.groups == old(n.groups) + [e]
  {
    var todo := ns;
    while todo != {}
      modifies ns`groups
      invariant todo <= ns
      invariant forall n :: n in ns ==> n.groups == if n in todo then old(n.groups) else old(n.groups) + [e]
      decreases todo
    {
      var kn :| kn in todo;
      kn.groups := kn.groups + [e];
      todo := todo - {kn};
    }
  }

  lemma {:induction false} FilterNext<T(!new)>(p: T -> bool, s: seq<T>, m: nat)
    requires m < |s|
    ensures Filter(p, s[..m + 1]) == Filter(p, s[..m]) + if p(s[m]) then [s[m]] else []
  {
    assert s[..m + 1] == s[..m] + [s[m]];
    FilterAppend(p, s[..m], [s[m]]);
  }

  /** Hands one group to every node joined to it. */
  method GroupOne(ns: set<Account>, e: Neighbour, nodes: seq<Account>, ghost rows: seq<(int, Row)>, ghost ids: seq<int>,
                  ghost firsts: seq<Row>, ghost m: nat)
    requires |ids| == |nodes| && m < |firsts| && firsts[m] == e.row && ns <= NodeSet(nodes)
    requires forall i :: 0 <= i < |nodes| ==>
      (nodes[i] in ns <==> IsLast(ids, i) && Joined(rows, ids[i], IntOrZero(e.row, ID)))
    requires forall i :: 0 <= i < |nodes| ==>
      RowsOf(nodes[i].groups) == if IsLast(ids, i) then Filter(JoinedTo(rows, ids[i]), firsts[..m]) else []
    modifies ns`groups
    ensures forall i :: 0 <= i < |nodes| ==>
      RowsOf(nodes[i].groups) == if IsLast(ids, i) then Filter(JoinedTo(rows, ids[i]), firsts[..m + 1]) else []
  {
    AssignGroup(ns, e);
    forall i | 0 <= i < |nodes|
      ensures RowsOf(nodes[i].groups) == if IsLast(ids, i) then Filter(JoinedTo(rows, ids[i]), firsts[..m + 1]) else []
    {
      FilterNext(JoinedTo(rows, ids[i]), firsts, m);
      RowsOfAppend(old(nodes[i].groups), e);
      if nodes[i] !in ns {
        assert nodes[i].groups == old(nodes[i].groups);
      }
    }
  }

  method AttachGroups(neighbors: seq<Neighbour>, nids: map<int, set<Account>>, nodes: seq<Account>,
                      ghost rows: seq<(int, Row)>, ghost ids: seq<int>) returns (r: Result<(), LoadError>)
    requires |ids| == |nodes| && Recorded(nids, rows, ids, nodes) && RowsOf(neighbors) == FirstGroups(rows)
    requires forall n :: n in nodes ==> n.groups == []
    modifies NodeSet(nodes)`groups
    ensures r.Ok?
    ensures forall i :: 0 <= i < |nodes| ==> RowsOf(nodes[i].groups) == DealGroups(rows, ids)[i]
  {
    ghost var firsts := FirstGroups(rows);
    for m := 0 to |neighbors|
      modifies NodeSet(nodes)`groups
      invariant forall i :: 0 <= i < |nodes| ==>
        RowsOf(nodes[i].groups) == if IsLast(ids, i) then Filter(JoinedTo(rows, ids[i]), firsts[..m]) else []
    {
      var id := IntOrZero(neighbors[m].row, ID);
      FirstGroupSeen(rows, m);
      if id !in nids {
        return Err(UnexpectedNode(id));
      }
      GroupOne(nids[id], neighbors[m], nodes, rows, ids, firsts, m);
    }
    assert firsts[..|neighbors|] == firsts;
    r := Ok(());
  }

  lemma {:induction false} FirstGroupSeen(rows: seq<(int, Row)>, m: nat)
    requires m < |FirstGroups(rows)|
    ensures IntOrZero(FirstGroups(rows)[m], ID) in GroupIds(rows)
  {
    assert FirstGroups(rows)[m] in FirstGroups(rows);
  }

  method LoadGroups(drv: Driver, query: LeafQuery, nodes: seq<Account>, ghost es: seq<Entity>)
      returns (r: Result<(), LoadError>)
    requires !drv.failed
    requires DistinctNodes(nodes) && Holding(nodes, es)
    modifies drv`queries, drv`failed, query`tree, NodeSet(nodes)`groups
    ensures drv.queries <= old(drv.queries) + 1
    ensures drv.failed <==> r == Err(DriverError)
    ensures query.tree == old(query.tree).Where(JoinIn(IdsOf(es)))
    ensures r.Ok? ==> forall i :: 0 <= i < |nodes| ==>
      RowsOf(nodes[i].groups) == GroupLists(drv.db, Some(old(query.tree)), IdsOf(es))[i]
    ensures r.Err? ==> r.error == DriverError
  {
    var edgeIDs, byID := IndexNodes(nodes, es);
    query.Where(JoinIn(edgeIDs));
    var rows := drv.QueryJoin(query.tree, edgeIDs);
    if rows.Err? {
      return Err(rows.error);
    }
    JoinRowsKnown(drv.db, query.tree, edgeIDs);
    var neighbors, nids := CollectGroups(rows.value, byID, nodes, edgeIDs);
    r := AttachGroups(neighbors, nids, nodes, rows.value, edgeIDs);
  }
}

/** The whole eager load: fetch the nodes, fill their edges with the loaders, recurse into the account edges. */
module EagerLoad {
  import opened Collections
  import opened AccountEntity
  import opened EagerSpec
  import opened EagerJoin
  import opened EagerRefinement
  import opened AccountGraph
  import opened Loaders

  // ---------------------------------------------------------------- fetching the nodes

  method WithoutId(fields: seq<Column>) returns (rest: seq<Column>)
    ensures rest == Filter(NotId(), fields)
  {
    rest := [];
    for i := 0 to |fields|
      invariant rest == Filter(NotId(), fields[..i])
    {
      FilterNext(NotId(), fields, i);
      if !fields[i].ID? {
        rest := rest + [fields[i]];
      }
    }
    assert fields[..|fields|] == fields;
  }

  /** The columns of the query's spec. */
  method QueryColumns(q: AccountQuery) returns (columns: seq<Column>)
    ensures columns == NodeColumns(q.ctx.fields, q.withProxy != null, q.withParent != null)
  {
    if |q.ctx.fields| == 0 {
      return Columns();
    }
    var rest := WithoutId(q.ctx.fields);
    columns := [ID] + rest;
    if q.withProxy != null {
      columns := AddColumnOnce(columns, ProxyID);
    }
    if q.withParent != null {
      columns := AddColumnOnce(columns, ParentAccountID);
    }
  }

  /** Scans one row into a node without edges. */
  method NewNode(decode: Decoder, columns: seq<Column>, row: Row, loaded: seq<bool>)
      returns (r: Result<Account, LoadError>)
    ensures r.Ok? ==> fresh(r.value) && r.value.Bare() && r.value.loadedTypes == loaded
                      && Scanner(decode, columns)(row) == Some(r.value.entity)
    ensures r.Err? ==> Scanner(decode, columns)(row).None? && r.error != DriverError
  {
    var values := ScanValues(columns);
    var scanned := FillAll(values, CellsOf(columns, row));
    if scanned.None? {
      return Err(ScanFailed);
    }
    var node := new Account(loaded);
    var err := node.AssignValues(decode, columns, scanned.value);
    if err.Some? {
      return Err(AssignFailed(err.value));
    }
    r := Ok(node);
  }

  lemma {:induction false} DistinctAppend(nodes: seq<Account>, n: Account)
    requires DistinctNodes(nodes) && n !in nodes
    ensures DistinctNodes(nodes + [n]) && NodeSet(nodes + [n]) == NodeSet(nodes) + {n}
  {
    assert NodeSet(nodes + [n]) <= NodeSet(nodes) + {n};
    assert (nodes + [n])[|nodes|] == n;
    forall m | m in nodes ensures m in nodes + [n] {
    }
  }

  /** One node per row, in row order; the first row that cannot be scanned ends the scan. */
  method ScanNodes(decode: Decoder, columns: seq<Column>, rows: seq<Row>, loaded: seq<bool>)
      returns (r: Result<seq<Account>, LoadError>, ghost es: seq<Entity>)
    ensures r.Ok? ==> Traverse(Scanner(decode, columns), rows) == Some(es) && Holding(r.value, es)
    ensures r.Ok? ==> (forall n :: n in r.value ==> fresh(n)) && DistinctNodes(r.value)
    ensures r.Ok? ==> AllBare(r.value, loaded)
    ensures r.Err? ==> r.error != DriverError && Traverse(Scanner(decode, columns), rows).None?
  {
    es := [];
    var nodes: seq<Account> := [];
    ghost var scan := Scanner(decode, columns);
    for i := 0 to |rows|
      modifies {}
      invariant |nodes| == |es| == i && DistinctNodes(nodes) && Holding(nodes, es)
      invariant forall n :: n in nodes ==> fresh(n)
      invariant Traverse(scan, rows[..i]) == Some(es)
      invariant AllBare(nodes, loaded)
    {
      var node := NewNode(decode, columns, rows[i], loaded);
      if node.Err? {
        TraverseFails(scan, rows, i);
        return Err(node.error), es;
      }
      TraverseNext(scan, rows, i, es, node.value.entity);
      DistinctAppend(nodes, node.value);
      nodes := nodes + [node.value];
      es := es + [node.value.entity];
    }
    assert rows[..|rows|] == rows;
    r := Ok(nodes);
  }

  ghost predicate AllBare(nodes: seq<Account>, loaded: seq<bool>)
    reads nodes
  {
    forall n :: n in nodes ==> n.Bare() && n.loadedTypes == loaded
  }

  method NodePlan(q: AccountQuery) returns (columns: seq<Column>, loaded: seq<bool>)
    requires q.tree == q.Current()
    ensures columns == ColumnsOf(q.tree) && loaded == q.tree.Loaded()
  {
    columns := QueryColumns(q);
    loaded := RequestedEdges(q);
  }

  method RequestedEdges(q: AccountQuery) returns (loaded: seq<bool>)
    requires q.tree == q.Current()
    ensures loaded == q.tree.Loaded()
  {
    loaded := [q.withGroups != null, q.withProxy != null, q.withParent != null, q.withChildren != null,
               q.withUsageLogs != null, q.withAccountGroups != null];
    ghost var expected := q.tree.Loaded();
    assert loaded[0] == expected[0];
    assert loaded[1] == expected[1];
    assert loaded[2] == expected[2];
    assert loaded[3] == expected[3];
    assert loaded[4] == expected[4];
    assert loaded[5] == expected[5];
  }

  method FetchRows(drv: Driver, q: AccountQuery) returns (r: Result<seq<Row>, LoadError>)
    requires !drv.failed
    requires q.tree == q.Current()
    modifies drv`queries, drv`failed
    ensures drv.queries == old(drv.queries) + 1
    ensures drv.failed <==> r == Err(DriverError)
    ensures r.Ok? ==> r.value == AccountRows(drv.db, q.tree)
    ensures r.Err? ==> r.error == DriverError
  {
    r := drv.QueryAccounts(q.ctx.Value(), q.predicates, q.order);
  }

  method FetchNodes(drv: Driver, q: AccountQuery) returns (r: Result<seq<Account>, LoadError>, ghost es: seq<Entity>)
    requires !drv.failed
    requires q.tree == q.Current() && ValidFields(q.tree.ctx.fields)
    modifies drv`queries, drv`failed
    ensures drv.queries == old(drv.queries) + 1
    ensures drv.failed <==> r == Err(DriverError)
    ensures r.Ok? ==> Nodes(drv.db, q.tree) == Some(es) && Holding(r.value, es) && DistinctNodes(r.value)
    ensures r.Ok? ==> forall n :: n in r.value ==> fresh(n)
    ensures r.Ok? ==> AllBare(r.value, q.tree.Loaded())
    ensures r.Err? && r.error != DriverError ==> Nodes(drv.db, q.tree).None?
  {
    ghost var t := q.tree;
    var columns, loaded := NodePlan(q);
    var rows := FetchRows(drv, q);
    if rows.Err? {
      return Err(rows.error), [];
    }
    r, es := ScanNodes(drv.db.decode, columns, rows.value, loaded);
  }

  // ---------------------------------------------------------------- joining account neighbours

  ghost function PickRef(fk: Option<int>, keys: seq<Option<int>>, ns: seq<Account>): Account?
    requires |keys| == |ns|
  {
    if fk.None? || LastBy(keys, ns, fk.value).None? then null else LastBy(keys, ns, fk.value).value
  }

  method SetParent(ms: seq<Account>, n: Account)
    modifies NodeSet(ms)`parent
    ensures forall m :: m in ms ==> m.parent == n
  {
    for i := 0 to |ms|
      invariant forall j :: 0 <= j < i ==> ms[j].parent == n
      modifies NodeSet(ms)`parent
    {
      ms[i].parent := n;
    }
  }

  /** Every node whose key a neighbour carries ends pointing to the last such neighbour, the others are left alone; a
      neighbour nobody asked for is an error. */
  method AttachParents(ns: seq<Account>, nodeids: map<int, seq<Account>>, nodes: seq<Account>,
                       ghost ids: seq<int>, ghost fks: seq<Option<int>>, ghost keys: seq<Option<int>>)
      returns (r: Result<(), LoadError>)
    requires |fks| == |nodes| && Grouped(ids, nodeids, fks, nodes) && DistinctNodes(nodes)
    requires |keys| == |ns| && forall j :: 0 <= j < |ns| ==> keys[j] == Some(ns[j].entity.Id())
    requires forall n :: n in nodes ==> n.parent == null
    modifies NodeSet(nodes)`parent
    ensures r.Ok? <==> KnownKeys(keys, ids)
    ensures r.Ok? ==> forall i :: 0 <= i < |nodes| ==> nodes[i].parent == PickRef(fks[i], keys, ns)
    ensures r.Err? ==> r.error.UnexpectedNode?
  {
    for j := 0 to |ns|
      modifies NodeSet(nodes)`parent
      invariant KnownKeys(keys[..j], ids)
      invariant forall i :: 0 <= i < |nodes| ==> nodes[i].parent == PickRef(fks[i], keys[..j], ns[..j])
    {
      var id := ns[j].entity.Id();
      KnownNext(keys, ids, j);
      if id !in nodeids {
        return Err(UnexpectedNode(id));
      }
      MatchNext(fks, nodes, keys, ns, j, id);
      SetParent(nodeids[id], ns[j]);
    }
    assert keys[..|ns|] == keys && ns[..|ns|] == ns;
    r := Ok(());
  }

  method IndexParents(nodes: seq<Account>, ghost es: seq<Entity>) returns (fks: seq<int>, nodeids: map<int, Account>)
    requires DistinctNodes(nodes) && Holding(nodes, es)
    modifies NodeSet(nodes)`children
    ensures fks == IdsOf(es) && Indexed(nodeids, fks, nodes)
    ensures forall n :: n in nodes ==> n.children == []
  {
    fks, nodeids := [], map[];
    ghost var ids := IdsOf(es);
    for i := 0 to |nodes|
      modifies NodeSet(nodes)`children
      invariant fks == ids[..i] && Indexed(nodeids, ids[..i], nodes[..i])
      invariant forall j :: 0 <= j < i ==> nodes[j].children == []
    {
      fks := fks + [nodes[i].entity.Id()];
      nodeids := IndexOne(nodeids, nodes, ids, i);
      nodes[i].children := [];
    }
    assert ids[..|nodes|] == ids && nodes[..|nodes|] == nodes;
  }

  ghost predicate ChildrenDealt(nodes: seq<Account>, ids: seq<int>, keys: seq<Option<int>>, ns: seq<Account>, j: nat)
    requires |ids| == |nodes| && |keys| == |ns| && j <= |ns|
    reads nodes
  {
    && KnownKeys(keys[..j], ids)
    && forall i :: 0 <= i < |nodes| ==>
      nodes[i].children == if IsLast(ids, i) then PickBy(keys[..j], ns[..j], ids[i]) else []
  }

  /** Hands child j to its parent, if it has a known one. */
  method AttachChild(nodeids: map<int, Account>, nodes: seq<Account>, ns: seq<Account>,
                     ghost ids: seq<int>, ghost keys: seq<Option<int>>, j: nat) returns (r: Result<(), LoadError>)
    requires |ids| == |nodes| && Indexed(nodeids, ids, nodes) && DistinctNodes(nodes)
    requires |keys| == |ns| && j < |ns| && keys[j] == ns[j].entity.ForeignKey(ParentAccountID)
    requires ChildrenDealt(nodes, ids, keys, ns, j)
    modifies NodeSet(nodes)`children
    ensures r.Ok? ==> ChildrenDealt(nodes, ids, keys, ns, j + 1)
    ensures r.Err? ==> r.error != DriverError && !KnownKeys(keys, ids)
  {
    var fk := ns[j].entity.ForeignKey(ParentAccountID);
    KnownNext(keys, ids, j);
    if fk.None? {
      return Err(NilForeignKey(ns[j].entity.Id()));
    }
    if fk.value !in nodeids {
      return Err(UnexpectedNode(fk.value));
    }
    var node := nodeids[fk.value];
    DealNext(nodeids, ids, nodes, keys, ns, j, fk.value);
    node.children := node.children + [ns[j]];
    r := Ok(());
  }

  method AttachChildren(ns: seq<Account>, nodeids: map<int, Account>, nodes: seq<Account>,
                        ghost ids: seq<int>, ghost keys: seq<Option<int>>) returns (r: Result<(), LoadError>)
    requires |ids| == |nodes| && Indexed(nodeids, ids, nodes) && DistinctNodes(nodes)
    requires |keys| == |ns| && forall j :: 0 <= j < |ns| ==> keys[j] == ns[j].entity.ForeignKey(ParentAccountID)
    requires forall n :: n in nodes ==> n.children == []
    modifies NodeSet(nodes)`children
    ensures r.Ok? <==> KnownKeys(keys, ids)
    ensures r.Ok? ==> forall i :: 0 <= i < |nodes| ==> nodes[i].children == Deal(ids, keys, ns)[i]
    ensures r.Err? ==> r.error != DriverError
  {
    for j := 0 to |ns|
      modifies NodeSet(nodes)`children
      invariant ChildrenDealt(nodes, ids, keys, ns, j)
    {
      r := AttachChild(nodeids, nodes, ns, ids, keys, j);
      if r.Err? {
        return;
      }
    }
    ChildrenAll(nodes, ids, keys, ns);
    r := Ok(());
  }

  lemma {:induction false} ChildrenAll(nodes: seq<Account>, ids: seq<int>, keys: seq<Option<int>>, ns: seq<Account>)
    requires |ids| == |nodes| && |keys| == |ns| && ChildrenDealt(nodes, ids, keys, ns, |ns|)
    ensures KnownKeys(keys, ids)
    ensures forall i :: 0 <= i < |nodes| ==> nodes[i].children == Deal(ids, keys, ns)[i]
  {
    assert keys[..|keys|] == keys && ns[..|ns|] == ns;
  }

  // ---------------------------------------------------------------- loaded neighbours and their graphs

  /** Every node of ns is completely loaded, on objects of the set below. */
  ghost predicate Complete(ns: seq<Account>, below: set<Account>)
    reads below
  {
    forall n :: n in ns ==> n in below && n.Repr <= below && n.Valid() && n.tree.entity == n.entity
  }

  lemma {:induction false} PickTrees(keys: seq<Option<int>>, ns: seq<Account>, k: int)
    requires |keys| == |ns|
    ensures PickBy(keys, Trees(ns), k) == Trees(PickBy(keys, ns, k))
    decreases |keys|
  {
    if keys != [] {
      var m := |keys| - 1;
      PickTrees(keys[..m], ns[..m], k);
      assert Trees(ns)[..m] == Trees(ns[..m]);
    }
  }

  lemma {:induction false} RefTree(fk: Option<int>, keys: seq<Option<int>>, ns: seq<Account>)
    requires |keys| == |ns|
    ensures var p := PickRef(fk, keys, ns);
            && (if p == null then None else Some(p.tree))
               == (if fk.None? then None else LastBy(keys, Trees(ns), fk.value))
            && (p != null ==> p in ns)
  {
    if fk.Some? {
      PickTrees(keys, ns, fk.value);
      var picked := PickBy(keys, ns, fk.value);
      if picked != [] {
        InPick(keys, ns, fk.value, picked[|picked| - 1]);
      }
    }
  }

  // ---------------------------------------------------------------- recursion over the account edges

  lemma {:induction false} ParentsJoined(nodes: seq<Account>, ns: seq<Account>, fks: seq<Option<int>>,
                                         below: set<Account>)
    requires |fks| == |nodes| && Complete(ns, below)
    requires forall i :: 0 <= i < |nodes| ==> nodes[i].parent == PickRef(fks[i], TreeIds(Trees(ns)), ns)
    ensures forall i :: 0 <= i < |nodes| ==> nodes[i].ParentTree() == Lookup(fks, TreeIds(Trees(ns)), Trees(ns))[i]
    ensures ParentsSupported(nodes, below)
  {
    forall i | 0 <= i < |nodes|
      ensures nodes[i].ParentTree() == Lookup(fks, TreeIds(Trees(ns)), Trees(ns))[i]
      ensures nodes[i].parent != null ==> nodes[i].parent in ns
    {
      RefTree(fks[i], TreeIds(Trees(ns)), ns);
    }
  }

  /** The parents of a layer, written into the nodes, as trees. */
  method JoinParents(ns: seq<Account>, nodeids: map<int, seq<Account>>, nodes: seq<Account>,
                     ghost ids: seq<int>, ghost fks: seq<Option<int>>, ghost below: set<Account>)
      returns (r: Result<(), LoadError>)
    requires |fks| == |nodes| && ids == FirstSeen(fks) && Grouped(ids, nodeids, fks, nodes) && DistinctNodes(nodes)
    requires Complete(ns, below) && NodeSet(nodes) !! below
    requires forall n :: n in nodes ==> n.parent == null
    modifies NodeSet(nodes)`parent
    ensures r.Ok? <==> PicksFrom(Some(old(Trees(ns))), fks).Some?
    ensures r.Ok? ==> forall i :: 0 <= i < |nodes| ==>
      nodes[i].ParentTree() == PicksFrom(Some(old(Trees(ns))), fks).value[i]
    ensures r.Ok? ==> ParentsSupported(nodes, below)
    ensures r.Err? ==> r.error != DriverError
  {
    ghost var trees := Trees(ns);
    ghost var keys := TreeIds(trees);
    assert forall j :: 0 <= j < |ns| ==> ns[j] in ns;
    r := AttachParents(ns, nodeids, nodes, ids, fks, keys);
    assert Trees(ns) == trees;
    if r.Ok? {
      ParentsJoined(nodes, ns, fks, below);
    }
  }

  /** The children of a layer, appended to the nodes, as trees. */
  method JoinChildren(ns: seq<Account>, nodeids: map<int, Account>, nodes: seq<Account>,
                      ghost ids: seq<int>, ghost below: set<Account>) returns (r: Result<(), LoadError>)
    requires |ids| == |nodes| && Indexed(nodeids, ids, nodes) && DistinctNodes(nodes)
    requires Complete(ns, below) && NodeSet(nodes) !! below
    requires forall n :: n in nodes ==> n.children == []
    modifies NodeSet(nodes)`children
    ensures r.Ok? <==> ListsFrom(Some(old(Trees(ns))), ids).Some?
    ensures r.Ok? ==> forall i :: 0 <= i < |nodes| ==>
      Trees(nodes[i].children) == ListsFrom(Some(old(Trees(ns))), ids).value[i]
    ensures r.Ok? ==> ChildrenSupported(nodes, below)
    ensures r.Err? ==> r.error != DriverError
  {
    ghost var trees := Trees(ns);
    ghost var keys := TreeParents(trees);
    assert forall j :: 0 <= j < |ns| ==> ns[j] in ns;
    r := AttachChildren(ns, nodeids, nodes, ids, keys);
    assert Trees(ns) == trees && Complete(ns, below);
    if r.Ok? {
      forall i | 0 <= i < |nodes|
        ensures Trees(nodes[i].children) == Deal(ids, keys, trees)[i]
        ensures Complete(nodes[i].children, below)
      {
        PickTrees(keys, ns, ids[i]);
        PickComplete(keys, ns, ids[i], below);
      }
    }
  }

  lemma {:induction false} PickComplete(keys: seq<Option<int>>, ns: seq<Account>, k: int, below: set<Account>)
    requires |keys| == |ns| && Complete(ns, below)
    ensures Complete(PickBy(keys, ns, k), below)
  {
    forall c | c in PickBy(keys, ns, k) ensures c in ns {
      InPick(keys, ns, k, c);
    }
  }

  /** What loading a query has to give; kept as a value so that only the last step of the recursion opens it. */
  type Loader = QueryTree -> Option<seq<AccountTree>>

  ghost predicate Meaning(load: Loader, db: Database) {
    forall q {:trigger Batched(db, q)} :: load(q) == Batched(db, q)
  }

  ghost function PicksBy(load: Loader, q: Option<QueryTree>,
                         fks: seq<Option<int>>): (r: Option<seq<Option<AccountTree>>>)
    ensures r.Some? ==> |r.value| == |fks|
  {
    if q.None? || FirstSeen(fks) == [] then Some(Nothing(|fks|, None))
    else PicksFrom(load(q.value.Where(In(ID, FirstSeen(fks)))), fks)
  }

  ghost function ListsBy(load: Loader, q: Option<QueryTree>, ids: seq<int>): (r: Option<seq<seq<AccountTree>>>)
    ensures r.Some? ==> |r.value| == |ids|
  {
    if q.None? then Some(Nothing(|ids|, [])) else ListsFrom(load(ChildQuery(q.value, ids)), ids)
  }

  /** The meaning of every edge as a value, so that only the loader of an edge opens its definition. */
  datatype Meanings = Meanings(groups: (Option<LeafTree>, seq<int>) -> seq<seq<Row>>,
                               proxies: (Option<LeafTree>, seq<Option<int>>) -> Option<seq<Option<Row>>>,
                               parents: (Option<QueryTree>, seq<Option<int>>) -> Option<seq<Option<AccountTree>>>,
                               children: (Option<QueryTree>, seq<int>) -> Option<seq<seq<AccountTree>>>,
                               owned: (Table, Option<LeafTree>, seq<int>) -> Option<seq<seq<Row>>>)

  ghost predicate Gives(f: Meanings, load: Loader, db: Database) {
    && Meaning(load, db)
    && (forall q, ids {:trigger GroupLists(db, q, ids)} :: f.groups(q, ids) == GroupLists(db, q, ids))
    && (forall q, fks {:trigger ProxyPicks(db, q, fks)} :: f.proxies(q, fks) == ProxyPicks(db, q, fks))
    && (forall q, fks {:trigger PicksBy(load, q, fks)} :: f.parents(q, fks) == PicksBy(load, q, fks))
    && (forall q, ids {:trigger ListsBy(load, q, ids)} :: f.children(q, ids) == ListsBy(load, q, ids))
    && (forall table, q, ids {:trigger OwnedLists(RowsIn(db, table), q, ids)} ::
         f.owned(table, q, ids) == OwnedLists(RowsIn(db, table), q, ids))
  }

  ghost function MeaningsOf(load: Loader, db: Database): Meanings {
    Meanings((q, ids) => GroupLists(db, q, ids), (q, fks) => ProxyPicks(db, q, fks), (q, fks) => PicksBy(load, q, fks),
             (q, ids) => ListsBy(load, q, ids), (table, q, ids) => OwnedLists(RowsIn(db, table), q, ids))
  }

  /** A database together with what loading from it means. */
  datatype Setting = Setting(db: Database, load: Loader, f: Meanings)

  type World = w: Setting | Gives(w.f, w.load, w.db) ghost witness WorldOf(Database([], [], [], [], [], _ => NullDoc))

  ghost function WorldOf(db: Database): (w: Setting)
    ensures w.db == db && Gives(w.f, w.load, db)
  {
    var load: Loader := q => Batched(db, q);
    Setting(db, load, MeaningsOf(load, db))
  }

  ghost predicate Apart(q: AccountQuery?, drv: Driver, nodes: seq<Account>)
    reads q
  {
    drv !in ReprOf(q) && forall n :: n in nodes ==> n !in ReprOf(q)
  }

  /** One query for all the parents of a layer. */
  method AskParents(drv: Driver, query: AccountQuery, ids: seq<int>, ghost w: World)
      returns (r: Result<seq<Account>, LoadError>, ghost below: set<Account>)
    requires !drv.failed && w.db == drv.db
    requires query.Valid() && drv !in query.Repr
    modifies drv`queries, drv`failed, query.Repr
    ensures drv.queries <= old(drv.queries) + Size(old(query.tree))
    ensures drv.failed <==> r == Err(DriverError)
    ensures fresh(below)
    ensures r.Ok? ==> w.load(old(query.tree).Where(In(ID, ids))) == Some(Trees(r.value)) && Complete(r.value, below)
    ensures r.Err? && r.error != DriverError ==> w.load(old(query.tree).Where(In(ID, ids))).None?
    decreases Height(query.tree), 5
  {
    ghost var t := query.tree;
    query.Where(In(ID, ids));
    r, below := All(drv, query, w);
  }

  /** One query for all the children of a layer, with the key column they are dealt by. */
  method AskChildren(drv: Driver, query: AccountQuery, ids: seq<int>, ghost w: World)
      returns (r: Result<seq<Account>, LoadError>, ghost below: set<Account>)
    requires !drv.failed && w.db == drv.db
    requires query.Valid() && drv !in query.Repr
    modifies drv`queries, drv`failed, query.Repr
    ensures drv.queries <= old(drv.queries) + Size(old(query.tree))
    ensures drv.failed <==> r == Err(DriverError)
    ensures fresh(below)
    ensures r.Ok? ==> w.load(ChildQuery(old(query.tree), ids)) == Some(Trees(r.value)) && Complete(r.value, below)
    ensures r.Err? && r.error != DriverError ==> w.load(ChildQuery(old(query.tree), ids)).None?
    decreases Height(query.tree), 5
  {
    ghost var t := query.tree;
    query.SelectForeignKey(ParentAccountID);
    query.Where(In(ParentAccountID, ids));
    r, below := All(drv, query, w);
  }

  lemma {:induction false} PicksBySome(load: Loader, t: QueryTree, fks: seq<Option<int>>)
    requires FirstSeen(fks) != []
    ensures PicksBy(load, Some(t), fks) == PicksFrom(load(t.Where(In(ID, FirstSeen(fks)))), fks)
  {
  }

  lemma {:induction false} PicksByNone(load: Loader, t: QueryTree, fks: seq<Option<int>>)
    requires FirstSeen(fks) == []
    ensures PicksBy(load, Some(t), fks) == Some(Nothing(|fks|, None))
  {
  }

  lemma {:induction false} ListsByIs(load: Loader, t: QueryTree, ids: seq<int>)
    ensures ListsBy(load, Some(t), ids) == ListsFrom(load(ChildQuery(t, ids)), ids)
  {
  }

  /** The parents of a layer, some of which have one. */
  method LoadSomeParents(drv: Driver, query: AccountQuery, nodes: seq<Account>, ids: seq<int>,
                         nodeids: map<int, seq<Account>>, ghost fks: seq<Option<int>>, ghost w: World)
      returns (r: Result<(), LoadError>, ghost below: set<Account>)
    requires !drv.failed && w.db == drv.db
    requires query.Valid() && Apart(query, drv, nodes) && DistinctNodes(nodes)
    requires |fks| == |nodes| && ids == FirstSeen(fks) && Grouped(ids, nodeids, fks, nodes)
    requires forall n :: n in nodes ==> n.parent == null
    modifies drv`queries, drv`failed, query.Repr, NodeSet(nodes)`parent
    ensures drv.queries <= old(drv.queries) + Size(old(query.tree))
    ensures drv.failed <==> r == Err(DriverError)
    ensures fresh(below)
    ensures r.Ok? ==>
      var picks := PicksFrom(w.load(old(query.tree).Where(In(ID, ids))), fks);
      picks.Some? && forall i :: 0 <= i < |nodes| ==> nodes[i].ParentTree() == picks.value[i]
    ensures r.Ok? ==> ParentsSupported(nodes, below)
    ensures r.Err? && r.error != DriverError ==> PicksFrom(w.load(old(query.tree).Where(In(ID, ids))), fks).None?
    decreases Height(query.tree), 6
  {
    var neighbors;
    neighbors, below := AskParents(drv, query, ids, w);
    if neighbors.Err? {
      return Err(neighbors.error), below;
    }
    r := JoinParents(neighbors.value, nodeids, nodes, ids, fks, below);
  }

  method LoadParent(drv: Driver, query: AccountQuery, nodes: seq<Account>, ghost es: seq<Entity>, ghost w: World)
      returns (r: Result<(), LoadError>, ghost below: set<Account>)
    requires !drv.failed && w.db == drv.db
    requires query.Valid() && Apart(query, drv, nodes) && DistinctNodes(nodes) && Holding(nodes, es)
    requires forall n :: n in nodes ==> n.parent == null
    modifies drv`queries, drv`failed, query.Repr, NodeSet(nodes)`parent
    ensures drv.queries <= old(drv.queries) + Size(old(query.tree))
    ensures drv.failed <==> r == Err(DriverError)
    ensures fresh(below)
    ensures r.Ok? ==>
      var picks := PicksBy(w.load, Some(old(query.tree)), KeysOf(es, ParentAccountID));
      picks.Some? && forall i :: 0 <= i < |nodes| ==> nodes[i].ParentTree() == picks.value[i]
    ensures r.Ok? ==> ParentsSupported(nodes, below)
    ensures r.Err? && r.error != DriverError ==>
      PicksBy(w.load, Some(old(query.tree)), KeysOf(es, ParentAccountID)).None?
    decreases Height(query.tree), 7
  {
    ghost var fks := KeysOf(es, ParentAccountID);
    below := {};
    var ids, nodeids := GroupByKey(nodes, ParentAccountID, es);
    if |ids| == 0 {
      PicksByNone(w.load, query.tree, fks);
      return Ok(()), below;
    }
    PicksBySome(w.load, query.tree, fks);
    r, below := LoadSomeParents(drv, query, nodes, ids, nodeids, fks, w);
  }

  method LoadChildren(drv: Driver, query: AccountQuery, nodes: seq<Account>, ghost es: seq<Entity>, ghost w: World)
      returns (r: Result<(), LoadError>, ghost below: set<Account>)
    requires !drv.failed && w.db == drv.db
    requires query.Valid() && Apart(query, drv, nodes) && DistinctNodes(nodes) && Holding(nodes, es)
    modifies drv`queries, drv`failed, query.Repr, NodeSet(nodes)`children
    ensures drv.queries <= old(drv.queries) + Size(old(query.tree))
    ensures drv.failed <==> r == Err(DriverError)
    ensures fresh(below)
    ensures r.Ok? ==>
      var lists := ListsBy(w.load, Some(old(query.tree)), IdsOf(es));
      lists.Some? && forall i :: 0 <= i < |nodes| ==> Trees(nodes[i].children) == lists.value[i]
    ensures r.Ok? ==> ChildrenSupported(nodes, below)
    ensures r.Err? && r.error != DriverError ==> ListsBy(w.load, Some(old(query.tree)), IdsOf(es)).None?
    decreases Height(query.tree), 6
  {
    var fks, nodeids := IndexParents(nodes, es);
    ListsByIs(w.load, query.tree, fks);
    var neighbors;
    neighbors, below := AskChildren(drv, query, fks, w);
    if neighbors.Err? {
      return Err(neighbors.error), below;
    }
    r := JoinChildren(neighbors.value, nodeids, nodes, fks, below);
  }

  // ---------------------------------------------------------------- what each edge has to show

  ghost function GroupsOf(nodes: seq<Account>): seq<seq<Row>>
    reads nodes`groups
  {
    if nodes == [] then [] else [RowsOf(nodes[0].groups)] + GroupsOf(nodes[1..])
  }

  lemma {:induction false} GroupsAt(nodes: seq<Account>)
    ensures |GroupsOf(nodes)| == |nodes|
    ensures forall i :: 0 <= i < |nodes| ==> GroupsOf(nodes)[i] == RowsOf(nodes[i].groups)
  {
    if nodes != [] { GroupsAt(nodes[1..]); }
  }

  ghost function ProxiesOf(nodes: seq<Account>): seq<Option<Row>>
    reads nodes`proxy
  {
    if nodes == [] then [] else [nodes[0].ProxyRow()] + ProxiesOf(nodes[1..])
  }

  lemma {:induction false} ProxiesAt(nodes: seq<Account>)
    ensures |ProxiesOf(nodes)| == |nodes|
    ensures forall i :: 0 <= i < |nodes| ==> ProxiesOf(nodes)[i] == nodes[i].ProxyRow()
  {
    if nodes != [] { ProxiesAt(nodes[1..]); }
  }

  ghost function LogsOf(nodes: seq<Account>): seq<seq<Row>>
    reads nodes`usageLogs
  {
    if nodes == [] then [] else [RowsOf(nodes[0].usageLogs)] + LogsOf(nodes[1..])
  }

  lemma {:induction false} LogsAt(nodes: seq<Account>)
    ensures |LogsOf(nodes)| == |nodes|
    ensures forall i :: 0 <= i < |nodes| ==> LogsOf(nodes)[i] == RowsOf(nodes[i].usageLogs)
  {
    if nodes != [] { LogsAt(nodes[1..]); }
  }

  ghost function EntriesOf(nodes: seq<Account>): seq<seq<Row>>
    reads nodes`accountGroups
  {
    if nodes == [] then [] else [RowsOf(nodes[0].accountGroups)] + EntriesOf(nodes[1..])
  }

  lemma {:induction false} EntriesAt(nodes: seq<Account>)
    ensures |EntriesOf(nodes)| == |nodes|
    ensures forall i :: 0 <= i < |nodes| ==> EntriesOf(nodes)[i] == RowsOf(nodes[i].accountGroups)
  {
    if nodes != [] { EntriesAt(nodes[1..]); }
  }

  ghost function OwnedListsOf(edge: OwnedEdge, nodes: seq<Account>): seq<seq<Row>>
    reads nodes`usageLogs, nodes`accountGroups
  {
    if edge.UsageLogEdge? then LogsOf(nodes) else EntriesOf(nodes)
  }

  /** A neighbour's graph, if it lies on the objects of the set below. */
  ghost function TreeIn(n: Account?, below: set<Account>): Option<AccountTree>
    reads below
  {
    if n == null || n !in below then None else Some(n.tree)
  }

  ghost function ParentsOf(nodes: seq<Account>, below: set<Account>): seq<Option<AccountTree>>
    reads nodes`parent, below
  {
    if nodes == [] then [] else [TreeIn(nodes[0].parent, below)] + ParentsOf(nodes[1..], below)
  }

  lemma {:induction false} ParentsAt(nodes: seq<Account>, below: set<Account>)
    ensures |ParentsOf(nodes, below)| == |nodes|
    ensures forall i :: 0 <= i < |nodes| ==> ParentsOf(nodes, below)[i] == TreeIn(nodes[i].parent, below)
  {
    if nodes != [] { ParentsAt(nodes[1..], below); }
  }

  /** Every parent is complete, on objects of the set below. */
  ghost predicate ParentsSupported(nodes: seq<Account>, below: set<Account>)
    reads nodes`parent, below
  {
    forall n :: n in nodes && n.parent != null ==>
      n.parent in below && n.parent.Repr <= below && n.parent.Valid()
  }

  ghost function TreesIn(ns: seq<Account>, below: set<Account>): seq<AccountTree>
    reads below
  {
    if forall n :: n in ns ==> n in below then Trees(ns) else []
  }

  ghost function ChildrenOf(nodes: seq<Account>, below: set<Account>): seq<seq<AccountTree>>
    reads nodes`children, below
  {
    if nodes == [] then [] else [TreesIn(nodes[0].children, below)] + ChildrenOf(nodes[1..], below)
  }

  lemma {:induction false} ChildrenAt(nodes: seq<Account>, below: set<Account>)
    ensures |ChildrenOf(nodes, below)| == |nodes|
    ensures forall i :: 0 <= i < |nodes| ==> ChildrenOf(nodes, below)[i] == TreesIn(nodes[i].children, below)
  {
    if nodes != [] { ChildrenAt(nodes[1..], below); }
  }

  ghost predicate ChildrenSupported(nodes: seq<Account>, below: set<Account>)
    reads nodes`children, below
  {
    forall n :: n in nodes ==> Complete(n.children, below)
  }

  // ---------------------------------------------------------------- the edges of a layer, each loaded if requested


  lemma {:induction false} GroupsGiven(w: World, q: Option<LeafTree>, ids: seq<int>)
    ensures w.f.groups(q, ids) == GroupLists(w.db, q, ids)
  {
  }

  lemma {:induction false} ProxiesGiven(w: World, q: Option<LeafTree>, fks: seq<Option<int>>)
    ensures w.f.proxies(q, fks) == ProxyPicks(w.db, q, fks)
  {
  }

  lemma {:induction false} OwnedGiven(w: World, table: Table, q: Option<LeafTree>, ids: seq<int>)
    ensures w.f.owned(table, q, ids) == OwnedLists(RowsIn(w.db, table), q, ids)
  {
  }

  lemma {:induction false} PicksGiven(w: World, q: Option<QueryTree>, fks: seq<Option<int>>)
    ensures w.f.parents(q, fks) == PicksBy(w.load, q, fks)
  {
  }

  lemma {:induction false} ListsGiven(w: World, q: Option<QueryTree>, ids: seq<int>)
    ensures w.f.children(q, ids) == ListsBy(w.load, q, ids)
  {
  }

  lemma {:induction false} GroupsShown(nodes: seq<Account>, lists: seq<seq<Row>>)
    requires |lists| == |nodes| && forall i :: 0 <= i < |nodes| ==> RowsOf(nodes[i].groups) == lists[i]
    ensures GroupsOf(nodes) == lists
  {
    GroupsAt(nodes);
  }

  lemma {:induction false} ProxiesShown(nodes: seq<Account>, picks: seq<Option<Row>>)
    requires |picks| == |nodes| && forall i :: 0 <= i < |nodes| ==> nodes[i].ProxyRow() == picks[i]
    ensures ProxiesOf(nodes) == picks
  {
    ProxiesAt(nodes);
  }

  lemma {:induction false} OwnedShown(edge: OwnedEdge, nodes: seq<Account>, lists: seq<seq<Row>>)
    requires |lists| == |nodes| && forall i :: 0 <= i < |nodes| ==> RowsOf(OwnedOf(edge, nodes[i])) == lists[i]
    ensures OwnedListsOf(edge, nodes) == lists
  {
    if edge.UsageLogEdge? {
      LogsAt(nodes);
      assert LogsOf(nodes) == lists;
    } else {
      EntriesAt(nodes);
      assert EntriesOf(nodes) == lists;
    }
  }

  lemma {:induction false} ParentsShown(nodes: seq<Account>, picks: seq<Option<AccountTree>>, below: set<Account>)
    requires ParentsSupported(nodes, below)
    requires |picks| == |nodes| && forall i :: 0 <= i < |nodes| ==> nodes[i].ParentTree() == picks[i]
    ensures ParentsOf(nodes, below) == picks
  {
    ParentsAt(nodes, below);
    assert forall i :: 0 <= i < |nodes| ==> nodes[i] in nodes;
  }

  lemma {:induction false} ChildrenShown(nodes: seq<Account>, lists: seq<seq<AccountTree>>, below: set<Account>)
    requires ChildrenSupported(nodes, below)
    requires |lists| == |nodes| && forall i :: 0 <= i < |nodes| ==> Trees(nodes[i].children) == lists[i]
    ensures ChildrenOf(nodes, below) == lists
  {
    ChildrenAt(nodes, below);
    assert forall i :: 0 <= i < |nodes| ==> nodes[i] in nodes;
  }

  method MaybeGroups(drv: Driver, query: LeafQuery?, nodes: seq<Account>, ghost es: seq<Entity>,
                     ghost w: World) returns (r: Result<(), LoadError>)
    requires !drv.failed && w.db == drv.db && DistinctNodes(nodes) && Holding(nodes, es)
    requires forall n :: n in nodes ==> n.groups == []
    modifies drv`queries, drv`failed, Just(query)`tree, NodeSet(nodes)`groups
    ensures drv.failed <==> r == Err(DriverError)
    ensures drv.queries <= old(drv.queries) + Count(old(LeafTreeOf(query)))
    ensures r.Ok? ==> GroupsOf(nodes) == w.f.groups(old(LeafTreeOf(query)), IdsOf(es))
    ensures r.Err? ==> r.error == DriverError
  {
    ghost var q, ids := LeafTreeOf(query), IdsOf(es);
    GroupsGiven(w, q, ids);
    r := Ok(());
    if query != null {
      r := LoadGroups(drv, query, nodes, es);
    }
    if r.Ok? { GroupsShown(nodes, GroupLists(drv.db, q, ids)); }
  }

  method MaybeProxy(drv: Driver, query: LeafQuery?, nodes: seq<Account>, ghost es: seq<Entity>,
                    ghost w: World) returns (r: Result<(), LoadError>)
    requires !drv.failed && w.db == drv.db && DistinctNodes(nodes) && Holding(nodes, es)
    requires forall n :: n in nodes ==> n.proxy == null
    modifies drv`queries, drv`failed, Just(query)`tree, NodeSet(nodes)`proxy
    ensures drv.failed <==> r == Err(DriverError)
    ensures drv.queries <= old(drv.queries) + Count(old(LeafTreeOf(query)))
    ensures r.Ok? ==>
      var picks := w.f.proxies(old(LeafTreeOf(query)), KeysOf(es, ProxyID));
      picks.Some? && ProxiesOf(nodes) == picks.value
    ensures r.Err? && r.error != DriverError ==> w.f.proxies(old(LeafTreeOf(query)), KeysOf(es, ProxyID)).None?
  {
    ghost var q, fks := LeafTreeOf(query), KeysOf(es, ProxyID);
    ProxiesGiven(w, q, fks);
    r := Ok(());
    if query != null {
      r := LoadProxy(drv, query, nodes, es);
    }
    if r.Ok? { ProxiesShown(nodes, ProxyPicks(drv.db, q, fks).value); }
  }

  method MaybeOwned(edge: OwnedEdge, drv: Driver, query: LeafQuery?, nodes: seq<Account>, ghost es: seq<Entity>,
                    ghost w: World) returns (r: Result<(), LoadError>)
    requires !drv.failed && w.db == drv.db && DistinctNodes(nodes) && Holding(nodes, es)
    requires forall n :: n in nodes ==> OwnedOf(edge, n) == []
    modifies drv`queries, drv`failed, Just(query)`tree
    modifies edge.ForLogs(NodeSet(nodes))`usageLogs, edge.ForEntries(NodeSet(nodes))`accountGroups
    ensures drv.failed <==> r == Err(DriverError)
    ensures drv.queries <= old(drv.queries) + Count(old(LeafTreeOf(query)))
    ensures r.Ok? ==>
      var lists := w.f.owned(edge.Source(), old(LeafTreeOf(query)), IdsOf(es));
      lists.Some? && OwnedListsOf(edge, nodes) == lists.value
    ensures r.Err? && r.error != DriverError ==> w.f.owned(edge.Source(), old(LeafTreeOf(query)), IdsOf(es)).None?
  {
    ghost var q, ids := LeafTreeOf(query), IdsOf(es);
    OwnedGiven(w, edge.Source(), q, ids);
    r := Ok(());
    if query != null {
      r := LoadOwned(edge, drv, query, nodes, es);
    }
    if r.Ok? { OwnedShown(edge, nodes, OwnedLists(RowsIn(drv.db, edge.Source()), q, ids).value); }
  }

  method MaybeParent(drv: Driver, query: AccountQuery?, nodes: seq<Account>, ghost es: seq<Entity>,
                     ghost w: World) returns (r: Result<(), LoadError>, ghost below: set<Account>)
    requires !drv.failed && w.db == drv.db && (query != null ==> query.Valid())
    requires Apart(query, drv, nodes) && DistinctNodes(nodes) && Holding(nodes, es)
    requires forall n :: n in nodes ==> n.parent == null
    modifies drv`queries, drv`failed, ReprOf(query), NodeSet(nodes)`parent
    ensures drv.failed <==> r == Err(DriverError)
    ensures drv.queries <= old(drv.queries) + SizeOf(old(TreeOf(query)))
    ensures fresh(below)
    ensures r.Ok? ==>
      var picks := w.f.parents(old(TreeOf(query)), KeysOf(es, ParentAccountID));
      picks.Some? && ParentsSupported(nodes, below) && ParentsOf(nodes, below) == picks.value
    ensures r.Err? && r.error != DriverError ==> w.f.parents(old(TreeOf(query)), KeysOf(es, ParentAccountID)).None?
    decreases HeightOf(TreeOf(query)), 8
  {
    ghost var q, fks := TreeOf(query), KeysOf(es, ParentAccountID);
    PicksGiven(w, q, fks);
    r, below := Ok(()), {};
    if query != null {
      r, below := LoadParent(drv, query, nodes, es, w);
    }
    if r.Ok? { ParentsShown(nodes, PicksBy(w.load, q, fks).value, below); }
  }

  method MaybeChildren(drv: Driver, query: AccountQuery?, nodes: seq<Account>, ghost es: seq<Entity>,
                       ghost w: World)
      returns (r: Result<(), LoadError>, ghost below: set<Account>)
    requires !drv.failed && w.db == drv.db && (query != null ==> query.Valid())
    requires Apart(query, drv, nodes) && DistinctNodes(nodes) && Holding(nodes, es)
    requires forall n :: n in nodes ==> n.children == []
    modifies drv`queries, drv`failed, ReprOf(query), NodeSet(nodes)`children
    ensures drv.failed <==> r == Err(DriverError)
    ensures drv.queries <= old(drv.queries) + SizeOf(old(TreeOf(query)))
    ensures fresh(below)
    ensures r.Ok? ==>
      var lists := w.f.children(old(TreeOf(query)), IdsOf(es));
      lists.Some? && ChildrenSupported(nodes, below) && ChildrenOf(nodes, below) == lists.value
    ensures r.Err? && r.error != DriverError ==> w.f.children(old(TreeOf(query)), IdsOf(es)).None?
    decreases HeightOf(TreeOf(query)), 8
  {
    ghost var q, ids := TreeOf(query), IdsOf(es);
    ListsGiven(w, q, ids);
    r, below := Ok(()), {};
    if query != null {
      r, below := LoadChildren(drv, query, nodes, es, w);
    }
    if r.Ok? { ChildrenShown(nodes, ListsBy(w.load, q, ids).value, below); }
  }

  function HeightOf(q: Option<QueryTree>): nat {
    if q.Some? then Height(q.value) else 0
  }

  function SizeOf(q: Option<QueryTree>): nat {
    if q.Some? then Size(q.value) else 0
  }

  // ---------------------------------------------------------------- all the edges of a layer

  /** What the nodes show of groups, proxy and parent; complete: every parent is a complete graph of its own. */
  datatype Upward = Upward(groups: seq<seq<Row>>, proxies: Option<seq<Option<Row>>>,
                           parents: Option<seq<Option<AccountTree>>>, complete: bool)

  ghost function UpwardOf(nodes: seq<Account>, above: set<Account>): Upward
    reads nodes`groups, nodes`proxy, nodes`parent, above
  {
    Upward(GroupsOf(nodes), Some(ProxiesOf(nodes)), Some(ParentsOf(nodes, above)), ParentsSupported(nodes, above))
  }

  ghost function UpwardBy(t: QueryTree, es: seq<Entity>, f: Meanings): Upward {
    Upward(f.groups(t.groups, IdsOf(es)), f.proxies(t.proxy, KeysOf(es, ProxyID)),
           f.parents(t.parent, KeysOf(es, ParentAccountID)), true)
  }

  /** What the nodes show of children, usage logs and account-group entries. */
  datatype Downward = Downward(children: Option<seq<seq<AccountTree>>>, logs: Option<seq<seq<Row>>>,
                               entries: Option<seq<seq<Row>>>, complete: bool)

  ghost function DownwardOf(nodes: seq<Account>, under: set<Account>): Downward
    reads nodes`children, nodes`usageLogs, nodes`accountGroups, under
  {
    Downward(Some(ChildrenOf(nodes, under)), Some(LogsOf(nodes)), Some(EntriesOf(nodes)),
             ChildrenSupported(nodes, under))
  }

  ghost function DownwardBy(t: QueryTree, es: seq<Entity>, f: Meanings): Downward {
    Downward(f.children(t.children, IdsOf(es)), f.owned(UsageLogs, t.usageLogs, IdsOf(es)),
             f.owned(AccountGroups, t.accountGroups, IdsOf(es)), true)
  }

  ghost predicate SomeFails(t: QueryTree, es: seq<Entity>, f: Meanings) {
    || f.proxies(t.proxy, KeysOf(es, ProxyID)).None?
    || f.parents(t.parent, KeysOf(es, ParentAccountID)).None?
    || f.children(t.children, IdsOf(es)).None?
    || f.owned(UsageLogs, t.usageLogs, IdsOf(es)).None?
    || f.owned(AccountGroups, t.accountGroups, IdsOf(es)).None?
  }

  /** groups and proxy. */
  method LoadGroupsAndProxy(drv: Driver, groups: LeafQuery?, proxy: LeafQuery?, nodes: seq<Account>,
                            ghost es: seq<Entity>, ghost w: World, ghost t: QueryTree)
      returns (r: Result<(), LoadError>)
    requires !drv.failed && w.db == drv.db && DistinctNodes(nodes) && Holding(nodes, es)
    requires groups != null ==> groups != proxy
    requires t.groups == LeafTreeOf(groups) && t.proxy == LeafTreeOf(proxy)
    requires forall n :: n in nodes ==> n.groups == [] && n.proxy == null
    modifies drv`queries, drv`failed, Just(groups)`tree, Just(proxy)`tree, NodeSet(nodes)`groups, NodeSet(nodes)`proxy
    ensures drv.failed <==> r == Err(DriverError)
    ensures drv.queries <= old(drv.queries) + Count(t.groups) + Count(t.proxy)
    ensures r.Ok? ==> GroupsOf(nodes) == w.f.groups(t.groups, IdsOf(es))
    ensures r.Ok? ==>
      var proxies := w.f.proxies(t.proxy, KeysOf(es, ProxyID));
      proxies.Some? && ProxiesOf(nodes) == proxies.value
    ensures r.Err? && r.error != DriverError ==> w.f.proxies(t.proxy, KeysOf(es, ProxyID)).None?
  {
    r := MaybeGroups(drv, groups, nodes, es, w);
    if r.Err? {
      return;
    }
    assert LeafTreeOf(proxy) == t.proxy;
    r := MaybeProxy(drv, proxy, nodes, es, w);
  }

  /** What a layer shows stays as it is while its own edge fields and the graphs below it do. */
  twostate lemma FirstStand(nodes: seq<Account>)
    requires forall n :: n in nodes ==> n.groups == old(n.groups) && n.proxy == old(n.proxy)
    ensures GroupsOf(nodes) == old(GroupsOf(nodes)) && ProxiesOf(nodes) == old(ProxiesOf(nodes))
  {
  }

  /** groups, proxy and parent, in this order. */
  method LoadUpward(drv: Driver, groups: LeafQuery?, proxy: LeafQuery?, parent: AccountQuery?, nodes: seq<Account>,
                    ghost es: seq<Entity>, ghost w: World, ghost t: QueryTree)
      returns (r: Result<(), LoadError>, ghost below: set<Account>)
    requires !drv.failed && w.db == drv.db && DistinctNodes(nodes) && Holding(nodes, es)
    requires groups != null ==> groups != proxy
    requires LeafSet(groups) + LeafSet(proxy) !! ReprOf(parent)
    requires (parent != null ==> parent.Valid()) && Apart(parent, drv, nodes)
    requires t.groups == LeafTreeOf(groups) && t.proxy == LeafTreeOf(proxy) && t.parent == TreeOf(parent)
    requires forall n :: n in nodes ==> n.groups == [] && n.proxy == null && n.parent == null
    modifies drv`queries, drv`failed, Just(groups)`tree, Just(proxy)`tree, ReprOf(parent)
    modifies NodeSet(nodes)`groups, NodeSet(nodes)`proxy, NodeSet(nodes)`parent
    ensures drv.failed <==> r == Err(DriverError)
    ensures drv.queries <= old(drv.queries) + Count(t.groups) + Count(t.proxy) + SizeOf(t.parent)
    ensures fresh(below) && (r.Ok? ==> UpwardOf(nodes, below) == UpwardBy(t, es, w.f))
    ensures r.Err? && r.error != DriverError ==> SomeFails(t, es, w.f)
    decreases HeightOf(t.parent), 9
  {
    below := {};
    r := LoadGroupsAndProxy(drv, groups, proxy, nodes, es, w, t);
    if r.Err? {
      return;
    }
    label Shown:
    assert TreeOf(parent) == t.parent;
    r, below := MaybeParent(drv, parent, nodes, es, w);
    FirstStand@Shown(nodes);
  }

  /** usage logs and account-group entries. */
  method LoadOwnedEdges(drv: Driver, logs: LeafQuery?, entries: LeafQuery?, nodes: seq<Account>,
                        ghost es: seq<Entity>, ghost w: World, ghost t: QueryTree)
      returns (r: Result<(), LoadError>)
    requires !drv.failed && w.db == drv.db && DistinctNodes(nodes) && Holding(nodes, es)
    requires logs != null ==> logs != entries
    requires t.usageLogs == LeafTreeOf(logs) && t.accountGroups == LeafTreeOf(entries)
    requires forall n :: n in nodes ==> n.usageLogs == [] && n.accountGroups == []
    modifies drv`queries, drv`failed, Just(logs)`tree, Just(entries)`tree
    modifies NodeSet(nodes)`usageLogs, NodeSet(nodes)`accountGroups
    ensures drv.failed <==> r == Err(DriverError)
    ensures drv.queries <= old(drv.queries) + Count(t.usageLogs) + Count(t.accountGroups)
    ensures r.Ok? ==>
      var lists := w.f.owned(UsageLogs, t.usageLogs, IdsOf(es));
      var other := w.f.owned(AccountGroups, t.accountGroups, IdsOf(es));
      && lists.Some? && OwnedListsOf(UsageLogEdge, nodes) == lists.value
      && other.Some? && OwnedListsOf(AccountGroupEdge, nodes) == other.value
    ensures r.Err? && r.error != DriverError ==> SomeFails(t, es, w.f)
  {
    r := MaybeOwned(UsageLogEdge, drv, logs, nodes, es, w);
    if r.Err? {
      return;
    }
    assert LeafTreeOf(entries) == t.accountGroups;
    r := MaybeOwned(AccountGroupEdge, drv, entries, nodes, es, w);
  }

  /** The owned edges, leaving the children as they are. */
  method LoadOwnedLast(drv: Driver, logs: LeafQuery?, entries: LeafQuery?, nodes: seq<Account>,
                       ghost es: seq<Entity>, ghost w: World, ghost t: QueryTree, ghost under: set<Account>)
      returns (r: Result<(), LoadError>)
    requires !drv.failed && w.db == drv.db && DistinctNodes(nodes) && Holding(nodes, es)
    requires logs != null ==> logs != entries
    requires t.usageLogs == LeafTreeOf(logs) && t.accountGroups == LeafTreeOf(entries)
    requires forall n :: n in nodes ==> n.usageLogs == [] && n.accountGroups == [] && n !in under
    modifies drv`queries, drv`failed, Just(logs)`tree, Just(entries)`tree
    modifies NodeSet(nodes)`usageLogs, NodeSet(nodes)`accountGroups
    ensures drv.failed <==> r == Err(DriverError)
    ensures drv.queries <= old(drv.queries) + Count(t.usageLogs) + Count(t.accountGroups)
    ensures r.Ok? ==>
      DownwardOf(nodes, under) == DownwardBy(t, es, w.f).(children := Some(old(ChildrenOf(nodes, under))),
                                                          complete := old(ChildrenSupported(nodes, under)))
    ensures r.Err? && r.error != DriverError ==> SomeFails(t, es, w.f)
  {
    r := LoadOwnedEdges(drv, logs, entries, nodes, es, w, t);
    assert ChildrenOf(nodes, under) == old(ChildrenOf(nodes, under));
    assert ChildrenSupported(nodes, under) == old(ChildrenSupported(nodes, under));
  }

  /** children, usage logs and account-group entries, in this order. */
  method LoadDownward(drv: Driver, children: AccountQuery?, logs: LeafQuery?, entries: LeafQuery?, nodes: seq<Account>,
                      ghost es: seq<Entity>, ghost w: World, ghost t: QueryTree)
      returns (r: Result<(), LoadError>, ghost below: set<Account>)
    requires !drv.failed && w.db == drv.db && DistinctNodes(nodes) && Holding(nodes, es)
    requires logs != null ==> logs != entries
    requires LeafSet(logs) + LeafSet(entries) !! ReprOf(children)
    requires (children != null ==> children.Valid()) && Apart(children, drv, nodes)
    requires t.usageLogs == LeafTreeOf(logs) && t.accountGroups == LeafTreeOf(entries)
    requires t.children == TreeOf(children)
    requires forall n :: n in nodes ==> n.children == [] && n.usageLogs == [] && n.accountGroups == []
    modifies drv`queries, drv`failed, Just(logs)`tree, Just(entries)`tree, ReprOf(children)
    modifies NodeSet(nodes)`children, NodeSet(nodes)`usageLogs, NodeSet(nodes)`accountGroups
    ensures drv.failed <==> r == Err(DriverError)
    ensures drv.queries <= old(drv.queries) + SizeOf(t.children) + Count(t.usageLogs) + Count(t.accountGroups)
    ensures fresh(below) && (r.Ok? ==> DownwardOf(nodes, below) == DownwardBy(t, es, w.f))
    ensures r.Err? && r.error != DriverError ==> SomeFails(t, es, w.f)
    decreases HeightOf(t.children), 9
  {
    r, below := MaybeChildren(drv, children, nodes, es, w);
    if r.Err? {
      return;
    }
    r := LoadOwnedLast(drv, logs, entries, nodes, es, w, t, below);
  }

  // ---------------------------------------------------------------- the whole load

  ghost function LayerIn(t: QueryTree, es: seq<Entity>, f: Meanings): Option<Layer> {
    Layered(f.groups(t.groups, IdsOf(es)), f.proxies(t.proxy, KeysOf(es, ProxyID)),
            f.parents(t.parent, KeysOf(es, ParentAccountID)), f.children(t.children, IdsOf(es)),
            f.owned(UsageLogs, t.usageLogs, IdsOf(es)), f.owned(AccountGroups, t.accountGroups, IdsOf(es)))
  }

  /** The nodes with the edges that f gives them. */
  ghost function LoadedBy(t: QueryTree, es: seq<Entity>, f: Meanings): Option<seq<AccountTree>> {
    var layer := LayerIn(t, es, f);
    if layer.None? || !LayerOf(layer.value, |es|) then None else Some(Assemble(t, es, layer.value))
  }

  lemma {:induction false} PicksByLoad(w: World, q: Option<QueryTree>, fks: seq<Option<int>>)
    ensures w.f.parents(q, fks) == ParentPicks(w.db, q, fks)
  {
    assert w.f.parents(q, fks) == PicksBy(w.load, q, fks);
    if q.Some? && FirstSeen(fks) != [] {
      var p := q.value.Where(In(ID, FirstSeen(fks)));
      assert w.load(p) == Batched(w.db, p);
    }
  }

  lemma {:induction false} ListsByLoad(w: World, q: Option<QueryTree>, ids: seq<int>)
    ensures w.f.children(q, ids) == ChildLists(w.db, q, ids)
  {
    assert w.f.children(q, ids) == ListsBy(w.load, q, ids);
    if q.Some? {
      assert w.load(ChildQuery(q.value, ids)) == Batched(w.db, ChildQuery(q.value, ids));
    }
  }

  lemma {:induction false} TablesOf(db: Database)
    ensures RowsIn(db, UsageLogs) == db.usageLogs && RowsIn(db, AccountGroups) == db.links
  {
  }

  lemma {:induction false} LayerFromIs(db: Database, t: QueryTree, es: seq<Entity>,
                                       parents: Option<seq<Option<AccountTree>>>,
                                       children: Option<seq<seq<AccountTree>>>)
    requires (parents.Some? ==> |parents.value| == |es|) && (children.Some? ==> |children.value| == |es|)
    ensures LayerFrom(db, t, es, parents, children)
            == Layered(GroupLists(db, t.groups, IdsOf(es)), ProxyPicks(db, t.proxy, KeysOf(es, ProxyID)), parents,
                       children, OwnedLists(db.usageLogs, t.usageLogs, IdsOf(es)),
                       OwnedLists(db.links, t.accountGroups, IdsOf(es)))
  {
  }

  lemma {:induction false} LoadLayerIs(db: Database, t: QueryTree, es: seq<Entity>)
    ensures LoadLayer(db, t, es)
            == Layered(GroupLists(db, t.groups, IdsOf(es)), ProxyPicks(db, t.proxy, KeysOf(es, ProxyID)),
                       ParentPicks(db, t.parent, KeysOf(es, ParentAccountID)), ChildLists(db, t.children, IdsOf(es)),
                       OwnedLists(RowsIn(db, UsageLogs), t.usageLogs, IdsOf(es)),
                       OwnedLists(RowsIn(db, AccountGroups), t.accountGroups, IdsOf(es)))
  {
    var parents := ParentPicks(db, t.parent, KeysOf(es, ParentAccountID));
    var children := ChildLists(db, t.children, IdsOf(es));
    assert LoadLayer(db, t, es) == LayerFrom(db, t, es, parents, children);
    TablesOf(db);
    LayerFromIs(db, t, es, parents, children);
  }

  lemma {:induction false} LayerInIsLoaded(w: World, t: QueryTree, es: seq<Entity>)
    ensures LayerIn(t, es, w.f) == LoadLayer(w.db, t, es)
  {
    var ids := IdsOf(es);
    var proxyIds, parentIds := KeysOf(es, ProxyID), KeysOf(es, ParentAccountID);
    calc {
      LayerIn(t, es, w.f);
    ==
      Layered(w.f.groups(t.groups, ids), w.f.proxies(t.proxy, proxyIds), w.f.parents(t.parent, parentIds),
              w.f.children(t.children, ids), w.f.owned(UsageLogs, t.usageLogs, ids),
              w.f.owned(AccountGroups, t.accountGroups, ids));
    == { GroupsGiven(w, t.groups, ids); ProxiesGiven(w, t.proxy, proxyIds); PicksByLoad(w, t.parent, parentIds); }
      Layered(GroupLists(w.db, t.groups, ids), ProxyPicks(w.db, t.proxy, proxyIds),
              ParentPicks(w.db, t.parent, parentIds), w.f.children(t.children, ids),
              w.f.owned(UsageLogs, t.usageLogs, ids), w.f.owned(AccountGroups, t.accountGroups, ids));
    == { ListsByLoad(w, t.children, ids); OwnedGiven(w, UsageLogs, t.usageLogs, ids);
         OwnedGiven(w, AccountGroups, t.accountGroups, ids); }
      Layered(GroupLists(w.db, t.groups, ids), ProxyPicks(w.db, t.proxy, proxyIds),
              ParentPicks(w.db, t.parent, parentIds), ChildLists(w.db, t.children, ids),
              OwnedLists(RowsIn(w.db, UsageLogs), t.usageLogs, ids),
              OwnedLists(RowsIn(w.db, AccountGroups), t.accountGroups, ids));
    == { LoadLayerIs(w.db, t, es); }
      LoadLayer(w.db, t, es);
    }
  }

  lemma {:induction false} LoadFollows(w: World, t: QueryTree, es: seq<Entity>)
    ensures Nodes(w.db, t).None? ==> w.load(t).None?
    ensures Nodes(w.db, t) == Some(es) ==> w.load(t) == if es == [] then Some([]) else LoadedBy(t, es, w.f)
  {
    LayerInIsLoaded(w, t, es);
    assert w.load(t) == Batched(w.db, t);
  }

  /** The edge queries that follow parent; ready: they may be run for these nodes. */
  datatype Rest = Rest(children: Option<QueryTree>, logs: Option<LeafTree>, entries: Option<LeafTree>, ready: bool)

  ghost function RestOf(p: Parts, drv: Driver, nodes: seq<Account>): Rest
    reads p.children, ReprOf(p.children), p.usageLogs, p.accountGroups
    reads nodes`children, nodes`usageLogs, nodes`accountGroups
  {
    Rest(TreeOf(p.children), LeafTreeOf(p.usageLogs), LeafTreeOf(p.accountGroups),
         && (p.children != null ==> p.children.Valid()) && Apart(p.children, drv, nodes)
         && (p.usageLogs != null ==> p.usageLogs != p.accountGroups)
         && LeafSet(p.usageLogs) + LeafSet(p.accountGroups) !! ReprOf(p.children)
         && forall n :: n in nodes ==> n.children == [] && n.usageLogs == [] && n.accountGroups == [])
  }

  ghost function RestBy(t: QueryTree): Rest {
    Rest(t.children, t.usageLogs, t.accountGroups, true)
  }

  /** The objects a frame argument is about. */
  datatype Scene = Scene(drv: Driver, p: Parts, nodes: seq<Account>, graph: set<Account>)

  twostate lemma RestStands(s: Scene)
    requires s.p.children != null ==> unchanged(s.p.children) && unchanged(s.p.children.Repr)
    requires unchanged(LeafSet(s.p.usageLogs) + LeafSet(s.p.accountGroups))
    requires forall n :: n in s.nodes ==>
      n.children == old(n.children) && n.usageLogs == old(n.usageLogs) && n.accountGroups == old(n.accountGroups)
    ensures RestOf(s.p, s.drv, s.nodes) == old(RestOf(s.p, s.drv, s.nodes))
  {
  }

  /** Filling the other edges leaves these as they are. */
  twostate lemma UpwardStands(s: Scene)
    requires unchanged(s.graph)
    requires forall n :: n in s.nodes ==>
      n.groups == old(n.groups) && n.proxy == old(n.proxy) && n.parent == old(n.parent)
    ensures UpwardOf(s.nodes, s.graph) == old(UpwardOf(s.nodes, s.graph))
  {
  }

  /** The edges that follow parent, leaving the edges up to parent as they are. */
  method LoadRest(drv: Driver, p: Parts, nodes: seq<Account>, ghost es: seq<Entity>, ghost w: World, ghost t: QueryTree,
                  ghost above: set<Account>)
      returns (r: Result<(), LoadError>, ghost under: set<Account>)
    requires !drv.failed && w.db == drv.db && DistinctNodes(nodes) && Holding(nodes, es)
    requires RestOf(p, drv, nodes) == RestBy(t)
    requires UpwardOf(nodes, above) == UpwardBy(t, es, w.f) && Untouched(above, nodes, p.children)
    modifies drv`queries, drv`failed, Just(p.usageLogs)`tree, Just(p.accountGroups)`tree, ReprOf(p.children)
    modifies NodeSet(nodes)`children, NodeSet(nodes)`usageLogs, NodeSet(nodes)`accountGroups
    ensures drv.failed <==> r == Err(DriverError)
    ensures drv.queries <= old(drv.queries) + SizeOf(t.children) + Count(t.usageLogs) + Count(t.accountGroups)
    ensures fresh(under) && UpwardOf(nodes, above) == UpwardBy(t, es, w.f)
    ensures r.Ok? ==> DownwardOf(nodes, under) == DownwardBy(t, es, w.f)
    ensures r.Err? && r.error != DriverError ==> SomeFails(t, es, w.f)
    decreases HeightOf(t.children), 10
  {
    r, under := LoadDownward(drv, p.children, p.usageLogs, p.accountGroups, nodes, es, w, t);
    UpwardStands(Scene(drv, p, nodes, above));
  }

  ghost predicate Untouched(above: set<Account>, nodes: seq<Account>, q: AccountQuery?)
    reads q
  {
    forall a :: a in above ==> a !in nodes && a !in ReprOf(q)
  }

  /** What the edges up to parent touch, the later edge queries do not consist of. */
  ghost predicate EdgesApart(p: Parts, drv: Driver, nodes: seq<Account>)
    reads p.parent, p.children
  {
    && (p.children != null ==> p.children in p.children.Repr) && Apart(p.children, drv, nodes)
    && (forall o :: o in ReprOf(p.children) ==>
         o !in ReprOf(p.parent) && o !in LeafSet(p.groups) && o !in LeafSet(p.proxy))
    && (forall o :: o in LeafSet(p.usageLogs) + LeafSet(p.accountGroups) ==>
         o !in ReprOf(p.parent) && o !in LeafSet(p.groups) && o !in LeafSet(p.proxy))
  }

  /** The edge queries up to parent; ready: they may be run for these nodes. */
  datatype First = First(groups: Option<LeafTree>, proxy: Option<LeafTree>, parent: Option<QueryTree>, ready: bool)

  ghost function FirstOf(p: Parts, drv: Driver, nodes: seq<Account>): First
    reads p.groups, p.proxy, p.parent, ReprOf(p.parent)
    reads nodes`groups, nodes`proxy, nodes`parent
  {
    First(LeafTreeOf(p.groups), LeafTreeOf(p.proxy), TreeOf(p.parent),
          && (p.parent != null ==> p.parent.Valid()) && Apart(p.parent, drv, nodes)
          && (p.groups != null ==> p.groups != p.proxy)
          && LeafSet(p.groups) + LeafSet(p.proxy) !! ReprOf(p.parent)
          && forall n :: n in nodes ==> n.groups == [] && n.proxy == null && n.parent == null)
  }

  ghost function FirstBy(t: QueryTree): First {
    First(t.groups, t.proxy, t.parent, true)
  }

  /** The edges up to parent. */
  method LoadFirstEdges(drv: Driver, p: Parts, nodes: seq<Account>, ghost es: seq<Entity>, ghost w: World,
                        ghost t: QueryTree)
      returns (r: Result<(), LoadError>, ghost above: set<Account>)
    requires !drv.failed && w.db == drv.db && DistinctNodes(nodes) && Holding(nodes, es)
    requires FirstOf(p, drv, nodes) == FirstBy(t) && EdgesApart(p, drv, nodes)
    modifies drv`queries, drv`failed, Just(p.groups)`tree, Just(p.proxy)`tree, ReprOf(p.parent)
    modifies NodeSet(nodes)`groups, NodeSet(nodes)`proxy, NodeSet(nodes)`parent
    ensures drv.failed <==> r == Err(DriverError)
    ensures drv.queries <= old(drv.queries) + Count(t.groups) + Count(t.proxy) + SizeOf(t.parent)
    ensures fresh(above) && (p.children != null ==> unchanged(p.children) && unchanged(p.children.Repr))
    ensures unchanged(LeafSet(p.usageLogs) + LeafSet(p.accountGroups))
    ensures r.Ok? ==> UpwardOf(nodes, above) == UpwardBy(t, es, w.f)
    ensures r.Err? && r.error != DriverError ==> SomeFails(t, es, w.f)
    decreases HeightOf(t.parent), 10
  {
    r, above := LoadUpward(drv, p.groups, p.proxy, p.parent, nodes, es, w, t);
  }

  /** The edges up to parent, leaving the edges that follow ready to be loaded. */
  method LoadFirst(drv: Driver, p: Parts, nodes: seq<Account>, ghost es: seq<Entity>, ghost w: World,
                   ghost t: QueryTree)
      returns (r: Result<(), LoadError>, ghost above: set<Account>)
    requires !drv.failed && w.db == drv.db && DistinctNodes(nodes) && Holding(nodes, es)
    requires FirstOf(p, drv, nodes) == FirstBy(t) && EdgesApart(p, drv, nodes) && RestOf(p, drv, nodes) == RestBy(t)
    modifies drv`queries, drv`failed, Just(p.groups)`tree, Just(p.proxy)`tree, ReprOf(p.parent)
    modifies NodeSet(nodes)`groups, NodeSet(nodes)`proxy, NodeSet(nodes)`parent
    ensures drv.failed <==> r == Err(DriverError)
    ensures drv.queries <= old(drv.queries) + Count(t.groups) + Count(t.proxy) + SizeOf(t.parent)
    ensures fresh(above) && RestOf(p, drv, nodes) == RestBy(t) && Untouched(above, nodes, p.children)
    ensures r.Ok? ==> UpwardOf(nodes, above) == UpwardBy(t, es, w.f)
    ensures r.Err? && r.error != DriverError ==> SomeFails(t, es, w.f)
    decreases HeightOf(t.parent), 11
  {
    r, above := LoadFirstEdges(drv, p, nodes, es, w, t);
    RestStands(Scene(drv, p, nodes, {}));
  }

  /** The query nodes below the root of the tree. */
  function EdgeQueries(t: QueryTree): nat {
    Count(t.groups) + Count(t.proxy) + SizeOf(t.parent) + SizeOf(t.children) + Count(t.usageLogs)
    + Count(t.accountGroups)
  }

  lemma {:induction false} HeightOfEdges(t: QueryTree)
    ensures HeightOf(t.parent) < Height(t) && HeightOf(t.children) < Height(t)
    ensures Size(t) == 1 + EdgeQueries(t)
  {
  }

  /** All requested edges of the nodes, in the order the query lists them. */
  method LoadEdges(drv: Driver, p: Parts, nodes: seq<Account>, ghost es: seq<Entity>, ghost w: World,
                   ghost t: QueryTree)
      returns (r: Result<(), LoadError>, ghost above: set<Account>, ghost under: set<Account>)
    requires !drv.failed && w.db == drv.db && DistinctNodes(nodes) && Holding(nodes, es)
    requires FirstOf(p, drv, nodes) == FirstBy(t) && EdgesApart(p, drv, nodes) && RestOf(p, drv, nodes) == RestBy(t)
    modifies drv`queries, drv`failed, Just(p.groups)`tree, Just(p.proxy)`tree, ReprOf(p.parent)
    modifies ReprOf(p.children), Just(p.usageLogs)`tree, Just(p.accountGroups)`tree
    modifies NodeSet(nodes)`groups, NodeSet(nodes)`proxy, NodeSet(nodes)`parent
    modifies NodeSet(nodes)`children, NodeSet(nodes)`usageLogs, NodeSet(nodes)`accountGroups
    ensures drv.failed <==> r == Err(DriverError)
    ensures drv.queries <= old(drv.queries) + EdgeQueries(t)
    ensures fresh(above) && fresh(under)
    ensures r.Ok? ==>
      UpwardOf(nodes, above) == UpwardBy(t, es, w.f) && DownwardOf(nodes, under) == DownwardBy(t, es, w.f)
    ensures r.Err? && r.error != DriverError ==> SomeFails(t, es, w.f)
    decreases Height(t), 0
  {
    HeightOfEdges(t);
    under := {};
    r, above := LoadFirst(drv, p, nodes, es, w, t);
    if r.Ok? {
      r, under := LoadRest(drv, p, nodes, es, w, t, above);
    }
  }

  lemma {:induction false} LayerComplete(t: QueryTree, es: seq<Entity>, f: Meanings, up: Upward, down: Downward)
    requires up == UpwardBy(t, es, f) && down == DownwardBy(t, es, f)
    requires up.proxies.Some? && up.parents.Some? && down.children.Some? && down.logs.Some? && down.entries.Some?
    ensures LayerIn(t, es, f) == Some(Layer(up.groups, up.proxies.value, up.parents.value, down.children.value,
                                            down.logs.value, down.entries.value))
  {
  }

  lemma {:induction false} LayerMissing(t: QueryTree, es: seq<Entity>, f: Meanings)
    ensures SomeFails(t, es, f) ==> LoadedBy(t, es, f).None?
  {
  }

  lemma {:induction false} LayerSizes(nodes: seq<Account>, above: set<Account>, under: set<Account>)
    ensures |GroupsOf(nodes)| == |ProxiesOf(nodes)| == |ParentsOf(nodes, above)| == |nodes|
    ensures |ChildrenOf(nodes, under)| == |LogsOf(nodes)| == |EntriesOf(nodes)| == |nodes|
  {
    GroupsAt(nodes);
    ProxiesAt(nodes);
    ParentsAt(nodes, above);
    ChildrenAt(nodes, under);
    LogsAt(nodes);
    EntriesAt(nodes);
  }

  /** Node i has the shape that the layer describes at i. */
  lemma {:induction false} ShapeAt(nodes: seq<Account>, above: set<Account>, under: set<Account>, i: nat)
    requires i < |nodes| && ParentsSupported(nodes, above) && ChildrenSupported(nodes, under)
    ensures |GroupsOf(nodes)| == |ProxiesOf(nodes)| == |ParentsOf(nodes, above)| == |nodes|
    ensures |ChildrenOf(nodes, under)| == |LogsOf(nodes)| == |EntriesOf(nodes)| == |nodes|
    ensures nodes[i].Shape()
            == AccountTree(nodes[i].entity, nodes[i].loadedTypes, GroupsOf(nodes)[i], ProxiesOf(nodes)[i],
                           ParentsOf(nodes, above)[i], ChildrenOf(nodes, under)[i], LogsOf(nodes)[i],
                           EntriesOf(nodes)[i])
  {
    GroupsAt(nodes);
    ProxiesAt(nodes);
    ParentsAt(nodes, above);
    ChildrenAt(nodes, under);
    LogsAt(nodes);
    EntriesAt(nodes);
    assert nodes[i] in nodes;
  }

  /** A node on top of complete neighbours, once its own records are written. */
  lemma {:induction false} SealedOne(n: Account, above: set<Account>, under: set<Account>)
    requires n.Repr == {n} + above + under && n !in above && n !in under && n.tree == n.Shape()
    requires n.parent != null ==> n.parent in above && n.parent.Repr <= above && n.parent.Valid()
    requires Complete(n.children, under)
    ensures n.Valid()
  {
  }

  /** Records what the nodes have become: each is now a complete graph of its own. */
  ghost method Seal(nodes: seq<Account>, above: set<Account>, under: set<Account>)
    requires ParentsSupported(nodes, above) && ChildrenSupported(nodes, under)
    requires forall n :: n in nodes ==> n !in above && n !in under
    modifies NodeSet(nodes)`tree, NodeSet(nodes)`Repr
    ensures forall n :: n in nodes ==> n.tree == old(n.Shape())
    ensures Complete(nodes, NodeSet(nodes) + above + under)
  {
    forall n | n in nodes {
      n.Repr := {n} + above + under;
    }
    assert forall n :: n in nodes ==> n.Shape() == old(n.Shape());
    forall n | n in nodes {
      n.tree := n.Shape();
    }
    assert ParentsSupported(nodes, above) && ChildrenSupported(nodes, under);
    forall n | n in nodes ensures n.Valid() {
      assert n.Shape() == n.tree;
      SealedOne(n, above, under);
    }
  }

  method PrepareQuery(fields: seq<Column>) returns (err: Option<LoadError>)
    ensures err == if ValidFields(fields) then None else Some(InvalidField)
  {
    for i := 0 to |fields|
      invariant ValidFields(fields[..i])
    {
      if !ValidColumn(fields[i]) {
        assert fields[i] in fields;
        return Some(InvalidField);
      }
    }
    assert fields[..|fields|] == fields;
    err := None;
  }

  /** The nodes have all their edges, and stand apart from the graphs those lead to. */
  ghost predicate LayerReady(nodes: seq<Account>, above: set<Account>, under: set<Account>, t: QueryTree,
                             es: seq<Entity>,
                             f: Meanings)
    reads nodes, above, under
  {
    && Holding(nodes, es) && (forall n :: n in nodes ==> n.loadedTypes == t.Loaded() && n !in above && n !in under)
    && UpwardOf(nodes, above) == UpwardBy(t, es, f) && DownwardOf(nodes, under) == DownwardBy(t, es, f)
  }

  /** Seals the nodes of a completely loaded layer and says what they are. */
  ghost method SealLayer(nodes: seq<Account>, above: set<Account>, under: set<Account>, t: QueryTree, es: seq<Entity>,
                         f: Meanings)
    requires LayerReady(nodes, above, under, t, es, f)
    modifies NodeSet(nodes)`tree, NodeSet(nodes)`Repr
    ensures LoadedBy(t, es, f) == Some(Trees(nodes))
    ensures Complete(nodes, NodeSet(nodes) + above + under)
  {
    LayerComplete(t, es, f, UpwardOf(nodes, above), DownwardOf(nodes, under));
    var layer := LayerIn(t, es, f).value;
    LayerSizes(nodes, above, under);
    forall i | 0 <= i < |nodes|
      ensures nodes[i].Shape() == Assemble(t, es, layer)[i]
    {
      ShapeAt(nodes, above, under, i);
    }
    Seal(nodes, above, under);
    assert forall i :: 0 <= i < |nodes| ==> nodes[i] in nodes;
    assert Trees(nodes) == Assemble(t, es, layer);
  }

  /** Loads the edges of the nodes, up to sealing them. */
  method FillEdges(drv: Driver, p: Parts, nodes: seq<Account>, ghost es: seq<Entity>, ghost w: World,
                   ghost t: QueryTree)
      returns (r: Result<(), LoadError>, ghost above: set<Account>, ghost under: set<Account>)
    requires !drv.failed && w.db == drv.db && DistinctNodes(nodes) && Holding(nodes, es)
    requires FirstOf(p, drv, nodes) == FirstBy(t) && EdgesApart(p, drv, nodes) && RestOf(p, drv, nodes) == RestBy(t)
    requires forall n :: n in nodes ==>
      n.loadedTypes == t.Loaded() && n !in ReprOf(p.parent) && n !in ReprOf(p.children)
    modifies drv`queries, drv`failed, Just(p.groups)`tree, Just(p.proxy)`tree, ReprOf(p.parent)
    modifies ReprOf(p.children), Just(p.usageLogs)`tree, Just(p.accountGroups)`tree
    modifies NodeSet(nodes)`groups, NodeSet(nodes)`proxy, NodeSet(nodes)`parent
    modifies NodeSet(nodes)`children, NodeSet(nodes)`usageLogs, NodeSet(nodes)`accountGroups
    ensures drv.failed <==> r == Err(DriverError)
    ensures drv.queries <= old(drv.queries) + EdgeQueries(t)
    ensures fresh(above) && fresh(under) && (r.Ok? ==> LayerReady(nodes, above, under, t, es, w.f))
    ensures r.Err? && r.error != DriverError ==> LoadedBy(t, es, w.f).None?
    decreases Height(t), 1
  {
    r, above, under := LoadEdges(drv, p, nodes, es, w, t);
    LayerMissing(t, es, w.f);
  }

  /** Loads the edges of the nodes and seals them. */
  method FillNodes(drv: Driver, p: Parts, nodes: seq<Account>, ghost es: seq<Entity>, ghost w: World,
                   ghost t: QueryTree)
      returns (r: Result<(), LoadError>, ghost below: set<Account>)
    requires !drv.failed && w.db == drv.db && DistinctNodes(nodes) && Holding(nodes, es)
    requires FirstOf(p, drv, nodes) == FirstBy(t) && EdgesApart(p, drv, nodes) && RestOf(p, drv, nodes) == RestBy(t)
    requires forall n :: n in nodes ==>
      n.loadedTypes == t.Loaded() && n !in ReprOf(p.parent) && n !in ReprOf(p.children)
    modifies drv`queries, drv`failed, Just(p.groups)`tree, Just(p.proxy)`tree, ReprOf(p.parent)
    modifies ReprOf(p.children), Just(p.usageLogs)`tree, Just(p.accountGroups)`tree
    modifies NodeSet(nodes)`groups, NodeSet(nodes)`proxy, NodeSet(nodes)`parent
    modifies NodeSet(nodes)`children, NodeSet(nodes)`usageLogs, NodeSet(nodes)`accountGroups
    modifies NodeSet(nodes)`tree, NodeSet(nodes)`Repr
    ensures drv.failed <==> r == Err(DriverError)
    ensures drv.queries <= old(drv.queries) + EdgeQueries(t)
    ensures fresh(below - NodeSet(nodes))
    ensures r.Ok? ==> LoadedBy(t, es, w.f) == Some(Trees(nodes)) && Complete(nodes, below)
    ensures r.Err? && r.error != DriverError ==> LoadedBy(t, es, w.f).None?
    decreases Height(t), 2
  {
    ghost var above, under;
    r, above, under := FillEdges(drv, p, nodes, es, w, t);
    below := NodeSet(nodes) + above + under;
    if r.Ok? {
      SealLayer(nodes, above, under, t, es, w.f);
    }
  }

  lemma {:induction false} NoNodes(db: Database, t: QueryTree)
    requires !ValidFields(t.ctx.fields)
    ensures Nodes(db, t).None?
  {
  }

  /** The query's nodes, without their edges, if its fields are columns. */
  method FirstNodes(drv: Driver, q: AccountQuery, ghost w: World)
      returns (r: Result<seq<Account>, LoadError>, ghost es: seq<Entity>)
    requires !drv.failed && w.db == drv.db && q.tree == q.Current()
    modifies drv`queries, drv`failed
    ensures drv.failed <==> r == Err(DriverError)
    ensures drv.queries <= old(drv.queries) + 1
    ensures r.Ok? ==> Nodes(w.db, q.tree) == Some(es) && Holding(r.value, es) && DistinctNodes(r.value)
    ensures r.Ok? ==> (forall n :: n in r.value ==> fresh(n)) && AllBare(r.value, q.tree.Loaded())
    ensures r.Err? && r.error != DriverError ==> Nodes(w.db, q.tree).None?
  {
    var err := PrepareQuery(q.ctx.fields);
    if err.Some? {
      NoNodes(w.db, q.tree);
      return Err(err.value), [];
    }
    r, es := FetchNodes(drv, q);
  }

  /** The query's nodes, and what is still to be loaded for them. */
  method Begin(drv: Driver, q: AccountQuery, ghost w: World)
      returns (r: Result<seq<Account>, LoadError>, ghost es: seq<Entity>)
    requires !drv.failed && w.db == drv.db && q.tree == q.Current()
    modifies drv`queries, drv`failed
    ensures drv.failed <==> r == Err(DriverError)
    ensures drv.queries <= old(drv.queries) + 1
    ensures r.Ok? ==> Holding(r.value, es) && DistinctNodes(r.value)
    ensures r.Ok? ==> (forall n :: n in r.value ==> fresh(n)) && AllBare(r.value, q.tree.Loaded())
    ensures r.Ok? ==> w.load(q.tree) == if es == [] then Some([]) else LoadedBy(q.tree, es, w.f)
    ensures r.Err? && r.error != DriverError ==> w.load(q.tree).None?
  {
    r, es := FirstNodes(drv, q, w);
    LoadFollows(w, q.tree, es);
  }

  /** What the query builder refers to. */
  function PartsOf(q: AccountQuery): Parts
    reads q
  {
    Parts(q.ctx, q.withGroups, q.withProxy, q.withParent, q.withChildren, q.withUsageLogs, q.withAccountGroups)
  }

  lemma {:induction false} EdgesReady(q: AccountQuery, drv: Driver, nodes: seq<Account>)
    requires q.Valid() && drv !in q.Repr && AllBare(nodes, q.tree.Loaded()) && forall n :: n in nodes ==> n !in q.Repr
    ensures var p := PartsOf(q);
            && FirstOf(p, drv, nodes) == FirstBy(q.tree) && EdgesApart(p, drv, nodes)
            && RestOf(p, drv, nodes) == RestBy(q.tree)
  {
    LaterApart(q, drv, nodes);
  }

  lemma {:induction false} LaterApart(q: AccountQuery, drv: Driver, nodes: seq<Account>)
    requires q.Valid() && drv !in q.Repr && forall n :: n in nodes ==> n !in q.Repr
    ensures EdgesApart(PartsOf(q), drv, nodes)
  {
    if q.withChildren != null {
      assert q.withChildren.Valid();
      assert q.withChildren in q.withChildren.Repr;
    }
  }

  /** The edges of a query's nodes. */
  method AllEdges(drv: Driver, q: AccountQuery, nodes: seq<Account>, ghost es: seq<Entity>, ghost w: World)
      returns (r: Result<(), LoadError>, ghost below: set<Account>)
    requires !drv.failed && w.db == drv.db && DistinctNodes(nodes) && Holding(nodes, es)
    requires q.Valid() && drv !in q.Repr && AllBare(nodes, q.tree.Loaded())
    requires forall n :: n in nodes ==> n !in q.Repr
    modifies drv`queries, drv`failed, q.Repr, NodeSet(nodes)
    ensures drv.failed <==> r == Err(DriverError)
    ensures drv.queries < old(drv.queries) + Size(old(q.tree))
    ensures fresh(below - NodeSet(nodes))
    ensures r.Ok? ==> LoadedBy(old(q.tree), es, w.f) == Some(Trees(nodes)) && Complete(nodes, below)
    ensures r.Err? && r.error != DriverError ==> LoadedBy(old(q.tree), es, w.f).None?
    decreases Height(q.tree), 3
  {
    EdgesReady(q, drv, nodes);
    HeightOfEdges(q.tree);
    r, below := FillNodes(drv, PartsOf(q), nodes, es, w, q.tree);
  }

  /** Loads everything the query asks for: the nodes, and their edges to the depth of the query. */
  method All(drv: Driver, q: AccountQuery, ghost w: World)
      returns (r: Result<seq<Account>, LoadError>, ghost below: set<Account>)
    requires !drv.failed && w.db == drv.db
    requires q.Valid() && drv !in q.Repr
    modifies drv`queries, drv`failed, q.Repr
    ensures drv.failed <==> r == Err(DriverError)
    ensures drv.queries <= old(drv.queries) + Size(old(q.tree))
    ensures fresh(below)
    ensures r.Ok? ==> w.load(old(q.tree)) == Some(Trees(r.value)) && Complete(r.value, below)
    ensures r.Err? && r.error != DriverError ==> w.load(old(q.tree)).None?
    decreases Height(q.tree), 4
  {
    ghost var t := q.tree;
    below := {};
    ghost var es;
    r, es := Begin(drv, q, w);
    if r.Err? {
      return;
    }
    if |r.value| == 0 {
      return;
    }
    var filled;
    filled, below := AllEdges(drv, q, r.value, es, w);
    if filled.Err? {
      r, below := Err(filled.error), {};
    }
  }

  /** The eager load of a query against an unchanging database: the batched meaning of the query, which for a sound
      database and unlimited edge queries is the naive nested-loop join; at most one backend query per query node. */
  method Load(drv: Driver, q: AccountQuery) returns (r: Result<seq<Account>, LoadError>, ghost below: set<Account>)
    requires !drv.failed && q.Valid() && drv !in q.Repr
    modifies drv`queries, drv`failed, q.Repr
    ensures drv.queries <= old(drv.queries) + Size(old(q.tree))
    ensures drv.failed <==> r == Err(DriverError)
    ensures fresh(below)
    ensures r.Ok? ==> Batched(drv.db, old(q.tree)) == Some(Trees(r.value)) && Complete(r.value, below)
    ensures r.Err? && r.error != DriverError ==> Batched(drv.db, old(q.tree)).None?
    ensures Sound(drv.db) && EdgesUnlimited(old(q.tree)) && r.Ok? ==> Naive(drv.db, old(q.tree)) == Some(Trees(r.value))
  {
    ghost var t, w := q.tree, WorldOf(drv.db);
    assert w.load(t) == Batched(drv.db, t);
    r, below := All(drv, q, w);
    if Sound(drv.db) && EdgesUnlimited(t) { BatchedIsNaive(drv.db, t); }
  }
}

/** The objects a load hands out, field by field, said of the tables. */
module EagerObjects {
  import opened Collections
  import opened AccountEntity
  import opened EagerSpec
  import opened EagerJoin
  import opened EagerRefinement
  import opened EagerProperties
  import opened AccountGraph
  import opened Loaders
  import opened EagerLoad

  /** The fields that hold lists: the rows of the account with this id, nothing where the edge was not asked for. */
  ghost predicate ShowsLists(db: Database, q: QueryTree, id: int, n: Account)
    reads n, n.children
  {
    && RowsOf(n.groups) == (if q.groups.None? then [] else GroupsLinked(db, q.groups.value, id))
    && RowsOf(n.usageLogs) == (if q.usageLogs.None? then [] else RowsOwned(db.usageLogs, q.usageLogs.value, id))
    && RowsOf(n.accountGroups) == (if q.accountGroups.None? then [] else RowsOwned(db.links, q.accountGroups.value, id))
    && (if q.children.None? then n.children == [] else ChildrenLoaded(db, q.children.value, id, Trees(n.children)))
  }

  /** proxy is set exactly if it was asked for, the row has the key and the edge query admits its target. */
  ghost predicate ShowsProxy(db: Database, q: QueryTree, row: Row, n: Account)
    reads n
  {
    && (n.proxy != null <==>
         q.proxy.Some? && IntOf(row, ProxyID).Some?
         && Target(db.proxies, q.proxy.value.preds, IntOf(row, ProxyID).value))
    && (n.proxy != null ==> IntOrZero(n.proxy.row, ID) == IntOf(row, ProxyID).value)
  }

  ghost predicate ShowsParent(db: Database, q: QueryTree, row: Row, n: Account)
    reads n, n.parent
  {
    && (n.parent != null <==>
         q.parent.Some? && IntOf(row, ParentAccountID).Some?
         && Target(db.accounts, q.parent.value.preds, IntOf(row, ParentAccountID).value))
    && (n.parent != null ==> n.parent.entity.Id() == IntOf(row, ParentAccountID).value)
  }

  /** The account object of a row. */
  ghost predicate Shows(db: Database, q: QueryTree, row: Row, n: Account)
    reads n, n.parent, n.children
  {
    && n.entity.Id() == IntOrZero(row, ID)
    && n.loadedTypes == [q.groups.Some?, q.proxy.Some?, q.parent.Some?, q.children.Some?, q.usageLogs.Some?,
                         q.accountGroups.Some?]
    && ShowsLists(db, q, IntOrZero(row, ID), n) && ShowsProxy(db, q, row, n) && ShowsParent(db, q, row, n)
  }

  lemma {:induction false} TreeFields(n: Account)
    requires n.Valid()
    ensures n.tree.entity == n.entity && n.tree.loaded == n.loadedTypes
    ensures n.tree.groups == RowsOf(n.groups) && n.tree.children == Trees(n.children)
    ensures n.tree.usageLogs == RowsOf(n.usageLogs) && n.tree.accountGroups == RowsOf(n.accountGroups)
    ensures n.tree.proxy == (if n.proxy == null then None else Some(n.proxy.row))
    ensures n.tree.parent == (if n.parent == null then None else Some(n.parent.tree))
    ensures n.parent != null ==> n.parent.Valid()
  {
  }

  lemma {:induction false} ListsShown(db: Database, q: QueryTree, row: Row, n: Account)
    requires Sound(db) && EdgesUnlimited(q) && n.Valid() && NodeOf(db, q)(row) == Some(n.tree)
    ensures ShowsLists(db, q, IntOrZero(row, ID), n)
  {
    TreeFields(n);
    ListFacts(db, q, row, n.tree);
    NodeLeaves(db, q, IntOrZero(row, ID));
    if q.children.Some? { ChildrenLoadedAre(db, q.children.value, IntOrZero(row, ID)); }
  }

  lemma {:induction false} ProxyShown(db: Database, q: QueryTree, row: Row, n: Account)
    requires EdgesUnlimited(q) && n.Valid() && NodeOf(db, q)(row) == Some(n.tree)
    ensures ShowsProxy(db, q, row, n)
  {
    TreeFields(n);
    ProxyExact(db, q, row, n.tree);
  }

  lemma {:induction false} ParentShown(db: Database, q: QueryTree, row: Row, n: Account)
    requires Sound(db) && EdgesUnlimited(q) && n.Valid() && NodeOf(db, q)(row) == Some(n.tree)
    ensures ShowsParent(db, q, row, n)
  {
    TreeFields(n);
    ParentExact(db, q, row, n.tree);
    if n.parent != null { TreeFields(n.parent); }
  }

  lemma {:induction false} ObjectShows(db: Database, q: QueryTree, ns: seq<Account>, i: nat)
    requires Sound(db) && EdgesUnlimited(q) && Batched(db, q) == Some(Trees(ns)) && i < |ns| && ns[i].Valid()
    ensures |ns| == |AccountRows(db, q)| && Shows(db, q, AccountRows(db, q)[i], ns[i])
  {
    BatchedIsNaive(db, q);
    ListsAfterLoad(db, q, Trees(ns), i);
    var row, n := AccountRows(db, q)[i], ns[i];
    assert NodeOf(db, q)(row) == Some(n.tree);
    TreeFields(n);
    NodeFacts(db, q, row, n.tree);
    ListsShown(db, q, row, n);
    ProxyShown(db, q, row, n);
    ParentShown(db, q, row, n);
  }

  /** The eager load seen through the objects alone: one account per row of the query, in its order, whose flags say
      what was asked for and whose edge fields hold the neighbours that the tables give this row. */
  method LoadObjects(drv: Driver, q: AccountQuery) returns (r: Result<seq<Account>, LoadError>)
    requires !drv.failed && q.Valid() && drv !in q.Repr
    modifies drv`queries, drv`failed, q.Repr
    ensures drv.failed <==> r == Err(DriverError)
    ensures Sound(drv.db) && EdgesUnlimited(old(q.tree)) && r.Ok? ==>
      |r.value| == |AccountRows(drv.db, old(q.tree))| &&
      forall i :: 0 <= i < |r.value| ==> Shows(drv.db, old(q.tree), AccountRows(drv.db, old(q.tree))[i], r.value[i])
  {
    ghost var t, below := q.tree, {};
    r, below := Load(drv, q);
    if r.Ok? && Sound(drv.db) && EdgesUnlimited(t) {
      BatchedIsNaive(drv.db, t);
      forall i | 0 <= i < |r.value|
        ensures |r.value| == |AccountRows(drv.db, t)| && Shows(drv.db, t, AccountRows(drv.db, t)[i], r.value[i])
      {
        assert r.value[i] in r.value;
        ObjectShows(drv.db, t, r.value, i);
      }
    }
  }
}

/** Loading alters the edge queries of the builder it is given; a copy keeps the query for another load. */
module EagerReuse {
  import opened Collections
  import opened AccountEntity
  import opened EagerSpec
  import opened EagerRefinement
  import opened AccountGraph
  import opened Loaders
  import opened EagerLoad

  // ---------------------------------------------------------------- locks do not change what is loaded

  lemma {:induction false} UnlockedLeaves(db: Database, q: QueryTree, ids: seq<int>, fks: seq<Option<int>>)
    ensures GroupLists(db, UnlockedLeaf(q.groups), ids) == GroupLists(db, q.groups, ids)
    ensures ProxyPicks(db, UnlockedLeaf(q.proxy), fks) == ProxyPicks(db, q.proxy, fks)
    ensures OwnedLists(db.usageLogs, UnlockedLeaf(q.usageLogs), ids) == OwnedLists(db.usageLogs, q.usageLogs, ids)
    ensures OwnedLists(db.links, UnlockedLeaf(q.accountGroups), ids) == OwnedLists(db.links, q.accountGroups, ids)
  {
  }

  lemma {:induction false} UnlockedParents(db: Database, q: QueryTree, fks: seq<Option<int>>)
    ensures ParentPicks(db, UnlockedTree(q.parent), fks) == ParentPicks(db, q.parent, fks)
    decreases Height(q), 0
  {
    if q.parent.Some? && FirstSeen(fks) != [] {
      var p := q.parent.value.Where(In(ID, FirstSeen(fks)));
      EagerRefinement.HeightOfEdges(q);
      UnlockedSame(db, p);
      assert Unlocked(p) == Unlocked(q.parent.value).Where(In(ID, FirstSeen(fks)));
    }
  }

  lemma {:induction false} UnlockedChildren(db: Database, q: QueryTree, ids: seq<int>)
    ensures ChildLists(db, UnlockedTree(q.children), ids) == ChildLists(db, q.children, ids)
    decreases Height(q), 0
  {
    if q.children.Some? {
      var c := ChildQuery(q.children.value, ids);
      EagerRefinement.HeightOfEdges(q);
      UnlockedSame(db, c);
      assert Unlocked(c) == ChildQuery(Unlocked(q.children.value), ids);
    }
  }

  lemma {:induction false} UnlockedLayer(db: Database, q: QueryTree, es: seq<Entity>)
    ensures LoadLayer(db, Unlocked(q), es) == LoadLayer(db, q, es)
    decreases Height(q), 1
  {
    LoadLayerIs(db, q, es);
    LoadLayerIs(db, Unlocked(q), es);
    TablesOf(db);
    UnlockedParents(db, q, KeysOf(es, ParentAccountID));
    UnlockedChildren(db, q, IdsOf(es));
    UnlockedLeaves(db, q, IdsOf(es), KeysOf(es, ProxyID));
  }

  /** The row-lock modifiers play no part in what a query loads. */
  lemma {:induction false} UnlockedSame(db: Database, q: QueryTree)
    ensures Batched(db, Unlocked(q)) == Batched(db, q)
    decreases Height(q), 2
  {
    assert Nodes(db, Unlocked(q)) == Nodes(db, q);
    if Nodes(db, q).Some? {
      UnlockedLayer(db, q, Nodes(db, q).value);
      assert Unlocked(q).Loaded() == q.Loaded();
    }
  }

  // ---------------------------------------------------------------- what a copy keeps

  ghost predicate LeafCopied(c: Option<LeafTree>, q: Option<LeafTree>) {
    c.Some? == q.Some? &&
    (q.Some? ==> c.value.ctx == q.value.ctx && c.value.order == q.value.order && c.value.inters == q.value.inters
                 && c.value.preds == q.value.preds && c.value.modifiers == [])
  }

  /** At every query node the same context, order, interceptors and predicates, and no row lock. */
  ghost predicate Copied(c: QueryTree, q: QueryTree)
    decreases q
  {
    && c.ctx == q.ctx && c.order == q.order && c.inters == q.inters && c.preds == q.preds && c.modifiers == []
    && LeafCopied(c.groups, q.groups) && LeafCopied(c.proxy, q.proxy)
    && LeafCopied(c.usageLogs, q.usageLogs) && LeafCopied(c.accountGroups, q.accountGroups)
    && c.parent.Some? == q.parent.Some? && (q.parent.Some? ==> Copied(c.parent.value, q.parent.value))
    && c.children.Some? == q.children.Some? && (q.children.Some? ==> Copied(c.children.value, q.children.value))
  }

  lemma {:induction false} UnlockedCopies(q: QueryTree)
    ensures Copied(Unlocked(q), q)
    decreases q
  {
    if q.parent.Some? { UnlockedCopies(q.parent.value); }
    if q.children.Some? { UnlockedCopies(q.children.value); }
  }

  // ---------------------------------------------------------------- copies

  /** Loads a copy of the query. The builder is not touched at all, so it can be loaded again, with the same meaning. */
  method LoadCopy(drv: Driver, q: AccountQuery) returns (r: Result<seq<Account>, LoadError>, ghost below: set<Account>)
    requires !drv.failed && q.Valid() && drv !in q.Repr
    modifies drv`queries, drv`failed
    ensures q.Valid() && q.tree == old(q.tree)
    ensures drv.failed <==> r == Err(DriverError)
    ensures fresh(below)
    ensures r.Ok? ==> Batched(drv.db, q.tree) == Some(Trees(r.value)) && Complete(r.value, below)
    ensures r.Err? && r.error != DriverError ==> Batched(drv.db, q.tree).None?
  {
    var c := AccountQuery.Clone(q);
    UnlockedSame(drv.db, q.tree);
    r, below := Load(drv, c);
  }

  /** Loads the query itself; a copy taken before still asks for what the query asked for. */
  method LoadAfterCopy(drv: Driver, q: AccountQuery)
      returns (r: Result<seq<Account>, LoadError>, ghost below: set<Account>, c: AccountQuery)
    requires !drv.failed && q.Valid() && drv !in q.Repr
    modifies drv`queries, drv`failed, q.Repr
    ensures drv.failed <==> r == Err(DriverError)
    ensures r.Ok? ==> Batched(drv.db, old(q.tree)) == Some(Trees(r.value)) && Complete(r.value, below)
    ensures r.Err? && r.error != DriverError ==> Batched(drv.db, old(q.tree)).None?
    ensures fresh(c.Repr) && c.Valid() && c.tree == Unlocked(old(q.tree)) && Copied(c.tree, old(q.tree))
    ensures Batched(drv.db, c.tree) == Batched(drv.db, old(q.tree))
  {
    c := AccountQuery.Clone(q);
    UnlockedSame(drv.db, q.tree);
    UnlockedCopies(q.tree);
    r, below := Load(drv, q);
  }
}

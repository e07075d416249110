/** Column selections anywhere in a query never change which entities a load connects. */
module EagerProjection {
  import opened Collections
  import opened AccountEntity
  import opened EagerSpec
  import opened EagerJoin
  import opened EagerRefinement

  // ---------------------------------------------------------------- queries that differ in their selections only

  predicate SameRows(a: Context, b: Context) {
    a.limit == b.limit && a.offset == b.offset
  }

  ghost predicate LeafSame(q: Option<LeafTree>, p: Option<LeafTree>) {
    q.Some? == p.Some? &&
    (q.Some? ==> SameRows(q.value.ctx, p.value.ctx) && q.value.order == p.value.order && q.value.preds == p.value.preds)
  }

  /** At every query node, to any depth, the two ask for the same rows and the same edges. */
  ghost predicate SameButSelection(q: QueryTree, p: QueryTree)
    decreases q
  {
    && SameRows(q.ctx, p.ctx) && q.order == p.order && q.preds == p.preds
    && LeafSame(q.groups, p.groups) && LeafSame(q.proxy, p.proxy)
    && LeafSame(q.usageLogs, p.usageLogs) && LeafSame(q.accountGroups, p.accountGroups)
    && q.parent.Some? == p.parent.Some? && (q.parent.Some? ==> SameButSelection(q.parent.value, p.parent.value))
    && q.children.Some? == p.children.Some?
    && (q.children.Some? ==> SameButSelection(q.children.value, p.children.value))
  }

  // ---------------------------------------------------------------- graphs that differ in the shown columns only

  /** The same row, shown in part: alike wherever both show a column, and with the same id. */
  predicate RowAlike(a: Row, b: Row) {
    IntOf(a, ID) == IntOf(b, ID) && forall c :: c in a && c in b ==> a[c] == b[c]
  }

  predicate RowsAlike(s: seq<Row>, t: seq<Row>) {
    |s| == |t| && forall i :: 0 <= i < |s| ==> RowAlike(s[i], t[i])
  }

  predicate OptionAlike(a: Option<Row>, b: Option<Row>) {
    a.Some? == b.Some? && (a.Some? ==> RowAlike(a.value, b.value))
  }

  /** The same graph: node by node the same account, with the same edges to like neighbours in the same order. */
  predicate Alike(t: AccountTree, u: AccountTree)
    decreases t
  {
    && t.entity.Id() == u.entity.Id() && t.loaded == u.loaded
    && RowsAlike(t.groups, u.groups) && OptionAlike(t.proxy, u.proxy)
    && RowsAlike(t.usageLogs, u.usageLogs) && RowsAlike(t.accountGroups, u.accountGroups)
    && t.parent.Some? == u.parent.Some? && (t.parent.Some? ==> Alike(t.parent.value, u.parent.value))
    && |t.children| == |u.children| && forall i :: 0 <= i < |t.children| ==> Alike(t.children[i], u.children[i])
  }

  predicate TreesAlike(ts: seq<AccountTree>, us: seq<AccountTree>) {
    |ts| == |us| && forall i :: 0 <= i < |ts| ==> Alike(ts[i], us[i])
  }

  // ---------------------------------------------------------------- leaves

  lemma {:induction false} ShownAlike(f: seq<Column>, g: seq<Column>, row: Row)
    ensures RowAlike(Project(f, row), Project(g, row))
  {
  }

  lemma {:induction false} MapAlike(f: seq<Column>, g: seq<Column>, rows: seq<Row>)
    ensures RowsAlike(Map(Shown(f), rows), Map(Shown(g), rows))
  {
    forall i | 0 <= i < |rows| ensures RowAlike(Map(Shown(f), rows)[i], Map(Shown(g), rows)[i]) {
      ShownAlike(f, g, rows[i]);
    }
  }

  lemma {:induction false} WindowSame<T>(a: Context, b: Context, s: seq<T>)
    requires SameRows(a, b)
    ensures Window(a, s) == Window(b, s)
  {
  }

  lemma {:induction false} LeafAlike(table: seq<Row>, q: LeafTree, p: LeafTree)
    requires LeafSame(Some(q), Some(p))
    ensures RowsAlike(LeafRows(table, q), LeafRows(table, p))
  {
    var rows := Select(table, q.preds, q.order);
    WindowSame(q.ctx, p.ctx, rows);
    MapAlike(q.ctx.fields, p.ctx.fields, Window(q.ctx, rows));
  }

  lemma {:induction false} LeavesAlike(db: Database, q: QueryTree, p: QueryTree, id: int, fk: Option<int>)
    requires LeafSame(q.groups, p.groups) && LeafSame(q.proxy, p.proxy)
    requires LeafSame(q.usageLogs, p.usageLogs) && LeafSame(q.accountGroups, p.accountGroups)
    ensures RowsAlike(NaiveGroups(db, q.groups, id), NaiveGroups(db, p.groups, id))
    ensures OptionAlike(NaiveProxy(db, q.proxy, fk), NaiveProxy(db, p.proxy, fk))
    ensures RowsAlike(NaiveOwned(db.usageLogs, q.usageLogs, id), NaiveOwned(db.usageLogs, p.usageLogs, id))
    ensures RowsAlike(NaiveOwned(db.links, q.accountGroups, id), NaiveOwned(db.links, p.accountGroups, id))
  {
    GroupsAlike(db, q.groups, p.groups, id);
    ProxyAlike(db, q.proxy, p.proxy, fk);
    OwnedAlike(db.usageLogs, q.usageLogs, p.usageLogs, id);
    OwnedAlike(db.links, q.accountGroups, p.accountGroups, id);
  }

  lemma {:induction false} GroupsAlike(db: Database, q: Option<LeafTree>, p: Option<LeafTree>, id: int)
    requires LeafSame(q, p)
    ensures RowsAlike(NaiveGroups(db, q, id), NaiveGroups(db, p, id))
  {
    if q.Some? {
      MapAlike(q.value.ctx.fields, p.value.ctx.fields,
               Filter(LinkedTo(db.links, [id]), Select(db.groups, q.value.preds, q.value.order)));
    }
  }

  lemma {:induction false} ProxyAlike(db: Database, q: Option<LeafTree>, p: Option<LeafTree>, fk: Option<int>)
    requires LeafSame(q, p)
    ensures OptionAlike(NaiveProxy(db, q, fk), NaiveProxy(db, p, fk))
  {
    if q.Some? && fk.Some? {
      LeafAlike(db.proxies, q.value.Where(In(ID, [fk.value])), p.value.Where(In(ID, [fk.value])));
    }
  }

  lemma {:induction false} OwnedAlike(table: seq<Row>, q: Option<LeafTree>, p: Option<LeafTree>, id: int)
    requires LeafSame(q, p)
    ensures RowsAlike(NaiveOwned(table, q, id), NaiveOwned(table, p, id))
  {
    if q.Some? {
      LeafAlike(table, OwnedQuery(q.value, [id]), OwnedQuery(p.value, [id]));
    }
  }

  // ---------------------------------------------------------------- whole graphs

  lemma {:induction false} IdsAlike(db: Database, q: QueryTree, p: QueryTree, row: Row, t: AccountTree, u: AccountTree)
    requires SchemaRow(row) && ValidFields(q.ctx.fields) && ValidFields(p.ctx.fields)
    requires NaiveNode(db, q, row) == Some(t) && NaiveNode(db, p, row) == Some(u)
    ensures t.entity.Id() == u.entity.Id()
  {
    NodeScanned(db, q, row, t);
    NodeScanned(db, p, row, u);
    NodeKeyed(db, q, row, t.entity);
    NodeKeyed(db, p, row, u.entity);
  }

  lemma {:induction false} LastAlike(ts: seq<AccountTree>, us: seq<AccountTree>)
    requires TreesAlike(ts, us)
    ensures LastOf(ts).Some? == LastOf(us).Some?
    ensures LastOf(ts).Some? ==> Alike(LastOf(ts).value, LastOf(us).value)
  {
  }

  lemma {:induction false} ParentAlike(db: Database, q: QueryTree, p: QueryTree, fk: Option<int>)
    requires Sound(db) && SameButSelection(q, p) && q.parent.Some?
    requires NaiveParent(db, q.parent, fk).Some? && NaiveParent(db, p.parent, fk).Some?
    ensures var a, b := NaiveParent(db, q.parent, fk).value, NaiveParent(db, p.parent, fk).value;
            a.Some? == b.Some? && (a.Some? ==> Alike(a.value, b.value))
    decreases Height(q), 0
  {
    if fk.Some? {
      HeightOfEdges(q);
      var qp, pp := q.parent.value.Where(In(ID, [fk.value])), p.parent.value.Where(In(ID, [fk.value]));
      NaiveAlike(db, qp, pp);
      LastAlike(Naive(db, qp).value, Naive(db, pp).value);
    }
  }

  lemma {:induction false} ChildrenAlike(db: Database, q: QueryTree, p: QueryTree, id: int)
    requires Sound(db) && SameButSelection(q, p) && q.children.Some?
    requires NaiveChildren(db, q.children, id).Some? && NaiveChildren(db, p.children, id).Some?
    ensures TreesAlike(NaiveChildren(db, q.children, id).value, NaiveChildren(db, p.children, id).value)
    decreases Height(q), 0
  {
    HeightOfEdges(q);
    NaiveAlike(db, ChildQuery(q.children.value, [id]), ChildQuery(p.children.value, [id]));
  }

  lemma {:induction false} EdgesAlike(db: Database, q: QueryTree, p: QueryTree, row: Row)
    requires Sound(db) && SameButSelection(q, p)
    requires NaiveNode(db, q, row).Some? && NaiveNode(db, p, row).Some?
    ensures var t, u := NaiveNode(db, q, row).value, NaiveNode(db, p, row).value;
            && t.loaded == u.loaded && t.parent.Some? == u.parent.Some?
            && (t.parent.Some? ==> Alike(t.parent.value, u.parent.value)) && TreesAlike(t.children, u.children)
    decreases Height(q), 1
  {
    if q.parent.Some? {
      ParentAlike(db, q, p, IntOf(row, ParentAccountID));
    }
    if q.children.Some? {
      ChildrenAlike(db, q, p, IntOrZero(row, ID));
    }
  }

  lemma {:induction false} NodeLeavesAlike(db: Database, q: QueryTree, p: QueryTree, row: Row)
    requires SameButSelection(q, p)
    requires NaiveNode(db, q, row).Some? && NaiveNode(db, p, row).Some?
    ensures var t, u := NaiveNode(db, q, row).value, NaiveNode(db, p, row).value;
            && RowsAlike(t.groups, u.groups) && OptionAlike(t.proxy, u.proxy)
            && RowsAlike(t.usageLogs, u.usageLogs) && RowsAlike(t.accountGroups, u.accountGroups)
  {
    LeavesAlike(db, q, p, IntOrZero(row, ID), IntOf(row, ProxyID));
  }

  lemma {:induction false} NodeAlike(db: Database, q: QueryTree, p: QueryTree, row: Row, t: AccountTree, u: AccountTree)
    requires Sound(db) && SameButSelection(q, p)
    requires SchemaRow(row) && ValidFields(q.ctx.fields) && ValidFields(p.ctx.fields)
    requires NaiveNode(db, q, row) == Some(t) && NaiveNode(db, p, row) == Some(u)
    ensures Alike(t, u)
    decreases Height(q), 2
  {
    IdsAlike(db, q, p, row, t, u);
    NodeLeavesAlike(db, q, p, row);
    EdgesAlike(db, q, p, row);
  }

  lemma {:induction false} NaiveAlike(db: Database, q: QueryTree, p: QueryTree)
    requires Sound(db) && SameButSelection(q, p) && Naive(db, q).Some? && Naive(db, p).Some?
    ensures TreesAlike(Naive(db, q).value, Naive(db, p).value)
    decreases Height(q), 3
  {
    var rows, ts, us := AccountRows(db, q), Naive(db, q).value, Naive(db, p).value;
    WindowSame(q.ctx, p.ctx, Select(db.accounts, q.preds, q.order));
    QueryRows(db, q);
    forall i | 0 <= i < |ts| ensures Alike(ts[i], us[i]) {
      assert rows[i] in rows;
      assert NodeOf(db, q)(rows[i]) == Some(ts[i]) && NodeOf(db, p)(rows[i]) == Some(us[i]);
      NodeAlike(db, q, p, rows[i], ts[i], us[i]);
    }
  }

  /** Selecting other columns at any query node of the tree loads the same graph: the same accounts in the same order,
      at every depth, with the same edges; only the columns shown differ. */
  lemma {:induction false} SelectionsTransparent(db: Database, q: QueryTree, p: QueryTree)
    requires Sound(db) && EdgesUnlimited(q) && EdgesUnlimited(p) && SameButSelection(q, p)
    requires Batched(db, q).Some? && Batched(db, p).Some?
    ensures TreesAlike(Batched(db, q).value, Batched(db, p).value)
  {
    BatchedIsNaive(db, q);
    BatchedIsNaive(db, p);
    NaiveAlike(db, q, p);
  }
}

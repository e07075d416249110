/** The recursion over account edges, and the main theorems about a whole eager load. */
module EagerRefinement {
  import opened Collections
  import opened AccountEntity
  import opened EagerSpec
  import opened EagerJoin

  /** A node's own graph does not depend on which other rows its query selects. */
  lemma {:induction false} NodeIgnoresPreds(db: Database, q: QueryTree, p: Pred, p': Pred, row: Row)
    ensures NaiveNode(db, q.Where(p), row) == NaiveNode(db, q.Where(p'), row)
  {
  }

  /** The entity carries its row's id and the foreign keys that the requested M2O edges read. */
  ghost predicate Keyed(q: QueryTree, row: Row, e: Entity) {
    && e.Id() == IntOrZero(row, ID)
    && (q.proxy.Some? ==> e.ForeignKey(ProxyID) == IntOf(row, ProxyID))
    && (q.parent.Some? || q.ctx.fields == [] || ParentAccountID in q.ctx.fields ==>
         e.ForeignKey(ParentAccountID) == IntOf(row, ParentAccountID))
  }

  lemma {:induction false} NodeKeyed(db: Database, q: QueryTree, row: Row, e: Entity)
    requires SchemaRow(row) && ValidFields(q.ctx.fields)
    requires Scanner(db.decode, ColumnsOf(q))(row) == Some(e)
    ensures Keyed(q, row, e)
  {
    ColumnsForKeys(q);
    KeyedFrom(db.decode, ColumnsOf(q), q, row, e);
  }

  lemma {:induction false} ColumnsForKeys(q: QueryTree)
    requires ValidFields(q.ctx.fields)
    ensures forall c :: c in ColumnsOf(q) ==> ValidColumn(c)
    ensures ID in ColumnsOf(q) && (q.proxy.Some? ==> ProxyID in ColumnsOf(q))
    ensures q.parent.Some? || q.ctx.fields == [] || ParentAccountID in q.ctx.fields ==> ParentAccountID in ColumnsOf(q)
  {
    ColumnsComplete(q.ctx.fields, q.proxy.Some?, q.parent.Some?);
    KeyColumns(ColumnsOf(q), q.ctx.fields, q.proxy.Some?, q.parent.Some?);
  }

  lemma {:induction false} KeyColumns(columns: seq<Column>, fields: seq<Column>, proxy: bool, parent: bool)
    requires ValidFields(fields)
    requires forall c :: c in columns <==>
      if fields == [] then ValidColumn(c)
      else c.ID? || c in fields || (proxy && c.ProxyID?) || (parent && c.ParentAccountID?)
    ensures forall c :: c in columns ==> ValidColumn(c)
    ensures ID in columns && (proxy ==> ProxyID in columns)
    ensures parent || fields == [] || ParentAccountID in fields ==> ParentAccountID in columns
  {
  }

  lemma {:induction false} ScannedBy(decode: Decoder, columns: seq<Column>, row: Row, e: Entity)
    requires Scanner(decode, columns)(row) == Some(e)
    ensures ScanRow(decode, columns, row) == Ok(e)
  {
  }

  lemma {:induction false} KeyedFrom(decode: Decoder, columns: seq<Column>, q: QueryTree, row: Row, e: Entity)
    requires SchemaRow(row) && (forall c :: c in columns ==> ValidColumn(c)) && Scanner(decode, columns)(row) == Some(e)
    requires ID in columns && (q.proxy.Some? ==> ProxyID in columns)
    requires q.parent.Some? || q.ctx.fields == [] || ParentAccountID in q.ctx.fields ==> ParentAccountID in columns
    ensures Keyed(q, row, e)
  {
    ScannedBy(decode, columns, row, e);
    KeyArrives(decode, columns, row, e, ID);
    KeyArrives(decode, columns, row, e, ProxyID);
    KeyArrives(decode, columns, row, e, ParentAccountID);
  }

  lemma {:induction false} KeyArrives(decode: Decoder, columns: seq<Column>, row: Row, e: Entity, c: Column)
    requires SchemaRow(row) && (forall c :: c in columns ==> ValidColumn(c)) && ScanRow(decode, columns, row) == Ok(e)
    requires c.ID? || c.ProxyID? || c.ParentAccountID?
    ensures c in columns ==> if c.ID? then Some(e.Id()) == IntOf(row, ID) else e.ForeignKey(c) == IntOf(row, c)
  {
    if c in columns { ScannedField(decode, columns, row, c); }
  }

  /** Every row a selection can return follows the schema. */
  lemma {:induction false} RowsSound(db: Database, preds: seq<Pred>, order: Order)
    requires Sound(db)
    ensures forall r :: r in Select(db.accounts, preds, order) ==> SchemaRow(r)
  {
  }

  /** The key columns of loaded trees are those of their rows. */
  lemma {:induction false} TreeKeys(db: Database, q: QueryTree, rows: seq<Row>, ts: seq<AccountTree>, c: Column)
    requires forall r :: r in rows ==> SchemaRow(r)
    requires ValidFields(q.ctx.fields) && Traverse(NodeOf(db, q), rows) == Some(ts)
    requires c.ID? || (c.ParentAccountID? && (q.ctx.fields == [] || c in q.ctx.fields))
    ensures forall i :: 0 <= i < |rows| ==>
      TreeKeysOf(ts, c)[i] == IntOf(rows[i], c)
  {
    forall i | 0 <= i < |rows| ensures TreeKeysOf(ts, c)[i] == IntOf(rows[i], c) {
      assert rows[i] in rows && NodeOf(db, q)(rows[i]) == Some(ts[i]);
      NodeScanned(db, q, rows[i], ts[i]);
      NodeKeyed(db, q, rows[i], ts[i].entity);
    }
  }

  lemma {:induction false} NodeScanned(db: Database, q: QueryTree, row: Row, t: AccountTree)
    requires NodeOf(db, q)(row) == Some(t)
    ensures Scanner(db.decode, ColumnsOf(q))(row) == Some(t.entity)
  {
  }

  /** Restricting a batch to one key: f and g are the node loaders of the batch and of the single-key query. */
  lemma {:induction false} OneOfMany<T>(table: seq<Row>, preds: seq<Pred>, order: Order, c: Column, ids: seq<int>,
                                        k: int,
                     f: Row -> Option<T>, g: Row -> Option<T>, keys: seq<Option<int>>)
    requires k in ids && forall r :: f(r) == g(r)
    requires var rows := Select(table, preds + [In(c, ids)], order);
             Traverse(f, rows).Some? && |keys| == |rows| && forall i :: 0 <= i < |rows| ==> keys[i] == IntOf(rows[i], c)
    ensures Traverse(g, Select(table, preds + [In(c, [k])], order))
            == Some(PickBy(keys, Traverse(f, Select(table, preds + [In(c, ids)], order)).value, k))
  {
    var rows := Select(table, preds + [In(c, ids)], order);
    var key := (r: Row) => IntOf(r, c);
    assert keys == Map(key, rows);
    PickTraverse(f, key, KeyIs(c, k), rows, k);
    TraverseSame(f, g, Filter(KeyIs(c, k), rows));
    SelectLocal(table, preds, order, c, ids, k);
  }

  lemma {:induction false} KeysKnown(table: seq<Row>, preds: seq<Pred>, order: Order, c: Column, ids: seq<int>,
                                     keys: seq<Option<int>>)
    requires var rows := Select(table, preds + [In(c, ids)], order);
             |keys| == |rows| && forall i :: 0 <= i < |rows| ==> keys[i] == IntOf(rows[i], c)
    ensures KnownKeys(keys, ids)
  {
    var rows := Select(table, preds + [In(c, ids)], order);
    SelectedHave(table, preds, order, c, ids);
    forall i | 0 <= i < |rows| ensures keys[i].Some? && keys[i].value in ids {
      assert rows[i] in rows;
    }
  }

  lemma {:induction false} OneFails<T>(table: seq<Row>, preds: seq<Pred>, order: Order, c: Column, ids: seq<int>,
                    f: Row -> Option<T>, i: nat) returns (k: int)
    requires i < |Select(table, preds + [In(c, ids)], order)|
    requires f(Select(table, preds + [In(c, ids)], order)[i]).None?
    ensures k in ids && Traverse(f, Select(table, preds + [In(c, [k])], order)).None?
  {
    var rows := Select(table, preds + [In(c, ids)], order);
    assert rows[i] in rows;
    SelectedHave(table, preds, order, c, ids);
    k := IntOf(rows[i], c).value;
    SelectLocal(table, preds, order, c, ids, k);
    var rows' := Select(table, preds + [In(c, [k])], order);
    assert rows[i] in rows';
    var j :| 0 <= j < |rows'| && rows'[j] == rows[i];
  }

  lemma {:induction false} SameNodes(db: Database, q: QueryTree, p: Pred, p': Pred)
    ensures forall r :: NodeOf(db, q.Where(p))(r) == NodeOf(db, q.Where(p'))(r)
  {
    forall r ensures NodeOf(db, q.Where(p))(r) == NodeOf(db, q.Where(p'))(r) {
      NodeIgnoresPreds(db, q, p, p', r);
    }
  }

  function TreeKeysOf(ts: seq<AccountTree>, c: Column): (r: seq<Option<int>>)
    ensures |r| == |ts|
  {
    if c.ID? then TreeIds(ts) else TreeParents(ts)
  }

  /** A batch over many keys: each single-key query gives the batch's trees with that key. */
  lemma {:induction false} BatchLocal(db: Database, q: QueryTree, c: Column, ids: seq<int>, k: int)
    requires Sound(db) && Unlimited(q.ctx) && k in ids
    requires c.ID? || (c.ParentAccountID? && (q.ctx.fields == [] || c in q.ctx.fields))
    requires Naive(db, q.Where(In(c, ids))).Some?
    ensures var nbs := Naive(db, q.Where(In(c, ids))).value;
            Naive(db, q.Where(In(c, [k]))) == Some(PickBy(TreeKeysOf(nbs, c), nbs, k))
            && KnownKeys(TreeKeysOf(nbs, c), ids)
  {
    var many, one := q.Where(In(c, ids)), q.Where(In(c, [k]));
    var rows := Select(db.accounts, many.preds, q.order);
    var f, g := NodeOf(db, many), NodeOf(db, one);
    var keys := TreeKeysOf(Traverse(f, rows).value, c);
    RowsSound(db, many.preds, q.order);
    TreeKeys(db, many, rows, Traverse(f, rows).value, c);
    SameNodes(db, q, In(c, ids), In(c, [k]));
    OneOfMany(db.accounts, q.preds, q.order, c, ids, k, f, g, keys);
    KeysKnown(db.accounts, q.preds, q.order, c, ids, keys);
  }

  /** When the batch fails, the query of some single key fails too. */
  lemma {:induction false} BatchFails(db: Database, q: QueryTree, c: Column, ids: seq<int>) returns (k: int)
    requires Unlimited(q.ctx) && ids != []
    requires Naive(db, q.Where(In(c, ids))).None?
    ensures k in ids && Naive(db, q.Where(In(c, [k]))).None?
  {
    var many := q.Where(In(c, ids));
    k := ids[0];
    if ValidFields(q.ctx.fields) {
      var rows, f := Select(db.accounts, many.preds, q.order), NodeOf(db, many);
      var i :| 0 <= i < |rows| && f(rows[i]).None?;
      k := OneFails(db.accounts, q.preds, q.order, c, ids, f, i);
      SameNodes(db, q, In(c, ids), In(c, [k]));
      TraverseSame(f, NodeOf(db, q.Where(In(c, [k]))), Select(db.accounts, q.preds + [In(c, [k])], q.order));
    }
  }

  /** Joining a batch by key gives every key the result of its own query, and fails only if one of those fails. */
  ghost predicate Splits(loaded: Option<seq<AccountTree>>, c: Column, ids: seq<int>,
                         single: int -> Option<seq<AccountTree>>) {
    if loaded.None? then exists k :: k in ids && single(k).None?
    else
      && KnownKeys(TreeKeysOf(loaded.value, c), ids)
      && forall k :: k in ids ==> single(k) == Some(PickBy(TreeKeysOf(loaded.value, c), loaded.value, k))
  }

  lemma {:induction false} BatchSplits(db: Database, q: QueryTree, c: Column, ids: seq<int>,
                                       single: int -> Option<seq<AccountTree>>)
    requires Sound(db) && Unlimited(q.ctx) && ids != []
    requires c.ID? || (c.ParentAccountID? && (q.ctx.fields == [] || c in q.ctx.fields))
    requires forall k :: single(k) == Naive(db, q.Where(In(c, [k])))
    ensures Splits(Naive(db, q.Where(In(c, ids))), c, ids, single)
  {
    if Naive(db, q.Where(In(c, ids))).None? {
      var k := BatchFails(db, q, c, ids);
      assert single(k).None?;
    } else {
      BatchLocal(db, q, c, ids, ids[0]);
      forall k | k in ids
        ensures var nbs := Naive(db, q.Where(In(c, ids))).value;
                single(k) == Some(PickBy(TreeKeysOf(nbs, c), nbs, k))
      {
        BatchLocal(db, q, c, ids, k);
      }
    }
  }

  lemma {:induction false} ListsSplit(loaded: Option<seq<AccountTree>>, ids: seq<int>,
                                      single: int -> Option<seq<AccountTree>>)
    requires Splits(loaded, ParentAccountID, ids, single) && Distinct(ids)
    ensures var lists := ListsFrom(loaded, ids);
            if lists.Some? then forall i :: 0 <= i < |ids| ==> single(ids[i]) == Some(lists.value[i])
            else exists i :: 0 <= i < |ids| && single(ids[i]).None?
  {
    if loaded.None? {
      var k :| k in ids && single(k).None?;
      var i :| 0 <= i < |ids| && ids[i] == k;
    } else {
      forall i | 0 <= i < |ids| ensures single(ids[i]) == Some(ListsFrom(loaded, ids).value[i]) {
        assert IsLast(ids, i) && ids[i] in ids;
      }
    }
  }

  lemma {:induction false} PicksSplit(loaded: Option<seq<AccountTree>>, fks: seq<Option<int>>,
                                      single: int -> Option<seq<AccountTree>>)
    requires Splits(loaded, ID, FirstSeen(fks), single)
    ensures var picks := PicksFrom(loaded, fks);
            if picks.Some?
            then forall i :: 0 <= i < |fks| ==>
              Some(picks.value[i]) == if fks[i].None? then Some(None) else LastLoaded(single(fks[i].value))
            else exists i :: 0 <= i < |fks| && fks[i].Some? && single(fks[i].value).None?
  {
    if loaded.None? {
      var k :| k in FirstSeen(fks) && single(k).None?;
      assert Some(k) in fks;
      var i :| 0 <= i < |fks| && fks[i] == Some(k);
    } else {
      forall i | 0 <= i < |fks| && fks[i].Some?
        ensures Some(PicksFrom(loaded, fks).value[i]) == LastLoaded(single(fks[i].value))
      {
        assert fks[i] in fks;
      }
    }
  }

  lemma {:induction false} SomeChildrenLocal(db: Database, q: QueryTree, ids: seq<int>)
    requires Sound(db) && Distinct(ids) && ids != [] && Unlimited(q.ctx)
    ensures var lists := ListsFrom(Naive(db, ChildQuery(q, ids)), ids);
            if lists.Some?
            then forall i :: 0 <= i < |ids| ==> Naive(db, ChildQuery(q, [ids[i]])) == Some(lists.value[i])
            else exists i :: 0 <= i < |ids| && Naive(db, ChildQuery(q, [ids[i]])).None?
  {
    var single := (k: int) => Naive(db, ChildQuery(q, [k]));
    BatchSplits(db, q.WithField(ParentAccountID), ParentAccountID, ids, single);
    ListsSplit(Naive(db, ChildQuery(q, ids)), ids, single);
  }

  lemma {:induction false} ChildListsAre(db: Database, q: QueryTree, ids: seq<int>)
    ensures ChildLists(db, Some(q), ids) == ListsFrom(Batched(db, ChildQuery(q, ids)), ids)
    ensures forall k :: NaiveChildren(db, Some(q), k) == Naive(db, ChildQuery(q, [k]))
  {
  }

  lemma {:induction false} ChildrenLocal(db: Database, q: Option<QueryTree>, ids: seq<int>)
    requires Sound(db) && Distinct(ids) && ids != []
    requires q.Some? ==> Unlimited(q.value.ctx)
    requires q.Some? ==> Batched(db, ChildQuery(q.value, ids)) == Naive(db, ChildQuery(q.value, ids))
    ensures var lists := ChildLists(db, q, ids);
            if lists.Some? then forall i :: 0 <= i < |ids| ==> NaiveChildren(db, q, ids[i]) == Some(lists.value[i])
            else exists i :: 0 <= i < |ids| && NaiveChildren(db, q, ids[i]).None?
  {
    if q.Some? {
      SomeChildrenLocal(db, q.value, ids);
      ChildListsAre(db, q.value, ids);
    }
  }

  lemma {:induction false} ParentOfOne(db: Database, q: QueryTree, fk: Option<int>,
                                       single: int -> Option<seq<AccountTree>>)
    requires fk.Some? ==> single(fk.value) == Naive(db, q.Where(In(ID, [fk.value])))
    ensures NaiveParent(db, Some(q), fk) == if fk.None? then Some(None) else LastLoaded(single(fk.value))
  {
  }

  /** The batched parents of a layer that has some foreign key. */
  lemma {:induction false} SomeParentsLocal(db: Database, q: QueryTree, fks: seq<Option<int>>)
    requires Sound(db) && Unlimited(q.ctx) && FirstSeen(fks) != []
    ensures var picks := PicksFrom(Naive(db, q.Where(In(ID, FirstSeen(fks)))), fks);
            if picks.Some? then forall i :: 0 <= i < |fks| ==> NaiveParent(db, Some(q), fks[i]) == Some(picks.value[i])
            else exists i :: 0 <= i < |fks| && NaiveParent(db, Some(q), fks[i]).None?
  {
    var single := (k: int) => Naive(db, q.Where(In(ID, [k])));
    var loaded := Naive(db, q.Where(In(ID, FirstSeen(fks))));
    BatchSplits(db, q, ID, FirstSeen(fks), single);
    PicksSplit(loaded, fks, single);
    forall i | 0 <= i < |fks|
      ensures NaiveParent(db, Some(q), fks[i]) == if fks[i].None? then Some(None) else LastLoaded(single(fks[i].value))
    {
      ParentOfOne(db, q, fks[i], single);
    }
  }

  lemma {:induction false} ParentPicksAre(db: Database, q: QueryTree, fks: seq<Option<int>>)
    requires FirstSeen(fks) != []
    ensures ParentPicks(db, Some(q), fks) == PicksFrom(Batched(db, q.Where(In(ID, FirstSeen(fks)))), fks)
  {
  }

  lemma {:induction false} NoParents(db: Database, q: Option<QueryTree>, fks: seq<Option<int>>)
    requires q.None? || FirstSeen(fks) == []
    ensures ParentPicks(db, q, fks) == Some(Nothing(|fks|, None))
    ensures forall i :: 0 <= i < |fks| ==> NaiveParent(db, q, fks[i]) == Some(None)
  {
    forall i | q.Some? && 0 <= i < |fks| ensures fks[i].None? {
      assert fks[i] in fks;
    }
  }

  lemma {:induction false} ParentsLocal(db: Database, q: Option<QueryTree>, fks: seq<Option<int>>)
    requires Sound(db)
    requires q.Some? ==> Unlimited(q.value.ctx)
    requires q.Some? && FirstSeen(fks) != [] ==>
      var p := q.value.Where(In(ID, FirstSeen(fks))); Batched(db, p) == Naive(db, p)
    ensures var picks := ParentPicks(db, q, fks);
            if picks.Some? then forall i :: 0 <= i < |fks| ==> NaiveParent(db, q, fks[i]) == Some(picks.value[i])
            else exists i :: 0 <= i < |fks| && NaiveParent(db, q, fks[i]).None?
  {
    if q.Some? && FirstSeen(fks) != [] {
      SomeParentsLocal(db, q.value, fks);
      ParentPicksAre(db, q.value, fks);
    } else {
      NoParents(db, q, fks);
    }
  }

  lemma {:induction false} WindowOf<T>(ctx: Context, s: seq<T>)
    ensures exists a, b :: 0 <= a <= b <= |s| && Window(ctx, s) == s[a..b]
  {
    var from := if ctx.offset.Some? then Min(ctx.offset.value, |s|) else 0;
    var to := if ctx.limit.Some? then from + Min(ctx.limit.value, |s| - from) else |s|;
    assert Window(ctx, s) == s[from..to];
  }

  /** The rows of a query are schema rows with distinct ids, whatever its window. */
  lemma {:induction false} QueryRows(db: Database, q: QueryTree)
    requires Sound(db)
    ensures forall r :: r in AccountRows(db, q) ==> SchemaRow(r)
    ensures DistinctGroups(AccountRows(db, q))
  {
    var all := Select(db.accounts, q.preds, q.order);
    RowsSound(db, q.preds, q.order);
    SelectIds(db.accounts, q.preds, q.order);
    WindowOf(q.ctx, all);
    var a, b :| 0 <= a <= b <= |all| && AccountRows(db, q) == all[a..b];
    forall r | r in all[a..b] ensures r in all {
    }
  }

  lemma {:induction false} EntityKeys(db: Database, q: QueryTree, rows: seq<Row>, es: seq<Entity>)
    requires ValidFields(q.ctx.fields)
    requires forall r :: r in rows ==> SchemaRow(r)
    requires DistinctGroups(rows) && |es| == |rows|
    requires forall i :: 0 <= i < |rows| ==> Scanner(db.decode, ColumnsOf(q))(rows[i]) == Some(es[i])
    ensures KeysMatch(q, rows, es)
  {
    ColumnsForKeys(q);
    EntitiesKeyed(db.decode, ColumnsOf(q), q, rows, es);
  }

  lemma {:induction false} EntitiesKeyed(decode: Decoder, columns: seq<Column>, q: QueryTree, rows: seq<Row>,
                                         es: seq<Entity>)
    requires forall r :: r in rows ==> SchemaRow(r)
    requires DistinctGroups(rows) && |es| == |rows| && forall c :: c in columns ==> ValidColumn(c)
    requires ID in columns && (q.proxy.Some? ==> ProxyID in columns)
    requires q.parent.Some? || q.ctx.fields == [] || ParentAccountID in q.ctx.fields ==> ParentAccountID in columns
    requires forall i :: 0 <= i < |rows| ==> Scanner(decode, columns)(rows[i]) == Some(es[i])
    ensures KeysMatch(q, rows, es)
  {
    forall i | 0 <= i < |rows| ensures Keyed(q, rows[i], es[i]) {
      KeyedFrom(decode, columns, q, rows[i], es[i]);
    }
  }

  /** What the loaded edges of row i have to be for its node to be tree i. */
  ghost predicate EdgesAgree(db: Database, q: QueryTree, rows: seq<Row>, es: seq<Entity>, layer: Layer, i: nat)
    requires i < |rows| == |es| && LayerOf(layer, |es|)
  {
    var id := IntOrZero(rows[i], ID);
    && layer.groups[i] == NaiveGroups(db, q.groups, id)
    && layer.proxy[i] == NaiveProxy(db, q.proxy, IntOf(rows[i], ProxyID))
    && Some(layer.parent[i]) == NaiveParent(db, q.parent, IntOf(rows[i], ParentAccountID))
    && Some(layer.children[i]) == NaiveChildren(db, q.children, id)
    && layer.usageLogs[i] == NaiveOwned(db.usageLogs, q.usageLogs, id)
    && layer.accountGroups[i] == NaiveOwned(db.links, q.accountGroups, id)
  }

  lemma {:induction false} NodeAgrees(db: Database, q: QueryTree, rows: seq<Row>, es: seq<Entity>, layer: Layer, i: nat)
    requires i < |rows| == |es| && LayerOf(layer, |es|) && EdgesAgree(db, q, rows, es, layer, i)
    requires Scanner(db.decode, ColumnsOf(q))(rows[i]) == Some(es[i])
    ensures NodeOf(db, q)(rows[i]) == Some(Assemble(q, es, layer)[i])
  {
  }

  lemma {:induction false} NodeFails(db: Database, q: QueryTree, row: Row)
    requires NaiveParent(db, q.parent, IntOf(row, ParentAccountID)).None?
             || NaiveChildren(db, q.children, IntOrZero(row, ID)).None? || Scanner(db.decode, ColumnsOf(q))(row).None?
    ensures NodeOf(db, q)(row).None?
  {
  }

  lemma {:induction false} LeavesAgree(db: Database, q: QueryTree, es: seq<Entity>,
                                       parents: Option<seq<Option<AccountTree>>>,
                    children: Option<seq<seq<AccountTree>>>)
    requires Sound(db) && EdgesUnlimited(q) && Distinct(IdsOf(es))
    requires (parents.Some? ==> |parents.value| == |es|) && (children.Some? ==> |children.value| == |es|)
    ensures var layer := LayerFrom(db, q, es, parents, children);
            && (layer.Some? <==> parents.Some? && children.Some?)
            && (layer.Some? ==>
                 && layer.value.parent == parents.value && layer.value.children == children.value
                 && forall i :: 0 <= i < |es| ==>
                   && layer.value.groups[i] == NaiveGroups(db, q.groups, IdsOf(es)[i])
                   && layer.value.proxy[i] == NaiveProxy(db, q.proxy, KeysOf(es, ProxyID)[i])
                   && layer.value.usageLogs[i] == NaiveOwned(db.usageLogs, q.usageLogs, IdsOf(es)[i])
                   && layer.value.accountGroups[i] == NaiveOwned(db.links, q.accountGroups, IdsOf(es)[i]))
  {
    GroupsLocal(db, q.groups, IdsOf(es));
    ProxyLocal(db, q.proxy, KeysOf(es, ProxyID));
    OwnedLocal(db.usageLogs, q.usageLogs, IdsOf(es));
    OwnedLocal(db.links, q.accountGroups, IdsOf(es));
  }

  /** The keys read from the entities are those of the rows, wherever an edge needs them. */
  ghost predicate KeysMatch(q: QueryTree, rows: seq<Row>, es: seq<Entity>) {
    && |es| == |rows| && Distinct(IdsOf(es))
    && (forall i :: 0 <= i < |rows| ==> IdsOf(es)[i] == IntOrZero(rows[i], ID))
    && (q.proxy.Some? ==> forall i :: 0 <= i < |rows| ==> KeysOf(es, ProxyID)[i] == IntOf(rows[i], ProxyID))
    && (q.parent.Some? ==>
         forall i :: 0 <= i < |rows| ==> KeysOf(es, ParentAccountID)[i] == IntOf(rows[i], ParentAccountID))
  }

  /** Given the account edges, the layer is the naive one node by node; it fails only if some node's edges fail. */
  lemma {:induction false} LayerLocal(db: Database, q: QueryTree, rows: seq<Row>, es: seq<Entity>,
                   parents: Option<seq<Option<AccountTree>>>, children: Option<seq<seq<AccountTree>>>)
    requires Sound(db) && EdgesUnlimited(q) && KeysMatch(q, rows, es)
    requires forall i :: 0 <= i < |rows| ==> Scanner(db.decode, ColumnsOf(q))(rows[i]) == Some(es[i])
    requires if parents.Some?
             then |parents.value| == |es|
                  && forall i :: 0 <= i < |es| ==>
                    NaiveParent(db, q.parent, KeysOf(es, ParentAccountID)[i]) == Some(parents.value[i])
             else exists i :: 0 <= i < |es| && NaiveParent(db, q.parent, KeysOf(es, ParentAccountID)[i]).None?
    requires if children.Some?
             then |children.value| == |es|
                  && forall i :: 0 <= i < |es| ==>
                       NaiveChildren(db, q.children, IdsOf(es)[i]) == Some(children.value[i])
             else exists i :: 0 <= i < |es| && NaiveChildren(db, q.children, IdsOf(es)[i]).None?
    ensures Traverse(NodeOf(db, q), rows) == Loaded(q, es, LayerFrom(db, q, es, parents, children))
  {
    var layer := LayerFrom(db, q, es, parents, children);
    LeavesAgree(db, q, es, parents, children);
    if parents.None? {
      var i :| 0 <= i < |es| && NaiveParent(db, q.parent, KeysOf(es, ParentAccountID)[i]).None?;
      assert q.parent.Some?;
      NodeFails(db, q, rows[i]);
      TraverseFails(NodeOf(db, q), rows, i);
    } else if children.None? {
      var i :| 0 <= i < |es| && NaiveChildren(db, q.children, IdsOf(es)[i]).None?;
      NodeFails(db, q, rows[i]);
      TraverseFails(NodeOf(db, q), rows, i);
    } else {
      LayerNodes(db, q, rows, es, layer.value);
    }
  }

  lemma {:induction false} LayerNodes(db: Database, q: QueryTree, rows: seq<Row>, es: seq<Entity>, layer: Layer)
    requires KeysMatch(q, rows, es) && LayerOf(layer, |es|)
    requires forall i :: 0 <= i < |rows| ==> Scanner(db.decode, ColumnsOf(q))(rows[i]) == Some(es[i])
    requires forall i :: 0 <= i < |es| ==>
      && layer.groups[i] == NaiveGroups(db, q.groups, IdsOf(es)[i])
      && layer.proxy[i] == NaiveProxy(db, q.proxy, KeysOf(es, ProxyID)[i])
      && layer.usageLogs[i] == NaiveOwned(db.usageLogs, q.usageLogs, IdsOf(es)[i])
      && layer.accountGroups[i] == NaiveOwned(db.links, q.accountGroups, IdsOf(es)[i])
      && NaiveParent(db, q.parent, KeysOf(es, ParentAccountID)[i]) == Some(layer.parent[i])
      && NaiveChildren(db, q.children, IdsOf(es)[i]) == Some(layer.children[i])
    ensures Traverse(NodeOf(db, q), rows) == Some(Assemble(q, es, layer))
  {
    forall i | 0 <= i < |es| ensures NodeOf(db, q)(rows[i]) == Some(Assemble(q, es, layer)[i]) {
      assert EdgesAgree(db, q, rows, es, layer, i);
      NodeAgrees(db, q, rows, es, layer, i);
    }
    TraverseAll(NodeOf(db, q), rows, Assemble(q, es, layer));
  }

  /** Adding fields and predicates to an edge query leaves it lower than the query that loads it. */
  lemma {:induction false} HeightOfEdges(q: QueryTree)
    ensures forall p: Pred :: q.parent.Some? ==> Height(q.parent.value.Where(p)) < Height(q)
    ensures forall ids :: q.children.Some? ==> Height(ChildQuery(q.children.value, ids)) < Height(q)
  {
  }

  /** One layer, given that the account edges below it are already known to load naively. */
  lemma {:induction false} LayerStep(db: Database, q: QueryTree, rows: seq<Row>, es: seq<Entity>)
    requires Sound(db) && EdgesUnlimited(q) && KeysMatch(q, rows, es) && es != []
    requires forall i :: 0 <= i < |rows| ==> Scanner(db.decode, ColumnsOf(q))(rows[i]) == Some(es[i])
    requires q.children.Some? ==> var c := ChildQuery(q.children.value, IdsOf(es)); Batched(db, c) == Naive(db, c)
    requires q.parent.Some? ==>
      var p := q.parent.value.Where(In(ID, FirstSeen(KeysOf(es, ParentAccountID)))); Batched(db, p) == Naive(db, p)
    ensures Traverse(NodeOf(db, q), rows) == Loaded(q, es, LoadLayer(db, q, es))
  {
    ParentsLocal(db, q.parent, KeysOf(es, ParentAccountID));
    ChildrenLocal(db, q.children, IdsOf(es));
    LayerLocal(db, q, rows, es, ParentPicks(db, q.parent, KeysOf(es, ParentAccountID)),
               ChildLists(db, q.children, IdsOf(es)));
  }

  /** Without nodes there is nothing to join: both loads stop at the same place. */
  lemma {:induction false} NothingToJoin(db: Database, q: QueryTree)
    requires Nodes(db, q).None? || Nodes(db, q).value == []
    ensures Batched(db, q) == Naive(db, q)
  {
    var rows := AccountRows(db, q);
    if ValidFields(q.ctx.fields) && Nodes(db, q).None? {
      var i :| 0 <= i < |rows| && Scanner(db.decode, ColumnsOf(q))(rows[i]).None?;
      NodeFails(db, q, rows[i]);
      TraverseFails(NodeOf(db, q), rows, i);
    }
  }

  lemma {:induction false} NodesKeyed(db: Database, q: QueryTree)
    requires Sound(db) && Nodes(db, q).Some?
    ensures var rows, es := AccountRows(db, q), Nodes(db, q).value;
            && KeysMatch(q, rows, es)
            && forall i :: 0 <= i < |rows| ==> Scanner(db.decode, ColumnsOf(q))(rows[i]) == Some(es[i])
  {
    QueryRows(db, q);
    EntityKeys(db, q, AccountRows(db, q), Nodes(db, q).value);
  }

  lemma {:induction false} LoadedIsNaive(db: Database, q: QueryTree, es: seq<Entity>)
    requires Nodes(db, q) == Some(es) && es != []
    requires Traverse(NodeOf(db, q), AccountRows(db, q)) == Loaded(q, es, LoadLayer(db, q, es))
    ensures Batched(db, q) == Naive(db, q)
  {
  }

  /** Main theorem. For every database with primary keys and every eager-load tree without limits on its edge queries,
      to any depth, batched loading returns the same nodes in the same order with the same edges as the naive join,
      and fails exactly when it fails. */
  lemma {:induction false} BatchedIsNaive(db: Database, q: QueryTree)
    requires Sound(db) && EdgesUnlimited(q)
    ensures Batched(db, q) == Naive(db, q)
    decreases Height(q)
  {
    var nodes := Nodes(db, q);
    if nodes.None? || nodes.value == [] {
      NothingToJoin(db, q);
    } else {
      var es := nodes.value;
      NodesKeyed(db, q);
      HeightOfEdges(q);
      if q.children.Some? {
        BatchedIsNaive(db, ChildQuery(q.children.value, IdsOf(es)));
      }
      if q.parent.Some? {
        BatchedIsNaive(db, q.parent.value.Where(In(ID, FirstSeen(KeysOf(es, ParentAccountID)))));
      }
      LayerStep(db, q, AccountRows(db, q), es);
      LoadedIsNaive(db, q, es);
    }
  }
}

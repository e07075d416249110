/** Batched eager loading builds the graph of the naive nested-loop join. */
module EagerJoin {
  import opened Collections
  import opened AccountEntity
  import opened EagerSpec

  /** Account rows follow the table's schema and ids are primary keys. */
  ghost predicate Sound(db: Database) {
    && (forall r :: r in db.accounts ==> SchemaRow(r))
    && (forall i, j :: 0 <= i < j < |db.accounts| ==> IntOrZero(db.accounts[i], ID) != IntOrZero(db.accounts[j], ID))
    && (forall i, j :: 0 <= i < j < |db.groups| ==> IntOrZero(db.groups[i], ID) != IntOrZero(db.groups[j], ID))
  }

  predicate Unlimited(ctx: Context) {
    ctx.limit.None? && ctx.offset.None?
  }

  predicate LeafUnlimited(q: Option<LeafTree>) {
    q.Some? ==> Unlimited(q.value.ctx)
  }

  /** No edge query has a limit or an offset: those would apply to the whole batch rather than per node. */
  predicate EdgesUnlimited(q: QueryTree) {
    && LeafUnlimited(q.groups) && LeafUnlimited(q.proxy) && LeafUnlimited(q.usageLogs) && LeafUnlimited(q.accountGroups)
    && (q.parent.Some? ==> Unlimited(q.parent.value.ctx) && EdgesUnlimited(q.parent.value))
    && (q.children.Some? ==> Unlimited(q.children.value.ctx) && EdgesUnlimited(q.children.value))
  }

  // ---------------------------------------------------------------- one query for many keys, or one per key

  function KeyIs(c: Column, k: int): Row -> bool {
    row => IntOf(row, c) == Some(k)
  }

  /** Asking for one key is filtering what was asked for many. */
  lemma {:induction false} SelectLocal(table: seq<Row>, preds: seq<Pred>, order: Order, c: Column, ids: seq<int>,
                                       k: int)
    requires k in ids
    ensures Select(table, preds + [In(c, [k])], order)
         == Filter(KeyIs(c, k), Select(table, preds + [In(c, ids)], order))
  {
    var one, many := preds + [In(c, [k])], preds + [In(c, ids)];
    forall r ensures Meets(one)(r) <==> KeyIs(c, k)(r) && Meets(many)(r) {
      LastPred(preds, In(c, [k]), r);
      LastPred(preds, In(c, ids), r);
    }
    FilterFilter(KeyIs(c, k), Meets(many), Meets(one), table);
    FilterSort(KeyIs(c, k), order, Filter(Meets(many), table));
  }

  lemma {:induction false} LastPred(preds: seq<Pred>, p: Pred, row: Row)
    ensures AllHold(preds + [p], row) <==> AllHold(preds, row) && Holds(p, row)
  {
    assert (preds + [p])[|preds|] == p;
    assert forall i :: 0 <= i < |preds| ==> (preds + [p])[i] == preds[i];
  }

  lemma {:induction false} SelectedHave(table: seq<Row>, preds: seq<Pred>, order: Order, c: Column, ids: seq<int>)
    ensures forall r :: r in Select(table, preds + [In(c, ids)], order) ==>
      r in table && IntOf(r, c).Some? && IntOf(r, c).value in ids
  {
    forall r | r in Select(table, preds + [In(c, ids)], order) ensures Holds(In(c, ids), r) {
      LastPred(preds, In(c, ids), r);
    }
  }

  /** Picking by key among shown rows is showing the rows with that key. */
  lemma {:induction false} PickShown(f: Row -> Row, rows: seq<Row>, c: Column, k: int)
    requires forall r :: r in rows ==> IntOf(r, c).Some? && IntOf(f(r), c) == IntOf(r, c)
    ensures PickBy(RowKeys(Map(f, rows), c), Map(f, rows), k) == Map(f, Filter(KeyIs(c, k), rows))
  {
    if rows != [] {
      var shown := Map(f, rows);
      PickFront(RowKeys(shown, c), shown, k);
      assert RowKeys(shown, c)[1..] == RowKeys(shown[1..], c);
      assert shown[1..] == Map(f, rows[1..]);
      PickShown(f, rows[1..], c, k);
      assert shown[0] == f(rows[0]) && rows[0] in rows;
      var rest := Filter(KeyIs(c, k), rows[1..]);
      assert ([rows[0]] + rest)[1..] == rest;
    }
  }

  /** A batch returns no neighbour with a key that was not asked for. */
  lemma {:induction false} LeafKnown(table: seq<Row>, q: LeafTree, c: Column, ids: seq<int>)
    requires Unlimited(q.ctx)
    requires q.ctx.fields == [] || c.ID? || c in q.ctx.fields
    ensures KnownKeys(RowKeys(LeafRows(table, q.Where(In(c, ids))), c), ids)
  {
    var rows := Select(table, q.preds + [In(c, ids)], q.order);
    SelectedHave(table, q.preds, q.order, c, ids);
    forall i | 0 <= i < |rows|
      ensures IntOf(Project(q.ctx.fields, rows[i]), c) == IntOf(rows[i], c) && IntOf(rows[i], c).value in ids
    {
      assert rows[i] in rows;
    }
  }

  /** The neighbours of one key, found by its own query, are the batch's neighbours picked by that key. */
  lemma {:induction false} LeafLocal(table: seq<Row>, q: LeafTree, c: Column, ids: seq<int>, k: int)
    requires Unlimited(q.ctx) && k in ids
    requires q.ctx.fields == [] || c.ID? || c in q.ctx.fields
    ensures var nbs := LeafRows(table, q.Where(In(c, ids)));
            PickBy(RowKeys(nbs, c), nbs, k) == LeafRows(table, q.Where(In(c, [k])))
  {
    var rows := Select(table, q.preds + [In(c, ids)], q.order);
    SelectedHave(table, q.preds, q.order, c, ids);
    PickShown(Shown(q.ctx.fields), rows, c, k);
    SelectLocal(table, q.preds, q.order, c, ids, k);
  }

  lemma {:induction false} OwnedLocal(table: seq<Row>, q: Option<LeafTree>, ids: seq<int>)
    requires LeafUnlimited(q) && Distinct(ids)
    ensures var lists := OwnedLists(table, q, ids);
            lists.Some? && forall i :: 0 <= i < |ids| ==> lists.value[i] == NaiveOwned(table, q, ids[i])
  {
    if q.Some? {
      LeafKnown(table, q.value.WithField(ACCOUNT_ID), ACCOUNT_ID, ids);
      forall i | 0 <= i < |ids|
        ensures IsLast(ids, i) && OwnedLists(table, q, ids).value[i] == NaiveOwned(table, q, ids[i])
      {
        LeafLocal(table, q.value.WithField(ACCOUNT_ID), ACCOUNT_ID, ids, ids[i]);
      }
    }
  }

  lemma {:induction false} ProxyLocal(db: Database, q: Option<LeafTree>, fks: seq<Option<int>>)
    requires LeafUnlimited(q)
    ensures var picks := ProxyPicks(db, q, fks);
            picks.Some? && forall i :: 0 <= i < |fks| ==> picks.value[i] == NaiveProxy(db, q, fks[i])
  {
    var ids := FirstSeen(fks);
    if q.Some? {
      LeafKnown(db.proxies, q.value, ID, ids);
      forall i | 0 <= i < |fks| ensures ProxyPicks(db, q, fks).value[i] == NaiveProxy(db, q, fks[i]) {
        assert fks[i] in fks;
        if fks[i].Some? {
          LeafLocal(db.proxies, q.value, ID, ids, fks[i].value);
        }
      }
    }
  }

  // ---------------------------------------------------------------- groups

  lemma {:induction false} FirstGroupsAppend(a: seq<(int, Row)>, b: seq<(int, Row)>)
    requires GroupIds(a) !! GroupIds(b)
    ensures FirstGroups(a + b) == FirstGroups(a) + FirstGroups(b)
    decreases |b|
  {
    if b == [] {
      assert a + b == a;
    } else {
      var n := |b| - 1;
      assert (a + b)[..|a + b| - 1] == a + b[..n];
      assert (a + b)[|a + b| - 1] == b[n];
      assert GroupIds(b[..n]) <= GroupIds(b) by {
        forall k | k in GroupIds(b[..n]) ensures k in GroupIds(b) {
          var i :| 0 <= i < n && IntOrZero(b[..n][i].1, ID) == k;
          assert b[i] == b[..n][i];
        }
      }
      FirstGroupsAppend(a, b[..n]);
      IdsAppend(a, b[..n]);
      assert IntOrZero(b[n].1, ID) in GroupIds(b);
    }
  }

  lemma {:induction false} IdsAppend(a: seq<(int, Row)>, b: seq<(int, Row)>)
    ensures GroupIds(a + b) == GroupIds(a) + GroupIds(b)
  {
    forall k | k in GroupIds(a) ensures k in GroupIds(a + b) {
      var i :| 0 <= i < |a| && IntOrZero(a[i].1, ID) == k;
      assert (a + b)[i] == a[i];
    }
    forall k | k in GroupIds(b) ensures k in GroupIds(a + b) {
      var i :| 0 <= i < |b| && IntOrZero(b[i].1, ID) == k;
      assert (a + b)[|a| + i] == b[i];
    }
    forall k | k in GroupIds(a + b) ensures k in GroupIds(a) + GroupIds(b) {
      var i :| 0 <= i < |a + b| && IntOrZero((a + b)[i].1, ID) == k;
      assert (a + b)[i] == if i < |a| then a[i] else b[i - |a|];
    }
  }

  /** The rows one group contributes: its own row, once per link to a wanted account. */
  lemma {:induction false} MatchesOf(links: seq<Row>, group: Row, shown: Row, ids: seq<int>)
    ensures forall m :: m in Matches(links, group, shown, ids) ==> m.1 == shown && m.0 in ids
    ensures forall a :: (a, shown) in Matches(links, group, shown, ids) <==> a in ids && HasLink(links, [a], group)
  {
    if links != [] {
      MatchesOf(links[1..], group, shown, ids);
      forall a ensures HasLink(links, [a], group) <==>
          (Linked(links[0], group) && IntOrZero(links[0], ACCOUNT_ID) == a) || HasLink(links[1..], [a], group) {
        HasLinkCons(links, [a], group);
      }
    }
  }

  lemma {:induction false} HasLinkCons(links: seq<Row>, ids: seq<int>, group: Row)
    requires links != []
    ensures HasLink(links, ids, group) <==>
            (Linked(links[0], group) && IntOrZero(links[0], ACCOUNT_ID) in ids) || HasLink(links[1..], ids, group)
  {
    if HasLink(links, ids, group) {
      var i :| 0 <= i < |links| && Linked(links[i], group) && IntOrZero(links[i], ACCOUNT_ID) in ids;
      if i > 0 { assert links[1..][i - 1] == links[i]; }
    }
    if HasLink(links[1..], ids, group) {
      var i :| 0 <= i < |links| - 1 && Linked(links[1..][i], group) && IntOrZero(links[1..][i], ACCOUNT_ID) in ids;
      assert links[i + 1] == links[1..][i];
    }
  }

  lemma {:induction false} FirstOfSame(rows: seq<(int, Row)>, shown: Row)
    requires forall m :: m in rows ==> m.1 == shown
    ensures FirstGroups(rows) == if rows == [] then [] else [shown]
    decreases |rows|
  {
    if rows != [] {
      var n := |rows| - 1;
      FirstOfSame(rows[..n], shown);
      assert rows[n] in rows;
      if n > 0 {
        assert rows[..n][0] in rows && rows[..n][0].1 == shown;
        assert IntOrZero(shown, ID) in GroupIds(rows[..n]);
      }
    }
  }

  /** A group contributes rows exactly when some wanted account is linked to it. */
  lemma {:induction false} MatchesSome(links: seq<Row>, group: Row, shown: Row, ids: seq<int>)
    ensures Matches(links, group, shown, ids) != [] <==> HasLink(links, ids, group)
    decreases |links|
  {
    if links != [] {
      MatchesSome(links[1..], group, shown, ids);
      HasLinkCons(links, ids, group);
    }
  }

  ghost predicate DistinctGroups(groups: seq<Row>) {
    forall i, j :: 0 <= i < j < |groups| ==> IntOrZero(groups[i], ID) != IntOrZero(groups[j], ID)
  }

  lemma {:induction false} ShownId(fields: seq<Column>, row: Row)
    ensures IntOrZero(Project(fields, row), ID) == IntOrZero(row, ID)
  {
  }

  lemma {:induction false} JoinIds(links: seq<Row>, groups: seq<Row>, fields: seq<Column>, ids: seq<int>)
    ensures forall k :: k in GroupIds(Join(links, groups, fields, ids)) ==>
      exists g :: g in groups && IntOrZero(g, ID) == k
  {
    if groups != [] {
      var g, head, tail := groups[0], Matches(links, groups[0], Project(fields, groups[0]), ids),
                           Join(links, groups[1..], fields, ids);
      JoinIds(links, groups[1..], fields, ids);
      MatchesOf(links, g, Project(fields, g), ids);
      ShownId(fields, g);
      IdsAppend(head, tail);
      forall k | k in GroupIds(head) ensures k == IntOrZero(g, ID) {
        var i :| 0 <= i < |head| && IntOrZero(head[i].1, ID) == k;
        assert head[i] in head;
      }
    }
  }

  /** First appearances among the join rows: the linked groups, once each, in query order. */
  lemma {:induction false} FirstOfJoin(links: seq<Row>, groups: seq<Row>, fields: seq<Column>, ids: seq<int>)
    requires DistinctGroups(groups)
    ensures FirstGroups(Join(links, groups, fields, ids)) == Map(Shown(fields), Filter(LinkedTo(links, ids), groups))
  {
    if groups != [] {
      var g, shown := groups[0], Project(fields, groups[0]);
      var head, tail := Matches(links, g, shown, ids), Join(links, groups[1..], fields, ids);
      MatchesOf(links, g, shown, ids);
      MatchesSome(links, g, shown, ids);
      JoinIds(links, groups[1..], fields, ids);
      ShownId(fields, g);
      assert GroupIds(head) !! GroupIds(tail) by {
        forall k | k in GroupIds(head) ensures k !in GroupIds(tail) {
          var i :| 0 <= i < |head| && IntOrZero(head[i].1, ID) == k;
          assert head[i] in head;
          forall h | h in groups[1..] ensures IntOrZero(h, ID) != IntOrZero(g, ID) {
            OtherIds(groups, h);
          }
        }
      }
      FirstGroupsAppend(head, tail);
      FirstOfSame(head, shown);
      FirstOfJoin(links, groups[1..], fields, ids);
      var kept := Filter(LinkedTo(links, ids), groups[1..]);
      assert Map(Shown(fields), [g] + kept) == [shown] + Map(Shown(fields), kept) by {
        assert ([g] + kept)[1..] == kept;
      }
    }
  }

  lemma {:induction false} JoinedId(rows: seq<(int, Row)>, a: int, k: int)
    ensures Joined(rows, a, k) ==> k in GroupIds(rows)
  {
  }

  lemma {:induction false} OtherIds(groups: seq<Row>, g: Row)
    requires groups != [] && DistinctGroups(groups) && g in groups[1..]
    ensures IntOrZero(g, ID) != IntOrZero(groups[0], ID)
  {
    var j :| 0 <= j < |groups| - 1 && groups[1..][j] == g;
    assert groups[j + 1] == g;
  }

  lemma {:induction false} MatchesJoined(links: seq<Row>, group: Row, shown: Row, ids: seq<int>, a: int, k: int)
    requires IntOrZero(shown, ID) == IntOrZero(group, ID) && a in ids
    ensures Joined(Matches(links, group, shown, ids), a, k) <==> k == IntOrZero(group, ID) && HasLink(links, [a], group)
  {
    var rows := Matches(links, group, shown, ids);
    MatchesOf(links, group, shown, ids);
    forall i | 0 <= i < |rows| ensures rows[i].1 == shown {
      assert rows[i] in rows;
    }
    if HasLink(links, [a], group) {
      var i :| 0 <= i < |rows| && rows[i] == (a, shown);
    }
    if Joined(rows, a, k) {
      var i :| 0 <= i < |rows| && rows[i].0 == a && IntOrZero(rows[i].1, ID) == k;
      assert rows[i] == (a, shown);
    }
  }

  /** An account is joined to a group in the batch exactly when a link of its own leads there. */
  lemma {:induction false} JoinedIff(links: seq<Row>, groups: seq<Row>, fields: seq<Column>, ids: seq<int>,
                                     a: int, g: Row)
    requires DistinctGroups(groups) && a in ids && g in groups
    ensures Joined(Join(links, groups, fields, ids), a, IntOrZero(g, ID)) <==> HasLink(links, [a], g)
  {
    var h, shown, k := groups[0], Project(fields, groups[0]), IntOrZero(g, ID);
    var head, tail := Matches(links, h, shown, ids), Join(links, groups[1..], fields, ids);
    ShownId(fields, h);
    MatchesJoined(links, h, shown, ids, a, k);
    JoinedAppend(head, tail, a, k);
    JoinIds(links, groups[1..], fields, ids);
    JoinedId(tail, a, k);
    forall o | o in groups[1..] ensures IntOrZero(o, ID) != IntOrZero(h, ID) {
      OtherIds(groups, o);
    }
    if g in groups[1..] {
      JoinedIff(links, groups[1..], fields, ids, a, g);
    }
  }

  lemma {:induction false} JoinedAppend(a: seq<(int, Row)>, b: seq<(int, Row)>, account: int, group: int)
    ensures Joined(a + b, account, group) <==> Joined(a, account, group) || Joined(b, account, group)
  {
    if Joined(a, account, group) {
      var i :| 0 <= i < |a| && a[i].0 == account && IntOrZero(a[i].1, ID) == group;
      assert (a + b)[i] == a[i];
    }
    if Joined(b, account, group) {
      var i :| 0 <= i < |b| && b[i].0 == account && IntOrZero(b[i].1, ID) == group;
      assert (a + b)[|a| + i] == b[i];
    }
    if Joined(a + b, account, group) {
      var i :| 0 <= i < |a + b| && (a + b)[i].0 == account && IntOrZero((a + b)[i].1, ID) == group;
      assert (a + b)[i] == if i < |a| then a[i] else b[i - |a|];
    }
  }

  lemma {:induction false} SelectIds(table: seq<Row>, preds: seq<Pred>, order: Order)
    requires DistinctGroups(table)
    ensures DistinctGroups(Select(table, preds, order))
  {
    var rows := Select(table, preds, order);
    FilterDistinct(Meets(preds), table);
    SortDistinct(order, Filter(Meets(preds), table));
    forall i, j | 0 <= i < j < |rows| ensures IntOrZero(rows[i], ID) != IntOrZero(rows[j], ID) {
      assert rows[i] in rows && rows[j] in rows;
      var a :| 0 <= a < |table| && table[a] == rows[i];
      var b :| 0 <= b < |table| && table[b] == rows[j];
      assert a < b || b < a;
    }
  }

  /** Each account's groups, found through the shared batch, are the groups its own links lead to. */
  lemma {:induction false} GroupsLocal(db: Database, q: Option<LeafTree>, ids: seq<int>)
    requires DistinctGroups(db.groups) && LeafUnlimited(q) && Distinct(ids)
    ensures forall i :: 0 <= i < |ids| ==> GroupLists(db, q, ids)[i] == NaiveGroups(db, q, ids[i])
  {
    if q.Some? {
      var preds, fields := q.value.preds, q.value.ctx.fields;
      var gs := Select(db.groups, preds, q.value.order);
      forall r ensures Meets(preds + [JoinIn(ids)])(r) <==> Meets(preds)(r) {
        LastPred(preds, JoinIn(ids), r);
      }
      FilterSame(Meets(preds + [JoinIn(ids)]), Meets(preds), db.groups);
      SelectIds(db.groups, preds, q.value.order);
      var rows := Join(db.links, gs, fields, ids);
      assert JoinRows(db, q.value.Where(JoinIn(ids)), ids) == rows;
      FirstOfJoin(db.links, gs, fields, ids);
      forall i | 0 <= i < |ids| ensures GroupLists(db, q, ids)[i] == NaiveGroups(db, q, ids[i]) {
        GroupsOfOne(db.links, gs, fields, ids, ids[i]);
      }
    }
  }

  lemma {:induction false} GroupsOfOne(links: seq<Row>, gs: seq<Row>, fields: seq<Column>, ids: seq<int>, a: int)
    requires DistinctGroups(gs) && a in ids
    ensures Filter(JoinedTo(Join(links, gs, fields, ids), a), Map(Shown(fields), Filter(LinkedTo(links, ids), gs)))
            == Map(Shown(fields), Filter(LinkedTo(links, [a]), gs))
  {
    var rows := Join(links, gs, fields, ids);
    forall g | g in gs
      ensures JoinedTo(rows, a)(Shown(fields)(g)) <==> LinkedTo(links, [a])(g)
      ensures LinkedTo(links, [a])(g) ==> LinkedTo(links, ids)(g)
    {
      ShownId(fields, g);
      JoinedIff(links, gs, fields, ids, a, g);
    }
    FilterMap(Shown(fields), LinkedTo(links, [a]), JoinedTo(rows, a), Filter(LinkedTo(links, ids), gs));
    FilterFilter(LinkedTo(links, [a]), LinkedTo(links, ids), LinkedTo(links, [a]), gs);
  }

  // ---------------------------------------------------------------- columns

  predicate IdLeads(columns: seq<Column>) {
    columns != [] && columns[0].ID? && forall i :: 0 < i < |columns| ==> !columns[i].ID?
  }

  lemma {:induction false} AddOnceKeeps(columns: seq<Column>, c: Column)
    requires IdLeads(columns) && !c.ID?
    ensures var r := AddColumnOnce(columns, c);
            IdLeads(r) && forall d :: d in r <==> d == c || d in columns
  {
  }

  lemma {:induction false} BaseColumns(fields: seq<Column>)
    ensures var base := [ID] + Filter(NotId(), fields);
            IdLeads(base) && forall c :: c in base <==> c.ID? || c in fields
  {
    ConsLeads(Filter(NotId(), fields));
  }

  lemma {:induction false} ConsLeads(rest: seq<Column>)
    requires forall c :: c in rest ==> !c.ID?
    ensures IdLeads([ID] + rest)
    ensures forall c :: c in [ID] + rest <==> c.ID? || c in rest
  {
    InCons(ID, rest);
    forall i | 0 < i <= |rest| ensures !([ID] + rest)[i].ID? {
      assert rest[i - 1] in rest;
    }
  }

  /** Whatever is selected, the id comes first and only once, and the columns are the id, the selected fields and
      every foreign key that a requested M2O edge reads. */
  lemma {:induction false} ColumnsComplete(fields: seq<Column>, proxy: bool, parent: bool)
    ensures IdLeads(NodeColumns(fields, proxy, parent))
    ensures forall c :: c in NodeColumns(fields, proxy, parent) <==>
      if fields == [] then ValidColumn(c)
      else c.ID? || c in fields || (proxy && c.ProxyID?) || (parent && c.ParentAccountID?)
  {
    if fields == [] {
      AllColumns();
    } else {
      var base := [ID] + Filter(NotId(), fields);
      BaseColumns(fields);
      var withProxy := if proxy then AddColumnOnce(base, ProxyID) else base;
      AddOnceKeeps(base, ProxyID);
      AddOnceKeeps(withProxy, ParentAccountID);
    }
  }
}

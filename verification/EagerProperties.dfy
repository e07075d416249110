/** What follows for a loaded graph: exact edge accessors, conservation of children, groups without repetition, and
    independence of the column selection. */
module EagerProperties {
  import opened Collections
  import opened AccountEntity
  import opened EagerSpec
  import opened EagerJoin
  import opened EagerRefinement

  // ---------------------------------------------------------------- the edge accessors

  /** An edge accessor's answer. */
  datatype Edge<+T> = Found(value: T) | NotFound | NotLoaded

  function GroupsOrErr(t: AccountTree): Edge<seq<Row>>
    requires |t.loaded| == 6
  {
    if t.loaded[0] then Found(t.groups) else NotLoaded
  }

  function ProxyOrErr(t: AccountTree): Edge<Row>
    requires |t.loaded| == 6
  {
    if t.proxy.Some? then Found(t.proxy.value) else if t.loaded[1] then NotFound else NotLoaded
  }

  function ParentOrErr(t: AccountTree): Edge<AccountTree>
    requires |t.loaded| == 6
  {
    if t.parent.Some? then Found(t.parent.value) else if t.loaded[2] then NotFound else NotLoaded
  }

  function ChildrenOrErr(t: AccountTree): Edge<seq<AccountTree>>
    requires |t.loaded| == 6
  {
    if t.loaded[3] then Found(t.children) else NotLoaded
  }

  function UsageLogsOrErr(t: AccountTree): Edge<seq<Row>>
    requires |t.loaded| == 6
  {
    if t.loaded[4] then Found(t.usageLogs) else NotLoaded
  }

  function AccountGroupsOrErr(t: AccountTree): Edge<seq<Row>>
    requires |t.loaded| == 6
  {
    if t.loaded[5] then Found(t.accountGroups) else NotLoaded
  }

  /** Some row of the table has this id and meets the predicates. */
  ghost predicate Target(table: seq<Row>, preds: seq<Pred>, id: int) {
    exists r :: r in table && IntOf(r, ID) == Some(id) && AllHold(preds, r)
  }

  lemma {:induction false} SelectTarget(table: seq<Row>, preds: seq<Pred>, order: Order, id: int)
    ensures Select(table, preds + [In(ID, [id])], order) == [] <==> !Target(table, preds, id)
  {
    var rows := Select(table, preds + [In(ID, [id])], order);
    SelectedHave(table, preds, order, ID, [id]);
    forall r ensures r in rows <==> r in table && IntOf(r, ID) == Some(id) && AllHold(preds, r) {
      LastPred(preds, In(ID, [id]), r);
    }
    if rows != [] {
      assert rows[0] in rows;
    }
  }

  lemma {:induction false} ProxyTarget(db: Database, p: LeafTree, id: int)
    requires Unlimited(p.ctx)
    ensures NaiveProxy(db, Some(p), Some(id)).Some? <==> Target(db.proxies, p.preds, id)
    ensures NaiveProxy(db, Some(p), Some(id)).Some? ==> IntOrZero(NaiveProxy(db, Some(p), Some(id)).value, ID) == id
  {
    var rows := Select(db.proxies, p.preds + [In(ID, [id])], p.order);
    SelectTarget(db.proxies, p.preds, p.order, id);
    SelectedHave(db.proxies, p.preds, p.order, ID, [id]);
    if rows != [] {
      assert rows[|rows| - 1] in rows;
      ShownId(p.ctx.fields, rows[|rows| - 1]);
    }
  }

  /** The proxy accessor after a load: not-loaded exactly when the edge was not requested, otherwise found exactly when
      the foreign key is set and its target row passes the edge query. */
  lemma {:induction false} ProxyExact(db: Database, q: QueryTree, row: Row, t: AccountTree)
    requires NodeOf(db, q)(row) == Some(t) && LeafUnlimited(q.proxy)
    ensures |t.loaded| == 6
    ensures ProxyOrErr(t).NotLoaded? <==> q.proxy.None?
    ensures ProxyOrErr(t).Found? <==>
      q.proxy.Some? && IntOf(row, ProxyID).Some? && Target(db.proxies, q.proxy.value.preds, IntOf(row, ProxyID).value)
    ensures ProxyOrErr(t).Found? ==> IntOrZero(ProxyOrErr(t).value, ID) == IntOf(row, ProxyID).value
  {
    NodeFacts(db, q, row, t);
    if q.proxy.Some? && IntOf(row, ProxyID).Some? {
      ProxyTarget(db, q.proxy.value, IntOf(row, ProxyID).value);
    }
  }

  /** The same for the parent, whose own graph is the naive one of the parent query. */
  lemma {:induction false} ParentExact(db: Database, q: QueryTree, row: Row, t: AccountTree)
    requires Sound(db) && NodeOf(db, q)(row) == Some(t) && (q.parent.Some? ==> Unlimited(q.parent.value.ctx))
    ensures |t.loaded| == 6
    ensures ParentOrErr(t).NotLoaded? <==> q.parent.None?
    ensures ParentOrErr(t).Found? <==>
      q.parent.Some? && IntOf(row, ParentAccountID).Some?
      && Target(db.accounts, q.parent.value.preds, IntOf(row, ParentAccountID).value)
    ensures ParentOrErr(t).Found? ==> ParentOrErr(t).value.entity.Id() == IntOf(row, ParentAccountID).value
  {
    NodeFacts(db, q, row, t);
    ParentFacts(db, q.parent, IntOf(row, ParentAccountID));
    if q.parent.Some? && IntOf(row, ParentAccountID).Some? {
      var id := IntOf(row, ParentAccountID).value;
      var p := q.parent.value.Where(In(ID, [id]));
      var rows := Select(db.accounts, p.preds, p.order);
      assert AccountRows(db, p) == rows;
      SelectTarget(db.accounts, q.parent.value.preds, p.order, id);
      SelectedHave(db.accounts, q.parent.value.preds, p.order, ID, [id]);
      ParentTrees(db, p, rows, id);
    }
  }

  lemma {:induction false} NodeFacts(db: Database, q: QueryTree, row: Row, t: AccountTree)
    requires NodeOf(db, q)(row) == Some(t)
    ensures t.loaded == q.Loaded() && t.proxy == NaiveProxy(db, q.proxy, IntOf(row, ProxyID))
    ensures NaiveParent(db, q.parent, IntOf(row, ParentAccountID)) == Some(t.parent)
  {
  }

  lemma {:induction false} ParentFacts(db: Database, q: Option<QueryTree>, fk: Option<int>)
    ensures q.None? || fk.None? ==> NaiveParent(db, q, fk) == Some(None)
    ensures q.Some? && fk.Some? ==> NaiveParent(db, q, fk) == LastLoaded(Naive(db, q.value.Where(In(ID, [fk.value]))))
  {
  }

  lemma {:induction false} ParentTrees(db: Database, p: QueryTree, rows: seq<Row>, id: int)
    requires Sound(db) && rows == AccountRows(db, p) && Naive(db, p).Some?
    requires forall r :: r in rows ==> r in db.accounts && IntOf(r, ID) == Some(id)
    ensures |Naive(db, p).value| == |rows| && forall u :: u in Naive(db, p).value ==> u.entity.Id() == id
  {
    TreesWithId(db, p, rows, Naive(db, p).value, id);
  }

  lemma {:induction false} TreesWithId(db: Database, p: QueryTree, rows: seq<Row>, ts: seq<AccountTree>, id: int)
    requires Sound(db) && rows == AccountRows(db, p) && Naive(db, p) == Some(ts)
    requires forall r :: r in rows ==> r in db.accounts && IntOf(r, ID) == Some(id)
    ensures |ts| == |rows| && forall u :: u in ts ==> u.entity.Id() == id
  {
    TreeKeys(db, p, rows, ts, ID);
    forall u | u in ts ensures u.entity.Id() == id {
      var i :| 0 <= i < |ts| && ts[i] == u;
      assert rows[i] in rows && TreeKeysOf(ts, ID)[i] == IntOf(rows[i], ID);
    }
  }

  lemma {:induction false} NodeRequested(db: Database, q: QueryTree, row: Row, t: AccountTree)
    requires NodeOf(db, q)(row) == Some(t)
    ensures |t.loaded| == 6
    ensures GroupsOrErr(t).NotLoaded? <==> q.groups.None?
    ensures ChildrenOrErr(t).NotLoaded? <==> q.children.None?
    ensures UsageLogsOrErr(t).NotLoaded? <==> q.usageLogs.None?
    ensures AccountGroupsOrErr(t).NotLoaded? <==> q.accountGroups.None?
  {
    NodeFacts(db, q, row, t);
  }

  /** Every node of a successful load answers proxy and parent exactly, and every accessor knows what was requested. */
  lemma {:induction false} AccessorsAfterLoad(db: Database, q: QueryTree, ts: seq<AccountTree>, i: nat)
    requires Sound(db) && EdgesUnlimited(q) && Batched(db, q) == Some(ts) && i < |ts|
    ensures |ts| == |AccountRows(db, q)| && |ts[i].loaded| == 6
    ensures var row, t := AccountRows(db, q)[i], ts[i];
            && (ProxyOrErr(t).NotLoaded? <==> q.proxy.None?)
            && (ProxyOrErr(t).Found? <==>
                 q.proxy.Some? && IntOf(row, ProxyID).Some?
                 && Target(db.proxies, q.proxy.value.preds, IntOf(row, ProxyID).value))
            && (ParentOrErr(t).NotLoaded? <==> q.parent.None?)
            && (ParentOrErr(t).Found? <==>
                 q.parent.Some? && IntOf(row, ParentAccountID).Some?
                 && Target(db.accounts, q.parent.value.preds, IntOf(row, ParentAccountID).value))
            && (ChildrenOrErr(t).NotLoaded? <==> q.children.None?)
            && (GroupsOrErr(t).NotLoaded? <==> q.groups.None?)
            && (UsageLogsOrErr(t).NotLoaded? <==> q.usageLogs.None?)
            && (AccountGroupsOrErr(t).NotLoaded? <==> q.accountGroups.None?)
  {
    BatchedIsNaive(db, q);
    var row := AccountRows(db, q)[i];
    assert NodeOf(db, q)(row) == Some(ts[i]);
    NodeRequested(db, q, row, ts[i]);
    ProxyExact(db, q, row, ts[i]);
    ParentExact(db, q, row, ts[i]);
  }

  /** The rows of a table that meet the query's predicates and belong to this account, in the query's order. */
  function RowsOwned(table: seq<Row>, q: LeafTree, id: int): seq<Row> {
    Map(Shown(AppendFieldOnce(q.ctx, Other("account_id")).fields), Sort(q.order, Filter(OwnedBy(q.preds, id), table)))
  }

  function OwnedBy(preds: seq<Pred>, id: int): Row -> bool {
    row => AllHold(preds, row) && IntOf(row, Other("account_id")) == Some(id)
  }

  /** The groups that meet the query's predicates and that some account-group entry links to this account. */
  function GroupsLinked(db: Database, q: LeafTree, id: int): seq<Row> {
    Map(Shown(q.ctx.fields), Filter(LinkedBy(db.links, id), Select(db.groups, q.preds, q.order)))
  }

  predicate LinkTo(link: Row, id: int, group: Row) {
    IntOrZero(link, Other("account_id")) == id && IntOrZero(link, Other("group_id")) == IntOrZero(group, ID)
  }

  function LinkedBy(links: seq<Row>, id: int): Row -> bool {
    group => exists i :: 0 <= i < |links| && LinkTo(links[i], id, group)
  }

  lemma {:induction false} RowsOwnedAre(table: seq<Row>, q: LeafTree, id: int)
    requires Unlimited(q.ctx)
    ensures NaiveOwned(table, Some(q), id) == RowsOwned(table, q, id)
  {
    var preds := q.preds + [In(ACCOUNT_ID, [id])];
    forall row ensures Meets(preds)(row) == OwnedBy(q.preds, id)(row) {
      LastPred(q.preds, In(ACCOUNT_ID, [id]), row);
    }
    FilterSame(Meets(preds), OwnedBy(q.preds, id), table);
  }

  lemma {:induction false} GroupsLinkedAre(db: Database, q: LeafTree, id: int)
    ensures NaiveGroups(db, Some(q), id) == GroupsLinked(db, q, id)
  {
    forall group ensures LinkedTo(db.links, [id])(group) == LinkedBy(db.links, id)(group) {
      forall i | 0 <= i < |db.links|
        ensures LinkTo(db.links[i], id, group)
            <==> Linked(db.links[i], group) && IntOrZero(db.links[i], ACCOUNT_ID) in [id]
      {
      }
    }
    FilterSame(LinkedTo(db.links, [id]), LinkedBy(db.links, id), Select(db.groups, q.preds, q.order));
  }

  /** The children of an account: the loads, in the query's order, of the accounts that name it as their parent. */
  ghost predicate ChildrenLoaded(db: Database, q: QueryTree, id: int, ts: seq<AccountTree>) {
    var rows := Sort(q.order, Filter(ChildOf(q.preds, id), db.accounts));
    |ts| == |rows| && forall j :: 0 <= j < |rows| ==>
      NaiveNode(db, q.WithField(ParentAccountID), rows[j]) == Some(ts[j]) && ts[j].entity.Id() == IntOrZero(rows[j], ID)
  }

  function ChildOf(preds: seq<Pred>, id: int): Row -> bool {
    row => AllHold(preds, row) && IntOf(row, ParentAccountID) == Some(id)
  }

  lemma {:induction false} ChildrenLoadedAre(db: Database, q: QueryTree, id: int)
    requires Sound(db) && Unlimited(q.ctx) && NaiveChildren(db, Some(q), id).Some?
    ensures ChildrenLoaded(db, q, id, NaiveChildren(db, Some(q), id).value)
  {
    var c := ChildQuery(q, [id]);
    var preds := q.preds + [In(ParentAccountID, [id])];
    forall row ensures Meets(preds)(row) == ChildOf(q.preds, id)(row) {
      LastPred(q.preds, In(ParentAccountID, [id]), row);
    }
    FilterSame(Meets(preds), ChildOf(q.preds, id), db.accounts);
    var rows, ts := AccountRows(db, c), NaiveChildren(db, Some(q), id).value;
    assert rows == Sort(q.order, Filter(ChildOf(q.preds, id), db.accounts));
    QueryRows(db, c);
    forall j | 0 <= j < |rows|
      ensures NaiveNode(db, q.WithField(ParentAccountID), rows[j]) == Some(ts[j])
      ensures ts[j].entity.Id() == IntOrZero(rows[j], ID)
    {
      assert NodeOf(db, c)(rows[j]) == Some(ts[j]);
      NodeScanned(db, c, rows[j], ts[j]);
      NodeKeyed(db, c, rows[j], ts[j].entity);
      SameNode(db, q.WithField(ParentAccountID), In(ParentAccountID, [id]), rows[j]);
    }
  }

  lemma {:induction false} SameNode(db: Database, q: QueryTree, p: Pred, row: Row)
    ensures NaiveNode(db, q.Where(p), row) == NaiveNode(db, q, row)
  {
  }

  /** The list accessors of one node. */
  ghost predicate ListsExact(db: Database, q: QueryTree, id: int, t: AccountTree)
    requires |t.loaded| == 6
  {
    && GroupsOrErr(t) == (if q.groups.None? then NotLoaded else Found(GroupsLinked(db, q.groups.value, id)))
    && UsageLogsOrErr(t)
       == (if q.usageLogs.None? then NotLoaded else Found(RowsOwned(db.usageLogs, q.usageLogs.value, id)))
    && AccountGroupsOrErr(t)
       == (if q.accountGroups.None? then NotLoaded else Found(RowsOwned(db.links, q.accountGroups.value, id)))
    && (if q.children.None? then ChildrenOrErr(t).NotLoaded?
        else ChildrenOrErr(t).Found? && ChildrenLoaded(db, q.children.value, id, ChildrenOrErr(t).value))
  }

  lemma {:induction false} NodeLists(db: Database, q: QueryTree, row: Row, t: AccountTree)
    requires Sound(db) && EdgesUnlimited(q) && NodeOf(db, q)(row) == Some(t)
    ensures |t.loaded| == 6 && ListsExact(db, q, IntOrZero(row, ID), t)
  {
    var id := IntOrZero(row, ID);
    ListFacts(db, q, row, t);
    NodeLeaves(db, q, id);
    if q.children.Some? { ChildrenLoadedAre(db, q.children.value, id); }
  }

  lemma {:induction false} NodeLeaves(db: Database, q: QueryTree, id: int)
    requires LeafUnlimited(q.usageLogs) && LeafUnlimited(q.accountGroups)
    ensures q.groups.Some? ==> NaiveGroups(db, q.groups, id) == GroupsLinked(db, q.groups.value, id)
    ensures q.usageLogs.Some? ==>
      NaiveOwned(db.usageLogs, q.usageLogs, id) == RowsOwned(db.usageLogs, q.usageLogs.value, id)
    ensures q.accountGroups.Some? ==>
      NaiveOwned(db.links, q.accountGroups, id) == RowsOwned(db.links, q.accountGroups.value, id)
  {
    if q.groups.Some? { GroupsLinkedAre(db, q.groups.value, id); }
    if q.usageLogs.Some? { RowsOwnedAre(db.usageLogs, q.usageLogs.value, id); }
    if q.accountGroups.Some? { RowsOwnedAre(db.links, q.accountGroups.value, id); }
  }

  /** What the four list accessors answer after a load: not-loaded exactly when the edge was not requested, otherwise
      the rows of the account, said of the tables themselves. */
  lemma {:induction false} ListsAfterLoad(db: Database, q: QueryTree, ts: seq<AccountTree>, i: nat)
    requires Sound(db) && EdgesUnlimited(q) && Batched(db, q) == Some(ts) && i < |ts|
    ensures |ts| == |AccountRows(db, q)| && |ts[i].loaded| == 6
    ensures ts[i].entity.Id() == IntOrZero(AccountRows(db, q)[i], ID)
    ensures ListsExact(db, q, ts[i].entity.Id(), ts[i])
  {
    BatchedIsNaive(db, q);
    QueryRows(db, q);
    var row := AccountRows(db, q)[i];
    assert row in AccountRows(db, q) && NodeOf(db, q)(row) == Some(ts[i]);
    NodeScanned(db, q, row, ts[i]);
    NodeKeyed(db, q, row, ts[i].entity);
    NodeLists(db, q, row, ts[i]);
  }

  lemma {:induction false} ListFacts(db: Database, q: QueryTree, row: Row, t: AccountTree)
    requires NodeOf(db, q)(row) == Some(t)
    ensures t.loaded == q.Loaded() && NaiveChildren(db, q.children, IntOrZero(row, ID)) == Some(t.children)
    ensures t.groups == NaiveGroups(db, q.groups, IntOrZero(row, ID))
    ensures t.usageLogs == NaiveOwned(db.usageLogs, q.usageLogs, IntOrZero(row, ID))
    ensures t.accountGroups == NaiveOwned(db.links, q.accountGroups, IntOrZero(row, ID))
  {
  }

  // ---------------------------------------------------------------- children

  /** All returned children are dealt out, each to exactly one node; a nil or unknown parent key fails the load. */
  lemma {:induction false} ChildrenConserved(loaded: seq<AccountTree>, ids: seq<int>)
    ensures ListsFrom(Some(loaded), ids).Some? <==>
      forall i :: 0 <= i < |loaded| ==>
        var fk := loaded[i].entity.ForeignKey(ParentAccountID); fk.Some? && fk.value in ids
    ensures ListsFrom(Some(loaded), ids).Some? ==> TotalLength(ListsFrom(Some(loaded), ids).value) == |loaded|
  {
    var keys := TreeParents(loaded);
    assert KnownKeys(keys, ids) <==> forall i :: 0 <= i < |loaded| ==>
      var fk := loaded[i].entity.ForeignKey(ParentAccountID); fk.Some? && fk.value in ids by {
      assert forall i :: 0 <= i < |loaded| ==> keys[i] == loaded[i].entity.ForeignKey(ParentAccountID);
    }
    if KnownKeys(keys, ids) {
      DealConserves(ids, keys, loaded);
    }
  }

  // ---------------------------------------------------------------- groups

  /** Among any join rows, each group is kept once, at its first appearance. */
  lemma {:induction false} FirstGroupsExact(rows: seq<(int, Row)>)
    ensures DistinctGroups(FirstGroups(rows))
    ensures forall k :: k in GroupIds(rows) <==> exists g :: g in FirstGroups(rows) && IntOrZero(g, ID) == k
    ensures forall n :: 0 <= n <= |rows| ==> FirstGroups(rows[..n]) <= FirstGroups(rows)
  {
    if rows == [] {
    } else {
      var n := |rows| - 1;
      var before, last := FirstGroups(rows[..n]), rows[n].1;
      FirstGroupsExact(rows[..n]);
      assert GroupIds(rows) == GroupIds(rows[..n]) + {IntOrZero(last, ID)} by { IdsOfLast(rows); }
      if IntOrZero(last, ID) !in GroupIds(rows[..n]) {
        assert FirstGroups(rows) == before + [last];
        assert last in FirstGroups(rows);
      }
      forall m | 0 <= m <= |rows| ensures FirstGroups(rows[..m]) <= FirstGroups(rows) {
        if m <= n {
          assert rows[..n][..m] == rows[..m];
        } else {
          assert rows[..m] == rows;
        }
      }
    }
  }

  lemma {:induction false} IdsOfLast(rows: seq<(int, Row)>)
    requires rows != []
    ensures GroupIds(rows) == GroupIds(rows[..|rows| - 1]) + {IntOrZero(rows[|rows| - 1].1, ID)}
  {
    var front := rows[..|rows| - 1];
    forall k | k in GroupIds(front) ensures k in GroupIds(rows) {
      var i :| 0 <= i < |front| && IntOrZero(front[i].1, ID) == k;
      assert rows[i] == front[i];
    }
    forall k | k in GroupIds(rows) ensures k in GroupIds(front) + {IntOrZero(rows[|rows| - 1].1, ID)} {
      var i :| 0 <= i < |rows| && IntOrZero(rows[i].1, ID) == k;
      if i < |front| { assert rows[i] == front[i]; }
    }
  }

  /** Some join row of g comes before every join row of h. */
  ghost predicate Earlier(rows: seq<(int, Row)>, g: Row, h: Row) {
    exists p :: 0 <= p < |rows| && IntOrZero(rows[p].1, ID) == IntOrZero(g, ID)
                && forall q :: 0 <= q <= p ==> IntOrZero(rows[q].1, ID) != IntOrZero(h, ID)
  }

  ghost predicate InOrder(rows: seq<(int, Row)>, gs: seq<Row>) {
    forall a, b :: 0 <= a < b < |gs| ==> Earlier(rows, gs[a], gs[b])
  }

  lemma {:induction false} EarlierStays(rows: seq<(int, Row)>, g: Row, h: Row)
    requires rows != [] && Earlier(rows[..|rows| - 1], g, h)
    ensures Earlier(rows, g, h)
  {
    var front := rows[..|rows| - 1];
    var p :| 0 <= p < |front| && IntOrZero(front[p].1, ID) == IntOrZero(g, ID)
             && forall q :: 0 <= q <= p ==> IntOrZero(front[q].1, ID) != IntOrZero(h, ID);
    assert forall q :: 0 <= q <= p ==> rows[q] == front[q];
  }

  lemma {:induction false} NewIsLater(rows: seq<(int, Row)>, g: Row)
    requires rows != [] && IntOrZero(g, ID) in GroupIds(rows[..|rows| - 1])
    requires IntOrZero(rows[|rows| - 1].1, ID) !in GroupIds(rows[..|rows| - 1])
    ensures Earlier(rows, g, rows[|rows| - 1].1)
  {
    var front := rows[..|rows| - 1];
    var p :| 0 <= p < |front| && IntOrZero(front[p].1, ID) == IntOrZero(g, ID);
    assert rows[p] == front[p];
    forall q | 0 <= q <= p ensures IntOrZero(rows[q].1, ID) != IntOrZero(rows[|rows| - 1].1, ID) {
      assert rows[q] == front[q];
      assert IntOrZero(front[q].1, ID) in GroupIds(front);
    }
  }

  lemma {:induction false} FirstGroupsInOrder(rows: seq<(int, Row)>)
    ensures InOrder(rows, FirstGroups(rows))
  {
    if rows != [] {
      var n := |rows| - 1;
      var before, gs := FirstGroups(rows[..n]), FirstGroups(rows);
      FirstGroupsInOrder(rows[..n]);
      FirstGroupsExact(rows[..n]);
      forall a, b | 0 <= a < b < |gs| ensures Earlier(rows, gs[a], gs[b]) {
        if b < |before| {
          EarlierStays(rows, gs[a], gs[b]);
        } else {
          assert gs[a] in before;
          NewIsLater(rows, gs[a]);
        }
      }
    }
  }

  lemma {:induction false} FilterInOrder(rows: seq<(int, Row)>, p: Row -> bool, gs: seq<Row>)
    requires InOrder(rows, gs)
    ensures InOrder(rows, Filter(p, gs))
  {
    if gs != [] {
      var rest := Filter(p, gs[1..]);
      FilterInOrder(rows, p, gs[1..]);
      forall b | 0 <= b < |rest| ensures Earlier(rows, gs[0], rest[b]) {
        assert rest[b] in gs[1..];
        var c :| 0 <= c < |gs[1..]| && gs[1..][c] == rest[b];
        assert gs[c + 1] == rest[b];
      }
    }
  }

  /** Whatever the join rows and however often they repeat, an account ends with exactly the groups joined to it, none
      twice, ordered by first appearance. */
  lemma {:induction false} GroupsExact(rows: seq<(int, Row)>, ids: seq<int>, i: nat)
    requires i < |ids| && IsLast(ids, i)
    ensures var gs := DealGroups(rows, ids)[i];
            && DistinctGroups(gs)
            && (forall k :: (exists g :: g in gs && IntOrZero(g, ID) == k) <==> Joined(rows, ids[i], k))
            && InOrder(rows, gs)
  {
    var firsts, gs := FirstGroups(rows), DealGroups(rows, ids)[i];
    FirstGroupsExact(rows);
    FirstGroupsInOrder(rows);
    FilterInOrder(rows, JoinedTo(rows, ids[i]), firsts);
    FilterGroups(JoinedTo(rows, ids[i]), firsts);
    forall k | Joined(rows, ids[i], k) ensures exists g :: g in gs && IntOrZero(g, ID) == k {
      JoinedId(rows, ids[i], k);
      var g :| g in firsts && IntOrZero(g, ID) == k;
      assert g in gs;
    }
  }

  lemma {:induction false} FilterGroups(p: Row -> bool, groups: seq<Row>)
    requires DistinctGroups(groups)
    ensures DistinctGroups(Filter(p, groups))
  {
    if groups != [] {
      FilterGroups(p, groups[1..]);
      var rest := Filter(p, groups[1..]);
      forall j | 0 <= j < |rest| ensures IntOrZero(rest[j], ID) != IntOrZero(groups[0], ID) {
        assert rest[j] in rest;
        OtherIds(groups, rest[j]);
      }
    }
  }

  // ---------------------------------------------------------------- column selection

  /** The same query with another column selection at its root. */
  function Selecting(q: QueryTree, fields: seq<Column>): QueryTree {
    q.(ctx := q.ctx.(fields := fields))
  }

  /** The same edges and the same id. */
  predicate SameEdges(t: AccountTree, u: AccountTree) {
    t == u.(entity := t.entity) && t.entity.Id() == u.entity.Id()
  }

  lemma {:induction false} NodeSelecting(db: Database, q: QueryTree, fields: seq<Column>, row: Row)
    requires SchemaRow(row) && ValidFields(q.ctx.fields) && ValidFields(fields)
    requires NodeOf(db, q)(row).Some? && NodeOf(db, Selecting(q, fields))(row).Some?
    ensures SameEdges(NodeOf(db, q)(row).value, NodeOf(db, Selecting(q, fields))(row).value)
  {
    var p := Selecting(q, fields);
    NodeScanned(db, q, row, NodeOf(db, q)(row).value);
    NodeScanned(db, p, row, NodeOf(db, p)(row).value);
    NodeKeyed(db, q, row, NodeOf(db, q)(row).value.entity);
    NodeKeyed(db, p, row, NodeOf(db, p)(row).value.entity);
  }

  /** Selecting columns never changes the edges of a load: same nodes, same order, same edges. */
  lemma {:induction false} ProjectionTransparent(db: Database, q: QueryTree, fields: seq<Column>)
    requires Sound(db) && EdgesUnlimited(q)
    requires Batched(db, q).Some? && Batched(db, Selecting(q, fields)).Some?
    ensures var ts, us := Batched(db, q).value, Batched(db, Selecting(q, fields)).value;
            |ts| == |us| && forall i :: 0 <= i < |ts| ==> SameEdges(ts[i], us[i])
  {
    var p := Selecting(q, fields);
    BatchedIsNaive(db, q);
    BatchedIsNaive(db, p);
    QueryRows(db, q);
    var ts, us := Batched(db, q).value, Batched(db, p).value;
    assert AccountRows(db, p) == AccountRows(db, q);
    forall i | 0 <= i < |ts| ensures SameEdges(ts[i], us[i]) {
      NodeSelecting(db, q, fields, AccountRows(db, q)[i]);
    }
  }
}

/** What eager loading means, twice: Batched follows the loaders (one query per edge of a whole layer, joined by key),
    Naive is the per-node nested-loop join. The main theorem says they build the same graph. */
module EagerSpec {
  import opened Collections
  import opened AccountEntity

  const ACCOUNT_ID := Other("account_id")
  const GROUP_ID := Other("group_id")

  /** A finite database. links is the account_groups join table. */
  datatype Database = Database(accounts: seq<Row>, proxies: seq<Row>, groups: seq<Row>, links: seq<Row>,
                               usageLogs: seq<Row>, decode: Decoder)

  // ---------------------------------------------------------------- queries as values

  datatype Pred = Custom(holds: Row -> bool)
                | In(column: Column, ids: seq<int>)
                | JoinIn(ids: seq<int>)  // the join with account_groups, restricted to these accounts

  type Order = seq<Row -> int>

  datatype Context = Context(fields: seq<Column>, unique: Option<bool>, limit: Option<nat>, offset: Option<nat>)

  /** A query on one of the neighbouring entities. */
  datatype LeafTree = LeafTree(ctx: Context, order: Order, inters: seq<int>, preds: seq<Pred>, modifiers: seq<int>) {
    function Where(p: Pred): LeafTree {
      this.(preds := preds + [p])
    }

    function WithField(c: Column): LeafTree {
      this.(ctx := AppendFieldOnce(ctx, c))
    }
  }

  /** An account query together with the queries of the edges it eager-loads. */
  datatype QueryTree = QueryTree(ctx: Context, order: Order, inters: seq<int>, preds: seq<Pred>, modifiers: seq<int>,
                                 groups: Option<LeafTree>, proxy: Option<LeafTree>,
                                 parent: Option<QueryTree>, children: Option<QueryTree>,
                                 usageLogs: Option<LeafTree>, accountGroups: Option<LeafTree>) {
    function Where(p: Pred): QueryTree {
      this.(preds := preds + [p])
    }

    function WithField(c: Column): QueryTree {
      this.(ctx := AppendFieldOnce(ctx, c))
    }

    /** Which of the six edges were requested. */
    function Loaded(): seq<bool> {
      [groups.Some?, proxy.Some?, parent.Some?, children.Some?, usageLogs.Some?, accountGroups.Some?]
    }
  }

  /** Only a projected query needs the extra column: no selection means all columns. */
  function AppendFieldOnce(ctx: Context, c: Column): Context {
    if |ctx.fields| > 0 && c !in ctx.fields then ctx.(fields := ctx.fields + [c]) else ctx
  }

  function Height(q: QueryTree): nat {
    1 + Max(if q.parent.Some? then Height(q.parent.value) else 0,
            if q.children.Some? then Height(q.children.value) else 0)
  }

  function Max(a: nat, b: nat): nat {
    if a < b then b else a
  }

  /** The number of query nodes in the tree. */
  function Size(q: QueryTree): nat {
    1 + Count(q.groups) + Count(q.proxy) + Count(q.usageLogs) + Count(q.accountGroups)
    + (if q.parent.Some? then Size(q.parent.value) else 0) + (if q.children.Some? then Size(q.children.value) else 0)
  }

  function Count(q: Option<LeafTree>): nat {
    if q.Some? then 1 else 0
  }

  // ---------------------------------------------------------------- row semantics of the backend

  predicate Holds(p: Pred, row: Row) {
    match p
    case Custom(holds) => holds(row)
    case In(column, ids) => IntOf(row, column).Some? && IntOf(row, column).value in ids
    case JoinIn(_) => true
  }

  predicate AllHold(preds: seq<Pred>, row: Row) {
    forall i :: 0 <= i < |preds| ==> Holds(preds[i], row)
  }

  function Meets(preds: seq<Pred>): Row -> bool {
    row => AllHold(preds, row)
  }

  function Window<T>(ctx: Context, s: seq<T>): seq<T> {
    var from := if ctx.offset.Some? then Min(ctx.offset.value, |s|) else 0;
    var rest := s[from..];
    if ctx.limit.Some? then rest[..Min(ctx.limit.value, |rest|)] else rest
  }

  function Min(a: nat, b: nat): nat {
    if a < b then a else b
  }

  function Select(table: seq<Row>, preds: seq<Pred>, order: Order): seq<Row> {
    Sort(order, Filter(Meets(preds), table))
  }

  function AccountRows(db: Database, q: QueryTree): seq<Row> {
    Window(q.ctx, Select(db.accounts, q.preds, q.order))
  }

  /** The columns of a neighbour's row that its query selects. */
  function Project(fields: seq<Column>, row: Row): Row {
    if fields == [] then row else map c: Column | c in row && (c.ID? || c in fields) :: row[c]
  }

  function Shown(fields: seq<Column>): Row -> Row {
    row => Project(fields, row)
  }

  function LeafRows(table: seq<Row>, q: LeafTree): seq<Row> {
    Map(Shown(q.ctx.fields), Window(q.ctx, Select(table, q.preds, q.order)))
  }

  function IntOrZero(row: Row, c: Column): int {
    if IntOf(row, c).Some? then IntOf(row, c).value else 0
  }

  /** The groups-to-accounts join: one row per matching link, headed by the account id, groups in query order. */
  function JoinRows(db: Database, q: LeafTree, ids: seq<int>): seq<(int, Row)> {
    Window(q.ctx, Join(db.links, Select(db.groups, q.preds, q.order), q.ctx.fields, ids))
  }

  function Join(links: seq<Row>, groups: seq<Row>, fields: seq<Column>, ids: seq<int>): seq<(int, Row)> {
    if groups == [] then []
    else Matches(links, groups[0], Project(fields, groups[0]), ids) + Join(links, groups[1..], fields, ids)
  }

  function Matches(links: seq<Row>, group: Row, shown: Row, ids: seq<int>): seq<(int, Row)> {
    if links == [] then []
    else
      (if Linked(links[0], group) && IntOrZero(links[0], ACCOUNT_ID) in ids
       then [(IntOrZero(links[0], ACCOUNT_ID), shown)] else [])
      + Matches(links[1..], group, shown, ids)
  }

  predicate Linked(link: Row, group: Row) {
    IntOrZero(link, GROUP_ID) == IntOrZero(group, ID)
  }

  // ---------------------------------------------------------------- the loaded graph

  datatype AccountTree = AccountTree(entity: Entity, loaded: seq<bool>, groups: seq<Row>, proxy: Option<Row>,
                                     parent: Option<AccountTree>, children: seq<AccountTree>,
                                     usageLogs: seq<Row>, accountGroups: seq<Row>)

  /** The selected columns, with the id first and the foreign keys that the requested M2O edges read. */
  function NodeColumns(fields: seq<Column>, proxy: bool, parent: bool): seq<Column> {
    if fields == [] then Columns()
    else
      var base := [ID] + Filter(NotId(), fields);
      var withProxy := if proxy then AddColumnOnce(base, ProxyID) else base;
      if parent then AddColumnOnce(withProxy, ParentAccountID) else withProxy
  }

  function NotId(): Column -> bool {
    (c: Column) => !c.ID?
  }

  function AddColumnOnce(columns: seq<Column>, c: Column): seq<Column> {
    if c in columns then columns else columns + [c]
  }

  function ColumnsOf(q: QueryTree): seq<Column> {
    NodeColumns(q.ctx.fields, q.proxy.Some?, q.parent.Some?)
  }

  predicate ValidFields(fields: seq<Column>) {
    forall c :: c in fields ==> ValidColumn(c)
  }

  /** Scanning one row; None when it cannot be scanned. */
  function Scanner(decode: Decoder, columns: seq<Column>): Row -> Option<Entity> {
    row => if ScanRow(decode, columns, row).Ok? then Some(ScanRow(decode, columns, row).value) else None
  }

  function IdsOf(es: seq<Entity>): (r: seq<int>)
    ensures |r| == |es| && forall i :: 0 <= i < |es| ==> r[i] == es[i].Id()
  {
    Map((e: Entity) => e.Id(), es)
  }

  function KeysOf(es: seq<Entity>, c: Column): (r: seq<Option<int>>)
    ensures |r| == |es| && forall i :: 0 <= i < |es| ==> r[i] == es[i].ForeignKey(c)
  {
    Map((e: Entity) => e.ForeignKey(c), es)
  }

  function TreeIds(ts: seq<AccountTree>): (r: seq<Option<int>>)
    ensures |r| == |ts| && forall i :: 0 <= i < |ts| ==> r[i] == Some(ts[i].entity.Id())
  {
    Map((t: AccountTree) => Some(t.entity.Id()), ts)
  }

  function TreeParents(ts: seq<AccountTree>): (r: seq<Option<int>>)
    ensures |r| == |ts| && forall i :: 0 <= i < |ts| ==> r[i] == ts[i].entity.ForeignKey(ParentAccountID)
  {
    Map((t: AccountTree) => t.entity.ForeignKey(ParentAccountID), ts)
  }

  function RowKeys(rows: seq<Row>, c: Column): (r: seq<Option<int>>)
    ensures |r| == |rows| && forall i :: 0 <= i < |rows| ==> r[i] == Some(IntOrZero(rows[i], c))
  {
    Map((row: Row) => Some(IntOrZero(row, c)), rows)
  }

  predicate KnownKeys(keys: seq<Option<int>>, ids: seq<int>) {
    forall i :: 0 <= i < |keys| ==> keys[i].Some? && keys[i].value in ids
  }

  // ---------------------------------------------------------------- batched loading, edge by edge

  /** Groups in order of first appearance among the join rows. */
  function FirstGroups(rows: seq<(int, Row)>): (r: seq<Row>)
    ensures forall g :: g in r ==> exists i :: 0 <= i < |rows| && rows[i].1 == g
  {
    if rows == [] then []
    else
      var n := |rows| - 1;
      var before := FirstGroups(rows[..n]);
      if IntOrZero(rows[n].1, ID) in GroupIds(rows[..n]) then before else before + [rows[n].1]
  }

  function GroupIds(rows: seq<(int, Row)>): set<int> {
    set i | 0 <= i < |rows| :: IntOrZero(rows[i].1, ID)
  }

  predicate Joined(rows: seq<(int, Row)>, account: int, group: int) {
    exists i :: 0 <= i < |rows| && rows[i].0 == account && IntOrZero(rows[i].1, ID) == group
  }

  function DealGroups(rows: seq<(int, Row)>, ids: seq<int>): (r: seq<seq<Row>>)
    ensures |r| == |ids|
    ensures forall i :: 0 <= i < |ids| ==>
      r[i] == if IsLast(ids, i) then Filter(JoinedTo(rows, ids[i]), FirstGroups(rows)) else []
  {
    seq(|ids|, i requires 0 <= i < |ids| =>
      if IsLast(ids, i) then Filter(JoinedTo(rows, ids[i]), FirstGroups(rows)) else [])
  }

  function JoinedTo(rows: seq<(int, Row)>, account: int): Row -> bool {
    group => Joined(rows, account, IntOrZero(group, ID))
  }

  function Nothing<T>(n: nat, none: T): (r: seq<T>)
    ensures |r| == n && forall i :: 0 <= i < n ==> r[i] == none
  {
    seq(n, _ => none)
  }

  function GroupLists(db: Database, q: Option<LeafTree>, ids: seq<int>): (r: seq<seq<Row>>)
    ensures |r| == |ids|
  {
    if q.None? then Nothing(|ids|, []) else DealGroups(JoinRows(db, q.value.Where(JoinIn(ids)), ids), ids)
  }

  /** For each foreign key the last neighbour carrying that id. */
  function Lookup<T>(fks: seq<Option<int>>, keys: seq<Option<int>>, values: seq<T>): (r: seq<Option<T>>)
    requires |keys| == |values|
    ensures |r| == |fks|
    ensures forall i :: 0 <= i < |fks| ==> r[i] == if fks[i].None? then None else LastBy(keys, values, fks[i].value)
  {
    seq(|fks|, i requires 0 <= i < |fks| => if fks[i].None? then None else LastBy(keys, values, fks[i].value))
  }

  function ProxyPicks(db: Database, q: Option<LeafTree>, fks: seq<Option<int>>): (r: Option<seq<Option<Row>>>)
    ensures r.Some? ==> |r.value| == |fks|
  {
    if q.None? || FirstSeen(fks) == [] then Some(Nothing(|fks|, None))
    else
      var nbs := LeafRows(db.proxies, q.value.Where(In(ID, FirstSeen(fks))));
      if KnownKeys(RowKeys(nbs, ID), FirstSeen(fks)) then Some(Lookup(fks, RowKeys(nbs, ID), nbs)) else None
  }

  function OwnedLists(table: seq<Row>, q: Option<LeafTree>, ids: seq<int>): (r: Option<seq<seq<Row>>>)
    ensures r.Some? ==> |r.value| == |ids|
  {
    if q.None? then Some(Nothing(|ids|, []))
    else
      var nbs := LeafRows(table, OwnedQuery(q.value, ids));
      if KnownKeys(RowKeys(nbs, ACCOUNT_ID), ids) then Some(Deal(ids, RowKeys(nbs, ACCOUNT_ID), nbs)) else None
  }

  function OwnedQuery(q: LeafTree, ids: seq<int>): LeafTree {
    q.WithField(ACCOUNT_ID).Where(In(ACCOUNT_ID, ids))
  }

  function ParentPicks(db: Database, q: Option<QueryTree>, fks: seq<Option<int>>): (r: Option<seq<Option<AccountTree>>>)
    ensures r.Some? ==> |r.value| == |fks|
    decreases if q.Some? then Height(q.value) else 0, 2
  {
    if q.None? || FirstSeen(fks) == [] then Some(Nothing(|fks|, None))
    else
      var p := q.value.Where(In(ID, FirstSeen(fks)));
      assert Height(p) == Height(q.value);
      PicksFrom(Batched(db, p), fks)
  }

  function PicksFrom(loaded: Option<seq<AccountTree>>, fks: seq<Option<int>>): (r: Option<seq<Option<AccountTree>>>)
    ensures r.Some? ==> |r.value| == |fks|
  {
    if loaded.None? || !KnownKeys(TreeIds(loaded.value), FirstSeen(fks)) then None
    else Some(Lookup(fks, TreeIds(loaded.value), loaded.value))
  }

  function ChildQuery(q: QueryTree, ids: seq<int>): QueryTree {
    q.WithField(ParentAccountID).Where(In(ParentAccountID, ids))
  }

  function ChildLists(db: Database, q: Option<QueryTree>, ids: seq<int>): (r: Option<seq<seq<AccountTree>>>)
    ensures r.Some? ==> |r.value| == |ids|
    decreases if q.Some? then Height(q.value) else 0, 2
  {
    if q.None? then Some(Nothing(|ids|, []))
    else
      assert Height(ChildQuery(q.value, ids)) == Height(q.value);
      ListsFrom(Batched(db, ChildQuery(q.value, ids)), ids)
  }

  function ListsFrom(loaded: Option<seq<AccountTree>>, ids: seq<int>): (r: Option<seq<seq<AccountTree>>>)
    ensures r.Some? ==> |r.value| == |ids|
  {
    if loaded.None? || !KnownKeys(TreeParents(loaded.value), ids) then None
    else Some(Deal(ids, TreeParents(loaded.value), loaded.value))
  }

  /** The six edges of a layer of nodes. */
  datatype Layer = Layer(groups: seq<seq<Row>>, proxy: seq<Option<Row>>, parent: seq<Option<AccountTree>>,
                         children: seq<seq<AccountTree>>, usageLogs: seq<seq<Row>>, accountGroups: seq<seq<Row>>)

  predicate LayerOf(layer: Layer, n: nat) {
    |layer.groups| == |layer.proxy| == |layer.parent| == |layer.children| == |layer.usageLogs|
    == |layer.accountGroups| == n
  }

  function LoadLayer(db: Database, q: QueryTree, es: seq<Entity>): (r: Option<Layer>)
    ensures r.Some? ==> LayerOf(r.value, |es|)
    decreases Height(q), 0
  {
    LayerFrom(db, q, es, ParentPicks(db, q.parent, KeysOf(es, ParentAccountID)), ChildLists(db, q.children, IdsOf(es)))
  }

  function LayerFrom(db: Database, q: QueryTree, es: seq<Entity>, parents: Option<seq<Option<AccountTree>>>,
                     children: Option<seq<seq<AccountTree>>>): (r: Option<Layer>)
    requires (parents.Some? ==> |parents.value| == |es|) && (children.Some? ==> |children.value| == |es|)
    ensures r.Some? ==> LayerOf(r.value, |es|)
  {
    Layered(GroupLists(db, q.groups, IdsOf(es)), ProxyPicks(db, q.proxy, KeysOf(es, ProxyID)), parents, children,
            OwnedLists(db.usageLogs, q.usageLogs, IdsOf(es)), OwnedLists(db.links, q.accountGroups, IdsOf(es)))
  }

  /** The six edges, if all of them could be loaded. */
  function Layered(groups: seq<seq<Row>>, proxies: Option<seq<Option<Row>>>, parents: Option<seq<Option<AccountTree>>>,
                   children: Option<seq<seq<AccountTree>>>, usageLogs: Option<seq<seq<Row>>>,
                   accountGroups: Option<seq<seq<Row>>>): Option<Layer> {
    if proxies.None? || parents.None? || children.None? || usageLogs.None? || accountGroups.None? then None
    else Some(Layer(groups, proxies.value, parents.value, children.value, usageLogs.value, accountGroups.value))
  }

  function Assemble(q: QueryTree, es: seq<Entity>, layer: Layer): (r: seq<AccountTree>)
    requires LayerOf(layer, |es|)
    ensures |r| == |es|
    ensures forall i :: 0 <= i < |es| ==>
      r[i] == AccountTree(es[i], q.Loaded(), layer.groups[i], layer.proxy[i], layer.parent[i], layer.children[i],
                          layer.usageLogs[i], layer.accountGroups[i])
  {
    seq(|es|, i requires 0 <= i < |es| =>
      AccountTree(es[i], q.Loaded(), layer.groups[i], layer.proxy[i], layer.parent[i], layer.children[i],
                  layer.usageLogs[i], layer.accountGroups[i]))
  }

  function Nodes(db: Database, q: QueryTree): Option<seq<Entity>> {
    if ValidFields(q.ctx.fields) then Traverse(Scanner(db.decode, ColumnsOf(q)), AccountRows(db, q)) else None
  }

  /** The whole eager load of a query, one batched query per edge and layer. None: the load fails. */
  function Batched(db: Database, q: QueryTree): Option<seq<AccountTree>>
    decreases Height(q), 1
  {
    var es := Nodes(db, q);
    if es.None? then None
    else if es.value == [] then Some([])
    else Loaded(q, es.value, LoadLayer(db, q, es.value))
  }

  function Loaded(q: QueryTree, es: seq<Entity>, layer: Option<Layer>): Option<seq<AccountTree>>
    requires layer.Some? ==> LayerOf(layer.value, |es|)
  {
    if layer.None? then None else Some(Assemble(q, es, layer.value))
  }

  // ---------------------------------------------------------------- naive nested-loop join

  function Naive(db: Database, q: QueryTree): Option<seq<AccountTree>>
    decreases Height(q), 2
  {
    if ValidFields(q.ctx.fields) then Traverse(NodeOf(db, q), AccountRows(db, q)) else None
  }

  function NodeOf(db: Database, q: QueryTree): Row -> Option<AccountTree>
    decreases Height(q), 1
  {
    row => NaiveNode(db, q, row)
  }

  /** One node with its edges, each edge found by its own query for this node alone. */
  function NaiveNode(db: Database, q: QueryTree, row: Row): Option<AccountTree>
    decreases Height(q), 0
  {
    var id := IntOrZero(row, ID);
    NodeOfParts(db, q, row, Scanner(db.decode, ColumnsOf(q))(row),
                NaiveParent(db, q.parent, IntOf(row, ParentAccountID)), NaiveChildren(db, q.children, id))
  }

  function NodeOfParts(db: Database, q: QueryTree, row: Row, e: Option<Entity>, parent: Option<Option<AccountTree>>,
                       children: Option<seq<AccountTree>>): Option<AccountTree> {
    if e.None? || parent.None? || children.None? then None
    else
      var id := IntOrZero(row, ID);
      Some(AccountTree(e.value, q.Loaded(), NaiveGroups(db, q.groups, id), NaiveProxy(db, q.proxy, IntOf(row, ProxyID)),
                       parent.value, children.value, NaiveOwned(db.usageLogs, q.usageLogs, id),
                       NaiveOwned(db.links, q.accountGroups, id)))
  }

  /** For every group of the query, keep it if some link joins it to the account. */
  function NaiveGroups(db: Database, q: Option<LeafTree>, id: int): seq<Row> {
    if q.None? then []
    else Map(Shown(q.value.ctx.fields),
             Filter(LinkedTo(db.links, [id]), Select(db.groups, q.value.preds, q.value.order)))
  }

  predicate HasLink(links: seq<Row>, ids: seq<int>, group: Row) {
    exists i :: 0 <= i < |links| && Linked(links[i], group) && IntOrZero(links[i], ACCOUNT_ID) in ids
  }

  function LinkedTo(links: seq<Row>, ids: seq<int>): Row -> bool {
    group => HasLink(links, ids, group)
  }

  function NaiveProxy(db: Database, q: Option<LeafTree>, fk: Option<int>): Option<Row> {
    if q.None? || fk.None? then None else LastOf(LeafRows(db.proxies, q.value.Where(In(ID, [fk.value]))))
  }

  function NaiveOwned(table: seq<Row>, q: Option<LeafTree>, id: int): seq<Row> {
    if q.None? then [] else LeafRows(table, OwnedQuery(q.value, [id]))
  }

  function NaiveParent(db: Database, q: Option<QueryTree>, fk: Option<int>): Option<Option<AccountTree>>
    decreases if q.Some? then Height(q.value) else 0, 3
  {
    if q.None? || fk.None? then Some(None)
    else
      var p := q.value.Where(In(ID, [fk.value]));
      assert Height(p) == Height(q.value);
      LastLoaded(Naive(db, p))
  }

  function LastLoaded(loaded: Option<seq<AccountTree>>): Option<Option<AccountTree>> {
    if loaded.None? then None else Some(LastOf(loaded.value))
  }

  function NaiveChildren(db: Database, q: Option<QueryTree>, id: int): Option<seq<AccountTree>>
    decreases if q.Some? then Height(q.value) else 0, 3
  {
    if q.None? then Some([])
    else
      assert Height(ChildQuery(q.value, [id])) == Height(q.value);
      Naive(db, ChildQuery(q.value, [id]))
  }
}

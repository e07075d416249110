/** Account nodes and query builders as the heap objects they are, and the loaders that fill the nodes in place. */
module AccountGraph {
  import opened Collections
  import opened AccountEntity
  import opened EagerSpec

  datatype LoadError = DriverError | InvalidField | ScanFailed | AssignFailed(err: AssignError)
                     | UnexpectedNode(id: int) | NilForeignKey(id: int)

  // ---------------------------------------------------------------- the backend

  datatype Table = Proxies | UsageLogs | AccountGroups

  function RowsIn(db: Database, table: Table): seq<Row> {
    match table
    case Proxies => db.proxies
    case UsageLogs => db.usageLogs
    case AccountGroups => db.links
  }

  /** Runs queries against an unchanging database; the k-th query of its life fails when fails(k) says so. */
  class Driver {
    const db: Database
    const fails: nat -> bool
    var queries: nat
    var failed: bool

    constructor (db: Database, fails: nat -> bool)
      ensures this.db == db && this.fails == fails && queries == 0 && !failed
    {
      this.db, this.fails, queries, failed := db, fails, 0, false;
    }

    /** Counts one more query and tells whether it fails. */
    method Ask() returns (failing: bool)
      modifies `queries, `failed
      ensures queries == old(queries) + 1 && failing == fails(old(queries))
      ensures failed == (old(failed) || failing)
    {
      failing := fails(queries);
      queries, failed := queries + 1, failed || failing;
    }

    method QueryAccounts(ctx: Context, preds: seq<Pred>, order: Order) returns (r: Result<seq<Row>, LoadError>)
      modifies `queries, `failed
      ensures queries == old(queries) + 1 && failed == (old(failed) || fails(old(queries)))
      ensures r == if fails(old(queries)) then Err(DriverError) else Ok(Window(ctx, Select(db.accounts, preds, order)))
    {
      var failing := Ask();
      r := if failing then Err(DriverError) else Ok(Window(ctx, Select(db.accounts, preds, order)));
    }

    method QueryLeaf(table: Table, q: LeafTree) returns (r: Result<seq<Row>, LoadError>)
      modifies `queries, `failed
      ensures queries == old(queries) + 1 && failed == (old(failed) || fails(old(queries)))
      ensures r == if fails(old(queries)) then Err(DriverError) else Ok(LeafRows(RowsIn(db, table), q))
    {
      var failing := Ask();
      r := if failing then Err(DriverError) else Ok(LeafRows(RowsIn(db, table), q));
    }

    method QueryJoin(q: LeafTree, ids: seq<int>) returns (r: Result<seq<(int, Row)>, LoadError>)
      modifies `queries, `failed
      ensures queries == old(queries) + 1 && failed == (old(failed) || fails(old(queries)))
      ensures r == if fails(old(queries)) then Err(DriverError) else Ok(JoinRows(db, q, ids))
    {
      var failing := Ask();
      r := if failing then Err(DriverError) else Ok(JoinRows(db, q, ids));
    }
  }

  // ---------------------------------------------------------------- nodes

  /** A loaded Group, Proxy, UsageLog or AccountGroup: no account loader writes to it. */
  class Neighbour {
    const row: Row

    constructor (row: Row)
      ensures this.row == row
    {
      this.row := row;
    }
  }

  function RowsOf(ns: seq<Neighbour>): (r: seq<Row>)
    ensures |r| == |ns| && forall i :: 0 <= i < |ns| ==> r[i] == ns[i].row
  {
    seq(|ns|, i requires 0 <= i < |ns| => ns[i].row)
  }

  class Account {
    var entity: Entity
    var loadedTypes: seq<bool>
    var groups: seq<Neighbour>
    var proxy: Neighbour?
    var parent: Account?
    var children: seq<Account>
    var usageLogs: seq<Neighbour>
    var accountGroups: seq<Neighbour>
    ghost var tree: AccountTree
    ghost var Repr: set<Account>

    constructor (loadedTypes: seq<bool>)
      ensures entity == FRESH && this.loadedTypes == loadedTypes && Bare()
    {
      entity, this.loadedTypes := FRESH, loadedTypes;
      groups, proxy, parent, children, usageLogs, accountGroups := [], null, null, [], [], [];
    }

    /** No edge is loaded. */
    ghost predicate Bare()
      reads this
    {
      groups == [] && proxy == null && parent == null && children == [] && usageLogs == [] && accountGroups == []
    }

    /** Everything reachable is loaded, acyclic below this node, and described by tree. */
    ghost predicate Valid()
      reads this, Repr
      decreases Repr
    {
      && this in Repr
      && (parent != null ==> parent in Repr && parent.Repr <= Repr && this !in parent.Repr && parent.Valid())
      && (forall c :: c in children ==> c in Repr && c.Repr <= Repr && this !in c.Repr && c.Valid())
      && tree == Shape()
    }

    ghost function ParentTree(): Option<AccountTree>
      reads this, parent
    {
      if parent == null then None else Some(parent.tree)
    }

    function ProxyRow(): Option<Row>
      reads `proxy
    {
      if proxy == null then None else Some(proxy.row)
    }

    ghost function Shape(): AccountTree
      reads this, parent, children
    {
      AccountTree(entity, loadedTypes, RowsOf(groups), ProxyRow(), ParentTree(), Trees(children), RowsOf(usageLogs),
                  RowsOf(accountGroups))
    }

    /** Assigns scanned slots to the entity column by column, stopping at the first error. */
    method AssignValues(decode: Decoder, columns: seq<Column>, values: seq<Slot>) returns (err: Option<AssignError>)
      modifies this`entity
      ensures Assigned(entity, err) == Assign(decode, old(entity), columns, values)
    {
      if |values| < |columns| {
        return Some(CountMismatch);
      }
      for i := 0 to |columns|
        invariant AssignColumns(decode, old(entity), columns, values)
                  == AssignColumns(decode, entity, columns[i..], values[i..])
      {
        var step := AssignColumn(decode, entity, columns[i], values[i]);
        entity := step.entity;
        if step.err.Some? {
          return step.err;
        }
        assert columns[i..][1..] == columns[i + 1..] && values[i..][1..] == values[i + 1..];
      }
      return None;
    }
  }

  ghost function Trees(ns: seq<Account>): (r: seq<AccountTree>)
    reads ns
    ensures |r| == |ns| && forall i :: 0 <= i < |ns| ==> r[i] == ns[i].tree
  {
    seq(|ns|, i requires 0 <= i < |ns| reads ns => ns[i].tree)
  }

  // ---------------------------------------------------------------- query builders

  class QueryContext {
    var fields: seq<Column>
    var unique: Option<bool>
    var limit: Option<nat>
    var offset: Option<nat>

    constructor (value: Context)
      ensures Value() == value
    {
      fields, unique, limit, offset := value.fields, value.unique, value.limit, value.offset;
    }

    function Value(): Context
      reads this
    {
      Context(fields, unique, limit, offset)
    }

    /** Appends the column unless it is already selected; the loaders only call it on a projected query. */
    method AppendFieldOnce(c: Column)
      modifies this
      ensures Value() == old(Value()).(fields := if c in old(fields) then old(fields) else old(fields) + [c])
    {
      if c !in fields {
        fields := fields + [c];
      }
    }

    method Clone() returns (c: QueryContext)
      ensures fresh(c) && c.Value() == Value()
    {
      c := new QueryContext(Value());
    }
  }

  /** The query of a neighbouring entity. Its own edge queries are not part of this model. */
  class LeafQuery {
    var tree: LeafTree

    constructor (tree: LeafTree)
      ensures this.tree == tree
    {
      this.tree := tree;
    }

    method AppendFieldOnce(c: Column)
      modifies `tree
      ensures tree == old(tree).(ctx := old(tree).ctx.(fields :=
                if c in old(tree).ctx.fields then old(tree).ctx.fields else old(tree).ctx.fields + [c]))
    {
      if c !in tree.ctx.fields {
        tree := tree.(ctx := tree.ctx.(fields := tree.ctx.fields + [c]));
      }
    }

    method Where(p: Pred)
      modifies `tree
      ensures tree == old(tree).Where(p)
    {
      tree := tree.Where(p);
    }

    /** A copy on an object of its own; the row-lock modifiers stay behind. */
    static method Clone(q: LeafQuery?) returns (c: LeafQuery?)
      ensures q == null ==> c == null
      ensures q != null ==> c != null && fresh(c) && c.tree == q.tree.(modifiers := [])
    {
      if q == null {
        return null;
      }
      c := new LeafQuery(q.tree.(modifiers := []));
    }
  }

  function LeafTreeOf(q: LeafQuery?): Option<LeafTree>
    reads q
  {
    if q == null then None else Some(q.tree)
  }

  class AccountQuery {
    const ctx: QueryContext
    var order: Order
    var inters: seq<int>
    var predicates: seq<Pred>
    var modifiers: seq<int>
    var withGroups: LeafQuery?
    var withProxy: LeafQuery?
    var withParent: AccountQuery?
    var withChildren: AccountQuery?
    var withUsageLogs: LeafQuery?
    var withAccountGroups: LeafQuery?
    ghost var tree: QueryTree
    ghost var Repr: set<object>

    /** The builder's own objects are among those of s. */
    ghost predicate OwnIn(s: set<object>)
      reads this
    {
      && this in s && ctx in s && (withGroups != null ==> withGroups in s) && (withProxy != null ==> withProxy in s)
      && (withUsageLogs != null ==> withUsageLogs in s) && (withAccountGroups != null ==> withAccountGroups in s)
    }

    /** None of the builder's own objects is among those of s. */
    ghost predicate OwnApart(s: set<object>)
      reads this
    {
      && this !in s && ctx !in s && (withGroups != null ==> withGroups !in s) && (withProxy != null ==> withProxy !in s)
      && (withUsageLogs != null ==> withUsageLogs !in s) && (withAccountGroups != null ==> withAccountGroups !in s)
    }

    ghost predicate Below(q: AccountQuery)
      reads this, q
    {
      q.Repr <= Repr && OwnApart(q.Repr)
    }

    /** What the builder's fields say now. */
    ghost function Current(): QueryTree
      reads this, ctx, withGroups, withProxy, withParent, withChildren, withUsageLogs, withAccountGroups
    {
      QueryTree(ctx.Value(), order, inters, predicates, modifiers, LeafTreeOf(withGroups), LeafTreeOf(withProxy),
                TreeOf(withParent), TreeOf(withChildren), LeafTreeOf(withUsageLogs), LeafTreeOf(withAccountGroups))
    }

    /** The builder and its edge queries form a tree of objects of their own. */
    ghost predicate Separate()
      reads this, Repr
      decreases Repr, 0
    {
      && OwnIn(Repr) && AllDiffer(withGroups, withProxy, withUsageLogs, withAccountGroups)
      && (withParent != null ==> withParent in Repr && Below(withParent) && withParent.Valid())
      && (withChildren != null ==> withChildren in Repr && Below(withChildren) && withChildren.Valid())
      && (withParent != null && withChildren != null ==> withParent.Repr !! withChildren.Repr)
    }

    ghost predicate Valid()
      reads this, Repr
      decreases Repr, 1
    {
      this in Repr && Separate() && tree == Current()
    }

    method Where(p: Pred)
      requires Valid()
      modifies this`predicates, this`tree
      ensures Valid() && tree == old(tree).Where(p)
    {
      predicates := predicates + [p];
      tree := tree.Where(p);
    }

    /** Selects the column too, on a projected query only. */
    method SelectForeignKey(c: Column)
      requires Valid()
      modifies ctx, this`tree
      ensures Valid() && tree == old(tree).WithField(c)
    {
      if |ctx.fields| > 0 {
        ctx.AppendFieldOnce(c);
        tree := tree.(ctx := ctx.Value());
      }
    }

    /** A builder put together from parts that share no object. */
    constructor Of(p: Parts, order: Order, inters: seq<int>, predicates: seq<Pred>)
      requires PartsOk(p)
      ensures Valid() && Repr == {this} + PartsRepr(p) && tree == PartsTree(p, order, inters, predicates)
    {
      this.ctx, this.order, this.inters, this.predicates, modifiers := p.ctx, order, inters, predicates, [];
      withGroups, withProxy, withUsageLogs, withAccountGroups := p.groups, p.proxy, p.usageLogs, p.accountGroups;
      withParent, withChildren := p.parent, p.children;
      Repr := {this} + PartsRepr(p);
      tree := PartsTree(p, order, inters, predicates);
    }

    /** An independent copy, to any depth: equal clauses and edge queries, but no row-lock modifiers, on objects that
        the original does not share. Copying no query gives none. */
    static method Clone(q: AccountQuery?) returns (c: AccountQuery?)
      requires q != null ==> q.Valid()
      ensures fresh(ReprOf(c)) && (c != null ==> c.Valid())
      ensures TreeOf(c) == UnlockedTree(TreeOf(q))
      decreases ReprOf(q), 1
    {
      if q == null {
        c := null;
      } else {
        var parts := CloneParts(q);
        c := new AccountQuery.Of(parts, q.order, q.inters, q.predicates);
      }
    }

    static method CloneParts(q: AccountQuery) returns (p: Parts)
      requires q.Valid()
      ensures PartsOk(p) && fresh(PartsRepr(p))
      ensures PartsTree(p, q.order, q.inters, q.predicates) == Unlocked(q.tree)
      decreases q.Repr, 0, 1
    {
      var parent, children := CloneEdges(q);
      ghost var below := ReprOf(parent) + ReprOf(children);
      assert fresh(below);
      ghost var own;
      p, own := q.WithOwnCopies(parent, children, below);
    }

    static method CloneEdges(q: AccountQuery) returns (parent: AccountQuery?, children: AccountQuery?)
      requires q.Valid()
      ensures fresh(ReprOf(parent)) && fresh(ReprOf(children)) && ReprOf(parent) !! ReprOf(children)
      ensures (parent != null ==> parent.Valid()) && (children != null ==> children.Valid())
      ensures TreeOf(parent) == UnlockedTree(q.tree.parent) && TreeOf(children) == UnlockedTree(q.tree.children)
      decreases q.Repr, 0, 0
    {
      parent := Clone(q.withParent);
      children := Clone(q.withChildren);
    }

    /** Copies of the builder's own context and leaf queries. */
    method CloneOwn() returns (ctx: QueryContext, groups: LeafQuery?, proxy: LeafQuery?, usageLogs: LeafQuery?,
                               accountGroups: LeafQuery?, ghost own: set<object>)
      ensures fresh(own) && own == Leaves(ctx, groups, proxy, usageLogs, accountGroups)
      ensures AllDiffer(groups, proxy, usageLogs, accountGroups)
      ensures ctx.Value() == this.ctx.Value()
      ensures LeafTreeOf(groups) == UnlockedLeaf(LeafTreeOf(withGroups))
      ensures LeafTreeOf(proxy) == UnlockedLeaf(LeafTreeOf(withProxy))
      ensures LeafTreeOf(usageLogs) == UnlockedLeaf(LeafTreeOf(withUsageLogs))
      ensures LeafTreeOf(accountGroups) == UnlockedLeaf(LeafTreeOf(withAccountGroups))
    {
      ctx := this.ctx.Clone();
      groups := LeafQuery.Clone(withGroups);
      proxy := LeafQuery.Clone(withProxy);
      usageLogs := LeafQuery.Clone(withUsageLogs);
      accountGroups := LeafQuery.Clone(withAccountGroups);
      own := Leaves(ctx, groups, proxy, usageLogs, accountGroups);
    }

    /** The parts of a copy whose edge queries are given. */
    method WithOwnCopies(parent: AccountQuery?, children: AccountQuery?, ghost below: set<object>)
        returns (p: Parts, ghost own: set<object>)
      requires below == ReprOf(parent) + ReprOf(children) && ReprOf(parent) !! ReprOf(children)
      requires (parent != null ==> parent.Valid()) && (children != null ==> children.Valid())
      ensures p.parent == parent && p.children == children
      ensures PartsOk(p) && fresh(own) && PartsRepr(p) == own + below
      ensures p.ctx.Value() == ctx.Value()
      ensures LeafTreeOf(p.groups) == UnlockedLeaf(LeafTreeOf(withGroups))
      ensures LeafTreeOf(p.proxy) == UnlockedLeaf(LeafTreeOf(withProxy))
      ensures LeafTreeOf(p.usageLogs) == UnlockedLeaf(LeafTreeOf(withUsageLogs))
      ensures LeafTreeOf(p.accountGroups) == UnlockedLeaf(LeafTreeOf(withAccountGroups))
    {
      var ctx, groups, proxy, usageLogs, accountGroups, mine := CloneOwn();
      own := mine;
      p := Parts(ctx, groups, proxy, parent, children, usageLogs, accountGroups);
    }
  }

  /** The objects a builder refers to. */
  datatype Parts = Parts(ctx: QueryContext, groups: LeafQuery?, proxy: LeafQuery?, parent: AccountQuery?,
                         children: AccountQuery?, usageLogs: LeafQuery?, accountGroups: LeafQuery?)

  ghost function PartsRepr(p: Parts): set<object>
    reads p.parent, p.children
  {
    Leaves(p.ctx, p.groups, p.proxy, p.usageLogs, p.accountGroups) + ReprOf(p.parent) + ReprOf(p.children)
  }

  ghost predicate PartsOk(p: Parts)
    reads p.parent, p.children, ReprOf(p.parent), ReprOf(p.children)
  {
    && AllDiffer(p.groups, p.proxy, p.usageLogs, p.accountGroups)
    && Leaves(p.ctx, p.groups, p.proxy, p.usageLogs, p.accountGroups) !! ReprOf(p.parent) !! ReprOf(p.children)
    && (p.parent != null ==> p.parent.Valid())
    && (p.children != null ==> p.children.Valid())
  }

  ghost function PartsTree(p: Parts, order: Order, inters: seq<int>, predicates: seq<Pred>): QueryTree
    reads p.ctx, p.groups, p.proxy, p.parent, p.children, p.usageLogs, p.accountGroups
  {
    QueryTree(p.ctx.Value(), order, inters, predicates, [], LeafTreeOf(p.groups), LeafTreeOf(p.proxy), TreeOf(p.parent),
              TreeOf(p.children), LeafTreeOf(p.usageLogs), LeafTreeOf(p.accountGroups))
  }

  ghost function ReprOf(q: AccountQuery?): set<object>
    reads q
  {
    if q == null then {} else q.Repr
  }

  ghost function TreeOf(q: AccountQuery?): Option<QueryTree>
    reads q
  {
    if q == null then None else Some(q.tree)
  }

  ghost function Leaves(ctx: QueryContext, a: LeafQuery?, b: LeafQuery?, c: LeafQuery?, d: LeafQuery?): set<object> {
    {ctx as object} + LeafSet(a) + LeafSet(b) + LeafSet(c) + LeafSet(d)
  }

  ghost function LeafSet(q: LeafQuery?): set<object> {
    if q == null then {} else {q}
  }

  ghost function Just(q: LeafQuery?): set<LeafQuery> {
    if q == null then {} else {q}
  }

  ghost predicate AllDiffer(a: LeafQuery?, b: LeafQuery?, c: LeafQuery?, d: LeafQuery?) {
    && (a != null ==> a != b && a != c && a != d)
    && (b != null ==> b != c && b != d)
    && (c != null ==> c != d)
  }

  /** A query without its row-lock modifiers, at every level. */
  function Unlocked(q: QueryTree): QueryTree
    decreases q, 0
  {
    q.(modifiers := [], groups := UnlockedLeaf(q.groups), proxy := UnlockedLeaf(q.proxy),
       parent := UnlockedTree(q.parent), children := UnlockedTree(q.children),
       usageLogs := UnlockedLeaf(q.usageLogs), accountGroups := UnlockedLeaf(q.accountGroups))
  }

  function UnlockedTree(q: Option<QueryTree>): Option<QueryTree>
    decreases q, 1
  {
    if q.None? then None else Some(Unlocked(q.value))
  }

  function UnlockedLeaf(q: Option<LeafTree>): Option<LeafTree> {
    if q.None? then None else Some(q.value.(modifiers := []))
  }
}

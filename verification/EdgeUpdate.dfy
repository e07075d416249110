/** The edge part of an account update: what the calls on its mutation leave behind, the edge lists they are
    compiled into, and what the database makes of those lists. */
module EdgeUpdate {
  import opened Collections
  import opened AccountCreate

  // ---------------------------------------------------------------- pending changes of one edge

  /** The pending changes of an edge to many entities. */
  datatype Many = Many(added: set<int>, removed: set<int>, cleared: bool)

  const NONE_MANY := Many({}, {}, false)

  /** The pending changes of an edge stored as a foreign key of the account; the key is also a field. */
  datatype Unique = Unique(target: Option<int>, fieldCleared: bool, edgeCleared: bool) {
    predicate Cleared() { fieldCleared || edgeCleared }
  }

  const NONE_UNIQUE := Unique(None, false, false)

  datatype Edges = Edges(groups: Many, proxy: Unique, parent: Unique, children: Many, usageLogs: Many)

  function IdSet(ids: seq<int>): set<int> {
    set i | 0 <= i < |ids| :: ids[i]
  }

  datatype ManyCall = Add(ids: seq<int>) | Remove(ids: seq<int>) | Clear | Reset

  function NextMany(m: Many, call: ManyCall): Many {
    match call
    case Add(ids) => m.(added := m.added + IdSet(ids))
    case Remove(ids) => m.(added := m.added - IdSet(ids), removed := m.removed + IdSet(ids))
    case Clear => m.(cleared := true)
    case Reset => NONE_MANY
  }

  datatype UniqueCall = SetKey(id: int) | ClearField | ClearEdge | ResetField | ResetEdge

  function NextUnique(u: Unique, call: UniqueCall): Unique {
    match call
    case SetKey(id) => u.(target := Some(id))
    case ClearField => u.(target := None, fieldCleared := true)
    case ClearEdge => u.(fieldCleared := true, edgeCleared := true)
    case ResetField => u.(target := None, fieldCleared := false)
    case ResetEdge => u.(target := None, edgeCleared := false)
  }

  class ManyEdge {
    var added: set<int>
    var removed: set<int>
    var cleared: bool

    function State(): Many reads this {
      Many(added, removed, cleared)
    }

    constructor ()
      ensures State() == NONE_MANY
    {
      added, removed, cleared := {}, {}, false;
    }

    method AddIDs(ids: seq<int>)
      modifies this`added
      ensures State() == NextMany(old(State()), Add(ids))
    {
      for i := 0 to |ids|
        invariant added == old(added) + IdSet(ids[..i])
      {
        assert IdSet(ids[..i + 1]) == IdSet(ids[..i]) + {ids[i]} by { Grow(ids, i); }
        added := added + {ids[i]};
      }
      assert ids[..|ids|] == ids;
    }

    method RemoveIDs(ids: seq<int>)
      modifies this`added, this`removed
      ensures State() == NextMany(old(State()), Remove(ids))
    {
      for i := 0 to |ids|
        invariant added == old(added) - IdSet(ids[..i])
        invariant removed == old(removed) + IdSet(ids[..i])
      {
        assert IdSet(ids[..i + 1]) == IdSet(ids[..i]) + {ids[i]} by { Grow(ids, i); }
        added := added - {ids[i]};
        removed := removed + {ids[i]};
      }
      assert ids[..|ids|] == ids;
    }

    method ClearAll()
      modifies this`cleared
      ensures State() == NextMany(old(State()), Clear)
    {
      cleared := true;
    }

    method ResetAll()
      modifies this
      ensures State() == NextMany(old(State()), Reset)
    {
      added, cleared, removed := {}, false, {};
    }
  }

  lemma {:induction false} Grow(ids: seq<int>, i: nat)
    requires i < |ids|
    ensures IdSet(ids[..i + 1]) == IdSet(ids[..i]) + {ids[i]}
  {
    forall x | x in IdSet(ids[..i + 1]) ensures x in IdSet(ids[..i]) + {ids[i]} {
      var k :| 0 <= k <= i && ids[..i + 1][k] == x;
      if k < i { assert ids[..i][k] == x; }
    }
    forall x | x in IdSet(ids[..i]) + {ids[i]} ensures x in IdSet(ids[..i + 1]) {
      if x == ids[i] {
        assert ids[..i + 1][i] == x;
      } else {
        var k :| 0 <= k < i && ids[..i][k] == x;
        assert ids[..i + 1][k] == x;
      }
    }
  }

  class UniqueEdge {
    var target: Option<int>
    var fieldCleared: bool
    var edgeCleared: bool

    function State(): Unique reads this {
      Unique(target, fieldCleared, edgeCleared)
    }

    constructor ()
      ensures State() == NONE_UNIQUE
    {
      target, fieldCleared, edgeCleared := None, false, false;
    }

    method SetKeyID(id: int)
      modifies this`target
      ensures State() == NextUnique(old(State()), SetKey(id))
    {
      target := Some(id);
    }

    method ClearKeyField()
      modifies this`target, this`fieldCleared
      ensures State() == NextUnique(old(State()), ClearField)
    {
      target := None;
      fieldCleared := true;
    }

    method ClearUniqueEdge()
      modifies this`edgeCleared, this`fieldCleared
      ensures State() == NextUnique(old(State()), ClearEdge)
    {
      edgeCleared := true;
      fieldCleared := true;
    }

    method ResetKeyField()
      modifies this`target, this`fieldCleared
      ensures State() == NextUnique(old(State()), ResetField)
    {
      target := None;
      fieldCleared := false;
    }

    method ResetUniqueEdge()
      modifies this`target, this`edgeCleared
      ensures State() == NextUnique(old(State()), ResetEdge)
    {
      target := None;
      edgeCleared := false;
    }
  }

  // ---------------------------------------------------------------- compiling to edge lists

  /** A clearing edge without targets clears the whole edge. */
  datatype EdgeLists = EdgeLists(clear: seq<EdgeSpec>, add: seq<EdgeSpec>)

  function ManyClears(kind: EdgeKind, m: Many): seq<EdgeSpec> {
    if m.cleared then [EdgeSpec(kind, {})] else Edge(kind, m.removed)
  }

  function UniqueClears(kind: EdgeKind, u: Unique): seq<EdgeSpec> {
    if u.Cleared() then [EdgeSpec(kind, {})] else []
  }

  function Compile(e: Edges): EdgeLists {
    EdgeLists(
      ManyClears(GroupsEdge, e.groups) + UniqueClears(ProxyEdge, e.proxy) + UniqueClears(ParentEdge, e.parent)
      + ManyClears(ChildrenEdge, e.children) + ManyClears(UsageLogsEdge, e.usageLogs),
      Edge(GroupsEdge, e.groups.added) + Edge(ProxyEdge, One(e.proxy.target)) + Edge(ParentEdge, One(e.parent.target))
      + Edge(ChildrenEdge, e.children.added) + Edge(UsageLogsEdge, e.usageLogs.added))
  }

  class AccountUpdate {
    const groups: ManyEdge
    const proxy: UniqueEdge
    const parent: UniqueEdge
    const children: ManyEdge
    const usageLogs: ManyEdge
    var clear: seq<EdgeSpec>
    var add: seq<EdgeSpec>

    constructor ()
      ensures fresh(groups) && fresh(proxy) && fresh(parent) && fresh(children) && fresh(usageLogs)
      ensures State() == Edges(NONE_MANY, NONE_UNIQUE, NONE_UNIQUE, NONE_MANY, NONE_MANY)
    {
      groups := new ManyEdge();
      proxy := new UniqueEdge();
      parent := new UniqueEdge();
      children := new ManyEdge();
      usageLogs := new ManyEdge();
      clear, add := [], [];
    }

    function State(): Edges
      reads groups, proxy, parent, children, usageLogs
    {
      Edges(groups.State(), proxy.State(), parent.State(), children.State(), usageLogs.State())
    }

    method CompileMany(kind: EdgeKind, edge: ManyEdge)
      modifies this
      ensures clear == old(clear) + ManyClears(kind, edge.State())
      ensures add == old(add) + Edge(kind, edge.State().added)
    {
      if edge.cleared {
        clear := clear + [EdgeSpec(kind, {})];
      }
      if edge.removed != {} && !edge.cleared {
        clear := clear + [EdgeSpec(kind, edge.removed)];
      }
      if edge.added != {} {
        add := add + [EdgeSpec(kind, edge.added)];
      }
    }

    method CompileUnique(kind: EdgeKind, edge: UniqueEdge)
      modifies this
      ensures clear == old(clear) + UniqueClears(kind, edge.State())
      ensures add == old(add) + Edge(kind, One(edge.State().target))
    {
      if edge.fieldCleared || edge.edgeCleared {
        clear := clear + [EdgeSpec(kind, {})];
      }
      if edge.target.Some? {
        add := add + [EdgeSpec(kind, {edge.target.value})];
      }
    }

    /** The edge part of sqlSave. */
    method CompileEdges()
      modifies this
      ensures EdgeLists(clear, add) == Compile(State())
    {
      clear, add := [], [];
      CompileMany(GroupsEdge, groups);
      CompileUnique(ProxyEdge, proxy);
      CompileUnique(ParentEdge, parent);
      CompileMany(ChildrenEdge, children);
      CompileMany(UsageLogsEdge, usageLogs);
      assert [] + ManyClears(GroupsEdge, groups.State()) == ManyClears(GroupsEdge, groups.State());
      assert [] + Edge(GroupsEdge, groups.added) == Edge(GroupsEdge, groups.added);
    }
  }

  // ---------------------------------------------------------------- what the database does with the lists

  type Keys = map<int, Option<int>>

  /** The join table, and the foreign keys: of accounts to their proxy and parent, of usage logs to their account. */
  datatype Store = Store(links: set<(int, int)>, proxy: Keys, parent: Keys, owner: Keys)

  datatype Conflict = DuplicateLink | AlreadyOwned | ManyOwners

  datatype Rel = M2M | M2O | O2M

  function RelOf(kind: EdgeKind): Rel {
    match kind
    case GroupsEdge => M2M
    case ProxyEdge | ParentEdge => M2O
    case ChildrenEdge | UsageLogsEdge => O2M
  }

  function SetKeys(keys: Keys, ids: set<int>, target: Option<int>): Keys {
    map x | x in keys :: if x in ids then target else keys[x]
  }

  predicate Owned(key: Option<int>, ids: set<int>) {
    key.Some? && key.value in ids
  }

  function Unlink(keys: Keys, ids: set<int>, targets: set<int>): Keys {
    map x | x in keys :: if Owned(keys[x], ids) && (targets == {} || x in targets) then None else keys[x]
  }

  /** The member of a set of one. */
  ghost function Target(targets: set<int>): Option<int> {
    if exists id :: targets == {id} then (var id :| targets == {id}; Some(id)) else None
  }

  /** A row that already has an owner, or does not exist, makes the whole statement fail. */
  predicate Free(keys: Keys, targets: set<int>) {
    forall x :: x in targets ==> x in keys && keys[x] == None
  }

  ghost function Link(keys: Keys, ids: set<int>, targets: set<int>): Result<Keys, Conflict> {
    if Target(ids).None? then Err(ManyOwners)
    else if !Free(keys, targets) then Err(AlreadyOwned)
    else Ok(SetKeys(keys, targets, Target(ids)))
  }

  ghost function ClearOne(s: Store, ids: set<int>, e: EdgeSpec): Store {
    match e.kind
    case GroupsEdge =>
      s.(links := set p | p in s.links && !(p.0 in ids && (e.targets == {} || p.1 in e.targets)))
    case ProxyEdge => s.(proxy := SetKeys(s.proxy, ids, None))
    case ParentEdge => s.(parent := SetKeys(s.parent, ids, None))
    case ChildrenEdge => s.(parent := Unlink(s.parent, ids, e.targets))
    case UsageLogsEdge => s.(owner := Unlink(s.owner, ids, e.targets))
  }

  function Pairs(ids: set<int>, targets: set<int>): set<(int, int)> {
    set a, g | a in ids && g in targets :: (a, g)
  }

  /** With strict, the join table refuses a pair it already holds; otherwise it keeps the one it has. */
  ghost function AddOne(strict: bool, s: Store, ids: set<int>, e: EdgeSpec): Result<Store, Conflict>
  {
    match e.kind
    case GroupsEdge =>
      if strict && !(Pairs(ids, e.targets) !! s.links) then Err(DuplicateLink)
      else Ok(s.(links := s.links + Pairs(ids, e.targets)))
    case ProxyEdge => Ok(s.(proxy := SetKeys(s.proxy, ids, Target(e.targets))))
    case ParentEdge => Ok(s.(parent := SetKeys(s.parent, ids, Target(e.targets))))
    case ChildrenEdge =>
      (match Link(s.parent, ids, e.targets)
       case Err(c) => Err(c)
       case Ok(keys) => Ok(s.(parent := keys)))
    case UsageLogsEdge =>
      (match Link(s.owner, ids, e.targets)
       case Err(c) => Err(c)
       case Ok(keys) => Ok(s.(owner := keys)))
  }

  ghost function ClearEdges(rel: Rel, s: Store, ids: set<int>, edges: seq<EdgeSpec>): Store
    decreases edges
  {
    if edges == [] then s
    else ClearEdges(rel, if RelOf(edges[0].kind) == rel then ClearOne(s, ids, edges[0]) else s, ids, edges[1..])
  }

  ghost function AddEdges(rel: Rel, strict: bool, s: Store, ids: set<int>,
                          edges: seq<EdgeSpec>): Result<Store, Conflict>
    decreases edges
  {
    if edges == [] then Ok(s)
    else if RelOf(edges[0].kind) != rel then AddEdges(rel, strict, s, ids, edges[1..])
    else
      match AddOne(strict, s, ids, edges[0])
      case Err(c) => Err(c)
      case Ok(next) => AddEdges(rel, strict, next, ids, edges[1..])
  }

  /** Within one kind of relation, every clear comes before every add. */
  ghost function Phase(rel: Rel, strict: bool, s: Store, ids: set<int>, lists: EdgeLists): Result<Store, Conflict>
  {
    AddEdges(rel, strict, ClearEdges(rel, s, ids, lists.clear), ids, lists.add)
  }

  ghost function AndThen(r: Result<Store, Conflict>, rel: Rel, strict: bool, ids: set<int>, lists: EdgeLists)
    : Result<Store, Conflict>
  {
    match r
    case Err(c) => Err(c)
    case Ok(s) => Phase(rel, strict, s, ids, lists)
  }

  /** The accounts' own columns first, then the join table, then the foreign keys of other rows; an error undoes all. */
  ghost function Execute(strict: bool, s: Store, ids: set<int>, lists: EdgeLists): Result<Store, Conflict> {
    if ids == {} then Ok(s)
    else
      AndThen(AndThen(Phase(M2O, strict, s, ids, lists), M2M, strict, ids, lists), O2M, strict, ids, lists)
  }

  // ---------------------------------------------------------------- the meaning of an update

  function ManyAfter(m: Many, before: set<int>): set<int> {
    (if m.cleared then {} else before - m.removed) + m.added
  }

  function UniqueAfter(u: Unique, before: Option<int>): Option<int> {
    if u.target.Some? then u.target else if u.Cleared() then None else before
  }

  function KeysAfter(u: Unique, ids: set<int>, keys: Keys): Keys {
    map x | x in keys :: if x in ids then UniqueAfter(u, keys[x]) else keys[x]
  }

  ghost function GroupsOf(s: Store, a: int): set<int> {
    set p | p in s.links && p.0 == a :: p.1
  }

  /** The rows whose key is a: the children of an account, or its usage logs. */
  function OwnedBy(keys: Keys, a: int): set<int> {
    set x | x in keys && keys[x] == Some(a)
  }

  predicate LetsGo(m: Many, x: int) {
    m.cleared || x in m.removed
  }

  /** Rows can be handed to one account only, and only if they exist and have no owner once the update has let go. */
  predicate Linkable(m: Many, ids: set<int>, keys: Keys) {
    m.added != {} ==>
      |ids| == 1 &&
      forall x :: x in m.added ==> x in keys && (keys[x] == None || (Owned(keys[x], ids) && LetsGo(m, x)))
  }

  ghost predicate Allowed(strict: bool, e: Edges, ids: set<int>, s: Store) {
    ids == {} ||
    ((strict ==> forall a, g :: a in ids && g in e.groups.added ==> (a, g) !in s.links || LetsGo(e.groups, g)) &&
     Linkable(e.children, ids, KeysAfter(e.parent, ids, s.parent)) &&
     Linkable(e.usageLogs, ids, s.owner))
  }

  ghost function RowsAfter(m: Many, ids: set<int>, keys: Keys): Keys {
    map x | x in keys ::
      if x in m.added then Target(ids) else if Owned(keys[x], ids) && LetsGo(m, x) then None else keys[x]
  }

  /** What a successful update leaves in the store. */
  ghost function After(e: Edges, ids: set<int>, s: Store): Store {
    if ids == {} then s
    else
      Store(
        KeptLinks(e.groups, ids, s.links) + Pairs(ids, e.groups.added),
        KeysAfter(e.proxy, ids, s.proxy),
        RowsAfter(e.children, ids, KeysAfter(e.parent, ids, s.parent)),
        RowsAfter(e.usageLogs, ids, s.owner))
  }

  lemma {:induction false} ClearAppend(rel: Rel, s: Store, ids: set<int>, a: seq<EdgeSpec>, b: seq<EdgeSpec>)
    ensures ClearEdges(rel, s, ids, a + b) == ClearEdges(rel, ClearEdges(rel, s, ids, a), ids, b)
    decreases a
  {
    if a == [] {
      assert a + b == b;
    } else {
      assert (a + b)[0] == a[0] && (a + b)[1..] == a[1..] + b;
      ClearAppend(rel, if RelOf(a[0].kind) == rel then ClearOne(s, ids, a[0]) else s, ids, a[1..], b);
    }
  }

  ghost function AddThen(rel: Rel, strict: bool, r: Result<Store, Conflict>, ids: set<int>, b: seq<EdgeSpec>)
    : Result<Store, Conflict>
  {
    match r
    case Err(c) => Err(c)
    case Ok(s) => AddEdges(rel, strict, s, ids, b)
  }

  lemma {:induction false} AddAppend(rel: Rel, strict: bool, s: Store, ids: set<int>, a: seq<EdgeSpec>,
                                     b: seq<EdgeSpec>)
    ensures AddEdges(rel, strict, s, ids, a + b) == AddThen(rel, strict, AddEdges(rel, strict, s, ids, a), ids, b)
    decreases a
  {
    if a == [] {
      assert a + b == b;
    } else {
      assert (a + b)[0] == a[0] && (a + b)[1..] == a[1..] + b;
      if RelOf(a[0].kind) != rel {
        AddAppend(rel, strict, s, ids, a[1..], b);
      } else if AddOne(strict, s, ids, a[0]).Ok? {
        AddAppend(rel, strict, AddOne(strict, s, ids, a[0]).value, ids, a[1..], b);
      }
    }
  }

  /** At most one edge of a kind: it is applied when the phase is its own, and passed over otherwise. */
  lemma {:induction false} ClearSingle(rel: Rel, s: Store, ids: set<int>, e: EdgeSpec)
    ensures ClearEdges(rel, s, ids, [e]) == if RelOf(e.kind) == rel then ClearOne(s, ids, e) else s
  {
    assert [e][1..] == [];
    assert ClearEdges(rel, ClearOne(s, ids, e), ids, []) == ClearOne(s, ids, e);
  }

  ghost function ClearMany(rel: Rel, s: Store, ids: set<int>, kind: EdgeKind, m: Many): Store {
    if RelOf(kind) != rel then s
    else if m.cleared then ClearOne(s, ids, EdgeSpec(kind, {}))
    else if m.removed == {} then s
    else ClearOne(s, ids, EdgeSpec(kind, m.removed))
  }

  ghost function ClearUnique(rel: Rel, s: Store, ids: set<int>, kind: EdgeKind, u: Unique): Store {
    if RelOf(kind) == rel && u.Cleared() then ClearOne(s, ids, EdgeSpec(kind, {})) else s
  }

  lemma {:induction false} ClearPieces(rel: Rel, s: Store, ids: set<int>, e: Edges)
    ensures ClearEdges(rel, s, ids, Compile(e).clear) ==
      (var s1 := ClearMany(rel, s, ids, GroupsEdge, e.groups);
       var s2 := ClearUnique(rel, s1, ids, ProxyEdge, e.proxy);
       var s3 := ClearUnique(rel, s2, ids, ParentEdge, e.parent);
       var s4 := ClearMany(rel, s3, ids, ChildrenEdge, e.children);
       ClearMany(rel, s4, ids, UsageLogsEdge, e.usageLogs))
  {
    var s1 := ClearMany(rel, s, ids, GroupsEdge, e.groups);
    var s2 := ClearUnique(rel, s1, ids, ProxyEdge, e.proxy);
    var s3 := ClearUnique(rel, s2, ids, ParentEdge, e.parent);
    var s4 := ClearMany(rel, s3, ids, ChildrenEdge, e.children);
    var a, b := ManyClears(GroupsEdge, e.groups), UniqueClears(ProxyEdge, e.proxy);
    var c := UniqueClears(ParentEdge, e.parent);
    var d, f := ManyClears(ChildrenEdge, e.children), ManyClears(UsageLogsEdge, e.usageLogs);
    ClearAppend(rel, s, ids, a + b + c + d, f);
    ClearAppend(rel, s, ids, a + b + c, d);
    ClearAppend(rel, s, ids, a + b, c);
    ClearAppend(rel, s, ids, a, b);
    ClearManyPiece(rel, s, ids, GroupsEdge, e.groups);
    ClearUniquePiece(rel, s1, ids, ProxyEdge, e.proxy);
    ClearUniquePiece(rel, s2, ids, ParentEdge, e.parent);
    ClearManyPiece(rel, s3, ids, ChildrenEdge, e.children);
    ClearManyPiece(rel, s4, ids, UsageLogsEdge, e.usageLogs);
  }

  lemma {:induction false} ClearManyPiece(rel: Rel, s: Store, ids: set<int>, kind: EdgeKind, m: Many)
    ensures ClearEdges(rel, s, ids, ManyClears(kind, m)) == ClearMany(rel, s, ids, kind, m)
  {
    ClearSingle(rel, s, ids, EdgeSpec(kind, {}));
    ClearSingle(rel, s, ids, EdgeSpec(kind, m.removed));
  }

  lemma {:induction false} ClearUniquePiece(rel: Rel, s: Store, ids: set<int>, kind: EdgeKind, u: Unique)
    ensures ClearEdges(rel, s, ids, UniqueClears(kind, u)) == ClearUnique(rel, s, ids, kind, u)
  {
    ClearSingle(rel, s, ids, EdgeSpec(kind, {}));
  }

  ghost function AddKind(rel: Rel, strict: bool, r: Result<Store, Conflict>, ids: set<int>, kind: EdgeKind,
      targets: set<int>): Result<Store, Conflict>
  {
    if r.Err? || RelOf(kind) != rel || targets == {} then r
    else AddOne(strict, r.value, ids, EdgeSpec(kind, targets))
  }

  lemma {:induction false} AddPiece(rel: Rel, strict: bool, r: Result<Store, Conflict>, ids: set<int>, kind: EdgeKind,
      targets: set<int>)
    ensures AddThen(rel, strict, r, ids, Edge(kind, targets)) == AddKind(rel, strict, r, ids, kind, targets)
  {
    if r.Ok? && targets != {} {
      var e := EdgeSpec(kind, targets);
      assert Edge(kind, targets) == [e] && [e][0] == e && [e][1..] == [];
      AddSingle(rel, strict, r.value, ids, e);
    }
  }

  lemma {:induction false} AddSingle(rel: Rel, strict: bool, s: Store, ids: set<int>, e: EdgeSpec)
    ensures AddEdges(rel, strict, s, ids, [e]) == if RelOf(e.kind) == rel then AddOne(strict, s, ids, e) else Ok(s)
  {
    assert [e][1..] == [];
    forall t: Store ensures AddEdges(rel, strict, t, ids, []) == Ok(t) {
    }
  }

  lemma {:induction false} AddPieces(rel: Rel, strict: bool, s: Store, ids: set<int>, e: Edges)
    ensures AddEdges(rel, strict, s, ids, Compile(e).add) ==
      (var s1 := AddKind(rel, strict, Ok(s), ids, GroupsEdge, e.groups.added);
       var s2 := AddKind(rel, strict, s1, ids, ProxyEdge, One(e.proxy.target));
       var s3 := AddKind(rel, strict, s2, ids, ParentEdge, One(e.parent.target));
       var s4 := AddKind(rel, strict, s3, ids, ChildrenEdge, e.children.added);
       AddKind(rel, strict, s4, ids, UsageLogsEdge, e.usageLogs.added))
  {
    var s1 := AddKind(rel, strict, Ok(s), ids, GroupsEdge, e.groups.added);
    var s2 := AddKind(rel, strict, s1, ids, ProxyEdge, One(e.proxy.target));
    var s3 := AddKind(rel, strict, s2, ids, ParentEdge, One(e.parent.target));
    var s4 := AddKind(rel, strict, s3, ids, ChildrenEdge, e.children.added);
    var a, b := Edge(GroupsEdge, e.groups.added), Edge(ProxyEdge, One(e.proxy.target));
    var c, d := Edge(ParentEdge, One(e.parent.target)), Edge(ChildrenEdge, e.children.added);
    var f := Edge(UsageLogsEdge, e.usageLogs.added);
    AddAppend(rel, strict, s, ids, a + b + c + d, f);
    AddAppend(rel, strict, s, ids, a + b + c, d);
    AddAppend(rel, strict, s, ids, a + b, c);
    AddAppend(rel, strict, s, ids, a, b);
    AddPiece(rel, strict, Ok(s), ids, GroupsEdge, e.groups.added);
    AddPiece(rel, strict, s1, ids, ProxyEdge, One(e.proxy.target));
    AddPiece(rel, strict, s2, ids, ParentEdge, One(e.parent.target));
    AddPiece(rel, strict, s3, ids, ChildrenEdge, e.children.added);
    AddPiece(rel, strict, s4, ids, UsageLogsEdge, e.usageLogs.added);
  }

  lemma {:induction false} OwnColumns(strict: bool, e: Edges, ids: set<int>, s: Store)
    ensures Phase(M2O, strict, s, ids, Compile(e)) ==
      Ok(s.(proxy := KeysAfter(e.proxy, ids, s.proxy), parent := KeysAfter(e.parent, ids, s.parent)))
  {
    ClearPieces(M2O, s, ids, e);
    var cleared := ClearEdges(M2O, s, ids, Compile(e).clear);
    AddPieces(M2O, strict, cleared, ids, e);
    KeySteps(e.proxy, ids, s.proxy);
    KeySteps(e.parent, ids, s.parent);
  }

  lemma {:induction false} TargetSingle(x: int)
    ensures Target({x}) == Some(x)
  {
    var s := {x};
    assert s == {x};
    assert x in {Target(s).value};
  }

  /** What the clearing and the adding edge make of one of the accounts' own columns. */
  ghost function Rekeyed(u: Unique, ids: set<int>, keys: Keys): Keys {
    var cleared := if u.Cleared() then SetKeys(keys, ids, None) else keys;
    if u.target.Some? then SetKeys(cleared, ids, Target(One(u.target))) else cleared
  }

  lemma {:induction false} KeySteps(u: Unique, ids: set<int>, keys: Keys)
    ensures Rekeyed(u, ids, keys) == KeysAfter(u, ids, keys)
  {
    var a, b := Rekeyed(u, ids, keys), KeysAfter(u, ids, keys);
    if u.target.Some? {
      TargetSingle(u.target.value);
      assert One(u.target) == {u.target.value};
    }
    assert a.Keys == keys.Keys == b.Keys;
    forall x | x in keys ensures a[x] == b[x] {
    }
  }

  /** The links an update keeps. */
  ghost function KeptLinks(m: Many, ids: set<int>, links: set<(int, int)>): set<(int, int)> {
    set p | p in links && !(p.0 in ids && LetsGo(m, p.1))
  }

  ghost predicate LinksClash(m: Many, ids: set<int>, links: set<(int, int)>) {
    exists a, g :: a in ids && g in m.added && (a, g) in links && !LetsGo(m, g)
  }

  lemma {:induction false} Clash(m: Many, ids: set<int>, links: set<(int, int)>)
    ensures LinksClash(m, ids, links) <==> !(Pairs(ids, m.added) !! KeptLinks(m, ids, links))
  {
    var pairs, kept := Pairs(ids, m.added), KeptLinks(m, ids, links);
    if a, g :| a in ids && g in m.added && (a, g) in links && !LetsGo(m, g) {
      assert (a, g) in pairs && (a, g) in kept;
    }
    if p :| p in pairs && p in kept {
      assert p == (p.0, p.1);
    }
  }

  lemma {:induction false} ClearedLinks(e: Edges, ids: set<int>, s: Store)
    ensures ClearEdges(M2M, s, ids, Compile(e).clear) == s.(links := KeptLinks(e.groups, ids, s.links))
  {
    ClearPieces(M2M, s, ids, e);
    assert ClearMany(M2M, s, ids, GroupsEdge, e.groups).links == KeptLinks(e.groups, ids, s.links);
  }

  lemma {:induction false} JoinTable(strict: bool, e: Edges, ids: set<int>, s: Store)
    ensures Phase(M2M, strict, s, ids, Compile(e)) ==
      if strict && LinksClash(e.groups, ids, s.links) then Err(DuplicateLink)
      else Ok(s.(links := KeptLinks(e.groups, ids, s.links) + Pairs(ids, e.groups.added)))
  {
    ClearedLinks(e, ids, s);
    AddPieces(M2M, strict, ClearEdges(M2M, s, ids, Compile(e).clear), ids, e);
    Clash(e.groups, ids, s.links);
    if e.groups.added == {} {
      assert Pairs(ids, e.groups.added) == {};
      assert KeptLinks(e.groups, ids, s.links) + Pairs(ids, e.groups.added) == KeptLinks(e.groups, ids, s.links);
    }
  }

  lemma {:induction false} Member<T>(s: set<T>) returns (x: T)
    requires s != {}
    ensures x in s
  {
    x :| x in s;
  }

  lemma {:induction false} TargetOf(ids: set<int>)
    ensures Target(ids).Some? ==> ids == {Target(ids).value}
    ensures Target(ids).Some? <==> |ids| == 1
  {
    if |ids| == 1 {
      var id := Member(ids);
      assert |ids - {id}| == 0;
      assert ids == {id};
    }
  }

  /** What the clearing edges make of the rows of one foreign key. */
  function Released(m: Many, ids: set<int>, keys: Keys): Keys {
    if m.cleared then Unlink(keys, ids, {}) else if m.removed == {} then keys else Unlink(keys, ids, m.removed)
  }

  lemma {:induction false} ReleasedRows(e: Edges, ids: set<int>, s: Store)
    ensures ClearEdges(O2M, s, ids, Compile(e).clear) ==
      s.(parent := Released(e.children, ids, s.parent), owner := Released(e.usageLogs, ids, s.owner))
  {
    ClearPieces(O2M, s, ids, e);
  }

  ghost function LinkMany(keys: Keys, ids: set<int>, m: Many): Result<Keys, Conflict> {
    if m.added == {} then Ok(keys) else Link(keys, ids, m.added)
  }

  lemma {:induction false} RowSteps(m: Many, ids: set<int>, keys: Keys)
    ensures (var linked := LinkMany(Released(m, ids, keys), ids, m);
             if Linkable(m, ids, keys) then linked == Ok(RowsAfter(m, ids, keys)) else linked.Err?)
  {
    var cleared := Released(m, ids, keys);
    assert forall x :: x in keys ==> cleared[x] == if Owned(keys[x], ids) && LetsGo(m, x) then None else keys[x];
    TargetOf(ids);
    if m.added == {} {
      assert cleared == RowsAfter(m, ids, keys);
    } else if Linkable(m, ids, keys) {
      assert Free(cleared, m.added);
      assert SetKeys(cleared, m.added, Target(ids)) == RowsAfter(m, ids, keys);
    } else if |ids| == 1 {
      var x :| x in m.added && !(x in keys && (keys[x] == None || (Owned(keys[x], ids) && LetsGo(m, x))));
      assert !(x in cleared && cleared[x] == None);
    }
  }

  lemma {:induction false} LinkedRows(strict: bool, e: Edges, ids: set<int>, s: Store)
    ensures AddEdges(O2M, strict, s, ids, Compile(e).add) ==
      (match LinkMany(s.parent, ids, e.children)
       case Err(c) => Err(c)
       case Ok(parent) =>
         match LinkMany(s.owner, ids, e.usageLogs)
         case Err(c) => Err(c)
         case Ok(owner) => Ok(s.(parent := parent, owner := owner)))
  {
    AddPieces(O2M, strict, s, ids, e);
  }

  lemma {:induction false} ForeignRows(strict: bool, e: Edges, ids: set<int>, s: Store)
    ensures (var r := Phase(O2M, strict, s, ids, Compile(e));
             if Linkable(e.children, ids, s.parent) && Linkable(e.usageLogs, ids, s.owner)
             then r == Ok(s.(parent := RowsAfter(e.children, ids, s.parent),
                             owner := RowsAfter(e.usageLogs, ids, s.owner)))
             else r.Err?)
  {
    ReleasedRows(e, ids, s);
    LinkedRows(strict, e, ids, ClearEdges(O2M, s, ids, Compile(e).clear));
    RowSteps(e.children, ids, s.parent);
    RowSteps(e.usageLogs, ids, s.owner);
  }

  /** For any pending changes, matched accounts and store: the compiled lists succeed exactly when allowed, and then
      leave exactly what the pending changes mean. */
  lemma {:induction false} UpdateExact(strict: bool, e: Edges, ids: set<int>, s: Store)
    ensures (var r := Execute(strict, s, ids, Compile(e));
             if Allowed(strict, e, ids, s) then r == Ok(After(e, ids, s)) else r.Err?)
  {
    if ids != {} {
      OwnColumns(strict, e, ids, s);
      var s1 := Phase(M2O, strict, s, ids, Compile(e)).value;
      JoinTable(strict, e, ids, s1);
      var r2 := Phase(M2M, strict, s1, ids, Compile(e));
      if r2.Ok? {
        ForeignRows(strict, e, ids, r2.value);
      }
    }
  }

  /** The set law of every edge to many: cleared or reduced, then extended; nothing is taken from another account. */
  lemma {:induction false} UpdateLaw(strict: bool, e: Edges, ids: set<int>, s: Store, a: int)
    requires Execute(strict, s, ids, Compile(e)).Ok?
    ensures (var t := Execute(strict, s, ids, Compile(e)).value;
             var parents := KeysAfter(e.parent, ids, s.parent);
             if a in ids
             then GroupsOf(t, a) == ManyAfter(e.groups, GroupsOf(s, a)) &&
                  OwnedBy(t.parent, a) == ManyAfter(e.children, OwnedBy(parents, a)) &&
                  OwnedBy(t.owner, a) == ManyAfter(e.usageLogs, OwnedBy(s.owner, a))
             else GroupsOf(t, a) == GroupsOf(s, a) &&
                  OwnedBy(t.parent, a) == OwnedBy(parents, a) &&
                  OwnedBy(t.owner, a) == OwnedBy(s.owner, a))
  {
    UpdateExact(strict, e, ids, s);
    var t := Execute(strict, s, ids, Compile(e)).value;
    if ids != {} {
      GroupsLaw(e, ids, s, a);
      RowsLaw(e.children, ids, KeysAfter(e.parent, ids, s.parent), a);
      RowsLaw(e.usageLogs, ids, s.owner, a);
    }
  }

  lemma {:induction false} GroupsLaw(e: Edges, ids: set<int>, s: Store, a: int)
    requires ids != {}
    ensures GroupsOf(After(e, ids, s), a) ==
      if a in ids then ManyAfter(e.groups, GroupsOf(s, a)) else GroupsOf(s, a)
  {
    var t := After(e, ids, s);
    var law := if a in ids then ManyAfter(e.groups, GroupsOf(s, a)) else GroupsOf(s, a);
    forall g ensures g in GroupsOf(t, a) <==> g in law {
      LinkOf(s, a, g);
      LinkOf(t, a, g);
      assert (a, g) in Pairs(ids, e.groups.added) <==> a in ids && g in e.groups.added;
    }
    assert GroupsOf(t, a) == law;
  }

  lemma {:induction false} LinkOf(s: Store, a: int, g: int)
    ensures g in GroupsOf(s, a) <==> (a, g) in s.links
  {
    if g in GroupsOf(s, a) {
      var p :| p in s.links && p.0 == a && p.1 == g;
      assert p == (a, g);
    }
    if (a, g) in s.links {
      assert (a, g).0 == a && (a, g).1 == g;
    }
  }

  lemma {:induction false} RowsLaw(m: Many, ids: set<int>, keys: Keys, a: int)
    requires ids != {} && Linkable(m, ids, keys)
    ensures OwnedBy(RowsAfter(m, ids, keys), a) ==
      if a in ids then ManyAfter(m, OwnedBy(keys, a)) else OwnedBy(keys, a)
  {
    TargetOf(ids);
    var after := RowsAfter(m, ids, keys);
    var law := if a in ids then ManyAfter(m, OwnedBy(keys, a)) else OwnedBy(keys, a);
    forall x ensures x in OwnedBy(after, a) <==> x in law {
    }
  }

  // ---------------------------------------------------------------- pending changes against changes made at once

  function Pending(calls: seq<ManyCall>): Many {
    if calls == [] then NONE_MANY else NextMany(Pending(calls[..|calls| - 1]), calls[|calls| - 1])
  }

  function Effect(stored: set<int>, now: set<int>, call: ManyCall): set<int> {
    match call
    case Add(ids) => now + IdSet(ids)
    case Remove(ids) => now - IdSet(ids)
    case Clear => {}
    case Reset => stored
  }

  /** The edge if every call took effect as it was made. */
  function Replay(stored: set<int>, calls: seq<ManyCall>): set<int> {
    if calls == [] then stored else Effect(stored, Replay(stored, calls[..|calls| - 1]), calls[|calls| - 1])
  }

  predicate Touches(call: ManyCall, x: int) {
    match call
    case Add(ids) => x in ids
    case Remove(ids) => x in ids
    case Clear => false
    case Reset => true
  }

  /** Added, then cleared, and not named by a later call: such an id is linked although its edge was cleared. */
  ghost predicate StrandedAt(calls: seq<ManyCall>, i: int, x: int) {
    0 <= i < |calls| && calls[i].Clear? && x in Pending(calls[..i]).added &&
    forall j :: i < j < |calls| ==> !Touches(calls[j], x)
  }

  ghost predicate Stranded(calls: seq<ManyCall>, x: int) {
    exists i :: StrandedAt(calls, i, x)
  }

  lemma {:induction false} StaysPending(calls: seq<ManyCall>, i: nat, x: int)
    requires i <= |calls| && x in Pending(calls[..i]).added
    requires forall j :: i <= j < |calls| ==> !Touches(calls[j], x)
    ensures x in Pending(calls).added
  {
    if i == |calls| {
      assert calls[..i] == calls;
    } else {
      var front := calls[..|calls| - 1];
      assert front[..i] == calls[..i];
      StaysPending(front, i, x);
    }
  }

  lemma {:induction false} StrandedNext(calls: seq<ManyCall>, x: int)
    requires calls != []
    ensures (var front, last := calls[..|calls| - 1], calls[|calls| - 1];
             Stranded(calls, x) <==>
               if last.Clear? then x in Pending(front).added else Stranded(front, x) && !Touches(last, x))
  {
    var n := |calls| - 1;
    var front, last := calls[..n], calls[n];
    if i :| StrandedAt(calls, i, x) {
      if i < n {
        assert front[..i] == calls[..i];
        assert !Touches(last, x);
        assert StrandedAt(front, i, x);
        assert NextMany(Pending(front[..i]), Clear).added == Pending(front[..i]).added;
        StaysPending(front, i, x);
      }
    }
    if last.Clear? && x in Pending(front).added {
      assert StrandedAt(calls, n, x);
    }
    if i :| StrandedAt(front, i, x) && !last.Clear? && !Touches(last, x) {
      assert front[..i] == calls[..i];
      assert StrandedAt(calls, i, x);
    }
  }

  /** The update leaves what the calls made at once would have left, and the stranded ids besides. */
  lemma {:induction false} PendingExact(stored: set<int>, calls: seq<ManyCall>, x: int)
    ensures x in ManyAfter(Pending(calls), stored) <==> x in Replay(stored, calls) || Stranded(calls, x)
    ensures !(x in Replay(stored, calls) && Stranded(calls, x))
  {
    if calls == [] {
      assert forall i :: !StrandedAt(calls, i, x);
    } else {
      PendingExact(stored, calls[..|calls| - 1], x);
      StrandedNext(calls, x);
      var last := calls[|calls| - 1];
      if last.Add? || last.Remove? {
        assert x in last.ids <==> x in IdSet(last.ids);
      }
    }
  }

  /** Waiting is harmless, whatever is stored, exactly when no id is stranded. */
  lemma {:induction false} PendingIsReplay(stored: set<int>, calls: seq<ManyCall>)
    ensures (forall x :: x in ManyAfter(Pending(calls), stored) <==> x in Replay(stored, calls))
      <==> forall x :: !Stranded(calls, x)
  {
    var pending, replay := ManyAfter(Pending(calls), stored), Replay(stored, calls);
    forall x
      ensures x in pending <==> x in replay || Stranded(calls, x)
      ensures !(x in replay && Stranded(calls, x))
    {
      PendingExact(stored, calls, x);
    }
    if x :| Stranded(calls, x) {
      assert x in pending && x !in replay;
    }
  }

  /** Adding a group and then clearing all groups links the account to that group. */
  lemma {:induction false} ClearKeepsAdded(stored: set<int>, id: int)
    ensures (var calls := [Add([id]), Clear];
             ManyAfter(Pending(calls), stored) == {id} && Replay(stored, calls) == {})
  {
    var first: ManyCall := Add([id]);
    var calls := [first, Clear];
    assert calls[..1] == [first] && [first][..0] == [];
    assert IdSet([id]) == {id} by { assert [id][0] == id; }
    assert Pending([first]) == NextMany(NONE_MANY, first);
    assert Pending(calls) == NextMany(Pending([first]), Clear);
  }

  function PendingKey(calls: seq<UniqueCall>): Unique {
    if calls == [] then NONE_UNIQUE else NextUnique(PendingKey(calls[..|calls| - 1]), calls[|calls| - 1])
  }

  /** The key if every call took effect as it was made: the last call decides. */
  function ReplayKey(stored: Option<int>, calls: seq<UniqueCall>): Option<int> {
    if calls == [] then stored
    else
      match calls[|calls| - 1]
      case SetKey(id) => Some(id)
      case ClearField | ClearEdge => None
      case ResetField | ResetEdge => stored
  }

  /** Clearing by the edge does not drop a key set before, and a reset undoes only the clearing of its own side. */
  lemma {:induction false} PendingKeyIsReplay(stored: Option<int>, calls: seq<UniqueCall>, last: UniqueCall)
    ensures UniqueAfter(PendingKey(calls + [last]), stored) == ReplayKey(stored, calls + [last]) <==>
      match last
      case SetKey(_) | ClearField => true
      case ClearEdge => PendingKey(calls).target.None?
      case ResetField => !PendingKey(calls).edgeCleared || stored.None?
      case ResetEdge => !PendingKey(calls).fieldCleared || stored.None?
  {
    assert (calls + [last])[..|calls|] == calls;
  }

  /** ClearProxy and then ResetProxy still clears the proxy: the field keeps the mark of the clearing. */
  lemma {:induction false} ResetKeepsClear(stored: int)
    ensures (var calls := [ClearEdge, ResetEdge];
             UniqueAfter(PendingKey(calls), Some(stored)) == None && ReplayKey(Some(stored), calls) == Some(stored))
  {
    var calls := [ClearEdge, ResetEdge];
    assert calls[..1] == [ClearEdge] && [ClearEdge][..0] == [];
    assert PendingKey([ClearEdge]) == NextUnique(NONE_UNIQUE, ClearEdge);
    assert PendingKey(calls) == NextUnique(PendingKey([ClearEdge]), ResetEdge);
  }

  /** From the calls on the builder to the rows of the join table. */
  lemma {:induction false} GroupsOfCalls(strict: bool, e: Edges, calls: seq<ManyCall>, ids: set<int>, s: Store, a: int,
                                         g: int)
    requires e.groups == Pending(calls) && a in ids
    requires Execute(strict, s, ids, Compile(e)).Ok?
    ensures (a, g) in Execute(strict, s, ids, Compile(e)).value.links <==>
      g in Replay(GroupsOf(s, a), calls) || Stranded(calls, g)
  {
    UpdateLaw(strict, e, ids, s, a);
    LinkOf(Execute(strict, s, ids, Compile(e)).value, a, g);
    PendingExact(GroupsOf(s, a), calls, g);
  }
}

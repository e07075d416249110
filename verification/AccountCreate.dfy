/** The spec and the node a create mutation becomes, and that reading the stored row back gives the same node. */
module AccountCreate {
  import opened Collections
  import opened AccountEntity
  import opened AccountBuilder

  datatype EdgeKind = GroupsEdge | ProxyEdge | ParentEdge | ChildrenEdge | UsageLogsEdge

  datatype EdgeSpec = EdgeSpec(kind: EdgeKind, targets: set<int>)

  /** What is sent to the database; id is what the database gave the row, once it has. */
  datatype Spec = Spec(fields: map<Column, Value>, edges: seq<EdgeSpec>, id: Option<int>)

  /** The entity handed back to the caller. */
  datatype Node = Node(fields: map<Column, Value>, id: int)

  /** Foreign keys travel as edges and the id is the database's; every other column is a field of the spec. */
  predicate SpecColumn(c: Column) {
    ValidColumn(c) && !c.ID? && !c.ProxyID? && !c.ParentAccountID?
  }

  function SpecFields(m: Mutation): map<Column, Value> {
    map c | c in m.values && SpecColumn(c) :: m.values[c]
  }

  function Edge(kind: EdgeKind, targets: set<int>): seq<EdgeSpec> {
    if targets == {} then [] else [EdgeSpec(kind, targets)]
  }

  function One(id: Option<int>): set<int> {
    if id.Some? then {id.value} else {}
  }

  function SpecEdges(m: Mutation): seq<EdgeSpec> {
    Edge(GroupsEdge, m.groups) + Edge(ProxyEdge, One(m.proxy)) + Edge(ParentEdge, One(m.parent))
    + Edge(ChildrenEdge, m.children) + Edge(UsageLogsEdge, m.usageLogs)
  }

  function SpecOf(m: Mutation): Spec {
    Spec(SpecFields(m), SpecEdges(m), None)
  }

  function WithKey(fields: map<Column, Value>, c: Column, id: Option<int>): map<Column, Value> {
    if id.Some? then fields[c := IntV(id.value)] else fields
  }

  function NodeOf(m: Mutation): Node {
    Node(WithKey(WithKey(SpecFields(m), ProxyID, m.proxy), ParentAccountID, m.parent), 0)
  }

  // ---------------------------------------------------------------- what the database stores

  type Encoder = map<string, string> -> seq<bv8>

  /** Documents survive encoding. */
  ghost predicate Inverse(encode: Encoder, decode: Decoder) {
    forall doc :: encode(doc) != [] && decode(encode(doc)) == Object(doc)
  }

  function CellFor(encode: Encoder, v: Value): Cell {
    match v
    case IntV(n) => IntCell(n)
    case TextV(s) => TextCell(s)
    case BoolV(b) => BoolCell(b)
    case FloatV(r) => FloatCell(r)
    case TimeV(t) => TimeCell(t)
    case JsonV(doc) => BytesCell(encode(doc))
  }

  /** The targets of the spec's edge of this kind. */
  function Targets(edges: seq<EdgeSpec>, kind: EdgeKind): set<int> {
    if edges == [] then {}
    else if edges[0].kind == kind then edges[0].targets
    else Targets(edges[1..], kind)
  }

  ghost function KeyCell(targets: set<int>): Cell {
    if exists id :: targets == {id} then (var id :| targets == {id}; IntCell(id)) else Null
  }

  /** A column the spec does not mention is stored as NULL. */
  ghost function StoredCell(encode: Encoder, spec: Spec, id: int, c: Column): Cell {
    if c.ID? then IntCell(id)
    else if c.ProxyID? then KeyCell(Targets(spec.edges, ProxyEdge))
    else if c.ParentAccountID? then KeyCell(Targets(spec.edges, ParentEdge))
    else if c in spec.fields then CellFor(encode, spec.fields[c])
    else Null
  }

  ghost function StoredRow(encode: Encoder, spec: Spec, id: int): Row {
    map c | c in Columns() :: StoredCell(encode, spec, id, c)
  }

  /** Every value is of the kind its column has: what the typed setters of the mutation guarantee. */
  ghost predicate WellTyped(values: map<Column, Value>) {
    forall c :: c in values ==> ValueKind(values[c]) == KindOf(c)
  }

  function ValueKind(v: Value): Kind {
    match v
    case IntV(_) => Int
    case TextV(_) => Text
    case BoolV(_) => Bool
    case FloatV(_) => Float
    case TimeV(_) => Time
    case JsonV(_) => Bytes
  }

  lemma {:induction false} EdgeTargets(m: Mutation)
    ensures Targets(SpecEdges(m), ProxyEdge) == One(m.proxy) && Targets(SpecEdges(m), ParentEdge) == One(m.parent)
  {
    var rest := Edge(ChildrenEdge, m.children) + Edge(UsageLogsEdge, m.usageLogs);
    var parents := Edge(ParentEdge, One(m.parent)) + rest;
    var proxies := Edge(ProxyEdge, One(m.proxy)) + parents;
    assert SpecEdges(m) == Edge(GroupsEdge, m.groups) + proxies;
    SkipEdge(GroupsEdge, m.groups, proxies, ProxyEdge);
    SkipEdge(GroupsEdge, m.groups, proxies, ParentEdge);
    SkipEdge(ProxyEdge, One(m.proxy), parents, ParentEdge);
    SkipEdge(ParentEdge, One(m.parent), rest, ProxyEdge);
    assert rest == Edge(ChildrenEdge, m.children) + (Edge(UsageLogsEdge, m.usageLogs) + []);
    forall kind: EdgeKind | kind.ProxyEdge? || kind.ParentEdge? ensures Targets(rest, kind) == {} {
      SkipEdge(ChildrenEdge, m.children, Edge(UsageLogsEdge, m.usageLogs) + [], kind);
      SkipEdge(UsageLogsEdge, m.usageLogs, [], kind);
    }
    if m.proxy.None? { assert proxies == parents; }
    if m.parent.None? { assert parents == rest; }
  }

  lemma {:induction false} SkipEdge(kind: EdgeKind, targets: set<int>, rest: seq<EdgeSpec>, wanted: EdgeKind)
    requires kind != wanted
    ensures Targets(Edge(kind, targets) + rest, wanted) == Targets(rest, wanted)
  {
    if targets == {} {
      assert Edge(kind, targets) + rest == rest;
    } else {
      assert (Edge(kind, targets) + rest)[1..] == rest;
    }
  }

  lemma {:induction false} KeyCellOf(id: Option<int>)
    ensures KeyCell(One(id)) == if id.Some? then IntCell(id.value) else Null
  {
    if id.Some? {
      assert One(id) == {id.value};
      assert forall k :: One(id) == {k} ==> k in One(id);
    } else {
      assert forall k: int :: k in {k};
    }
  }

  // ---------------------------------------------------------------- reading the stored row back

  /** The stored cell of a column converts to the column's kind, and gives the field of the node. */
  lemma {:induction false} StoredField(encode: Encoder, decode: Decoder, m: Mutation, id: int, c: Column)
    requires Inverse(encode, decode) && WellTyped(m.values) && ValidColumn(c)
    ensures var slot := Fill(Blank(KindOf(c)), StoredCell(encode, SpecOf(m), id, c));
            && slot.Some? && Decodable(decode, slot.value)
            && FieldOf(decode, c, slot.value)
               == var node := NodeOf(m).fields[ID := IntV(id)]; if c in node then Some(node[c]) else None
  {
    EdgeTargets(m);
    KeyCellOf(m.proxy);
    KeyCellOf(m.parent);
    if SpecColumn(c) {
      SpecField(encode, decode, m, id, c);
    }
  }

  lemma {:induction false} ValueArrives(encode: Encoder, decode: Decoder, c: Column, v: Value)
    requires Inverse(encode, decode)
    ensures var slot := Fill(Blank(ValueKind(v)), CellFor(encode, v));
            slot.Some? && Decodable(decode, slot.value) && FieldOf(decode, c, slot.value) == Some(v)
  {
    if v.JsonV? { assert decode(encode(v.doc)) == Object(v.doc); }
  }

  lemma {:induction false} NullArrives(decode: Decoder, c: Column, kind: Kind)
    requires !kind.Unknown? && !c.ID?
    ensures var slot := Fill(Blank(kind), Null);
            slot.Some? && Decodable(decode, slot.value) && FieldOf(decode, c, slot.value) == None
  {
  }

  lemma {:induction false} SpecField(encode: Encoder, decode: Decoder, m: Mutation, id: int, c: Column)
    requires Inverse(encode, decode) && WellTyped(m.values) && SpecColumn(c)
    ensures var slot := Fill(Blank(KindOf(c)), StoredCell(encode, SpecOf(m), id, c));
            && slot.Some? && Decodable(decode, slot.value)
            && FieldOf(decode, c, slot.value) == if c in m.values then Some(m.values[c]) else None
  {
    if c in m.values {
      ValueArrives(encode, decode, c, m.values[c]);
    } else {
      NullArrives(decode, c, KindOf(c));
    }
  }

  lemma {:induction false} StoredSchema(encode: Encoder, decode: Decoder, m: Mutation, id: int)
    requires Inverse(encode, decode) && WellTyped(m.values)
    ensures SchemaRow(StoredRow(encode, SpecOf(m), id))
  {
    var row := StoredRow(encode, SpecOf(m), id);
    AllColumns();
    forall c: Column | ValidColumn(c) || c in row ensures c in row && Fill(Blank(KindOf(c)), row[c]).Some? {
      assert c in Columns();
      StoredField(encode, decode, m, id, c);
    }
    assert Misfits(row) == iset{};
    assert ID in Columns();
  }

  lemma {:induction false} EntityIs(decode: Decoder, part: map<Column, Slot>, fields: map<Column, Value>)
    requires forall c :: c in part <==> ValidColumn(c)
    requires forall c :: c in fields ==> ValidColumn(c)
    requires forall c :: c in part ==> FieldOf(decode, c, part[c]) == if c in fields then Some(fields[c]) else None
    ensures EntityOf(decode, part) == Entity(fields, map[])
  {
    var found := FieldsOf(decode, part);
    forall c ensures c in found <==> c in fields {
    }
    forall c | c in found ensures found[c] == fields[c] {
    }
    assert found == fields;
    assert SelectedOf(part) == map[];
  }

  /** Reading the stored row back, with every column, gives exactly the node that the create returned. */
  lemma {:induction false} CreateThenScan(encode: Encoder, decode: Decoder, m: Mutation, id: int)
    requires Inverse(encode, decode) && WellTyped(m.values)
    ensures ScanRow(decode, Columns(), StoredRow(encode, SpecOf(m), id))
            == Ok(Entity(NodeOf(m).fields[ID := IntV(id)], map[]))
  {
    var row := StoredRow(encode, SpecOf(m), id);
    StoredSchema(encode, decode, m, id);
    AllColumns();
    ScanSchemaRow(decode, Columns(), row);
    StoredPart(encode, decode, m, id);
  }

  lemma {:induction false} StoredPart(encode: Encoder, decode: Decoder, m: Mutation, id: int)
    requires Inverse(encode, decode) && WellTyped(m.values)
    ensures var part := Only(SlotsOf(StoredRow(encode, SpecOf(m), id)), SetOf(Columns()));
            AllDecodable(decode, part) && EntityOf(decode, part) == Entity(NodeOf(m).fields[ID := IntV(id)], map[])
  {
    var row := StoredRow(encode, SpecOf(m), id);
    var node := NodeOf(m).fields[ID := IntV(id)];
    var part := Only(SlotsOf(row), SetOf(Columns()));
    AllColumns();
    StoredSchema(encode, decode, m, id);
    forall c: Column
      ensures c in part <==> ValidColumn(c)
      ensures c in part ==> Decodable(decode, part[c])
                            && FieldOf(decode, c, part[c]) == if c in node then Some(node[c]) else None
    {
      if ValidColumn(c) {
        SchemaCell(row, c);
        StoredField(encode, decode, m, id, c);
      }
    }
    NodeColumnsValid(m);
    EntityIs(decode, part, node);
  }

  lemma {:induction false} NodeColumnsValid(m: Mutation)
    ensures forall c :: c in NodeOf(m).fields ==> ValidColumn(c)
  {
  }
}

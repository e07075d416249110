/** The account as a record of its 32 typed fields: what is stored for it, and that a scan reads it back. */
module AccountRecord {
  import opened Collections
  import opened AccountEntity
  import opened AccountBuilder
  import opened AccountCreate

  /** The fields of the Go struct; a pointer field is an Option. */
  datatype Record = Record(
    id: int, createdAt: int, updatedAt: int, deletedAt: Option<int>, name: string, notes: Option<string>,
    platform: string, kind: string, credentials: map<string, string>, extra: map<string, string>,
    proxyID: Option<int>, proxyFallbackOriginID: Option<int>, concurrency: int, loadFactor: Option<int>,
    priority: int, rateMultiplier: real, status: string, errorMessage: Option<string>, lastUsedAt: Option<int>,
    expiresAt: Option<int>, autoPauseOnExpired: bool, schedulable: bool, rateLimitedAt: Option<int>,
    rateLimitResetAt: Option<int>, overloadUntil: Option<int>, tempUnschedulableUntil: Option<int>,
    tempUnschedulableReason: Option<string>, sessionWindowStart: Option<int>, sessionWindowEnd: Option<int>,
    sessionWindowStatus: Option<string>, parentAccountID: Option<int>, quotaDimension: string)

  function IntCellOr(n: Option<int>): Cell {
    if n.None? then Null else IntCell(n.value)
  }

  function TextCellOr(s: Option<string>): Cell {
    if s.None? then Null else TextCell(s.value)
  }

  function TimeCellOr(t: Option<int>): Cell {
    if t.None? then Null else TimeCell(t.value)
  }

  /** The database cell of each field. */
  function CellAt(encode: Encoder, a: Record, c: Column): Cell {
    match c
    case ID => IntCell(a.id)
    case CreatedAt => TimeCell(a.createdAt)
    case UpdatedAt => TimeCell(a.updatedAt)
    case DeletedAt => TimeCellOr(a.deletedAt)
    case Name => TextCell(a.name)
    case Notes => TextCellOr(a.notes)
    case Platform => TextCell(a.platform)
    case Type => TextCell(a.kind)
    case Credentials => BytesCell(encode(a.credentials))
    case Extra => BytesCell(encode(a.extra))
    case ProxyID => IntCellOr(a.proxyID)
    case ProxyFallbackOriginID => IntCellOr(a.proxyFallbackOriginID)
    case Concurrency => IntCell(a.concurrency)
    case LoadFactor => IntCellOr(a.loadFactor)
    case Priority => IntCell(a.priority)
    case RateMultiplier => FloatCell(a.rateMultiplier)
    case Status => TextCell(a.status)
    case ErrorMessage => TextCellOr(a.errorMessage)
    case LastUsedAt => TimeCellOr(a.lastUsedAt)
    case ExpiresAt => TimeCellOr(a.expiresAt)
    case AutoPauseOnExpired => BoolCell(a.autoPauseOnExpired)
    case Schedulable => BoolCell(a.schedulable)
    case RateLimitedAt => TimeCellOr(a.rateLimitedAt)
    case RateLimitResetAt => TimeCellOr(a.rateLimitResetAt)
    case OverloadUntil => TimeCellOr(a.overloadUntil)
    case TempUnschedulableUntil => TimeCellOr(a.tempUnschedulableUntil)
    case TempUnschedulableReason => TextCellOr(a.tempUnschedulableReason)
    case SessionWindowStart => TimeCellOr(a.sessionWindowStart)
    case SessionWindowEnd => TimeCellOr(a.sessionWindowEnd)
    case SessionWindowStatus => TextCellOr(a.sessionWindowStatus)
    case ParentAccountID => IntCellOr(a.parentAccountID)
    case QuotaDimension => TextCell(a.quotaDimension)
    case Other(_) => Null
  }

  function RowOf(encode: Encoder, a: Record): Row {
    map c | c in Columns() :: CellAt(encode, a, c)
  }

  function IntOrNil(n: Option<int>): Option<Value> {
    if n.None? then None else Some(IntV(n.value))
  }

  function TextOrNil(s: Option<string>): Option<Value> {
    if s.None? then None else Some(TextV(s.value))
  }

  function TimeOrNil(t: Option<int>): Option<Value> {
    if t.None? then None else Some(TimeV(t.value))
  }

  /** What the entity's field holds; None for a nil pointer. */
  function FieldAt(a: Record, c: Column): Option<Value> {
    match c
    case ID => Some(IntV(a.id))
    case CreatedAt => Some(TimeV(a.createdAt))
    case UpdatedAt => Some(TimeV(a.updatedAt))
    case DeletedAt => TimeOrNil(a.deletedAt)
    case Name => Some(TextV(a.name))
    case Notes => TextOrNil(a.notes)
    case Platform => Some(TextV(a.platform))
    case Type => Some(TextV(a.kind))
    case Credentials => Some(JsonV(a.credentials))
    case Extra => Some(JsonV(a.extra))
    case ProxyID => IntOrNil(a.proxyID)
    case ProxyFallbackOriginID => IntOrNil(a.proxyFallbackOriginID)
    case Concurrency => Some(IntV(a.concurrency))
    case LoadFactor => IntOrNil(a.loadFactor)
    case Priority => Some(IntV(a.priority))
    case RateMultiplier => Some(FloatV(a.rateMultiplier))
    case Status => Some(TextV(a.status))
    case ErrorMessage => TextOrNil(a.errorMessage)
    case LastUsedAt => TimeOrNil(a.lastUsedAt)
    case ExpiresAt => TimeOrNil(a.expiresAt)
    case AutoPauseOnExpired => Some(BoolV(a.autoPauseOnExpired))
    case Schedulable => Some(BoolV(a.schedulable))
    case RateLimitedAt => TimeOrNil(a.rateLimitedAt)
    case RateLimitResetAt => TimeOrNil(a.rateLimitResetAt)
    case OverloadUntil => TimeOrNil(a.overloadUntil)
    case TempUnschedulableUntil => TimeOrNil(a.tempUnschedulableUntil)
    case TempUnschedulableReason => TextOrNil(a.tempUnschedulableReason)
    case SessionWindowStart => TimeOrNil(a.sessionWindowStart)
    case SessionWindowEnd => TimeOrNil(a.sessionWindowEnd)
    case SessionWindowStatus => TextOrNil(a.sessionWindowStatus)
    case ParentAccountID => IntOrNil(a.parentAccountID)
    case QuotaDimension => Some(TextV(a.quotaDimension))
    case Other(_) => None
  }

  // ---------------------------------------------------------------- reading back

  lemma {:induction false} FieldScans(encode: Encoder, decode: Decoder, a: Record, c: Column)
    requires Inverse(encode, decode) && ValidColumn(c)
    ensures var slot := Fill(Blank(KindOf(c)), CellAt(encode, a, c));
            slot.Some? && Decodable(decode, slot.value) && FieldOf(decode, c, slot.value) == FieldAt(a, c)
  {
    DocumentsDecode(encode, decode, a);
  }

  lemma {:induction false} DocumentsDecode(encode: Encoder, decode: Decoder, a: Record)
    requires Inverse(encode, decode)
    ensures encode(a.credentials) != [] && decode(encode(a.credentials)) == Object(a.credentials)
    ensures encode(a.extra) != [] && decode(encode(a.extra)) == Object(a.extra)
  {
  }

  lemma {:induction false} RowFits(encode: Encoder, decode: Decoder, a: Record)
    requires Inverse(encode, decode)
    ensures SchemaRow(RowOf(encode, a))
  {
    var row := RowOf(encode, a);
    AllColumns();
    forall c: Column | ValidColumn(c) || c in row ensures c in row && Fill(Blank(KindOf(c)), row[c]).Some? {
      assert c in Columns();
      FieldScans(encode, decode, a, c);
    }
    assert Misfits(row) == iset{};
    assert ID in Columns();
  }

  function FieldsAt(a: Record): Column -> Option<Value> {
    c => FieldAt(a, c)
  }

  function Lookup(fields: map<Column, Value>, c: Column): Option<Value> {
    if c in fields then Some(fields[c]) else None
  }

  function FieldsIn(e: Entity): Column -> Option<Value> {
    c => Lookup(e.fields, c)
  }

  /** Column by column, the fields are those that f gives. */
  ghost predicate Holds(e: Entity, f: Column -> Option<Value>) {
    forall c :: FieldsIn(e)(c) == f(c)
  }

  /** The column has a scan destination, with its cell in it, exactly if it is one of the table's. */
  ghost predicate DeliveredAt(decode: Decoder, part: map<Column, Slot>, f: Column -> Option<Value>, c: Column) {
    if ValidColumn(c)
    then c in part && !KindOf(c).Unknown? && Decodable(decode, part[c]) && FieldOf(decode, c, part[c]) == f(c)
    else c !in part && f(c).None?
  }

  ghost predicate Delivered(decode: Decoder, part: map<Column, Slot>, f: Column -> Option<Value>) {
    forall c :: DeliveredAt(decode, part, f, c)
  }

  lemma {:induction false} EntityHolds(decode: Decoder, part: map<Column, Slot>, f: Column -> Option<Value>)
    requires Delivered(decode, part, f)
    ensures AllDecodable(decode, part) && EntityOf(decode, part).selected == map[]
    ensures Holds(EntityOf(decode, part), f)
  {
    var fields := FieldsOf(decode, part);
    forall c | c in part ensures !KindOf(c).Unknown? && Decodable(decode, part[c]) {
      assert DeliveredAt(decode, part, f, c);
    }
    forall c ensures FieldsIn(EntityOf(decode, part))(c) == f(c) {
      assert DeliveredAt(decode, part, f, c);
      assert Lookup(fields, c) == f(c);
    }
    assert SelectedOf(part) == map[];
  }

  lemma {:induction false} RowDelivers(encode: Encoder, decode: Decoder, a: Record)
    requires Inverse(encode, decode)
    ensures Delivered(decode, Only(SlotsOf(RowOf(encode, a)), SetOf(Columns())), FieldsAt(a))
  {
    var row := RowOf(encode, a);
    var part := Only(SlotsOf(row), SetOf(Columns()));
    RowFits(encode, decode, a);
    AllColumns();
    forall c: Column ensures DeliveredAt(decode, part, FieldsAt(a), c) {
      if ValidColumn(c) {
        ColumnDelivers(encode, decode, a, row, part, c);
      } else {
        OtherDelivers(a, row, part, c);
      }
    }
  }

  lemma {:induction false} OtherDelivers(a: Record, row: Row, part: map<Column, Slot>, c: Column)
    requires part == Only(SlotsOf(row), SetOf(Columns())) && !ValidColumn(c)
    ensures c !in part && FieldAt(a, c).None?
  {
    AllColumns();
  }

  lemma {:induction false} ColumnDelivers(encode: Encoder, decode: Decoder, a: Record, row: Row,
                                          part: map<Column, Slot>, c: Column)
    requires Inverse(encode, decode) && row == RowOf(encode, a) && SchemaRow(row) && ValidColumn(c)
    requires part == Only(SlotsOf(row), SetOf(Columns()))
    ensures c in part && !KindOf(c).Unknown? && Decodable(decode, part[c])
    ensures FieldOf(decode, c, part[c]) == FieldAt(a, c)
  {
    AllColumns();
    SchemaCell(row, c);
    FieldScans(encode, decode, a, c);
    KnownKind(c);
    assert row[c] == CellAt(encode, a, c);
  }

  lemma {:induction false} KnownKind(c: Column)
    requires ValidColumn(c)
    ensures !KindOf(c).Unknown?
  {
  }

  /** A record goes to the database and comes back: scanning all columns of its row succeeds, and every field of the
      entity reads its own component. */
  lemma {:induction false} RecordRoundTrip(encode: Encoder, decode: Decoder, a: Record)
    requires Inverse(encode, decode)
    ensures var r := ScanRow(decode, Columns(), RowOf(encode, a));
            r.Ok? && r.value.selected == map[] && Holds(r.value, FieldsAt(a))
  {
    var row := RowOf(encode, a);
    var part := Only(SlotsOf(row), SetOf(Columns()));
    RowFits(encode, decode, a);
    AllColumns();
    RowDelivers(encode, decode, a);
    EntityHolds(decode, part, FieldsAt(a));
    ScanSchemaRow(decode, Columns(), row);
  }

  // ---------------------------------------------------------------- creating an account from its record

  /** The setters of a create mutation were called with the record's components, keys through their edges. */
  ghost predicate SetFrom(m: Mutation, a: Record) {
    && m.proxy == a.proxyID && m.parent == a.parentAccountID
    && forall c: Column :: Lookup(m.values, c) ==
         if c.ID? || c.ProxyID? || c.ParentAccountID? then None else FieldAt(a, c)
  }

  lemma {:induction false} FieldTyped(a: Record, c: Column)
    ensures FieldAt(a, c).Some? ==> ValueKind(FieldAt(a, c).value) == KindOf(c)
  {
  }

  lemma {:induction false} SetTyped(m: Mutation, a: Record)
    requires SetFrom(m, a)
    ensures WellTyped(m.values)
  {
    forall c | c in m.values ensures ValueKind(m.values[c]) == KindOf(c) {
      assert Lookup(m.values, c) == Some(m.values[c]);
      FieldTyped(a, c);
    }
  }

  lemma {:induction false} NodeField(m: Mutation, a: Record, c: Column)
    requires SetFrom(m, a)
    ensures Lookup(NodeOf(m).fields[ID := IntV(a.id)], c) == FieldAt(a, c)
  {
    assert Lookup(m.values, c) == if c.ID? || c.ProxyID? || c.ParentAccountID? then None else FieldAt(a, c);
    if !ValidColumn(c) {
      NodeColumnsValid(m);
    }
  }

  /** A create mutation set from a record: the row it stores, under the id the database gives it, scans back into that
      record, field by field. */
  lemma {:induction false} CreatedRecord(encode: Encoder, decode: Decoder, m: Mutation, a: Record)
    requires Inverse(encode, decode) && SetFrom(m, a)
    ensures var r := ScanRow(decode, Columns(), StoredRow(encode, SpecOf(m), a.id));
            r.Ok? && r.value.selected == map[] && Holds(r.value, FieldsAt(a))
  {
    SetTyped(m, a);
    CreateThenScan(encode, decode, m, a.id);
    var e := Entity(NodeOf(m).fields[ID := IntV(a.id)], map[]);
    forall c ensures FieldsIn(e)(c) == FieldsAt(a)(c) {
      NodeField(m, a, c);
    }
  }
}

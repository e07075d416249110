/** The scalar side of the Account entity: which scan slot every column gets, how a slot becomes
    an entity field, and what a whole row becomes. */
module AccountEntity {
  import opened Collections

  /** A column name: one of the accounts table's own columns, or any other name a selection may carry. */
  datatype Column = ID | CreatedAt | UpdatedAt | DeletedAt | Name | Notes | Platform | Type | Credentials | Extra
                  | ProxyID | ProxyFallbackOriginID | Concurrency | LoadFactor | Priority | RateMultiplier | Status
                  | ErrorMessage | LastUsedAt | ExpiresAt | AutoPauseOnExpired | Schedulable | RateLimitedAt
                  | RateLimitResetAt | OverloadUntil | TempUnschedulableUntil | TempUnschedulableReason
                  | SessionWindowStart | SessionWindowEnd | SessionWindowStatus | ParentAccountID | QuotaDimension
                  | Other(name: string)

  const COLUMN_COUNT := 32

  /** The accounts table's columns by position. */
  function ColumnAt(i: int): Column {
    if i == 0 then ID else if i == 1 then CreatedAt else if i == 2 then UpdatedAt else
    if i == 3 then DeletedAt else if i == 4 then Name else if i == 5 then Notes else if i == 6 then Platform else
    if i == 7 then Type else if i == 8 then Credentials else if i == 9 then Extra else
    if i == 10 then ProxyID else if i == 11 then ProxyFallbackOriginID else if i == 12 then Concurrency else
    if i == 13 then LoadFactor else if i == 14 then Priority else if i == 15 then RateMultiplier else
    if i == 16 then Status else if i == 17 then ErrorMessage else if i == 18 then LastUsedAt else
    if i == 19 then ExpiresAt else if i == 20 then AutoPauseOnExpired else if i == 21 then Schedulable else
    if i == 22 then RateLimitedAt else if i == 23 then RateLimitResetAt else if i == 24 then OverloadUntil else
    if i == 25 then TempUnschedulableUntil else if i == 26 then TempUnschedulableReason else
    if i == 27 then SessionWindowStart else if i == 28 then SessionWindowEnd else
    if i == 29 then SessionWindowStatus else if i == 30 then ParentAccountID else QuotaDimension
  }

  function PositionOf(c: Column): (i: nat)
    requires ValidColumn(c)
    ensures i < COLUMN_COUNT && ColumnAt(i) == c
  {
    match c
    case ID => 0 case CreatedAt => 1 case UpdatedAt => 2 case DeletedAt => 3 case Name => 4 case Notes => 5
    case Platform => 6 case Type => 7 case Credentials => 8 case Extra => 9 case ProxyID => 10
    case ProxyFallbackOriginID => 11 case Concurrency => 12 case LoadFactor => 13 case Priority => 14
    case RateMultiplier => 15 case Status => 16 case ErrorMessage => 17 case LastUsedAt => 18
    case ExpiresAt => 19 case AutoPauseOnExpired => 20 case Schedulable => 21 case RateLimitedAt => 22
    case RateLimitResetAt => 23 case OverloadUntil => 24 case TempUnschedulableUntil => 25
    case TempUnschedulableReason => 26 case SessionWindowStart => 27 case SessionWindowEnd => 28
    case SessionWindowStatus => 29 case ParentAccountID => 30 case QuotaDimension => 31
  }

  /** All SQL columns of the accounts table, in schema order. */
  function Columns(): seq<Column> {
    seq(COLUMN_COUNT, i => ColumnAt(i))
  }

  /** The name is one of Columns. */
  predicate ValidColumn(column: Column) {
    !column.Other?
  }

  datatype Kind = Bytes | Bool | Float | Int | Text | Time | Unknown

  /** The switch that picks the scan type of a column. */
  function KindOf(column: Column): Kind {
    match column
    case Credentials | Extra => Bytes
    case AutoPauseOnExpired | Schedulable => Bool
    case RateMultiplier => Float
    case ID | ProxyID | ProxyFallbackOriginID | Concurrency | LoadFactor | Priority | ParentAccountID => Int
    case Name | Notes | Platform | Type | Status | ErrorMessage | TempUnschedulableReason | SessionWindowStatus
       | QuotaDimension => Text
    case CreatedAt | UpdatedAt | DeletedAt | LastUsedAt | ExpiresAt | RateLimitedAt | RateLimitResetAt
       | OverloadUntil | TempUnschedulableUntil | SessionWindowStart | SessionWindowEnd => Time
    case Other(_) => Unknown
  }

  /** A database cell as the driver delivers it. */
  datatype Cell = Null | IntCell(n: int) | TextCell(s: string) | BoolCell(b: bool) | FloatCell(r: real)
                | TimeCell(t: int) | BytesCell(bytes: seq<bv8>)

  type Row = map<Column, Cell>

  /** A scan destination: a nullable of the column's kind, or whatever an unknown column holds. */
  datatype Slot = BytesSlot(bytes: seq<bv8>)
                | NullBool(valid: bool, b: bool)
                | NullFloat(valid: bool, r: real)
                | NullInt(valid: bool, n: int)
                | NullText(valid: bool, s: string)
                | NullTime(valid: bool, t: int)
                | UnknownSlot(cell: Cell)

  /** The zero value `new` gives for a slot of this kind. */
  function Blank(kind: Kind): Slot {
    match kind
    case Bytes => BytesSlot([])
    case Bool => NullBool(false, false)
    case Float => NullFloat(false, 0.0)
    case Int => NullInt(false, 0)
    case Text => NullText(false, "")
    case Time => NullTime(false, 0)
    case Unknown => UnknownSlot(Null)
  }

  function SlotKind(slot: Slot): Kind {
    match slot
    case BytesSlot(_) => Bytes
    case NullBool(_, _) => Bool
    case NullFloat(_, _) => Float
    case NullInt(_, _) => Int
    case NullText(_, _) => Text
    case NullTime(_, _) => Time
    case UnknownSlot(_) => Unknown
  }

  /** What the driver's Scan stores in a slot; None when the cell does not convert. NULL always does. */
  function Fill(slot: Slot, cell: Cell): (r: Option<Slot>)
    ensures r.Some? ==> SlotKind(r.value) == SlotKind(slot)
  {
    match (slot, cell)
    case (UnknownSlot(_), _) => Some(UnknownSlot(cell))
    case (_, Null) => Some(Blank(SlotKind(slot)))
    case (BytesSlot(_), BytesCell(bytes)) => Some(BytesSlot(bytes))
    case (NullBool(_, _), BoolCell(b)) => Some(NullBool(true, b))
    case (NullFloat(_, _), FloatCell(r)) => Some(NullFloat(true, r))
    case (NullInt(_, _), IntCell(n)) => Some(NullInt(true, n))
    case (NullText(_, _), TextCell(s)) => Some(NullText(true, s))
    case (NullTime(_, _), TimeCell(t)) => Some(NullTime(true, t))
    case _ => None
  }

  /** A Go field value. Columns absent from an entity hold the field's zero value or a nil pointer. */
  datatype Value = IntV(n: int) | TextV(s: string) | BoolV(b: bool) | FloatV(r: real) | TimeV(t: int)
                 | JsonV(doc: map<string, string>)

  datatype Entity = Entity(fields: map<Column, Value>, selected: map<Column, Slot>) {
    function Id(): int {
      if ID in fields && fields[ID].IntV? then fields[ID].n else 0
    }

    function ForeignKey(column: Column): Option<int> {
      if column in fields && fields[column].IntV? then Some(fields[column].n) else None
    }
  }

  const FRESH := Entity(map[], map[])

  /** json.Unmarshal into a map: a malformed text, the literal null, or an object to merge in. */
  datatype Decoded = Malformed | NullDoc | Object(doc: map<string, string>)
  type Decoder = seq<bv8> -> Decoded

  datatype AssignError = CountMismatch | UnexpectedType(column: Column) | Unmarshal(column: Column)

  datatype Assigned = Assigned(entity: Entity, err: Option<AssignError>)

  /** The value a nullable slot hands to its field. The id is stored whether or not the slot is valid. */
  function ScalarOf(column: Column, slot: Slot): Option<Value> {
    match slot
    case NullInt(valid, n) => if valid || column.ID? then Some(IntV(n)) else None
    case NullText(valid, s) => if valid then Some(TextV(s)) else None
    case NullBool(valid, b) => if valid then Some(BoolV(b)) else None
    case NullFloat(valid, r) => if valid then Some(FloatV(r)) else None
    case NullTime(valid, t) => if valid then Some(TimeV(t)) else None
    case _ => None
  }

  /** A document column: empty bytes leave the field alone, an object is merged into what is there. */
  function AssignJson(decode: Decoder, e: Entity, column: Column, bytes: seq<bv8>): Assigned {
    if bytes == [] then Assigned(e, None)
    else match decode(bytes)
      case Malformed => Assigned(e, Some(Unmarshal(column)))
      case NullDoc => Assigned(e.(fields := e.fields - {column}), None)
      case Object(doc) =>
        var before := if column in e.fields && e.fields[column].JsonV? then e.fields[column].doc else map[];
        Put(e, column, JsonV(before + doc))
  }

  /** One arm of the assignment switch. */
  function AssignColumn(decode: Decoder, e: Entity, column: Column, slot: Slot): Assigned {
    if KindOf(column).Unknown? then Assigned(e.(selected := e.selected[column := slot]), None)
    else if SlotKind(slot) != KindOf(column) then Assigned(e, Some(UnexpectedType(column)))
    else if slot.BytesSlot? then AssignJson(decode, e, column, slot.bytes)
    else match ScalarOf(column, slot)
      case None => Assigned(e, None)
      case Some(value) => Put(e, column, value)
  }

  function Put(e: Entity, column: Column, value: Value): Assigned {
    Assigned(e.(fields := e.fields[column := value]), None)
  }

  /** The columns in order, stopping at the first error. */
  function AssignColumns(decode: Decoder, e: Entity, columns: seq<Column>, slots: seq<Slot>): Assigned
    requires |columns| <= |slots|
    decreases columns
  {
    if columns == [] then Assigned(e, None)
    else
      var step := AssignColumn(decode, e, columns[0], slots[0]);
      if step.err.Some? then step else AssignColumns(decode, step.entity, columns[1..], slots[1..])
  }

  function Assign(decode: Decoder, e: Entity, columns: seq<Column>, slots: seq<Slot>): Assigned {
    if |slots| < |columns| then Assigned(e, Some(CountMismatch)) else AssignColumns(decode, e, columns, slots)
  }

  // ---------------------------------------------------------------- scan slots

  function Blanks(columns: seq<Column>): (r: seq<Slot>)
    ensures |r| == |columns|
    ensures forall i :: 0 <= i < |columns| ==> r[i] == Blank(KindOf(columns[i]))
  {
    if columns == [] then [] else [Blank(KindOf(columns[0]))] + Blanks(columns[1..])
  }

  /** One slot per column, each of the kind its column needs, unknown names included. */
  method ScanValues(columns: seq<Column>) returns (values: seq<Slot>)
    ensures values == Blanks(columns)
    ensures |values| == |columns|
    ensures forall i :: 0 <= i < |columns| ==> SlotKind(values[i]) == KindOf(columns[i])
  {
    values := [];
    for i := 0 to |columns|
      invariant |values| == i
      invariant forall j :: 0 <= j < i ==> values[j] == Blank(KindOf(columns[j]))
    {
      values := values + [Blank(KindOf(columns[i]))];
    }
    assert values == Blanks(columns);
  }

  /** The driver filling one row of cells into a row of slots. */
  function FillAll(slots: seq<Slot>, cells: seq<Cell>): (r: Option<seq<Slot>>)
    requires |slots| == |cells|
    ensures r.Some? ==> |r.value| == |slots|
                        && forall i :: 0 <= i < |slots| ==> Fill(slots[i], cells[i]) == Some(r.value[i])
    ensures r.None? ==> exists i :: 0 <= i < |slots| && Fill(slots[i], cells[i]).None?
  {
    if slots == [] then Some([])
    else match (Fill(slots[0], cells[0]), FillAll(slots[1..], cells[1..]))
      case (Some(slot), Some(rest)) => Some([slot] + rest)
      case _ => None
  }

  /** Slots made for a column list are never rejected for their type or number, whatever the driver put in them:
      the only way to fail is a document that does not decode. */
  lemma {:induction false} NoTypeError(decode: Decoder, e: Entity, columns: seq<Column>, slots: seq<Slot>)
    requires |slots| == |columns|
    requires forall i :: 0 <= i < |columns| ==> SlotKind(slots[i]) == KindOf(columns[i])
    ensures var r := Assign(decode, e, columns, slots);
            r.err.None? || (r.err.value.Unmarshal? && r.err.value.column in columns)
    decreases columns
  {
    if columns != [] {
      var step := AssignColumn(decode, e, columns[0], slots[0]);
      if step.err.None? {
        NoTypeError(decode, step.entity, columns[1..], slots[1..]);
      }
    }
  }

  /** A slot of another kind than its column's stops the assignment there, and too few slots stop it at once. */
  lemma {:induction false} MismatchFails(decode: Decoder, e: Entity, columns: seq<Column>, slots: seq<Slot>, i: nat)
    requires i < |columns| <= |slots| && ValidColumn(columns[i]) && SlotKind(slots[i]) != KindOf(columns[i])
    requires AssignColumns(decode, e, columns[..i], slots[..i]).err.None?
    ensures Assign(decode, e, columns, slots).err == Some(UnexpectedType(columns[i]))
    ensures forall few: seq<Slot> :: |few| < |columns| ==>
      Assign(decode, e, columns, few) == Assigned(e, Some(CountMismatch))
    decreases i
  {
    if i > 0 {
      var step := AssignColumn(decode, e, columns[0], slots[0]);
      assert columns[..i][1..] == columns[1..][..i - 1] && slots[..i][1..] == slots[1..][..i - 1];
      MismatchFails(decode, step.entity, columns[1..], slots[1..], i - 1);
    }
  }

  // ---------------------------------------------------------------- closed form and order independence

  /** A row m delivered as a list of columns, in any order and possibly with repeats. */
  ghost predicate Delivers(m: map<Column, Slot>, columns: seq<Column>, slots: seq<Slot>) {
    && |slots| == |columns|
    && forall i :: 0 <= i < |columns| ==> columns[i] in m && slots[i] == m[columns[i]]
  }

  function Only(m: map<Column, Slot>, columns: set<Column>): map<Column, Slot> {
    map c | c in m && c in columns :: m[c]
  }

  function SetOf(columns: seq<Column>): set<Column> {
    set c | c in columns
  }

  /** The field value one column of a fresh entity ends with, if any. */
  function FieldOf(decode: Decoder, column: Column, slot: Slot): Option<Value> {
    if !slot.BytesSlot? then ScalarOf(column, slot)
    else if slot.bytes != [] && decode(slot.bytes).Object? then Some(JsonV(decode(slot.bytes).doc))
    else None
  }

  predicate Contributes(decode: Decoder, c: Column, slot: Slot) {
    !KindOf(c).Unknown? && FieldOf(decode, c, slot).Some?
  }

  function FieldsOf(decode: Decoder, m: map<Column, Slot>): map<Column, Value> {
    map c | c in m && Contributes(decode, c, m[c]) :: FieldOf(decode, c, m[c]).value
  }

  function SelectedOf(m: map<Column, Slot>): map<Column, Slot> {
    map c | c in m && KindOf(c).Unknown? :: m[c]
  }

  /** The entity a row denotes, computed column by column with no regard to order. */
  function EntityOf(decode: Decoder, m: map<Column, Slot>): Entity {
    Entity(FieldsOf(decode, m), SelectedOf(m))
  }

  /** The slot holds no malformed document. */
  predicate Decodable(decode: Decoder, slot: Slot) {
    slot.BytesSlot? && slot.bytes != [] ==> decode(slot.bytes) != Malformed
  }

  predicate AllDecodable(decode: Decoder, m: map<Column, Slot>) {
    forall c :: c in m ==> Decodable(decode, m[c])
  }

  /** Every slot is of its column's kind, as scanning leaves it. */
  predicate Typed(m: map<Column, Slot>) {
    forall c :: c in m ==> SlotKind(m[c]) == KindOf(c)
  }

  lemma {:induction false} AddField(decode: Decoder, c: Column, slot: Slot, m: map<Column, Slot>)
    requires c !in m
    ensures FieldsOf(decode, m[c := slot])
            == if Contributes(decode, c, slot) then FieldsOf(decode, m)[c := FieldOf(decode, c, slot).value]
               else FieldsOf(decode, m)
    ensures SelectedOf(m[c := slot])
            == if KindOf(c).Unknown? then SelectedOf(m)[c := slot] else SelectedOf(m)
  {
  }

  /** Assigning one more column of a row to the entity of the columns already assigned. */
  lemma {:induction false} AssignNext(decode: Decoder, m: map<Column, Slot>, done: set<Column>, c: Column)
    requires c in m && Typed(m) && (c in done ==> Decodable(decode, m[c]))
    ensures var r := AssignColumn(decode, EntityOf(decode, Only(m, done)), c, m[c]);
            if Decodable(decode, m[c]) then r == Assigned(EntityOf(decode, Only(m, done + {c})), None)
            else r.err.Some?
  {
    var part, e := Only(m, done), EntityOf(decode, Only(m, done));
    if c in done {
      assert Only(m, done + {c}) == part;
      AssignAgain(decode, part, c);
    } else {
      assert Only(m, done + {c}) == part[c := m[c]];
      AddField(decode, c, m[c], part);
      assert e.fields - {c} == e.fields;
      assert forall doc: map<string, string> :: map[] + doc == doc;
    }
  }

  lemma {:induction false} AssignAgain(decode: Decoder, m: map<Column, Slot>, c: Column)
    requires c in m && Typed(m) && Decodable(decode, m[c])
    ensures AssignColumn(decode, EntityOf(decode, m), c, m[c]) == Assigned(EntityOf(decode, m), None)
  {
    var e := EntityOf(decode, m);
    assert forall doc: map<string, string> :: doc + doc == doc;
    if KindOf(c).Unknown? {
      assert e.selected[c := m[c]] == e.selected;
    } else if Contributes(decode, c, m[c]) {
      assert e.fields[c := FieldOf(decode, c, m[c]).value] == e.fields;
    } else {
      assert e.fields - {c} == e.fields;
    }
  }

  lemma {:induction false} AssignRest(decode: Decoder, m: map<Column, Slot>, done: set<Column>,
                                      columns: seq<Column>, slots: seq<Slot>)
    requires Typed(m) && Delivers(m, columns, slots) && AllDecodable(decode, Only(m, done))
    ensures var r := AssignColumns(decode, EntityOf(decode, Only(m, done)), columns, slots);
            var all := Only(m, done + SetOf(columns));
            if AllDecodable(decode, all) then r == Assigned(EntityOf(decode, all), None) else r.err.Some?
    decreases columns
  {
    if columns == [] {
      assert done + SetOf(columns) == done;
    } else {
      var c := columns[0];
      assert done + SetOf(columns) == (done + {c}) + SetOf(columns[1..]);
      assert c in Only(m, done + SetOf(columns));
      assert c in done ==> Decodable(decode, Only(m, done)[c]);
      AssignNext(decode, m, done, c);
      if Decodable(decode, m[c]) {
        AssignRest(decode, m, done + {c}, columns[1..], slots[1..]);
      } else {
        assert !Decodable(decode, Only(m, done + SetOf(columns))[c]);
      }
    }
  }

  /** A fresh entity filled from a row is the order-free entity of the columns asked for, and filling it fails
      exactly when a document among those cells does not decode. */
  lemma {:induction false} AssignFresh(decode: Decoder, m: map<Column, Slot>, columns: seq<Column>, slots: seq<Slot>)
    requires Typed(m) && Delivers(m, columns, slots)
    ensures var r, part := Assign(decode, FRESH, columns, slots), Only(m, SetOf(columns));
            if AllDecodable(decode, part) then r == Assigned(EntityOf(decode, part), None) else r.err.Some?
  {
    assert EntityOf(decode, Only(m, {})) == FRESH;
    AssignRest(decode, m, {}, columns, slots);
    assert {} + SetOf(columns) == SetOf(columns);
  }

  /** The same cells delivered in another column order give the same entity, and fail in the same cases. */
  lemma {:induction false} ColumnOrderIrrelevant(decode: Decoder, m: map<Column, Slot>, columns: seq<Column>,
                                                 slots: seq<Slot>,
                              columns': seq<Column>, slots': seq<Slot>)
    requires Typed(m) && Delivers(m, columns, slots) && Delivers(m, columns', slots')
    requires SetOf(columns) == SetOf(columns')
    ensures var r, r' := Assign(decode, FRESH, columns, slots), Assign(decode, FRESH, columns', slots');
            r.err.Some? == r'.err.Some? && (r.err.None? ==> r.entity == r'.entity)
  {
    AssignFresh(decode, m, columns, slots);
    AssignFresh(decode, m, columns', slots');
  }

  // ---------------------------------------------------------------- whole rows

  function CellOf(row: Row, column: Column): Cell {
    if column in row then row[column] else Null
  }

  function IntOf(row: Row, column: Column): Option<int> {
    if CellOf(row, column).IntCell? then Some(row[column].n) else None
  }

  function CellsOf(columns: seq<Column>, row: Row): (r: seq<Cell>)
    ensures |r| == |columns|
    ensures forall i :: 0 <= i < |columns| ==> r[i] == CellOf(row, columns[i])
  {
    Map(c => CellOf(row, c), columns)
  }

  datatype ScanError = Conversion | Assignment(err: AssignError)

  /** One database row turned into an entity: scan into blank slots, then assign. */
  function ScanRow(decode: Decoder, columns: seq<Column>, row: Row): Result<Entity, ScanError> {
    match FillAll(Blanks(columns), CellsOf(columns, row))
    case None => Err(Conversion)
    case Some(slots) =>
      var r := Assign(decode, FRESH, columns, slots);
      if r.err.Some? then Err(Assignment(r.err.value)) else Ok(r.entity)
  }

  /** Columns the row lacks, or holds with a cell that does not convert to the column's kind. */
  ghost function Misfits(row: Row): iset<Column> {
    iset c: Column | (ValidColumn(c) || c in row) && (c !in row || Fill(Blank(KindOf(c)), row[c]).None?)
  }

  /** The row has every column of the table, with cells of the declared types and a non-NULL id. */
  ghost predicate SchemaRow(row: Row) {
    Misfits(row) == iset{} && IntOf(row, ID).Some?
  }

  lemma {:induction false} AllColumns()
    ensures forall c :: c in Columns() <==> ValidColumn(c)
    ensures Columns()[0].ID? && forall i :: 0 < i < |Columns()| ==> !Columns()[i].ID?
  {
    forall c: Column | ValidColumn(c) ensures c in Columns() {
      assert Columns()[PositionOf(c)] == c;
    }
  }

  lemma {:induction false} SchemaCell(row: Row, c: Column)
    requires SchemaRow(row) && (ValidColumn(c) || c in row)
    ensures c in row && Fill(Blank(KindOf(c)), row[c]).Some?
  {
    assert c !in Misfits(row);
  }

  ghost function SlotsOf(row: Row): (m: map<Column, Slot>)
    ensures Typed(m)
  {
    map c | c in row && Fill(Blank(KindOf(c)), row[c]).Some? :: Fill(Blank(KindOf(c)), row[c]).value
  }

  /** Scanning a schema row gives the entity of the selected columns; the only failure is a document that does
      not decode. */
  lemma {:induction false} ScanSchemaRow(decode: Decoder, columns: seq<Column>, row: Row)
    requires SchemaRow(row) && forall c :: c in columns ==> ValidColumn(c)
    ensures var r, part := ScanRow(decode, columns, row), Only(SlotsOf(row), SetOf(columns));
            if AllDecodable(decode, part) then r == Ok(EntityOf(decode, part)) else r.Err? && r.error.Assignment?
  {
    var cells := CellsOf(columns, row);
    var m := SlotsOf(row);
    forall i | 0 <= i < |columns| ensures columns[i] in m && Fill(Blanks(columns)[i], cells[i]) == Some(m[columns[i]]) {
      assert columns[i] in columns;
      SchemaCell(row, columns[i]);
    }
    var slots := FillAll(Blanks(columns), cells);
    assert slots.Some?;
    assert Delivers(m, columns, slots.value);
    AssignFresh(decode, m, columns, slots.value);
  }

  lemma {:induction false} FieldArrives(decode: Decoder, row: Row, part: map<Column, Slot>, c: Column)
    requires c in row && c in part && Fill(Blank(KindOf(c)), row[c]) == Some(part[c]) && Typed(part)
    requires ValidColumn(c) && IntOf(row, ID).Some?
    ensures var e := EntityOf(decode, part);
            && (c.ID? ==> Some(e.Id()) == IntOf(row, ID))
            && (CellOf(row, c).Null? ==> c !in e.fields)
            && (KindOf(c).Int? && !c.ID? ==> e.ForeignKey(c) == IntOf(row, c))
  {
  }

  /** The fields of a scanned row: a selected NULL leaves its field at zero or nil, a selected integer arrives. */
  lemma {:induction false} ScannedField(decode: Decoder, columns: seq<Column>, row: Row, c: Column)
    requires SchemaRow(row) && (forall c :: c in columns ==> ValidColumn(c)) && c in columns
    requires ScanRow(decode, columns, row).Ok?
    ensures var e := ScanRow(decode, columns, row).value;
            && (c.ID? ==> Some(e.Id()) == IntOf(row, ID))
            && (CellOf(row, c).Null? ==> c !in e.fields)
            && (KindOf(c).Int? && !c.ID? ==> e.ForeignKey(c) == IntOf(row, c))
  {
    ScanSchemaRow(decode, columns, row);
    SchemaCell(row, c);
    var m := SlotsOf(row);
    assert c in SetOf(columns) && Only(m, SetOf(columns))[c] == m[c];
    FieldArrives(decode, row, Only(m, SetOf(columns)), c);
  }
}

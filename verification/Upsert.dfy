/** Upserts of rebate jobs: conflict options are collected on a builder, and later write into one update set. */
module Upsert {
  import opened Collections
  import E = AccountEntity

  type Cell = E.Cell

  datatype Column =
    InviteeUserID | SourceRedeemCodeID | SourceKind | BaseAmount | CreatedAt
  | Status | Attempts | NextRetryAt | LastError | LastErrorAt | ProcessingStartedAt
  | SucceededAt | SkippedAt | FailedAt | UpdatedAt

  predicate Immutable(c: Column) {
    c.InviteeUserID? || c.SourceRedeemCodeID? || c.SourceKind? || c.BaseAmount? || c.CreatedAt?
  }

  /** The typed setters exist for these columns only, and those that clear only for the nullable ones. */
  type Mutable = c: Column | !Immutable(c) witness Status

  predicate Nullable(c: Column) {
    !Immutable(c) && !c.Status? && !c.Attempts? && !c.NextRetryAt? && !c.UpdatedAt?
  }

  type Clearable = c: Column | Nullable(c) witness LastError

  // ---------------------------------------------------------------- the update set

  /** What a column of the stored row becomes when the proposed row conflicts with it. */
  datatype Write = Const(v: Cell) | Proposed | Stored | ToNull | Plus(n: int)

  /** One write for a column: a later one replaces an earlier one. */
  type Sets = map<Column, Write>

  class UpdateSet {
    const columns: seq<Column>
    var sets: Sets

    constructor (columns: seq<Column>)
      ensures this.columns == columns && sets == map[]
    {
      this.columns, sets := columns, map[];
    }

    method Put(c: Column, w: Write)
      modifies this
      ensures sets == old(sets)[c := w]
    {
      sets := sets[c := w];
    }
  }

  // ---------------------------------------------------------------- the options

  datatype Setter = Assign(c: Mutable, v: Cell) | Propose(c: Mutable) | Clear(k: Clearable) | AddAttempts(n: int)

  function ColumnOf(s: Setter): Column {
    match s
    case Assign(c, _) => c
    case Propose(c) => c
    case Clear(k) => k
    case AddAttempts(_) => Attempts
  }

  function WriteOf(s: Setter): Write {
    match s
    case Assign(_, v) => Const(v)
    case Propose(_) => Proposed
    case Clear(_) => ToNull
    case AddAttempts(n) => Plus(n)
  }

  /** KeepImmutable is the function UpdateNewValues appends; it looks at the builders when it is run, not before.
      Custom stands for a function of the caller that writes to the set itself. */
  datatype ConflictOption =
    Target(columns: seq<Column>) | NewValues | IgnoreAll | DoNothing | KeepImmutable | Typed(s: Setter)
  | Custom(c: Column, w: Write)

  /** Every column in which gets this write. */
  function Overlay(sets: Sets, which: set<Column>, w: Write): Sets {
    map c | c in sets.Keys + which :: if c in which then w else sets[c]
  }

  function Members(columns: seq<Column>): set<Column> {
    set c | c in columns
  }

  /** The immutable columns that some builder of the batch provides. */
  function GivenImmutable(given: seq<set<Column>>): set<Column> {
    if given == [] then {} else GivenImmutable(given[..|given| - 1]) + ImmutableIn(given[|given| - 1])
  }

  function ImmutableIn(columns: set<Column>): set<Column> {
    set c | c in columns && Immutable(c)
  }

  function Apply(inserted: set<Column>, given: seq<set<Column>>, sets: Sets, o: ConflictOption): Sets {
    match o
    case NewValues => Overlay(sets, inserted, Proposed)
    case IgnoreAll => Overlay(sets, inserted, Stored)
    case KeepImmutable => Overlay(sets, GivenImmutable(given), Stored)
    case Typed(s) => sets[ColumnOf(s) := WriteOf(s)]
    case Custom(c, w) => sets[c := w]
    case _ => sets
  }

  /** The set after the options have run in the order they were given. */
  function Run(inserted: set<Column>, given: seq<set<Column>>, opts: seq<ConflictOption>): Sets {
    if opts == [] then map[]
    else Apply(inserted, given, Run(inserted, given, opts[..|opts| - 1]), opts[|opts| - 1])
  }

  // ---------------------------------------------------------------- the builders

  class JobCreate {
    var values: map<Column, Cell>
    var conflict: seq<ConflictOption>

    constructor ()
      ensures values == map[] && conflict == []
    {
      values, conflict := map[], [];
    }

    method KeepColumn(c: Column, update: UpdateSet)
      modifies update
      ensures update.sets == Overlay(old(update.sets), values.Keys * {c}, Stored)
    {
      if c in values {
        update.Put(c, Stored);
      }
    }

    /** The immutable columns this builder provides keep what is stored. */
    method KeepGiven(update: UpdateSet)
      modifies update
      ensures update.sets == Overlay(old(update.sets), ImmutableIn(values.Keys), Stored)
    {
      ghost var before := update.sets;
      ghost var keys := values.Keys;
      KeepColumn(InviteeUserID, update);
      KeepColumn(SourceRedeemCodeID, update);
      OverlayTwice(before, keys * {InviteeUserID}, keys * {SourceRedeemCodeID}, Stored);
      ghost var done := keys * {InviteeUserID} + keys * {SourceRedeemCodeID};
      KeepColumn(SourceKind, update);
      OverlayTwice(before, done, keys * {SourceKind}, Stored);
      done := done + keys * {SourceKind};
      KeepColumn(BaseAmount, update);
      OverlayTwice(before, done, keys * {BaseAmount}, Stored);
      done := done + keys * {BaseAmount};
      KeepColumn(CreatedAt, update);
      OverlayTwice(before, done, keys * {CreatedAt}, Stored);
      assert done + keys * {CreatedAt} == ImmutableIn(keys);
    }
  }

  lemma {:induction false} OverlayTwice(sets: Sets, a: set<Column>, b: set<Column>, w: Write)
    ensures Overlay(Overlay(sets, a, w), b, w) == Overlay(sets, a + b, w)
  {
  }

  function GivenBy(builders: seq<JobCreate>): (given: seq<set<Column>>)
    reads builders
    ensures |given| == |builders|
    ensures forall i :: 0 <= i < |builders| ==> given[i] == builders[i].values.Keys
  {
    seq(|builders|, i requires 0 <= i < |builders| reads builders => builders[i].values.Keys)
  }

  /** The columns of the insert: those some builder provides. */
  function InsertedBy(given: seq<set<Column>>): set<Column> {
    if given == [] then {} else InsertedBy(given[..|given| - 1]) + given[|given| - 1]
  }

  class UpsertBulk {
    const builders: seq<JobCreate>
    var conflict: seq<ConflictOption>

    constructor (builders: seq<JobCreate>, opts: seq<ConflictOption>)
      ensures this.builders == builders && conflict == opts
    {
      this.builders, conflict := builders, opts;
    }

    method UpdateNewValues()
      modifies this
      ensures conflict == old(conflict) + OptionsOf(Call.UpdateNewValues)
    {
      conflict := conflict + [NewValues];
      conflict := conflict + [KeepImmutable];
    }

    method Ignore()
      modifies this
      ensures conflict == old(conflict) + OptionsOf(Call.Ignore)
    {
      conflict := conflict + [IgnoreAll];
    }

    method DoNothing()
      modifies this
      ensures conflict == old(conflict) + OptionsOf(Skip)
    {
      conflict := conflict + [ConflictOption.DoNothing];
    }

    method Update(s: Setter)
      modifies this
      ensures conflict == old(conflict) + OptionsOf(Set(s))
    {
      conflict := conflict + [Typed(s)];
    }

    /** Runs one option on the set, reading the builders as they are now. */
    method RunOption(o: ConflictOption, update: UpdateSet)
      modifies update
      ensures update.sets == Apply(Members(update.columns), GivenBy(builders), old(update.sets), o)
    {
      if !o.KeepImmutable? {
        RunPlain(o, update, GivenBy(builders));
        return;
      }
      ghost var given := GivenBy(builders);
      for i := 0 to |builders|
        invariant update.sets == Overlay(old(update.sets), GivenImmutable(given[..i]), Stored)
        invariant GivenBy(builders) == given
      {
        OverlayTwice(old(update.sets), GivenImmutable(given[..i]), ImmutableIn(given[i]), Stored);
        builders[i].KeepGiven(update);
        assert given[..i + 1][..i] == given[..i];
      }
      assert given[..|builders|] == given;
    }

    /** The set the insert resolves its conflicts with. */
    method Resolve(columns: seq<Column>) returns (sets: Sets)
      ensures sets == Run(Members(columns), GivenBy(builders), conflict)
    {
      var update := new UpdateSet(columns);
      for i := 0 to |conflict|
        invariant update.columns == columns
        invariant update.sets == Run(Members(columns), GivenBy(builders), conflict[..i])
      {
        RunOption(conflict[i], update);
        assert conflict[..i + 1][..i] == conflict[..i];
      }
      assert conflict[..|conflict|] == conflict;
      sets := update.sets;
    }
  }

  /** The options that do not look at the builders. */
  method RunPlain(o: ConflictOption, update: UpdateSet, ghost given: seq<set<Column>>)
    requires !o.KeepImmutable?
    modifies update
    ensures update.sets == Apply(Members(update.columns), given, old(update.sets), o)
  {
    match o {
      case NewValues => Spread(update, Proposed);
      case IgnoreAll => Spread(update, Stored);
      case Typed(s) => update.Put(ColumnOf(s), WriteOf(s));
      case Custom(c, w) => update.Put(c, w);
      case _ =>
    }
  }

  /** The upsert of a single row; its options live on the builder. */
  class UpsertOne {
    const create: JobCreate

    constructor (create: JobCreate)
      ensures this.create == create
    {
      this.create := create;
    }

    method UpdateNewValues()
      modifies create`conflict
      ensures create.conflict == old(create.conflict) + OptionsOf(Call.UpdateNewValues)
    {
      create.conflict := create.conflict + [NewValues];
      create.conflict := create.conflict + [KeepImmutable];
    }

    method Update(s: Setter)
      modifies create`conflict
      ensures create.conflict == old(create.conflict) + OptionsOf(Set(s))
    {
      create.conflict := create.conflict + [Typed(s)];
    }

    method Resolve(columns: seq<Column>) returns (sets: Sets)
      ensures sets == Run(Members(columns), [create.values.Keys], create.conflict)
    {
      var opts, given := create.conflict, [create.values.Keys];
      var update := new UpdateSet(columns);
      for i := 0 to |opts|
        invariant update.columns == columns
        invariant update.sets == Run(Members(columns), given, opts[..i])
      {
        assert opts[..i + 1][..i] == opts[..i];
        if opts[i].KeepImmutable? {
          SingleGiven(create.values.Keys);
          create.KeepGiven(update);
        } else {
          RunPlain(opts[i], update, given);
        }
      }
      assert opts[..|opts|] == opts;
      sets := update.sets;
    }
  }

  lemma {:induction false} SingleGiven(keys: set<Column>)
    ensures GivenImmutable([keys]) == ImmutableIn(keys)
  {
    assert [keys][..0] == [];
  }

  method Spread(update: UpdateSet, w: Write)
    modifies update
    ensures update.sets == Overlay(old(update.sets), Members(update.columns), w)
  {
    var columns := update.columns;
    for i := 0 to |columns|
      invariant update.sets == Overlay(old(update.sets), Members(columns[..i]), w)
    {
      update.Put(columns[i], w);
      assert Members(columns[..i + 1]) == Members(columns[..i]) + {columns[i]} by { MembersNext(columns, i); }
    }
    assert columns[..|columns|] == columns;
  }

  lemma {:induction false} MembersNext(columns: seq<Column>, i: nat)
    requires i < |columns|
    ensures Members(columns[..i + 1]) == Members(columns[..i]) + {columns[i]}
  {
    assert columns[..i + 1] == columns[..i] + [columns[i]];
  }

  // ---------------------------------------------------------------- what a conflicting row becomes

  type Row = Column -> Cell

  /** A column the row does not provide is proposed as NULL. */
  function RowOf(values: map<Column, Cell>): Row {
    c => if c in values then values[c] else E.Null
  }

  function Written(w: Write, stored: Cell, proposed: Cell): Cell {
    match w
    case Const(v) => v
    case Proposed => proposed
    case Stored => stored
    case ToNull => E.Null
    case Plus(n) => if stored.IntCell? then E.IntCell(stored.n + n) else E.IntCell(n)
  }

  /** The stored cell of column c after its row conflicted with the proposed one. */
  function CellAfter(sets: Sets, opts: seq<ConflictOption>, stored: Row, proposed: Row, c: Column): Cell {
    if DoNothing in opts || c !in sets then stored(c) else Written(sets[c], stored(c), proposed(c))
  }

  function KeysOf(batch: seq<map<Column, Cell>>): (given: seq<set<Column>>)
    ensures |given| == |batch|
  {
    seq(|batch|, i requires 0 <= i < |batch| => batch[i].Keys)
  }

  /** The stored cell of column c after row i of the batch conflicted with it. */
  function Upserted(batch: seq<map<Column, Cell>>, opts: seq<ConflictOption>, i: nat, stored: Row, c: Column): Cell
    requires i < |batch|
  {
    CellAfter(Run(InsertedBy(KeysOf(batch)), KeysOf(batch), opts), opts, stored, RowOf(batch[i]), c)
  }

  // ---------------------------------------------------------------- the last write wins

  /** What this option writes to this column. */
  function WriteBy(inserted: set<Column>, given: seq<set<Column>>, o: ConflictOption, c: Column): Option<Write> {
    match o
    case NewValues => if c in inserted then Some(Proposed) else None
    case IgnoreAll => if c in inserted then Some(Stored) else None
    case KeepImmutable => if c in GivenImmutable(given) then Some(Stored) else None
    case Typed(s) => if ColumnOf(s) == c then Some(WriteOf(s)) else None
    case Custom(k, w) => if k == c then Some(w) else None
    case _ => None
  }

  lemma {:induction false} LastWriteWins(inserted: set<Column>, given: seq<set<Column>>, opts: seq<ConflictOption>,
                                         c: Column,
      i: nat)
    requires i < |opts| && WriteBy(inserted, given, opts[i], c).Some?
    requires forall j :: i < j < |opts| ==> WriteBy(inserted, given, opts[j], c).None?
    ensures c in Run(inserted, given, opts)
    ensures Run(inserted, given, opts)[c] == WriteBy(inserted, given, opts[i], c).value
  {
    var n := |opts| - 1;
    if i < n {
      LastWriteWins(inserted, given, opts[..n], c, i);
      assert WriteBy(inserted, given, opts[n], c).None?;
    }
  }

  lemma {:induction false} NoWrite(inserted: set<Column>, given: seq<set<Column>>, opts: seq<ConflictOption>, c: Column)
    requires forall j :: 0 <= j < |opts| ==> WriteBy(inserted, given, opts[j], c).None?
    ensures c !in Run(inserted, given, opts)
  {
    if opts != [] {
      var n := |opts| - 1;
      NoWrite(inserted, given, opts[..n], c);
      assert WriteBy(inserted, given, opts[n], c).None?;
    }
  }

  // ---------------------------------------------------------------- immutable columns survive

  /** What a caller does to the upsert builder. */
  datatype Call = UpdateNewValues | Ignore | Skip | Set(s: Setter)

  function OptionsOf(call: Call): seq<ConflictOption> {
    match call
    case UpdateNewValues => [NewValues, KeepImmutable]
    case Ignore => [IgnoreAll]
    case Skip => [DoNothing]
    case Set(s) => [Typed(s)]
  }

  /** The options given to OnConflict, followed by those of each call. */
  function Options(opening: seq<ConflictOption>, calls: seq<Call>): seq<ConflictOption> {
    if calls == [] then opening
    else Options(opening, calls[..|calls| - 1]) + OptionsOf(calls[|calls| - 1])
  }

  lemma {:induction false} GivenMeans(given: seq<set<Column>>, c: Column)
    ensures c in GivenImmutable(given) <==> Immutable(c) && exists k :: 0 <= k < |given| && c in given[k]
    ensures c in InsertedBy(given) <==> exists k :: 0 <= k < |given| && c in given[k]
  {
    if given != [] {
      var n := |given| - 1;
      GivenMeans(given[..n], c);
      if k :| 0 <= k < |given| && c in given[k] {
        assert k < n ==> c in given[..n][k];
      }
      if k :| 0 <= k < n && c in given[..n][k] {
        assert c in given[k];
      }
    }
  }

  lemma {:induction false} RunNext(inserted: set<Column>, given: seq<set<Column>>, opts: seq<ConflictOption>,
                                   o: ConflictOption)
    ensures Run(inserted, given, opts + [o]) == Apply(inserted, given, Run(inserted, given, opts), o)
  {
    assert (opts + [o])[..|opts|] == opts;
  }

  lemma {:induction false} RunCall(inserted: set<Column>, given: seq<set<Column>>, opts: seq<ConflictOption>,
                                   call: Call)
    ensures Run(inserted, given, opts + OptionsOf(call)) ==
      (var sets := Run(inserted, given, opts);
       match call
       case UpdateNewValues => Overlay(Overlay(sets, inserted, Proposed), GivenImmutable(given), Stored)
       case Ignore => Overlay(sets, inserted, Stored)
       case Skip => sets
       case Set(s) => sets[ColumnOf(s) := WriteOf(s)])
  {
    if call.UpdateNewValues? {
      RunNext(inserted, given, opts, NewValues);
      RunNext(inserted, given, opts + [NewValues], KeepImmutable);
      assert opts + OptionsOf(call) == opts + [NewValues] + [KeepImmutable];
    } else {
      RunNext(inserted, given, opts, OptionsOf(call)[0]);
    }
  }

  function At(sets: Sets, c: Column): Option<Write> {
    if c in sets then Some(sets[c]) else None
  }

  /** What this call makes the set write to this column, if anything. */
  function CallWrite(inserted: set<Column>, given: seq<set<Column>>, call: Call, c: Column): Option<Write> {
    match call
    case UpdateNewValues =>
      if c in GivenImmutable(given) then Some(Stored) else if c in inserted then Some(Proposed) else None
    case Ignore => if c in inserted then Some(Stored) else None
    case Skip => None
    case Set(s) => if ColumnOf(s) == c then Some(WriteOf(s)) else None
  }

  lemma {:induction false} AtCall(inserted: set<Column>, given: seq<set<Column>>, opts: seq<ConflictOption>, call: Call,
                                  c: Column)
    ensures (var w := CallWrite(inserted, given, call, c);
             At(Run(inserted, given, opts + OptionsOf(call)), c) ==
             if w.Some? then w else At(Run(inserted, given, opts), c))
  {
    RunCall(inserted, given, opts, call);
  }

  lemma {:induction false} StoredAfterCalls(inserted: set<Column>, given: seq<set<Column>>,
                                            opening: seq<ConflictOption>,
      calls: seq<Call>, u: nat, c: Column)
    requires u < |calls| && calls[u].UpdateNewValues? && c in GivenImmutable(given)
    ensures At(Run(inserted, given, Options(opening, calls)), c) == Some(Stored)
  {
    var n := |calls| - 1;
    AtCall(inserted, given, Options(opening, calls[..n]), calls[n], c);
    if u < n {
      StoredAfterCalls(inserted, given, opening, calls[..n], u, c);
      ImmutableUntouched(inserted, given, calls[n], c);
    }
  }

  lemma {:induction false} ImmutableUntouched(inserted: set<Column>, given: seq<set<Column>>, call: Call, c: Column)
    requires c in GivenImmutable(given)
    ensures CallWrite(inserted, given, call, c) in {None, Some(Stored)}
  {
    GivenMeans(given, c);
  }

  /** Whatever OnConflict was given and whatever typed calls are made, before and after: once UpdateNewValues is among
      them, an immutable column that some row of the batch provides keeps its stored value in every conflicting row. */
  lemma {:induction false} ImmutableKept(batch: seq<map<Column, Cell>>, opening: seq<ConflictOption>, calls: seq<Call>,
      i: nat, stored: Row, c: Column)
    requires i < |batch| && UpdateNewValues in calls
    requires Immutable(c) && exists k :: 0 <= k < |batch| && c in batch[k]
    ensures Upserted(batch, Options(opening, calls), i, stored, c) == stored(c)
  {
    var given := KeysOf(batch);
    var k :| 0 <= k < |batch| && c in batch[k];
    assert c in given[k];
    GivenMeans(given, c);
    var u :| 0 <= u < |calls| && calls[u] == UpdateNewValues;
    StoredAfterCalls(InsertedBy(given), given, opening, calls, u, c);
  }

  /** Every builder that passed its check provides all immutable columns. */
  predicate PassedCheck(values: map<Column, Cell>) {
    InviteeUserID in values && SourceRedeemCodeID in values && SourceKind in values && BaseAmount in values
    && Status in values && Attempts in values && NextRetryAt in values && CreatedAt in values && UpdatedAt in values
  }

  lemma {:induction false} CheckedBatchKeepsImmutable(batch: seq<map<Column, Cell>>, opening: seq<ConflictOption>,
      calls: seq<Call>, i: nat, stored: Row, c: Column)
    requires i < |batch| && PassedCheck(batch[i]) && UpdateNewValues in calls && Immutable(c)
    ensures Upserted(batch, Options(opening, calls), i, stored, c) == stored(c)
  {
    assert c in batch[i];
    ImmutableKept(batch, opening, calls, i, stored, c);
  }

  /** UpdateNewValues is documented as the plain option NewValues. It is not: the plain option overwrites. */
  lemma {:induction false} PlainNewValuesDiffers(batch: seq<map<Column, Cell>>, i: nat, stored: Row)
    requires i < |batch|
    ensures (forall c :: Upserted(batch, [NewValues], i, stored, c)
                      == Upserted(batch, Options([], [UpdateNewValues]), i, stored, c))
      <==> forall c :: Immutable(c) && c in InsertedBy(KeysOf(batch)) ==> RowOf(batch[i])(c) == stored(c)
  {
    var given := KeysOf(batch);
    var inserted := InsertedBy(given);
    RunNext(inserted, given, [], NewValues);
    RunCall(inserted, given, [], UpdateNewValues);
    var calls := [UpdateNewValues];
    assert calls[..0] == [] && calls[0] == UpdateNewValues;
    assert Options([], calls) == [] + OptionsOf(UpdateNewValues);
    assert [] + [NewValues] == [NewValues];
    forall c ensures c in GivenImmutable(given) <==> Immutable(c) && c in inserted {
      GivenMeans(given, c);
    }
    var row := RowOf(batch[i]);
    forall c
      ensures Upserted(batch, [NewValues], i, stored, c) == (if c in inserted then row(c) else stored(c))
      ensures Upserted(batch, Options([], calls), i, stored, c)
           == (if c in inserted && !Immutable(c) then row(c) else stored(c))
    {
    }
  }

  // ---------------------------------------------------------------- mutable columns

  /** UpdateNewValues and then these typed setters. */
  function ThenSet(setters: seq<Setter>): seq<Call> {
    if setters == [] then [UpdateNewValues] else ThenSet(setters[..|setters| - 1]) + [Set(setters[|setters| - 1])]
  }

  /** The write of the last typed setter for this column. */
  function LastSet(setters: seq<Setter>, c: Column): Option<Write> {
    if setters == [] then None
    else if ColumnOf(setters[|setters| - 1]) == c then Some(WriteOf(setters[|setters| - 1]))
    else LastSet(setters[..|setters| - 1], c)
  }

  lemma {:induction false} RunThenSet(given: seq<set<Column>>, setters: seq<Setter>, c: Column)
    requires !Immutable(c)
    ensures (var last := LastSet(setters, c);
             At(Run(InsertedBy(given), given, Options([], ThenSet(setters))), c) ==
             if last.Some? then last else if c in InsertedBy(given) then Some(Proposed) else None)
  {
    var inserted := InsertedBy(given);
    var calls := ThenSet(setters);
    var n := |calls| - 1;
    AtCall(inserted, given, Options([], calls[..n]), calls[n], c);
    if setters == [] {
      GivenMeans(given, c);
      assert calls[..n] == [];
    } else {
      assert calls[..n] == ThenSet(setters[..|setters| - 1]);
      RunThenSet(given, setters[..|setters| - 1], c);
    }
  }

  lemma {:induction false} NeverSkipped(setters: seq<Setter>)
    ensures DoNothing !in Options([], ThenSet(setters))
    ensures UpdateNewValues in ThenSet(setters)
  {
    var calls := ThenSet(setters);
    if setters == [] {
      assert calls[..0] == [];
    } else {
      assert calls[..|calls| - 1] == ThenSet(setters[..|setters| - 1]);
      NeverSkipped(setters[..|setters| - 1]);
    }
  }

  /** After UpdateNewValues and typed setters: the last setter of a mutable column decides; without one, the column
      takes the row's own value if any row of the batch provides it, even where this row does not and NULL results. */
  lemma {:induction false} MutableExact(batch: seq<map<Column, Cell>>, setters: seq<Setter>, i: nat, stored: Row,
                                        c: Column)
    requires i < |batch| && !Immutable(c)
    ensures Upserted(batch, Options([], ThenSet(setters)), i, stored, c) ==
      var proposed := RowOf(batch[i])(c);
      match LastSet(setters, c)
      case Some(w) => Written(w, stored(c), proposed)
      case None => if exists k :: 0 <= k < |batch| && c in batch[k] then proposed else stored(c)
  {
    var given := KeysOf(batch);
    RunThenSet(given, setters, c);
    NeverSkipped(setters);
    GivenMeans(given, c);
    if k :| 0 <= k < |batch| && c in batch[k] {
      assert c in given[k];
    }
    if k :| 0 <= k < |batch| && c in given[k] {
      assert c in batch[k];
    }
  }

  /** When a conflicting row of a batch becomes what upserting it alone would have made of it: not for a column the row
      leaves out but another row of the batch provides, for there NULL replaces what was stored. */
  lemma {:induction false} BatchIsEach(batch: seq<map<Column, Cell>>, setters: seq<Setter>, i: nat, stored: Row,
                                       c: Column)
    requires i < |batch| && PassedCheck(batch[i])
    ensures Upserted(batch, Options([], ThenSet(setters)), i, stored, c)
         == Upserted([batch[i]], Options([], ThenSet(setters)), 0, stored, c)
      <==> (c in batch[i] || LastSet(setters, c).Some? || stored(c) == E.Null
            || forall k :: 0 <= k < |batch| ==> c !in batch[k])
  {
    var alone := [batch[i]];
    NeverSkipped(setters);
    if Immutable(c) {
      assert c in batch[i] && c in alone[0];
      ImmutableKept(batch, [], ThenSet(setters), i, stored, c);
      ImmutableKept(alone, [], ThenSet(setters), 0, stored, c);
    } else {
      MutableExact(batch, setters, i, stored, c);
      MutableExact(alone, setters, 0, stored, c);
      assert forall k :: 0 <= k < |alone| ==> alone[k] == batch[i];
      if c in batch[i] {
        assert c in alone[0];
      }
    }
  }

  // ---------------------------------------------------------------- what each call means for a cell

  /** A typed setter of another column. */
  predicate Elsewhere(call: Call, c: Column) {
    call.Set? &&
    match call.s
    case Assign(d, _) => d != c
    case Propose(d) => d != c
    case Clear(d) => d != c
    case AddAttempts(_) => !c.Attempts?
  }

  lemma {:induction false} WritesElsewhere(inserted: set<Column>, given: seq<set<Column>>, call: Call, c: Column)
    requires Elsewhere(call, c)
    ensures CallWrite(inserted, given, call, c).None?
  {
  }

  /** The last call is of no concern to the column. */
  lemma {:induction false} LastElsewhere(inserted: set<Column>, given: seq<set<Column>>, opening: seq<ConflictOption>,
                                         calls: seq<Call>, c: Column)
    requires calls != [] && Elsewhere(calls[|calls| - 1], c)
    ensures At(Run(inserted, given, Options(opening, calls)), c)
         == At(Run(inserted, given, Options(opening, calls[..|calls| - 1])), c)
  {
    var n := |calls| - 1;
    AtCall(inserted, given, Options(opening, calls[..n]), calls[n], c);
    WritesElsewhere(inserted, given, calls[n], c);
  }

  /** What the set holds for c after the first p calls. */
  ghost function AfterCalls(inserted: set<Column>, given: seq<set<Column>>, opening: seq<ConflictOption>, c: Column)
      : seq<Call> -> Option<Write> {
    calls => At(Run(inserted, given, Options(opening, calls)), c)
  }

  lemma {:induction false} LaterElsewhere(after: seq<Call> -> Option<Write>, calls: seq<Call>, p: nat, c: Column)
    requires p < |calls| && forall j :: p < j < |calls| ==> Elsewhere(calls[j], c)
    requires forall cs: seq<Call> :: cs != [] && Elsewhere(cs[|cs| - 1], c) ==> after(cs) == after(cs[..|cs| - 1])
    ensures after(calls) == after(calls[..p + 1])
  {
    var n := |calls| - 1;
    if p < n {
      assert Elsewhere(calls[n], c);
      LaterElsewhere(after, calls[..n], p, c);
      assert calls[..n][..p + 1] == calls[..p + 1];
    } else {
      assert calls[..p + 1] == calls;
    }
  }

  lemma {:induction false} SameAfter(inserted: set<Column>, given: seq<set<Column>>, opening: seq<ConflictOption>,
                                     calls: seq<Call>, p: nat, c: Column)
    requires p < |calls| && forall j :: p < j < |calls| ==> Elsewhere(calls[j], c)
    ensures At(Run(inserted, given, Options(opening, calls)), c)
         == At(Run(inserted, given, Options(opening, calls[..p + 1])), c)
  {
    var after := AfterCalls(inserted, given, opening, c);
    forall cs: seq<Call> | cs != [] && Elsewhere(cs[|cs| - 1], c) ensures after(cs) == after(cs[..|cs| - 1]) {
      LastElsewhere(inserted, given, opening, cs, c);
    }
    LaterElsewhere(after, calls, p, c);
  }

  /** The cell after a row conflicted, when call p is the last that concerns the column and the row is not skipped. */
  lemma {:induction false} DecidedBy(batch: seq<map<Column, Cell>>, opening: seq<ConflictOption>, calls: seq<Call>,
                                     p: nat, i: nat, stored: Row, c: Column)
    requires i < |batch| && p < |calls| && forall j :: p < j < |calls| ==> Elsewhere(calls[j], c)
    requires DoNothing !in Options(opening, calls)
    ensures var w := CallWrite(InsertedBy(KeysOf(batch)), KeysOf(batch), calls[p], c);
            w.Some? ==> Upserted(batch, Options(opening, calls), i, stored, c)
                        == Written(w.value, stored(c), RowOf(batch[i])(c))
  {
    var given := KeysOf(batch);
    SameAfter(InsertedBy(given), given, opening, calls, p, c);
    AtCall(InsertedBy(given), given, Options(opening, calls[..p]), calls[p], c);
    assert calls[..p + 1][..p] == calls[..p];
  }

  /** Whatever came before, the last typed setter of a column decides its cell in every row of the batch: the value
      given, the row's own value (NULL if it has none), NULL, or the stored number and the increment. */
  lemma {:induction false} SetterMeans(batch: seq<map<Column, Cell>>, opening: seq<ConflictOption>, calls: seq<Call>,
                                       p: nat, i: nat, stored: Row, c: Mutable)
    requires i < |batch| && p < |calls| && forall j :: p < j < |calls| ==> Elsewhere(calls[j], c)
    requires DoNothing !in Options(opening, calls)
    ensures var cell := Upserted(batch, Options(opening, calls), i, stored, c);
            && (forall v :: calls[p] == Set(Assign(c, v)) ==> cell == v)
            && (calls[p] == Set(Propose(c)) ==> cell == if c in batch[i] then batch[i][c] else E.Null)
            && (calls[p].Set? && calls[p].s.Clear? && calls[p].s.k == c ==> cell == E.Null)
            && (forall n, k :: c == Attempts && calls[p] == Set(AddAttempts(n)) && stored(c) == E.IntCell(k)
                  ==> cell == E.IntCell(k + n))
  {
    DecidedBy(batch, opening, calls, p, i, stored, c);
  }

  /** Ignore, when no later setter concerns the column, keeps the stored cell of every inserted column. */
  lemma {:induction false} IgnoreMeans(batch: seq<map<Column, Cell>>, opening: seq<ConflictOption>, calls: seq<Call>,
                                       p: nat, i: nat, stored: Row, c: Column)
    requires i < |batch| && p < |calls| && calls[p] == Ignore
    requires forall j :: p < j < |calls| ==> Elsewhere(calls[j], c)
    requires exists k :: 0 <= k < |batch| && c in batch[k]
    ensures Upserted(batch, Options(opening, calls), i, stored, c) == stored(c)
  {
    var k :| 0 <= k < |batch| && c in batch[k];
    assert c in KeysOf(batch)[k];
    GivenMeans(KeysOf(batch), c);
    if DoNothing !in Options(opening, calls) {
      DecidedBy(batch, opening, calls, p, i, stored, c);
    }
  }

  lemma {:induction false} SkipIsOption(opening: seq<ConflictOption>, calls: seq<Call>, p: nat)
    requires p < |calls| && calls[p] == Skip
    ensures DoNothing in Options(opening, calls)
  {
    var n := |calls| - 1;
    if p < n {
      SkipIsOption(opening, calls[..n], p);
    }
  }

  /** DoNothing keeps the whole stored row, whatever else is asked for. */
  lemma {:induction false} SkipMeans(batch: seq<map<Column, Cell>>, opening: seq<ConflictOption>, calls: seq<Call>,
                                     p: nat, i: nat, stored: Row, c: Column)
    requires i < |batch| && p < |calls| && calls[p] == Skip
    ensures Upserted(batch, Options(opening, calls), i, stored, c) == stored(c)
  {
    SkipIsOption(opening, calls, p);
  }

  /** The five columns that no typed setter reaches and UpdateNewValues protects; all others take the new values. */
  lemma {:induction false} NewValuesMean(values: map<Column, Cell>, stored: Row, c: Column)
    requires PassedCheck(values)
    ensures Upserted([values], Options([], [UpdateNewValues]), 0, stored, c) ==
      match c
      case InviteeUserID | SourceRedeemCodeID | SourceKind | BaseAmount | CreatedAt => stored(c)
      case _ => if c in values then values[c] else stored(c)
  {
    var batch := [values];
    assert UpdateNewValues in [UpdateNewValues];
    assert ThenSet([]) == [UpdateNewValues];
    if Immutable(c) {
      assert c in batch[0];
      ImmutableKept(batch, [], [UpdateNewValues], 0, stored, c);
    } else {
      MutableExact(batch, [], 0, stored, c);
      assert (exists k :: 0 <= k < |batch| && c in batch[k]) <==> c in values by {
        assert batch[0] == values;
      }
    }
  }

  // ---------------------------------------------------------------- at concrete rows

  /** A row that passes the check, without the optional columns. */
  function CheckedRow(): map<Column, Cell> {
    map[InviteeUserID := E.IntCell(1), SourceRedeemCodeID := E.IntCell(2), SourceKind := E.TextCell("k"),
        BaseAmount := E.FloatCell(3.0), Status := E.TextCell("s"), Attempts := E.IntCell(0),
        NextRetryAt := E.TimeCell(0), CreatedAt := E.TimeCell(0), UpdatedAt := E.TimeCell(0)]
  }

  /** A stored row with a last error and another base amount. */
  function StoredRow(): Row {
    (c: Column) => if c.LastError? then E.TextCell("e") else if c.BaseAmount? then E.FloatCell(4.0) else E.Null
  }

  /** Only the first of two rows provides a last error: the second one's stored error is replaced by NULL, although
      upserting it alone keeps it. */
  lemma {:induction false} BatchDropsStored()
    ensures var batch, opts := [CheckedRow()[LastError := E.TextCell("new")], CheckedRow()], Options([], ThenSet([]));
            && PassedCheck(batch[0]) && PassedCheck(batch[1])
            && Upserted(batch, opts, 1, StoredRow(), LastError) == E.Null
            && Upserted([batch[1]], opts, 0, StoredRow(), LastError) == E.TextCell("e")
  {
    var batch := [CheckedRow()[LastError := E.TextCell("new")], CheckedRow()];
    assert LastError in batch[0] && LastError !in batch[1];
    MutableExact(batch, [], 1, StoredRow(), LastError);
    MutableExact([batch[1]], [], 0, StoredRow(), LastError);
  }

  /** The plain option overwrites the stored base amount, which UpdateNewValues keeps. */
  lemma {:induction false} PlainOverwrites()
    ensures var batch := [CheckedRow()];
            && Upserted(batch, [NewValues], 0, StoredRow(), BaseAmount) == E.FloatCell(3.0)
            && Upserted(batch, Options([], [UpdateNewValues]), 0, StoredRow(), BaseAmount) == E.FloatCell(4.0)
  {
    var batch := [CheckedRow()];
    var given := KeysOf(batch);
    assert BaseAmount in batch[0] && BaseAmount in given[0];
    GivenMeans(given, BaseAmount);
    RunNext(InsertedBy(given), given, [], NewValues);
    assert [] + [NewValues] == [NewValues];
    assert UpdateNewValues in [UpdateNewValues];
    ImmutableKept(batch, [], [UpdateNewValues], 0, StoredRow(), BaseAmount);
  }
}

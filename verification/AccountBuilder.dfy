/** One account to be created: default values, checks, and the spec and node that its mutation becomes. */
module AccountBuilder {
  import opened Collections
  import opened AccountEntity

  /** What a create mutation holds: the scalar columns that were set and the edges that were added. */
  datatype Mutation = Mutation(values: map<Column, Value>, groups: set<int>, proxy: Option<int>, parent: Option<int>,
                               children: set<int>, usageLogs: set<int>)

  datatype CreateError = Uninitialized(column: Column) | Missing(column: Column) | Invalid(column: Column)
                       | InsertError(constraint: bool) | HookError(code: int)

  /** Default providers and validators. A provider that was never registered is None. */
  datatype Runtime = Runtime(createdAt: Option<int>, updatedAt: Option<int>, credentials: Option<map<string, string>>,
                             extra: Option<map<string, string>>, concurrency: int, priority: int, rateMultiplier: real,
                             status: string, autoPauseOnExpired: bool, schedulable: bool, quotaDimension: string,
                             valid: (Column, Value) -> bool)

  // ---------------------------------------------------------------- defaults

  predicate HasDefault(c: Column) {
    match c
    case CreatedAt | UpdatedAt | Credentials | Extra | Concurrency | Priority | RateMultiplier | Status
       | AutoPauseOnExpired | Schedulable | QuotaDimension => true
    case _ => false
  }

  /** The default of a column; None while its provider is not registered. */
  function DefaultOf(rt: Runtime, c: Column): Option<Value>
    requires HasDefault(c)
  {
    match c
    case CreatedAt => if rt.createdAt.None? then None else Some(TimeV(rt.createdAt.value))
    case UpdatedAt => if rt.updatedAt.None? then None else Some(TimeV(rt.updatedAt.value))
    case Credentials => if rt.credentials.None? then None else Some(JsonV(rt.credentials.value))
    case Extra => if rt.extra.None? then None else Some(JsonV(rt.extra.value))
    case Concurrency => Some(IntV(rt.concurrency))
    case Priority => Some(IntV(rt.priority))
    case RateMultiplier => Some(FloatV(rt.rateMultiplier))
    case Status => Some(TextV(rt.status))
    case AutoPauseOnExpired => Some(BoolV(rt.autoPauseOnExpired))
    case Schedulable => Some(BoolV(rt.schedulable))
    case _ => Some(TextV(rt.quotaDimension))
  }

  const DEFAULTS := 11

  /** The position of a column in the order the defaults are applied. */
  function DefaultPosition(c: Column): nat {
    match c
    case CreatedAt => 0 case UpdatedAt => 1 case Credentials => 2 case Extra => 3
    case Concurrency => 4 case Priority => 5 case RateMultiplier => 6 case Status => 7
    case AutoPauseOnExpired => 8 case Schedulable => 9 case QuotaDimension => 10
    case _ => DEFAULTS
  }

  function DefaultAt(k: nat): Column {
    if k == 0 then CreatedAt else if k == 1 then UpdatedAt
    else if k == 2 then Credentials else if k == 3 then Extra
    else if k == 4 then Concurrency else if k == 5 then Priority
    else if k == 6 then RateMultiplier else if k == 7 then Status
    else if k == 8 then AutoPauseOnExpired else if k == 9 then Schedulable else QuotaDimension
  }

  lemma {:induction false} DefaultAtPosition(c: Column)
    ensures HasDefault(c) <==> DefaultPosition(c) < DEFAULTS
    ensures HasDefault(c) ==> DefaultAt(DefaultPosition(c)) == c
  {
  }

  /** The values once the first k defaults are in; what was set stays. */
  ghost predicate FilledTo(rt: Runtime, before: map<Column, Value>, after: map<Column, Value>, k: nat) {
    && (forall c :: c in after <==> c in before || (HasDefault(c) && DefaultPosition(c) < k))
    && (forall c :: c in before ==> c in after && after[c] == before[c])
    && (forall c :: c in after && c !in before ==> HasDefault(c) && DefaultOf(rt, c) == Some(after[c]))
  }

  /** The values once all defaults are in. */
  ghost predicate Filled(rt: Runtime, before: map<Column, Value>, after: map<Column, Value>) {
    && (forall c :: c in after <==> c in before || HasDefault(c))
    && (forall c :: c in before ==> c in after && after[c] == before[c])
    && (forall c :: c in after && c !in before ==> HasDefault(c) && DefaultOf(rt, c) == Some(after[c]))
  }

  /** Some column that is not set has no registered provider, and the defaults before it, and only those, are in. */
  ghost predicate Unprovided(rt: Runtime, before: map<Column, Value>, after: map<Column, Value>) {
    exists c ::
      HasDefault(c) && c !in before && DefaultOf(rt, c).None? && FilledTo(rt, before, after, DefaultPosition(c))
  }

  lemma {:induction false} NothingFilled(rt: Runtime, before: map<Column, Value>)
    ensures FilledTo(rt, before, before, 0)
  {
  }

  lemma {:induction false} AllFilled(rt: Runtime, before: map<Column, Value>, after: map<Column, Value>)
    requires FilledTo(rt, before, after, DEFAULTS)
    ensures Filled(rt, before, after)
  {
    forall c ensures c in after <==> c in before || HasDefault(c) {
      DefaultAtPosition(c);
    }
  }

  lemma {:induction false} FillNext(rt: Runtime, before: map<Column, Value>, now: map<Column, Value>, c: Column,
                                    v: Value)
    requires HasDefault(c) && FilledTo(rt, before, now, DefaultPosition(c)) && DefaultOf(rt, c) == Some(v)
    ensures FilledTo(rt, before, if c in now then now else now[c := v], DefaultPosition(c) + 1)
  {
    forall d: Column | HasDefault(d) && DefaultPosition(d) == DefaultPosition(c) ensures d == c {
      DefaultAtPosition(c);
      DefaultAtPosition(d);
    }
  }

  /** The column holds what was set or else the value of its provider. */
  predicate Got(before: map<Column, Value>, after: map<Column, Value>, c: Column, v: Option<Value>) {
    c in after && (if c in before then after[c] == before[c] else v == Some(after[c]))
  }

  predicate Unchanged(before: map<Column, Value>, after: map<Column, Value>, c: Column) {
    (c in after <==> c in before) && (c in before ==> after[c] == before[c])
  }

  function TimeOf(t: Option<int>): Option<Value> {
    if t.None? then None else Some(TimeV(t.value))
  }

  function DocOf(doc: Option<map<string, string>>): Option<Value> {
    if doc.None? then None else Some(JsonV(doc.value))
  }

  lemma {:induction false} FilledAt(rt: Runtime, before: map<Column, Value>, after: map<Column, Value>, k: nat,
                                    c: Column)
    requires FilledTo(rt, before, after, k)
    ensures if HasDefault(c) && DefaultPosition(c) < k then Got(before, after, c, DefaultOf(rt, c))
            else Unchanged(before, after, c)
  {
  }

  lemma {:induction false} FilledIsTo(rt: Runtime, before: map<Column, Value>, after: map<Column, Value>)
    requires Filled(rt, before, after)
    ensures FilledTo(rt, before, after, DEFAULTS)
  {
    forall c ensures c in after <==> c in before || (HasDefault(c) && DefaultPosition(c) < DEFAULTS) {
      DefaultAtPosition(c);
    }
  }

  /** The columns with a default, in the order they are filled. */
  function Defaulting(): seq<Column> {
    [CreatedAt, UpdatedAt, Credentials, Extra, Concurrency, Priority, RateMultiplier, Status, AutoPauseOnExpired,
     Schedulable, QuotaDimension]
  }

  /** What fills them. */
  function Providers(rt: Runtime): seq<Option<Value>> {
    [TimeOf(rt.createdAt), TimeOf(rt.updatedAt), DocOf(rt.credentials), DocOf(rt.extra), Some(IntV(rt.concurrency)),
     Some(IntV(rt.priority)), Some(FloatV(rt.rateMultiplier)), Some(TextV(rt.status)),
     Some(BoolV(rt.autoPauseOnExpired)), Some(BoolV(rt.schedulable)), Some(TextV(rt.quotaDimension))]
  }

  lemma {:induction false} ProviderAt(rt: Runtime, c: Column)
    ensures HasDefault(c) <==> c in Defaulting()
    ensures HasDefault(c) ==>
      var k := DefaultPosition(c);
      k < |Defaulting()| == |Providers(rt)| && Defaulting()[k] == c && Providers(rt)[k] == DefaultOf(rt, c)
  {
  }

  lemma {:induction false} PositionAt(k: nat)
    requires k < |Defaulting()|
    ensures HasDefault(Defaulting()[k]) && DefaultPosition(Defaulting()[k]) == k
  {
  }

  /** The first k columns hold what was set or else their provider's value, and every other column is as it was. */
  ghost predicate Provided(rt: Runtime, before: map<Column, Value>, after: map<Column, Value>, k: nat)
    requires k <= |Defaulting()|
  {
    && (forall j :: 0 <= j < k ==> Got(before, after, Defaulting()[j], Providers(rt)[j]))
    && (forall c :: c !in Defaulting()[..k] ==> Unchanged(before, after, c))
  }

  lemma {:induction false} ProvidedTo(rt: Runtime, before: map<Column, Value>, after: map<Column, Value>, k: nat)
    requires FilledTo(rt, before, after, k) && k <= |Defaulting()|
    ensures Provided(rt, before, after, k)
  {
    forall j | 0 <= j < k ensures Got(before, after, Defaulting()[j], Providers(rt)[j]) {
      PositionAt(j);
      ProviderAt(rt, Defaulting()[j]);
      FilledAt(rt, before, after, k, Defaulting()[j]);
    }
    forall c ensures c !in Defaulting()[..k] ==> Unchanged(before, after, c) {
      ProviderAt(rt, c);
      FilledAt(rt, before, after, k, c);
      if HasDefault(c) && DefaultPosition(c) < k {
        assert Defaulting()[..k][DefaultPosition(c)] == c;
      }
    }
  }

  /** After the defaults every listed column holds what was set or else the value of its provider. */
  lemma {:induction false} DefaultsMean(rt: Runtime, before: map<Column, Value>, after: map<Column, Value>)
    requires Filled(rt, before, after)
    ensures Provided(rt, before, after, |Defaulting()|)
  {
    FilledIsTo(rt, before, after);
    ProvidedTo(rt, before, after, DEFAULTS);
  }

  /** Where they stop: at the first column that is not set and has no provider, with the columns before it filled. */
  lemma {:induction false} DefaultsStop(rt: Runtime, before: map<Column, Value>, after: map<Column, Value>)
    requires Unprovided(rt, before, after)
    ensures exists k ::
      0 <= k < 4 && Defaulting()[k] !in before && Providers(rt)[k].None? && Provided(rt, before, after, k)
  {
    var c :| HasDefault(c) && c !in before && DefaultOf(rt, c).None? && FilledTo(rt, before, after, DefaultPosition(c));
    ProviderAt(rt, c);
    ProvidedTo(rt, before, after, DefaultPosition(c));
    OnlyFourMissing(rt, DefaultPosition(c));
  }

  lemma {:induction false} OnlyFourMissing(rt: Runtime, k: nat)
    requires k < |Providers(rt)| && Providers(rt)[k].None?
    ensures k < 4
  {
  }

  // ---------------------------------------------------------------- checks

  predicate Required(c: Column) {
    match c
    case CreatedAt | UpdatedAt | Name | Platform | Type | Credentials | Extra | Concurrency | Priority | RateMultiplier
       | Status | AutoPauseOnExpired | Schedulable | QuotaDimension => true
    case _ => false
  }

  predicate Validated(c: Column) {
    c.Name? || c.Platform? || c.Type? || c.Status? || c.SessionWindowStatus? || c.QuotaDimension?
  }

  /** The error a column gives, if any: missing although required, or rejected by its validator. */
  function Fault(rt: Runtime, values: map<Column, Value>, c: Column): Option<CreateError> {
    if Required(c) && c !in values then Some(Missing(c))
    else if Validated(c) && c in values && !rt.valid(c, values[c]) then Some(Invalid(c))
    else None
  }

  const CHECKS := 15

  /** The column of the k-th check. */
  function Checked(k: nat): Column {
    if k == 0 then CreatedAt else if k == 1 then UpdatedAt else if k == 2 then Name else if k == 3 then Platform else
    if k == 4 then Type else if k == 5 then Credentials else if k == 6 then Extra else if k == 7 then Concurrency else
    if k == 8 then Priority else if k == 9 then RateMultiplier else if k == 10 then Status else
    if k == 11 then AutoPauseOnExpired else if k == 12 then Schedulable else if k == 13 then SessionWindowStatus else
    QuotaDimension
  }

  function FirstSome<T>(s: seq<Option<T>>): Option<T> {
    if s == [] then None else if s[0].Some? then s[0] else FirstSome(s[1..])
  }

  /** The outcome of every check, in the order they run. */
  function Faults(rt: Runtime, values: map<Column, Value>): (r: seq<Option<CreateError>>)
    ensures |r| == CHECKS && forall k :: 0 <= k < CHECKS ==> r[k] == Fault(rt, values, Checked(k))
  {
    seq(CHECKS, k requires 0 <= k < CHECKS => Fault(rt, values, Checked(k)))
  }

  /** The checks run before a save; the first fault is reported. */
  function Check(rt: Runtime, values: map<Column, Value>): Option<CreateError> {
    FirstSome(Faults(rt, values))
  }

  lemma {:induction false} FirstSomeIs<T>(s: seq<Option<T>>) returns (i: nat)
    ensures FirstSome(s).None? ==> forall j :: 0 <= j < |s| ==> s[j].None?
    ensures FirstSome(s).Some? ==> i < |s| && FirstSome(s) == s[i] && forall j :: 0 <= j < i ==> s[j].None?
  {
    i := 0;
    if s != [] && s[0].None? {
      var k := FirstSomeIs(s[1..]);
      i := k + 1;
      assert forall j :: 0 < j < |s| ==> s[j] == s[1..][j - 1];
    }
  }

  /** The position of a column among the checks. */
  function CheckPosition(c: Column): nat {
    match c
    case CreatedAt => 0 case UpdatedAt => 1 case Name => 2 case Platform => 3 case Type => 4
    case Credentials => 5 case Extra => 6 case Concurrency => 7 case Priority => 8 case RateMultiplier => 9
    case Status => 10 case AutoPauseOnExpired => 11 case Schedulable => 12 case SessionWindowStatus => 13
    case QuotaDimension => 14
    case _ => CHECKS
  }

  lemma {:induction false} CheckedAt(c: Column)
    requires Required(c) || Validated(c)
    ensures CheckPosition(c) < CHECKS && Checked(CheckPosition(c)) == c
  {
  }

  /** The checks pass exactly when no column has a fault; otherwise the reported fault is the one checked first. */
  lemma {:induction false} CheckExact(rt: Runtime, values: map<Column, Value>)
    ensures Check(rt, values).None? <==> forall c :: Fault(rt, values, c).None?
    ensures Check(rt, values).Some? ==>
      exists i: nat :: i < CHECKS && Check(rt, values) == Fault(rt, values, Checked(i))
                       && forall j :: 0 <= j < i ==> Fault(rt, values, Checked(j)).None?
  {
    var faults := Faults(rt, values);
    var i := FirstSomeIs(faults);
    if Check(rt, values).Some? {
      assert forall j :: 0 <= j < i ==> faults[j] == Fault(rt, values, Checked(j));
    }
    forall c | Check(rt, values).None? ensures Fault(rt, values, c).None? {
      if Required(c) || Validated(c) {
        CheckedAt(c);
        assert faults[CheckPosition(c)].None?;
      }
    }
  }

  lemma {:induction false} RequiredByCaller(c: Column)
    ensures Required(c) && !HasDefault(c) <==> c.Name? || c.Platform? || c.Type?
  {
  }

  lemma {:induction false} MissingFault(rt: Runtime, values: map<Column, Value>, c: Column)
    requires Fault(rt, values, c).Some? && Fault(rt, values, c).value.Missing?
    ensures Fault(rt, values, c).value.column == c && Required(c) && c !in values
  {
  }

  /** Once the defaults are in, only the name, the platform and the type can be missing. */
  lemma {:induction false} OnlyIdentityMissing(rt: Runtime, before: map<Column, Value>, after: map<Column, Value>)
    requires Filled(rt, before, after)
    ensures Check(rt, after).Some? && Check(rt, after).value.Missing? ==>
      var c := Check(rt, after).value.column; (c.Name? || c.Platform? || c.Type?) && c !in before
  {
    CheckExact(rt, after);
    if Check(rt, after).Some? && Check(rt, after).value.Missing? {
      var i: nat :| i < CHECKS && Check(rt, after) == Fault(rt, after, Checked(i));
      MissingFault(rt, after, Checked(i));
      RequiredByCaller(Checked(i));
    }
  }

  /** The validator of the column accepts what is set, if anything is. */
  predicate Accepted(rt: Runtime, values: map<Column, Value>, c: Column) {
    c in values ==> rt.valid(c, values[c])
  }

  /** The check passes exactly if fourteen columns are set and six validators accept. */
  lemma {:induction false} CheckMeans(rt: Runtime, values: map<Column, Value>)
    ensures Check(rt, values).None? <==>
      && CreatedAt in values && UpdatedAt in values && Name in values && Platform in values && Type in values
      && Credentials in values && Extra in values && Concurrency in values && Priority in values
      && RateMultiplier in values && Status in values && AutoPauseOnExpired in values && Schedulable in values
      && QuotaDimension in values
      && Accepted(rt, values, Name) && Accepted(rt, values, Platform) && Accepted(rt, values, Type)
      && Accepted(rt, values, Status) && Accepted(rt, values, SessionWindowStatus)
      && Accepted(rt, values, QuotaDimension)
  {
    CheckExact(rt, values);
    if Check(rt, values).None? {
      Faultless(rt, values);
    }
  }

  lemma {:induction false} Faultless(rt: Runtime, values: map<Column, Value>)
    requires forall c :: Fault(rt, values, c).None?
    ensures forall c :: Required(c) ==> c in values
    ensures forall c :: Validated(c) ==> Accepted(rt, values, c)
  {
    forall c | Required(c) ensures c in values {
      assert Fault(rt, values, c).None?;
    }
    forall c | Validated(c) ensures Accepted(rt, values, c) {
      assert Fault(rt, values, c).None?;
    }
  }

  /** The order of the checks: the first column in this list that is missing or rejected is the one reported. */
  lemma {:induction false} CheckOrder(rt: Runtime, values: map<Column, Value>, i: nat)
    requires i < CHECKS && forall j :: 0 <= j < i ==> Fault(rt, values, Checked(j)).None?
    requires Fault(rt, values, Checked(i)).Some?
    ensures Check(rt, values) == Fault(rt, values, Checked(i))
    ensures [Checked(0), Checked(1), Checked(2), Checked(3), Checked(4), Checked(5), Checked(6), Checked(7), Checked(8),
             Checked(9), Checked(10), Checked(11), Checked(12), Checked(13), Checked(14)]
         == [CreatedAt, UpdatedAt, Name, Platform, Type, Credentials, Extra, Concurrency, Priority, RateMultiplier,
             Status, AutoPauseOnExpired, Schedulable, SessionWindowStatus, QuotaDimension]
  {
    var faults := Faults(rt, values);
    var k := FirstSomeIs(faults);
    assert faults[i].Some?;
  }
}

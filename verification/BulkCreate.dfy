/** Saving accounts in bulk, as values: every builder's mutator calls the next builder's, the last one runs the only
    insert, and ids and done flags are written on the way back. */
module BulkCreate {
  import opened Collections
  import opened AccountEntity
  import opened AccountBuilder
  import opened AccountCreate

  // ---------------------------------------------------------------- hooks

  /** What a mutator reports; the chain never looks at the node it also returns. */
  datatype Outcome = Saved | Failed(err: CreateError)

  /** What a hook does with a mutation: pass it on, possibly edited, or return without calling the next mutator. */
  datatype Step = Proceed(m: Mutation) | Halt(outcome: Outcome)

  /** A wrapper that passes the same mutation on and calls the next mutator at most once. */
  datatype Hook = Hook(before: Mutation -> Step, after: Outcome -> Outcome)

  /** Calling next or failing, and reporting what next reported. */
  ghost predicate PassThrough(h: Hook) {
    && (forall m :: h.before(m).Halt? ==> h.before(m).outcome.Failed?)
    && (forall o :: h.after(o).Failed? <==> o.Failed?)
  }

  // ---------------------------------------------------------------- the run

  datatype Event = Enter(i: nat) | HookIn(i: nat, j: nat) | Check(i: nat, ok: bool)
                 | Insert(specs: seq<Option<Spec>>, ok: bool)
                 | Mark(i: nat) | HookOut(i: nat, j: nat) | Return(i: nat, ok: bool)

  /** mutations: what the builders hold; done: the flags of their mutations; trace: what happened, in order. */
  datatype State = State(mutations: seq<Mutation>, specs: seq<Option<Spec>>, nodes: seq<Option<Node>>, done: seq<bool>,
                         trace: seq<Event>) {
    function Log(e: Event): State {
      this.(trace := trace + [e])
    }
  }

  /** The ids the database reports for the rows of a batch, or the failure of the whole batch. */
  type Inserter = seq<Option<Spec>> -> Result<seq<Option<int>>, CreateError>

  datatype Bulk = Bulk(check: Mutation -> Option<CreateError>, hooks: seq<seq<Hook>>, insert: Inserter)

  predicate Shaped(b: Bulk, s: State) {
    |s.mutations| == |s.specs| == |s.nodes| == |s.done| == |b.hooks|
  }

  /** A state in which nothing has happened yet. */
  function Start(b: Bulk, mutations: seq<Mutation>): (s: State)
    requires |mutations| == |b.hooks|
    ensures Shaped(b, s)
  {
    var n := |mutations|;
    State(mutations, seq(n, _ => None), seq(n, _ => None), seq(n, _ => false), [])
  }

  datatype Run = Run(state: State, outcome: Outcome)

  /** The insert stores the reported ids in the specs. */
  function WithIds(specs: seq<Option<Spec>>, ids: seq<Option<int>>): (r: seq<Option<Spec>>)
    ensures |r| == |specs|
    ensures forall i :: 0 <= i < |specs| ==>
      r[i] == if specs[i].None? then None else Some(specs[i].value.(id := if i < |ids| then ids[i] else None))
  {
    seq(|specs|, i requires 0 <= i < |specs| =>
      if specs[i].None? then None else Some(specs[i].value.(id := if i < |ids| then ids[i] else None)))
  }

  function RunInsert(b: Bulk, s: State): (r: Run)
    requires Shaped(b, s)
    ensures Shaped(b, r.state)
  {
    match b.insert(s.specs)
    case Err(e) => Run(s.Log(Insert(s.specs, false)), Failed(e))
    case Ok(ids) => Run(s.Log(Insert(s.specs, true)).(specs := WithIds(s.specs, ids)), Saved)
  }

  /** Filling the spec and the node of builder i. */
  function Fill(s: State, i: nat): State
    requires i < |s.mutations| == |s.specs| == |s.nodes|
  {
    s.Log(Check(i, true)).(specs := s.specs[i := Some(SpecOf(s.mutations[i]))],
                           nodes := s.nodes[i := Some(NodeOf(s.mutations[i]))])
  }

  /** On the way back: the node takes the id of its spec, if one is set, and the mutation is done. */
  function Finish(s: State, i: nat): State
    requires i < |s.specs| == |s.nodes| == |s.done|
  {
    s.Log(Mark(i)).(nodes := s.nodes[i := Identified(s.nodes[i], s.specs[i])], done := s.done[i := true])
  }

  function Identified(node: Option<Node>, spec: Option<Spec>): Option<Node> {
    if node.Some? && spec.Some? && spec.value.id.Some? then Some(node.value.(id := spec.value.id.value)) else node
  }

  /** Builder i's mutator: its hooks from the j-th on, around its own step. */
  function RunHooks(b: Bulk, s: State, i: nat, j: nat): (r: Run)
    requires Shaped(b, s) && i < |b.hooks| && j <= |b.hooks[i]|
    ensures Shaped(b, r.state)
    decreases |b.hooks| - i, 1, |b.hooks[i]| - j
  {
    if j == |b.hooks[i]| then RunCore(b, s, i)
    else
      var h := b.hooks[i][j];
      match h.before(s.mutations[i])
      case Halt(outcome) => Run(s.Log(HookIn(i, j)).Log(HookOut(i, j)), outcome)
      case Proceed(m) =>
        var r := RunHooks(b, s.Log(HookIn(i, j)).(mutations := s.mutations[i := m]), i, j + 1);
        Run(r.state.Log(HookOut(i, j)), h.after(r.outcome))
  }

  /** Builder i's own step: check, fill, let the rest of the chain run, finish. */
  function RunCore(b: Bulk, s: State, i: nat): (r: Run)
    requires Shaped(b, s) && i < |b.hooks|
    ensures Shaped(b, r.state)
    decreases |b.hooks| - i, 0
  {
    var fault := b.check(s.mutations[i]);
    if fault.Some? then Run(s.Log(Check(i, false)), Failed(fault.value))
    else
      var r := RunFilled(b, Fill(s, i), i);
      if r.outcome.Failed? then r else Run(Finish(r.state, i), Saved)
  }

  /** What builder i's step calls once it is filled: the next mutator or, in the last builder, the insert. */
  function RunFilled(b: Bulk, s: State, i: nat): (r: Run)
    requires Shaped(b, s) && i < |b.hooks|
    ensures Shaped(b, r.state)
    decreases |b.hooks| - i - 1, 3
  {
    if i + 1 < |b.hooks| then RunMutator(b, s, i + 1) else RunInsert(b, s)
  }

  function RunMutator(b: Bulk, s: State, i: nat): (r: Run)
    requires Shaped(b, s) && i < |b.hooks|
    ensures Shaped(b, r.state)
    decreases |b.hooks| - i, 2
  {
    var r := RunHooks(b, s.Log(Enter(i)), i, 0);
    Run(r.state.Log(Return(i, r.outcome.Saved?)), r.outcome)
  }

  /** The whole save; an empty list of builders saves nothing and succeeds. */
  function RunSave(b: Bulk, s: State): (r: Run)
    requires Shaped(b, s)
    ensures Shaped(b, r.state)
  {
    if |b.hooks| == 0 then Run(s, Saved) else RunMutator(b, s, 0)
  }

  // ---------------------------------------------------------------- the insert

  ghost predicate NoInsert(trace: seq<Event>) {
    forall p :: 0 <= p < |trace| ==> !trace[p].Insert?
  }

  /** All n specs are filled and all n checks have passed. */
  ghost predicate Ready(n: nat, before: seq<Event>, specs: seq<Option<Spec>>) {
    |specs| == n && forall k :: 0 <= k < n ==> specs[k].Some? && Check(k, true) in before
  }

  /** The trace has at most one insert, and that one ran when everything was ready. */
  ghost predicate InsertSafe(n: nat, trace: seq<Event>) {
    forall p :: 0 <= p < |trace| && trace[p].Insert? ==>
      NoInsert(trace[..p]) && NoInsert(trace[p + 1..]) && Ready(n, trace[..p], trace[p].specs)
  }

  /** The first i builders are filled and checked, and nothing has been inserted. */
  ghost predicate FilledUpTo(b: Bulk, s: State, i: nat)
    requires Shaped(b, s) && i <= |b.hooks|
  {
    NoInsert(s.trace) && forall k :: 0 <= k < i ==> s.specs[k].Some? && Check(k, true) in s.trace
  }

  lemma {:induction false} LogSafe(n: nat, trace: seq<Event>, e: Event)
    requires InsertSafe(n, trace) && !e.Insert?
    ensures InsertSafe(n, trace + [e])
  {
    var after := trace + [e];
    forall p | 0 <= p < |after| && after[p].Insert?
      ensures NoInsert(after[..p]) && NoInsert(after[p + 1..]) && Ready(n, after[..p], after[p].specs)
    {
      assert after[p] == trace[p] && after[..p] == trace[..p] && after[p + 1..] == trace[p + 1..] + [e];
    }
  }

  lemma {:induction false} InsertLogged(n: nat, trace: seq<Event>, specs: seq<Option<Spec>>, ok: bool)
    requires NoInsert(trace) && Ready(n, trace, specs)
    ensures InsertSafe(n, trace + [Insert(specs, ok)])
  {
    var after := trace + [Insert(specs, ok)];
    forall p | 0 <= p < |after| && after[p].Insert?
      ensures NoInsert(after[..p]) && NoInsert(after[p + 1..]) && Ready(n, after[..p], after[p].specs)
    {
      assert p == |trace| && after[..p] == trace && after[p + 1..] == [];
    }
  }

  lemma {:induction false} FilledNext(b: Bulk, s: State, i: nat)
    requires Shaped(b, s) && i < |b.hooks| && FilledUpTo(b, s, i)
    ensures FilledUpTo(b, Fill(s, i), i + 1)
  {
    var t := Fill(s, i);
    assert t.trace == s.trace + [Check(i, true)];
    assert t.trace[|s.trace|] == Check(i, true);
    forall k | 0 <= k < i ensures Check(k, true) in t.trace {
      assert Check(k, true) in s.trace;
    }
  }

  lemma {:induction false} FilledLog(b: Bulk, s: State, i: nat, e: Event, ms: seq<Mutation>)
    requires Shaped(b, s) && i <= |b.hooks| && FilledUpTo(b, s, i) && !e.Insert? && |ms| == |s.mutations|
    ensures FilledUpTo(b, s.Log(e).(mutations := ms), i)
  {
    forall k | 0 <= k < i ensures Check(k, true) in s.Log(e).trace {
      assert Check(k, true) in s.trace;
    }
  }

  lemma {:induction false} HooksSafe(b: Bulk, s: State, i: nat, j: nat)
    requires Shaped(b, s) && i < |b.hooks| && j <= |b.hooks[i]| && FilledUpTo(b, s, i)
    ensures InsertSafe(|b.hooks|, RunHooks(b, s, i, j).state.trace)
    decreases |b.hooks| - i, 1, |b.hooks[i]| - j
  {
    if j == |b.hooks[i]| {
      CoreSafe(b, s, i);
    } else {
      var n, entered := |b.hooks|, s.Log(HookIn(i, j));
      match b.hooks[i][j].before(s.mutations[i])
      case Halt(_) =>
        LogSafe(n, s.trace, HookIn(i, j));
        LogSafe(n, entered.trace, HookOut(i, j));
      case Proceed(m) =>
        FilledLog(b, s, i, HookIn(i, j), s.mutations[i := m]);
        var next := entered.(mutations := s.mutations[i := m]);
        HooksSafe(b, next, i, j + 1);
        LogSafe(n, RunHooks(b, next, i, j + 1).state.trace, HookOut(i, j));
    }
  }

  lemma {:induction false} CoreSafe(b: Bulk, s: State, i: nat)
    requires Shaped(b, s) && i < |b.hooks| && FilledUpTo(b, s, i)
    ensures InsertSafe(|b.hooks|, RunCore(b, s, i).state.trace)
    decreases |b.hooks| - i, 0
  {
    var n := |b.hooks|;
    if b.check(s.mutations[i]).Some? {
      LogSafe(n, s.trace, Check(i, false));
    } else {
      FilledNext(b, s, i);
      if i + 1 < n {
        MutatorSafe(b, Fill(s, i), i + 1);
        LogSafe(n, RunMutator(b, Fill(s, i), i + 1).state.trace, Mark(i));
      } else {
        InsertLogged(n, Fill(s, i).trace, Fill(s, i).specs, b.insert(Fill(s, i).specs).Ok?);
        LogSafe(n, RunInsert(b, Fill(s, i)).state.trace, Mark(i));
      }
    }
  }

  lemma {:induction false} MutatorSafe(b: Bulk, s: State, i: nat)
    requires Shaped(b, s) && i < |b.hooks| && FilledUpTo(b, s, i)
    ensures InsertSafe(|b.hooks|, RunMutator(b, s, i).state.trace)
    decreases |b.hooks| - i, 2
  {
    FilledLog(b, s, i, Enter(i), s.mutations);
    HooksSafe(b, s.Log(Enter(i)), i, 0);
    var r := RunHooks(b, s.Log(Enter(i)), i, 0);
    LogSafe(|b.hooks|, r.state.trace, Return(i, r.outcome.Saved?));
  }

  /** Whatever the hooks do, a bulk save inserts at most once, with every spec filled and every check passed. */
  lemma {:induction false} InsertOnceWhenReady(b: Bulk, mutations: seq<Mutation>)
    requires |mutations| == |b.hooks|
    ensures InsertSafe(|b.hooks|, RunSave(b, Start(b, mutations)).state.trace)
    ensures mutations == [] ==> RunSave(b, Start(b, mutations)) == Run(Start(b, mutations), Saved)
  {
    if |b.hooks| > 0 {
      MutatorSafe(b, Start(b, mutations), 0);
    }
  }

  // ---------------------------------------------------------------- nesting

  /** The way in: builders in index order, each hook list from its first hook to its last, a check after the hooks, and
      the insert after the last check; it may end early, at a hook that halts or a check that fails. */
  ghost predicate EntersMutator(b: Bulk, i: nat, d: seq<Event>)
    requires i < |b.hooks|
    decreases |b.hooks| - i, 2
  {
    d != [] && d[0] == Enter(i) && EntersHooks(b, i, 0, d[1..])
  }

  ghost predicate EntersHooks(b: Bulk, i: nat, j: nat, d: seq<Event>)
    requires i < |b.hooks| && j <= |b.hooks[i]|
    decreases |b.hooks| - i, 1, |b.hooks[i]| - j
  {
    if j == |b.hooks[i]| then EntersCore(b, i, d)
    else d != [] && d[0] == HookIn(i, j) && (d[1..] == [] || EntersHooks(b, i, j + 1, d[1..]))
  }

  ghost predicate EntersCore(b: Bulk, i: nat, d: seq<Event>)
    requires i < |b.hooks|
    decreases |b.hooks| - i, 0
  {
    || d == [Check(i, false)]
    || (&& d != [] && d[0] == Check(i, true)
        && (if i + 1 < |b.hooks| then EntersMutator(b, i + 1, d[1..]) else |d| == 2 && d[1].Insert?))
  }

  /** u leaves what d entered, in exact reverse order: every hook and mutator once, and a mark only for a check that
      passed. */
  ghost predicate Mirrors(d: seq<Event>, u: seq<Event>) {
    if d == [] then u == []
    else
      var rest := d[1..];
      match d[0]
      case Enter(i) => u != [] && Last(u).Return? && Last(u).i == i && Mirrors(rest, Front(u))
      case HookIn(i, j) => u != [] && Last(u) == HookOut(i, j) && Mirrors(rest, Front(u))
      case Check(i, true) => Mirrors(rest, u) || (u != [] && Last(u) == Mark(i) && Mirrors(rest, Front(u)))
      case Check(_, false) => Mirrors(rest, u)
      case Insert(_, _) => Mirrors(rest, u)
      case _ => false
  }

  function Last(u: seq<Event>): Event
    requires u != []
  {
    u[|u| - 1]
  }

  function Front(u: seq<Event>): seq<Event>
    requires u != []
  {
    u[..|u| - 1]
  }

  lemma {:induction false} Wrap(e: Event, d: seq<Event>, u: seq<Event>, f: Event)
    requires Mirrors(d, u)
    requires (e.Enter? && f.Return? && f.i == e.i) || (e.HookIn? && f == HookOut(e.i, e.j))
             || (e.Check? && e.ok && f == Mark(e.i))
    ensures Mirrors([e] + d, u + [f])
  {
    assert ([e] + d)[1..] == d && Front(u + [f]) == u;
  }

  lemma {:induction false} Skip(e: Event, d: seq<Event>, u: seq<Event>)
    requires Mirrors(d, u) && (e.Check? || e.Insert?)
    ensures Mirrors([e] + d, u)
  {
    assert ([e] + d)[1..] == d;
  }

  /** The trace of a mutator: what came before, then the way in, then the way out. */
  ghost predicate Splits(before: seq<Event>, after: seq<Event>, d: seq<Event>, u: seq<Event>) {
    after == before + d + u && Mirrors(d, u)
  }

  lemma {:induction false} HooksNested(b: Bulk, s: State, i: nat, j: nat) returns (d: seq<Event>, u: seq<Event>)
    requires Shaped(b, s) && i < |b.hooks| && j <= |b.hooks[i]|
    ensures EntersHooks(b, i, j, d) && Splits(s.trace, RunHooks(b, s, i, j).state.trace, d, u)
    decreases |b.hooks| - i, 1, |b.hooks[i]| - j
  {
    if j == |b.hooks[i]| {
      d, u := CoreNested(b, s, i);
    } else {
      match b.hooks[i][j].before(s.mutations[i])
      case Halt(_) =>
        d, u := [HookIn(i, j)], [HookOut(i, j)];
        Wrap(HookIn(i, j), [], [], HookOut(i, j));
        assert [HookIn(i, j)] + [] == d && [] + [HookOut(i, j)] == u;
      case Proceed(m) =>
        var d', u' := HooksNested(b, s.Log(HookIn(i, j)).(mutations := s.mutations[i := m]), i, j + 1);
        d, u := [HookIn(i, j)] + d', u' + [HookOut(i, j)];
        Wrap(HookIn(i, j), d', u', HookOut(i, j));
        assert d[1..] == d';
    }
  }

  lemma {:induction false} CoreNested(b: Bulk, s: State, i: nat) returns (d: seq<Event>, u: seq<Event>)
    requires Shaped(b, s) && i < |b.hooks|
    ensures EntersCore(b, i, d) && Splits(s.trace, RunCore(b, s, i).state.trace, d, u)
    decreases |b.hooks| - i, 0
  {
    if b.check(s.mutations[i]).Some? {
      d, u := [Check(i, false)], [];
      Skip(Check(i, false), [], []);
      assert [Check(i, false)] + [] == d;
    } else {
      var d', u', r;
      if i + 1 < |b.hooks| {
        d', u' := MutatorNested(b, Fill(s, i), i + 1);
        r := RunMutator(b, Fill(s, i), i + 1);
      } else {
        d', u' := [Insert(Fill(s, i).specs, b.insert(Fill(s, i).specs).Ok?)], [];
        r := RunInsert(b, Fill(s, i));
        Skip(d'[0], [], []);
        assert [d'[0]] + [] == d';
      }
      d := [Check(i, true)] + d';
      assert d[1..] == d';
      if r.outcome.Failed? {
        u := u';
        Skip(Check(i, true), d', u');
      } else {
        u := u' + [Mark(i)];
        Wrap(Check(i, true), d', u', Mark(i));
      }
    }
  }

  lemma {:induction false} MutatorNested(b: Bulk, s: State, i: nat) returns (d: seq<Event>, u: seq<Event>)
    requires Shaped(b, s) && i < |b.hooks|
    ensures EntersMutator(b, i, d) && Splits(s.trace, RunMutator(b, s, i).state.trace, d, u)
    decreases |b.hooks| - i, 2
  {
    var d', u' := HooksNested(b, s.Log(Enter(i)), i, 0);
    var f := Return(i, RunHooks(b, s.Log(Enter(i)), i, 0).outcome.Saved?);
    d, u := [Enter(i)] + d', u' + [f];
    Wrap(Enter(i), d', u', f);
    assert d[1..] == d';
  }

  /** Whatever the hooks do, the trace of a save is properly nested: a way in, in index order with hooks[0] outermost,
      then the exact reverse of what was entered. */
  lemma {:induction false} TraceNested(b: Bulk, mutations: seq<Mutation>)
    requires |mutations| == |b.hooks| && mutations != []
    ensures exists d, u ::
      EntersMutator(b, 0, d) && Splits([], RunSave(b, Start(b, mutations)).state.trace, d, u)
  {
    var d, u := MutatorNested(b, Start(b, mutations), 0);
    assert Splits([], RunSave(b, Start(b, mutations)).state.trace, d, u);
  }

  // ---------------------------------------------------------------- all or nothing

  /** From builder i on: everything done if the run reports success, nothing if it reports a failure. */
  ghost predicate AllOrNothingFrom(r: Run, i: nat) {
    forall k :: i <= k < |r.state.done| ==> (r.state.done[k] <==> r.outcome.Saved?)
  }

  ghost predicate AllOrNothing(r: Run) {
    AllOrNothingFrom(r, 0)
  }

  /** Every mutator that ran reported success exactly if its own mutation is done. */
  ghost predicate Honest(trace: seq<Event>, done: seq<bool>) {
    forall p :: 0 <= p < |trace| && trace[p].Return? ==>
      trace[p].i < |done| && (trace[p].ok <==> done[trace[p].i])
  }

  /** The events speak of no mutator before the i-th. */
  ghost predicate ReturnsFrom(trace: seq<Event>, i: nat) {
    forall p :: 0 <= p < |trace| && trace[p].Return? ==> i <= trace[p].i
  }

  lemma {:induction false} ReturnsAppend(a: seq<Event>, b: seq<Event>, i: nat)
    ensures ReturnsFrom(a + b, i) <==> ReturnsFrom(a, i) && ReturnsFrom(b, i)
  {
    assert forall p :: 0 <= p < |a| ==> (a + b)[p] == a[p];
    assert forall p :: 0 <= p < |b| ==> (a + b)[|a| + p] == b[p];
    if ReturnsFrom(a + b, i) {
      assert forall p :: 0 <= p < |b| && b[p].Return? ==> (a + b)[|a| + p].Return?;
    }
  }

  lemma {:induction false} HonestAppend(a: seq<Event>, b: seq<Event>, done: seq<bool>)
    ensures Honest(a + b, done) <==> Honest(a, done) && Honest(b, done)
  {
    assert forall p :: 0 <= p < |a| ==> (a + b)[p] == a[p];
    assert forall p :: 0 <= p < |b| ==> (a + b)[|a| + p] == b[p];
    if Honest(a + b, done) {
      assert forall p :: 0 <= p < |b| && b[p].Return? ==> (a + b)[|a| + p].Return?;
    }
    if Honest(a, done) && Honest(b, done) {
      forall p | 0 <= p < |a + b| && (a + b)[p].Return?
        ensures (a + b)[p].i < |done| && ((a + b)[p].ok <==> done[(a + b)[p].i])
      {
        if p >= |a| { assert (a + b)[p] == b[p - |a|]; }
      }
    }
  }

  /** Flags of builders that the events do not speak about do not matter. */
  lemma {:induction false} HonestSame(trace: seq<Event>, done: seq<bool>, done': seq<bool>, i: nat)
    requires |done| == |done'| && (forall k :: i < k < |done| ==> done[k] == done'[k])
    requires ReturnsFrom(trace, i + 1)
    ensures Honest(trace, done) <==> Honest(trace, done')
  {
  }

  /** What a run adds to the trace. */
  function News(s: State, r: Run): seq<Event>
    requires |s.trace| <= |r.state.trace|
  {
    r.state.trace[|s.trace|..]
  }

  /** The step of builder i, inside its hooks: its flag says what the rest of the chain reported, and the builders after
      it are all or nothing, in agreement with that flag, exactly if what ran after it was honest. */
  ghost predicate CoreExact(s: State, r: Run, i: nat) {
    && i < |r.state.done| == |s.done| && s.trace <= r.state.trace
    && (forall k :: 0 <= k < i ==> r.state.done[k] == s.done[k])
    && ReturnsFrom(News(s, r), i + 1)
    && (Honest(News(s, r), r.state.done) <==> forall k :: i < k < |s.done| ==> (r.state.done[k] <==> r.state.done[i]))
  }

  /** The same for the whole mutator of builder i. */
  ghost predicate MutatorExact(s: State, r: Run, i: nat) {
    && i < |r.state.done| == |s.done| && s.trace <= r.state.trace
    && (forall k :: 0 <= k < i ==> r.state.done[k] == s.done[k])
    && ReturnsFrom(News(s, r), i)
    && (Honest(News(s, r), r.state.done) <==> AllOrNothingFrom(r, i))
  }

  ghost predicate NotYet(s: State, i: nat) {
    forall k :: i <= k < |s.done| ==> !s.done[k]
  }

  /** An event of a hook, a check, a mark or an insert says nothing about honesty. */
  lemma {:induction false} Quiet(before: seq<Event>, news: seq<Event>, after: seq<Event>, done: seq<bool>, i: nat)
    requires forall e :: e in before || e in after ==> !e.Return?
    ensures Honest(before + news + after, done) <==> Honest(news, done)
    ensures ReturnsFrom(before + news + after, i) <==> ReturnsFrom(news, i)
  {
    assert Honest(before, done) && Honest(after, done) && ReturnsFrom(before, i) && ReturnsFrom(after, i) by {
      assert forall p :: 0 <= p < |before| ==> before[p] in before;
      assert forall p :: 0 <= p < |after| ==> after[p] in after;
    }
    HonestAppend(before + news, after, done);
    HonestAppend(before, news, done);
    ReturnsAppend(before + news, after, i);
    ReturnsAppend(before, news, i);
  }

  lemma {:induction false} MutatorIsExact(b: Bulk, s: State, i: nat)
    requires Shaped(b, s) && i < |b.hooks| && NotYet(s, i)
    ensures MutatorExact(s, RunMutator(b, s, i), i)
    decreases |b.hooks| - i, 2
  {
    var t, r := s.Log(Enter(i)), RunMutator(b, s, i);
    var inner := RunHooks(b, t, i, 0);
    HooksAreExact(b, t, i, 0);
    var f := Return(i, inner.outcome.Saved?);
    assert News(s, r) == [Enter(i)] + News(t, inner) + [f];
    HonestAppend([Enter(i)] + News(t, inner), [f], r.state.done);
    ReturnsAppend([Enter(i)] + News(t, inner), [f], i);
    Quiet([Enter(i)], News(t, inner), [], r.state.done, i);
    assert [Enter(i)] + News(t, inner) + [] == [Enter(i)] + News(t, inner);
    assert [f][0] == f;
    assert Honest([f], r.state.done) <==> (inner.outcome.Saved? <==> r.state.done[i]);
  }

  lemma {:induction false} HooksAreExact(b: Bulk, s: State, i: nat, j: nat)
    requires Shaped(b, s) && i < |b.hooks| && j <= |b.hooks[i]| && NotYet(s, i)
    ensures CoreExact(s, RunHooks(b, s, i, j), i)
    decreases |b.hooks| - i, 1, |b.hooks[i]| - j
  {
    if j == |b.hooks[i]| {
      CoreIsExact(b, s, i);
    } else {
      var r := RunHooks(b, s, i, j);
      match b.hooks[i][j].before(s.mutations[i])
      case Halt(_) =>
        assert News(s, r) == [HookIn(i, j), HookOut(i, j)];
      case Proceed(m) =>
        var t := s.Log(HookIn(i, j)).(mutations := s.mutations[i := m]);
        var inner := RunHooks(b, t, i, j + 1);
        HooksAreExact(b, t, i, j + 1);
        assert News(s, r) == [HookIn(i, j)] + News(t, inner) + [HookOut(i, j)];
        Quiet([HookIn(i, j)], News(t, inner), [HookOut(i, j)], r.state.done, i + 1);
    }
  }

  /** A step after which no other mutator ran. */
  lemma {:induction false} AloneExact(s: State, r: Run, i: nat)
    requires i < |r.state.done| == |s.done| && s.trace <= r.state.trace && forall e :: e in News(s, r) ==> !e.Return?
    requires forall k :: 0 <= k < i ==> r.state.done[k] == s.done[k]
    requires forall k :: i < k < |s.done| ==> (r.state.done[k] <==> r.state.done[i])
    ensures CoreExact(s, r, i)
  {
    assert forall p :: 0 <= p < |News(s, r)| ==> News(s, r)[p] in News(s, r);
  }

  lemma {:induction false} CoreIsExact(b: Bulk, s: State, i: nat)
    requires Shaped(b, s) && i < |b.hooks| && NotYet(s, i)
    ensures CoreExact(s, RunCore(b, s, i), i)
    decreases |b.hooks| - i, 0
  {
    var r := RunCore(b, s, i);
    if b.check(s.mutations[i]).Some? {
      assert News(s, r) == [Check(i, false)];
      AloneExact(s, r, i);
    } else if i + 1 == |b.hooks| {
      var e := Insert(Fill(s, i).specs, b.insert(Fill(s, i).specs).Ok?);
      assert RunFilled(b, Fill(s, i), i) == RunInsert(b, Fill(s, i));
      assert News(s, r) == [Check(i, true), e] + if r.outcome.Saved? then [Mark(i)] else [];
      AloneExact(s, r, i);
    } else {
      assert RunFilled(b, Fill(s, i), i) == RunMutator(b, Fill(s, i), i + 1);
      MutatorIsExact(b, Fill(s, i), i + 1);
      PassedCore(s, RunMutator(b, Fill(s, i), i + 1), r, i);
    }
  }

  /** A passed check, then a run of the rest of the chain, then a mark if the rest succeeded. */
  lemma {:induction false} PassedCore(s: State, inner: Run, r: Run, i: nat)
    requires i + 1 < |s.mutations| == |s.specs| == |s.nodes| == |s.done| && NotYet(s, i)
    requires MutatorExact(Fill(s, i), inner, i + 1) && |inner.state.specs| == |inner.state.nodes| == |s.done|
    requires r == if inner.outcome.Failed? then inner else Run(Finish(inner.state, i), Saved)
    ensures CoreExact(s, r, i)
  {
    var t := Fill(s, i);
    var tail := if inner.outcome.Saved? then [Mark(i)] else [];
    assert News(s, r) == [Check(i, true)] + News(t, inner) + tail;
    Quiet([Check(i, true)], News(t, inner), tail, r.state.done, i + 1);
    HonestSame(News(t, inner), r.state.done, inner.state.done, i);
  }

  /** A bulk save is all or nothing exactly if no mutator misreports: none turns a failure behind it into a success, a
      success into a failure, or succeeds without doing its work. */
  lemma {:induction false} AllOrNothingExact(b: Bulk, mutations: seq<Mutation>)
    requires |mutations| == |b.hooks|
    ensures var r := RunSave(b, Start(b, mutations)); AllOrNothing(r) <==> Honest(r.state.trace, r.state.done)
  {
    if mutations != [] {
      MutatorIsExact(b, Start(b, mutations), 0);
      assert News(Start(b, mutations), RunSave(b, Start(b, mutations))) == RunSave(b, Start(b, mutations)).state.trace;
    }
  }

  /** Every hook of every builder passes outcomes through. */
  ghost predicate AllPassThrough(b: Bulk) {
    forall i, j :: 0 <= i < |b.hooks| && 0 <= j < |b.hooks[i]| ==> PassThrough(b.hooks[i][j])
  }

  lemma {:induction false} MutatorFaithful(b: Bulk, s: State, i: nat)
    requires Shaped(b, s) && i < |b.hooks| && NotYet(s, i) && AllPassThrough(b)
    ensures AllOrNothingFrom(RunMutator(b, s, i), i)
    decreases |b.hooks| - i, 2
  {
    HooksFaithful(b, s.Log(Enter(i)), i, 0);
  }

  lemma {:induction false} HooksFaithful(b: Bulk, s: State, i: nat, j: nat)
    requires Shaped(b, s) && i < |b.hooks| && j <= |b.hooks[i]| && NotYet(s, i) && AllPassThrough(b)
    ensures AllOrNothingFrom(RunHooks(b, s, i, j), i)
    decreases |b.hooks| - i, 1, |b.hooks[i]| - j
  {
    if j == |b.hooks[i]| {
      CoreFaithful(b, s, i);
    } else {
      assert PassThrough(b.hooks[i][j]);
      match b.hooks[i][j].before(s.mutations[i])
      case Halt(_) =>
      case Proceed(m) =>
        HooksFaithful(b, s.Log(HookIn(i, j)).(mutations := s.mutations[i := m]), i, j + 1);
    }
  }

  lemma {:induction false} CoreFaithful(b: Bulk, s: State, i: nat)
    requires Shaped(b, s) && i < |b.hooks| && NotYet(s, i) && AllPassThrough(b)
    ensures AllOrNothingFrom(RunCore(b, s, i), i)
    decreases |b.hooks| - i, 0
  {
    if b.check(s.mutations[i]).None? && i + 1 < |b.hooks| {
      MutatorFaithful(b, Fill(s, i), i + 1);
      MutatorIds(b, Fill(s, i), i + 1);
    }
  }

  // ---------------------------------------------------------------- ids

  /** Builder k's node carries the id its spec was given. */
  ghost predicate Identifies(s: State, k: nat) {
    && k < |s.specs| && k < |s.nodes| && s.specs[k].Some? && s.nodes[k].Some?
    && (s.specs[k].value.id.Some? ==> s.nodes[k].value.id == s.specs[k].value.id.value)
  }

  /** From builder i on, what is done is identified; before it, specs and nodes stay in place. */
  ghost predicate IdsFrom(s: State, t: State, i: nat) {
    && |t.specs| == |s.specs| && |t.nodes| == |s.nodes| && |t.done| == |s.done|
    && (forall k :: i <= k < |t.done| && t.done[k] ==> Identifies(t, k))
    && (forall k :: 0 <= k < i && k < |s.specs| && s.specs[k].Some? ==> t.specs[k].Some?)
    && (forall k :: 0 <= k < i && k < |s.nodes| ==> t.nodes[k] == s.nodes[k])
    && (forall k :: 0 <= k < i && k < |s.done| ==> t.done[k] == s.done[k])
  }

  lemma {:induction false} MutatorIds(b: Bulk, s: State, i: nat)
    requires Shaped(b, s) && i < |b.hooks| && NotYet(s, i)
    ensures IdsFrom(s, RunMutator(b, s, i).state, i)
    decreases |b.hooks| - i, 2
  {
    HooksIds(b, s.Log(Enter(i)), i, 0);
  }

  lemma {:induction false} HooksIds(b: Bulk, s: State, i: nat, j: nat)
    requires Shaped(b, s) && i < |b.hooks| && j <= |b.hooks[i]| && NotYet(s, i)
    ensures IdsFrom(s, RunHooks(b, s, i, j).state, i)
    decreases |b.hooks| - i, 1, |b.hooks[i]| - j
  {
    if j == |b.hooks[i]| {
      CoreIds(b, s, i);
    } else {
      match b.hooks[i][j].before(s.mutations[i])
      case Halt(_) =>
      case Proceed(m) =>
        HooksIds(b, s.Log(HookIn(i, j)).(mutations := s.mutations[i := m]), i, j + 1);
    }
  }

  lemma {:induction false} CoreIds(b: Bulk, s: State, i: nat)
    requires Shaped(b, s) && i < |b.hooks| && NotYet(s, i)
    ensures IdsFrom(s, RunCore(b, s, i).state, i)
    decreases |b.hooks| - i, 0
  {
    if b.check(s.mutations[i]).None? {
      var t := Fill(s, i);
      var r := if i + 1 < |b.hooks| then RunMutator(b, t, i + 1) else RunInsert(b, t);
      if i + 1 < |b.hooks| { MutatorIds(b, t, i + 1); }
      assert IdsFrom(t, r.state, i + 1);
      assert r.state.specs[i].Some? && r.state.nodes[i] == t.nodes[i];
    }
  }

  /** A bulk save with pass-through hooks is all or nothing: either every mutation is done and every node carries the id
      its row was given, or an error is returned and no mutation is done. */
  lemma {:induction false} SaveAllOrNothing(b: Bulk, mutations: seq<Mutation>)
    requires |mutations| == |b.hooks| && AllPassThrough(b)
    ensures var r := RunSave(b, Start(b, mutations));
            AllOrNothing(r) && (r.outcome.Saved? ==> forall k :: 0 <= k < |mutations| ==> Identifies(r.state, k))
  {
    if mutations != [] {
      MutatorFaithful(b, Start(b, mutations), 0);
      MutatorIds(b, Start(b, mutations), 0);
    }
  }

  /** A hook that calls next and reports success whatever happened there. */
  function Swallow(): Hook {
    Hook(m => Proceed(m), _ => Saved)
  }

  /** Two builders, the second with the swallowing hook, and a database that refuses the batch. */
  function SwallowingBulk(): Bulk {
    Bulk(_ => None, [[], [Swallow()]], _ => Err(InsertError(true)))
  }

  /** Such a hook breaks the promise: nothing is inserted, the first mutation is nevertheless done, and the save reports
      success. */
  lemma {:induction false} SwallowedFailure(m: Mutation)
    ensures var r := RunSave(SwallowingBulk(), Start(SwallowingBulk(), [m, m]));
            r.outcome.Saved? && r.state.done == [true, false] && !AllOrNothing(r)
  {
    var b := SwallowingBulk();
    var s := Start(b, [m, m]);
    var s1 := Fill(s.Log(Enter(0)), 0);
    var s2 := s1.Log(Enter(1)).Log(HookIn(1, 0)).(mutations := s1.mutations[1 := m]);
    var last := RunHooks(b, s2, 1, 1);
    assert last == RunCore(b, s2, 1) == RunInsert(b, Fill(s2, 1));
    assert last.outcome.Failed? && last.state.done == [false, false];
    var second := RunMutator(b, s1, 1);
    assert second.outcome == Saved && second.state.done == [false, false];
    var first := RunHooks(b, s.Log(Enter(0)), 0, 0);
    assert first == RunCore(b, s.Log(Enter(0)), 0) == Run(Finish(second.state, 0), Saved);
    assert !first.state.done[1];
  }
}

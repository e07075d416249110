/** Exactly which hooks keep a bulk save all-or-nothing, said of the hook lists and the builders' check alone. */
module BulkHooks {
  import opened Collections
  import opened AccountBuilder
  import opened BulkCreate

  type Checker = Mutation -> Option<CreateError>

  // ---------------------------------------------------------------- a list of hooks as one wrapper

  /** The mutation that the hooks from the j-th on hand to the builder's own step; None if one of them halts. */
  function Arrival(hs: seq<Hook>, j: nat, m: Mutation): Option<Mutation>
    requires j <= |hs|
    decreases |hs| - j
  {
    if j == |hs| then Some(m)
    else
      match hs[j].before(m)
      case Halt(_) => None
      case Proceed(next) => Arrival(hs, j + 1, next)
  }

  /** What these hooks make of the outcome p of the builder's own step; if one of them halts, p does not matter. */
  function Report(hs: seq<Hook>, j: nat, m: Mutation, p: Outcome): Outcome
    requires j <= |hs|
    decreases |hs| - j
  {
    if j == |hs| then p
    else
      match hs[j].before(m)
      case Halt(o) => o
      case Proceed(next) => hs[j].after(Report(hs, j + 1, next, p))
  }

  // ---------------------------------------------------------------- outcomes a builder can be given

  /** The outcomes of builder i's own step on a mutation: its check's failure, or what the builders after it can report;
      the last builder can be given any outcome, since the database may answer anything. */
  ghost predicate StepCan(check: Checker, hooks: seq<seq<Hook>>, i: nat, m: Mutation, p: Outcome)
    requires i < |hooks|
    decreases |hooks| - i, 0
  {
    if check(m).Some? then p == Failed(check(m).value)
    else i + 1 < |hooks| ==> MutatorCan(check, hooks, i + 1, p)
  }

  ghost predicate MutatorCan(check: Checker, hooks: seq<seq<Hook>>, i: nat, o: Outcome)
    requires i < |hooks|
    decreases |hooks| - i, 2
  {
    exists m, p :: Given(check, hooks, i, m, p) && o == Report(hooks[i], 0, m, p)
  }

  /** Builder i's mutator, called with m, can be given p by the builder's own step; if its hooks halt, by nobody. */
  ghost predicate Given(check: Checker, hooks: seq<seq<Hook>>, i: nat, m: Mutation, p: Outcome)
    requires i < |hooks|
    decreases |hooks| - i, 1
  {
    var a := Arrival(hooks[i], 0, m);
    a.Some? ==> StepCan(check, hooks, i, a.value, p)
  }

  /** The mutation gets through the hooks and passes the check. */
  predicate GetsThrough(check: Checker, hs: seq<Hook>, m: Mutation) {
    var a := Arrival(hs, 0, m);
    a.Some? && check(a.value).None?
  }

  ghost predicate Passable(check: Checker, hs: seq<Hook>) {
    exists m :: GetsThrough(check, hs, m)
  }

  /** Some mutations get through all builders before the i-th. */
  ghost predicate Reachable(check: Checker, hooks: seq<seq<Hook>>, i: nat)
    requires i <= |hooks|
  {
    forall k :: 0 <= k < i ==> Passable(check, hooks[k])
  }

  /** Success is reported exactly when the builder's own step ran and succeeded. */
  predicate Truthful(hs: seq<Hook>, m: Mutation, p: Outcome) {
    Report(hs, 0, m, p).Saved? <==> Arrival(hs, 0, m).Some? && p.Saved?
  }

  /** Whatever the builder's hooks are called with and can be given, they report truthfully. */
  ghost predicate Sincere(check: Checker, hooks: seq<seq<Hook>>, i: nat)
    requires i < |hooks|
  {
    forall m, p :: Given(check, hooks, i, m, p) ==> Truthful(hooks[i], m, p)
  }

  ghost predicate AllSincere(check: Checker, hooks: seq<seq<Hook>>) {
    forall i :: 0 <= i < |hooks| && Reachable(check, hooks, i) ==> Sincere(check, hooks, i)
  }

  /** The save of these mutations against this database is all or nothing. */
  ghost predicate Holds(check: Checker, hooks: seq<seq<Hook>>, insert: Inserter, mutations: seq<Mutation>) {
    |mutations| == |hooks| ==>
      AllOrNothing(RunSave(Bulk(check, hooks, insert), Start(Bulk(check, hooks, insert), mutations)))
  }

  // ---------------------------------------------------------------- a run seen through its hooks

  /** The hooks of builder i make of the run of its own step, in state t, what Report says; t differs from s only in the
      mutation that arrives and in the trace. */
  lemma {:induction false} HooksFactor(b: Bulk, s: State, i: nat, j: nat) returns (t: State)
    requires Shaped(b, s) && i < |b.hooks| && j <= |b.hooks[i]|
    ensures Shaped(b, t) && t.done == s.done
    ensures forall k :: 0 <= k < |s.mutations| && k != i ==> t.mutations[k] == s.mutations[k]
    ensures var r, hs, m := RunHooks(b, s, i, j), b.hooks[i], s.mutations[i];
            var a := Arrival(hs, j, m);
            if a.None? then r.state.done == s.done && forall p :: r.outcome == Report(hs, j, m, p)
            else t.mutations[i] == a.value && r.state.done == RunCore(b, t, i).state.done
                 && r.outcome == Report(hs, j, m, RunCore(b, t, i).outcome)
    decreases |b.hooks[i]| - j
  {
    t := s;
    if j < |b.hooks[i]| {
      match b.hooks[i][j].before(s.mutations[i])
      case Halt(_) =>
      case Proceed(m) =>
        t := HooksFactor(b, s.Log(HookIn(i, j)).(mutations := s.mutations[i := m]), i, j + 1);
    }
  }

  lemma {:induction false} MutatorFactor(b: Bulk, s: State, i: nat) returns (t: State)
    requires Shaped(b, s) && i < |b.hooks|
    ensures Shaped(b, t) && t.done == s.done
    ensures forall k :: 0 <= k < |s.mutations| && k != i ==> t.mutations[k] == s.mutations[k]
    ensures var r, hs, m := RunMutator(b, s, i), b.hooks[i], s.mutations[i];
            var a := Arrival(hs, 0, m);
            if a.None? then r.state.done == s.done && forall p :: r.outcome == Report(hs, 0, m, p)
            else t.mutations[i] == a.value && r.state.done == RunCore(b, t, i).state.done
                 && r.outcome == Report(hs, 0, m, RunCore(b, t, i).outcome)
  {
    t := HooksFactor(b, s.Log(Enter(i)), i, 0);
  }

  // ---------------------------------------------------------------- sincere hooks keep the promise

  lemma {:induction false} MutatorSound(b: Bulk, s: State, i: nat)
    requires Shaped(b, s) && i < |b.hooks|
    ensures MutatorCan(b.check, b.hooks, i, RunMutator(b, s, i).outcome)
    decreases |b.hooks| - i, 2
  {
    var t := MutatorFactor(b, s, i);
    var m := s.mutations[i];
    var p := RunCore(b, t, i).outcome;
    if Arrival(b.hooks[i], 0, m).Some? {
      StepSound(b, t, i);
    }
    assert Given(b.check, b.hooks, i, m, p);
    assert RunMutator(b, s, i).outcome == Report(b.hooks[i], 0, m, p);
  }

  lemma {:induction false} StepSound(b: Bulk, t: State, i: nat)
    requires Shaped(b, t) && i < |b.hooks|
    ensures StepCan(b.check, b.hooks, i, t.mutations[i], RunCore(b, t, i).outcome)
    decreases |b.hooks| - i, 1
  {
    if b.check(t.mutations[i]).None? && i + 1 < |b.hooks| {
      MutatorSound(b, Fill(t, i), i + 1);
    }
  }

  lemma {:induction false} SincereMutator(b: Bulk, s: State, i: nat)
    requires Shaped(b, s) && i < |b.hooks| && NotYet(s, i)
    requires AllSincere(b.check, b.hooks) && Reachable(b.check, b.hooks, i)
    ensures AllOrNothingFrom(RunMutator(b, s, i), i)
    decreases |b.hooks| - i, 2
  {
    var t := MutatorFactor(b, s, i);
    var m := s.mutations[i];
    var p := RunCore(b, t, i).outcome;
    if Arrival(b.hooks[i], 0, m).Some? {
      StepSound(b, t, i);
      SincereStep(b, t, i, m);
    }
    assert Given(b.check, b.hooks, i, m, p);
    assert Truthful(b.hooks[i], m, p);
  }

  lemma {:induction false} ReachesNext(check: Checker, hooks: seq<seq<Hook>>, i: nat, m: Mutation)
    requires i < |hooks| && Reachable(check, hooks, i) && GetsThrough(check, hooks[i], m)
    ensures Reachable(check, hooks, i + 1)
  {
    assert Passable(check, hooks[i]);
  }

  lemma {:induction false} SincereStep(b: Bulk, t: State, i: nat, m: Mutation)
    requires Shaped(b, t) && i < |b.hooks| && NotYet(t, i) && Arrival(b.hooks[i], 0, m) == Some(t.mutations[i])
    requires AllSincere(b.check, b.hooks) && Reachable(b.check, b.hooks, i)
    ensures AllOrNothingFrom(RunCore(b, t, i), i)
    decreases |b.hooks| - i, 1
  {
    if b.check(t.mutations[i]).None? && i + 1 < |b.hooks| {
      assert GetsThrough(b.check, b.hooks[i], m);
      ReachesNext(b.check, b.hooks, i, m);
      SincereMutator(b, Fill(t, i), i + 1);
      MutatorIds(b, Fill(t, i), i + 1);
    }
  }

  // ---------------------------------------------------------------- insincere hooks break it

  /** A database that answers every batch alike. */
  function Answering(answer: Outcome): Inserter {
    _ => if answer.Saved? then Ok([]) else Err(answer.err)
  }

  /** What builder i's mutator reports when such a database answers. */
  function Told(check: Checker, hooks: seq<seq<Hook>>, ms: seq<Mutation>, answer: Outcome, i: nat): Outcome
    requires i < |hooks| == |ms|
    decreases |hooks| - i, 1
  {
    var a := Arrival(hooks[i], 0, ms[i]);
    Report(hooks[i], 0, ms[i], if a.Some? then Stepped(check, hooks, ms, answer, i, a.value) else Saved)
  }

  function Stepped(check: Checker, hooks: seq<seq<Hook>>, ms: seq<Mutation>, answer: Outcome, i: nat,
                   m: Mutation): Outcome
    requires i < |hooks| == |ms|
    decreases |hooks| - i, 0
  {
    if check(m).Some? then Failed(check(m).value)
    else if i + 1 < |hooks| then Told(check, hooks, ms, answer, i + 1)
    else answer
  }

  /** Builder i is done. */
  predicate Done(check: Checker, hooks: seq<seq<Hook>>, ms: seq<Mutation>, answer: Outcome, i: nat)
    requires i < |hooks| == |ms|
  {
    var a := Arrival(hooks[i], 0, ms[i]);
    a.Some? && Stepped(check, hooks, ms, answer, i, a.value).Saved?
  }

  ghost predicate Agree(ms: seq<Mutation>, ms': seq<Mutation>, i: nat) {
    |ms| == |ms'| && forall k :: i <= k < |ms| ==> ms[k] == ms'[k]
  }

  lemma {:induction false} ToldSame(check: Checker, hooks: seq<seq<Hook>>, ms: seq<Mutation>, ms': seq<Mutation>,
                                    answer: Outcome, i: nat)
    requires i < |hooks| == |ms| && Agree(ms, ms', i)
    ensures Told(check, hooks, ms, answer, i) == Told(check, hooks, ms', answer, i)
    ensures Done(check, hooks, ms, answer, i) == Done(check, hooks, ms', answer, i)
    decreases |hooks| - i
  {
    if i + 1 < |hooks| {
      ToldSame(check, hooks, ms, ms', answer, i + 1);
    }
  }

  /** What builder i can be given, it is given in some run. */
  lemma {:induction false} Realize(check: Checker, hooks: seq<seq<Hook>>, i: nat, m: Mutation, p: Outcome)
      returns (ms: seq<Mutation>, answer: Outcome)
    requires i < |hooks| && Given(check, hooks, i, m, p)
    ensures |ms| == |hooks| && ms[i] == m
    ensures var a := Arrival(hooks[i], 0, m); a.Some? ==> Stepped(check, hooks, ms, answer, i, a.value) == p
    decreases |hooks| - i
  {
    ms, answer := seq(|hooks|, _ => m), p;
    var a := Arrival(hooks[i], 0, m);
    if a.Some? && check(a.value).None? && i + 1 < |hooks| {
      assert MutatorCan(check, hooks, i + 1, p);
      var m', p' :| Given(check, hooks, i + 1, m', p') && p == Report(hooks[i + 1], 0, m', p');
      var rest;
      rest, answer := Realize(check, hooks, i + 1, m', p');
      HaltsAlike(hooks[i + 1], 0, m', p', Saved);
      ms := rest[i := m];
      ToldSame(check, hooks, rest, ms, answer, i + 1);
    }
  }

  lemma {:induction false} HaltsAlike(hs: seq<Hook>, j: nat, m: Mutation, p: Outcome, p': Outcome)
    requires j <= |hs|
    ensures Arrival(hs, j, m).None? ==> Report(hs, j, m, p) == Report(hs, j, m, p')
    decreases |hs| - j
  {
    if j < |hs| {
      match hs[j].before(m)
      case Halt(_) =>
      case Proceed(next) => HaltsAlike(hs, j + 1, next, p, p');
    }
  }

  /** A run against such a database reports what is told, and builder k, once reached, is done as told. */
  lemma {:induction false} RunTold(b: Bulk, s: State, ms: seq<Mutation>, answer: Outcome, i: nat, k: nat)
    requires Shaped(b, s) && i <= k < |b.hooks| && NotYet(s, i) && b.insert == Answering(answer)
    requires Agree(s.mutations, ms, i)
    requires forall l :: i <= l < k ==> GetsThrough(b.check, b.hooks[l], ms[l])
    ensures RunMutator(b, s, i).outcome == Told(b.check, b.hooks, ms, answer, i)
    ensures RunMutator(b, s, i).state.done[k] <==> Done(b.check, b.hooks, ms, answer, k)
    decreases |b.hooks| - i, 2
  {
    var t := MutatorFactor(b, s, i);
    var a := Arrival(b.hooks[i], 0, s.mutations[i]);
    if a.Some? {
      StepTold(b, t, ms, answer, i, k);
    } else {
      assert RunMutator(b, s, i).outcome == Report(b.hooks[i], 0, s.mutations[i], Saved);
    }
  }

  lemma {:induction false} StepTold(b: Bulk, t: State, ms: seq<Mutation>, answer: Outcome, i: nat, k: nat)
    requires Shaped(b, t) && i <= k < |b.hooks| && NotYet(t, i) && b.insert == Answering(answer)
    requires |ms| == |b.hooks| && Agree(t.mutations, ms, i + 1) && Arrival(b.hooks[i], 0, ms[i]) == Some(t.mutations[i])
    requires forall l :: i <= l < k ==> GetsThrough(b.check, b.hooks[l], ms[l])
    ensures RunCore(b, t, i).outcome == Stepped(b.check, b.hooks, ms, answer, i, t.mutations[i])
    ensures RunCore(b, t, i).state.done[k] <==> Done(b.check, b.hooks, ms, answer, k)
    decreases |b.hooks| - i, 1
  {
    if b.check(t.mutations[i]).None? && i + 1 < |b.hooks| {
      var next := Fill(t, i);
      RunTold(b, next, ms, answer, i + 1, if i < k then k else i + 1);
      MutatorIds(b, next, i + 1);
      assert RunFilled(b, next, i) == RunMutator(b, next, i + 1);
    }
  }

  ghost function Through(check: Checker, hs: seq<Hook>): Mutation
    requires Passable(check, hs)
  {
    var m :| GetsThrough(check, hs, m);
    m
  }

  /** A builder that can be reached and can be given an outcome it misreports: some run is neither all nor nothing. */
  lemma {:induction false} Misreports(check: Checker, hooks: seq<seq<Hook>>, i: nat, m: Mutation, p: Outcome)
      returns (insert: Inserter, mutations: seq<Mutation>)
    requires i < |hooks| && Reachable(check, hooks, i) && Given(check, hooks, i, m, p) && !Truthful(hooks[i], m, p)
    ensures |mutations| == |hooks| && !Holds(check, hooks, insert, mutations)
  {
    var ms, answer := Realize(check, hooks, i, m, p);
    HaltsAlike(hooks[i], 0, m, p, Saved);
    insert := Answering(answer);
    mutations := seq(|hooks|, k requires 0 <= k < |hooks| => if k < i then Through(check, hooks[k]) else ms[k]);
    ToldSame(check, hooks, ms, mutations, answer, i);
    assert Told(check, hooks, mutations, answer, i) == Report(hooks[i], 0, m, p);
    var b := Bulk(check, hooks, insert);
    var s := Start(b, mutations);
    RunTold(b, s, mutations, answer, 0, i);
    if i > 0 {
      RunTold(b, s, mutations, answer, 0, i - 1);
      assert GetsThrough(check, hooks[i - 1], mutations[i - 1]);
      var done := RunSave(b, s).state.done;
      assert done[i - 1] <==> Told(check, hooks, mutations, answer, i).Saved?;
      assert done[i - 1] != done[i];
    }
  }

  /** For any check and any hooks: every bulk save is all or nothing, whatever the mutations and the database's answers,
      exactly if every builder that can be reached reports truthfully what it can be given. */
  lemma {:induction false} AllOrNothingHooks(check: Checker, hooks: seq<seq<Hook>>)
    ensures (forall insert, mutations :: Holds(check, hooks, insert, mutations)) <==> AllSincere(check, hooks)
  {
    if AllSincere(check, hooks) {
      forall insert, mutations ensures Holds(check, hooks, insert, mutations) {
        var b := Bulk(check, hooks, insert);
        if |mutations| == |hooks| && mutations != [] {
          SincereMutator(b, Start(b, mutations), 0);
        }
      }
    } else {
      var i :| 0 <= i < |hooks| && Reachable(check, hooks, i) && !Sincere(check, hooks, i);
      var m, p :| Given(check, hooks, i, m, p) && !Truthful(hooks[i], m, p);
      var insert, mutations := Misreports(check, hooks, i, m, p);
      assert !Holds(check, hooks, insert, mutations);
    }
  }

  /** Pass-through hooks are sincere. */
  lemma {:induction false} PassThroughTruthful(hs: seq<Hook>, j: nat, m: Mutation, p: Outcome)
    requires j <= |hs| && forall k :: 0 <= k < |hs| ==> PassThrough(hs[k])
    ensures Report(hs, j, m, p).Saved? <==> Arrival(hs, j, m).Some? && p.Saved?
    decreases |hs| - j
  {
    if j < |hs| {
      assert PassThrough(hs[j]);
      match hs[j].before(m)
      case Halt(_) =>
      case Proceed(next) => PassThroughTruthful(hs, j + 1, next, p);
    }
  }

  lemma {:induction false} PassThroughSincere(b: Bulk)
    requires AllPassThrough(b)
    ensures AllSincere(b.check, b.hooks)
  {
    forall i, m, p | 0 <= i < |b.hooks| ensures Truthful(b.hooks[i], m, p) {
      PassThroughTruthful(b.hooks[i], 0, m, p);
    }
  }

  /** With sincere hooks: either every mutation is done and every node carries the id its row was given, or the save
      fails and no mutation is done. */
  lemma {:induction false} SincereSave(b: Bulk, mutations: seq<Mutation>)
    requires |mutations| == |b.hooks| && AllSincere(b.check, b.hooks)
    ensures var r := RunSave(b, Start(b, mutations));
            AllOrNothing(r) && (r.outcome.Saved? ==> forall k :: 0 <= k < |mutations| ==> Identifies(r.state, k))
  {
    if mutations != [] {
      SincereMutator(b, Start(b, mutations), 0);
      MutatorIds(b, Start(b, mutations), 0);
    }
  }
}

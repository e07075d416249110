/** The bulk save as it runs: defaults, the mutator chain built hook by hook, and the recursive calls that fill the
    specs and nodes and set ids and done flags in place. */
module BulkSave {
  import opened Collections
  import opened AccountEntity
  import opened AccountBuilder
  import opened AccountCreate
  import opened BulkCreate
  import opened BulkHooks

  // ---------------------------------------------------------------- builders

  /** The account object handed back; a mutation's id pointer leads into it. */
  class AccountNode {
    var node: Node

    constructor (node: Node)
      ensures this.node == node
    {
      this.node := node;
    }
  }

  class AccountMutation {
    var content: Mutation
    var done: bool
    var id: AccountNode?

    constructor (content: Mutation)
      ensures this.content == content && !done && id == null
    {
      this.content, done, id := content, false, null;
    }
  }

  class Builder {
    const mutation: AccountMutation
    const hooks: seq<Hook>
    var conflict: seq<int>

    constructor (mutation: AccountMutation, hooks: seq<Hook>)
      ensures this.mutation == mutation && this.hooks == hooks && conflict == []
    {
      this.mutation, this.hooks, conflict := mutation, hooks, [];
    }

    /** Sets one default, unless the column is set; fails if its provider is not registered. */
    method SetDefault(rt: Runtime, c: Column, ghost before: map<Column, Value>) returns (ok: bool)
      requires HasDefault(c) && FilledTo(rt, before, mutation.content.values, DefaultPosition(c))
      modifies mutation`content
      ensures mutation.content == old(mutation.content).(values := mutation.content.values)
      ensures ok ==> FilledTo(rt, before, mutation.content.values, DefaultPosition(c) + 1)
      ensures !ok ==> mutation.content == old(mutation.content) && Unprovided(rt, before, mutation.content.values)
    {
      if c in mutation.content.values {
        StillFilled(rt, before, mutation.content.values, c);
        return true;
      }
      var v := DefaultOf(rt, c);
      if v.None? {
        assert c !in before;
        return false;
      }
      FillNext(rt, before, mutation.content.values, c, v.value);
      mutation.content := mutation.content.(values := mutation.content.values[c := v.value]);
      ok := true;
    }

    /** The defaults whose providers may be unregistered. */
    method ProvidedDefaults(rt: Runtime, ghost before: map<Column, Value>) returns (ok: bool)
      requires before == mutation.content.values
      modifies mutation`content
      ensures mutation.content == old(mutation.content).(values := mutation.content.values)
      ensures if ok then FilledTo(rt, before, mutation.content.values, 4)
              else Unprovided(rt, before, mutation.content.values)
    {
      NothingFilled(rt, before);
      ok := SetDefault(rt, CreatedAt, before);
      if !ok { return; }
      ok := SetDefault(rt, UpdatedAt, before);
      if !ok { return; }
      ok := SetDefault(rt, Credentials, before);
      if !ok { return; }
      ok := SetDefault(rt, Extra, before);
    }

    /** The constant defaults up to the status, which always exist. */
    method ConstantDefaults(rt: Runtime, ghost before: map<Column, Value>)
      requires FilledTo(rt, before, mutation.content.values, 4)
      modifies mutation`content
      ensures mutation.content == old(mutation.content).(values := mutation.content.values)
      ensures FilledTo(rt, before, mutation.content.values, 8)
    {
      SetConstant(rt, Concurrency, before);
      SetConstant(rt, Priority, before);
      SetConstant(rt, RateMultiplier, before);
      SetConstant(rt, Status, before);
    }

    method LastDefaults(rt: Runtime, ghost before: map<Column, Value>)
      requires FilledTo(rt, before, mutation.content.values, 8)
      modifies mutation`content
      ensures mutation.content == old(mutation.content).(values := mutation.content.values)
      ensures FilledTo(rt, before, mutation.content.values, DEFAULTS)
    {
      SetConstant(rt, AutoPauseOnExpired, before);
      SetConstant(rt, Schedulable, before);
      SetConstant(rt, QuotaDimension, before);
    }

    method SetConstant(rt: Runtime, c: Column, ghost before: map<Column, Value>)
      requires HasDefault(c) && DefaultOf(rt, c).Some?
      requires FilledTo(rt, before, mutation.content.values, DefaultPosition(c))
      modifies mutation`content
      ensures mutation.content == old(mutation.content).(values := mutation.content.values)
      ensures FilledTo(rt, before, mutation.content.values, DefaultPosition(c) + 1)
    {
      if c in mutation.content.values {
        StillFilled(rt, before, mutation.content.values, c);
      } else {
        FillNext(rt, before, mutation.content.values, c, DefaultOf(rt, c).value);
        mutation.content := mutation.content.(values := mutation.content.values[c := DefaultOf(rt, c).value]);
      }
    }

    /** Sets the default values of the columns that are not set, in order, stopping at an unregistered provider. */
    method Defaults(rt: Runtime) returns (ok: bool)
      modifies mutation`content
      ensures mutation.content == old(mutation.content).(values := mutation.content.values)
      ensures ok ==> Filled(rt, old(mutation.content.values), mutation.content.values)
      ensures !ok ==> Unprovided(rt, old(mutation.content.values), mutation.content.values)
    {
      ghost var before := mutation.content.values;
      ok := ProvidedDefaults(rt, before);
      if !ok {
        return;
      }
      ConstantDefaults(rt, before);
      LastDefaults(rt, before);
      AllFilled(rt, before, mutation.content.values);
    }
  }

  lemma {:induction false} StillFilled(rt: Runtime, before: map<Column, Value>, now: map<Column, Value>, c: Column)
    requires HasDefault(c) && FilledTo(rt, before, now, DefaultPosition(c)) && c in now
    ensures FilledTo(rt, before, now, DefaultPosition(c) + 1)
  {
    forall d: Column | HasDefault(d) && DefaultPosition(d) == DefaultPosition(c) ensures d == c {
      DefaultAtPosition(c);
      DefaultAtPosition(d);
    }
  }

  // ---------------------------------------------------------------- mutators

  /** The nested closures as data: a builder's own step, wrapped by its hooks. */
  datatype Mutator = Core | Wrapped(hook: Hook, next: Mutator)

  function Chain(hooks: seq<Hook>, j: nat): Mutator
    requires j <= |hooks|
    decreases |hooks| - j
  {
    if j == |hooks| then Core else Wrapped(hooks[j], Chain(hooks, j + 1))
  }

  /** Wraps the builder's step hook by hook, from the last to the first, so that hooks[0] ends outermost. */
  method WrapHooks(hooks: seq<Hook>) returns (mut: Mutator)
    ensures mut == Chain(hooks, 0)
  {
    mut := Core;
    for i := |hooks| downto 0
      invariant mut == Chain(hooks, i)
    {
      mut := Wrapped(hooks[i], mut);
    }
  }

  // ---------------------------------------------------------------- the save

  /** One call of the bulk save: the slices it allocates, and what it did so far. */
  class Saving {
    const rt: Runtime
    const insert: Inserter
    const builders: seq<Builder>
    const specs: array<Option<Spec>>
    const nodes: array<AccountNode?>
    const mutators: array<Mutator>
    ghost var trace: seq<Event>

    constructor (rt: Runtime, insert: Inserter, builders: seq<Builder>)
      ensures this.rt == rt && this.insert == insert && this.builders == builders && trace == []
      ensures fresh(specs) && fresh(nodes) && fresh(mutators)
      ensures specs.Length == nodes.Length == mutators.Length == |builders|
      ensures forall i :: 0 <= i < |builders| ==> specs[i] == None && nodes[i] == null
    {
      this.rt, this.insert, this.builders, trace := rt, insert, builders, [];
      specs := new Option<Spec>[|builders|](_ => None);
      nodes := new AccountNode?[|builders|](_ => null);
      mutators := new Mutator[|builders|](_ => Core);
    }

    ghost predicate Valid()
      reads this, specs, nodes, mutators
    {
      && specs.Length == nodes.Length == mutators.Length == |builders|
      && (forall i :: 0 <= i < |builders| ==> mutators[i] == Chain(builders[i].hooks, 0))
      && DistinctMutations(builders)
      && (forall i, j :: 0 <= i < j < |builders| && nodes[i] != null ==> nodes[i] != nodes[j])
    }

    function Params(): Bulk {
      Bulk(CheckWith(rt), HooksOf(builders), insert)
    }

    ghost function View(): State
      reads this, specs, nodes, MutationSet(builders), nodes[..]
    {
      State(ContentsOf(builders), specs[..], NodesOf(nodes[..]), FlagsOf(builders), trace)
    }

    /** Stores the spec and a new node for builder i. */
    method StoreSpec(i: nat)
      requires Valid() && i < |builders|
      modifies specs, nodes
      ensures Valid() && trace == old(trace) && ContentsOf(builders) == old(ContentsOf(builders))
      ensures FlagsOf(builders) == old(FlagsOf(builders))
      ensures specs[..] == old(specs[..])[i := Some(SpecOf(builders[i].mutation.content))]
      ensures NodesOf(nodes[..])
           == old(NodesOf(nodes[..]))[i := Some(AccountCreate.NodeOf(builders[i].mutation.content))]
      ensures nodes[i] != null && fresh(nodes[i])
      ensures forall k :: 0 <= k < |builders| && k != i ==> nodes[k] == old(nodes[k])
    {
      specs[i] := Some(SpecOf(builders[i].mutation.content));
      nodes[i] := new AccountNode(AccountCreate.NodeOf(builders[i].mutation.content));
    }

    /** Checks builder i and fills its spec and node. */
    method FillOne(i: nat) returns (fault: Option<CreateError>)
      requires Valid() && i < |builders|
      modifies this`trace, specs, nodes
      ensures Valid() && fault == Params().check(old(View()).mutations[i])
      ensures fault.Some? ==> View() == old(View()).Log(Event.Check(i, false)) && nodes[i] == old(nodes[i])
      ensures fault.None? ==> View() == BulkCreate.Fill(old(View()), i) && nodes[i] != null && fresh(nodes[i])
      ensures forall k :: 0 <= k < |builders| && k != i ==> nodes[k] == old(nodes[k])
    {
      fault := CheckWith(rt)(builders[i].mutation.content);
      trace := trace + [Event.Check(i, fault.None?)];
      if fault.None? {
        StoreSpec(i);
      }
    }

    /** The one batch insert: on success the specs take the ids that the database reports. */
    method InsertAll() returns (outcome: Outcome)
      requires Valid()
      modifies this`trace, specs
      ensures Valid() && Run(View(), outcome) == RunInsert(Params(), old(View()))
    {
      var sent := specs[..];
      var answer := insert(sent);
      trace := trace + [Insert(sent, answer.Ok?)];
      if answer.Err? {
        return Failed(answer.error);
      }
      for k := 0 to specs.Length
        modifies specs
        invariant forall l :: 0 <= l < k ==> specs[l] == WithIds(sent, answer.value)[l]
        invariant forall l :: k <= l < specs.Length ==> specs[l] == sent[l]
      {
        if specs[k].Some? {
          specs[k] := Some(specs[k].value.(id := if k < |answer.value| then answer.value[k] else None));
        }
      }
      assert specs[..] == WithIds(sent, answer.value);
      outcome := Saved;
    }

    /** On the way back: points the mutation's id into the node, gives the node its id and marks the mutation done. */
    method FinishOne(i: nat)
      requires Valid() && i < |builders| && nodes[i] != null
      modifies this`trace, nodes[i], builders[i].mutation`done, builders[i].mutation`id
      ensures Valid() && View() == Finish(old(View()), i) && builders[i].mutation.id == nodes[i]
    {
      trace := trace + [Mark(i)];
      builders[i].mutation.id := nodes[i];
      if specs[i].Some? && specs[i].value.id.Some? {
        nodes[i].node := nodes[i].node.(id := specs[i].value.id.value);
      }
      builders[i].mutation.done := true;
    }

    /** Runs a mutator of builder i: the hooks that are left in it, then the builder's own step. */
    method Mutate(mut: Mutator, i: nat, ghost j: nat) returns (outcome: Outcome)
      requires Valid() && i < |builders| && j <= |builders[i].hooks| && mut == Chain(builders[i].hooks, j)
      modifies this`trace, specs, nodes, MutationSet(builders)
      ensures Valid() && Run(View(), outcome) == RunHooks(Params(), old(View()), i, j)
      ensures forall k :: 0 <= k < i ==> nodes[k] == old(nodes[k])
      decreases |builders| - i, 1, |builders[i].hooks| - j
    {
      match mut
      case Core =>
        outcome := MutateCore(i);
      case Wrapped(hook, next) =>
        assert hook == builders[i].hooks[j] && next == Chain(builders[i].hooks, j + 1);
        var step := EnterHook(hook, i, j);
        match step
        case Halt(o) =>
          outcome := o;
        case Proceed(_) =>
          outcome := Mutate(next, i, j + 1);
          trace := trace + [HookOut(i, j)];
          outcome := hook.after(outcome);
    }

    /** What hook j does before the next mutator: it may edit the mutation, or stop there. */
    method EnterHook(hook: Hook, i: nat, ghost j: nat) returns (step: Step)
      requires Valid() && i < |builders| && j < |builders[i].hooks| && hook == builders[i].hooks[j]
      modifies this`trace, builders[i].mutation`content
      ensures Valid() && step == hook.before(old(View()).mutations[i])
      ensures step.Halt? ==> View() == old(View()).Log(HookIn(i, j)).Log(HookOut(i, j))
      ensures step.Proceed? ==>
        View() == old(View()).Log(HookIn(i, j)).(mutations := old(View()).mutations[i := step.m])
    {
      trace := trace + [HookIn(i, j)];
      step := hook.before(builders[i].mutation.content);
      match step
      case Halt(_) =>
        trace := trace + [HookOut(i, j)];
      case Proceed(m) =>
        builders[i].mutation.content := m;
    }

    /** Builder i's own step. */
    method MutateCore(i: nat) returns (outcome: Outcome)
      requires Valid() && i < |builders|
      modifies this`trace, specs, nodes, MutationSet(builders)
      ensures Valid() && Run(View(), outcome) == RunCore(Params(), old(View()), i)
      ensures forall k :: 0 <= k < i ==> nodes[k] == old(nodes[k])
      decreases |builders| - i, 0
    {
      var fault := FillOne(i);
      if fault.Some? {
        return Failed(fault.value);
      }
      outcome := RunRest(i);
      if outcome.Failed? {
        return;
      }
      FinishOne(i);
      outcome := Saved;
    }

    /** What builder i's step calls: the next builder's mutator or, in the last builder, the insert. */
    method RunRest(i: nat) returns (outcome: Outcome)
      requires Valid() && i < |builders|
      modifies this`trace, specs, nodes, MutationSet(builders)
      ensures Valid() && Run(View(), outcome) == RunFilled(Params(), old(View()), i)
      ensures forall k :: 0 <= k <= i ==> nodes[k] == old(nodes[k])
      decreases |builders| - i - 1, 3
    {
      if i + 1 < |builders| {
        outcome := MutateNext(i + 1);
      } else {
        outcome := InsertAll();
      }
    }

    /** The call of builder i's mutator. */
    method MutateNext(i: nat) returns (outcome: Outcome)
      requires Valid() && i < |builders|
      modifies this`trace, specs, nodes, MutationSet(builders)
      ensures Valid() && Run(View(), outcome) == RunMutator(Params(), old(View()), i)
      ensures forall k :: 0 <= k < i ==> nodes[k] == old(nodes[k])
      decreases |builders| - i, 2
    {
      trace := trace + [Enter(i)];
      outcome := Mutate(mutators[i], i, 0);
      trace := trace + [Return(i, outcome.Saved?)];
    }

    /** Sets every builder's defaults, ignoring an unregistered provider, and builds its mutator. */
    method Prepare()
      requires specs.Length == nodes.Length == mutators.Length == |builders| && DistinctMutations(builders)
      requires forall i :: 0 <= i < |builders| ==> specs[i] == None && nodes[i] == null
      modifies mutators, MutationSet(builders)`content
      ensures Valid() && FlagsOf(builders) == old(FlagsOf(builders))
      ensures forall i :: 0 <= i < |builders| ==> Defaulted(rt, old(ContentsOf(builders))[i], ContentsOf(builders)[i])
      ensures View() == State(ContentsOf(builders), Nones(|builders|), Nones(|builders|), FlagsOf(builders), trace)
    {
      for i := 0 to |builders|
        modifies mutators, MutationSet(builders)`content
        invariant forall k :: 0 <= k < i ==> mutators[k] == Chain(builders[k].hooks, 0)
        invariant forall k :: 0 <= k < i ==>
          Defaulted(rt, old(builders[k].mutation.content), builders[k].mutation.content)
        invariant forall k :: i <= k < |builders| ==> builders[k].mutation.content == old(builders[k].mutation.content)
      {
        assert builders[i].mutation in MutationSet(builders);
        var _ := builders[i].Defaults(rt);
        mutators[i] := WrapHooks(builders[i].hooks);
      }
      assert specs[..] == Nones(|builders|) && NodesOf(nodes[..]) == Nones(|builders|);
    }
  }

  function CheckWith(rt: Runtime): Mutation -> Option<CreateError> {
    (m: Mutation) => AccountBuilder.Check(rt, m.values)
  }

  function Nones<T>(n: nat): (r: seq<Option<T>>)
    ensures |r| == n && forall i :: 0 <= i < n ==> r[i] == None
  {
    seq(n, _ => None)
  }

  /** A mutation after its builder's defaults, all of them or those before an unregistered provider. */
  ghost predicate Defaulted(rt: Runtime, before: Mutation, after: Mutation) {
    && after == before.(values := after.values)
    && (Filled(rt, before.values, after.values) || Unprovided(rt, before.values, after.values))
  }

  ghost predicate DistinctMutations(builders: seq<Builder>) {
    forall i, j :: 0 <= i < j < |builders| ==> builders[i].mutation != builders[j].mutation
  }

  function HooksOf(builders: seq<Builder>): (r: seq<seq<Hook>>)
    ensures |r| == |builders| && forall i :: 0 <= i < |r| ==> r[i] == builders[i].hooks
  {
    seq(|builders|, i requires 0 <= i < |builders| => builders[i].hooks)
  }

  ghost function MutationSet(builders: seq<Builder>): set<AccountMutation> {
    set i | 0 <= i < |builders| :: builders[i].mutation
  }

  ghost function ContentsOf(builders: seq<Builder>): (r: seq<Mutation>)
    reads MutationSet(builders)
    ensures |r| == |builders| && forall i :: 0 <= i < |r| ==> r[i] == builders[i].mutation.content
  {
    seq(|builders|, i requires 0 <= i < |builders| reads MutationSet(builders) =>
      (assert builders[i].mutation in MutationSet(builders); builders[i].mutation.content))
  }

  ghost function FlagsOf(builders: seq<Builder>): (r: seq<bool>)
    reads MutationSet(builders)
    ensures |r| == |builders| && forall i :: 0 <= i < |r| ==> r[i] == builders[i].mutation.done
  {
    seq(|builders|, i requires 0 <= i < |builders| reads MutationSet(builders) =>
      (assert builders[i].mutation in MutationSet(builders); builders[i].mutation.done))
  }

  ghost function NodesOf(nodes: seq<AccountNode?>): (r: seq<Option<Node>>)
    reads nodes
    ensures |r| == |nodes|
    ensures forall i :: 0 <= i < |r| ==> r[i] == if nodes[i] == null then None else Some(nodes[i].node)
  {
    seq(|nodes|, i requires 0 <= i < |nodes| reads nodes => if nodes[i] == null then None else Some(nodes[i].node))
  }

  // ---------------------------------------------------------------- the builders' entry points

  datatype SaveError = NotSaved(err: CreateError) | BuilderConflict(index: nat) | MissingOptions

  class AccountCreateBulk {
    const rt: Runtime
    const insert: Inserter
    const builders: seq<Builder>
    var err: Option<CreateError>
    var conflict: seq<int>

    constructor (rt: Runtime, insert: Inserter, builders: seq<Builder>)
      ensures this.rt == rt && this.insert == insert && this.builders == builders && err == None && conflict == []
    {
      this.rt, this.insert, this.builders, err, conflict := rt, insert, builders, None, [];
    }

    function Params(): Bulk {
      Bulk(CheckWith(rt), HooksOf(builders), insert)
    }

    /** Prepares the builders and runs the chain from the first mutator. */
    method RunChain() returns (outcome: Outcome, saved: seq<AccountNode?>, ghost start: State, ghost end: State)
      requires DistinctMutations(builders)
      modifies MutationSet(builders)
      ensures |start.mutations| == |builders|
      ensures start == State(start.mutations, Nones(|builders|), Nones(|builders|), old(FlagsOf(builders)), [])
      ensures forall i :: 0 <= i < |builders| ==> Defaulted(rt, old(ContentsOf(builders))[i], start.mutations[i])
      ensures Shaped(Params(), start) && RunSave(Params(), start) == Run(end, outcome)
      ensures end.done == FlagsOf(builders) && NodesOf(saved) == end.nodes
    {
      var s := new Saving(rt, insert, builders);
      s.Prepare();
      start := s.View();
      outcome := Saved;
      if |builders| > 0 {
        outcome := s.MutateNext(0);
      }
      end := s.View();
      saved := s.nodes[..];
    }

    /** Saves all accounts or, with sincere hooks, none. start and end are the states between which the chain ran. */
    method Save() returns (r: Result<seq<AccountNode?>, CreateError>, ghost start: State, ghost end: State)
      requires DistinctMutations(builders)
      modifies MutationSet(builders)
      ensures err.Some? ==> r == Err(err.value) && unchanged(MutationSet(builders))
      ensures err.None? ==>
        Shaped(Params(), start) && StartsFrom(rt, old(ContentsOf(builders)), old(FlagsOf(builders)), start)
      ensures err.None? ==> RunSave(Params(), start) == Run(end, if r.Ok? then Saved else Failed(r.error))
      ensures err.None? ==> end.done == FlagsOf(builders) && (r.Ok? ==> NodesOf(r.value) == end.nodes)
      ensures err.None? && NoneDone(old(FlagsOf(builders))) ==> InsertSafe(|builders|, end.trace)
      ensures err.None? && NoneDone(old(FlagsOf(builders))) && AllSincere(CheckWith(rt), HooksOf(builders)) ==>
        if r.Ok? then forall i :: 0 <= i < |builders| ==> builders[i].mutation.done && Identifies(end, i)
        else forall i :: 0 <= i < |builders| ==> !builders[i].mutation.done
    {
      start, end := State([], [], [], [], []), State([], [], [], [], []);
      if err.Some? {
        return Err(err.value), start, end;
      }
      var outcome, saved;
      outcome, saved, start, end := RunChain();
      r := if outcome.Failed? then Err(outcome.err) else Ok(saved);
      if NoneDone(start.done) {
        SavedFromStart(Params(), start);
      }
      FlagsAt(builders, end.done);
    }

    /** Saving with conflict options: refused if a builder has options of its own, or if the bulk has none. */
    method ExecUpsert() returns (failure: Option<SaveError>)
      requires DistinctMutations(builders)
      modifies MutationSet(builders)
      ensures failure.Some? && failure.value.BuilderConflict? ==>
        && failure.value.index < |builders| && old(builders[failure.value.index].conflict) != []
        && forall k :: 0 <= k < failure.value.index ==> old(builders[k].conflict) == []
      ensures failure == Some(MissingOptions) ==>
        conflict == [] && forall k :: 0 <= k < |builders| ==> old(builders[k].conflict) == []
      ensures err.None? && (failure.None? || failure.value.NotSaved?) ==>
        conflict != [] && forall k :: 0 <= k < |builders| ==> old(builders[k].conflict) == []
      ensures failure.Some? && !failure.value.NotSaved? ==> unchanged(MutationSet(builders))
      ensures err.Some? ==> failure == Some(NotSaved(err.value))
    {
      if err.Some? {
        return Some(NotSaved(err.value));
      }
      for i := 0 to |builders|
        invariant forall k :: 0 <= k < i ==> builders[k].conflict == []
      {
        if |builders[i].conflict| != 0 {
          return Some(BuilderConflict(i));
        }
      }
      if |conflict| == 0 {
        return Some(MissingOptions);
      }
      var r, _, _ := Save();
      failure := if r.Err? then Some(NotSaved(r.error)) else None;
    }
  }

  /** The state the chain starts in: the builders' mutations with their defaults, empty slices, an empty trace. */
  ghost predicate StartsFrom(rt: Runtime, contents: seq<Mutation>, flags: seq<bool>, start: State) {
    && |start.mutations| == |contents|
    && start == State(start.mutations, Nones(|contents|), Nones(|contents|), flags, [])
    && forall i :: 0 <= i < |contents| ==> Defaulted(rt, contents[i], start.mutations[i])
  }

  lemma {:induction false} FlagsAt(builders: seq<Builder>, flags: seq<bool>)
    requires flags == FlagsOf(builders)
    ensures |flags| == |builders| && forall i :: 0 <= i < |builders| ==> builders[i].mutation.done == flags[i]
  {
  }

  ghost predicate NoneDone(flags: seq<bool>) {
    forall k :: 0 <= k < |flags| ==> !flags[k]
  }

  lemma {:induction false} SavedFromStart(b: Bulk, start: State)
    requires Shaped(b, start) && NoneDone(start.done)
    requires start == State(start.mutations, Nones(|b.hooks|), Nones(|b.hooks|), start.done, [])
    ensures var r := RunSave(b, start);
            && InsertSafe(|b.hooks|, r.state.trace)
            && (AllSincere(b.check, b.hooks) ==>
                 AllOrNothing(r) && (r.outcome.Saved? ==> forall k :: 0 <= k < |b.hooks| ==> Identifies(r.state, k)))
  {
    assert start == Start(b, start.mutations);
    InsertOnceWhenReady(b, start.mutations);
    if AllSincere(b.check, b.hooks) { SincereSave(b, start.mutations); }
  }
}

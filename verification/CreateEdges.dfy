/** What a create leaves in the database: the edges of its spec, and the specs that a bulk save inserts. */
module CreateEdges {
  import opened Collections
  import opened AccountBuilder
  import opened AccountCreate
  import EdgeUpdate
  import opened BulkCreate

  // ---------------------------------------------------------------- the edges of one account

  /** The edges of a create, seen as the changes of an update that clears and removes nothing. */
  function EdgesOf(m: Mutation): EdgeUpdate.Edges {
    EdgeUpdate.Edges(EdgeUpdate.Many(m.groups, {}, false), EdgeUpdate.Unique(m.proxy, false, false),
                     EdgeUpdate.Unique(m.parent, false, false), EdgeUpdate.Many(m.children, {}, false),
                     EdgeUpdate.Many(m.usageLogs, {}, false))
  }

  lemma {:induction false} SpecEdgesAre(m: Mutation)
    ensures EdgeUpdate.Compile(EdgesOf(m)) == EdgeUpdate.EdgeLists([], SpecOf(m).edges)
  {
    assert EdgeUpdate.Compile(EdgesOf(m)).clear == [];
  }

  /** The store with a row for the new account. */
  function WithRow(s: EdgeUpdate.Store, id: int): EdgeUpdate.Store {
    s.(proxy := s.proxy[id := None], parent := s.parent[id := None])
  }

  /** Inserting the account and then executing the edges of its spec. */
  ghost function Created(strict: bool, s: EdgeUpdate.Store, id: int, m: Mutation)
      : Result<EdgeUpdate.Store, EdgeUpdate.Conflict> {
    EdgeUpdate.Execute(strict, WithRow(s, id), {id}, EdgeUpdate.EdgeLists([], SpecOf(m).edges))
  }

  /** Nothing in the store or in the mutation knows the id that the database is about to give. */
  predicate NewId(s: EdgeUpdate.Store, id: int, m: Mutation) {
    && id !in s.proxy && id !in s.parent && (forall p :: p in s.links ==> p.0 != id)
    && (forall x :: x in s.parent ==> s.parent[x] != Some(id)) && (forall x :: x in s.owner ==> s.owner[x] != Some(id))
    && m.parent != Some(id) && id !in m.children
  }

  /** The rows exist and belong to no account. */
  predicate Unowned(rows: set<int>, keys: EdgeUpdate.Keys) {
    forall x :: x in rows ==> x in keys && keys[x] == None
  }

  lemma {:induction false} NewGroups(s: EdgeUpdate.Store, id: int)
    requires forall p :: p in s.links ==> p.0 != id
    ensures EdgeUpdate.GroupsOf(WithRow(s, id), id) == {}
  {
  }

  lemma {:induction false} NewRows(s: EdgeUpdate.Store, id: int, m: Mutation)
    requires NewId(s, id, m)
    ensures EdgeUpdate.OwnedBy(EdgeUpdate.KeysAfter(EdgesOf(m).parent, {id}, WithRow(s, id).parent), id) == {}
    ensures EdgeUpdate.OwnedBy(s.owner, id) == {}
  {
    var keys := EdgeUpdate.KeysAfter(EdgesOf(m).parent, {id}, WithRow(s, id).parent);
    forall x | x in keys ensures keys[x] != Some(id) {
      if x != id { assert keys[x] == s.parent[x]; }
    }
    NoneOwned(keys, id);
    NoneOwned(s.owner, id);
  }

  lemma {:induction false} NoneOwned(keys: EdgeUpdate.Keys, id: int)
    requires forall x :: x in keys ==> keys[x] != Some(id)
    ensures EdgeUpdate.OwnedBy(keys, id) == {}
  {
    if EdgeUpdate.OwnedBy(keys, id) != {} {
      var x := EdgeUpdate.Member(EdgeUpdate.OwnedBy(keys, id));
      assert false;
    }
  }

  lemma {:induction false} OnlyAdded(targets: set<int>)
    ensures EdgeUpdate.ManyAfter(EdgeUpdate.Many(targets, {}, false), {}) == targets
  {
    var none: set<int> := {};
    NothingAnd(none, targets);
    assert EdgeUpdate.ManyAfter(EdgeUpdate.Many(targets, none, false), none) == (none - none) + targets;
  }

  lemma {:induction false} NothingAnd<T>(none: set<T>, s: set<T>)
    requires none == {}
    ensures (none - none) + s == s
  {
  }

  lemma {:induction false} OwnKeys(strict: bool, s: EdgeUpdate.Store, id: int, m: Mutation)
    requires NewId(s, id, m)
    ensures var t := EdgeUpdate.After(EdgesOf(m), {id}, WithRow(s, id));
            id in t.proxy && t.proxy[id] == m.proxy && id in t.parent && t.parent[id] == m.parent
  {
  }

  /** A create succeeds exactly if the children and usage logs it names exist and are free; then the new account has
      exactly the groups, children and usage logs of its mutation, and its proxy and parent. */
  lemma {:induction false} CreatedEdges(strict: bool, s: EdgeUpdate.Store, id: int, m: Mutation)
    requires NewId(s, id, m)
    ensures Created(strict, s, id, m).Ok? <==> Unowned(m.children, s.parent) && Unowned(m.usageLogs, s.owner)
    ensures Created(strict, s, id, m).Ok? ==>
      var t := Created(strict, s, id, m).value;
      && EdgeUpdate.GroupsOf(t, id) == m.groups
      && EdgeUpdate.OwnedBy(t.parent, id) == m.children && EdgeUpdate.OwnedBy(t.owner, id) == m.usageLogs
      && id in t.proxy && t.proxy[id] == m.proxy && id in t.parent && t.parent[id] == m.parent
  {
    var e, s0 := EdgesOf(m), WithRow(s, id);
    SpecEdgesAre(m);
    EdgeUpdate.UpdateExact(strict, e, {id}, s0);
    CreateAllowed(strict, s, id, m);
    OwnKeys(strict, s, id, m);
    if Created(strict, s, id, m).Ok? {
      EdgeUpdate.UpdateLaw(strict, e, {id}, s0, id);
      NewGroups(s, id);
      NewRows(s, id, m);
      OnlyAdded(m.groups);
      OnlyAdded(m.children);
      OnlyAdded(m.usageLogs);
    }
  }

  lemma {:induction false} CreateAllowed(strict: bool, s: EdgeUpdate.Store, id: int, m: Mutation)
    requires NewId(s, id, m)
    ensures EdgeUpdate.Allowed(strict, EdgesOf(m), {id}, WithRow(s, id))
        <==> Unowned(m.children, s.parent) && Unowned(m.usageLogs, s.owner)
  {
    var e, s0 := EdgesOf(m), WithRow(s, id);
    var keys := EdgeUpdate.KeysAfter(e.parent, {id}, s0.parent);
    assert forall x :: x in m.children ==> x != id;
    assert forall x :: x != id ==> (x in keys <==> x in s.parent) && (x in keys ==> keys[x] == s.parent[x]);
    assert EdgeUpdate.Linkable(e.children, {id}, keys) <==> Unowned(m.children, s.parent);
    assert EdgeUpdate.Linkable(e.usageLogs, {id}, s0.owner) <==> Unowned(m.usageLogs, s.owner);
  }

  // ---------------------------------------------------------------- the specs of a bulk save

  /** The first i specs and nodes are those of the mutations, in builder order. */
  ghost predicate Carried(s: State, i: nat) {
    forall k :: 0 <= k < i && k < |s.specs| && k < |s.mutations| && k < |s.nodes| ==>
      s.specs[k] == Some(SpecOf(s.mutations[k])) && s.nodes[k] == Some(NodeOf(s.mutations[k]))
  }

  /** Every check in the trace says what it makes of the builder's mutation; only the first i have been checked. */
  ghost predicate ChecksRight(b: Bulk, s: State, i: nat) {
    forall p :: 0 <= p < |s.trace| && s.trace[p].Check? ==>
      var k := s.trace[p].i;
      k < i && k < |s.mutations| && (s.trace[p].ok <==> b.check(s.mutations[k]).None?)
  }

  /** What was inserted at position k is the spec of mutation k, fields and edges, and the ids that the database
      reported are in the specs at the same positions. */
  ghost predicate InsertsCarry(b: Bulk, t: State) {
    forall p :: 0 <= p < |t.trace| && t.trace[p].Insert? ==>
      && |t.trace[p].specs| == |t.specs| == |t.mutations|
      && (forall k :: 0 <= k < |t.specs| ==> t.trace[p].specs[k] == Some(SpecOf(t.mutations[k])))
      && (t.trace[p].ok <==> b.insert(t.trace[p].specs).Ok?)
      && (t.trace[p].ok ==> Numbered(t, b.insert(t.trace[p].specs).value))
  }

  ghost predicate Numbered(t: State, ids: seq<Option<int>>) {
    forall k :: 0 <= k < |t.specs| && k < |t.mutations| ==>
      t.specs[k] == Some(SpecOf(t.mutations[k]).(id := if k < |ids| then ids[k] else None))
  }

  /** The nodes of finished builders hold the fields of their mutations and the id of their spec. */
  ghost predicate NodesCarry(t: State) {
    forall k :: 0 <= k < |t.done| && k < |t.nodes| && k < |t.specs| && k < |t.mutations| && t.done[k] ==>
      t.nodes[k].Some? && t.specs[k].Some? &&
      var id := t.specs[k].value.id;
      t.nodes[k].value == NodeOf(t.mutations[k]).(id := if id.Some? then id.value else 0)
  }

  /** What running builder i and those after it keeps: the mutations and nodes of the builders before it, and what was
      inserted, checked and returned. */
  ghost predicate Keeps(b: Bulk, s: State, r: Run, i: nat) {
    && Shaped(b, s) && Shaped(b, r.state)
    && (forall k :: 0 <= k < i && k < |s.mutations| ==>
         r.state.mutations[k] == s.mutations[k] && r.state.nodes[k] == s.nodes[k] && r.state.done[k] == s.done[k]
         && r.state.specs[k].Some?)
    && InsertsCarry(b, r.state) && ChecksRight(b, r.state, |b.hooks|) && NodesCarry(r.state)
  }

  /** The state builder i starts from. */
  ghost predicate CanRun(b: Bulk, s: State, i: nat) {
    Shaped(b, s) && i <= |b.hooks| && Carried(s, i) && NoInsert(s.trace) && ChecksRight(b, s, i)
    && forall k :: 0 <= k < |s.done| ==> !s.done[k]
  }

  lemma {:induction false} LogKeeps(b: Bulk, s: State, r: Run, i: nat, e: Event, o: Outcome)
    requires Keeps(b, s, r, i) && !e.Insert? && !e.Check?
    ensures Keeps(b, s, Run(r.state.Log(e), o), i)
  {
    assert forall p :: 0 <= p < |r.state.trace| ==> r.state.Log(e).trace[p] == r.state.trace[p];
  }

  lemma {:induction false} EnterReady(b: Bulk, s: State, i: nat, e: Event, m: Mutation)
    requires CanRun(b, s, i) && i < |b.hooks| && !e.Insert? && !e.Check?
    ensures CanRun(b, s.Log(e).(mutations := s.mutations[i := m]), i)
  {
    assert forall p :: 0 <= p < |s.trace| ==> s.Log(e).trace[p] == s.trace[p];
  }

  /** A run that ends before the insert and before anything is done. */
  lemma {:induction false} StopKeeps(b: Bulk, s: State, r: Run, i: nat)
    requires CanRun(b, s, i) && i < |b.hooks| && NoInsert(r.state.trace) && ChecksRight(b, r.state, |b.hooks|)
    requires r.state == s.(trace := r.state.trace)
    ensures Keeps(b, s, r, i)
  {
  }

  lemma {:induction false} MutatorCarries(b: Bulk, s: State, i: nat)
    requires CanRun(b, s, i) && i < |b.hooks|
    ensures Keeps(b, s, RunMutator(b, s, i), i)
    decreases |b.hooks| - i, 2
  {
    EnterReady(b, s, i, Enter(i), s.mutations[i]);
    assert s.mutations[i := s.mutations[i]] == s.mutations;
    HooksCarry(b, s.Log(Enter(i)), i, 0);
    var r := RunHooks(b, s.Log(Enter(i)), i, 0);
    LogKeeps(b, s.Log(Enter(i)), r, i, Return(i, r.outcome.Saved?), r.outcome);
  }

  lemma {:induction false} HooksCarry(b: Bulk, s: State, i: nat, j: nat)
    requires CanRun(b, s, i) && i < |b.hooks| && j <= |b.hooks[i]|
    ensures Keeps(b, s, RunHooks(b, s, i, j), i)
    decreases |b.hooks| - i, 1, |b.hooks[i]| - j
  {
    if j == |b.hooks[i]| {
      CoreCarries(b, s, i);
    } else {
      match b.hooks[i][j].before(s.mutations[i])
      case Halt(_) =>
        var r := RunHooks(b, s, i, j);
        assert forall p :: 0 <= p < |s.trace| ==> r.state.trace[p] == s.trace[p];
        StopKeeps(b, s, r, i);
      case Proceed(m) =>
        var t := s.Log(HookIn(i, j)).(mutations := s.mutations[i := m]);
        EnterReady(b, s, i, HookIn(i, j), m);
        HooksCarry(b, t, i, j + 1);
        var inner := RunHooks(b, t, i, j + 1);
        LogKeeps(b, t, inner, i, HookOut(i, j), b.hooks[i][j].after(inner.outcome));
    }
  }

  lemma {:induction false} FillReady(b: Bulk, s: State, i: nat)
    requires CanRun(b, s, i) && i < |b.hooks| && b.check(s.mutations[i]).None?
    ensures CanRun(b, Fill(s, i), i + 1)
  {
    var t := Fill(s, i);
    assert forall p :: 0 <= p < |s.trace| ==> t.trace[p] == s.trace[p];
  }

  lemma {:induction false} CoreCarries(b: Bulk, s: State, i: nat)
    requires CanRun(b, s, i) && i < |b.hooks|
    ensures Keeps(b, s, RunCore(b, s, i), i)
    decreases |b.hooks| - i, 0
  {
    var r := RunCore(b, s, i);
    if b.check(s.mutations[i]).Some? {
      assert forall p :: 0 <= p < |s.trace| ==> r.state.trace[p] == s.trace[p];
      StopKeeps(b, s, r, i);
    } else {
      var t := Fill(s, i);
      FillReady(b, s, i);
      if i + 1 < |b.hooks| {
        MutatorCarries(b, t, i + 1);
      } else {
        InsertCarries(b, t);
      }
      FilledKeeps(b, s, RunFilled(b, t, i), i);
    }
  }

  /** From what ran after the fill to the whole step. */
  lemma {:induction false} FilledKeeps(b: Bulk, s: State, inner: Run, i: nat)
    requires CanRun(b, s, i) && i < |b.hooks| && Keeps(b, Fill(s, i), inner, i + 1)
    ensures Keeps(b, s, if inner.outcome.Failed? then inner else Run(Finish(inner.state, i), Saved), i)
  {
    var t := inner.state;
    assert forall p :: 0 <= p < |t.trace| ==> Finish(t, i).trace[p] == t.trace[p];
    assert t.nodes[i] == Some(NodeOf(s.mutations[i])) && t.mutations[i] == s.mutations[i];
  }

  lemma {:induction false} InsertCarries(b: Bulk, t: State)
    requires CanRun(b, t, |b.hooks|)
    ensures Keeps(b, t, RunInsert(b, t), |b.hooks|)
  {
    var r := RunInsert(b, t);
    assert forall p :: 0 <= p < |t.trace| ==> r.state.trace[p] == t.trace[p];
    assert r.state.trace[|t.trace|].Insert? && |r.state.trace| == |t.trace| + 1;
  }

  /** For any hooks, with the mutations as the hooks left them: what a bulk save inserts at position k is the spec of
      mutation k, with its fields and edges, and on success spec k has the k-th reported id; every check in the trace
      says what it makes of that builder's mutation; and a finished builder's node has the fields of its mutation and
      the id of its spec. */
  lemma {:induction false} SaveCarries(b: Bulk, mutations: seq<Mutation>)
    requires |mutations| == |b.hooks|
    ensures var t := RunSave(b, Start(b, mutations)).state;
            InsertsCarry(b, t) && ChecksRight(b, t, |b.hooks|) && NodesCarry(t)
  {
    if mutations != [] {
      MutatorCarries(b, Start(b, mutations), 0);
    }
  }

  // ---------------------------------------------------------------- without hooks

  ghost predicate Plain(b: Bulk) {
    forall i :: 0 <= i < |b.hooks| ==> b.hooks[i] == []
  }

  /** The specs of mutations, in order. */
  function SpecsOf(mutations: seq<Mutation>): (r: seq<Option<Spec>>)
    ensures |r| == |mutations| && forall k :: 0 <= k < |r| ==> r[k] == Some(SpecOf(mutations[k]))
  {
    seq(|mutations|, k requires 0 <= k < |mutations| => Some(SpecOf(mutations[k])))
  }

  /** The answer of a save without hooks: the first failing check, or else what the database says. */
  function Answer(b: Bulk, mutations: seq<Mutation>, i: nat): Outcome
    decreases |mutations| - i
  {
    if i >= |mutations| then
      match b.insert(SpecsOf(mutations))
      case Err(e) => Failed(e)
      case Ok(_) => Saved
    else if b.check(mutations[i]).Some? then Failed(b.check(mutations[i]).value)
    else Answer(b, mutations, i + 1)
  }

  lemma {:induction false} PlainFrom(b: Bulk, s: State, i: nat)
    requires Plain(b) && Shaped(b, s) && i < |b.hooks|
    requires forall k :: 0 <= k < i ==> s.specs[k] == Some(SpecOf(s.mutations[k]))
    ensures RunMutator(b, s, i).outcome == Answer(b, s.mutations, i)
    decreases |b.hooks| - i
  {
    var t := s.Log(Enter(i));
    assert RunHooks(b, t, i, 0) == RunCore(b, t, i);
    if b.check(s.mutations[i]).None? {
      var u := Fill(t, i);
      if i + 1 < |b.hooks| {
        PlainFrom(b, u, i + 1);
        assert RunFilled(b, u, i) == RunMutator(b, u, i + 1);
      } else {
        assert u.specs == SpecsOf(s.mutations);
        assert RunFilled(b, u, i) == RunInsert(b, u);
      }
    }
  }

  /** Without hooks a save of some accounts reports the first failing check in builder order, or else what the database
      makes of the specs of all mutations. */
  lemma {:induction false} PlainSave(b: Bulk, mutations: seq<Mutation>)
    requires Plain(b) && |mutations| == |b.hooks| && mutations != []
    ensures RunSave(b, Start(b, mutations)).outcome == Answer(b, mutations, 0)
  {
    PlainFrom(b, Start(b, mutations), 0);
  }
}

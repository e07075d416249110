/** Limits and offsets on an edge query apply to the whole batch: exactly when the batched load is still right. */
module EagerLimits {
  import opened Collections
  import opened AccountEntity
  import opened EagerSpec
  import opened EagerJoin

  // ---------------------------------------------------------------- filtering a part of a sequence

  lemma {:induction false} FilterLength<T(!new)>(p: T -> bool, s: seq<T>)
    ensures |Filter(p, s)| <= |s|
    ensures |Filter(p, s)| == |s| <==> forall x :: x in s ==> p(x)
    ensures |Filter(p, s)| == |s| ==> Filter(p, s) == s
    ensures Filter(p, s) == [] <==> forall x :: x in s ==> !p(x)
  {
    if s != [] {
      FilterLength(p, s[1..]);
      assert s == [s[0]] + s[1..];
      InCons(s[0], s[1..]);
    }
  }

  /** The part before a cut gives the first matches, the part after it the others. */
  lemma {:induction false} FilterCut<T(!new)>(p: T -> bool, s: seq<T>, n: nat)
    requires n <= |s|
    ensures var before := |Filter(p, s[..n])|;
            before <= |Filter(p, s)| && Filter(p, s[..n]) == Filter(p, s)[..before]
            && Filter(p, s[n..]) == Filter(p, s)[before..]
  {
    assert s == s[..n] + s[n..];
    FilterAppend(p, s[..n], s[n..]);
  }

  lemma {:induction false} FilterSubset<T(!new)>(p: T -> bool, s: seq<T>, n: nat)
    requires n < |s| && p(s[n])
    ensures |Filter(p, s[..n])| < |Filter(p, s)|
  {
    FilterCut(p, s, n);
    FilterLength(p, s[n..]);
    assert s[n..][0] == s[n];
  }

  // ---------------------------------------------------------------- when a cut is fair to every owner

  /** All rows belong to one account. */
  predicate OneOwner(rows: seq<Row>) {
    forall i, j :: 0 <= i < |rows| && 0 <= j < |rows| ==> IntOf(rows[i], ACCOUNT_ID) == IntOf(rows[j], ACCOUNT_ID)
  }

  predicate OwnersIn(rows: seq<Row>, ids: seq<int>) {
    forall r :: r in rows ==> IntOf(r, ACCOUNT_ID).Some? && IntOf(r, ACCOUNT_ID).value in ids
  }

  /** How many of the first n rows belong to account k. */
  function Early(rows: seq<Row>, n: nat, k: int): nat {
    |Filter(KeyIs(ACCOUNT_ID, k), rows[..Min(n, |rows|)])|
  }

  function Rows(rows: seq<Row>, k: int): nat {
    |Filter(KeyIs(ACCOUNT_ID, k), rows)|
  }

  /** Among the first n rows of the batch every account finds its own first n rows. */
  ghost predicate Fair(rows: seq<Row>, n: nat, ids: seq<int>) {
    forall k :: k in ids ==> Early(rows, n, k) == Min(n, Rows(rows, k))
  }

  lemma {:induction false} CutIsFair(rows: seq<Row>, n: nat, ids: seq<int>)
    requires OwnersIn(rows, ids)
    ensures Fair(rows, n, ids) <==> n == 0 || |rows| <= n || OneOwner(rows)
  {
    var first := rows[..Min(n, |rows|)];
    if n == 0 || |rows| <= n || OneOwner(rows) {
      forall k | k in ids ensures Early(rows, n, k) == Min(n, Rows(rows, k)) {
        var p := KeyIs(ACCOUNT_ID, k);
        FilterLength(p, rows);
        FilterLength(p, first);
        if |rows| <= n {
          assert first == rows;
        } else if n > 0 {
          assert forall r :: r in rows ==> IntOf(r, ACCOUNT_ID) == IntOf(rows[0], ACCOUNT_ID);
          assert forall r :: r in first ==> r in rows;
        }
      }
    } else {
      var k := Unfair(rows, n, ids);
      assert Early(rows, n, k) != Min(n, Rows(rows, k));
    }
  }

  /** A cut that leaves rows out, of more than one account, costs some account a row it would have found alone. */
  lemma {:induction false} Unfair(rows: seq<Row>, n: nat, ids: seq<int>) returns (k: int)
    requires OwnersIn(rows, ids) && 0 < n < |rows| && !OneOwner(rows)
    ensures k in ids && Early(rows, n, k) < Min(n, Rows(rows, k))
  {
    k := OwnerAt(rows, n, ids);
    FilterSubset(KeyIs(ACCOUNT_ID, k), rows, n);
    FilterLength(KeyIs(ACCOUNT_ID, k), rows[..n]);
    if Early(rows, n, k) == n {
      k := OtherUnfair(rows, n, ids, k);
    }
  }

  lemma {:induction false} OwnerAt(rows: seq<Row>, j: nat, ids: seq<int>) returns (k: int)
    requires OwnersIn(rows, ids) && j < |rows|
    ensures k in ids && KeyIs(ACCOUNT_ID, k)(rows[j])
  {
    assert rows[j] in rows;
    k := IntOf(rows[j], ACCOUNT_ID).value;
  }

  /** If the first n rows are all of account k, and not all rows are, another account finds none of its own there. */
  lemma {:induction false} OtherUnfair(rows: seq<Row>, n: nat, ids: seq<int>, k: int) returns (other: int)
    requires OwnersIn(rows, ids) && 0 < n < |rows| && !OneOwner(rows) && Early(rows, n, k) == n
    ensures other in ids && Early(rows, n, other) < Min(n, Rows(rows, other))
  {
    var p := KeyIs(ACCOUNT_ID, k);
    FilterLength(p, rows[..n]);
    forall x | 0 <= x < n ensures p(rows[x]) {
      assert rows[..n][x] == rows[x];
    }
    var j :| 0 <= j < |rows| && !p(rows[j]);
    other := OwnerAt(rows, j, ids);
    FilterSubset(KeyIs(ACCOUNT_ID, other), rows, j);
    NoneBefore(rows, n, k, other);
  }

  lemma {:induction false} NoneBefore(rows: seq<Row>, n: nat, k: int, other: int)
    requires n <= |rows| && k != other && forall x :: 0 <= x < n ==> KeyIs(ACCOUNT_ID, k)(rows[x])
    ensures Early(rows, n, other) == 0
  {
    FilterLength(KeyIs(ACCOUNT_ID, other), rows[..n]);
  }

  // ---------------------------------------------------------------- usage logs and account-group entries

  /** The rows the batch draws on, before its limit and offset. */
  function BatchRows(table: seq<Row>, q: LeafTree, ids: seq<int>): seq<Row> {
    Select(table, OwnedQuery(q, ids).preds, q.order)
  }

  /** Every account gets what its own query would have given it. */
  ghost predicate LoadsRight(table: seq<Row>, q: LeafTree, ids: seq<int>) {
    var lists := OwnedLists(table, Some(q), ids);
    lists.Some? && forall i :: 0 <= i < |ids| ==> lists.value[i] == NaiveOwned(table, Some(q), ids[i])
  }

  lemma {:induction false} WindowIn<T(!new)>(ctx: Context, s: seq<T>)
    ensures forall x :: x in Window(ctx, s) ==> x in s
  {
  }

  lemma {:induction false} WithFieldShows(q: LeafTree, row: Row)
    ensures IntOf(Project(q.WithField(ACCOUNT_ID).ctx.fields, row), ACCOUNT_ID) == IntOf(row, ACCOUNT_ID)
  {
  }

  /** The list of one account, batched and on its own. */
  lemma {:induction false} ListAt(table: seq<Row>, q: LeafTree, ids: seq<int>, i: nat)
    requires Distinct(ids) && i < |ids|
    ensures var rows := BatchRows(table, q, ids);
            var f, p := Shown(q.WithField(ACCOUNT_ID).ctx.fields), KeyIs(ACCOUNT_ID, ids[i]);
            var lists := OwnedLists(table, Some(q), ids);
            && OwnersIn(rows, ids) && lists.Some?
            && lists.value[i] == Map(f, Filter(p, Window(q.ctx, rows)))
            && NaiveOwned(table, Some(q), ids[i]) == Map(f, Window(q.ctx, Filter(p, rows)))
  {
    var asked := q.WithField(ACCOUNT_ID);
    var rows := BatchRows(table, q, ids);
    var f := Shown(asked.ctx.fields);
    SelectedHave(table, q.preds, q.order, ACCOUNT_ID, ids);
    WindowIn(q.ctx, rows);
    var some := Window(q.ctx, rows);
    forall r ensures IntOf(f(r), ACCOUNT_ID) == IntOf(r, ACCOUNT_ID) {
      WithFieldShows(q, r);
    }
    SameWindow(q, rows);
    SameWindow(q, Filter(KeyIs(ACCOUNT_ID, ids[i]), rows));
    assert LeafRows(table, OwnedQuery(q, ids)) == Map(f, some);
    assert forall j :: 0 <= j < |some| ==> some[j] in some;
    assert KnownKeys(RowKeys(Map(f, some), ACCOUNT_ID), ids);
    assert IsLast(ids, i);
    PickShown(f, some, ACCOUNT_ID, ids[i]);
    SelectLocal(table, q.preds, q.order, ACCOUNT_ID, ids, ids[i]);
  }

  lemma {:induction false} SameWindow<T>(q: LeafTree, s: seq<T>)
    ensures Window(q.WithField(ACCOUNT_ID).ctx, s) == Window(q.ctx, s)
  {
  }

  lemma {:induction false} MapLength<T, U>(f: T -> U, s: seq<T>, t: seq<T>)
    requires Map(f, s) == Map(f, t)
    ensures |s| == |t|
  {
    assert |Map(f, s)| == |s|;
  }

  lemma {:induction false} LimitAt(table: seq<Row>, q: LeafTree, ids: seq<int>, i: nat)
    requires Distinct(ids) && i < |ids| && q.ctx.limit.Some? && q.ctx.offset.None?
    ensures var rows, limit := BatchRows(table, q, ids), q.ctx.limit.value;
            && OwnersIn(rows, ids) && OwnedLists(table, Some(q), ids).Some?
            && (OwnedLists(table, Some(q), ids).value[i] == NaiveOwned(table, Some(q), ids[i])
                <==> Early(rows, limit, ids[i]) == Min(limit, Rows(rows, ids[i])))
  {
    ListAt(table, q, ids, i);
    var rows, limit, p := BatchRows(table, q, ids), q.ctx.limit.value, KeyIs(ACCOUNT_ID, ids[i]);
    FilterCut(p, rows, Min(limit, |rows|));
    assert rows[0..] == rows && Filter(p, rows)[0..] == Filter(p, rows);
    var batched, alone := Filter(p, rows[..Min(limit, |rows|)]), Filter(p, rows)[..Min(limit, Rows(rows, ids[i]))];
    assert Window(q.ctx, rows) == rows[..Min(limit, |rows|)] && Window(q.ctx, Filter(p, rows)) == alone;
    var f := Shown(q.WithField(ACCOUNT_ID).ctx.fields);
    if Map(f, batched) == Map(f, alone) { MapLength(f, batched, alone); }
  }

  lemma {:induction false} OffsetAt(table: seq<Row>, q: LeafTree, ids: seq<int>, i: nat)
    requires Distinct(ids) && i < |ids| && q.ctx.offset.Some? && q.ctx.limit.None?
    ensures var rows, offset := BatchRows(table, q, ids), q.ctx.offset.value;
            && OwnersIn(rows, ids) && OwnedLists(table, Some(q), ids).Some?
            && (OwnedLists(table, Some(q), ids).value[i] == NaiveOwned(table, Some(q), ids[i])
                <==> Early(rows, offset, ids[i]) == Min(offset, Rows(rows, ids[i])))
  {
    ListAt(table, q, ids, i);
    var rows, offset, p := BatchRows(table, q, ids), q.ctx.offset.value, KeyIs(ACCOUNT_ID, ids[i]);
    FilterCut(p, rows, Min(offset, |rows|));
    var batched, alone := Filter(p, rows[Min(offset, |rows|)..]), Filter(p, rows)[Min(offset, Rows(rows, ids[i]))..];
    assert Window(q.ctx, rows) == rows[Min(offset, |rows|)..] && Window(q.ctx, Filter(p, rows)) == alone;
    var f := Shown(q.WithField(ACCOUNT_ID).ctx.fields);
    if Map(f, batched) == Map(f, alone) { MapLength(f, batched, alone); }
  }

  lemma {:induction false} NobodyAsks(table: seq<Row>, q: LeafTree)
    ensures BatchRows(table, q, []) == []
  {
    var preds := OwnedQuery(q, []).preds;
    forall row ensures !Meets(preds)(row) {
      LastPred(q.preds, In(ACCOUNT_ID, []), row);
    }
    FilterLength(Meets(preds), table);
  }

  lemma {:induction false} NobodyLoads(table: seq<Row>, q: LeafTree)
    ensures OwnedLists(table, Some(q), []).Some?
  {
    NobodyAsks(table, q);
    SameWindow(q, BatchRows(table, q, []));
    assert Window(q.ctx, BatchRows(table, q, [])) == [];
    assert LeafRows(table, OwnedQuery(q, [])) == [];
  }

  /** With a limit on the edge query, every account gets its own rows exactly if the limit is zero, all the rows fit, or
      they all belong to one account. */
  lemma {:induction false} LimitExact(table: seq<Row>, q: LeafTree, ids: seq<int>)
    requires Distinct(ids) && q.ctx.limit.Some? && q.ctx.offset.None?
    ensures var rows := BatchRows(table, q, ids);
            LoadsRight(table, q, ids) <==>
              q.ctx.limit.value == 0 || |rows| <= q.ctx.limit.value || OneOwner(rows)
  {
    var rows, limit := BatchRows(table, q, ids), q.ctx.limit.value;
    SelectedHave(table, q.preds, q.order, ACCOUNT_ID, ids);
    CutIsFair(rows, limit, ids);
    if ids == [] {
      NobodyAsks(table, q);
      NobodyLoads(table, q);
    }
    forall i | 0 <= i < |ids|
      ensures OwnedLists(table, Some(q), ids).Some?
      ensures OwnedLists(table, Some(q), ids).value[i] == NaiveOwned(table, Some(q), ids[i])
          <==> Early(rows, limit, ids[i]) == Min(limit, Rows(rows, ids[i]))
    {
      LimitAt(table, q, ids, i);
    }
    assert ids != [] ==> ids[0] in ids;
  }

  /** With an offset: exactly if it is zero, it skips all the rows, or they all belong to one account. */
  lemma {:induction false} OffsetExact(table: seq<Row>, q: LeafTree, ids: seq<int>)
    requires Distinct(ids) && q.ctx.offset.Some? && q.ctx.limit.None?
    ensures var rows := BatchRows(table, q, ids);
            LoadsRight(table, q, ids) <==>
              q.ctx.offset.value == 0 || |rows| <= q.ctx.offset.value || OneOwner(rows)
  {
    var rows, offset := BatchRows(table, q, ids), q.ctx.offset.value;
    SelectedHave(table, q.preds, q.order, ACCOUNT_ID, ids);
    CutIsFair(rows, offset, ids);
    if ids == [] {
      NobodyAsks(table, q);
      NobodyLoads(table, q);
    }
    forall i | 0 <= i < |ids|
      ensures OwnedLists(table, Some(q), ids).Some?
      ensures OwnedLists(table, Some(q), ids).value[i] == NaiveOwned(table, Some(q), ids[i])
          <==> Early(rows, offset, ids[i]) == Min(offset, Rows(rows, ids[i]))
    {
      OffsetAt(table, q, ids, i);
    }
    assert ids != [] ==> ids[0] in ids;
  }

  // ---------------------------------------------------------------- a batch that loses a row

  /** A limit on an edge query caps the whole batch: with two owners of one row each and a limit of one, the second
      owner loses its row, although its own query would return it. */
  lemma {:induction false} LimitCapsBatch()
    ensures exists table, q, ids ::
      && OwnedLists(table, Some(q), ids).Some? && |ids| == 2 && Distinct(ids)
      && OwnedLists(table, Some(q), ids).value[1] == [] && |NaiveOwned(table, Some(q), ids[1])| == 1
  {
    var a: Row := map[ACCOUNT_ID := IntCell(1)];
    var b: Row := map[ACCOUNT_ID := IntCell(2)];
    var q := LeafTree(Context([], None, Some(1), None), [], [], [], []);
    OneLeft(a, b, q, In(ACCOUNT_ID, [1, 2]));
    OneLeft(a, b, q, In(ACCOUNT_ID, [2]));
    var nbs := LeafRows([a, b], OwnedQuery(q, [1, 2]));
    assert nbs == [a];
    assert RowKeys(nbs, ACCOUNT_ID) == [Some(1)];
    assert KnownKeys(RowKeys(nbs, ACCOUNT_ID), [1, 2]);
    PickOne(a, 2, 1);
    assert OwnedLists([a, b], Some(q), [1, 2]).value[1] == [];
    assert NaiveOwned([a, b], Some(q), 2) == [b];
  }

  lemma {:induction false} PickOne(a: Row, k: int, other: int)
    requires k != other
    ensures PickBy([Some(other)], [a], k) == []
  {
    assert [Some(other)][..0] == [] && [a][..0] == [];
  }

  /** Two rows, one predicate, a limit of one: the first row that meets the predicate. */
  lemma {:induction false} OneLeft(a: Row, b: Row, q: LeafTree, p: Pred)
    requires q.ctx == Context([], None, Some(1), None) && q.order == [] && q.preds == []
    ensures LeafRows([a, b], q.WithField(ACCOUNT_ID).Where(p))
            == if Holds(p, a) then [a] else if Holds(p, b) then [b] else []
  {
    var asked := q.WithField(ACCOUNT_ID).Where(p);
    assert asked.preds == [p];
    SelectTwo(a, b, [p]);
    var rows := Select([a, b], [p], []);
    assert AllHold([p], a) == Holds(p, a) && AllHold([p], b) == Holds(p, b) by {
      assert [p][0] == p;
    }
    assert Window(q.ctx, rows) == if rows == [] then [] else [rows[0]];
    assert forall s: seq<Row> :: Map(Shown([]), s) == s by {
      forall s: seq<Row> ensures Map(Shown([]), s) == s {
      }
    }
  }

  lemma {:induction false} SelectTwo(a: Row, b: Row, preds: seq<Pred>)
    ensures Select([a, b], preds, [])
            == (if AllHold(preds, a) then [a] else []) + (if AllHold(preds, b) then [b] else [])
  {
    var p := Meets(preds);
    FilterAppend(p, [a], [b]);
    assert [a, b] == [a] + [b];
    FilterOne(p, a);
    FilterOne(p, b);
    SortTwo(a, b);
  }

  lemma {:induction false} FilterOne(p: Row -> bool, a: Row)
    ensures Filter(p, [a]) == if p(a) then [a] else []
  {
    assert [a][1..] == [];
  }

  lemma {:induction false} SortTwo(a: Row, b: Row)
    ensures Sort([], [a] + [b]) == [a] + [b] && Sort([], [a]) == [a] && Sort([], [b]) == [b]
    ensures Sort<Row>([], []) == []
    ensures [a] + [] == [a] && [] + [b] == [b]
  {
    SortHead<Row>([], a, [b]);
    assert [b][1..] == [] && [a][1..] == [];
  }
}

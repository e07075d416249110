/** Shared sequence vocabulary: options, outcomes, stable ordering and the keyed selections
    that the eager-loading joins are described with. */
module Collections {

  datatype Option<+T> = None | Some(value: T)

  /** The result of an operation that may fail. */
  datatype Result<+T, +E> = Ok(value: T) | Err(error: E)

  function Filter<T(!new)>(p: T -> bool, s: seq<T>): (r: seq<T>)
    ensures forall x :: x in r <==> x in s && p(x)
  {
    if s == [] then []
    else (if p(s[0]) then [s[0]] else []) + Filter(p, s[1..])
  }

  function Map<T, U>(f: T -> U, s: seq<T>): (r: seq<U>)
    ensures |r| == |s|
    ensures forall i :: 0 <= i < |s| ==> r[i] == f(s[i])
  {
    if s == [] then [] else [f(s[0])] + Map(f, s[1..])
  }

  ghost predicate Distinct<T>(s: seq<T>) {
    forall i, j :: 0 <= i < j < |s| ==> s[i] != s[j]
  }

  lemma {:induction false} InCons<T(!new)>(x: T, s: seq<T>)
    ensures forall y :: y in [x] + s <==> y == x || y in s
    ensures forall i :: 0 < i <= |s| ==> ([x] + s)[i] == s[i - 1]
  {
  }

  lemma {:induction false} FilterAppend<T(!new)>(p: T -> bool, s: seq<T>, t: seq<T>)
    ensures Filter(p, s + t) == Filter(p, s) + Filter(p, t)
  {
    if s == [] {
      assert s + t == t;
    } else {
      assert (s + t)[1..] == s[1..] + t;
      FilterAppend(p, s[1..], t);
    }
  }

  lemma {:induction false} FilterFilter<T(!new)>(p: T -> bool, q: T -> bool, r: T -> bool, s: seq<T>)
    requires forall x :: x in s ==> (r(x) <==> p(x) && q(x))
    ensures Filter(p, Filter(q, s)) == Filter(r, s)
  {
    if s != [] {
      FilterFilter(p, q, r, s[1..]);
      FilterAppend(p, if q(s[0]) then [s[0]] else [], Filter(q, s[1..]));
    }
  }

  lemma {:induction false} FilterSame<T(!new)>(p: T -> bool, q: T -> bool, s: seq<T>)
    requires forall x :: x in s ==> (p(x) <==> q(x))
    ensures Filter(p, s) == Filter(q, s)
  {
    if s != [] { FilterSame(p, q, s[1..]); }
  }

  lemma {:induction false} FilterMap<T(!new), U(!new)>(f: T -> U, p: T -> bool, q: U -> bool, s: seq<T>)
    requires forall x :: x in s ==> (p(x) <==> q(f(x)))
    ensures Filter(q, Map(f, s)) == Map(f, Filter(p, s))
  {
    if s != [] {
      FilterMap(f, p, q, s[1..]);
      assert Map(f, s)[1..] == Map(f, s[1..]);
      if p(s[0]) {
        var rest := Filter(p, s[1..]);
        assert ([s[0]] + rest)[1..] == rest;
      }
    }
  }

  lemma {:induction false} FilterDistinct<T(!new)>(p: T -> bool, s: seq<T>)
    requires Distinct(s)
    ensures Distinct(Filter(p, s))
  {
    if s != [] { FilterDistinct(p, s[1..]); }
  }

  /** Apply f to every element; None as soon as one application fails. */
  function Traverse<T, U>(f: T -> Option<U>, s: seq<T>): (r: Option<seq<U>>)
    ensures r.Some? ==> |r.value| == |s| && forall i :: 0 <= i < |s| ==> f(s[i]) == Some(r.value[i])
    ensures r.None? ==> exists i :: 0 <= i < |s| && f(s[i]).None?
  {
    if s == [] then Some([])
    else match (f(s[0]), Traverse(f, s[1..]))
      case (Some(x), Some(rest)) => Some([x] + rest)
      case _ => None
  }

  lemma {:induction false} TraverseSame<T, U>(f: T -> Option<U>, g: T -> Option<U>, s: seq<T>)
    requires forall x :: x in s ==> f(x) == g(x)
    ensures Traverse(f, s) == Traverse(g, s)
  {
    if s != [] { TraverseSame(f, g, s[1..]); }
  }

  lemma {:induction false} TraverseFails<T, U>(f: T -> Option<U>, s: seq<T>, i: nat)
    requires i < |s| && f(s[i]).None?
    ensures Traverse(f, s).None?
  {
  }

  lemma {:induction false} TraverseAll<T, U>(f: T -> Option<U>, s: seq<T>, ts: seq<U>)
    requires |s| == |ts| && forall i :: 0 <= i < |s| ==> f(s[i]) == Some(ts[i])
    ensures Traverse(f, s) == Some(ts)
  {
    assert Traverse(f, s).Some?;
    assert Traverse(f, s).value == ts;
  }

  lemma {:induction false} TraverseNext<T, U>(f: T -> Option<U>, s: seq<T>, i: nat, ts: seq<U>, t: U)
    requires i < |s| && Traverse(f, s[..i]) == Some(ts) && f(s[i]) == Some(t)
    ensures Traverse(f, s[..i + 1]) == Some(ts + [t])
  {
    forall j | 0 <= j <= i ensures f(s[..i + 1][j]) == Some((ts + [t])[j]) {
      if j < i { assert s[..i][j] == s[j]; }
    }
    TraverseAll(f, s[..i + 1], ts + [t]);
  }

  // ---------------------------------------------------------------- stable ordering

  /** Lexicographic comparison by a list of integer sort keys. */
  predicate Before<T>(order: seq<T -> int>, a: T, b: T) {
    order == [] || order[0](a) < order[0](b)
    || (order[0](a) == order[0](b) && Before(order[1..], a, b))
  }

  lemma {:induction false} BeforeTotal<T(!new)>(order: seq<T -> int>, a: T, b: T)
    ensures Before(order, a, b) || Before(order, b, a)
  {
    if order != [] { BeforeTotal(order[1..], a, b); }
  }

  lemma {:induction false} BeforeTransitive<T(!new)>(order: seq<T -> int>, a: T, b: T, c: T)
    requires Before(order, a, b) && Before(order, b, c)
    ensures Before(order, a, c)
  {
    if order != [] && order[0](a) == order[0](b) == order[0](c) {
      BeforeTransitive(order[1..], a, b, c);
    }
  }

  ghost predicate Ordered<T>(order: seq<T -> int>, s: seq<T>) {
    forall i, j :: 0 <= i < j < |s| ==> Before(order, s[i], s[j])
  }

  function Insert<T(!new)>(order: seq<T -> int>, x: T, s: seq<T>): (r: seq<T>)
    ensures forall y :: y in r <==> y == x || y in s
  {
    if s == [] || Before(order, x, s[0]) then [x] + s
    else [s[0]] + Insert(order, x, s[1..])
  }

  /** Stable sort: rows that compare equal keep their table order. */
  function Sort<T(!new)>(order: seq<T -> int>, s: seq<T>): (r: seq<T>)
    ensures forall y :: y in r <==> y in s
  {
    if s == [] then [] else Insert(order, s[0], Sort(order, s[1..]))
  }

  lemma {:induction false} InsertOrdered<T(!new)>(order: seq<T -> int>, x: T, s: seq<T>)
    requires Ordered(order, s)
    ensures Ordered(order, Insert(order, x, s))
  {
    if s == [] {
    } else if Before(order, x, s[0]) {
      forall j | 0 <= j < |s| ensures Before(order, x, s[j]) {
        if j > 0 { BeforeTransitive(order, x, s[0], s[j]); }
      }
    } else {
      BeforeTotal(order, x, s[0]);
      InsertOrdered(order, x, s[1..]);
      var t := Insert(order, x, s[1..]);
      forall j | 0 <= j < |t| ensures Before(order, s[0], t[j]) {
        assert t[j] in t;
      }
    }
  }

  lemma {:induction false} SortOrdered<T(!new)>(order: seq<T -> int>, s: seq<T>)
    ensures Ordered(order, Sort(order, s))
  {
    if s != [] {
      SortOrdered(order, s[1..]);
      InsertOrdered(order, s[0], Sort(order, s[1..]));
    }
  }

  lemma {:induction false} FilterInsert<T(!new)>(p: T -> bool, order: seq<T -> int>, x: T, s: seq<T>)
    requires Ordered(order, s)
    ensures Filter(p, Insert(order, x, s))
            == if p(x) then Insert(order, x, Filter(p, s)) else Filter(p, s)
  {
    if s == [] {
    } else if Before(order, x, s[0]) {
      assert ([x] + s)[1..] == s;
      var f := Filter(p, s);
      if f != [] {
        assert f[0] in s;
        var k :| 0 <= k < |s| && s[k] == f[0];
        if k > 0 { BeforeTransitive(order, x, s[0], s[k]); }
      }
    } else {
      FilterInsert(p, order, x, s[1..]);
      var t := Insert(order, x, s[1..]);
      assert ([s[0]] + t)[1..] == t;
      if p(s[0]) {
        assert Filter(p, s)[1..] == Filter(p, s[1..]);
      } else if p(x) {
        assert Filter(p, s) == Filter(p, s[1..]);
      }
    }
  }

  /** Selecting rows and ordering them commute, because the order is stable. */
  lemma {:induction false} FilterSort<T(!new)>(p: T -> bool, order: seq<T -> int>, s: seq<T>)
    ensures Filter(p, Sort(order, s)) == Sort(order, Filter(p, s))
  {
    if s != [] {
      var x, rest, kept := s[0], Sort(order, s[1..]), Filter(p, s[1..]);
      FilterSort(p, order, s[1..]);
      assert Filter(p, Insert(order, x, rest))
          == if p(x) then Insert(order, x, Filter(p, rest)) else Filter(p, rest) by {
        SortOrdered(order, s[1..]);
        FilterInsert(p, order, x, rest);
      }
      assert Sort(order, [x] + kept) == Insert(order, x, Sort(order, kept)) by {
        SortHead(order, x, kept);
      }
      assert Filter(p, s) == if p(x) then [x] + kept else kept;
    }
  }

  lemma {:induction false} SortHead<T(!new)>(order: seq<T -> int>, x: T, s: seq<T>)
    ensures Sort(order, [x] + s) == Insert(order, x, Sort(order, s))
  {
    assert ([x] + s)[1..] == s;
  }

  lemma {:induction false} InsertDistinct<T(!new)>(order: seq<T -> int>, x: T, s: seq<T>)
    requires Distinct(s) && x !in s
    ensures Distinct(Insert(order, x, s))
  {
    if s != [] && !Before(order, x, s[0]) {
      InsertDistinct(order, x, s[1..]);
      var t := Insert(order, x, s[1..]);
      forall j | 0 <= j < |t| ensures t[j] != s[0] {
        assert t[j] in t;
      }
    }
  }

  lemma {:induction false} SortDistinct<T(!new)>(order: seq<T -> int>, s: seq<T>)
    requires Distinct(s)
    ensures Distinct(Sort(order, s))
  {
    if s != [] {
      SortDistinct(order, s[1..]);
      InsertDistinct(order, s[0], Sort(order, s[1..]));
    }
  }

  lemma {:induction false} MapAppend<T, U>(f: T -> U, s: seq<T>, t: seq<T>)
    ensures Map(f, s + t) == Map(f, s) + Map(f, t)
  {
    assert Map(f, s + t) == Map(f, s) + Map(f, t) by {
      assert |Map(f, s + t)| == |Map(f, s) + Map(f, t)|;
    }
  }

  // ---------------------------------------------------------------- keyed selections

  /** The values whose key is k, in order. */
  function PickBy<T>(keys: seq<Option<int>>, values: seq<T>, k: int): seq<T>
    requires |keys| == |values|
  {
    if keys == [] then []
    else
      var n := |keys| - 1;
      PickBy(keys[..n], values[..n], k) + if keys[n] == Some(k) then [values[n]] else []
  }

  /** The last value whose key is k: what repeated overwriting leaves. */
  function LastBy<T>(keys: seq<Option<int>>, values: seq<T>, k: int): Option<T>
    requires |keys| == |values|
  {
    LastOf(PickBy(keys, values, k))
  }

  function LastOf<T>(s: seq<T>): Option<T> {
    if s == [] then None else Some(s[|s| - 1])
  }

  lemma {:induction false} PickNext<T>(keys: seq<Option<int>>, values: seq<T>, k: int, i: nat)
    requires |keys| == |values| && i < |keys|
    ensures PickBy(keys[..i + 1], values[..i + 1], k)
            == PickBy(keys[..i], values[..i], k) + if keys[i] == Some(k) then [values[i]] else []
  {
    assert keys[..i + 1][..i] == keys[..i] && values[..i + 1][..i] == values[..i];
  }

  lemma {:induction false} PickFront<T>(keys: seq<Option<int>>, values: seq<T>, k: int)
    requires |keys| == |values| && keys != []
    ensures PickBy(keys, values, k)
            == (if keys[0] == Some(k) then [values[0]] else []) + PickBy(keys[1..], values[1..], k)
    decreases |keys|
  {
    var n := |keys| - 1;
    if n > 0 {
      PickFront(keys[..n], values[..n], k);
      assert keys[..n][1..] == keys[1..][..n - 1] && values[..n][1..] == values[1..][..n - 1];
    }
  }

  /** Restricting a traversal to the elements with one key picks the results of that key. */
  lemma {:induction false} PickTraverse<T(!new), U>(f: T -> Option<U>, key: T -> Option<int>, p: T -> bool, s: seq<T>,
                                                    k: int)
    requires forall x :: x in s ==> (p(x) <==> key(x) == Some(k))
    requires Traverse(f, s).Some?
    ensures Traverse(f, Filter(p, s)) == Some(PickBy(Map(key, s), Traverse(f, s).value, k))
    decreases |s|
  {
    if s != [] {
      var rest := Filter(p, s[1..]);
      var keys, values := Map(key, s), Traverse(f, s).value;
      assert keys[0] == key(s[0]) && keys[1..] == Map(key, s[1..]);
      assert Traverse(f, s[1..]).Some? && Traverse(f, s[1..]).value == values[1..];
      PickTraverse(f, key, p, s[1..], k);
      PickFront(keys, values, k);
      if p(s[0]) {
        TraverseCons(f, s[0], rest);
        assert Filter(p, s) == [s[0]] + rest;
      } else {
        assert Filter(p, s) == rest;
        assert PickBy(keys, values, k) == PickBy(keys[1..], values[1..], k);
      }
    }
  }

  lemma {:induction false} TraverseCons<T, U>(f: T -> Option<U>, x: T, s: seq<T>)
    requires f(x).Some? && Traverse(f, s).Some?
    ensures Traverse(f, [x] + s) == Some([f(x).value] + Traverse(f, s).value)
  {
    assert ([x] + s)[1..] == s;
  }

  /** Distinct non-nil keys in order of first appearance. */
  function FirstSeen(keys: seq<Option<int>>): (r: seq<int>)
    ensures forall k :: k in r <==> Some(k) in keys
    ensures Distinct(r)
  {
    if keys == [] then []
    else
      var n := |keys| - 1;
      var before := FirstSeen(keys[..n]);
      assert keys == keys[..n] + [keys[n]];
      if keys[n].None? || keys[n].value in before then before else before + [keys[n].value]
  }

  /** Position i holds the last copy of its id: the one an index by id keeps. */
  predicate IsLast(ids: seq<int>, i: nat)
    requires i < |ids|
  {
    forall j :: i < j < |ids| ==> ids[j] != ids[i]
  }

  /** Dealing keyed values out to the owners with those ids; a repeated id deals to its last copy only. */
  function Deal<T>(ids: seq<int>, keys: seq<Option<int>>, values: seq<T>): (r: seq<seq<T>>)
    requires |keys| == |values|
    ensures |r| == |ids|
    ensures forall i :: 0 <= i < |ids| ==> r[i] == if IsLast(ids, i) then PickBy(keys, values, ids[i]) else []
  {
    seq(|ids|, i requires 0 <= i < |ids| => if IsLast(ids, i) then PickBy(keys, values, ids[i]) else [])
  }

  function TotalLength<T>(lists: seq<seq<T>>): nat {
    if lists == [] then 0 else |lists[0]| + TotalLength(lists[1..])
  }

  /** Every value with a known key is dealt to exactly one owner: nothing is lost and nothing is duplicated. */
  lemma {:induction false} DealConserves<T>(ids: seq<int>, keys: seq<Option<int>>, values: seq<T>)
    requires |keys| == |values|
    requires forall i :: 0 <= i < |keys| ==> keys[i].Some? && keys[i].value in ids
    ensures TotalLength(Deal(ids, keys, values)) == |values|
  {
    DealCounts(ids, keys, values);
    CountAll(keys, ids);
  }

  function CountIn(keys: seq<Option<int>>, ids: seq<int>): nat {
    if keys == [] then 0
    else CountIn(keys[..|keys| - 1], ids) + if keys[|keys| - 1].Some? && keys[|keys| - 1].value in ids then 1 else 0
  }

  lemma {:induction false} CountAll(keys: seq<Option<int>>, ids: seq<int>)
    requires forall i :: 0 <= i < |keys| ==> keys[i].Some? && keys[i].value in ids
    ensures CountIn(keys, ids) == |keys|
  {
    if keys != [] { CountAll(keys[..|keys| - 1], ids); }
  }

  lemma {:induction false} DealCounts<T>(ids: seq<int>, keys: seq<Option<int>>, values: seq<T>)
    requires |keys| == |values|
    ensures TotalLength(Deal(ids, keys, values)) == CountIn(keys, ids)
    decreases |ids|
  {
    if ids == [] {
      CountNone(keys);
    } else {
      DealCounts(ids[1..], keys, values);
      DealTail(ids, keys, values);
      CountHead(keys, values, ids[0], ids[1..]);
      assert ids == [ids[0]] + ids[1..];
    }
  }

  lemma {:induction false} DealTail<T>(ids: seq<int>, keys: seq<Option<int>>, values: seq<T>)
    requires |keys| == |values| && ids != []
    ensures Deal(ids, keys, values)
            == [if ids[0] in ids[1..] then [] else PickBy(keys, values, ids[0])] + Deal(ids[1..], keys, values)
  {
    var rest := ids[1..];
    forall i | 0 <= i < |rest| ensures IsLast(rest, i) == IsLast(ids, i + 1) {
      LastShift(ids, i);
    }
    assert IsLast(ids, 0) == (ids[0] !in rest) by {
      assert forall j :: 0 < j < |ids| ==> ids[j] == rest[j - 1];
    }
  }

  lemma {:induction false} LastShift(ids: seq<int>, i: nat)
    requires i + 1 < |ids|
    ensures IsLast(ids[1..], i) == IsLast(ids, i + 1)
  {
    assert forall j :: i < j < |ids| - 1 ==> ids[1..][j] == ids[j + 1];
    assert forall j :: i + 1 < j < |ids| ==> ids[j] == ids[1..][j - 1];
  }

  lemma {:induction false} CountNone(keys: seq<Option<int>>)
    ensures CountIn(keys, []) == 0
  {
    if keys != [] { CountNone(keys[..|keys| - 1]); }
  }

  lemma {:induction false} CountHead<T>(keys: seq<Option<int>>, values: seq<T>, id: int, rest: seq<int>)
    requires |keys| == |values|
    ensures CountIn(keys, [id] + rest) == CountIn(keys, rest) + if id in rest then 0 else |PickBy(keys, values, id)|
    decreases |keys|
  {
    if keys != [] {
      var n := |keys| - 1;
      CountHead(keys[..n], values[..n], id, rest);
    }
  }
}

/** Order and repetition at the gate itself: in the exception file, and in the audit report. */
module AuditOrder {
  import opened Collections
  import opened AuditText
  import opened AuditReport
  import opened AuditGate

  // ---------------------------------------------------------------- permutations

  lemma {:induction false} Without<T>(x: T, t: seq<T>) returns (j: nat)
    requires x in multiset(t)
    ensures j < |t| && t[j] == x && multiset(t[..j] + t[j + 1..]) == multiset(t) - multiset{x}
  {
    j :| 0 <= j < |t| && t[j] == x;
    assert t == t[..j] + [x] + t[j + 1..];
  }

  lemma {:induction false} MapWithout<T, U>(f: T -> U, t: seq<T>, j: nat)
    requires j < |t|
    ensures multiset(Map(f, t)) == multiset(Map(f, t[..j] + t[j + 1..])) + multiset{f(t[j])}
  {
    var before, after := t[..j], t[j + 1..];
    assert t == before + ([t[j]] + after);
    MapAppend(f, before, [t[j]] + after);
    MapAppend(f, [t[j]], after);
    MapAppend(f, before, after);
    assert Map(f, [t[j]]) == [f(t[j])];
  }

  lemma {:induction false} MapPermuted<T, U>(f: T -> U, s: seq<T>, t: seq<T>)
    requires multiset(s) == multiset(t)
    ensures multiset(Map(f, s)) == multiset(Map(f, t))
  {
    assert |s| == |multiset(s)| && |t| == |multiset(t)|;
    if s != [] {
      assert s == [s[0]] + s[1..];
      assert s[0] in multiset(s);
      var j := Without(s[0], t);
      MapPermuted(f, s[1..], t[..j] + t[j + 1..]);
      MapWithout(f, t, j);
      MapWithout(f, s, 0);
      assert s[..0] + s[1..] == s[1..];
    }
  }

  // ---------------------------------------------------------------- the exception file

  function Reader(env: Env): Item -> Exception {
    (exc: Item) => Read(env, exc)
  }

  lemma {:induction false} ReadMaps(env: Env, excs: seq<Item>)
    ensures ReadAll(env, excs) == Map(Reader(env), excs)
  {
  }

  /** Two exception files with the same exceptions, in any order, make no difference. */
  lemma {:induction false} FileOrder(env: Env, lines: seq<string>, lines': seq<string>, audit: Json)
    requires Parse(lines).Some? && Parse(lines').Some?
    requires multiset(Parse(lines).value) == multiset(Parse(lines').value)
    ensures Accepts(env, lines, audit) <==> Accepts(env, lines', audit)
  {
    var xs, ys := Parse(lines).value, Parse(lines').value;
    ReadMaps(env, xs);
    ReadMaps(env, ys);
    MapPermuted(Reader(env), xs, ys);
    ExceptionOrder(ReadAll(env, xs), ReadAll(env, ys), env.today, JudgeAll(env, IterVulns(env, audit).vulns));
  }

  function ItemOf(): Pairs -> Item {
    (pairs: Pairs) => MapOf(pairs)
  }

  lemma {:induction false} MapsAre(items: seq<Pairs>)
    ensures Maps(items) == Map(ItemOf(), items)
  {
    if items != [] { MapsAre(items[1..]); }
  }

  /** Printing the same exceptions in another order does not change what the gate says. */
  lemma {:induction false} PrintedOrder(env: Env, items: seq<Pairs>, items': seq<Pairs>, audit: Json)
    requires multiset(items) == multiset(items') && forall i :: 0 <= i < |items| ==> Printable(items[i])
    ensures Accepts(env, Lines(Join(PrintItems(items))), audit) <==>
      Accepts(env, Lines(Join(PrintItems(items'))), audit)
  {
    forall i | 0 <= i < |items'| ensures Printable(items'[i]) {
      assert items'[i] in multiset(items');
      assert items'[i] in items;
    }
    ParsePrintText(items);
    ParsePrintText(items');
    MapsAre(items);
    MapsAre(items');
    MapPermuted(ItemOf(), items, items');
    FileOrder(env, Lines(Join(PrintItems(items))), Lines(Join(PrintItems(items'))), audit);
  }

  // ---------------------------------------------------------------- the report

  /** Both values are objects with the same entries, however ordered and repeated, or they are the same value. */
  ghost predicate EntriesAlike(a: Json, b: Json) {
    a == b || (a.Dict? && b.Dict? && forall e :: e in a.entries <==> e in b.entries)
  }

  /** Reports that differ only in how the entries of their two tables are ordered and repeated. */
  ghost predicate ReportsAlike(a: Json, b: Json) {
    a.Dict? && b.Dict?
    && EntriesAlike(Get(a.entries, "advisories"), Get(b.entries, "advisories"))
    && EntriesAlike(Get(a.entries, "vulnerabilities"), Get(b.entries, "vulnerabilities"))
  }

  /** A table is read to its end exactly if every entry can be read, and yields what its entries yield. */
  lemma {:induction false} EntriesYield(f: EntryYield, entries: seq<(string, Json)>)
    ensures FromEntries(f, entries).failure.None? <==> forall e :: e in entries ==> f(e.0, e.1).failure.None?
    ensures FromEntries(f, entries).failure.None? ==>
      forall v :: v in FromEntries(f, entries).vulns <==> exists e :: e in entries && v in f(e.0, e.1).vulns
  {
    if entries != [] {
      EntriesYield(f, entries[1..]);
      var first, rest := entries[0], entries[1..];
      assert entries == [first] + rest;
      assert forall e :: e in entries <==> e == first || e in rest;
    }
  }

  lemma {:induction false} EntriesSame(f: EntryYield, s: seq<(string, Json)>, t: seq<(string, Json)>)
    requires forall e :: e in s <==> e in t
    ensures FromEntries(f, s).failure.None? <==> FromEntries(f, t).failure.None?
    ensures FromEntries(f, s).failure.None? ==>
      forall v :: v in FromEntries(f, s).vulns <==> v in FromEntries(f, t).vulns
  {
    EntriesYield(f, s);
    EntriesYield(f, t);
  }

  lemma {:induction false} ReportsYield(env: Env, a: Json, b: Json)
    requires ReportsAlike(a, b)
    ensures IterVulns(env, a).failure.None? <==> IterVulns(env, b).failure.None?
    ensures IterVulns(env, a).failure.None? ==>
      forall v :: v in IterVulns(env, a).vulns <==> v in IterVulns(env, b).vulns
  {
    var a1, b1 := Get(a.entries, "advisories"), Get(b.entries, "advisories");
    var a2, b2 := Get(a.entries, "vulnerabilities"), Get(b.entries, "vulnerabilities");
    if a1.Dict? { EntriesSame(OneAdvisory(env), a1.entries, b1.entries); }
    if a2.Dict? { EntriesSame(OneVulnerability(), a2.entries, b2.entries); }
  }

  lemma {:induction false} JudgedSame(env: Env, vs: seq<Vuln>, ws: seq<Vuln>)
    requires forall v :: v in vs <==> v in ws
    ensures forall f :: f in JudgeAll(env, vs) <==> f in JudgeAll(env, ws)
  {
    Judged(env, vs);
    Judged(env, ws);
  }

  lemma {:induction false} Judged(env: Env, vs: seq<Vuln>)
    ensures forall f :: f in JudgeAll(env, vs) <==> exists v :: v in vs && f == Judge(env, v)
  {
    var fs := JudgeAll(env, vs);
    forall f | f in fs ensures exists v :: v in vs && f == Judge(env, v) {
      var i :| 0 <= i < |fs| && fs[i] == f;
      assert vs[i] in vs;
    }
    forall v | v in vs ensures Judge(env, v) in fs {
      var i :| 0 <= i < |vs| && vs[i] == v;
      assert fs[i] in fs;
    }
  }

  /** While no key is contested, reordering or repeating the entries of the report makes no difference. */
  lemma {:induction false} ReportOrder(env: Env, lines: seq<string>, a: Json, b: Json)
    requires ReportsAlike(a, b)
    requires Parse(lines).Some? ==>
      !Contested(IndexAll(ReadAll(env, Parse(lines).value)).index, JudgeAll(env, IterVulns(env, a).vulns))
    ensures Accepts(env, lines, a) <==> Accepts(env, lines, b)
  {
    ReportsYield(env, a, b);
    if Parse(lines).Some? && IterVulns(env, a).failure.None? {
      JudgedSame(env, IterVulns(env, a).vulns, IterVulns(env, b).vulns);
      FindingOrder(IndexAll(ReadAll(env, Parse(lines).value)).index, env.today,
                   JudgeAll(env, IterVulns(env, a).vulns), JudgeAll(env, IterVulns(env, b).vulns));
    }
  }
}

/** The audit gate: exceptions indexed by package and advisory, vulnerabilities scanned once per key. */
module AuditGate {
  import opened Collections
  import opened AuditText
  import opened AuditReport

  // ---------------------------------------------------------------- normalisation

  /** A missing or otherwise falsy severity is blank; a truthy one that is no string is an error. */
  function NormalizeSeverity(env: Env, severity: Json): Option<string> {
    if !Truthy(severity) then Some(env.lower(Strip("")))
    else if severity.Str? then Some(env.lower(Strip(severity.s)))
    else None
  }

  function NormalizePackage(env: Env, name: Json): string {
    if name.Null? then "" else Strip(Text(env, name))
  }

  function NormalizeAdvisory(env: Env, advisory: Json): string {
    if advisory.Null? then "" else env.lower(Strip(Text(env, advisory)))
  }

  /** A package and an advisory, both normalised. */
  type Key = (string, string)

  // ---------------------------------------------------------------- the index of exceptions

  datatype Entry = Entry(severity: string, expiresOn: int)

  datatype Problem = MissingFields | InvalidDate | BlankKey | Duplicate(key: Key)
                   | NoAdvisory | Mismatch(key: Key) | NoException(key: Key) | Expired(key: Key)

  function Field(exc: Item, name: string): string {
    if name in exc then exc[name] else ""
  }

  predicate HasFields(exc: Item) {
    && Field(exc, "package") != "" && Field(exc, "advisory") != "" && Field(exc, "severity") != ""
    && Field(exc, "mitigation") != "" && Field(exc, "expires_on") != ""
  }

  /** An exception on its own: unusable, or its key and what it allows. */
  datatype Exception = Bad(problem: Problem) | Good(key: Key, entry: Entry)

  function Read(env: Env, exc: Item): Exception {
    var key := (Strip(Field(exc, "package")), env.lower(Strip(Field(exc, "advisory"))));
    var date := env.date(Field(exc, "expires_on"));
    if !HasFields(exc) then Bad(MissingFields)
    else if date.None? then Bad(InvalidDate)
    else if key.0 == "" || key.1 == "" then Bad(BlankKey)
    else Good(key, Entry(env.lower(Strip(Field(exc, "severity"))), date.value))
  }

  function ReadAll(env: Env, excs: seq<Item>): (r: seq<Exception>)
    ensures |r| == |excs| && forall i :: 0 <= i < |excs| ==> r[i] == Read(env, excs[i])
  {
    seq(|excs|, i requires 0 <= i < |excs| => Read(env, excs[i]))
  }

  type Index = map<Key, Entry>

  datatype Indexing = Indexing(index: Index, errors: seq<Problem>)

  /** One exception more. */
  function IndexStep(s: Indexing, x: Exception): Indexing {
    match x
    case Bad(problem) => s.(errors := s.errors + [problem])
    case Good(key, entry) =>
      if key in s.index then s.(errors := s.errors + [Duplicate(key)]) else s.(index := s.index[key := entry])
  }

  function IndexAll(xs: seq<Exception>): Indexing {
    if xs == [] then Indexing(map[], []) else IndexStep(IndexAll(xs[..|xs| - 1]), xs[|xs| - 1])
  }

  method BuildIndex(env: Env, excs: seq<Item>) returns (index: Index, errors: seq<Problem>)
    ensures Indexing(index, errors) == IndexAll(ReadAll(env, excs))
  {
    index, errors := map[], [];
    ghost var xs := ReadAll(env, excs);
    for i := 0 to |excs|
      invariant Indexing(index, errors) == IndexAll(xs[..i])
    {
      assert xs[..i + 1][..i] == xs[..i];
      var exc := excs[i];
      if !HasFields(exc) {
        errors := errors + [MissingFields];
        continue;
      }
      var severity, package := env.lower(Strip(Field(exc, "severity"))), Strip(Field(exc, "package"));
      var advisory, date := env.lower(Strip(Field(exc, "advisory"))), env.date(Field(exc, "expires_on"));
      if date.None? {
        errors := errors + [InvalidDate];
        continue;
      }
      if package == "" || advisory == "" {
        errors := errors + [BlankKey];
        continue;
      }
      var key := (package, advisory);
      if key in index {
        errors := errors + [Duplicate(key)];
        continue;
      }
      index := index[key := Entry(severity, date.value)];
    }
    assert xs[..|excs|] == xs;
  }

  /** Every exception is usable, and no two have the same key. */
  ghost predicate Clean(xs: seq<Exception>) {
    && (forall x :: x in xs ==> x.Good?)
    && (forall i, j :: 0 <= i < j < |xs| && xs[i].Good? && xs[j].Good? ==> xs[i].key != xs[j].key)
  }

  /** The index is exactly the list, keyed. */
  ghost predicate Indexes(index: Index, xs: seq<Exception>) {
    forall k, e :: k in index && index[k] == e <==> Good(k, e) in xs
  }

  lemma {:induction false} CleanNext(front: seq<Exception>, last: Exception)
    ensures Clean(front + [last]) <==>
      Clean(front) && last.Good? && forall x :: x in front && x.Good? ==> x.key != last.key
  {
    var all := front + [last];
    assert forall i :: 0 <= i < |front| ==> all[i] == front[i];
    assert all[|front|] == last && last in all;
    assert forall x :: x in front ==> x in all;
    if Clean(all) {
      forall x | x in front ensures x.key != last.key {
        var i :| 0 <= i < |front| && front[i] == x;
        assert all[i].key != all[|front|].key;
      }
      forall i, j | 0 <= i < j < |front| ensures front[i].key != front[j].key {
        assert all[i].key != all[j].key;
      }
    }
  }

  /** The index is built without complaint exactly from a clean list, and then it is that list. */
  lemma {:induction false} IndexExact(xs: seq<Exception>)
    ensures IndexAll(xs).errors == [] <==> Clean(xs)
    ensures Clean(xs) ==> Indexes(IndexAll(xs).index, xs)
  {
    if xs != [] {
      var n := |xs| - 1;
      var front, last := xs[..n], xs[n];
      IndexExact(front);
      assert xs == front + [last];
      CleanNext(front, last);
      if Clean(front) && last.Good? {
        IndexNext(IndexAll(front).index, front, last);
      }
    }
  }

  lemma {:induction false} IndexNext(index: Index, front: seq<Exception>, last: Exception)
    requires Indexes(index, front) && last.Good?
    ensures last.key in index <==> exists x :: x in front && x.Good? && x.key == last.key
    ensures last.key !in index ==> Indexes(index[last.key := last.entry], front + [last])
  {
    if last.key in index {
      assert Good(last.key, index[last.key]) in front;
    }
    var next := index[last.key := last.entry];
    forall k, e | last.key !in index
      ensures k in next && next[k] == e <==> Good(k, e) in front + [last]
    {
      assert Good(k, e) in front + [last] <==> Good(k, e) in front || Good(k, e) == last;
    }
  }

  // ---------------------------------------------------------------- the scan

  /** A reported vulnerability on its own: an error, not concerned, without an advisory, or its key and severity. */
  datatype Finding = Broken | Ignored | Unnamed | Found(key: Key, severity: string)

  predicate HighSeverity(severity: string) {
    severity == "high" || severity == "critical"
  }

  function Judge(env: Env, v: Vuln): Finding {
    var severity := NormalizeSeverity(env, v.severity);
    if severity.None? then Broken
    else if !HighSeverity(severity.value) || !Truthy(v.name) then Ignored
    else if NormalizeAdvisory(env, v.advisory) == "" then Unnamed
    else Found((NormalizePackage(env, v.name), NormalizeAdvisory(env, v.advisory)), severity.value)
  }

  function JudgeAll(env: Env, vulns: seq<Vuln>): (r: seq<Finding>)
    ensures |r| == |vulns| && forall i :: 0 <= i < |vulns| ==> r[i] == Judge(env, vulns[i])
  {
    seq(|vulns|, i requires 0 <= i < |vulns| => Judge(env, vulns[i]))
  }

  /** The scan's variables; missing and expired are reported after the other errors. */
  datatype Scan = Scan(seen: set<Key>, errors: seq<Problem>, missing: seq<Key>, expired: seq<Key>)

  /** What one finding adds; None: the tool raises an error. */
  function ScanStep(index: Index, today: int, s: Scan, f: Finding): Option<Scan> {
    match f
    case Broken => None
    case Ignored => Some(s)
    case Unnamed => Some(s.(errors := s.errors + [NoAdvisory]))
    case Found(key, severity) =>
      if key in s.seen then Some(s)
      else
        var t := s.(seen := s.seen + {key});
        if key !in index then Some(t.(missing := t.missing + [key]))
        else
          var u := if index[key].severity != "" && index[key].severity != severity
                   then t.(errors := t.errors + [Mismatch(key)]) else t;
          Some(if index[key].expiresOn < today then u.(expired := u.expired + [key]) else u)
  }

  function ScanAll(index: Index, today: int, fs: seq<Finding>): Option<Scan> {
    if fs == [] then Some(Scan({}, [], [], []))
    else
      var s := ScanAll(index, today, fs[..|fs| - 1]);
      if s.None? then None else ScanStep(index, today, s.value, fs[|fs| - 1])
  }

  /** The loop over the reported vulnerabilities. */
  method ScanVulns(env: Env, index: Index, vulns: seq<Vuln>) returns (r: Option<Scan>)
    ensures r == ScanAll(index, env.today, JudgeAll(env, vulns))
  {
    var seen: set<Key>, errors: seq<Problem>, missing: seq<Key>, expired: seq<Key> := {}, [], [], [];
    ghost var fs := JudgeAll(env, vulns);
    for i := 0 to |vulns|
      invariant ScanAll(index, env.today, fs[..i]) == Some(Scan(seen, errors, missing, expired))
    {
      assert fs[..i + 1][..i] == fs[..i];
      var v := vulns[i];
      var sev := NormalizeSeverity(env, v.severity);
      if sev.None? {
        ScanStops(index, env.today, fs, i + 1);
        return None;
      }
      if !HighSeverity(sev.value) || !Truthy(v.name) {
        continue;
      }
      var advisory := NormalizeAdvisory(env, v.advisory);
      if advisory == "" {
        errors := errors + [NoAdvisory];
        continue;
      }
      var key := (NormalizePackage(env, v.name), advisory);
      if key in seen {
        continue;
      }
      seen := seen + {key};
      if key !in index {
        missing := missing + [key];
        continue;
      }
      if index[key].severity != "" && index[key].severity != sev.value {
        errors := errors + [Mismatch(key)];
      }
      if index[key].expiresOn < env.today {
        expired := expired + [key];
      }
    }
    assert fs[..|vulns|] == fs;
    r := Some(Scan(seen, errors, missing, expired));
  }

  lemma {:induction false} ScanStops(index: Index, today: int, fs: seq<Finding>, i: nat)
    requires i <= |fs| && ScanAll(index, today, fs[..i]).None?
    ensures ScanAll(index, today, fs).None?
    decreases |fs| - i
  {
    if i < |fs| {
      assert fs[..i + 1][..i] == fs[..i];
      ScanStops(index, today, fs, i + 1);
    } else {
      assert fs[..i] == fs;
    }
  }

  // ---------------------------------------------------------------- what passes

  /** Position i holds the first finding of its key. */
  ghost predicate FirstOf(fs: seq<Finding>, i: nat)
    requires i < |fs| && fs[i].Found?
  {
    forall j :: 0 <= j < i && fs[j].Found? ==> fs[j].key != fs[i].key
  }

  /** The key has an unexpired exception, with this severity or a blank one. */
  predicate Excused(index: Index, today: int, key: Key, severity: string) {
    key in index && index[key].expiresOn >= today && (index[key].severity == "" || index[key].severity == severity)
  }

  /** No finding is an error or without an advisory, and the first finding of every key is excused. */
  ghost predicate Passes(index: Index, today: int, fs: seq<Finding>) {
    && (forall f :: f in fs ==> !f.Broken? && !f.Unnamed?)
    && (forall i :: 0 <= i < |fs| && fs[i].Found? && FirstOf(fs, i) ==>
         Excused(index, today, fs[i].key, fs[i].severity))
  }

  ghost predicate NoProblem(s: Scan) {
    s.errors == [] && s.missing == [] && s.expired == []
  }

  ghost predicate SeenAre(s: Scan, fs: seq<Finding>) {
    forall k :: k in s.seen <==> exists i :: 0 <= i < |fs| && fs[i].Found? && fs[i].key == k
  }

  /** No earlier finding has this key. */
  ghost predicate Fresh(fs: seq<Finding>, key: Key) {
    forall i :: 0 <= i < |fs| && fs[i].Found? ==> fs[i].key != key
  }

  lemma {:induction false} FirstKept(front: seq<Finding>, last: Finding)
    ensures forall i :: 0 <= i < |front| && front[i].Found? ==> (FirstOf(front + [last], i) <==> FirstOf(front, i))
    ensures last.Found? ==> (FirstOf(front + [last], |front|) <==> Fresh(front, last.key))
  {
    var all := front + [last];
    assert forall i :: 0 <= i < |front| ==> all[i] == front[i];
    assert all[|front|] == last;
  }

  lemma {:induction false} PassesNext(index: Index, today: int, front: seq<Finding>, last: Finding)
    ensures Passes(index, today, front + [last]) <==>
      && Passes(index, today, front) && !last.Broken? && !last.Unnamed?
      && (last.Found? && Fresh(front, last.key) ==> Excused(index, today, last.key, last.severity))
  {
    var all, n := front + [last], |front|;
    FirstKept(front, last);
    assert forall i :: 0 <= i < n ==> all[i] == front[i];
    assert all[n] == last && last in all && forall f :: f in front ==> f in all;
    if Passes(index, today, all) {
      forall i | 0 <= i < n && front[i].Found? && FirstOf(front, i)
        ensures Excused(index, today, front[i].key, front[i].severity)
      {
        assert FirstOf(all, i) && all[i] == front[i];
      }
    }
  }

  /** The scan ends without any problem exactly if the findings pass. */
  lemma {:induction false} ScanExact(index: Index, today: int, fs: seq<Finding>)
    ensures var s := ScanAll(index, today, fs);
            && (s.Some? && NoProblem(s.value) <==> Passes(index, today, fs))
            && (s.Some? ==> SeenAre(s.value, fs))
  {
    if fs != [] {
      var n := |fs| - 1;
      var front, last := fs[..n], fs[n];
      ScanExact(index, today, front);
      assert fs == front + [last];
      PassesNext(index, today, front, last);
      SeenNext(index, today, front, last);
    }
  }

  lemma {:induction false} SeenNext(index: Index, today: int, front: seq<Finding>, last: Finding)
    requires var s := ScanAll(index, today, front); s.Some? ==> SeenAre(s.value, front)
    ensures var s := ScanAll(index, today, front);
            s.Some? ==>
              var t := ScanStep(index, today, s.value, last); t.Some? ==> SeenAre(t.value, front + [last])
  {
    var all := front + [last];
    assert forall i :: 0 <= i < |front| ==> all[i] == front[i];
    assert all[|front|] == last;
  }

  // ---------------------------------------------------------------- the whole gate

  /** The gate lets the report through: the exception file parses into clean exceptions, the report can be read, and its
      findings pass. */
  ghost predicate Accepts(env: Env, lines: seq<string>, audit: Json) {
    && Parse(lines).Some?
    && IterVulns(env, audit).failure.None?
    && AcceptsRead(ReadAll(env, Parse(lines).value), env.today, JudgeAll(env, IterVulns(env, audit).vulns))
  }

  ghost predicate AcceptsRead(xs: seq<Exception>, today: int, fs: seq<Finding>) {
    Clean(xs) && Passes(IndexAll(xs).index, today, fs)
  }

  /** The exit code: 0 exactly if the gate accepts; a reported problem and an uncaught error both give 1. */
  method Gate(env: Env, lines: seq<string>, audit: Json) returns (code: int)
    ensures code == 0 || code == 1
    ensures code == 0 <==> Accepts(env, lines, audit)
  {
    var exceptions := ParseExceptions(lines);
    if exceptions.None? {
      return 1;
    }
    var index, errors := BuildIndex(env, exceptions.value);
    IndexExact(ReadAll(env, exceptions.value));
    var report := Iterate(env, audit);
    var scan := ScanVulns(env, index, report.vulns);
    ScanExact(index, env.today, JudgeAll(env, report.vulns));
    if scan.None? || report.failure.Some? {
      return 1;
    }
    if |scan.value.missing| > 0 || |scan.value.expired| > 0 || |errors + scan.value.errors| > 0 {
      return 1;
    }
    code := 0;
  }

  // ---------------------------------------------------------------- order and repetition

  /** What an accepting gate guarantees, said without the index: every named high or critical vulnerability has an
      advisory, and the first finding of its key meets a listed exception that has not expired and whose severity is
      blank or the same. */
  lemma {:induction false} AcceptsMeans(xs: seq<Exception>, today: int, fs: seq<Finding>)
    ensures AcceptsRead(xs, today, fs) <==>
      && Clean(xs) && (forall f :: f in fs ==> !f.Broken? && !f.Unnamed?)
      && (forall i :: 0 <= i < |fs| && fs[i].Found? && FirstOf(fs, i) ==>
           exists e :: Good(fs[i].key, e) in xs && e.expiresOn >= today
                       && (e.severity == "" || e.severity == fs[i].severity))
  {
    IndexExact(xs);
    var index := IndexAll(xs).index;
    forall k, sev | Clean(xs)
      ensures Excused(index, today, k, sev) <==>
        exists e :: Good(k, e) in xs && e.expiresOn >= today && (e.severity == "" || e.severity == sev)
    {
      if Excused(index, today, k, sev) {
        assert Good(k, index[k]) in xs;
      }
    }
  }

  lemma {:induction false} TwiceIn<T>(s: seq<T>, x: T) returns (i: nat, j: nat)
    requires multiset(s)[x] >= 2
    ensures i < j < |s| && s[i] == x && s[j] == x
  {
    var n := |s| - 1;
    assert s == s[..n] + [s[n]];
    if s[n] == x {
      assert x in multiset(s[..n]);
      i :| 0 <= i < n && s[..n][i] == x;
      j := n;
    } else {
      i, j := TwiceIn(s[..n], x);
    }
  }

  lemma {:induction false} TwiceCounts<T>(s: seq<T>, i: nat, j: nat)
    requires i < j < |s| && s[i] == s[j]
    ensures multiset(s)[s[i]] >= 2
  {
    assert s == s[..j] + s[j..];
    assert s[..j][i] == s[i] && s[j..][0] == s[j];
    assert s[i] in multiset(s[..j]) && s[j] in multiset(s[j..]);
  }

  lemma {:induction false} CleanPermuted(xs: seq<Exception>, ys: seq<Exception>)
    requires multiset(xs) == multiset(ys) && Clean(xs)
    ensures Clean(ys)
  {
    forall y | y in ys ensures y.Good? {
      assert y in multiset(ys);
      assert y in xs;
    }
    forall i, j | 0 <= i < j < |ys| ensures ys[i].key != ys[j].key {
      assert ys[i] in multiset(ys) && ys[j] in multiset(ys);
      assert ys[i] in xs && ys[j] in xs;
      var a :| 0 <= a < |xs| && xs[a] == ys[i];
      var b :| 0 <= b < |xs| && xs[b] == ys[j];
      if ys[i] == ys[j] {
        TwiceCounts(ys, i, j);
        a, b := TwiceIn(xs, ys[i]);
      }
      assert xs[a].key != xs[b].key || a == b;
      assert a < b || b < a;
    }
  }

  /** Reordering the exception list changes nothing. */
  lemma {:induction false} ExceptionOrder(xs: seq<Exception>, ys: seq<Exception>, today: int, fs: seq<Finding>)
    requires multiset(xs) == multiset(ys)
    ensures AcceptsRead(xs, today, fs) <==> AcceptsRead(ys, today, fs)
  {
    if Clean(xs) || Clean(ys) {
      if Clean(xs) { CleanPermuted(xs, ys); } else { CleanPermuted(ys, xs); }
      IndexExact(xs);
      IndexExact(ys);
      forall x ensures x in xs <==> x in ys {
        assert x in xs <==> x in multiset(xs);
        assert x in ys <==> x in multiset(ys);
      }
      SameIndex(IndexAll(xs).index, IndexAll(ys).index, xs, ys);
    }
  }

  lemma {:induction false} SameIndex(a: Index, b: Index, xs: seq<Exception>, ys: seq<Exception>)
    requires Indexes(a, xs) && Indexes(b, ys) && forall x :: x in xs <==> x in ys
    ensures a == b
  {
    forall k ensures k in a <==> k in b {
      if k in a { assert Good(k, a[k]) in ys; }
      if k in b { assert Good(k, b[k]) in xs; }
    }
    forall k | k in a ensures a[k] == b[k] {
      assert Good(k, a[k]) in ys;
    }
  }

  /** Two findings of one key differ in severity although the key's exception names one. */
  ghost predicate Contested(index: Index, fs: seq<Finding>) {
    exists i, j :: 0 <= i < |fs| && 0 <= j < |fs| && fs[i].Found? && fs[j].Found? && fs[i].key == fs[j].key
                   && fs[i].severity != fs[j].severity && fs[i].key in index && index[fs[i].key].severity != ""
  }

  /** Every finding, not only the first of its key, is excused. */
  ghost predicate AllPass(index: Index, today: int, fs: seq<Finding>) {
    forall f :: f in fs ==> !f.Broken? && !f.Unnamed? && (f.Found? ==> Excused(index, today, f.key, f.severity))
  }

  lemma {:induction false} FirstFinding(fs: seq<Finding>, i: nat) returns (j: nat)
    requires i < |fs| && fs[i].Found?
    ensures j <= i && fs[j].Found? && fs[j].key == fs[i].key && FirstOf(fs, j)
  {
    j := i;
    if !FirstOf(fs, i) {
      var m :| 0 <= m < i && fs[m].Found? && fs[m].key == fs[i].key;
      j := FirstFinding(fs, m);
    }
  }

  lemma {:induction false} UncontestedPass(index: Index, today: int, fs: seq<Finding>)
    requires !Contested(index, fs)
    ensures Passes(index, today, fs) <==> AllPass(index, today, fs)
  {
    if Passes(index, today, fs) {
      forall f | f in fs && f.Found? ensures Excused(index, today, f.key, f.severity) {
        var i :| 0 <= i < |fs| && fs[i] == f;
        var j := FirstFinding(fs, i);
        assert Excused(index, today, fs[j].key, fs[j].severity);
      }
    }
    if AllPass(index, today, fs) {
      assert forall i :: 0 <= i < |fs| ==> fs[i] in fs;
    }
  }

  lemma {:induction false} ContestedIn(index: Index, fs: seq<Finding>, gs: seq<Finding>)
    requires Contested(index, gs) && forall f :: f in gs ==> f in fs
    ensures Contested(index, fs)
  {
    var i, j :| 0 <= i < |gs| && 0 <= j < |gs| && gs[i].Found? && gs[j].Found? && gs[i].key == gs[j].key
                && gs[i].severity != gs[j].severity && gs[i].key in index && index[gs[i].key].severity != "";
    assert gs[i] in fs && gs[j] in fs;
    var a :| 0 <= a < |fs| && fs[a] == gs[i];
    var b :| 0 <= b < |fs| && fs[b] == gs[j];
    assert fs[a].key == fs[b].key;
  }

  /** While no key is contested, the result depends only on which findings there are: neither their order nor how often
      they repeat matters. */
  lemma {:induction false} FindingOrder(index: Index, today: int, fs: seq<Finding>, gs: seq<Finding>)
    requires !Contested(index, fs) && forall f :: f in fs <==> f in gs
    ensures Passes(index, today, fs) <==> Passes(index, today, gs)
  {
    if Contested(index, gs) {
      ContestedIn(index, fs, gs);
    } else {
      UncontestedPass(index, today, fs);
      UncontestedPass(index, today, gs);
    }
  }

  /** Moving the m-th finding to the front. */
  function ToFront(fs: seq<Finding>, m: nat): seq<Finding>
    requires m < |fs|
  {
    [fs[m]] + (fs[..m] + fs[m + 1..])
  }

  lemma {:induction false} ToFrontPermutes(fs: seq<Finding>, m: nat)
    requires m < |fs|
    ensures multiset(ToFront(fs, m)) == multiset(fs)
  {
    assert fs == fs[..m] + ([fs[m]] + fs[m + 1..]);
  }

  /** A contested key makes some reordering of the findings fail. */
  lemma {:induction false} ContestedOrder(index: Index, today: int, fs: seq<Finding>) returns (m: nat)
    requires Contested(index, fs)
    ensures m < |fs| && multiset(ToFront(fs, m)) == multiset(fs) && !Passes(index, today, ToFront(fs, m))
  {
    var i, j :| 0 <= i < |fs| && 0 <= j < |fs| && fs[i].Found? && fs[j].Found? && fs[i].key == fs[j].key
                && fs[i].severity != fs[j].severity && fs[i].key in index && index[fs[i].key].severity != "";
    m := if fs[i].severity != index[fs[i].key].severity then i else j;
    ToFrontPermutes(fs, m);
    FailsFirst(index, today, ToFront(fs, m));
  }

  lemma {:induction false} FailsFirst(index: Index, today: int, gs: seq<Finding>)
    requires gs != [] && gs[0].Found? && !Excused(index, today, gs[0].key, gs[0].severity)
    ensures !Passes(index, today, gs)
  {
    assert FirstOf(gs, 0);
  }

  /** Some reordering of the findings passes and some other does not. */
  ghost predicate OrderMatters(index: Index, today: int, fs: seq<Finding>) {
    exists gs, hs :: multiset(gs) == multiset(fs) && multiset(hs) == multiset(fs)
                     && Passes(index, today, gs) && !Passes(index, today, hs)
  }

  /** Some finding of this key is excused. */
  ghost predicate HasFine(index: Index, today: int, fs: seq<Finding>, key: Key) {
    exists g :: g in fs && g.Found? && g.key == key && Excused(index, today, key, g.severity)
  }

  /** Some reordering can pass: nothing is broken or unnamed, and every key found has a finding that is excused. */
  ghost predicate CanPass(index: Index, today: int, fs: seq<Finding>) {
    forall f :: f in fs ==> !f.Broken? && !f.Unnamed? && (f.Found? ==> HasFine(index, today, fs, f.key))
  }

  function Fine(index: Index, today: int): Finding -> bool {
    (f: Finding) => f.Found? && Excused(index, today, f.key, f.severity)
  }

  function NotFine(index: Index, today: int): Finding -> bool {
    (f: Finding) => !Fine(index, today)(f)
  }

  /** The excused findings first. */
  function FineFirst(index: Index, today: int, fs: seq<Finding>): seq<Finding> {
    Filter(Fine(index, today), fs) + Filter(NotFine(index, today), fs)
  }

  lemma {:induction false} FineFirstPermutes(index: Index, today: int, fs: seq<Finding>)
    ensures multiset(FineFirst(index, today, fs)) == multiset(fs)
  {
    if fs != [] {
      FineFirstPermutes(index, today, fs[1..]);
      assert fs == [fs[0]] + fs[1..];
    }
  }

  lemma {:induction false} SameMembers(fs: seq<Finding>, gs: seq<Finding>)
    requires multiset(fs) == multiset(gs)
    ensures forall f :: f in fs <==> f in gs
  {
    forall f ensures f in fs <==> f in gs {
      assert f in fs <==> f in multiset(fs);
      assert f in gs <==> f in multiset(gs);
    }
  }

  /** If some finding of its key is in the first part, the first finding of a key is. */
  lemma {:induction false} FirstIsEarly(fine: seq<Finding>, rest: seq<Finding>, i: nat, j: nat)
    requires i < |fine + rest| && j < |fine| && (fine + rest)[i].Found? && fine[j].Found?
    requires FirstOf(fine + rest, i) && fine[j].key == (fine + rest)[i].key
    ensures i < |fine| && (fine + rest)[i] == fine[i]
  {
    assert (fine + rest)[j] == fine[j];
  }

  lemma {:induction false} FirstIsFine(index: Index, today: int, fs: seq<Finding>, i: nat)
    requires CanPass(index, today, fs)
    requires var gs := FineFirst(index, today, fs); i < |gs| && gs[i].Found? && gs[i] in fs && FirstOf(gs, i)
    ensures var f := FineFirst(index, today, fs)[i]; Excused(index, today, f.key, f.severity)
  {
    var fine, rest := Filter(Fine(index, today), fs), Filter(NotFine(index, today), fs);
    var f: Finding := (fine + rest)[i];
    assert HasFine(index, today, fs, f.key);
    var g: Finding :| g in fs && g.Found? && g.key == f.key && Excused(index, today, f.key, g.severity);
    assert Fine(index, today)(g);
    var j :| 0 <= j < |fine| && fine[j] == g;
    FirstIsEarly(fine, rest, i, j);
    assert fine[i] in fine;
  }

  lemma {:induction false} FineFirstPasses(index: Index, today: int, fs: seq<Finding>)
    requires CanPass(index, today, fs)
    ensures Passes(index, today, FineFirst(index, today, fs))
  {
    var gs := FineFirst(index, today, fs);
    FineFirstPermutes(index, today, fs);
    SameMembers(gs, fs);
    forall i | 0 <= i < |gs| && gs[i].Found? && FirstOf(gs, i)
      ensures Excused(index, today, gs[i].key, gs[i].severity)
    {
      FirstIsFine(index, today, fs, i);
    }
  }

  lemma {:induction false} PassingCanPass(index: Index, today: int, gs: seq<Finding>)
    requires Passes(index, today, gs)
    ensures CanPass(index, today, gs)
  {
    forall f | f in gs && f.Found? ensures HasFine(index, today, gs, f.key) {
      var i :| 0 <= i < |gs| && gs[i] == f;
      var j := FirstFinding(gs, i);
      assert gs[j] in gs && Excused(index, today, gs[j].key, gs[j].severity);
    }
  }

  /** The order of the findings matters exactly if a key is contested and some order can pass. */
  lemma {:induction false} OrderExact(index: Index, today: int, fs: seq<Finding>)
    ensures OrderMatters(index, today, fs) <==> Contested(index, fs) && CanPass(index, today, fs)
  {
    if OrderMatters(index, today, fs) {
      var gs, hs :| multiset(gs) == multiset(fs) && multiset(hs) == multiset(fs)
                    && Passes(index, today, gs) && !Passes(index, today, hs);
      SameMembers(fs, gs);
      SameMembers(fs, hs);
      PassingCanPass(index, today, gs);
      assert CanPass(index, today, fs);
      if !Contested(index, gs) {
        FindingOrder(index, today, gs, hs);
      }
      ContestedIn(index, fs, gs);
    }
    if Contested(index, fs) && CanPass(index, today, fs) {
      var gs := FineFirst(index, today, fs);
      FineFirstPermutes(index, today, fs);
      FineFirstPasses(index, today, fs);
      var m := ContestedOrder(index, today, fs);
      assert multiset(gs) == multiset(fs) && multiset(ToFront(fs, m)) == multiset(fs);
    }
  }

  /** A high and a critical finding of one advisory, excepted as high: the gate passes in one order only. */
  lemma {:induction false} OrderMattersHere(key: Key, today: int)
    ensures var index := map[key := Entry("high", today)];
            && Passes(index, today, [Found(key, "high"), Found(key, "critical")])
            && !Passes(index, today, [Found(key, "critical"), Found(key, "high")])
  {
    var index := map[key := Entry("high", today)];
    var fs, gs := [Found(key, "high"), Found(key, "critical")], [Found(key, "critical"), Found(key, "high")];
    assert "high" != "critical" by { assert "high"[0] != "critical"[0]; }
    assert Excused(index, today, fs[0].key, fs[0].severity);
    assert fs[0].key == fs[1].key && !FirstOf(fs, 1);
    FailsFirst(index, today, gs);
  }
}

/** What passing the gate means, said of the exception items and the reported vulnerabilities themselves. */
module AuditMeaning {
  import opened Collections
  import opened AuditText
  import opened AuditReport
  import opened AuditGate

  // ---------------------------------------------------------------- exceptions

  /** The text of a required field; a field that is not there counts as blank. */
  predicate HasText(exc: Item, name: string) {
    name in exc && exc[name] != ""
  }

  function PackageOf(exc: Item): string
    requires HasText(exc, "package")
  {
    Strip(exc["package"])
  }

  function AdvisoryOf(env: Env, exc: Item): string
    requires HasText(exc, "advisory")
  {
    env.lower(Strip(exc["advisory"]))
  }

  /** All five fields are there, the date can be read, and package and advisory are not blank. */
  predicate WellFormed(env: Env, exc: Item) {
    && HasText(exc, "package") && HasText(exc, "advisory") && HasText(exc, "severity")
    && HasText(exc, "mitigation") && HasText(exc, "expires_on")
    && env.date(exc["expires_on"]).Some? && PackageOf(exc) != "" && AdvisoryOf(env, exc) != ""
  }

  /** The exception names this package and advisory, has not expired, and names no severity or this one. */
  predicate Covers(env: Env, exc: Item, key: Key, severity: string) {
    && WellFormed(env, exc) && (PackageOf(exc), AdvisoryOf(env, exc)) == key
    && env.date(exc["expires_on"]).value >= env.today
    && (env.lower(Strip(exc["severity"])) == "" || env.lower(Strip(exc["severity"])) == severity)
  }

  ghost predicate GoodList(env: Env, excs: seq<Item>) {
    && (forall i :: 0 <= i < |excs| ==> WellFormed(env, excs[i]))
    && (forall i, j :: 0 <= i < j < |excs| && WellFormed(env, excs[i]) && WellFormed(env, excs[j]) ==>
         (PackageOf(excs[i]), AdvisoryOf(env, excs[i])) != (PackageOf(excs[j]), AdvisoryOf(env, excs[j])))
  }

  // ---------------------------------------------------------------- vulnerabilities

  /** A severity that is not blank must be a text. */
  predicate Legible(v: Vuln) {
    v.severity.Str? || !Truthy(v.severity)
  }

  /** The severity as it is compared: trimmed and lower-cased, blank if there is none. */
  function SeverityText(env: Env, v: Vuln): string {
    env.lower(Strip(if v.severity.Str? then v.severity.s else ""))
  }

  /** A named vulnerability of high or critical severity. */
  predicate Severe(env: Env, v: Vuln) {
    Legible(v) && Truthy(v.name) && (SeverityText(env, v) == "high" || SeverityText(env, v) == "critical")
  }

  /** The package and the advisory a vulnerability is matched by. */
  function NameOf(env: Env, v: Vuln): string {
    match v.name
    case Null => ""
    case Str(s) => Strip(s)
    case other => Strip(env.show(other))
  }

  function IdentifierOf(env: Env, v: Vuln): string {
    match v.advisory
    case Null => ""
    case Str(s) => env.lower(Strip(s))
    case other => env.lower(Strip(env.show(other)))
  }

  function KeyOf(env: Env, v: Vuln): Key {
    (NameOf(env, v), IdentifierOf(env, v))
  }

  /** The first severe vulnerability of its package and advisory. */
  ghost predicate FirstSevere(env: Env, vs: seq<Vuln>, i: nat)
    requires i < |vs|
  {
    Severe(env, vs[i]) && forall j :: 0 <= j < i && Severe(env, vs[j]) ==> KeyOf(env, vs[j]) != KeyOf(env, vs[i])
  }

  /** Some exception covers the key of vulnerability i, with the severity of the key's first severe vulnerability. */
  ghost predicate CoveredAt(env: Env, excs: seq<Item>, vs: seq<Vuln>, i: nat)
    requires i < |vs|
  {
    exists j: nat, x: nat ::
      j <= i && x < |excs| && FirstSevere(env, vs, j) && KeyOf(env, vs[j]) == KeyOf(env, vs[i])
      && Covers(env, excs[x], KeyOf(env, vs[i]), SeverityText(env, vs[j]))
  }

  /** Every severe vulnerability has an advisory and is covered. */
  ghost predicate AllCovered(env: Env, excs: seq<Item>, vs: seq<Vuln>) {
    forall i :: 0 <= i < |vs| && Severe(env, vs[i]) ==> IdentifierOf(env, vs[i]) != "" && CoveredAt(env, excs, vs, i)
  }

  // ---------------------------------------------------------------- the same as the gate's own words

  lemma {:induction false} ReadMeans(env: Env, exc: Item)
    ensures Read(env, exc).Good? <==> WellFormed(env, exc)
    ensures WellFormed(env, exc) ==>
      Read(env, exc) == Good((PackageOf(exc), AdvisoryOf(env, exc)),
                             Entry(env.lower(Strip(exc["severity"])), env.date(exc["expires_on"]).value))
  {
  }

  lemma {:induction false} CleanMeans(env: Env, excs: seq<Item>)
    ensures Clean(ReadAll(env, excs)) <==> GoodList(env, excs)
  {
    var xs := ReadAll(env, excs);
    forall i | 0 <= i < |excs|
      ensures xs[i].Good? <==> WellFormed(env, excs[i])
      ensures WellFormed(env, excs[i]) ==> xs[i].key == (PackageOf(excs[i]), AdvisoryOf(env, excs[i]))
    {
      ReadMeans(env, excs[i]);
    }
    if Clean(xs) {
      assert forall i :: 0 <= i < |excs| ==> xs[i] in xs;
    }
  }

  lemma {:induction false} JudgeMeans(env: Env, v: Vuln)
    ensures Judge(env, v).Broken? <==> !Legible(v)
    ensures Judge(env, v).Unnamed? || Judge(env, v).Found? <==> Severe(env, v)
    ensures Judge(env, v).Unnamed? <==> Severe(env, v) && IdentifierOf(env, v) == ""
    ensures Judge(env, v).Found? ==> Judge(env, v) == Found(KeyOf(env, v), SeverityText(env, v))
  {
  }

  lemma {:induction false} JudgedAt(env: Env, vs: seq<Vuln>, i: nat)
    requires i < |vs|
    ensures var f := JudgeAll(env, vs)[i];
            && (f.Broken? <==> !Legible(vs[i])) && (f.Unnamed? || f.Found? <==> Severe(env, vs[i]))
            && (f.Unnamed? <==> Severe(env, vs[i]) && IdentifierOf(env, vs[i]) == "")
            && (f.Found? ==> f == Found(KeyOf(env, vs[i]), SeverityText(env, vs[i])))
  {
    JudgeMeans(env, vs[i]);
  }

  /** With every severe vulnerability named, being first is the same on both sides. */
  lemma {:induction false} FirstMeans(env: Env, vs: seq<Vuln>, i: nat)
    requires i < |vs| && JudgeAll(env, vs)[i].Found?
    ensures FirstOf(JudgeAll(env, vs), i) <==> FirstSevere(env, vs, i)
  {
    var fs := JudgeAll(env, vs);
    JudgedAt(env, vs, i);
    forall j | 0 <= j < i
      ensures fs[j].Found? && fs[j].key == fs[i].key <==> Severe(env, vs[j]) && KeyOf(env, vs[j]) == KeyOf(env, vs[i])
    {
      JudgedAt(env, vs, j);
    }
  }

  /** Some listed exception lets this severity of this key pass. */
  ghost predicate Listed(env: Env, xs: seq<Exception>, key: Key, severity: string) {
    exists e :: Good(key, e) in xs && e.expiresOn >= env.today && (e.severity == "" || e.severity == severity)
  }

  lemma {:induction false} ListedMeans(env: Env, excs: seq<Item>, key: Key, severity: string)
    ensures Listed(env, ReadAll(env, excs), key, severity)
        <==> exists x: nat :: x < |excs| && Covers(env, excs[x], key, severity)
  {
    var xs := ReadAll(env, excs);
    if Listed(env, xs, key, severity) {
      var e :| Good(key, e) in xs && e.expiresOn >= env.today && (e.severity == "" || e.severity == severity);
      var x :| 0 <= x < |xs| && xs[x] == Good(key, e);
      ReadMeans(env, excs[x]);
      assert Covers(env, excs[x], key, severity);
    }
    if x: nat :| x < |excs| && Covers(env, excs[x], key, severity) {
      ReadMeans(env, excs[x]);
      assert xs[x] in xs;
      assert Good(key, xs[x].entry) in xs;
    }
  }

  /** The gate's condition on findings, one vulnerability at a time. */
  ghost predicate FirstsListed(env: Env, xs: seq<Exception>, fs: seq<Finding>) {
    && (forall f :: f in fs ==> !f.Broken? && !f.Unnamed?)
    && (forall i :: 0 <= i < |fs| && fs[i].Found? && FirstOf(fs, i) ==> Listed(env, xs, fs[i].key, fs[i].severity))
  }

  lemma {:induction false} CoveredIfListed(env: Env, excs: seq<Item>, vs: seq<Vuln>)
    requires FirstsListed(env, ReadAll(env, excs), JudgeAll(env, vs))
    ensures (forall v :: v in vs ==> Legible(v)) && AllCovered(env, excs, vs)
  {
    var xs, fs := ReadAll(env, excs), JudgeAll(env, vs);
    forall v | v in vs ensures Legible(v) {
      var i :| 0 <= i < |vs| && vs[i] == v;
      JudgedAt(env, vs, i);
      assert fs[i] in fs;
    }
    forall i | 0 <= i < |vs| && Severe(env, vs[i])
      ensures IdentifierOf(env, vs[i]) != "" && CoveredAt(env, excs, vs, i)
    {
      JudgedAt(env, vs, i);
      assert fs[i] in fs;
      var j := FirstFinding(fs, i);
      JudgedAt(env, vs, j);
      FirstMeans(env, vs, j);
      ListedMeans(env, excs, fs[j].key, fs[j].severity);
      assert Listed(env, xs, fs[j].key, fs[j].severity);
      var x: nat :| x < |excs| && Covers(env, excs[x], fs[j].key, fs[j].severity);
    }
  }

  lemma {:induction false} CoveredFirst(env: Env, excs: seq<Item>, vs: seq<Vuln>, i: nat)
    requires i < |vs| && FirstSevere(env, vs, i) && CoveredAt(env, excs, vs, i)
    ensures exists x: nat :: x < |excs| && Covers(env, excs[x], KeyOf(env, vs[i]), SeverityText(env, vs[i]))
  {
    var j: nat, x: nat :|
      j <= i && x < |excs| && FirstSevere(env, vs, j) && KeyOf(env, vs[j]) == KeyOf(env, vs[i])
      && Covers(env, excs[x], KeyOf(env, vs[i]), SeverityText(env, vs[j]));
    assert j == i;
  }

  lemma {:induction false} ListedIfCovered(env: Env, excs: seq<Item>, vs: seq<Vuln>)
    requires (forall v :: v in vs ==> Legible(v)) && AllCovered(env, excs, vs)
    ensures FirstsListed(env, ReadAll(env, excs), JudgeAll(env, vs))
  {
    var xs, fs := ReadAll(env, excs), JudgeAll(env, vs);
    forall f | f in fs ensures !f.Broken? && !f.Unnamed? {
      var i :| 0 <= i < |fs| && fs[i] == f;
      JudgedAt(env, vs, i);
      assert vs[i] in vs;
    }
    forall i | 0 <= i < |fs| && fs[i].Found? && FirstOf(fs, i) ensures Listed(env, xs, fs[i].key, fs[i].severity) {
      JudgedAt(env, vs, i);
      FirstMeans(env, vs, i);
      assert CoveredAt(env, excs, vs, i);
      CoveredFirst(env, excs, vs, i);
      ListedMeans(env, excs, fs[i].key, fs[i].severity);
    }
  }

  /** The gate lets a report through exactly if the exception file parses, its exceptions are well-formed with distinct
      keys, the report can be read, and every high or critical vulnerability with a name has an advisory and an
      unexpired exception, of no severity or that of the first such vulnerability of its key. */
  ghost predicate Clears(env: Env, lines: seq<string>, audit: Json) {
    && Parse(lines).Some? && GoodList(env, Parse(lines).value)
    && var report := IterVulns(env, audit);
       && report.failure.None? && (forall v :: v in report.vulns ==> Legible(v))
       && AllCovered(env, Parse(lines).value, report.vulns)
  }

  lemma {:induction false} AcceptsClears(env: Env, lines: seq<string>, audit: Json)
    ensures Accepts(env, lines, audit) <==> Clears(env, lines, audit)
  {
    if Parse(lines).Some? && IterVulns(env, audit).failure.None? {
      var excs, vs := Parse(lines).value, IterVulns(env, audit).vulns;
      CleanMeans(env, excs);
      AcceptsListed(env, ReadAll(env, excs), JudgeAll(env, vs));
      if FirstsListed(env, ReadAll(env, excs), JudgeAll(env, vs)) {
        CoveredIfListed(env, excs, vs);
      }
      if (forall v :: v in vs ==> Legible(v)) && AllCovered(env, excs, vs) {
        ListedIfCovered(env, excs, vs);
      }
    }
  }

  lemma {:induction false} AcceptsListed(env: Env, xs: seq<Exception>, fs: seq<Finding>)
    ensures AcceptsRead(xs, env.today, fs) <==> Clean(xs) && FirstsListed(env, xs, fs)
  {
    AcceptsMeans(xs, env.today, fs);
  }

  /** Running the tool: exit code 0 exactly for reports that are cleared, 1 for all others. */
  method RunGate(env: Env, lines: seq<string>, audit: Json) returns (code: int)
    ensures code == if Clears(env, lines, audit) then 0 else 1
  {
    code := Gate(env, lines, audit);
    AcceptsClears(env, lines, audit);
  }
}

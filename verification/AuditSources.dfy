/** Which field of a report entry becomes the name and the advisory of a vulnerability. */
module AuditSources {
  import opened Collections
  import opened AuditReport
  import opened AuditOrder

  /** The values that say nothing. */
  lemma {:induction false} Falsy(v: Json)
    ensures !Truthy(v) <==>
      v == Null || v == Bool(false) || v == Str("") || v == List([]) || v == Dict([]) || (v.Num? && v.zero)
  {
  }

  /** Looking a key up gives the value of its first entry, or nothing. */
  lemma {:induction false} GetMeans(entries: seq<(string, Json)>, key: string)
    ensures if exists i :: 0 <= i < |entries| && entries[i].0 == key
            then exists i :: 0 <= i < |entries| && entries[i] == (key, Get(entries, key))
                             && forall j :: 0 <= j < i ==> entries[j].0 != key
            else Get(entries, key) == Null
  {
    if entries != [] && entries[0].0 != key {
      GetMeans(entries[1..], key);
      assert forall i :: 0 < i < |entries| ==> entries[i] == entries[1..][i - 1];
      if i :| 0 <= i < |entries[1..]| && entries[1..][i] == (key, Get(entries[1..], key))
              && forall j :: 0 <= j < i ==> entries[1..][j].0 != key {
        assert entries[i + 1] == (key, Get(entries, key));
        assert forall j :: 0 <= j < i + 1 ==> entries[j].0 != key;
      }
    } else if entries != [] {
      assert entries[0] == (key, Get(entries, key));
    }
  }

  /** The first value that says something, or else the last one: a chain of "or". */
  function FirstTruthy(values: seq<Json>): Json
    requires values != []
  {
    if Truthy(values[0]) || |values| == 1 then values[0] else FirstTruthy(values[1..])
  }

  /** One step of the chain. */
  lemma {:induction false} Chain(a: Json, rest: seq<Json>)
    requires rest != []
    ensures FirstTruthy([a] + rest) == Or(a, FirstTruthy(rest))
  {
    assert ([a] + rest)[1..] == rest;
  }

  lemma {:induction false} Chain1(a: Json)
    ensures FirstTruthy([a]) == a
  {
  }

  // ---------------------------------------------------------------- advisories

  function CveOf(a: seq<(string, Json)>): Json {
    match Get(a, "cves")
    case List(items) => if items == [] then Null else items[0]
    case Str(s) => if s == "" then Null else Str(s[..1])
    case _ => Null
  }

  function NumberOf(env: Env, a: seq<(string, Json)>): Json {
    match Get(a, "id")
    case Null => Null
    case Str(s) => Str(s)
    case other => Str(env.show(other))
  }

  /** The "cves" value is looked at and has no first element to take. */
  predicate BadCves(a: seq<(string, Json)>) {
    && !Truthy(Get(a, "github_advisory_id")) && !Truthy(Get(a, "url")) && Truthy(Get(a, "cves"))
    && !Get(a, "cves").List? && !Get(a, "cves").Str?
  }

  /** The identifier of an advisory is the first of these seven that says something. */
  lemma {:induction false} AdvisoryIdMeans(env: Env, a: seq<(string, Json)>)
    ensures PickAdvisoryId(env, a).Err? <==> BadCves(a)
    ensures !BadCves(a) ==>
      PickAdvisoryId(env, a) == Ok(FirstTruthy([Get(a, "github_advisory_id"), Get(a, "url"), CveOf(a), NumberOf(env, a),
                                                Get(a, "title"), Get(a, "advisory"), Get(a, "overview")]))
  {
    var github, url, cve, number := Get(a, "github_advisory_id"), Get(a, "url"), CveOf(a), NumberOf(env, a);
    var title, advisory, overview := Get(a, "title"), Get(a, "advisory"), Get(a, "overview");
    ChainOfFive(cve, number, title, advisory, overview);
    Chain(url, [cve, number, title, advisory, overview]);
    Chain(github, [url, cve, number, title, advisory, overview]);
    assert [url] + [cve, number, title, advisory, overview] == [url, cve, number, title, advisory, overview];
    assert [github] + [url, cve, number, title, advisory, overview]
        == [github, url, cve, number, title, advisory, overview];
    PickChain(env, a);
  }

  lemma {:induction false} PickChain(env: Env, a: seq<(string, Json)>)
    ensures PickAdvisoryId(env, a).Err? <==> BadCves(a)
    ensures !BadCves(a) ==>
      PickAdvisoryId(env, a) ==
        Ok(Or(Get(a, "github_advisory_id"), Or(Get(a, "url"), Or(CveOf(a), Or(NumberOf(env, a),
           Or(Get(a, "title"), Or(Get(a, "advisory"), Get(a, "overview"))))))))
  {
  }

  lemma {:induction false} ChainOfFive(a: Json, b: Json, c: Json, d: Json, e: Json)
    ensures FirstTruthy([a, b, c, d, e]) == Or(a, Or(b, Or(c, Or(d, e))))
  {
    Chain1(e);
    Chain(d, [e]);
    Chain(c, [d, e]);
    Chain(b, [c, d, e]);
    Chain(a, [b, c, d, e]);
    assert [d] + [e] == [d, e] && [c] + [d, e] == [c, d, e];
    assert [b] + [c, d, e] == [b, c, d, e] && [a] + [b, c, d, e] == [a, b, c, d, e];
  }

  lemma {:induction false} ChainOfFour(a: Json, b: Json, c: Json, d: Json)
    ensures FirstTruthy([a, b, c, d]) == Or(a, Or(b, Or(c, d)))
  {
    Chain1(d);
    Chain(c, [d]);
    Chain(b, [c, d]);
    Chain(a, [b, c, d]);
    assert [c] + [d] == [c, d] && [b] + [c, d] == [b, c, d] && [a] + [b, c, d] == [a, b, c, d];
  }

  /** The vulnerability that an advisory is reported as. */
  lemma {:induction false} AdvisoryMeans(env: Env, a: seq<(string, Json)>)
    requires !BadCves(a)
    ensures AdvisoryYield(env, Dict(a)) ==
      Yield([Vuln(FirstTruthy([Get(a, "module_name"), Get(a, "name")]), Get(a, "severity"),
                  FirstTruthy([Get(a, "github_advisory_id"), Get(a, "url"), CveOf(a), NumberOf(env, a),
                               Get(a, "title"), Get(a, "advisory"), Get(a, "overview")]))], None)
  {
    AdvisoryIdMeans(env, a);
    Chain1(Get(a, "name"));
    Chain(Get(a, "module_name"), [Get(a, "name")]);
    assert [Get(a, "module_name")] + [Get(a, "name")] == [Get(a, "module_name"), Get(a, "name")];
  }

  // ---------------------------------------------------------------- vulnerabilities

  /** What one "via" entry names: the first of five fields of an object, or a text itself. */
  function Names(item: Json): Json {
    match item
    case Dict(e) =>
      FirstTruthy([Get(e, "github_advisory_id"), Get(e, "url"), Get(e, "source"), Get(e, "title"), Get(e, "name")])
    case Str(s) => Str(s)
    case _ => Null
  }

  lemma {:induction false} NamesAre(item: Json)
    ensures ViaId(item) == Names(item)
  {
    if item.Dict? {
      var e := item.entries;
      ChainOfFive(Get(e, "github_advisory_id"), Get(e, "url"), Get(e, "source"), Get(e, "title"), Get(e, "name"));
    }
  }

  /** The entries of "via", or the one entry that a text is. */
  function Via(e: seq<(string, Json)>): seq<Json> {
    match Get(e, "via")
    case List(items) => items
    case Str(s) => [Str(s)]
    case _ => []
  }

  lemma {:induction false} VulnsAt(name: Json, severity: Json, ids: seq<Json>)
    ensures |VulnsOf(name, severity, ids)| == |ids|
    ensures forall k :: 0 <= k < |ids| ==> VulnsOf(name, severity, ids)[k] == Vuln(name, severity, ids[k])
  {
    if ids != [] { VulnsAt(name, severity, ids[1..]); }
  }

  /** A package that can be read yields, in order, one vulnerability for every entry that names something. */
  lemma {:induction false} PackageMeans(name: string, e: seq<(string, Json)>)
    requires VulnerabilityYield(name, Dict(e)).failure.None?
    ensures var vulns, ids := VulnerabilityYield(name, Dict(e)).vulns, Filter(Says(), Map(Names, Via(e)));
            |vulns| == |ids| && forall k :: 0 <= k < |ids| ==> vulns[k] == Vuln(Str(name), Get(e, "severity"), ids[k])
  {
    assert ViaItems(Get(e, "via")) == Via(e);
    forall i | 0 <= i < |Via(e)| ensures Map(Identifier(), Via(e))[i] == Map(Names, Via(e))[i] {
      NamesAre(Via(e)[i]);
    }
    assert Map(Identifier(), Via(e)) == Map(Names, Via(e));
    VulnsAt(Str(name), Get(e, "severity"), ViaIds(Via(e)));
  }

  /** A title that is no text makes the whole package unreadable. */
  predicate BadTitle(item: Json) {
    item.Dict? &&
    var title := FirstTruthy([Get(item.entries, "title"), Get(item.entries, "url"), Get(item.entries, "advisory"),
                              Get(item.entries, "source")]);
    Truthy(title) && !title.Str?
  }

  lemma {:induction false} PackageFails(name: string, e: seq<(string, Json)>)
    ensures VulnerabilityYield(name, Dict(e)).failure.Some? <==> exists i :: 0 <= i < |Via(e)| && BadTitle(Via(e)[i])
    ensures VulnerabilityYield(name, Dict(e)).failure.Some? ==> VulnerabilityYield(name, Dict(e)).vulns == []
  {
    assert ViaItems(Get(e, "via")) == Via(e);
    forall i | 0 <= i < |Via(e)| && Via(e)[i].Dict?
      ensures BadTitle(Via(e)[i]) <==>
        var t := Or(Get(Via(e)[i].entries, "title"), Or(Get(Via(e)[i].entries, "url"),
                 Or(Get(Via(e)[i].entries, "advisory"), Get(Via(e)[i].entries, "source"))));
        Truthy(t) && !t.Str?
    {
      var f := Via(e)[i].entries;
      ChainOfFour(Get(f, "title"), Get(f, "url"), Get(f, "advisory"), Get(f, "source"));
    }
  }

  // ---------------------------------------------------------------- the report

  /** The entries of a table of the report; nothing if there is no such table. */
  function Table(data: seq<(string, Json)>, name: string): seq<(string, Json)> {
    match Get(data, name)
    case Dict(entries) => entries
    case _ => []
  }

  /** A report can be read exactly if every entry of its two tables can, and then it yields what they yield. */
  lemma {:induction false} ReportMeans(env: Env, data: seq<(string, Json)>)
    ensures IterVulns(env, Dict(data)).failure.None? <==>
      && (forall e :: e in Table(data, "advisories") ==> AdvisoryYield(env, e.1).failure.None?)
      && (forall e :: e in Table(data, "vulnerabilities") ==> VulnerabilityYield(e.0, e.1).failure.None?)
    ensures IterVulns(env, Dict(data)).failure.None? ==>
      forall v :: v in IterVulns(env, Dict(data)).vulns <==>
        || (exists e :: e in Table(data, "advisories") && v in AdvisoryYield(env, e.1).vulns)
        || (exists e :: e in Table(data, "vulnerabilities") && v in VulnerabilityYield(e.0, e.1).vulns)
  {
    EntriesYield(OneAdvisory(env), Table(data, "advisories"));
    EntriesYield(OneVulnerability(), Table(data, "vulnerabilities"));
  }
}

/** The audit report: JSON, and the vulnerabilities that either of its formats yields. */
module AuditReport {
  import opened Collections

  // ---------------------------------------------------------------- JSON and what the tool does with it

  datatype Json = Null | Bool(b: bool) | Num(zero: bool, text: string) | Str(s: string)
                | List(items: seq<Json>) | Dict(entries: seq<(string, Json)>)

  /** Library calls whose code is not part of the tool: lower-casing, str() of anything but a string, and the date
      parser, whose results are ordered like the dates. */
  datatype Env = Env(lower: string -> string, show: Json -> string, date: string -> Option<int>, today: int)

  datatype PyError = AttributeError | TypeError | KeyError | ValueError

  predicate Truthy(v: Json) {
    match v
    case Null => false
    case Bool(b) => b
    case Num(zero, _) => !zero
    case Str(s) => s != ""
    case List(items) => items != []
    case Dict(entries) => entries != []
  }

  /** dict.get: Null stands for None. */
  function Get(entries: seq<(string, Json)>, key: string): Json {
    if entries == [] then Null
    else if entries[0].0 == key then entries[0].1
    else Get(entries[1..], key)
  }

  function Or(a: Json, b: Json): Json {
    if Truthy(a) then a else b
  }

  function Text(env: Env, v: Json): string {
    if v.Str? then v.s else env.show(v)
  }

  /** The first element of a non-empty "cves" value, which may be of any type. */
  function FirstCve(cves: Json): Result<Json, PyError> {
    if !Truthy(cves) then Ok(Null)
    else match cves
      case List(items) => Ok(if items == [] then Null else items[0])
      case Str(s) => Ok(if s == "" then Null else Str(s[..1]))
      case Dict(_) => Err(KeyError)
      case _ => Err(TypeError)
  }

  /** The identifier an advisory is matched by: the first of its identifying fields that says something. */
  function PickAdvisoryId(env: Env, a: seq<(string, Json)>): Result<Json, PyError> {
    if Truthy(Get(a, "github_advisory_id")) then Ok(Get(a, "github_advisory_id"))
    else if Truthy(Get(a, "url")) then Ok(Get(a, "url"))
    else
      var cve := FirstCve(Get(a, "cves"));
      if cve.Err? || Truthy(cve.value) then cve
      else if !Get(a, "id").Null? && Text(env, Get(a, "id")) != "" then Ok(Str(Text(env, Get(a, "id"))))
      else Ok(Or(Get(a, "title"), Or(Get(a, "advisory"), Get(a, "overview"))))
  }

  /** What the report yields for one vulnerability; its title only labels messages. */
  datatype Vuln = Vuln(name: Json, severity: Json, advisory: Json)

  /** What a generator yields, and the error that ends it, if any. */
  datatype Yield = Yield(vulns: seq<Vuln>, failure: Option<PyError>) {
    /** What follows is only reached if nothing failed. */
    function Then(next: Yield): Yield {
      if failure.Some? then this else Yield(vulns + next.vulns, next.failure)
    }
  }

  function AdvisoryVuln(env: Env, v: Json): Result<Vuln, PyError> {
    if !v.Dict? then Err(AttributeError)
    else
      var id := PickAdvisoryId(env, v.entries);
      if id.Err? then Err(id.error)
      else Ok(Vuln(Or(Get(v.entries, "module_name"), Get(v.entries, "name")), Get(v.entries, "severity"), id.value))
  }

  type EntryYield = (string, Json) -> Yield

  /** What the entries of an object yield, one after the other, until one fails. */
  function FromEntries(f: EntryYield, entries: seq<(string, Json)>): Yield {
    if entries == [] then Yield([], None)
    else f(entries[0].0, entries[0].1).Then(FromEntries(f, entries[1..]))
  }

  function OneAdvisory(env: Env): EntryYield {
    (_, v: Json) => AdvisoryYield(env, v)
  }

  function AdvisoryYield(env: Env, v: Json): Yield {
    var vuln := AdvisoryVuln(env, v);
    if vuln.Err? then Yield([], Some(vuln.error)) else Yield([vuln.value], None)
  }

  /** The identifiers of the "via" entries, with those that say nothing left out. */
  function ViaIds(items: seq<Json>): seq<Json> {
    Filter(Says(), Map(Identifier(), items))
  }

  function Says(): Json -> bool {
    (v: Json) => Truthy(v)
  }

  function Identifier(): Json -> Json {
    (v: Json) => ViaId(v)
  }

  function ViaId(item: Json): Json {
    match item
    case Dict(e) =>
      Or(Get(e, "github_advisory_id"), Or(Get(e, "url"), Or(Get(e, "source"), Or(Get(e, "title"), Get(e, "name")))))
    case Str(_) => item
    case _ => Null
  }

  /** Joining the titles fails on one that says something but is no string. */
  predicate TitlesJoin(items: seq<Json>) {
    forall i :: 0 <= i < |items| && items[i].Dict? ==>
      var e := items[i].entries;
      var t := Or(Get(e, "title"), Or(Get(e, "url"), Or(Get(e, "advisory"), Get(e, "source"))));
      Truthy(t) ==> t.Str?
  }

  /** The "via" value as a list: a string counts as its only element, anything else as nothing. */
  function ViaItems(via: Json): seq<Json> {
    match via
    case List(items) => items
    case Str(_) => [via]
    case _ => []
  }

  function VulnsOf(name: Json, severity: Json, ids: seq<Json>): seq<Vuln> {
    if ids == [] then [] else [Vuln(name, severity, ids[0])] + VulnsOf(name, severity, ids[1..])
  }

  function OneVulnerability(): EntryYield {
    (name: string, v: Json) => VulnerabilityYield(name, v)
  }

  function VulnerabilityYield(name: string, v: Json): Yield {
    if !v.Dict? then Yield([], Some(AttributeError))
    else if !TitlesJoin(ViaItems(Get(v.entries, "via"))) then Yield([], Some(TypeError))
    else Yield(VulnsOf(Str(name), Get(v.entries, "severity"), ViaIds(ViaItems(Get(v.entries, "via")))), None)
  }

  /** The vulnerabilities of either report format, in report order. */
  function IterVulns(env: Env, data: Json): Yield {
    if !data.Dict? then Yield([], Some(AttributeError))
    else
      var advisories, vulnerabilities := Get(data.entries, "advisories"), Get(data.entries, "vulnerabilities");
      var first := if advisories.Dict? then FromEntries(OneAdvisory(env), advisories.entries) else Yield([], None);
      if first.failure.Some? then first
      else
        var second :=
          if vulnerabilities.Dict? then FromEntries(OneVulnerability(), vulnerabilities.entries) else Yield([], None);
        Yield(first.vulns + second.vulns, second.failure)
  }

  // ---------------------------------------------------------------- the generator's loops

  lemma {:induction false} EntriesAppend(f: EntryYield, a: seq<(string, Json)>, b: seq<(string, Json)>)
    ensures FromEntries(f, a + b) == FromEntries(f, a).Then(FromEntries(f, b))
  {
    if a == [] {
      assert a + b == b;
    } else {
      assert (a + b)[1..] == a[1..] + b;
      EntriesAppend(f, a[1..], b);
    }
  }

  /** One entry more, after entries that did not fail. */
  lemma {:induction false} EntriesNext(f: EntryYield, entries: seq<(string, Json)>, i: nat)
    requires i < |entries| && FromEntries(f, entries[..i]).failure.None?
    ensures var before, one := FromEntries(f, entries[..i]), f(entries[i].0, entries[i].1);
            && FromEntries(f, entries[..i + 1]) == Yield(before.vulns + one.vulns, one.failure)
            && (one.failure.Some? ==> FromEntries(f, entries) == Yield(before.vulns + one.vulns, one.failure))
  {
    var one := f(entries[i].0, entries[i].1);
    assert entries[..i + 1] == entries[..i] + [entries[i]];
    EntriesAppend(f, entries[..i], [entries[i]]);
    assert [entries[i]][1..] == [];
    assert FromEntries(f, [entries[i]]) == one.Then(Yield([], None));
    assert one.vulns + [] == one.vulns;
    EntriesAppend(f, entries[..i + 1], entries[i + 1..]);
    assert entries == entries[..i + 1] + entries[i + 1..];
  }

  lemma {:induction false} ViaNext(items: seq<Json>, i: nat)
    requires i < |items|
    ensures ViaIds(items[..i + 1]) == ViaIds(items[..i]) + if Truthy(ViaId(items[i])) then [ViaId(items[i])] else []
  {
    assert items[..i + 1] == items[..i] + [items[i]];
    MapAppend(Identifier(), items[..i], [items[i]]);
    FilterAppend(Says(), Map(Identifier(), items[..i]), Map(Identifier(), [items[i]]));
    assert Map(Identifier(), [items[i]]) == [ViaId(items[i])];
  }

  lemma {:induction false} VulnsAppend(name: Json, severity: Json, a: seq<Json>, b: seq<Json>)
    ensures VulnsOf(name, severity, a + b) == VulnsOf(name, severity, a) + VulnsOf(name, severity, b)
  {
    if a == [] {
      assert a + b == b;
    } else {
      assert (a + b)[1..] == a[1..] + b;
      VulnsAppend(name, severity, a[1..], b);
    }
  }

  /** The advisory format, one entry at a time. */
  method IterateAdvisories(env: Env, entries: seq<(string, Json)>) returns (y: Yield)
    ensures y == FromEntries(OneAdvisory(env), entries)
  {
    var vulns: seq<Vuln> := [];
    for i := 0 to |entries|
      invariant FromEntries(OneAdvisory(env), entries[..i]) == Yield(vulns, None)
    {
      EntriesNext(OneAdvisory(env), entries, i);
      var v := AdvisoryVuln(env, entries[i].1);
      if v.Err? {
        return Yield(vulns + [], Some(v.error));
      }
      vulns := vulns + [v.value];
    }
    assert entries[..|entries|] == entries;
    y := Yield(vulns, None);
  }

  /** Collects the identifiers and titles of the "via" entries; the titles cannot be joined if one is no string. */
  method CollectVia(items: seq<Json>) returns (ids: seq<Json>, joins: bool)
    ensures ids == ViaIds(items) && joins == TitlesJoin(items)
  {
    ids, joins := [], true;
    for i := 0 to |items|
      invariant ids == ViaIds(items[..i]) && joins == TitlesJoin(items[..i])
    {
      ViaNext(items, i);
      var id := ViaId(items[i]);
      if Truthy(id) {
        ids := ids + [id];
      }
      if items[i].Dict? {
        var e := items[i].entries;
        var t := Or(Get(e, "title"), Or(Get(e, "url"), Or(Get(e, "advisory"), Get(e, "source"))));
        joins := joins && (!Truthy(t) || t.Str?);
      }
    }
    assert items[..|items|] == items;
  }

  /** The vulnerability format: one entry per package, one finding per identifier. */
  method IterateVulnerabilities(entries: seq<(string, Json)>) returns (y: Yield)
    ensures y == FromEntries(OneVulnerability(), entries)
  {
    var vulns: seq<Vuln> := [];
    for i := 0 to |entries|
      invariant FromEntries(OneVulnerability(), entries[..i]) == Yield(vulns, None)
    {
      EntriesNext(OneVulnerability(), entries, i);
      var one := IterateVulnerability(entries[i].0, entries[i].1);
      vulns := vulns + one.vulns;
      if one.failure.Some? {
        return Yield(vulns, one.failure);
      }
    }
    assert entries[..|entries|] == entries;
    y := Yield(vulns, None);
  }

  method IterateVulnerability(name: string, v: Json) returns (y: Yield)
    ensures y == VulnerabilityYield(name, v)
  {
    if !v.Dict? {
      return Yield([], Some(AttributeError));
    }
    var ids, joins := CollectVia(ViaItems(Get(v.entries, "via")));
    if !joins {
      return Yield([], Some(TypeError));
    }
    var severity, vulns := Get(v.entries, "severity"), [];
    for i := 0 to |ids|
      invariant vulns == VulnsOf(Str(name), severity, ids[..i])
    {
      assert ids[..i + 1] == ids[..i] + [ids[i]];
      VulnsAppend(Str(name), severity, ids[..i], [ids[i]]);
      assert VulnsOf(Str(name), severity, [ids[i]]) == [Vuln(Str(name), severity, ids[i])];
      vulns := vulns + [Vuln(Str(name), severity, ids[i])];
    }
    assert ids[..|ids|] == ids;
    y := Yield(vulns, None);
  }

  /** Both formats, one after the other. */
  method Iterate(env: Env, data: Json) returns (y: Yield)
    ensures y == IterVulns(env, data)
  {
    if !data.Dict? {
      return Yield([], Some(AttributeError));
    }
    var advisories, vulnerabilities := Get(data.entries, "advisories"), Get(data.entries, "vulnerabilities");
    y := Yield([], None);
    if advisories.Dict? {
      y := IterateAdvisories(env, advisories.entries);
    }
    if y.failure.Some? {
      return;
    }
    var second := Yield([], None);
    if vulnerabilities.Dict? {
      second := IterateVulnerabilities(vulnerabilities.entries);
    }
    y := Yield(y.vulns + second.vulns, second.failure);
  }
}

/** The hand-written parser of the audit-exception list, and the printer it inverts. */
module AuditText {
  import opened Collections

  // ---------------------------------------------------------------- strings

  /** The characters that strip removes. */
  predicate IsSpace(c: char) {
    var n := c as int;
    || 9 <= n <= 13 || 28 <= n <= 32 || n == 0x85 || n == 0xa0 || n == 0x1680 || 0x2000 <= n <= 0x200a
    || n == 0x2028 || n == 0x2029 || n == 0x202f || n == 0x205f || n == 0x3000
  }

  function StripLeft(s: string): string {
    if s != [] && IsSpace(s[0]) then StripLeft(s[1..]) else s
  }

  function StripRight(s: string): string {
    if s != [] && IsSpace(s[|s| - 1]) then StripRight(s[..|s| - 1]) else s
  }

  function Strip(s: string): string {
    StripRight(StripLeft(s))
  }

  predicate Trimmed(s: string) {
    s == [] || (!IsSpace(s[0]) && !IsSpace(s[|s| - 1]))
  }

  lemma {:induction false} StripTrimmed(s: string)
    requires Trimmed(s)
    ensures Strip(s) == s
  {
  }

  predicate StartsWith(s: string, prefix: string) {
    |prefix| <= |s| && s[..|prefix|] == prefix
  }

  predicate EndsWith(s: string, suffix: string) {
    |suffix| <= |s| && s[|s| - |suffix|..] == suffix
  }

  /** The lines of a text opened with universal newlines. */
  function Lines(text: string): seq<string> {
    LinesFrom(text, [])
  }

  predicate IsBreak(c: char) {
    c == '\n' || c == '\r'
  }

  function LinesFrom(text: string, line: string): seq<string>
    decreases |text|
  {
    if text == [] then (if line == [] then [] else [line])
    else if !IsBreak(text[0]) then LinesFrom(text[1..], line + [text[0]])
    else if text[0] == '\r' && |text| > 1 && text[1] == '\n' then [line] + LinesFrom(text[2..], [])
    else [line] + LinesFrom(text[1..], [])
  }

  // ---------------------------------------------------------------- one line

  /** The position of the first colon, or the length of the line. */
  function Colon(line: string): (i: nat)
    ensures i <= |line| && (i < |line| ==> line[i] == ':') && ':' !in line[..i]
  {
    if line == [] || line[0] == ':' then 0
    else
      assert line[..1 + Colon(line[1..])] == [line[0]] + line[1..][..Colon(line[1..])];
      1 + Colon(line[1..])
  }

  /** Removes one pair of matching quotes; a lone quote character counts as both. */
  function Unquote(v: string): string {
    if (StartsWith(v, "\"") && EndsWith(v, "\"")) || (StartsWith(v, "'") && EndsWith(v, "'"))
    then (if |v| < 2 then "" else v[1..|v| - 1])
    else v
  }

  /** A "key: value" line; None where unpacking the split fails because there is no colon. */
  function SplitKv(line: string): Option<(string, string)> {
    var i := Colon(line);
    if i == |line| then None else Some((Strip(line[..i]), Unquote(Strip(line[i + 1..]))))
  }

  type Item = map<string, string>

  /** The parser's variables. An empty current item is falsy and is not kept. */
  datatype Parsing = Parsing(items: seq<Item>, current: Option<Item>) {
    function Flush(): seq<Item> {
      if current.Some? && current.value != map[] then items + [current.value] else items
    }
  }

  /** What one line does; None: the parser raises an error. */
  function Step(p: Parsing, raw: string): Option<Parsing> {
    var line := Strip(raw);
    if line == "" || StartsWith(line, "#") || StartsWith(line, "version:") || StartsWith(line, "exceptions:")
    then Some(p)
    else if StartsWith(line, "- ") then
      var rest := Strip(line[2..]);
      if rest == "" then Some(Parsing(p.Flush(), Some(map[])))
      else
        var kv := SplitKv(rest);
        if kv.None? then None else Some(Parsing(p.Flush(), Some(map[kv.value.0 := kv.value.1])))
    else if p.current.Some? && Colon(line) < |line| then
      var kv := SplitKv(line).value;
      Some(p.(current := Some(p.current.value[kv.0 := kv.1])))
    else Some(p)
  }

  type Stepper = (Parsing, string) -> Option<Parsing>

  function Run(step: Stepper, p: Parsing, lines: seq<string>): Option<Parsing>
    decreases |lines|
  {
    if lines == [] then Some(p)
    else
      var q := step(p, lines[0]);
      if q.None? then None else Run(step, q.value, lines[1..])
  }

  function Stepping(): Stepper {
    (p, raw) => Step(p, raw)
  }

  function Parse(lines: seq<string>): Option<seq<Item>> {
    Parsed(Run(Stepping(), Parsing([], None), lines))
  }

  function Parsed(p: Option<Parsing>): Option<seq<Item>> {
    if p.None? then None else Some(p.value.Flush())
  }

  lemma {:induction false} RunNext(step: Stepper, p: Parsing, lines: seq<string>, i: nat)
    requires i < |lines|
    ensures var q := Run(step, p, lines[..i]);
            Run(step, p, lines[..i + 1]) == if q.None? then None else step(q.value, lines[i])
    decreases i
  {
    if i == 0 {
      assert lines[..1][1..] == [] && lines[..0] == [];
    } else {
      var q := step(p, lines[0]);
      assert lines[..i][1..] == lines[1..][..i - 1] && lines[..i + 1][1..] == lines[1..][..i];
      if q.Some? { RunNext(step, q.value, lines[1..], i - 1); }
    }
  }

  lemma {:induction false} RunAppend(step: Stepper, p: Parsing, a: seq<string>, b: seq<string>)
    ensures Run(step, p, a + b) == var q := Run(step, p, a); if q.None? then None else Run(step, q.value, b)
    decreases |a|
  {
    if a == [] {
      assert a + b == b;
    } else {
      assert (a + b)[1..] == a[1..] + b;
      var q := step(p, a[0]);
      if q.Some? { RunAppend(step, q.value, a[1..], b); }
    }
  }

  lemma {:induction false} RunStops(step: Stepper, p: Parsing, lines: seq<string>, i: nat)
    requires i <= |lines| && Run(step, p, lines[..i]).None?
    ensures Run(step, p, lines).None?
  {
    RunAppend(step, p, lines[..i], lines[i..]);
    assert lines[..i] + lines[i..] == lines;
  }

  /** The parser's loop over the lines of the file. */
  method ParseExceptions(lines: seq<string>) returns (r: Option<seq<Item>>)
    ensures r == Parse(lines)
  {
    var exceptions: seq<Item>, current: Option<Item> := [], None;
    for i := 0 to |lines|
      invariant Run(Stepping(), Parsing([], None), lines[..i]) == Some(Parsing(exceptions, current))
    {
      RunNext(Stepping(), Parsing([], None), lines, i);
      var line := Strip(lines[i]);
      if line == "" || StartsWith(line, "#") {
        continue;
      }
      if StartsWith(line, "version:") || StartsWith(line, "exceptions:") {
        continue;
      }
      if StartsWith(line, "- ") {
        if current.Some? && current.value != map[] {
          exceptions := exceptions + [current.value];
        }
        current := Some(map[]);
        line := Strip(line[2..]);
        if line != "" {
          var kv := SplitKv(line);
          if kv.None? {
            RunStops(Stepping(), Parsing([], None), lines, i + 1);
            return None;
          }
          current := Some(map[kv.value.0 := kv.value.1]);
        }
        continue;
      }
      if current.Some? && ':' in line {
        ColonIn(line);
        var kv := SplitKv(line).value;
        current := Some(current.value[kv.0 := kv.1]);
      } else {
        ColonIn(line);
      }
    }
    assert lines[..|lines|] == lines;
    if current.Some? && current.value != map[] {
      exceptions := exceptions + [current.value];
    }
    r := Some(exceptions);
  }

  lemma {:induction false} ColonIn(line: string)
    ensures ':' in line <==> Colon(line) < |line|
  {
    if Colon(line) == |line| {
      assert line[..|line|] == line;
    }
  }

  // ---------------------------------------------------------------- the printer

  /** An exception as the list of pairs it is written from; of a repeated key the last value counts. */
  type Pairs = seq<(string, string)>

  function MapOf(pairs: Pairs): Item {
    if pairs == [] then map[] else MapOf(pairs[..|pairs| - 1])[pairs[|pairs| - 1].0 := pairs[|pairs| - 1].1]
  }

  function PrintPair(kv: (string, string)): string {
    kv.0 + ": \"" + kv.1 + "\""
  }

  function PrintItem(pairs: Pairs): seq<string> {
    seq(|pairs|, i requires 0 <= i < |pairs| => (if i == 0 then "- " else "") + PrintPair(pairs[i]))
  }

  function PrintItems(items: seq<Pairs>): seq<string> {
    if items == [] then [] else PrintItem(items[0]) + PrintItems(items[1..])
  }

  function Join(lines: seq<string>): string {
    if lines == [] then "" else lines[0] + "\n" + Join(lines[1..])
  }

  predicate NoBreak(s: string) {
    forall c :: c in s ==> !IsBreak(c)
  }

  predicate Key(k: string) {
    Trimmed(k) && ':' !in k && NoBreak(k)
  }

  /** A key on a line of its own must not look like a comment, an item or one of the two headings. */
  predicate LaterKey(k: string) {
    Key(k) && !StartsWith(k, "#") && !StartsWith(k, "- ") && k != "version" && k != "exceptions"
  }

  predicate Printable(pairs: Pairs) {
    && pairs != []
    && (forall i :: 0 <= i < |pairs| ==> Key(pairs[i].0) && NoBreak(pairs[i].1))
    && (forall i :: 0 < i < |pairs| ==> LaterKey(pairs[i].0))
  }

  // ---------------------------------------------------------------- round trip

  lemma {:induction false} ColonAt(line: string, i: nat)
    requires i < |line| && line[i] == ':' && ':' !in line[..i]
    ensures Colon(line) == i
  {
    var j := Colon(line);
    assert forall m :: 0 <= m < i ==> line[..i][m] == line[m];
    assert forall m :: 0 <= m < j ==> line[..j][m] == line[m];
  }

  lemma {:induction false} PairTrimmed(kv: (string, string))
    requires Trimmed(kv.0)
    ensures PrintPair(kv) != "" && Trimmed(PrintPair(kv)) && Strip(PrintPair(kv)) == PrintPair(kv)
    ensures PrintPair(kv)[0] == if kv.0 == "" then ':' else kv.0[0]
    ensures PrintPair(kv)[|PrintPair(kv)| - 1] == '\"'
  {
    var line := PrintPair(kv);
    assert line == kv.0 + (": \"" + kv.1 + "\"");
    assert line[|line| - 1] == '\"';
    if kv.0 == "" { assert line[0] == ':'; } else { assert line[0] == kv.0[0]; }
    StripTrimmed(line);
  }

  /** A quoted value with a space before it. */
  lemma {:induction false} QuotedValue(v: string)
    ensures Unquote(Strip([' '] + ("\"" + v + "\""))) == v
  {
    var quoted := "\"" + v + "\"";
    assert ([' '] + quoted)[1..] == quoted && IsSpace(' ');
    assert !IsSpace('\"') && quoted[0] == '\"' && quoted[|quoted| - 1] == '\"';
    StripTrimmed(quoted);
    assert StripLeft([' '] + quoted) == StripLeft(quoted) == quoted;
    assert quoted[..1] == "\"" && quoted[|quoted| - 1..] == "\"";
    assert quoted[1..|quoted| - 1] == v;
  }

  lemma {:induction false} PrintedParts(kv: (string, string))
    requires ':' !in kv.0
    ensures var line := PrintPair(kv);
            && |kv.0| < |line| && line[|kv.0|] == ':' && line[..|kv.0|] == kv.0
            && line[|kv.0| + 1..] == [' '] + ("\"" + kv.1 + "\"")
  {
    var line, quoted := PrintPair(kv), "\"" + kv.1 + "\"";
    assert ": \"" == [':'] + [' '] + "\"";
    assert line == kv.0 + ([':'] + ([' '] + quoted));
  }

  /** Splitting a printed pair gives the pair back, whatever quotes and colons the value holds. */
  lemma {:induction false} SplitPrinted(kv: (string, string))
    requires Trimmed(kv.0) && ':' !in kv.0
    ensures SplitKv(PrintPair(kv)) == Some(kv) && Colon(PrintPair(kv)) == |kv.0| < |PrintPair(kv)|
  {
    PrintedParts(kv);
    ColonAt(PrintPair(kv), |kv.0|);
    StripTrimmed(kv.0);
    QuotedValue(kv.1);
  }

  /** The first line of a printed item opens a new item with the first pair. */
  lemma {:induction false} FirstLine(p: Parsing, kv: (string, string))
    requires Key(kv.0)
    ensures Step(p, "- " + PrintPair(kv)) == Some(Parsing(p.Flush(), Some(map[kv.0 := kv.1])))
  {
    var line := "- " + PrintPair(kv);
    PairTrimmed(kv);
    SplitPrinted(kv);
    assert line[0] == '-' && line[1] == ' ' && line[|line| - 1] == '\"' && !IsSpace('-') && !IsSpace('\"');
    StripTrimmed(line);
    assert line[..2] == "- " && line[2..] == PrintPair(kv);
    assert !StartsWith(line, "#") && !StartsWith(line, "version:") && !StartsWith(line, "exceptions:") by {
      SameStart(line, "#");
      SameStart(line, "version:");
      SameStart(line, "exceptions:");
    }
  }

  lemma {:induction false} SameStart(line: string, prefix: string)
    requires prefix != ""
    ensures StartsWith(line, prefix) ==> line != "" && line[0] == prefix[0]
  {
    if StartsWith(line, prefix) {
      assert line[..|prefix|][0] == prefix[0];
    }
  }

  /** A heading is only recognised where it is the whole key. */
  lemma {:induction false} HeadingStart(line: string, heading: string)
    requires ':' !in heading && Colon(line) < |line| && StartsWith(line, heading + ":")
    ensures line[..Colon(line)] == heading
  {
    var prefix := heading + ":";
    assert line[|heading|] == line[..|prefix|][|heading|] == ':';
    assert line[..|heading|] == line[..|prefix|][..|heading|] == heading;
    ColonAt(line, |heading|);
  }

  /** A printed pair with such a key is no comment, no item and no heading. */
  lemma {:induction false} LaterStarts(kv: (string, string))
    requires LaterKey(kv.0)
    ensures var line := PrintPair(kv);
            && !StartsWith(line, "#") && !StartsWith(line, "- ")
            && !StartsWith(line, "version:") && !StartsWith(line, "exceptions:")
  {
    var line, k := PrintPair(kv), kv.0;
    PairTrimmed(kv);
    SplitPrinted(kv);
    assert line[..|k|] == k;
    if StartsWith(line, "version:") { HeadingStart(line, "version"); }
    if StartsWith(line, "exceptions:") { HeadingStart(line, "exceptions"); }
    NoPlainStart(line, k);
  }

  lemma {:induction false} NoPlainStart(line: string, k: string)
    requires |k| < |line| && line[..|k|] == k && line[|k|] == ':' && !StartsWith(k, "#") && !StartsWith(k, "- ")
    ensures !StartsWith(line, "#") && !StartsWith(line, "- ")
  {
    SameStart(line, "#");
    SameStart(line, "- ");
    assert k != "" ==> k[..1] == [k[0]];
    assert |k| >= 2 ==> line[..2] == k[..2];
  }

  /** A later line of a printed item adds its pair to the current item. */
  lemma {:induction false} LaterLine(p: Parsing, kv: (string, string))
    requires LaterKey(kv.0) && p.current.Some?
    ensures Step(p, PrintPair(kv)) == Some(p.(current := Some(p.current.value[kv.0 := kv.1])))
  {
    PairTrimmed(kv);
    SplitPrinted(kv);
    LaterStarts(kv);
  }

  /** The lines of one printed item, from any state of the parser. */
  lemma {:induction false} ItemLines(p: Parsing, pairs: Pairs, n: nat)
    requires Printable(pairs) && 0 < n <= |pairs|
    ensures Run(Stepping(), p, PrintItem(pairs)[..n]) == Some(Parsing(p.Flush(), Some(MapOf(pairs[..n]))))
    decreases n
  {
    var lines := PrintItem(pairs);
    RunNext(Stepping(), p, lines, n - 1);
    assert pairs[..n][..n - 1] == pairs[..n - 1];
    if n == 1 {
      assert lines[..0] == [] && MapOf(pairs[..0]) == map[];
      FirstLine(p, pairs[0]);
    } else {
      ItemLines(p, pairs, n - 1);
      assert "" + PrintPair(pairs[n - 1]) == PrintPair(pairs[n - 1]);
      LaterLine(Parsing(p.Flush(), Some(MapOf(pairs[..n - 1]))), pairs[n - 1]);
    }
  }

  function Maps(items: seq<Pairs>): seq<Item> {
    if items == [] then [] else [MapOf(items[0])] + Maps(items[1..])
  }

  /** The lines of each printed item replace the current item by the printed one. */
  ghost predicate RunsItems(step: Stepper, items: seq<Pairs>) {
    forall p, i {:trigger Run(step, p, PrintItem(items[i]))} :: 0 <= i < |items| ==>
      Run(step, p, PrintItem(items[i])) == Some(Parsing(p.Flush(), Some(MapOf(items[i]))))
  }

  lemma {:induction false} ItemsRun(step: Stepper, p: Parsing, items: seq<Pairs>)
    requires RunsItems(step, items) && forall i :: 0 <= i < |items| ==> items[i] != []
    ensures Parsed(Run(step, p, PrintItems(items))) == Some(p.Flush() + Maps(items))
    decreases |items|
  {
    if items == [] {
      assert p.Flush() + [] == p.Flush();
    } else {
      var pairs := items[0];
      var q := Parsing(p.Flush(), Some(MapOf(pairs)));
      RunAppend(step, p, PrintItem(pairs), PrintItems(items[1..]));
      ItemsRun(step, q, items[1..]);
      assert pairs[|pairs| - 1].0 in MapOf(pairs);
      assert q.Flush() == p.Flush() + [MapOf(pairs)];
      assert p.Flush() + [MapOf(pairs)] + Maps(items[1..]) == p.Flush() + ([MapOf(pairs)] + Maps(items[1..]));
    }
  }

  lemma {:induction false} StepsRunItems(items: seq<Pairs>)
    requires forall i :: 0 <= i < |items| ==> Printable(items[i])
    ensures RunsItems(Stepping(), items)
  {
    forall p, i | 0 <= i < |items|
      ensures Run(Stepping(), p, PrintItem(items[i])) == Some(Parsing(p.Flush(), Some(MapOf(items[i]))))
    {
      ItemLines(p, items[i], |items[i]|);
      assert PrintItem(items[i])[..|items[i]|] == PrintItem(items[i]) && items[i][..|items[i]|] == items[i];
    }
  }

  /** Printing a list of non-empty exceptions and parsing the lines gives the same list. */
  lemma {:induction false} ParsePrint(items: seq<Pairs>)
    requires forall i :: 0 <= i < |items| ==> Printable(items[i])
    ensures Parse(PrintItems(items)) == Some(Maps(items))
  {
    StepsRunItems(items);
    ItemsRun(Stepping(), Parsing([], None), items);
    assert [] + Maps(items) == Maps(items);
  }

  // ---------------------------------------------------------------- the same for whole texts

  lemma {:induction false} LineOf(line: string, rest: string, acc: string)
    requires NoBreak(line)
    ensures LinesFrom(line + "\n" + rest, acc) == [acc + line] + LinesFrom(rest, [])
    decreases |line|
  {
    var text := line + "\n" + rest;
    if line == "" {
      assert text[0] == '\n' && text[1..] == rest && acc + line == acc;
    } else {
      assert text[0] == line[0] && text[1..] == line[1..] + "\n" + rest;
      assert line[0] in line;
      LineOf(line[1..], rest, acc + [line[0]]);
      assert acc + [line[0]] + line[1..] == acc + line;
    }
  }

  lemma {:induction false} LinesJoin(lines: seq<string>)
    requires forall i :: 0 <= i < |lines| ==> NoBreak(lines[i])
    ensures Lines(Join(lines)) == lines
    decreases |lines|
  {
    if lines != [] {
      LineOf(lines[0], Join(lines[1..]), []);
      LinesJoin(lines[1..]);
      assert [] + lines[0] == lines[0];
    }
  }

  lemma {:induction false} PrintedNoBreak(items: seq<Pairs>)
    requires forall i :: 0 <= i < |items| ==> Printable(items[i])
    ensures forall i :: 0 <= i < |PrintItems(items)| ==> NoBreak(PrintItems(items)[i])
    decreases |items|
  {
    if items != [] {
      PrintedNoBreak(items[1..]);
      var first, rest := PrintItem(items[0]), PrintItems(items[1..]);
      forall i | 0 <= i < |first + rest| ensures NoBreak((first + rest)[i]) {
        if i < |first| {
          assert (first + rest)[i] == first[i];
          forall c | c in first[i] ensures !IsBreak(c) {
          }
        } else {
          assert (first + rest)[i] == rest[i - |first|];
        }
      }
    }
  }

  /** The file-level round trip: the printed text, read back line by line. */
  lemma {:induction false} ParsePrintText(items: seq<Pairs>)
    requires forall i :: 0 <= i < |items| ==> Printable(items[i])
    ensures Parse(Lines(Join(PrintItems(items)))) == Some(Maps(items))
  {
    PrintedNoBreak(items);
    LinesJoin(PrintItems(items));
    ParsePrint(items);
  }
}

/** The exception file in any layout: indentation, blank lines, comments, headings, and the ways to write a value. */
module AuditLayout {
  import opened Collections
  import opened AuditText

  // ---------------------------------------------------------------- white space

  predicate Blank(s: string) {
    forall c :: c in s ==> IsSpace(c)
  }

  lemma {:induction false} LeftPadded(pre: string, body: string)
    requires Blank(pre) && (body == "" || !IsSpace(body[0]))
    ensures StripLeft(pre + body) == body
  {
    if pre == "" {
      assert pre + body == body;
    } else {
      assert pre[0] in pre;
      assert (pre + body)[1..] == pre[1..] + body;
      LeftPadded(pre[1..], body);
    }
  }

  lemma {:induction false} RightPadded(body: string, post: string)
    requires Blank(post) && (body == "" || !IsSpace(body[|body| - 1]))
    ensures StripRight(body + post) == body
  {
    if post == "" {
      assert body + post == body;
    } else {
      assert post[|post| - 1] in post;
      assert (body + post)[..|body + post| - 1] == body + post[..|post| - 1];
      RightPadded(body, post[..|post| - 1]);
    }
  }

  lemma {:induction false} BlankLeft(s: string)
    requires Blank(s)
    ensures StripLeft(s) == ""
  {
    LeftPadded(s, "");
    assert s + "" == s;
  }

  /** Stripping takes the white space around a text away, and nothing else. */
  lemma {:induction false} StripPadded(pre: string, body: string, post: string)
    requires Blank(pre) && Blank(post) && Trimmed(body)
    ensures Strip(pre + body + post) == body
  {
    if body == "" {
      assert pre + body + post == pre + post;
      assert Blank(pre + post);
      BlankLeft(pre + post);
    } else {
      assert pre + body + post == pre + (body + post);
      LeftPadded(pre, body + post);
      RightPadded(body, post);
    }
  }

  // ---------------------------------------------------------------- one line

  /** The value stands between two quotes of one kind. */
  predicate Wrapped(q: string) {
    q != "" && q[0] == q[|q| - 1] && (q[0] == '\"' || q[0] == '\'')
  }

  /** A value is written in double or single quotes or plainly; a lone quote character writes the empty value. */
  predicate WritesValue(q: string, v: string) {
    || q == "\"" + v + "\""
    || q == "'" + v + "'"
    || (v == "" && (q == "\"" || q == "'"))
    || (q == v && Trimmed(v) && !Wrapped(v))
  }

  /** key: value, with white space around the colon. */
  ghost predicate WritesPair(text: string, kv: (string, string)) {
    Trimmed(text) && Trimmed(kv.0) && ':' !in kv.0 &&
    exists before, after, q :: Blank(before) && Blank(after) && WritesValue(q, kv.1)
      && text == kv.0 + before + ":" + after + q
  }

  datatype Line = Nothing | Opens(kv: (string, string)) | Adds(kv: (string, string))

  /** A blank line, a comment or a heading. */
  predicate SaysNothing(body: string) {
    body == "" || StartsWith(body, "#") || StartsWith(body, "version:") || StartsWith(body, "exceptions:")
  }

  /** What the trimmed text of a line writes. */
  ghost predicate WritesBody(body: string, line: Line) {
    match line
    case Nothing => Trimmed(body) && SaysNothing(body)
    case Opens(kv) => exists gap, text :: Blank(gap) && WritesPair(text, kv) && body == "- " + gap + text
    case Adds(kv) => WritesPair(body, kv) && !SaysNothing(body) && !StartsWith(body, "- ")
  }

  ghost predicate Writes(raw: string, line: Line) {
    exists pre, body, post :: Blank(pre) && Blank(post) && raw == pre + body + post && WritesBody(body, line)
  }

  /** A value between two quotes. */
  lemma {:induction false} QuotedRead(quote: string, v: string)
    requires quote == "\"" || quote == "'"
    ensures var q := quote + v + quote; Trimmed(q) && Unquote(q) == v
  {
    var q := quote + v + quote;
    assert !IsSpace('\"') && !IsSpace('\'') && |quote| == 1;
    assert q[0] == quote[0] && q[|q| - 1] == quote[0];
    assert q[..1] == quote && q[|q| - 1..] == quote;
    assert q[1..|q| - 1] == v;
  }

  lemma {:induction false} LoneRead(quote: string)
    requires quote == "\"" || quote == "'"
    ensures Trimmed(quote) && Unquote(quote) == ""
  {
    assert !IsSpace('\"') && !IsSpace('\'') && |quote| == 1;
    assert quote[..1] == quote && quote[0..] == quote;
  }

  lemma {:induction false} PlainRead(v: string)
    requires !Wrapped(v)
    ensures Unquote(v) == v
  {
    QuotedWraps(v);
  }

  lemma {:induction false} ValueRead(q: string, v: string)
    requires WritesValue(q, v)
    ensures Trimmed(q) && Unquote(q) == v
  {
    if q == "\"" + v + "\"" {
      QuotedRead("\"", v);
    } else if q == "'" + v + "'" {
      QuotedRead("'", v);
    } else if v == "" && (q == "\"" || q == "'") {
      LoneRead(q);
    } else {
      PlainRead(v);
    }
  }

  lemma {:induction false} QuotedWraps(q: string)
    ensures StartsWith(q, "\"") && EndsWith(q, "\"") ==> Wrapped(q)
    ensures StartsWith(q, "'") && EndsWith(q, "'") ==> Wrapped(q)
  {
    if q != "" {
      assert q[..1] == [q[0]] && q[|q| - 1..] == [q[|q| - 1]];
    }
  }

  lemma {:induction false} CutAtColon(head: string, rest: string)
    requires ':' !in head
    ensures var text := head + ":" + rest;
            && Colon(text) == |head| < |text| && ':' in text && text[..|head|] == head && text[|head| + 1..] == rest
  {
    var text := head + ":" + rest;
    assert text[|head|] == ':' && text[..|head|] == head;
    ColonAt(text, |head|);
  }

  lemma {:induction false} HeadOf(key: string, before: string)
    requires Trimmed(key) && ':' !in key && Blank(before)
    ensures ':' !in key + before && Strip(key + before) == key
  {
    assert !IsSpace(':');
    StripPadded("", key, before);
    assert "" + key + before == key + before;
  }

  lemma {:induction false} ValueOf(after: string, q: string, v: string)
    requires Blank(after) && WritesValue(q, v)
    ensures Unquote(Strip(after + q)) == v
  {
    ValueRead(q, v);
    StripPadded(after, q, "");
    assert after + q + "" == after + q;
  }

  lemma {:induction false} PairRead(text: string, kv: (string, string))
    requires WritesPair(text, kv)
    ensures SplitKv(text) == Some(kv) && Colon(text) < |text| && ':' in text
  {
    var before, after, q :| Blank(before) && Blank(after) && WritesValue(q, kv.1)
      && text == kv.0 + before + ":" + after + q;
    var head, rest := kv.0 + before, after + q;
    assert text == head + ":" + rest;
    HeadOf(kv.0, before);
    CutAtColon(head, rest);
    ValueOf(after, q, kv.1);
  }

  // ---------------------------------------------------------------- one step of the parser

  /** What a line does to the exceptions read so far and the one being read. */
  function Built(p: Parsing, line: Line): Parsing {
    match line
    case Nothing => p
    case Opens(kv) => Parsing(p.Flush(), Some(map[kv.0 := kv.1]))
    case Adds(kv) => if p.current.None? then p else p.(current := Some(p.current.value[kv.0 := kv.1]))
  }

  lemma {:induction false} OpensRead(body: string, kv: (string, string))
    requires WritesBody(body, Opens(kv))
    ensures Trimmed(body) && !SaysNothing(body) && StartsWith(body, "- ") && SplitKv(Strip(body[2..])) == Some(kv)
    ensures Strip(body[2..]) != ""
  {
    var gap, text :| Blank(gap) && WritesPair(text, kv) && body == "- " + gap + text;
    PairRead(text, kv);
    assert body[..2] == "- " && body[2..] == gap + text;
    StripPadded(gap, text, "");
    assert gap + text + "" == gap + text;
    OpensPlain(body);
    assert body[|body| - 1] == text[|text| - 1] && body[0] == '-' && !IsSpace('-');
  }

  lemma {:induction false} OpensPlain(body: string)
    requires |body| >= 2 && body[..2] == "- "
    ensures !SaysNothing(body)
  {
    assert body[0] == '-';
    SameStart(body, "#");
    SameStart(body, "version:");
    SameStart(body, "exceptions:");
  }

  lemma {:induction false} BodyTrimmed(body: string, line: Line)
    requires WritesBody(body, line)
    ensures Trimmed(body)
  {
    if line.Opens? { OpensRead(body, line.kv); }
  }

  lemma {:induction false} BodySteps(p: Parsing, raw: string, body: string, line: Line)
    requires WritesBody(body, line) && Strip(raw) == body
    ensures Step(p, raw) == Some(Built(p, line))
  {
    match line
    case Nothing =>
    case Opens(kv) => OpensRead(body, kv);
    case Adds(kv) => PairRead(body, kv);
  }

  lemma {:induction false} LineSteps(p: Parsing, raw: string, line: Line)
    requires Writes(raw, line)
    ensures Step(p, raw) == Some(Built(p, line))
  {
    var pre, body, post :| Blank(pre) && Blank(post) && raw == pre + body + post && WritesBody(body, line);
    BodyTrimmed(body, line);
    StripPadded(pre, body, post);
    BodySteps(p, raw, body, line);
  }

  // ---------------------------------------------------------------- whole files

  function BuiltAll(p: Parsing, lines: seq<Line>): Parsing
    decreases |lines|
  {
    if lines == [] then p else BuiltAll(Built(p, lines[0]), lines[1..])
  }

  /** The exceptions that a list of lines amounts to. */
  function Exceptions(lines: seq<Line>): seq<Item> {
    BuiltAll(Parsing([], None), lines).Flush()
  }

  /** A stepper that does to every line of the file what the line says. */
  ghost predicate Follows(step: Stepper, raws: seq<string>, lines: seq<Line>) {
    |raws| == |lines| &&
    forall p, i {:trigger step(p, raws[i])} :: 0 <= i < |raws| ==> step(p, raws[i]) == Some(Built(p, lines[i]))
  }

  lemma {:induction false} RunBuilds(step: Stepper, p: Parsing, raws: seq<string>, lines: seq<Line>)
    requires Follows(step, raws, lines)
    ensures Run(step, p, raws) == Some(BuiltAll(p, lines))
    decreases |raws|
  {
    if raws != [] {
      assert step(p, raws[0]) == Some(Built(p, lines[0]));
      assert forall i :: 0 <= i < |raws[1..]| ==> raws[1..][i] == raws[i + 1] && lines[1..][i] == lines[i + 1];
      RunBuilds(step, Built(p, lines[0]), raws[1..], lines[1..]);
    }
  }

  /** Every file whose lines write something, in any layout, parses into what they write. */
  lemma {:induction false} LayoutParses(raws: seq<string>, lines: seq<Line>)
    requires |raws| == |lines| && forall i :: 0 <= i < |raws| ==> Writes(raws[i], lines[i])
    ensures Parse(raws) == Some(Exceptions(lines))
  {
    forall p, i | 0 <= i < |raws| ensures Stepping()(p, raws[i]) == Some(Built(p, lines[i])) {
      LineSteps(p, raws[i], lines[i]);
    }
    RunBuilds(Stepping(), Parsing([], None), raws, lines);
  }

  /** An item without a colon. */
  predicate BadItem(raw: string) {
    var body := Strip(raw);
    StartsWith(body, "- ") && Strip(body[2..]) != "" && ':' !in Strip(body[2..])
  }

  lemma {:induction false} StepFails(p: Parsing, raw: string)
    ensures Step(p, raw).None? <==> BadItem(raw)
  {
    var body := Strip(raw);
    ColonIn(body);
    if StartsWith(body, "- ") {
      ColonIn(Strip(body[2..]));
      OpensPlain(body);
    }
  }

  lemma {:induction false} RunFails(p: Parsing, raws: seq<string>)
    ensures Run(Stepping(), p, raws).None? <==> exists i :: 0 <= i < |raws| && BadItem(raws[i])
    decreases |raws|
  {
    if raws != [] {
      StepFails(p, raws[0]);
      if Step(p, raws[0]).Some? {
        RunFails(Step(p, raws[0]).value, raws[1..]);
        assert forall i :: 0 <= i < |raws| - 1 ==> raws[1..][i] == raws[i + 1];
        if i :| 0 <= i < |raws| && BadItem(raws[i]) {
          assert BadItem(raws[1..][i - 1]);
        }
      }
    }
  }

  /** Parsing fails exactly on a file with an item that has no colon. */
  lemma {:induction false} ParseFails(raws: seq<string>)
    ensures Parse(raws).None? <==> exists i :: 0 <= i < |raws| && BadItem(raws[i])
  {
    RunFails(Parsing([], None), raws);
  }

  // ---------------------------------------------------------------- line breaks

  /** The three ways to end a line. */
  predicate Break(b: string) {
    b == "\n" || b == "\r" || b == "\r\n"
  }

  /** A text of lines with their breaks; what stands behind the last break is a line of its own unless it is empty. */
  function Broken(lines: seq<string>, breaks: seq<string>, last: string): string
    requires |lines| == |breaks|
    decreases |lines|
  {
    if lines == [] then last else lines[0] + breaks[0] + Broken(lines[1..], breaks[1..], last)
  }

  /** A carriage return before a line feed would be one break. */
  predicate BreaksApart(lines: seq<string>, breaks: seq<string>, last: string)
    requires |lines| == |breaks|
  {
    forall i :: 0 <= i < |lines| && breaks[i] == "\r" ==>
      !StartsWith(Broken(lines[i + 1..], breaks[i + 1..], last), "\n")
  }

  lemma {:induction false} UnbrokenLine(line: string, rest: string, acc: string)
    requires NoBreak(line)
    ensures LinesFrom(line + rest, acc) == LinesFrom(rest, acc + line)
    decreases |line|
  {
    if line == "" {
      assert line + rest == rest && acc + line == acc;
    } else {
      assert (line + rest)[0] == line[0] && (line + rest)[1..] == line[1..] + rest;
      assert line[0] in line;
      UnbrokenLine(line[1..], rest, acc + [line[0]]);
      assert acc + [line[0]] + line[1..] == acc + line;
    }
  }

  lemma {:induction false} BreakEnds(b: string, rest: string, acc: string)
    requires Break(b) && (b == "\r" ==> !StartsWith(rest, "\n"))
    ensures LinesFrom(b + rest, acc) == [acc] + LinesFrom(rest, [])
  {
    var text := b + rest;
    if b == "\r\n" {
      assert text[0] == '\r' && text[1] == '\n' && text[2..] == rest;
    } else {
      assert text[0] == b[0] && text[1..] == rest;
      if b == "\r" && rest != "" {
        assert rest[..1] == [rest[0]];
        assert text[1] == rest[0];
      }
    }
  }

  lemma {:induction false} LastLine(last: string)
    requires NoBreak(last)
    ensures Lines(last) == if last == "" then [] else [last]
  {
    UnbrokenLine(last, "", "");
    assert last + "" == last && "" + last == last;
  }

  /** Reading a text gives its lines back, whichever breaks end them and whether or not the last line has one. */
  lemma {:induction false} LinesBroken(lines: seq<string>, breaks: seq<string>, last: string)
    requires |lines| == |breaks| && NoBreak(last) && BreaksApart(lines, breaks, last)
    requires forall i :: 0 <= i < |lines| ==> NoBreak(lines[i]) && Break(breaks[i])
    ensures Lines(Broken(lines, breaks, last)) == lines + if last == "" then [] else [last]
    decreases |lines|
  {
    if lines == [] {
      LastLine(last);
    } else {
      var rest := Broken(lines[1..], breaks[1..], last);
      assert Broken(lines, breaks, last) == lines[0] + (breaks[0] + rest);
      UnbrokenLine(lines[0], breaks[0] + rest, "");
      assert "" + lines[0] == lines[0];
      BreakEnds(breaks[0], rest, lines[0]);
      forall i | 0 <= i < |lines[1..]| && breaks[1..][i] == "\r"
        ensures !StartsWith(Broken(lines[1..][i + 1..], breaks[1..][i + 1..], last), "\n")
      {
        assert lines[1..][i + 1..] == lines[i + 2..] && breaks[1..][i + 1..] == breaks[i + 2..];
        assert breaks[i + 1] == "\r";
      }
      LinesBroken(lines[1..], breaks[1..], last);
    }
  }
}

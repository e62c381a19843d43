/** The log-event expression: the printer of the log-alert controller, the parser of the exporter,
    and the exact condition under which the parser undoes the printer. */
module LogEventsExpr {
  import opened GoStrings
  import opened Sequences

  /** The four attributes that a log-event expression carries. */
  datatype LogFields = LogFields(content: string, level: string, source: string, logType: string)

  const EMPTY_FIELDS := LogFields("", "", "", "")

  // ---------------------------------------------------------------- printer

  datatype Attribute = Message | Level | Source | LogType

  function Name(a: Attribute): string {
    match a
    case Message => "message"
    case Level => "level"
    case Source => "source"
    case LogType => "type"
  }

  function NameLength(a: Attribute): (n: nat)
    ensures n == |Name(a)|
  {
    match a
    case Message => 7
    case Level => 5
    case Source => 6
    case LogType => 4
  }

  /** One `name="text"` item. A message is escaped; the other items are printed as they are. */
  datatype Part = Part(attr: Attribute, raw: string)

  function EscapeContent(content: string): string {
    ReplaceCharWith(ReplaceCharWith(content, '\\', "\\\\"), '"', "\\\"")
  }

  function CommaSeparatedToPipe(s: string): string {
    ReplaceChar(s, ',', '|')
  }

  function PipeToComma(s: string): string {
    ReplaceChar(s, '|', ',')
  }

  function Text(p: Part): string {
    if p.attr == Message then EscapeContent(p.raw) else p.raw
  }

  function Printed(p: Part): string {
    Name(p.attr) + "=\"" + Text(p) + "\""
  }

  function PrintedAll(parts: seq<Part>): seq<string> {
    seq(|parts|, i requires 0 <= i < |parts| => Printed(parts[i]))
  }

  function PlainPart(attr: Attribute, value: string): seq<Part> {
    if value == "" then [] else [Part(attr, CommaSeparatedToPipe(value))]
  }

  function Parts(f: LogFields): seq<Part> {
    (if f.content == "" then [] else [Part(Message, f.content)])
    + PlainPart(Level, f.level) + PlainPart(Source, f.source) + PlainPart(LogType, f.logType)
  }

  function BuildLogEventsExpr(f: LogFields): string {
    "events{" + Join(PrintedAll(Parts(f)), ",") + "}"
  }

  // ---------------------------------------------------------------- parser

  datatype Scan = Scan(value: string, rest: string)

  /** Reads a quoted value whose opening quote has been consumed. */
  function ScanValue(s: string): Scan {
    if s == "" then Scan("", "")
    else if s[0] == '\\' && |s| > 1 then
      var r := ScanValue(s[2..]);
      Scan([s[1]] + r.value, r.rest)
    else if s[0] == '"' then Scan("", s[1..])
    else
      var r := ScanValue(s[1..]);
      Scan([s[0]] + r.value, r.rest)
  }

  function Set(f: LogFields, a: Attribute, val: string): LogFields {
    match a
    case Message => f.(content := val)
    case Level => f.(level := PipeToComma(val))
    case Source => f.(source := PipeToComma(val))
    case LogType => f.(logType := PipeToComma(val))
  }

  function Assign(f: LogFields, key: string, val: string): LogFields {
    if key == Name(Message) then Set(f, Message, val)
    else if key == Name(Level) then Set(f, Level, val)
    else if key == Name(Source) then Set(f, Source, val)
    else if key == Name(LogType) then Set(f, LogType, val)
    else f
  }

  predicate IsComma(c: char) { c == ',' }

  /** Reads `key="value"` items from `inner`, later items overriding earlier ones. */
  function ParsePairs(inner: string, f: LogFields): LogFields
    decreases |inner|
  {
    var eq := IndexChar(inner, '=');
    if eq < 0 then f
    else
      var rest := inner[eq + 1..];
      if rest == "" || rest[0] != '"' then f
      else
        var sc := ScanValue(rest[1..]);
        ScanLength(rest[1..]);
        TrimLeftShrinks(sc.rest, IsComma);
        ParsePairs(TrimLeft(sc.rest, IsComma), Assign(f, TrimSpace(inner[..eq]), sc.value))
  }

  /** One round of the loop: the item in front, if there is one. */
  lemma ParseStep(inner: string, f: LogFields, eq: nat, val: string, left: string)
    requires IndexChar(inner, '=') == eq && eq + 1 < |inner| && inner[eq + 1] == '"'
    requires Scan(val, left) == ScanValue(inner[eq + 1..][1..])
    ensures ParsePairs(inner, f) == ParsePairs(TrimLeft(left, IsComma), Assign(f, TrimSpace(inner[..eq]), val))
    ensures |TrimLeft(left, IsComma)| < |inner|
  {
    ScanLength(inner[eq + 1..][1..]);
    TrimLeftShrinks(left, IsComma);
  }

  /** What is left after dropping everything up to the first `{` and from the last `}` on. */
  function Inner(expr: string): string {
    var i := IndexChar(expr, '{');
    var inner := if i >= 0 then expr[i + 1..] else expr;
    var j := LastIndexChar(inner, '}');
    if j >= 0 then inner[..j] else inner
  }

  /** One turn of the cursor: an escaped character, the closing quote, or a plain character. */
  lemma ScanAt(rest: string, i: nat, val: string)
    requires i < |rest|
    ensures var sc := ScanValue(rest[i..]); var total := Scan(val + sc.value, sc.rest);
            if rest[i] == '\\' && i + 1 < |rest| then
              var r := ScanValue(rest[i + 2..]); total == Scan(val + [rest[i + 1]] + r.value, r.rest)
            else if rest[i] == '"' then total == Scan(val, rest[i + 1..])
            else var r := ScanValue(rest[i + 1..]); total == Scan(val + [rest[i]] + r.value, r.rest)
  {
    assert rest[i..][1..] == rest[i + 1..];
    if rest[i] == '\\' && i + 1 < |rest| {
      assert rest[i..][2..] == rest[i + 2..];
      MoveAcross(val, rest[i + 1], ScanValue(rest[i + 2..]).value);
    } else if rest[i] != '"' {
      MoveAcross(val, rest[i], ScanValue(rest[i + 1..]).value);
    }
  }

  /** The cursor loop over one quoted value: the value read, and the position after its closing quote. */
  method ReadQuoted(rest: string) returns (val: string, i: nat)
    ensures i <= |rest|
    ensures Scan(val, rest[i..]) == ScanValue(rest)
  {
    val := "";
    i := 0;
    while i < |rest|
      invariant 0 <= i <= |rest|
      invariant ScanValue(rest) == Scan(val + ScanValue(rest[i..]).value, ScanValue(rest[i..]).rest)
    {
      ScanAt(rest, i, val);
      if rest[i] == '\\' && i + 1 < |rest| {
        val := val + [rest[i + 1]];
        i := i + 2;
        continue;
      }
      if rest[i] == '"' {
        i := i + 1;
        return;
      }
      val := val + [rest[i]];
      i := i + 1;
    }
  }

  /** The loop over the items between the braces. */
  method ParseItems(text: string) returns (content: string, level: string, source: string, logType: string)
    ensures LogFields(content, level, source, logType) == ParsePairs(text, EMPTY_FIELDS)
  {
    content, level, source, logType := "", "", "", "";
    var inner := text;
    while |inner| > 0
      invariant ParsePairs(inner, LogFields(content, level, source, logType)) == ParsePairs(text, EMPTY_FIELDS)
      decreases |inner|
    {
      var eqIdx := IndexChar(inner, '=');
      if eqIdx < 0 {
        break;
      }
      var key := TrimSpace(inner[..eqIdx]);
      var rest := inner[eqIdx + 1..];
      if |rest| == 0 || rest[0] != '"' {
        break;
      }
      rest := rest[1..];
      var val, i := ReadQuoted(rest);
      ghost var f := LogFields(content, level, source, logType);
      ParseStep(inner, f, eqIdx, val, rest[i..]);
      if key == Name(Message) {
        content := val;
      } else if key == Name(Level) {
        level := PipeToComma(val);
      } else if key == Name(Source) {
        source := PipeToComma(val);
      } else if key == Name(LogType) {
        logType := PipeToComma(val);
      }
      assert LogFields(content, level, source, logType) == Assign(f, key, val);
      inner := TrimLeft(rest[i..], IsComma);
    }
  }

  /** The exporter's cursor loops read exactly the items of `ParsePairs`, on every input. */
  method ParseLogEventsExpr(expr: string) returns (content: string, level: string, source: string, logType: string)
    ensures LogFields(content, level, source, logType) == ParsePairs(Inner(expr), EMPTY_FIELDS)
  {
    var inner := expr;
    var open := IndexChar(inner, '{');
    if open >= 0 {
      inner := inner[open + 1..];
    }
    var close := LastIndexChar(inner, '}');
    if close >= 0 {
      inner := inner[..close];
    }
    content, level, source, logType := ParseItems(inner);
  }

  /** A scan never yields more than it reads, and reads its closing quote unless the text ran out. */
  lemma ScanLength(s: string)
    ensures |ScanValue(s).rest| <= |s|
    ensures s != "" ==> |ScanValue(s).rest| < |s|
    ensures |ScanValue(s).value| + |ScanValue(s).rest| + 1 <= |s|
         || (ScanValue(s).rest == "" && |ScanValue(s).value| <= |s|)
  {
  }

  // ---------------------------------------------------------------- escaping

  function EscapeChar(c: char): string {
    if c == '\\' then "\\\\" else if c == '"' then "\\\"" else [c]
  }

  function EscapeEach(s: string): string {
    if s == "" then "" else EscapeChar(s[0]) + EscapeEach(s[1..])
  }

  lemma {:induction false} ReplaceDistributes(a: string, b: string, pattern: char, replacement: string)
    ensures ReplaceCharWith(a + b, pattern, replacement)
         == ReplaceCharWith(a, pattern, replacement) + ReplaceCharWith(b, pattern, replacement)
  {
    if a == "" {
      assert a + b == b;
    } else {
      ReplaceDistributes(a[1..], b, pattern, replacement);
      assert (a + b)[1..] == a[1..] + b;
      var head := if a[0] == pattern then replacement else [a[0]];
      Regroup(head, ReplaceCharWith(a[1..], pattern, replacement), ReplaceCharWith(b, pattern, replacement));
    }
  }

  /** Escaping backslashes first and quotes second treats every character on its own: the second
      pass never touches what the first one inserted. */
  lemma {:induction false} EscapeContentIsPerCharacter(content: string)
    ensures EscapeContent(content) == EscapeEach(content)
  {
    if content != "" {
      var tail := content[1..];
      EscapeContentIsPerCharacter(tail);
      var first := if content[0] == '\\' then "\\\\" else [content[0]];
      ReplaceDistributes(first, ReplaceCharWith(tail, '\\', "\\\\"), '"', "\\\"");
      if content[0] == '\\' {
        assert ReplaceCharWith("\\\\"[1..], '"', "\\\"") == "\\";
      }
    }
  }

  lemma ScanEscapedChar(c: char, t: string)
    ensures ScanValue(EscapeChar(c) + t) == Scan([c] + ScanValue(t).value, ScanValue(t).rest)
  {
    assert (EscapeChar(c) + t)[|EscapeChar(c)|..] == t;
  }

  lemma ScanClosingQuote(t: string)
    ensures ScanValue("\"" + t) == Scan("", t)
  {
    assert ("\"" + t)[1..] == t;
  }

  lemma {:induction false} ScanEscaped(v: string, t: string)
    ensures ScanValue(EscapeEach(v) + ("\"" + t)) == Scan(v, t)
  {
    var end := "\"" + t;
    if v == "" {
      ScanClosingQuote(t);
      assert EscapeEach(v) + end == end;
    } else {
      ScanEscaped(v[1..], t);
      ScanEscapedChar(v[0], EscapeEach(v[1..]) + end);
      Regroup(EscapeChar(v[0]), EscapeEach(v[1..]), end);
    }
  }

  // ---------------------------------------------------------------- one item

  /** Free of the two characters that the scanner gives a meaning to. */
  predicate CleanText(s: string) {
    '"' !in s && '\\' !in s
  }

  predicate Clean(p: Part) {
    p.attr == Message || CleanText(p.raw)
  }

  /** What the item should be read back as. */
  function Want(p: Part): string {
    if p.attr == Message then p.raw else PipeToComma(p.raw)
  }

  function Get(f: LogFields, a: Attribute): string {
    match a
    case Message => f.content
    case Level => f.level
    case Source => f.source
    case LogType => f.logType
  }

  lemma {:induction false} ScanClean(v: string, t: string)
    requires CleanText(v)
    ensures ScanValue(v + "\"" + t) == Scan(v, t)
  {
    if v == "" {
      assert v + "\"" + t == "\"" + t;
    } else {
      ScanClean(v[1..], t);
      assert (v + "\"" + t)[1..] == v[1..] + "\"" + t;
    }
  }

  /** Reading a clean item yields its text and stops right behind its closing quote. */
  lemma ScanCleanPart(p: Part, t: string)
    requires Clean(p)
    ensures ScanValue(Text(p) + "\"" + t) == Scan(p.raw, t)
  {
    if p.attr == Message {
      EscapeContentIsPerCharacter(p.raw);
      ScanEscaped(p.raw, t);
      assert Text(p) + "\"" + t == EscapeEach(p.raw) + ("\"" + t);
    } else {
      ScanClean(p.raw, t);
    }
  }

  function Backslashes(k: nat): string {
    seq(k, _ => '\\')
  }

  lemma PipeToCommaCons(c: char, a: string, b: string)
    requires PipeToComma(a) != PipeToComma(b)
    ensures PipeToComma([c] + a) != PipeToComma([c] + b)
  {
    assert PipeToComma([c] + a)[1..] == PipeToComma(a);
    assert PipeToComma([c] + b)[1..] == PipeToComma(b);
  }

  /** After k backslashes too few, the scan of `s` up to a quote cannot catch up with `s` itself. */
  lemma {:induction false} ScanLagsBehind(k: nat, s: string, t: string)
    requires k > 0
    ensures PipeToComma(ScanValue(s + "\"" + t).value) != PipeToComma(Backslashes(k) + s)
    decreases |s|
  {
    var scanned := ScanValue(s + "\"" + t);
    var full := Backslashes(k) + s;
    assert PipeToComma(full)[0] == '\\';
    if |s| > 1 && s[0] == '\\' && s[1] == '\\' {
      ScanLagsBehind(k + 1, s[2..], t);
      assert (s + "\"" + t)[2..] == s[2..] + "\"" + t;
      assert full == ['\\'] + (Backslashes(k + 1) + s[2..]);
      PipeToCommaCons('\\', ScanValue(s[2..] + "\"" + t).value, Backslashes(k + 1) + s[2..]);
    } else if scanned.value != "" {
      assert scanned.value[0] != '\\';
      assert PipeToComma(scanned.value)[0] != '\\';
    }
  }

  /** An unescaped item holding a quote or a backslash is never read back as itself, even up to the
      exchange of pipes and commas. */
  lemma {:induction false} ScanUnclean(s: string, t: string)
    requires !CleanText(s)
    ensures PipeToComma(ScanValue(s + "\"" + t).value) != PipeToComma(s)
  {
    var scanned := ScanValue(s + "\"" + t);
    if s[0] == '\\' {
      assert PipeToComma(s)[0] == '\\';
      if |s| > 1 && s[1] == '\\' {
        ScanLagsBehind(1, s[2..], t);
        assert (s + "\"" + t)[2..] == s[2..] + "\"" + t;
        assert s == ['\\'] + (Backslashes(1) + s[2..]);
        PipeToCommaCons('\\', ScanValue(s[2..] + "\"" + t).value, Backslashes(1) + s[2..]);
      } else {
        assert PipeToComma(scanned.value)[0] != '\\';
      }
    } else if s[0] == '"' {
      assert scanned.value == "";
    } else {
      assert s == [s[0]] + s[1..];
      ScanUnclean(s[1..], t);
      assert (s + "\"" + t)[1..] == s[1..] + "\"" + t;
      PipeToCommaCons(s[0], ScanValue(s[1..] + "\"" + t).value, s[1..]);
    }
  }

  // ---------------------------------------------------------------- how much text an assignment costs

  function Cost(f: LogFields, g: LogFields, a: Attribute): nat {
    if Get(f, a) == Get(g, a) then 0 else NameLength(a) + 3 + |Get(g, a)|
  }

  function TotalCost(f: LogFields, g: LogFields): nat {
    Cost(f, g, Message) + Cost(f, g, Level) + Cost(f, g, Source) + Cost(f, g, LogType)
  }

  /** Every attribute that parsing changes was paid for by its own `key="value"` in the text; only
      the very last closing quote may be missing. */
  lemma {:induction false} ParsePays(inner: string, f: LogFields)
    ensures TotalCost(f, ParsePairs(inner, f)) <= |inner| + 1
    decreases |inner|
  {
    var eq := IndexChar(inner, '=');
    if eq >= 0 && eq + 1 < |inner| && inner[eq + 1] == '"' {
      var key := TrimSpace(inner[..eq]);
      var rest := inner[eq + 1..][1..];
      var sc := ScanValue(rest);
      var tail := TrimLeft(sc.rest, IsComma);
      var f' := Assign(f, key, sc.value);
      ScanLength(rest);
      TrimLeftShrinks(sc.rest, IsComma);
      TrimIsTrimmed(inner[..eq], IsSpace);
      assert ParsePairs(inner, f) == ParsePairs(tail, f');
      ParsePays(tail, f');
      AssignCost(f, key, sc.value, ParsePairs(tail, f'));
      if sc.rest == "" {
        assert ParsePairs(tail, f') == f';
      }
    }
  }

  lemma SetCost(f: LogFields, a: Attribute, val: string, g: LogFields)
    ensures TotalCost(f, g) <= TotalCost(Set(f, a, val), g) + NameLength(a) + 3 + |val|
  {
  }

  lemma AssignCost(f: LogFields, key: string, val: string, g: LogFields)
    ensures TotalCost(f, g) <= TotalCost(Assign(f, key, val), g) + |key| + 3 + |val|
  {
    if key == Name(Message) {
      SetCost(f, Message, val, g);
    } else if key == Name(Level) {
      SetCost(f, Level, val, g);
    } else if key == Name(Source) {
      SetCost(f, Source, val, g);
    } else if key == Name(LogType) {
      SetCost(f, LogType, val, g);
    }
  }

  // ---------------------------------------------------------------- the whole expression

  ghost predicate Distinct(parts: seq<Part>) {
    forall i, j :: 0 <= i < j < |parts| ==> parts[i].attr != parts[j].attr
  }

  /** Items as the printer makes them, still to be read into attributes that are empty. */
  ghost predicate Pending(parts: seq<Part>, f: LogFields) {
    && |parts| <= 4
    && Distinct(parts)
    && (forall i :: 1 <= i < |parts| ==> parts[i].attr != Message)
    && (forall i :: 0 <= i < |parts| ==> parts[i].raw != "" && Get(f, parts[i].attr) == "")
  }

  ghost predicate Restored(parts: seq<Part>, g: LogFields) {
    forall i :: 0 <= i < |parts| ==> Get(g, parts[i].attr) == Want(parts[i])
  }

  ghost predicate AllClean(parts: seq<Part>) {
    forall i :: 0 <= i < |parts| ==> Clean(parts[i])
  }

  lemma JoinPrinted(parts: seq<Part>)
    requires parts != []
    ensures Join(PrintedAll(parts), ",")
         == Printed(parts[0]) + (if |parts| == 1 then "" else "," + Join(PrintedAll(parts[1..]), ","))
  {
    assert PrintedAll(parts)[1..] == PrintedAll(parts[1..]);
    if |parts| > 1 {
      var tail := Join(PrintedAll(parts[1..]), ",");
      assert Printed(parts[0]) + "," + tail == Printed(parts[0]) + ("," + tail);
    }
  }

  /** The text behind the first item's closing quote. */
  function AfterFirst(parts: seq<Part>): string
    requires parts != []
  {
    if |parts| == 1 then "" else "," + Join(PrintedAll(parts[1..]), ",")
  }

  /** One round of the parser: it reads the first item's name and scans its text. */
  lemma ParseFirst(parts: seq<Part>, f: LogFields)
    requires parts != []
    ensures var sc := ScanValue(Text(parts[0]) + "\"" + AfterFirst(parts));
            ParsePairs(Join(PrintedAll(parts), ","), f)
            == ParsePairs(TrimLeft(sc.rest, IsComma), Set(f, parts[0].attr, sc.value))
  {
    var name := Name(parts[0].attr);
    var text := Text(parts[0]) + "\"" + AfterFirst(parts);
    JoinPrinted(parts);
    assert Join(PrintedAll(parts), ",") == name + "=\"" + text;
    ParseNamed(parts[0].attr, text, f);
  }

  lemma ParseNamed(a: Attribute, text: string, f: LogFields)
    ensures var sc := ScanValue(text);
            ParsePairs(Name(a) + "=\"" + text, f) == ParsePairs(TrimLeft(sc.rest, IsComma), Set(f, a, sc.value))
  {
    var name := Name(a);
    NameIsPlain(a);
    IndexAfterPrefix(name, '=', "\"" + text);
    assert name + "=\"" + text == name + ['='] + ("\"" + text);
    assert (name + ['='] + ("\"" + text))[..|name|] == name;
    assert (name + ['='] + ("\"" + text))[|name| + 1..] == "\"" + text;
    assert ("\"" + text)[1..] == text;
    AssignNamed(a, f, ScanValue(text).value);
  }

  lemma AssignNamed(a: Attribute, f: LogFields, val: string)
    ensures Assign(f, Name(a), val) == Set(f, a, val)
  {
  }

  lemma NameIsPlain(a: Attribute)
    ensures '=' !in Name(a) && 4 <= |Name(a)| <= 7 && Name(a)[0] != ',' && TrimSpace(Name(a)) == Name(a)
  {
    TrimIsTrimmed(Name(a), IsSpace);
  }

  lemma AfterFirstTrims(parts: seq<Part>)
    requires parts != []
    ensures TrimLeft(AfterFirst(parts), IsComma) == Join(PrintedAll(parts[1..]), ",")
  {
    if |parts| > 1 {
      JoinPrinted(parts[1..]);
      NameIsPlain(parts[1].attr);
      var tail := Join(PrintedAll(parts[1..]), ",");
      assert tail[0] == Name(parts[1].attr)[0];
      assert AfterFirst(parts)[1..] == tail;
    }
  }

  function WantedLength(parts: seq<Part>): nat {
    if parts == [] then 0 else NameLength(parts[0].attr) + 3 + |parts[0].raw| + WantedLength(parts[1..])
  }

  predicate Has(parts: seq<Part>, a: Attribute) {
    exists i :: 0 <= i < |parts| && parts[i].attr == a
  }

  function CostAmong(parts: seq<Part>, f: LogFields, g: LogFields, a: Attribute): nat {
    if Has(parts, a) then Cost(f, g, a) else 0
  }

  lemma HasCons(parts: seq<Part>, a: Attribute)
    requires parts != []
    ensures Has(parts, a) <==> parts[0].attr == a || Has(parts[1..], a)
  {
    if Has(parts, a) && parts[0].attr != a {
      var i :| 0 <= i < |parts| && parts[i].attr == a;
      assert parts[1..][i - 1].attr == a;
    }
  }

  lemma CostCons(parts: seq<Part>, f: LogFields, g: LogFields, a: Attribute)
    requires parts != [] && Distinct(parts)
    ensures CostAmong(parts, f, g, a)
         == CostAmong(parts[1..], f, g, a) + if parts[0].attr == a then Cost(f, g, a) else 0
  {
    HasCons(parts, a);
    assert forall i :: 0 <= i < |parts| - 1 ==> parts[1..][i] == parts[i + 1];
  }

  lemma RestoredFirstCosts(parts: seq<Part>, f: LogFields, g: LogFields)
    requires parts != [] && Restored(parts, g) && Get(f, parts[0].attr) != Want(parts[0])
    ensures Cost(f, g, parts[0].attr) == NameLength(parts[0].attr) + 3 + |parts[0].raw|
  {
  }

  lemma {:induction false} RestoringCosts(parts: seq<Part>, f: LogFields, g: LogFields)
    requires Distinct(parts) && Restored(parts, g)
    requires forall i :: 0 <= i < |parts| ==> Get(f, parts[i].attr) != Want(parts[i])
    ensures WantedLength(parts) == CostAmong(parts, f, g, Message) + CostAmong(parts, f, g, Level)
                                 + CostAmong(parts, f, g, Source) + CostAmong(parts, f, g, LogType)
  {
    if parts != [] {
      RestoringCosts(parts[1..], f, g);
      RestoredFirstCosts(parts, f, g);
      CostCons(parts, f, g, Message);
      CostCons(parts, f, g, Level);
      CostCons(parts, f, g, Source);
      CostCons(parts, f, g, LogType);
    }
  }

  lemma {:induction false} PrintedLength(parts: seq<Part>)
    requires parts != [] && forall i :: 0 <= i < |parts| ==> parts[i].attr != Message
    ensures |Join(PrintedAll(parts), ",")| == WantedLength(parts) + |parts| - 1
  {
    JoinPrinted(parts);
    if |parts| > 1 {
      PrintedLength(parts[1..]);
    }
  }

  /** Whatever the scan of the first item leaves over is too short to give all items once more. */
  lemma RemainderIsShort(parts: seq<Part>, rest: string)
    requires parts != [] && |parts| <= 4 && forall i :: 0 <= i < |parts| ==> parts[i].attr != Message
    requires Distinct(parts)
    requires |rest| <= |parts[0].raw| + |AfterFirst(parts)|
    ensures |rest| + 1 < WantedLength(parts)
  {
    if |parts| > 1 {
      PrintedLength(parts[1..]);
    }
  }

  lemma MisreadIsNotRestored(parts: seq<Part>, f: LogFields, tail: string)
    requires Distinct(parts)
    requires forall i :: 0 <= i < |parts| ==> Get(f, parts[i].attr) != Want(parts[i])
    requires |tail| + 1 < WantedLength(parts)
    ensures !Restored(parts, ParsePairs(tail, f))
  {
    var g := ParsePairs(tail, f);
    ParsePays(tail, f);
    if Restored(parts, g) {
      RestoringCosts(parts, f, g);
    }
  }

  /** A misread first item leaves every item of the list still to be restored. */
  lemma MisreadLeavesAllWanting(parts: seq<Part>, f: LogFields, val: string)
    requires parts != [] && Pending(parts, f) && !Clean(parts[0])
    requires PipeToComma(val) != PipeToComma(parts[0].raw)
    ensures forall i :: 0 <= i < |parts| ==> Get(Set(f, parts[0].attr, val), parts[i].attr) != Want(parts[i])
  {
    forall i | 0 <= i < |parts| ensures Get(Set(f, parts[0].attr, val), parts[i].attr) != Want(parts[i]) {
      if i > 0 {
        assert parts[0].attr != parts[i].attr;
        assert |Want(parts[i])| == |parts[i].raw|;
      }
    }
  }

  /** What the scan of the first item leaves over cannot restore all items. */
  lemma RemainderIsNotEnough(parts: seq<Part>, f: LogFields, rest: string)
    requires parts != [] && Pending(parts, f) && !Clean(parts[0])
    requires |rest| <= |parts[0].raw| + |AfterFirst(parts)|
    ensures |TrimLeft(rest, IsComma)| + 1 < WantedLength(parts)
  {
    TrimLeftShrinks(rest, IsComma);
    RemainderIsShort(parts, TrimLeft(rest, IsComma));
  }

  /** An unclean item spoils the reading: its own text is misread, and what is left of the
      expression is too short to give it and all later items once more. */
  lemma UncleanFirst(parts: seq<Part>, f: LogFields)
    requires parts != [] && Pending(parts, f) && !Clean(parts[0])
    ensures !Restored(parts, ParsePairs(Join(PrintedAll(parts), ","), f))
  {
    var sc := ScanValue(parts[0].raw + "\"" + AfterFirst(parts));
    ScanUnclean(parts[0].raw, AfterFirst(parts));
    ScanLength(parts[0].raw + "\"" + AfterFirst(parts));
    MisreadLeavesAllWanting(parts, f, sc.value);
    RemainderIsNotEnough(parts, f, sc.rest);
    MisreadIsNotRestored(parts, Set(f, parts[0].attr, sc.value), TrimLeft(sc.rest, IsComma));
    ParseFirst(parts, f);
  }

  /** Parsing the printed items restores every one of them if and only if every item is clean. */
  lemma {:induction false} ParsePrinted(parts: seq<Part>, f: LogFields)
    requires Pending(parts, f)
    ensures var g := ParsePairs(Join(PrintedAll(parts), ","), f);
            && (Restored(parts, g) <==> AllClean(parts))
            && (AllClean(parts) ==> forall a :: !Has(parts, a) ==> Get(g, a) == Get(f, a))
  {
    if parts != [] {
      if Clean(parts[0]) {
        CleanFirst(parts, f);
        ParsePrinted(parts[1..], Set(f, parts[0].attr, parts[0].raw));
        LiftToWhole(parts, f, ParsePairs(Join(PrintedAll(parts), ","), f));
      } else {
        UncleanFirst(parts, f);
      }
    }
  }

  lemma CleanFirst(parts: seq<Part>, f: LogFields)
    requires parts != [] && Pending(parts, f) && Clean(parts[0])
    ensures var f' := Set(f, parts[0].attr, parts[0].raw);
            && Pending(parts[1..], f')
            && ParsePairs(Join(PrintedAll(parts), ","), f) == ParsePairs(Join(PrintedAll(parts[1..]), ","), f')
  {
    ParseFirst(parts, f);
    ScanCleanPart(parts[0], AfterFirst(parts));
    AfterFirstTrims(parts);
    RestIsPending(parts, f);
  }

  lemma RestIsPending(parts: seq<Part>, f: LogFields)
    requires parts != [] && Pending(parts, f)
    ensures Pending(parts[1..], Set(f, parts[0].attr, parts[0].raw))
  {
  }

  lemma LiftToWhole(parts: seq<Part>, f: LogFields, g: LogFields)
    requires parts != [] && Pending(parts, f) && Clean(parts[0])
    requires Restored(parts[1..], g) <==> AllClean(parts[1..])
    requires AllClean(parts[1..]) ==>
               forall a :: !Has(parts[1..], a) ==> Get(g, a) == Get(Set(f, parts[0].attr, parts[0].raw), a)
    ensures Restored(parts, g) <==> AllClean(parts)
    ensures AllClean(parts) ==> forall a :: !Has(parts, a) ==> Get(g, a) == Get(f, a)
  {
    var rest := parts[1..];
    assert forall i :: 0 <= i < |rest| ==> rest[i] == parts[i + 1];
    assert AllClean(parts) <==> AllClean(rest);
    forall a ensures Has(parts, a) <==> parts[0].attr == a || Has(rest, a) { HasCons(parts, a); }
    assert !Has(rest, parts[0].attr);
    if AllClean(parts) {
      assert Get(g, parts[0].attr) == Want(parts[0]);
      assert Restored(parts, g);
    } else {
      assert !Restored(rest, g);
    }
  }

  // ---------------------------------------------------------------- main results

  /** Pipes become commas in every attribute but the content. */
  function Normalised(f: LogFields): LogFields {
    LogFields(f.content, PipeToComma(f.level), PipeToComma(f.source), PipeToComma(f.logType))
  }

  predicate FreeOfQuoting(f: LogFields) {
    CleanText(f.level) && CleanText(f.source) && CleanText(f.logType)
  }

  function Rank(a: Attribute): nat {
    match a
    case Message => 0
    case Level => 1
    case Source => 2
    case LogType => 3
  }

  /** The item stands for one of the first `n` attributes, as it should be read back. */
  predicate ItemOf(p: Part, f: LogFields, n: nat) {
    && Rank(p.attr) < n && p.raw != ""
    && Want(p) == Get(Normalised(f), p.attr)
    && (Clean(p) <==> p.attr == Message || CleanText(Get(f, p.attr)))
  }

  /** The items printed for the first `n` attributes. */
  ghost predicate PartsOf(parts: seq<Part>, f: LogFields, n: nat) {
    && |parts| <= n
    && Distinct(parts)
    && (forall i :: 1 <= i < |parts| ==> parts[i].attr != Message)
    && (forall i :: 0 <= i < |parts| ==> ItemOf(parts[i], f, n))
    && (forall a :: Has(parts, a) <==> Rank(a) < n && Get(f, a) != "")
  }

  lemma HasSnoc(parts: seq<Part>, p: Part, a: Attribute)
    ensures Has(parts + [p], a) <==> Has(parts, a) || p.attr == a
  {
    var more := parts + [p];
    if Has(parts, a) {
      var i :| 0 <= i < |parts| && parts[i].attr == a;
      assert more[i].attr == a;
    }
    assert more[|parts|] == p;
  }

  lemma PlainItem(f: LogFields, a: Attribute)
    requires a != Message && Get(f, a) != ""
    ensures ItemOf(Part(a, CommaSeparatedToPipe(Get(f, a))), f, Rank(a) + 1)
  {
    CleanAfterPiping(Get(f, a));
  }

  lemma RankTellsApart(a: Attribute, b: Attribute)
    ensures Rank(a) == Rank(b) <==> a == b
  {
  }

  lemma SkipPart(parts: seq<Part>, f: LogFields, a: Attribute)
    requires PartsOf(parts, f, Rank(a)) && Get(f, a) == ""
    ensures PartsOf(parts, f, Rank(a) + 1)
  {
    forall b ensures Has(parts, b) <==> Rank(b) < Rank(a) + 1 && Get(f, b) != "" {
      RankTellsApart(a, b);
    }
  }

  lemma SnocPart(parts: seq<Part>, f: LogFields, p: Part)
    requires PartsOf(parts, f, Rank(p.attr)) && p.attr != Message
    requires ItemOf(p, f, Rank(p.attr) + 1) && Get(f, p.attr) != ""
    ensures PartsOf(parts + [p], f, Rank(p.attr) + 1)
  {
    var more := parts + [p];
    assert forall i :: 0 <= i < |parts| ==> more[i] == parts[i];
    assert more[|parts|] == p;
    assert Distinct(more) by {
      assert forall i :: 0 <= i < |parts| ==> Rank(parts[i].attr) < Rank(p.attr);
    }
    forall b ensures Has(more, b) <==> Rank(b) < Rank(p.attr) + 1 && Get(f, b) != "" {
      HasSnoc(parts, p, b);
      RankTellsApart(p.attr, b);
    }
  }

  lemma NextPart(parts: seq<Part>, f: LogFields, a: Attribute)
    requires PartsOf(parts, f, Rank(a)) && a != Message
    ensures PartsOf(parts + PlainPart(a, Get(f, a)), f, Rank(a) + 1)
  {
    if Get(f, a) == "" {
      SkipPart(parts, f, a);
      assert parts + PlainPart(a, Get(f, a)) == parts;
    } else {
      PlainItem(f, a);
      SnocPart(parts, f, Part(a, CommaSeparatedToPipe(Get(f, a))));
    }
  }

  lemma PartsArePartsOf(f: LogFields)
    ensures PartsOf(Parts(f), f, 4)
  {
    var message := if f.content == "" then [] else [Part(Message, f.content)];
    assert f.content != "" ==> message[0].attr == Message;
    assert PartsOf(message, f, 1);
    NextPart(message, f, Level);
    NextPart(message + PlainPart(Level, f.level), f, Source);
    NextPart(message + PlainPart(Level, f.level) + PlainPart(Source, f.source), f, LogType);
  }

  lemma CleanPartsOf(parts: seq<Part>, f: LogFields)
    requires PartsOf(parts, f, 4)
    ensures AllClean(parts) <==> FreeOfQuoting(f)
    ensures Pending(parts, EMPTY_FIELDS)
  {
    if AllClean(parts) {
      forall a: Attribute | a != Message ensures CleanText(Get(f, a)) {
        if Get(f, a) != "" {
          assert Has(parts, a);
          var i :| 0 <= i < |parts| && parts[i].attr == a;
        }
      }
      assert CleanText(Get(f, Level)) && CleanText(Get(f, Source)) && CleanText(Get(f, LogType));
    }
  }

  /** A reading that leaves the absent attributes empty is right when the present ones are. */
  lemma RestoredIsNormalised(parts: seq<Part>, f: LogFields, g: LogFields)
    requires PartsOf(parts, f, 4)
    requires Restored(parts, g)
    requires forall a :: !Has(parts, a) ==> Get(g, a) == ""
    ensures g == Normalised(f)
  {
    forall a ensures Get(g, a) == Get(Normalised(f), a) {
      if Has(parts, a) {
        var i :| 0 <= i < |parts| && parts[i].attr == a;
      }
    }
    assert Get(g, Message) == f.content && Get(g, Level) == PipeToComma(f.level);
    assert Get(g, Source) == PipeToComma(f.source) && Get(g, LogType) == PipeToComma(f.logType);
  }

  lemma InnerOfWrapped(body: string)
    ensures Inner("events{" + body + "}") == body
  {
    Unwrap("events", body);
    assert "events{" == "events" + ['{'];
    Regroup("events{", body, "}");
  }

  lemma Unwrap(name: string, body: string)
    requires '{' !in name
    ensures Inner(name + ['{'] + (body + ['}'])) == body
  {
    IndexAfterPrefix(name, '{', body + ['}']);
    var expr := name + ['{'] + (body + ['}']);
    assert expr[|name| + 1..] == body + ['}'];
    assert (body + ['}'])[|body|] == '}';
  }

  lemma CleanAfterPiping(s: string)
    ensures CleanText(CommaSeparatedToPipe(s)) <==> CleanText(s)
    ensures PipeToComma(CommaSeparatedToPipe(s)) == PipeToComma(s)
  {
    var piped := CommaSeparatedToPipe(s);
    if '"' in s { var i :| 0 <= i < |s| && s[i] == '"'; assert piped[i] == '"'; }
    if '\\' in s { var i :| 0 <= i < |s| && s[i] == '\\'; assert piped[i] == '\\'; }
  }

  /** The exporter reads back what the controller printed, with pipes for commas undone, if and only
      if level, source and type hold neither a quote nor a backslash. The content may be anything. */
  lemma RoundTrip(f: LogFields)
    ensures ParsePairs(Inner(BuildLogEventsExpr(f)), EMPTY_FIELDS) == Normalised(f) <==> FreeOfQuoting(f)
  {
    PartsArePartsOf(f);
    RoundTripOf(Parts(f), f);
    InnerOfWrapped(Join(PrintedAll(Parts(f)), ","));
  }

  lemma RoundTripOf(parts: seq<Part>, f: LogFields)
    requires PartsOf(parts, f, 4)
    ensures ParsePairs(Join(PrintedAll(parts), ","), EMPTY_FIELDS) == Normalised(f) <==> FreeOfQuoting(f)
  {
    CleanPartsOf(parts, f);
    ParsePrinted(parts, EMPTY_FIELDS);
    ReadingDecides(parts, f, ParsePairs(Join(PrintedAll(parts), ","), EMPTY_FIELDS));
  }

  lemma ReadingDecides(parts: seq<Part>, f: LogFields, g: LogFields)
    requires PartsOf(parts, f, 4)
    requires Restored(parts, g) <==> AllClean(parts)
    requires AllClean(parts) ==> forall a :: !Has(parts, a) ==> Get(g, a) == Get(EMPTY_FIELDS, a)
    ensures g == Normalised(f) <==> AllClean(parts)
  {
    if AllClean(parts) {
      RestoredIsNormalised(parts, f, g);
    } else {
      var i :| 0 <= i < |parts| && Get(g, parts[i].attr) != Want(parts[i]);
    }
  }

  // ---------------------------------------------------------------- blanks

  /** White space around a key is ignored. */
  lemma BlanksAroundKeyAreIgnored(x: string, key: string, y: string, tail: string, f: LogFields)
    requires AllCut(x, IsSpace) && AllCut(y, IsSpace) && '=' !in key
    ensures ParsePairs(x + (key + y) + ['='] + tail, f) == ParsePairs(key + ['='] + tail, f)
  {
    NoEqualsSign(x);
    NoEqualsSign(y);
    ParseAtKey(x + (key + y), tail, f);
    ParseAtKey(key, tail, f);
    TrimIgnoresEnds(x, key, y, IsSpace);
  }

  lemma NoEqualsSign(s: string)
    requires AllCut(s, IsSpace)
    ensures '=' !in s
  {
  }

  /** What an item does to the fields, by its key and the text behind the equals sign. */
  function Item(key: string, tail: string, f: LogFields): LogFields {
    if tail == "" || tail[0] != '"' then f
    else
      var sc := ScanValue(tail[1..]);
      ParsePairs(TrimLeft(sc.rest, IsComma), Assign(f, key, sc.value))
  }

  lemma ParseAtKey(prefix: string, tail: string, f: LogFields)
    requires '=' !in prefix
    ensures ParsePairs(prefix + ['='] + tail, f) == Item(TrimSpace(prefix), tail, f)
  {
    var inner := prefix + ['='] + tail;
    IndexAfterPrefix(prefix, '=', tail);
    assert inner[..|prefix|] == prefix && inner[|prefix| + 1..] == tail;
  }
}

/** HTTP healthchecks as text: the entry the controller builds from a spec, and the spec the exporter
    reads from an entry. Headers are a map in the spec and a list of lines in the entry. */
module HealthcheckEntry {
  import opened GoStrings

  datatype Spec = Spec(
    name: string, url: string, verb: string, headers: map<string, string>, body: string, expectedStatus: int,
    interval: string, timeout: string, isReadonly: bool, tlsSkipVerify: bool, agentTypes: seq<string>)

  datatype Entry = Entry(
    id: string, name: string, http: string, verb: string, headers: seq<string>, body: string, expectedStatus: int,
    interval: string, timeout: string, isReadonly: bool, tlsSkipVerify: bool, agentTypes: seq<string>)

  // ---------------------------------------------------------------- printing

  /** `order` lists the keys of `m`, each once. */
  ghost predicate Orders(order: seq<string>, m: map<string, string>) {
    && (forall k :: k in order <==> k in m)
    && (forall i, j :: 0 <= i < j < |order| ==> order[i] != order[j])
  }

  function HeaderLine(key: string, value: string): string {
    key + ": " + value
  }

  function HeaderLines(m: map<string, string>, order: seq<string>): seq<string>
    requires forall i :: 0 <= i < |order| ==> order[i] in m
  {
    seq(|order|, i requires 0 <= i < |order| => HeaderLine(order[i], m[order[i]]))
  }

  /** The loop over the header map, whose iteration order Go leaves open. */
  method PrintHeaders(m: map<string, string>) returns (headers: seq<string>)
    ensures exists order :: Orders(order, m) && headers == HeaderLines(m, order)
  {
    headers := [];
    ghost var order: seq<string> := [];
    var todo := m.Keys;
    while todo != {}
      invariant todo <= m.Keys
      invariant forall k :: k in order <==> k in m.Keys - todo
      invariant forall i :: 0 <= i < |order| ==> order[i] in m.Keys - todo
      invariant forall i, j :: 0 <= i < j < |order| ==> order[i] != order[j]
      invariant headers == HeaderLines(m, order)
      decreases todo
    {
      var k :| k in todo;
      headers := headers + [k + ": " + m[k]];
      order := order + [k];
      todo := todo - {k};
    }
    assert Orders(order, m);
  }

  function BuildHealthcheckEntry(spec: Spec, syncedID: string, headers: seq<string>): Entry {
    Entry(syncedID, spec.name, spec.url, spec.verb, headers, spec.body, spec.expectedStatus,
          spec.interval, spec.timeout, spec.isReadonly, spec.tlsSkipVerify, spec.agentTypes)
  }

  // ---------------------------------------------------------------- parsing

  predicate IsBlank(c: char) { c == ' ' || c == '\t' }

  method IndexByte(s: string, b: char) returns (i: int)
    ensures i == IndexChar(s, b)
  {
    i := 0;
    while i < |s|
      invariant 0 <= i <= |s|
      invariant b !in s[..i]
    {
      if s[i] == b {
        IndexAfterPrefix(s[..i], b, s[i + 1..]);
        assert s == s[..i] + [b] + s[i + 1..];
        return;
      }
      i := i + 1;
    }
    assert s[..|s|] == s;
    return -1;
  }

  method TrimBlanks(s: string) returns (r: string)
    ensures r == Trim(s, IsBlank)
  {
    var start := 0;
    while start < |s| && (s[start] == ' ' || s[start] == '\t')
      invariant 0 <= start <= |s|
      invariant TrimLeft(s, IsBlank) == TrimLeft(s[start..], IsBlank)
    {
      assert s[start..][1..] == s[start + 1..];
      start := start + 1;
    }
    assert TrimLeft(s, IsBlank) == s[start..];
    var end := |s|;
    assert s[start..end] == s[start..];
    while end > start && (s[end - 1] == ' ' || s[end - 1] == '\t')
      invariant start <= end <= |s|
      invariant Trim(s, IsBlank) == TrimRight(s[start..end], IsBlank)
    {
      assert s[start..end][..end - 1 - start] == s[start..end - 1];
      end := end - 1;
    }
    return s[start..end];
  }

  function ParseLine(headers: map<string, string>, line: string): map<string, string> {
    var i := IndexChar(line, ':');
    if i >= 0 then headers[Trim(line[..i], IsBlank) := Trim(line[i + 1..], IsBlank)] else headers
  }

  function ParsedHeaders(lines: seq<string>): map<string, string> {
    if lines == [] then map[] else ParseLine(ParsedHeaders(lines[..|lines| - 1]), lines[|lines| - 1])
  }

  method ParseHeaders(lines: seq<string>) returns (headers: map<string, string>)
    ensures headers == ParsedHeaders(lines)
  {
    headers := map[];
    for n := 0 to |lines|
      invariant headers == ParsedHeaders(lines[..n])
    {
      assert lines[..n + 1][..n] == lines[..n];
      var i := IndexByte(lines[n], ':');
      if i >= 0 {
        var key := TrimBlanks(lines[n][..i]);
        var value := TrimBlanks(lines[n][i + 1..]);
        headers := headers[key := value];
      }
    }
    assert lines[..|lines|] == lines;
  }

  function Exported(e: Entry): Spec {
    Spec(e.name, e.http, e.verb, ParsedHeaders(e.headers), e.body, e.expectedStatus,
         e.interval, e.timeout, e.isReadonly, e.tlsSkipVerify, e.agentTypes)
  }

  // ---------------------------------------------------------------- round trip

  predicate GoodKey(k: string) {
    ':' !in k && Trimmed(k, IsBlank)
  }

  ghost predicate GoodHeaders(m: map<string, string>) {
    forall k :: k in m ==> GoodKey(k) && Trimmed(m[k], IsBlank)
  }

  lemma ParseGoodLine(headers: map<string, string>, k: string, v: string)
    requires GoodKey(k)
    ensures ParseLine(headers, HeaderLine(k, v)) == headers[k := Trim(v, IsBlank)]
  {
    IndexAfterPrefix(k, ':', " " + v);
    assert HeaderLine(k, v) == k + [':'] + (" " + v);
    assert HeaderLine(k, v)[..|k|] == k;
    assert HeaderLine(k, v)[|k| + 1..] == " " + v;
    assert (" " + v)[1..] == v;
    TrimIsTrimmed(k, IsBlank);
  }

  /** With good keys, printing and parsing trims the values and changes nothing else. */
  lemma {:induction false} ParsePrinted(m: map<string, string>, order: seq<string>)
    requires forall i :: 0 <= i < |order| ==> order[i] in m && GoodKey(order[i])
    ensures forall k :: k in ParsedHeaders(HeaderLines(m, order)) <==> k in order
    ensures forall k :: k in order ==> ParsedHeaders(HeaderLines(m, order))[k] == Trim(m[k], IsBlank)
  {
    if order != [] {
      var n := |order| - 1;
      ParsePrinted(m, order[..n]);
      assert HeaderLines(m, order)[..n] == HeaderLines(m, order[..n]);
      ParseGoodLine(ParsedHeaders(HeaderLines(m, order[..n])), order[n], m[order[n]]);
      assert order == order[..n] + [order[n]];
    }
  }

  /** Whatever the lines, the parser only yields keys without colons and without blanks around. */
  lemma {:induction false} ParsedKeysAreGood(lines: seq<string>)
    ensures forall k :: k in ParsedHeaders(lines) ==> GoodKey(k)
  {
    if lines != [] {
      var line := lines[|lines| - 1];
      ParsedKeysAreGood(lines[..|lines| - 1]);
      var i := IndexChar(line, ':');
      if i >= 0 {
        TrimIsTrimmed(line[..i], IsBlank);
        TrimKeepsCharacters(line[..i], IsBlank);
      }
    }
  }

  /** For every iteration order, parsing the printed headers gives the map back if and only if no key
      holds a colon and no key or value starts or ends with a space or tab. */
  lemma HeaderRoundTrip(m: map<string, string>, order: seq<string>)
    requires Orders(order, m)
    ensures ParsedHeaders(HeaderLines(m, order)) == m <==> GoodHeaders(m)
  {
    var parsed := ParsedHeaders(HeaderLines(m, order));
    ParsedKeysAreGood(HeaderLines(m, order));
    if parsed == m || GoodHeaders(m) {
      forall k | k in m ensures GoodKey(k) && (Trim(m[k], IsBlank) == m[k] <==> Trimmed(m[k], IsBlank)) {
        TrimIsTrimmed(m[k], IsBlank);
      }
      ParsePrinted(m, order);
      if GoodHeaders(m) {
        assert forall k :: k in parsed <==> k in m;
        assert parsed == m;
      }
    }
  }

  /** The exporter undoes the controller's entry under the same condition. */
  lemma HealthcheckRoundTrip(spec: Spec, syncedID: string, order: seq<string>)
    requires Orders(order, spec.headers)
    ensures Exported(BuildHealthcheckEntry(spec, syncedID, HeaderLines(spec.headers, order))) == spec
        <==> GoodHeaders(spec.headers)
  {
    HeaderRoundTrip(spec.headers, order);
  }
}

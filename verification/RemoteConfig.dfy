/** The remote-storage configuration of backups: `key = value` lines in sorted order. */
module RemoteConfig {
  import opened GoStrings
  import opened SortedKeys

  datatype Entry = Entry(key: string, value: string)

  function Line(e: Entry): string {
    e.key + (" = " + e.value)
  }

  /** The entries with non-empty values, in the order of `keys`. */
  function EntriesOf(config: map<string, string>, keys: seq<string>): seq<Entry>
    requires forall k :: k in keys ==> k in config
  {
    if keys == [] then []
    else (if config[keys[0]] != "" then [Entry(keys[0], config[keys[0]])] else []) + EntriesOf(config, keys[1..])
  }

  function Lines(es: seq<Entry>): seq<string> {
    if es == [] then [] else [Line(es[0])] + Lines(es[1..])
  }

  lemma LinesFrom(config: map<string, string>, keys: seq<string>, i: nat)
    requires i < |keys| && forall k :: k in keys ==> k in config
    ensures Lines(EntriesOf(config, keys[i..]))
         == (if config[keys[i]] != "" then [keys[i] + (" = " + config[keys[i]])] else [])
            + Lines(EntriesOf(config, keys[i + 1..]))
  {
    assert keys[i..][1..] == keys[i + 1..];
    var rest := EntriesOf(config, keys[i + 1..]);
    if config[keys[i]] != "" {
      assert ([Entry(keys[i], config[keys[i]])] + rest)[1..] == rest;
    } else {
      assert [] + rest == rest;
    }
  }

  /** The loop over the sorted keys. */
  method CollectLines(config: map<string, string>, keys: seq<string>) returns (parts: seq<string>)
    requires forall k :: k in keys ==> k in config
    ensures parts == Lines(EntriesOf(config, keys))
  {
    parts := [];
    for i := 0 to |keys|
      invariant Lines(EntriesOf(config, keys)) == parts + Lines(EntriesOf(config, keys[i..]))
    {
      LinesFrom(config, keys, i);
      assert keys[i] in keys;
      if config[keys[i]] != "" {
        parts := parts + [keys[i] + (" = " + config[keys[i]])];
      }
    }
  }

  method FormatRemoteConfig(config: map<string, string>) returns (text: string)
    ensures forall keys :: Lists(keys, config.Keys) ==> text == Join(Lines(EntriesOf(config, keys)), "\n")
  {
    var keys := SortKeys(config.Keys);
    var parts := CollectLines(config, keys);
    text := Join(parts, "\n");
    forall other | Lists(other, config.Keys) ensures other == keys {
      ListIsUnique(keys, other, config.Keys);
    }
  }

  // ---------------------------------------------------------------- a reader

  /** Position of the first " = " in `s`, or -1. */
  function FindSeparator(s: string): (i: int)
    ensures -1 <= i <= |s| - 3 || i == -1
    ensures i >= 0 ==> s[i] == ' ' && s[i + 1] == '=' && s[i + 2] == ' '
  {
    if |s| < 3 then -1
    else if s[0] == ' ' && s[1] == '=' && s[2] == ' ' then 0
    else
      var r := FindSeparator(s[1..]);
      if r < 0 then -1 else r + 1
  }

  function SplitLines(s: string): seq<string>
    decreases |s|
  {
    var i := IndexChar(s, '\n');
    if i < 0 then [s] else [s[..i]] + SplitLines(s[i + 1..])
  }

  function ReadLine(line: string): seq<Entry> {
    var i := FindSeparator(line);
    if i < 0 then [] else [Entry(line[..i], line[i + 3..])]
  }

  function ReadLines(lines: seq<string>): seq<Entry> {
    if lines == [] then [] else ReadLine(lines[0]) + ReadLines(lines[1..])
  }

  /** Splits on newlines, and each line on its first " = ". */
  function ReadConfig(text: string): seq<Entry> {
    ReadLines(SplitLines(text))
  }

  // ---------------------------------------------------------------- round trip

  /** No newline, and no separator that begins in the key. */
  predicate Readable(e: Entry) {
    '\n' !in e.key && '\n' !in e.value && FindSeparator(e.key + " ") < 0
  }

  ghost predicate AllReadable(es: seq<Entry>) {
    forall i :: 0 <= i < |es| ==> Readable(es[i])
  }

  lemma {:induction false} SeparatorBehindKey(key: string, value: string)
    requires FindSeparator(key + " ") < 0
    ensures FindSeparator(key + (" = " + value)) == |key|
  {
    var s := key + (" = " + value);
    if key == [] {
      assert s == " = " + value;
    } else {
      assert s[1..] == key[1..] + (" = " + value);
      assert (key + " ")[1..] == key[1..] + " ";
      assert |key| >= 2 ==> (key + " ")[0] == s[0] && (key + " ")[1] == s[1] && (key + " ")[2] == s[2];
      SeparatorBehindKey(key[1..], value);
    }
  }

  lemma {:induction false} NoSeparatorBefore(s: string)
    requires FindSeparator(s) >= 0
    ensures FindSeparator(s[..FindSeparator(s)] + " ") < 0
  {
    var i := FindSeparator(s);
    if i > 0 {
      assert FindSeparator(s[1..]) == i - 1;
      NoSeparatorBefore(s[1..]);
      assert s[1..][..i - 1] == s[..i][1..];
      var t := s[..i] + " ";
      assert t[1..] == s[..i][1..] + " ";
      assert |t| >= 3 ==> t[0] == s[0] && t[1] == s[1] && t[2] == s[2];
    }
  }

  /** A keyword-free first part keeps the rest of the text intact. */
  lemma SplitFirst(line: string, rest: string)
    requires '\n' !in line
    ensures SplitLines(line) == [line]
    ensures SplitLines(line + ("\n" + rest)) == [line] + SplitLines(rest)
  {
    IndexAfterPrefix(line, '\n', rest);
    var s := line + ['\n'] + rest;
    assert line + ("\n" + rest) == s;
    assert s[..|line|] == line && s[|line| + 1..] == rest;
  }

  lemma ReadLinesCons(line: string, rest: seq<string>)
    ensures ReadLines([line] + rest) == ReadLine(line) + ReadLines(rest)
  {
    assert ([line] + rest)[1..] == rest;
  }

  lemma JoinLines(es: seq<Entry>)
    requires |es| > 1
    ensures Join(Lines(es), "\n") == Line(es[0]) + ("\n" + Join(Lines(es[1..]), "\n"))
  {
    assert Lines(es)[1..] == Lines(es[1..]);
    assert Lines(es[1..]) != [];
    JoinCons(Lines(es), "\n");
  }

  lemma {:induction false} ReadSingle(line: string)
    requires '\n' !in line
    ensures ReadConfig(line) == ReadLine(line)
  {
    SplitFirst(line, "");
    ReadLinesCons(line, []);
    assert [line] + [] == [line];
    assert ReadLine(line) + [] == ReadLine(line);
  }

  lemma {:induction false} ReadableIsRead(es: seq<Entry>)
    requires AllReadable(es)
    ensures ReadConfig(Join(Lines(es), "\n")) == es
  {
    if es == [] {
      ReadSingle("");
    } else {
      LineIsRead(es[0]);
      assert '\n' !in Line(es[0]);
      if |es| == 1 {
        ReadSingle(Line(es[0]));
        assert Lines(es) == [Line(es[0])];
        assert es == [es[0]];
      } else {
        var rest := Join(Lines(es[1..]), "\n");
        JoinLines(es);
        ReadableIsRead(es[1..]);
        SplitFirst(Line(es[0]), rest);
        ReadLinesCons(Line(es[0]), SplitLines(rest));
        assert es == [es[0]] + es[1..];
      }
    }
  }

  lemma LineIsRead(e: Entry)
    requires Readable(e)
    ensures ReadLine(Line(e)) == [e]
  {
    SeparatorBehindKey(e.key, e.value);
    assert Line(e)[..|e.key|] == e.key;
    assert Line(e)[|e.key| + 3..] == e.value;
  }

  /** The reader only ever yields readable entries. */
  lemma {:induction false} ReadLinesReadable(lines: seq<string>)
    requires forall i :: 0 <= i < |lines| ==> '\n' !in lines[i]
    ensures AllReadable(ReadLines(lines))
  {
    if lines != [] {
      ReadLinesReadable(lines[1..]);
      var i := FindSeparator(lines[0]);
      if i >= 0 {
        NoSeparatorBefore(lines[0]);
        assert forall c :: c in lines[0][..i] || c in lines[0][i + 3..] ==> c in lines[0];
      }
    }
  }

  lemma {:induction false} SplitLinesClean(s: string)
    ensures forall i :: 0 <= i < |SplitLines(s)| ==> '\n' !in SplitLines(s)[i]
    decreases |s|
  {
    var i := IndexChar(s, '\n');
    if i >= 0 {
      SplitLinesClean(s[i + 1..]);
    }
  }

  /** For any enumeration order of the map: reading the printed configuration gives back exactly the
      entries with non-empty values, in sorted order, if and only if no such entry holds a newline or
      has a separator beginning in its key. */
  lemma RemoteConfigRoundTrip(config: map<string, string>, keys: seq<string>)
    requires Lists(keys, config.Keys)
    ensures var es := EntriesOf(config, keys);
            ReadConfig(Join(Lines(es), "\n")) == es <==> AllReadable(es)
  {
    var es := EntriesOf(config, keys);
    if AllReadable(es) {
      ReadableIsRead(es);
    } else {
      SplitLinesClean(Join(Lines(es), "\n"));
      ReadLinesReadable(SplitLines(Join(Lines(es), "\n")));
    }
  }

  /** In particular, keys without spaces, equals signs and newlines are always readable. */
  lemma {:induction false} PlainKeyIsReadable(key: string)
    requires ' ' !in key
    ensures FindSeparator(key + " ") < 0
  {
    if key != [] {
      assert (key + " ")[0] == key[0] != ' ';
      assert (key + " ")[1..] == key[1..] + " ";
      PlainKeyIsReadable(key[1..]);
    }
  }

  /** The printed entries are the map's non-empty ones. */
  lemma {:induction false} EntriesAreNonEmpty(config: map<string, string>, keys: seq<string>, k: string, v: string)
    requires forall x :: x in keys ==> x in config
    ensures Entry(k, v) in EntriesOf(config, keys) <==> k in keys && config[k] == v && v != ""
  {
    if keys != [] {
      EntriesAreNonEmpty(config, keys[1..], k, v);
      assert keys == [keys[0]] + keys[1..];
    }
  }
}

/** The text that the configuration hashes are computed from. Hashing itself is a parameter. */
module ConfigHash {
  import opened GoStrings
  import opened Sequences
  import opened SortedKeys

  function Line(key: string, value: string): string {
    key + ("=" + (value + "\n"))
  }

  function Preimage(m: map<string, string>, keys: seq<string>): string
    requires forall k :: k in keys ==> k in m
  {
    if keys == [] then "" else Line(keys[0], m[keys[0]]) + Preimage(m, keys[1..])
  }

  /** The writing loop. */
  method WriteLines(data: map<string, string>, keys: seq<string>) returns (written: string)
    requires forall k :: k in keys ==> k in data
    ensures written == Preimage(data, keys)
  {
    written := "";
    for i := 0 to |keys|
      invariant Preimage(data, keys) == written + Preimage(data, keys[i..])
    {
      assert keys[i..][1..] == keys[i + 1..];
      assert keys[i] in keys;
      var line := keys[i] + ("=" + (data[keys[i]] + "\n"));
      assert written + (line + Preimage(data, keys[i + 1..])) == (written + line) + Preimage(data, keys[i + 1..]);
      written := written + line;
    }
  }

  /** Both hash functions of the source: for byte values and for string values they write the same
      bytes. The result depends on the map alone, not on the order in which its keys come out. */
  method ConfigDataHash(data: map<string, string>, digest: string -> string) returns (hash: string)
    ensures data == map[] ==> hash == ""
    ensures data != map[] ==> forall keys :: Lists(keys, data.Keys) ==> hash == digest(Preimage(data, keys))
  {
    if |data| == 0 {
      return "";
    }
    var keys := SortKeys(data.Keys);
    var written := WriteLines(data, keys);
    hash := digest(written);
    forall other | Lists(other, data.Keys) ensures hash == digest(Preimage(data, other)) {
      ListIsUnique(keys, other, data.Keys);
    }
  }

  /** Keys without `=`. */
  ghost predicate PlainKeys(m: map<string, string>) {
    forall k :: k in m ==> '=' !in k
  }

  /** Keys without `=`, values without newline. */
  ghost predicate Unambiguous(m: map<string, string>) {
    PlainKeys(m) && forall k :: k in m ==> '\n' !in m[k]
  }

  lemma LinesDiffer(k1: string, v1: string, rest1: string, k2: string, v2: string, rest2: string)
    requires '=' !in k1 && '=' !in k2 && '\n' !in v1 && '\n' !in v2
    requires Line(k1, v1) + rest1 == Line(k2, v2) + rest2
    ensures k1 == k2 && v1 == v2 && rest1 == rest2
  {
    var tail1 := v1 + "\n" + rest1;
    var tail2 := v2 + "\n" + rest2;
    assert Line(k1, v1) + rest1 == k1 + ['='] + tail1;
    assert Line(k2, v2) + rest2 == k2 + ['='] + tail2;
    SameSplit(k1, '=', tail1, k2, tail2);
    assert tail1 == v1 + ['\n'] + rest1 && tail2 == v2 + ['\n'] + rest2;
    SameSplit(v1, '\n', rest1, v2, rest2);
  }

  lemma SameSplit(a1: string, c: char, b1: string, a2: string, b2: string)
    requires c !in a1 && c !in a2
    requires a1 + [c] + b1 == a2 + [c] + b2
    ensures a1 == a2 && b1 == b2
  {
    IndexAfterPrefix(a1, c, b1);
    IndexAfterPrefix(a2, c, b2);
    assert (a1 + [c] + b1)[..|a1|] == a1 && (a2 + [c] + b2)[..|a2|] == a2;
    assert (a1 + [c] + b1)[|a1| + 1..] == b1 && (a2 + [c] + b2)[|a2| + 1..] == b2;
  }

  lemma {:induction false} PreimageTellsApart(
    m1: map<string, string>, keys1: seq<string>, m2: map<string, string>, keys2: seq<string>)
    requires forall k :: k in keys1 ==> k in m1
    requires forall k :: k in keys2 ==> k in m2
    requires Unambiguous(m1) && Unambiguous(m2)
    requires Preimage(m1, keys1) == Preimage(m2, keys2)
    ensures keys1 == keys2 && forall k :: k in keys1 ==> m1[k] == m2[k]
  {
    if keys1 != [] && keys2 != [] {
      LinesDiffer(keys1[0], m1[keys1[0]], Preimage(m1, keys1[1..]), keys2[0], m2[keys2[0]], Preimage(m2, keys2[1..]));
      PreimageTellsApart(m1, keys1[1..], m2, keys2[1..]);
      assert keys1 == [keys1[0]] + keys1[1..] && keys2 == [keys2[0]] + keys2[1..];
    }
  }

  /** The hashed text determines the map, among maps whose keys have no `=` and whose values have no
      newline: equal texts, equal maps. So a changed configuration changes the text. */
  lemma PreimageIsInjective(m1: map<string, string>, keys1: seq<string>, m2: map<string, string>, keys2: seq<string>)
    requires Lists(keys1, m1.Keys) && Lists(keys2, m2.Keys)
    requires Unambiguous(m1) && Unambiguous(m2)
    ensures Preimage(m1, keys1) == Preimage(m2, keys2) <==> m1 == m2
  {
    if Preimage(m1, keys1) == Preimage(m2, keys2) {
      PreimageTellsApart(m1, keys1, m2, keys2);
      assert m1.Keys == m2.Keys;
    } else if m1 == m2 {
      ListIsUnique(keys1, keys2, m1.Keys);
    }
  }

  /** An equals sign in a key makes two different maps hash alike... */
  lemma EqualsSignInKey(a: string, b: string, c: string)
    ensures Preimage(map[a + "=" + b := c], [a + "=" + b]) == Preimage(map[a := b + "=" + c], [a])
    ensures map[a + "=" + b := c] != map[a := b + "=" + c]
  {
    assert Line(a + "=" + b, c) == Line(a, b + "=" + c);
    var m := map[a + "=" + b := c];
    assert a !in m;
    assert a in map[a := b + "=" + c];
  }

  /** ... and so does a newline in a value. */
  lemma NewlineInValue(a: string, v: string, b: string, w: string)
    requires Less(a, b)
    ensures var m1 := map[a := v + "\n" + b + "=" + w];
            var m2 := map[a := v, b := w];
            Lists([a], m1.Keys) && Lists([a, b], m2.Keys) && Preimage(m1, [a]) == Preimage(m2, [a, b]) && m1 != m2
  {
    LessIsTotal(a, b);
    var m1 := map[a := v + "\n" + b + "=" + w];
    var m2 := map[a := v, b := w];
    assert [a, b][1..] == [b];
    assert Preimage(m2, [b]) == Line(b, w) + Preimage(m2, [b][1..]);
    assert Preimage(m2, [a, b]) == Line(a, v) + Preimage(m2, [b]);
    assert Preimage(m1, [a]) == Line(a, v + "\n" + b + "=" + w) + Preimage(m1, [a][1..]);
    assert Line(a, v + "\n" + b + "=" + w) == Line(a, v) + Line(b, w);
    assert b in m2;
  }

  // ---------------------------------------------------------------- who shares a text

  /** The value holds a line that reads like an entry with a later key. */
  ghost predicate Splits(key: string, value: string, p: string, q: string, r: string) {
    value == p + ("\n" + (q + ("=" + r))) && '=' !in q && Less(key, q)
  }

  ghost predicate Splittable(key: string, value: string) {
    exists p, q, r :: Splits(key, value, p, q, r)
  }

  /** Another map with plain keys has the same text. */
  ghost predicate SharesText(m: map<string, string>, keys: seq<string>)
    requires forall k :: k in keys ==> k in m
  {
    exists m': map<string, string>, keys' | Lists(keys', m'.Keys) && PlainKeys(m') ::
      m' != m && Preimage(m', keys') == Preimage(m, keys)
  }

  lemma {:induction false} PreimageLooksAtKeys(m: map<string, string>, m': map<string, string>, keys: seq<string>)
    requires forall k :: k in keys ==> k in m && k in m' && m[k] == m'[k]
    ensures Preimage(m, keys) == Preimage(m', keys)
  {
    if keys != [] {
      PreimageLooksAtKeys(m, m', keys[1..]);
    }
  }

  lemma LineJoins(k1: string, v1: string, k2: string, v2: string)
    ensures Line(k1, v1 + ("\n" + (k2 + ("=" + v2)))) == Line(k1, v1) + Line(k2, v2)
  {
  }

  lemma PreimageOfTwo(m: map<string, string>, keys: seq<string>)
    requires |keys| >= 2 && forall k :: k in keys ==> k in m
    ensures Preimage(m, keys) == Line(keys[0], m[keys[0]]) + (Line(keys[1], m[keys[1]]) + Preimage(m, keys[2..]))
  {
    assert keys[1..][1..] == keys[2..] && keys[1..][0] == keys[1];
  }

  function Merged(m: map<string, string>, k1: string, k2: string): map<string, string>
    requires k1 in m && k2 in m
  {
    (m - {k2})[k1 := m[k1] + ("\n" + (k2 + ("=" + m[k2])))]
  }

  lemma BehindTheFirst(keys: seq<string>, k: string)
    requires Sorted(keys) && |keys| >= 2 && k in keys[2..]
    ensures k in keys && k != keys[0] && k != keys[1]
  {
    var i :| 0 <= i < |keys[2..]| && keys[2..][i] == k;
    assert keys[i + 2] == k;
    LessIsTotal(keys[0], k);
    LessIsTotal(keys[1], k);
  }

  lemma MergedIsListed(m: map<string, string>, keys: seq<string>)
    requires Lists(keys, m.Keys) && |keys| >= 2
    ensures keys[0] != keys[1]
    ensures Lists([keys[0]] + keys[2..], Merged(m, keys[0], keys[1]).Keys)
  {
    var k1, k2, rest := keys[0], keys[1], keys[2..];
    LessIsTotal(k1, k2);
    assert keys == [k1, k2] + rest;
    forall k ensures k in [k1] + rest <==> k in Merged(m, k1, k2) {
      if k in rest {
        BehindTheFirst(keys, k);
      }
    }
    forall i, j | 0 <= i < j < |rest| + 1 ensures Less(([k1] + rest)[i], ([k1] + rest)[j]) {
      assert ([k1] + rest)[j] == keys[j + 1];
      assert ([k1] + rest)[i] == if i == 0 then keys[0] else keys[i + 1];
    }
  }

  /** Two neighbouring entries read like one whose value holds the second line. */
  lemma NeighboursMerge(m: map<string, string>, keys: seq<string>)
    requires Lists(keys, m.Keys) && PlainKeys(m) && |keys| >= 2
    ensures SharesText(m, keys)
  {
    var k1, k2, rest := keys[0], keys[1], keys[2..];
    var m', keys' := Merged(m, k1, k2), [k1] + rest;
    MergedIsListed(m, keys);
    forall k | k in rest ensures k in m && k in m' && m'[k] == m[k] {
      BehindTheFirst(keys, k);
    }
    PreimageLooksAtKeys(m, m', rest);
    PreimageOfTwo(m, keys);
    LineJoins(k1, m[k1], k2, m[k2]);
    Regroup(Line(k1, m[k1]), Line(k2, m[k2]), Preimage(m, rest));
    assert keys'[1..] == rest;
    assert k2 in m && k2 !in m';
  }

  lemma SplitShares(key: string, value: string, p: string, q: string, r: string)
    requires '=' !in key && Splits(key, value, p, q, r)
    ensures SharesText(map[key := value], [key])
  {
    LessIsTotal(key, q);
    var m' := map[key := p, q := r];
    assert Lists([key, q], m'.Keys) && PlainKeys(m');
    PreimageOfTwo(m', [key, q]);
    LineJoins(key, p, q, r);
    assert Preimage(map[key := value], [key]) == Line(key, value) + Preimage(map[key := value], [key][1..]);
    assert q in m';
  }

  /** A line and any lines behind it end with a newline. */
  lemma {:induction false} TailEndsLine(q: string, v: string, m: map<string, string>, keys: seq<string>)
    requires forall k :: k in keys ==> k in m
    ensures exists r :: Line(q, v) + Preimage(m, keys) == q + ("=" + (r + "\n"))
    decreases |keys|
  {
    if keys == [] {
      assert Line(q, v) + Preimage(m, keys) == q + ("=" + (v + "\n"));
    } else {
      var k := keys[0];
      TailEndsLine(k, m[k], m, keys[1..]);
      var r :| Preimage(m, keys) == k + ("=" + (r + "\n"));
      var r' := v + ("\n" + (k + ("=" + r)));
      assert Line(q, v) + Preimage(m, keys) == q + ("=" + (r' + "\n"));
    }
  }

  /** Where a text is one line, any reading of it starts with the line's key and a part of its value. */
  lemma FirstEntryIsPart(key: string, value: string, m': map<string, string>, keys': seq<string>)
    requires '=' !in key && PlainKeys(m') && keys' != [] && forall k :: k in keys' ==> k in m'
    requires Preimage(m', keys') == Line(key, value)
    ensures keys'[0] == key && value + "\n" == m'[key] + ("\n" + Preimage(m', keys'[1..]))
  {
    var k, tail := keys'[0], Preimage(m', keys'[1..]);
    assert Line(k, m'[k]) + tail == k + ['='] + (m'[k] + ("\n" + tail));
    assert Line(key, value) == key + ['='] + (value + "\n");
    SameSplit(k, '=', m'[k] + ("\n" + tail), key, value + "\n");
  }

  lemma SameBeforeNewline(a: string, b: string)
    requires a + "\n" == b + "\n"
    ensures a == b
  {
    assert (a + "\n")[..|a|] == a && (b + "\n")[..|b|] == b;
  }

  lemma OneEntryIsSame(key: string, value: string, m': map<string, string>)
    requires '=' !in key && Lists([key], m'.Keys) && PlainKeys(m')
    requires Preimage(m', [key]) == Line(key, value)
    ensures m' == map[key := value]
  {
    FirstEntryIsPart(key, value, m', [key]);
    assert Preimage(m', [key][1..]) == "";
    SameBeforeNewline(value, m'[key]);
  }

  lemma TwoEntriesSplit(key: string, value: string, m': map<string, string>, keys': seq<string>)
    requires '=' !in key && Lists(keys', m'.Keys) && PlainKeys(m') && |keys'| >= 2
    requires Preimage(m', keys') == Line(key, value)
    ensures Splittable(key, value)
  {
    FirstEntryIsPart(key, value, m', keys');
    var q := keys'[1];
    assert keys'[1..][1..] == keys'[2..] && keys'[1..][0] == q;
    TailEndsLine(q, m'[q], m', keys'[2..]);
    var r :| Preimage(m', keys'[1..]) == q + ("=" + (r + "\n"));
    var v := m'[key] + ("\n" + (q + ("=" + r)));
    assert value + "\n" == v + "\n";
    SameBeforeNewline(value, v);
    assert Splits(key, value, m'[key], q, r);
  }

  lemma NonEmptyText(m: map<string, string>, keys: seq<string>)
    requires Lists(keys, m.Keys)
    ensures Preimage(m, keys) == "" <==> m == map[]
    ensures m == map[] <==> keys == []
  {
    if keys == [] {
      assert forall k :: k in m ==> k in keys;
    } else {
      assert keys[0] in m;
    }
  }

  /** Among maps with plain keys but any values, the text is shared in exactly two cases: there are two
      entries or more, which read like one with a longer value, or the only value splits. */
  lemma SharedTextExactly(m: map<string, string>, keys: seq<string>)
    requires Lists(keys, m.Keys) && PlainKeys(m)
    ensures SharesText(m, keys) <==> |keys| >= 2 || (|keys| == 1 && Splittable(keys[0], m[keys[0]]))
  {
    NonEmptyText(m, keys);
    if |keys| >= 2 {
      NeighboursMerge(m, keys);
    } else if |keys| == 1 {
      SingleEntry(m, keys[0]);
      assert keys == [keys[0]];
    } else {
      forall m': map<string, string>, keys' | Lists(keys', m'.Keys) && Preimage(m', keys') == ""
        ensures m' == m
      {
        NonEmptyText(m', keys');
      }
    }
  }

  lemma SingleEntry(m: map<string, string>, key: string)
    requires Lists([key], m.Keys) && PlainKeys(m)
    ensures SharesText(m, [key]) <==> Splittable(key, m[key])
  {
    var value := m[key];
    assert m == map[key := value] by {
      assert forall k :: k in m ==> k in [key];
    }
    assert Preimage(m, [key]) == Line(key, value) + Preimage(m, [key][1..]);
    if Splittable(key, value) {
      var p, q, r :| Splits(key, value, p, q, r);
      SplitShares(key, value, p, q, r);
    } else {
      forall m': map<string, string>, keys' | Lists(keys', m'.Keys) && PlainKeys(m')
                                              && Preimage(m', keys') == Preimage(m, [key])
        ensures m' == m
      {
        NonEmptyText(m', keys');
        FirstEntryIsPart(key, value, m', keys');
        if |keys'| >= 2 {
          TwoEntriesSplit(key, value, m', keys');
        } else {
          assert keys' == [key];
          OneEntryIsSame(key, value, m');
        }
      }
    }
  }
}

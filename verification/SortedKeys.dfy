/** Map keys in their one sorted order, however Go happens to enumerate them. */
module SortedKeys {

  /** The order of Go strings. */
  predicate Less(a: string, b: string) {
    b != [] && (a == [] || a[0] < b[0] || (a[0] == b[0] && Less(a[1..], b[1..])))
  }

  lemma {:induction false} LessIsTotal(a: string, b: string)
    ensures Less(a, b) || Less(b, a) || a == b
    ensures !(Less(a, b) && Less(b, a))
    ensures !Less(a, a)
  {
    if a != [] {
      LessIsTotal(a[1..], if b == [] then [] else b[1..]);
      if b != [] && a[0] == b[0] && a[1..] == b[1..] {
        assert a == [a[0]] + a[1..] && b == [b[0]] + b[1..];
      }
    }
  }

  lemma {:induction false} LessIsTransitive(a: string, b: string, c: string)
    requires Less(a, b) && Less(b, c)
    ensures Less(a, c)
  {
    if a != [] && a[0] == b[0] && b[0] == c[0] {
      LessIsTransitive(a[1..], b[1..], c[1..]);
    }
  }

  ghost predicate Sorted(s: seq<string>) {
    forall i, j :: 0 <= i < j < |s| ==> Less(s[i], s[j])
  }

  /** `s` lists the keys once each, in order. */
  ghost predicate Lists(s: seq<string>, keys: set<string>) {
    Sorted(s) && forall k :: k in s <==> k in keys
  }

  lemma {:induction false} ListIsUnique(s: seq<string>, t: seq<string>, keys: set<string>)
    requires Lists(s, keys) && Lists(t, keys)
    ensures s == t
  {
    EmptyList(s, keys);
    EmptyList(t, keys);
    if keys != {} {
      assert s[0] in keys && s[0] in t;
      assert t[0] in keys && t[0] in s;
      HeadIsLeast(s, t[0]);
      HeadIsLeast(t, s[0]);
      LessIsTotal(s[0], t[0]);
      TailLists(s, keys);
      TailLists(t, keys);
      ListIsUnique(s[1..], t[1..], keys - {s[0]});
      assert s == [s[0]] + s[1..] && t == [t[0]] + t[1..];
    }
  }

  lemma EmptyList(s: seq<string>, keys: set<string>)
    requires Lists(s, keys)
    ensures s == [] <==> keys == {}
  {
    if s != [] {
      assert s[0] in keys;
    }
  }

  lemma HeadIsLeast(s: seq<string>, k: string)
    requires Sorted(s) && k in s
    ensures s[0] == k || Less(s[0], k)
  {
  }

  lemma TailLists(s: seq<string>, keys: set<string>)
    requires Lists(s, keys) && s != []
    ensures Lists(s[1..], keys - {s[0]})
  {
    forall k ensures k in s[1..] <==> k in keys - {s[0]} {
      assert k in s <==> k == s[0] || k in s[1..] by {
        assert s == [s[0]] + s[1..];
      }
      if k in s[1..] {
        var i :| 0 <= i < |s| - 1 && s[1..][i] == k;
        assert Less(s[0], s[i + 1]);
        LessIsTotal(s[0], s[0]);
      }
    }
  }

  /** One step of the sort: `k` goes before the first greater key. */
  method Insert(s: seq<string>, k: string) returns (r: seq<string>)
    requires Sorted(s) && k !in s
    ensures Sorted(r) && forall x :: x in r <==> x == k || x in s
  {
    var i := 0;
    while i < |s| && Less(s[i], k)
      invariant 0 <= i <= |s|
      invariant forall j :: 0 <= j < i ==> Less(s[j], k)
    {
      i := i + 1;
    }
    r := s[..i] + [k] + s[i..];
    assert r[i] == k;
    forall j | i <= j < |s| ensures Less(k, s[j]) {
      LessIsTotal(s[i], k);
      assert s[i] in s;
      if i < j {
        LessIsTransitive(k, s[i], s[j]);
      }
    }
    forall x ensures x in r <==> x == k || x in s {
      assert s == s[..i] + s[i..];
    }
  }

  /** Collects the keys in any order and sorts them. */
  method SortKeys(keys: set<string>) returns (r: seq<string>)
    ensures Lists(r, keys)
  {
    r := [];
    var todo := keys;
    while todo != {}
      invariant todo <= keys && Sorted(r)
      invariant forall k :: k in r <==> k in keys - todo
      decreases todo
    {
      var k :| k in todo;
      r := Insert(r, k);
      todo := todo - {k};
    }
  }

  /** The first place where the two differ decides, by the lesser character; a proper prefix comes first. */
  ghost predicate DiffersAt(a: string, b: string, k: nat) {
    k <= |a| && k < |b| && a[..k] == b[..k] && (k < |a| ==> a[k] < b[k])
  }

  lemma {:induction false} LessIsLexicographic(a: string, b: string)
    ensures Less(a, b) <==> exists k: nat :: DiffersAt(a, b, k)
  {
    if b == [] {
    } else if a == [] || a[0] < b[0] {
      assert DiffersAt(a, b, 0);
    } else {
      LessIsLexicographic(a[1..], b[1..]);
      if Less(a, b) {
        var k: nat :| DiffersAt(a[1..], b[1..], k);
        assert a[..k + 1] == [a[0]] + a[1..][..k] && b[..k + 1] == [b[0]] + b[1..][..k];
        assert DiffersAt(a, b, k + 1);
      }
      if exists k: nat :: DiffersAt(a, b, k) {
        var k: nat :| DiffersAt(a, b, k);
        assert k > 0;
        assert a[..k][0] == b[..k][0];
        assert a[1..][..k - 1] == a[..k][1..] && b[1..][..k - 1] == b[..k][1..];
        assert DiffersAt(a[1..], b[1..], k - 1);
      }
    }
  }
}

/** Dashboard templates: the merge of one dashboard into the list that is written back as a whole, and
    its removal. */
module DashboardMerge {
  import opened Sequences

  datatype Dashboard = Dashboard(uuid: string, name: string, filters: string, panels: string)

  /** Every dashboard of the name is replaced, keeping its UUID. */
  function Replaced(list: seq<Dashboard>, desired: Dashboard): seq<Dashboard> {
    if list == [] then []
    else
      [if list[0].name == desired.name then desired.(uuid := list[0].uuid) else list[0]]
      + Replaced(list[1..], desired)
  }

  predicate HasName(list: seq<Dashboard>, name: string) {
    list != [] && (list[0].name == name || HasName(list[1..], name))
  }

  function Merged(list: seq<Dashboard>, desired: Dashboard): seq<Dashboard> {
    if HasName(list, desired.name) then Replaced(list, desired) else list + [desired]
  }

  function Without(list: seq<Dashboard>, name: string): seq<Dashboard> {
    if list == [] then [] else (if list[0].name == name then [] else [list[0]]) + Without(list[1..], name)
  }

  method MergeDashboard(existing: seq<Dashboard>, wanted: Dashboard) returns (result: seq<Dashboard>)
    ensures result == Merged(existing, wanted)
  {
    var desired := wanted;
    result := [];
    var found := false;
    for i := 0 to |existing|
      invariant desired == wanted.(uuid := desired.uuid) && (!found ==> desired == wanted)
      invariant HasName(existing, wanted.name) <==> found || HasName(existing[i..], wanted.name)
      invariant Replaced(existing, wanted) == result + Replaced(existing[i..], wanted)
    {
      UnfoldAt(existing, wanted, i);
      ghost var entry := if existing[i].name == wanted.name then wanted.(uuid := existing[i].uuid) else existing[i];
      MoveAcross(result, entry, Replaced(existing[i + 1..], wanted));
      if existing[i].name == desired.name {
        desired := desired.(uuid := existing[i].uuid);
        result := result + [desired];
        found := true;
      } else {
        result := result + [existing[i]];
      }
    }
    if !found {
      ReplacedAbsent(existing, wanted);
      result := result + [desired];
    }
  }

  lemma {:induction false} ReplacedAbsent(list: seq<Dashboard>, d: Dashboard)
    requires !HasName(list, d.name)
    ensures Replaced(list, d) == list
  {
    if list != [] {
      ReplacedAbsent(list[1..], d);
    }
  }

  lemma UnfoldAt(list: seq<Dashboard>, d: Dashboard, i: nat)
    requires i < |list|
    ensures Replaced(list[i..], d)
         == [if list[i].name == d.name then d.(uuid := list[i].uuid) else list[i]] + Replaced(list[i + 1..], d)
    ensures HasName(list[i..], d.name) <==> list[i].name == d.name || HasName(list[i + 1..], d.name)
  {
    assert list[i..][1..] == list[i + 1..];
  }

  lemma WithoutAt(list: seq<Dashboard>, name: string, r: seq<Dashboard>, i: nat)
    requires i < |list|
    ensures r + Without(list[i..], name)
         == (if list[i].name == name then r else r + [list[i]]) + Without(list[i + 1..], name)
    ensures HasName(list[i..], name) <==> list[i].name == name || HasName(list[i + 1..], name)
  {
    assert list[i..][1..] == list[i + 1..];
    MoveAcross(r, list[i], Without(list[i + 1..], name));
  }

  /** The deletion filter; `found` tells whether a write is needed. */
  method RemoveDashboard(existing: seq<Dashboard>, name: string) returns (filtered: seq<Dashboard>, found: bool)
    ensures filtered == Without(existing, name)
    ensures found <==> HasName(existing, name)
  {
    filtered := [];
    found := false;
    for i := 0 to |existing|
      invariant filtered + Without(existing[i..], name) == Without(existing, name)
      invariant HasName(existing, name) <==> found || HasName(existing[i..], name)
    {
      WithoutAt(existing, name, filtered, i);
      if existing[i].name == name {
        found := true;
      } else {
        filtered := filtered + [existing[i]];
      }
    }
  }

  // ---------------------------------------------------------------- algebra

  lemma {:induction false} ReplacedPointwise(list: seq<Dashboard>, d: Dashboard)
    ensures |Replaced(list, d)| == |list|
    ensures forall i :: 0 <= i < |list| ==>
              Replaced(list, d)[i] == if list[i].name == d.name then d.(uuid := list[i].uuid) else list[i]
  {
    if list != [] {
      ReplacedPointwise(list[1..], d);
    }
  }

  lemma {:induction false} HasNameMeans(list: seq<Dashboard>, name: string)
    ensures HasName(list, name) <==> exists i :: 0 <= i < |list| && list[i].name == name
  {
    if list != [] {
      HasNameMeans(list[1..], name);
      if HasName(list[1..], name) {
        var i :| 0 <= i < |list| - 1 && list[1..][i].name == name;
        assert list[i + 1].name == name;
      }
      if exists i :: 0 <= i < |list| && list[i].name == name {
        var i :| 0 <= i < |list| && list[i].name == name;
        if i > 0 {
          assert list[1..][i - 1].name == name;
        }
      }
    }
  }

  ghost predicate UniqueNames(list: seq<Dashboard>) {
    forall i, j :: 0 <= i < j < |list| ==> list[i].name != list[j].name
  }

  /** Merging keeps every place in the list: other dashboards are untouched, the merged one keeps its
      position and UUID or comes last. */
  lemma MergeKeepsTheRest(list: seq<Dashboard>, d: Dashboard)
    ensures var r := Merged(list, d);
            && |list| <= |r|
            && (forall i :: 0 <= i < |list| ==>
                  r[i] == if list[i].name == d.name then d.(uuid := list[i].uuid) else list[i])
            && (if HasName(list, d.name) then |r| == |list| else r == list + [d])
  {
    ReplacedPointwise(list, d);
    HasNameMeans(list, d.name);
  }

  lemma MergeKeepsUnique(list: seq<Dashboard>, d: Dashboard)
    requires UniqueNames(list)
    ensures UniqueNames(Merged(list, d))
  {
    MergeKeepsTheRest(list, d);
    HasNameMeans(list, d.name);
  }

  lemma SamePointwise(a: seq<Dashboard>, b: seq<Dashboard>)
    requires |a| == |b| && forall i :: 0 <= i < |a| ==> a[i] == b[i]
    ensures a == b
  {
  }

  /** Merging the same dashboard again changes nothing. */
  lemma MergeIsIdempotent(list: seq<Dashboard>, d: Dashboard)
    ensures Merged(Merged(list, d), d) == Merged(list, d)
  {
    var r := Merged(list, d);
    MergeKeepsTheRest(list, d);
    MergedHasName(list, d, d.name);
    ReplacedPointwise(r, d);
    SamePointwise(Replaced(r, d), r);
  }

  lemma {:induction false} WithoutAppend(a: seq<Dashboard>, d: Dashboard, name: string)
    ensures Without(a + [d], name) == Without(a, name) + (if d.name == name then [] else [d])
  {
    if a == [] {
      assert a + [d] == [d];
    } else {
      WithoutAppend(a[1..], d, name);
      assert (a + [d])[1..] == a[1..] + [d];
      if a[0].name != name {
        assert Without(a + [d], name) == [a[0]] + Without(a[1..] + [d], name);
      }
    }
  }

  lemma {:induction false} WithoutReplaced(list: seq<Dashboard>, d: Dashboard)
    ensures Without(Replaced(list, d), d.name) == Without(list, d.name)
  {
    if list != [] {
      WithoutReplaced(list[1..], d);
      assert Replaced(list, d)[1..] == Replaced(list[1..], d);
    }
  }

  /** Deleting a merged dashboard leaves the list as if the name had never been in it. */
  lemma DeleteUndoesMerge(list: seq<Dashboard>, d: Dashboard)
    ensures Without(Merged(list, d), d.name) == Without(list, d.name)
    ensures !HasName(list, d.name) ==> Without(Merged(list, d), d.name) == list
  {
    WithoutReplaced(list, d);
    WithoutAppend(list, d, d.name);
    WithoutAbsent(list, d.name);
  }

  lemma {:induction false} WithoutAbsent(list: seq<Dashboard>, name: string)
    ensures !HasName(list, name) ==> Without(list, name) == list
  {
    if list != [] {
      WithoutAbsent(list[1..], name);
    }
  }

  lemma {:induction false} ReplacedHasName(list: seq<Dashboard>, d: Dashboard, name: string)
    ensures HasName(Replaced(list, d), name) <==> HasName(list, name)
  {
    if list != [] {
      ReplacedHasName(list[1..], d, name);
      assert Replaced(list, d)[1..] == Replaced(list[1..], d);
    }
  }

  lemma {:induction false} AppendedHasName(list: seq<Dashboard>, d: Dashboard, name: string)
    ensures HasName(list + [d], name) <==> HasName(list, name) || name == d.name
  {
    if list == [] {
      assert (list + [d])[1..] == [];
    } else {
      AppendedHasName(list[1..], d, name);
      assert (list + [d])[1..] == list[1..] + [d];
    }
  }

  lemma MergedHasName(list: seq<Dashboard>, d: Dashboard, name: string)
    ensures HasName(Merged(list, d), name) <==> HasName(list, name) || name == d.name
  {
    ReplacedHasName(list, d, name);
    AppendedHasName(list, d, name);
  }

  lemma {:induction false} ReplacedAppend(list: seq<Dashboard>, x: Dashboard, d: Dashboard)
    requires x.name != d.name
    ensures Replaced(list + [x], d) == Replaced(list, d) + [x]
  {
    if list == [] {
      assert list + [x] == [x];
    } else {
      ReplacedAppend(list[1..], x, d);
      assert (list + [x])[1..] == list[1..] + [x];
    }
  }

  lemma {:induction false} ReplacementsCommute(list: seq<Dashboard>, a: Dashboard, b: Dashboard)
    requires a.name != b.name
    ensures Replaced(Replaced(list, a), b) == Replaced(Replaced(list, b), a)
  {
    if list != [] {
      ReplacementsCommute(list[1..], a, b);
      assert Replaced(list, a)[1..] == Replaced(list[1..], a);
      assert Replaced(list, b)[1..] == Replaced(list[1..], b);
    }
  }

  lemma MergeAfterKnown(list: seq<Dashboard>, a: Dashboard, b: Dashboard)
    requires a.name != b.name && HasName(list, a.name) && !HasName(list, b.name)
    ensures Merged(Merged(list, a), b) == Merged(Merged(list, b), a)
  {
    MergedHasName(list, a, b.name);
    MergedHasName(list, b, a.name);
    ReplacedAppend(list, b, a);
  }

  lemma MergeBothNew(list: seq<Dashboard>, a: Dashboard, b: Dashboard)
    requires a.name != b.name && !HasName(list, a.name) && !HasName(list, b.name)
    ensures Merged(Merged(list, a), b) == list + [a] + [b]
  {
    MergedHasName(list, a, b.name);
  }

  lemma OrderShows(list: seq<Dashboard>, a: Dashboard, b: Dashboard)
    requires a != b
    ensures list + [a] + [b] != list + [b] + [a]
    ensures multiset(list + [a] + [b]) == multiset(list + [b] + [a])
  {
    assert (list + [a] + [b])[|list|] == a && (list + [b] + [a])[|list|] == b;
  }

  /** Merges of different names commute as contents, and as lists exactly when at least one of the two
      names was there before: two new dashboards end up in the order of their merging. */
  lemma MergesCommute(list: seq<Dashboard>, a: Dashboard, b: Dashboard)
    requires a.name != b.name
    ensures multiset(Merged(Merged(list, a), b)) == multiset(Merged(Merged(list, b), a))
    ensures Merged(Merged(list, a), b) == Merged(Merged(list, b), a)
       <==> HasName(list, a.name) || HasName(list, b.name)
  {
    if HasName(list, a.name) && HasName(list, b.name) {
      MergedHasName(list, a, b.name);
      MergedHasName(list, b, a.name);
      ReplacementsCommute(list, a, b);
    } else if HasName(list, a.name) {
      MergeAfterKnown(list, a, b);
    } else if HasName(list, b.name) {
      MergeAfterKnown(list, b, a);
    } else {
      MergeBothNew(list, a, b);
      MergeBothNew(list, b, a);
      OrderShows(list, a, b);
    }
  }
}

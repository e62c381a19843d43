/** What rounds of HTTP healthcheck reconciles do to the shared document. */
module HealthcheckHealing {
  import opened ApiOutcomes
  import opened HealthcheckEntry
  import opened HealthcheckSync

  /** The entries nobody in `owned` answers for, in order. */
  function Foreign(list: seq<Entry>, owned: set<string>): seq<Entry> {
    if list == [] then []
    else (if list[0].id in owned then [] else [list[0]]) + Foreign(list[1..], owned)
  }

  predicate DistinctIDs(list: seq<Entry>) {
    list == [] || (!HasID(list[1..], list[0].id) && DistinctIDs(list[1..]))
  }

  predicate Live(cr: CR) {
    cr.finalizer && !cr.deleting
  }

  predicate Successful(plan: Plan) {
    && plan.connection == Connected && plan.driftGet.Ok? && plan.driftStatusOk
    && plan.get.Ok? && plan.put.Ok? && plan.refetchOk && plan.statusOk
  }

  // ---------------------------------------------------------------- one edit of the list

  lemma {:induction false} UpsertIDs(list: seq<Entry>, entry: Entry, freshID: string)
    ensures IDs(Upsert(list, entry.id, entry, freshID))
         == IDs(list) + {if HasID(list, entry.id) then entry.id else NewEntry(entry, freshID).id}
  {
    var r := Upsert(list, entry.id, entry, freshID);
    if list == [] {
      assert r[1..] == [];
    } else if list[0].id == entry.id {
      assert r[1..] == list[1..];
    } else {
      UpsertIDs(list[1..], entry, freshID);
      assert r[1..] == Upsert(list[1..], entry.id, entry, freshID);
    }
  }

  lemma {:induction false} UpsertForeign(list: seq<Entry>, entry: Entry, freshID: string, owned: set<string>)
    requires HasID(list, entry.id) ==> entry.id in owned
    requires NewEntry(entry, freshID).id in owned
    ensures Foreign(Upsert(list, entry.id, entry, freshID), owned) == Foreign(list, owned)
  {
    if list != [] {
      if list[0].id != entry.id {
        UpsertForeign(list[1..], entry, freshID, owned);
      }
    }
  }

  lemma {:induction false} UpsertMembers(list: seq<Entry>, entry: Entry, freshID: string)
    ensures forall e :: e in list && e.id != entry.id ==> e in Upsert(list, entry.id, entry, freshID)
    ensures (if HasID(list, entry.id) then entry else NewEntry(entry, freshID))
         in Upsert(list, entry.id, entry, freshID)
  {
    if list != [] {
      assert list == [list[0]] + list[1..];
      if list[0].id != entry.id {
        UpsertMembers(list[1..], entry, freshID);
      }
    }
  }

  /** An upsert adds the entry's ID and loses none, and touches no foreign entry, provided an
      unsynced resource meets no entry with an empty ID. */
  lemma UpsertEffect(list: seq<Entry>, entry: Entry, freshID: string, owned: set<string>)
    requires entry.id != "" || !HasID(list, "")
    requires NewEntry(entry, freshID).id in owned
    ensures var r := Upsert(list, entry.id, entry, freshID);
            && IDs(r) == IDs(list) + {NewEntry(entry, freshID).id}
            && Foreign(r, owned) == Foreign(list, owned)
            && (forall e :: e in list && e.id != entry.id ==> e in r)
            && NewEntry(entry, freshID) in r
  {
    var r := Upsert(list, entry.id, entry, freshID);
    UpsertIDs(list, entry, freshID);
    UpsertForeign(list, entry, freshID, owned);
    UpsertMembers(list, entry, freshID);
  }

  lemma {:induction false} UpsertKeepsDistinct(list: seq<Entry>, entry: Entry, freshID: string)
    requires DistinctIDs(list)
    requires entry.id == "" ==> !HasID(list, "") && !HasID(list, freshID)
    ensures DistinctIDs(Upsert(list, entry.id, entry, freshID))
  {
    var r := Upsert(list, entry.id, entry, freshID);
    if list == [] {
      assert r[1..] == [];
    } else if list[0].id == entry.id {
      assert r[1..] == list[1..];
    } else {
      UpsertKeepsDistinct(list[1..], entry, freshID);
      UpsertIDs(list[1..], entry, freshID);
      assert r[1..] == Upsert(list[1..], entry.id, entry, freshID);
    }
  }

  /** A resource without an ID gets a non-empty one and leaves all entries alone if and only if no
      entry has an empty ID: otherwise it takes over the first such entry. */
  lemma {:induction false} FirstPushIsSafe(list: seq<Entry>, entry: Entry, freshID: string)
    requires entry.id == "" && freshID != ""
    ensures SyncedIDAfter(list, "", entry, freshID) != ""
            && Upsert(list, "", entry, freshID) == list + [entry.(id := freshID)]
       <==> !HasID(list, "")
  {
    if !HasID(list, "") {
      AppendsWhenAbsent(list, "", entry, freshID);
    }
  }

  lemma {:induction false} AppendsWhenAbsent(list: seq<Entry>, syncedID: string, entry: Entry, freshID: string)
    requires !HasID(list, syncedID)
    ensures Upsert(list, syncedID, entry, freshID) == list + [NewEntry(entry, freshID)]
  {
    if list != [] {
      AppendsWhenAbsent(list[1..], syncedID, entry, freshID);
    }
  }

  lemma {:induction false} WithoutAppended(list: seq<Entry>, e: Entry)
    requires !HasID(list, e.id)
    ensures Without(list + [e], e.id) == list
  {
    if list == [] {
      assert list + [e] == [e];
    } else {
      WithoutAppended(list[1..], e);
      assert (list + [e])[1..] == list[1..] + [e];
    }
  }

  /** Creating a healthcheck and deleting it again gives back the document as it was. */
  lemma DeleteUndoesCreate(doc: Document, cr: CR, plan: Plan, plan': Plan)
    requires Live(cr) && cr.syncedID == "" && Successful(plan) && Successful(plan') && plan'.updateOk
    requires !HasID(doc.http, "") && !HasID(doc.http, plan.freshID) && plan.freshID != ""
    ensures var created := Reconcile(doc, cr, plan);
            var deleted := Reconcile(created.0, created.1.(deleting := true), plan');
            deleted.0 == doc && !deleted.1.finalizer
  {
    var entry := BuildHealthcheckEntry(cr.spec, "", plan.headers);
    AppendsWhenAbsent(doc.http, "", entry, plan.freshID);
    WithoutAppended(doc.http, NewEntry(entry, plan.freshID));
  }

  lemma {:induction false} WithoutRemoves(list: seq<Entry>, id: string)
    ensures !HasID(Without(list, id), id)
    ensures Without(list, id) == Foreign(list, {id})
  {
    if list != [] {
      var tail := Without(list[1..], id);
      WithoutRemoves(list[1..], id);
      assert [] + tail == tail;
      assert ([list[0]] + tail)[1..] == tail;
    }
  }

  // ---------------------------------------------------------------- one deletion

  predicate PutLands(plan: Plan) {
    plan.connection == Connected && plan.get.Ok? && plan.put.Ok?
  }

  /** The deletion stops asking: the document is gone, or the write failed with no server error. */
  predicate GivesUp(plan: Plan) {
    && plan.connection == Connected
    && (plan.get == Error(404) || (plan.get.Ok? && plan.put.Error? && !IsRetryable(plan.put)))
  }

  /** A deletion takes the resource's entries out, and leaves all others in order, if and only if read and
      write succeed; otherwise the document stays as it was. It lets go of the resource while its entry is
      still there if and only if it gives up: also when the connection broke during the write. */
  lemma DeletionRemovesExactly(doc: Document, cr: CR, plan: Plan)
    requires cr.deleting && cr.finalizer && cr.syncedID != ""
    ensures var (doc', cr') := Reconcile(doc, cr, plan);
            && doc' == (if PutLands(plan) then doc.(http := Foreign(doc.http, {cr.syncedID})) else doc)
            && (!cr'.finalizer <==> plan.updateOk && (PutLands(plan) || GivesUp(plan)))
            && (HasID(doc'.http, cr.syncedID) <==> HasID(doc.http, cr.syncedID) && !PutLands(plan))
            && (!cr'.finalizer && HasID(doc'.http, cr.syncedID) <==>
                  plan.updateOk && GivesUp(plan) && HasID(doc.http, cr.syncedID))
  {
    WithoutRemoves(doc.http, cr.syncedID);
  }

  // ---------------------------------------------------------------- one successful reconcile

  /** The reconcile writes nothing: the guard holds and the entry is still there. */
  predicate Skips(doc: Document, cr: CR) {
    Guard(cr) && HasID(doc.http, cr.syncedID)
  }

  lemma {:induction false} MemberHasID(list: seq<Entry>, e: Entry)
    requires e in list
    ensures HasID(list, e.id)
  {
    if list[0] != e {
      MemberHasID(list[1..], e);
    }
  }

  lemma HealOne(doc: Document, cr: CR, plan: Plan, owned: set<string>)
    requires Live(cr) && Successful(plan)
    requires !HasID(doc.http, "") && plan.freshID != ""
    requires plan.freshID in owned && (cr.syncedID != "" ==> cr.syncedID in owned)
    ensures var (doc', cr') := Reconcile(doc, cr, plan);
            && Live(cr') && Guard(cr') && cr'.spec == cr.spec
            && (cr'.syncedID == cr.syncedID || cr'.syncedID == plan.freshID)
            && IDs(doc'.http) == IDs(doc.http) + {cr'.syncedID}
            && Foreign(doc'.http, owned) == Foreign(doc.http, owned)
            && doc'.tcp == doc.tcp && doc'.shell == doc.shell
            && (Skips(doc, cr) ==> (doc', cr') == (doc, cr))
            && (!Skips(doc, cr) ==> BuildHealthcheckEntry(cr.spec, cr'.syncedID, plan.headers) in doc'.http)
            && (forall e :: e in doc.http && e.id != cr'.syncedID ==> e in doc'.http)
  {
    if !Skips(doc, cr) {
      var pushing := if Guard(cr) then cr.(syncedID := "") else cr;
      var entry := BuildHealthcheckEntry(cr.spec, pushing.syncedID, plan.headers);
      UpsertEffect(doc.http, entry, plan.freshID, owned);
      assert NewEntry(entry, plan.freshID).id == SyncedIDAfter(doc.http, pushing.syncedID, entry, plan.freshID);
      assert Reconcile(doc, cr, plan) == Push(doc, pushing, plan);
      forall e | e in doc.http ensures HasID(doc.http, e.id) { MemberHasID(doc.http, e); }
    }
  }

  lemma HealOneKeepsDistinct(doc: Document, cr: CR, plan: Plan)
    requires Live(cr) && Successful(plan)
    requires !HasID(doc.http, "") && plan.freshID != ""
    requires DistinctIDs(doc.http) && !HasID(doc.http, plan.freshID)
    ensures DistinctIDs(Reconcile(doc, cr, plan).0.http)
  {
    if !Skips(doc, cr) {
      var pushing := if Guard(cr) then cr.(syncedID := "") else cr;
      UpsertKeepsDistinct(doc.http, BuildHealthcheckEntry(cr.spec, pushing.syncedID, plan.headers), plan.freshID);
    }
  }

  /** A listed resource is updated where its first entry stands; nothing else in the list changes. */
  lemma {:induction false} UpdateKeepsPlace(list: seq<Entry>, syncedID: string, entry: Entry, freshID: string)
    returns (k: nat)
    requires HasID(list, syncedID)
    ensures k < |list| && list[k].id == syncedID && forall j :: 0 <= j < k ==> list[j].id != syncedID
    ensures Upsert(list, syncedID, entry, freshID) == list[k := entry]
  {
    if list[0].id == syncedID {
      k := 0;
    } else {
      k := UpdateKeepsPlace(list[1..], syncedID, entry, freshID);
      k := k + 1;
    }
  }

  /** A successful push of a listed resource: its entry, under its ID, takes the place of the old one. */
  lemma PushUpdatesInPlace(doc: Document, cr: CR, plan: Plan) returns (k: nat)
    requires Live(cr) && Successful(plan) && !Guard(cr) && HasID(doc.http, cr.syncedID)
    ensures k < |doc.http| && doc.http[k].id == cr.syncedID
    ensures forall j :: 0 <= j < k ==> doc.http[j].id != cr.syncedID
    ensures var (doc', cr') := Reconcile(doc, cr, plan);
            && doc' == doc.(http := doc.http[k := BuildHealthcheckEntry(cr.spec, cr.syncedID, plan.headers)])
            && cr'.syncedID == cr.syncedID && cr'.spec == cr.spec && !cr'.failed
            && cr'.ready && cr'.observedGeneration == cr.generation
  {
    var entry := BuildHealthcheckEntry(cr.spec, cr.syncedID, plan.headers);
    k := UpdateKeepsPlace(doc.http, cr.syncedID, entry, plan.freshID);
  }

  /** Where the entry of a resource that the guard holds for has vanished, a successful reconcile appends a new
      one under a fresh ID, and leaves the rest of the list as it is. */
  lemma DriftAppendsAnew(doc: Document, cr: CR, plan: Plan)
    requires Live(cr) && Successful(plan) && Guard(cr) && !HasID(doc.http, cr.syncedID)
    requires !HasID(doc.http, "") && plan.freshID != ""
    ensures var (doc', cr') := Reconcile(doc, cr, plan);
            && doc' == doc.(http := doc.http + [BuildHealthcheckEntry(cr.spec, plan.freshID, plan.headers)])
            && cr'.syncedID == plan.freshID && Skips(doc', cr') && !cr'.failed
  {
    var entry := BuildHealthcheckEntry(cr.spec, "", plan.headers);
    AppendsWhenAbsent(doc.http, "", entry, plan.freshID);
    assert NewEntry(entry, plan.freshID) == BuildHealthcheckEntry(cr.spec, plan.freshID, plan.headers);
    AppendedHasID(doc.http, NewEntry(entry, plan.freshID));
  }

  lemma {:induction false} AppendedHasID(list: seq<Entry>, e: Entry)
    ensures HasID(list + [e], e.id)
  {
    if list == [] {
      assert list + [e] == [e];
    } else {
      AppendedHasID(list[1..], e);
      assert (list + [e])[1..] == list[1..] + [e];
    }
  }

  /** A new resource gets its finalizer before anything is written to the document. */
  lemma FinalizerComesFirst(doc: Document, cr: CR, plan: Plan)
    requires !cr.finalizer
    ensures var (doc', cr') := Reconcile(doc, cr, plan);
            && doc' == doc && (cr'.finalizer <==> !cr.deleting && plan.updateOk)
            && cr' == cr.(finalizer := cr'.finalizer)
  {
  }

  // ---------------------------------------------------------------- a whole round

  ghost function Owned(crs: seq<CR>): set<string> {
    set i | 0 <= i < |crs| && crs[i].syncedID != "" :: crs[i].syncedID
  }

  ghost function FreshIDs(plans: seq<Plan>): set<string> {
    set i | 0 <= i < |plans| :: plans[i].freshID
  }

  /** UUIDs never repeat: not among themselves, not in the document, not in any resource. */
  ghost predicate FreshSupply(doc: Document, crs: seq<CR>, plans: seq<Plan>) {
    && (forall i :: 0 <= i < |plans| ==>
          plans[i].freshID != "" && !HasID(doc.http, plans[i].freshID) && plans[i].freshID !in Owned(crs))
    && (forall i, j :: 0 <= i < j < |plans| ==> plans[i].freshID != plans[j].freshID)
  }

  ghost predicate DistinctResources(crs: seq<CR>) {
    forall i, j :: 0 <= i < j < |crs| && crs[i].syncedID != "" ==> crs[i].syncedID != crs[j].syncedID
  }

  ghost predicate RoundReady(doc: Document, crs: seq<CR>, plans: seq<Plan>) {
    && |plans| == |crs|
    && (forall i :: 0 <= i < |crs| ==> Live(crs[i]) && Successful(plans[i]))
    && !HasID(doc.http, "")
    && FreshSupply(doc, crs, plans)
    && DistinctResources(crs)
  }

  /** The resource kept its ID or took its own fresh one. */
  predicate OwnID(before: CR, after: CR, plan: Plan) {
    after.syncedID == before.syncedID || after.syncedID == plan.freshID
  }

  lemma OwnIDsDiffer(doc: Document, crs: seq<CR>, plans: seq<Plan>, i: nat, j: nat, a: string, b: string)
    requires RoundReady(doc, crs, plans) && i < |crs| && j < |crs| && i != j
    requires a == crs[i].syncedID || a == plans[i].freshID
    requires b == crs[j].syncedID || b == plans[j].freshID
    requires a != ""
    ensures a != b
  {
    if a == crs[i].syncedID {
      assert a in Owned(crs);
    }
    if b == crs[j].syncedID && b != "" {
      assert b in Owned(crs);
    }
  }

  /** What a reconcile of a round owes its resource. */
  ghost predicate HealedOne(doc: Document, cr: CR, plan: Plan, doc': Document, cr': CR) {
    && Live(cr') && Guard(cr') && cr'.spec == cr.spec && OwnID(cr, cr', plan)
    && HasID(doc'.http, cr'.syncedID)
    && (if Skips(doc, cr) then cr' == cr
        else BuildHealthcheckEntry(cr.spec, cr'.syncedID, plan.headers) in doc'.http)
  }

  ghost function SyncedIDs(crs: seq<CR>, k: nat): set<string>
    requires k <= |crs|
  {
    set i | 0 <= i < k :: crs[i].syncedID
  }

  /** The IDs that the first `k` resources may end up with. */
  ghost function PossibleIDs(crs: seq<CR>, plans: seq<Plan>, k: nat): set<string>
    requires k <= |crs| == |plans|
  {
    if k == 0 then {} else PossibleIDs(crs, plans, k - 1) + {crs[k - 1].syncedID, plans[k - 1].freshID}
  }

  /** Before its turn, a resource's own IDs are nobody else's. */
  lemma {:induction false} OwnIDsAreNew(doc: Document, crs: seq<CR>, plans: seq<Plan>, k: nat, i: nat)
    requires RoundReady(doc, crs, plans) && k <= i < |crs|
    ensures plans[i].freshID !in PossibleIDs(crs, plans, k)
    ensures crs[i].syncedID != "" ==> crs[i].syncedID !in PossibleIDs(crs, plans, k)
  {
    if k > 0 {
      OwnIDsAreNew(doc, crs, plans, k - 1, i);
      OwnIDsDiffer(doc, crs, plans, i, k - 1, plans[i].freshID, crs[k - 1].syncedID);
      OwnIDsDiffer(doc, crs, plans, i, k - 1, plans[i].freshID, plans[k - 1].freshID);
      if crs[i].syncedID != "" {
        OwnIDsDiffer(doc, crs, plans, i, k - 1, crs[i].syncedID, crs[k - 1].syncedID);
        OwnIDsDiffer(doc, crs, plans, i, k - 1, crs[i].syncedID, plans[k - 1].freshID);
      }
    }
  }

  /** The state after `k` of the round's reconciles. */
  ghost predicate Midway(doc: Document, crs: seq<CR>, plans: seq<Plan>, k: nat, doc': Document, crs': seq<CR>) {
    && k <= |crs| == |plans| == |crs'| && crs'[k..] == crs[k..]
    && !HasID(doc'.http, "")
    && IDs(doc'.http) == IDs(doc.http) + SyncedIDs(crs', k)
    && SyncedIDs(crs', k) <= PossibleIDs(crs, plans, k)
    && Foreign(doc'.http, Owned(crs) + FreshIDs(plans)) == Foreign(doc.http, Owned(crs) + FreshIDs(plans))
    && doc'.tcp == doc.tcp && doc'.shell == doc.shell
    && (DistinctIDs(doc.http) ==> DistinctIDs(doc'.http))
  }

  lemma SyncedIDsNext(crs: seq<CR>, k: nat, cr: CR)
    requires k < |crs|
    ensures SyncedIDs(crs[k := cr], k + 1) == SyncedIDs(crs, k) + {cr.syncedID}
  {
    assert crs[k := cr][k].syncedID in SyncedIDs(crs[k := cr], k + 1);
    forall id | id in SyncedIDs(crs, k) ensures id in SyncedIDs(crs[k := cr], k + 1) {
      var i :| 0 <= i < k && crs[i].syncedID == id;
      assert crs[k := cr][i].syncedID == id;
    }
  }

  /** One reconcile of the round: it heals its resource and keeps the round on course. */
  lemma MidwayStep(doc: Document, crs: seq<CR>, plans: seq<Plan>, k: nat,
                   doc1: Document, crs1: seq<CR>, doc2: Document, cr2: CR)
    requires RoundReady(doc, crs, plans) && k < |crs| && Midway(doc, crs, plans, k, doc1, crs1)
    requires (doc2, cr2) == Reconcile(doc1, crs1[k], plans[k])
    ensures crs1[k] == crs[k]
    ensures Midway(doc, crs, plans, k + 1, doc2, crs1[k := cr2])
    ensures HealedOne(doc, crs[k], plans[k], doc2, cr2)
    ensures IDs(doc2.http) == IDs(doc1.http) + {cr2.syncedID}
    ensures forall e :: e in doc1.http && e.id != cr2.syncedID ==> e in doc2.http
  {
    assert crs1[k..][0] == crs[k..][0];
    OwnIDsAreNew(doc, crs, plans, k, k);
    assert plans[k].freshID in FreshIDs(plans);
    assert crs[k].syncedID != "" ==> crs[k].syncedID in Owned(crs);
    HealOne(doc1, crs[k], plans[k], Owned(crs) + FreshIDs(plans));
    if DistinctIDs(doc1.http) {
      HealOneKeepsDistinct(doc1, crs[k], plans[k]);
    }
    SyncedIDsNext(crs1, k, cr2);
    assert crs1[k := cr2][k + 1..] == crs[k + 1..] by {
      assert crs1[k..][1..] == crs[k..][1..];
    }
  }

  lemma {:induction false} RoundHeals(
    doc: Document, crs: seq<CR>, plans: seq<Plan>, k: nat, doc1: Document, crs1: seq<CR>)
    requires RoundReady(doc, crs, plans) && Midway(doc, crs, plans, k, doc1, crs1)
    ensures Midway(doc, crs, plans, |crs|, Round(doc1, crs1, plans, k).0, Round(doc1, crs1, plans, k).1)
    decreases |crs| - k
  {
    if k < |crs| {
      var r := Reconcile(doc1, crs1[k], plans[k]);
      MidwayStep(doc, crs, plans, k, doc1, crs1, r.0, r.1);
      RoundHeals(doc, crs, plans, k + 1, r.0, crs1[k := r.1]);
    }
  }

  lemma StaysHealed(doc: Document, cr: CR, plan: Plan, doc1: Document, healed: CR, doc2: Document, id: string)
    requires HealedOne(doc, cr, plan, doc1, healed) && healed.syncedID != id
    requires IDs(doc2.http) == IDs(doc1.http) + {id}
    requires forall e :: e in doc1.http && e.id != id ==> e in doc2.http
    ensures HealedOne(doc, cr, plan, doc2, healed)
  {
    assert healed.syncedID in IDs(doc2.http);
  }

  lemma MidwayStepHeals(doc: Document, crs: seq<CR>, plans: seq<Plan>, k: nat,
                        doc1: Document, crs1: seq<CR>, doc2: Document, cr2: CR, i: nat)
    requires RoundReady(doc, crs, plans) && i < k < |crs| && Midway(doc, crs, plans, k, doc1, crs1)
    requires (doc2, cr2) == Reconcile(doc1, crs1[k], plans[k])
    requires HealedOne(doc, crs[i], plans[i], doc1, crs1[i])
    ensures HealedOne(doc, crs[i], plans[i], doc2, crs1[i])
  {
    MidwayStep(doc, crs, plans, k, doc1, crs1, doc2, cr2);
    OwnIDsDiffer(doc, crs, plans, i, k, crs1[i].syncedID, cr2.syncedID);
    StaysHealed(doc, crs[i], plans[i], doc1, crs1[i], doc2, cr2.syncedID);
  }

  /** A resource once healed stays healed while the others have their turn. */
  lemma {:induction false} RoundHealsOne(doc: Document, crs: seq<CR>, plans: seq<Plan>, k: nat,
                                         doc1: Document, crs1: seq<CR>, i: nat)
    requires RoundReady(doc, crs, plans) && Midway(doc, crs, plans, k, doc1, crs1)
    requires i < |crs| && (i < k ==> HealedOne(doc, crs[i], plans[i], doc1, crs1[i]))
    ensures HealedOne(doc, crs[i], plans[i], Round(doc1, crs1, plans, k).0, Round(doc1, crs1, plans, k).1[i])
    decreases |crs| - k
  {
    if k < |crs| {
      var r := Reconcile(doc1, crs1[k], plans[k]);
      MidwayStep(doc, crs, plans, k, doc1, crs1, r.0, r.1);
      if i < k {
        MidwayStepHeals(doc, crs, plans, k, doc1, crs1, r.0, r.1, i);
      }
      RoundHealsOne(doc, crs, plans, k + 1, r.0, crs1[k := r.1], i);
    }
  }

  lemma MidwayAtStart(doc: Document, crs: seq<CR>, plans: seq<Plan>)
    requires RoundReady(doc, crs, plans)
    ensures Midway(doc, crs, plans, 0, doc, crs)
  {
  }

  lemma {:induction false} ForeignIgnores(list: seq<Entry>, owned: set<string>, more: set<string>)
    requires forall id :: id in more ==> !HasID(list, id)
    ensures Foreign(list, owned + more) == Foreign(list, owned)
  {
    if list != [] {
      ForeignIgnores(list[1..], owned, more);
    }
  }

  /** Self-healing. Take any document without empty IDs, such as one that a lost whole-list write has
      left behind, and reconcile every resource once with all calls succeeding. Then every resource
      has its own ID and its entry is in the list; each resource's spec is pushed unless it is skipped;
      entries that no resource owned are unchanged and in order; TCP and shell checks are untouched;
      and IDs stay distinct. */
  lemma SelfHealing(doc: Document, crs: seq<CR>, plans: seq<Plan>)
    requires RoundReady(doc, crs, plans)
    ensures var (doc', crs') := Round(doc, crs, plans, 0);
            && (forall i :: 0 <= i < |crs| ==>
                  && crs'[i].syncedID != "" && HasID(doc'.http, crs'[i].syncedID)
                  && (!Skips(doc, crs[i]) ==>
                        BuildHealthcheckEntry(crs[i].spec, crs'[i].syncedID, plans[i].headers) in doc'.http))
            && (forall i, j :: 0 <= i < j < |crs| ==> crs'[i].syncedID != crs'[j].syncedID)
            && Foreign(doc'.http, Owned(crs) + FreshIDs(plans)) == Foreign(doc.http, Owned(crs))
            && IDs(doc'.http) == IDs(doc.http) + SyncedIDs(crs', |crs|)
            && (DistinctIDs(doc.http) ==> DistinctIDs(doc'.http))
            && doc'.tcp == doc.tcp && doc'.shell == doc.shell
  {
    var (doc', crs') := Round(doc, crs, plans, 0);
    MidwayAtStart(doc, crs, plans);
    RoundHeals(doc, crs, plans, 0, doc, crs);
    forall i | 0 <= i < |crs| ensures HealedOne(doc, crs[i], plans[i], doc', crs'[i]) {
      RoundHealsOne(doc, crs, plans, 0, doc, crs, i);
    }
    ForeignIgnores(doc.http, Owned(crs), FreshIDs(plans));
    forall i, j | 0 <= i < j < |crs| ensures crs'[i].syncedID != crs'[j].syncedID {
      OwnIDsDiffer(doc, crs, plans, i, j, crs'[i].syncedID, crs'[j].syncedID);
    }
  }

  /** A second round over a healed document changes nothing. */
  lemma {:induction false} HealedIsStable(doc: Document, crs: seq<CR>, plans: seq<Plan>, k: nat)
    requires k <= |crs| == |plans|
    requires forall i :: 0 <= i < |crs| ==> Live(crs[i]) && Successful(plans[i]) && Skips(doc, crs[i])
    ensures Round(doc, crs, plans, k) == (doc, crs)
    decreases |crs| - k
  {
    if k < |crs| {
      assert Reconcile(doc, crs[k], plans[k]) == (doc, crs[k]);
      assert crs[k := crs[k]] == crs;
      HealedIsStable(doc, crs, plans, k + 1);
    }
  }

  lemma SecondRoundIsIdle(doc: Document, crs: seq<CR>, plans: seq<Plan>, plans': seq<Plan>)
    requires RoundReady(doc, crs, plans)
    requires |plans'| == |crs| && forall i :: 0 <= i < |crs| ==> Successful(plans'[i])
    ensures var (doc', crs') := Round(doc, crs, plans, 0);
            Round(doc', crs', plans', 0) == (doc', crs')
  {
    var (doc', crs') := Round(doc, crs, plans, 0);
    MidwayAtStart(doc, crs, plans);
    forall i | 0 <= i < |crs| ensures HealedOne(doc, crs[i], plans[i], doc', crs'[i]) {
      RoundHealsOne(doc, crs, plans, 0, doc, crs, i);
    }
    HealedIsStable(doc', crs', plans', 0);
  }

  // ---------------------------------------------------------------- whose spec is in the list

  /** The list holds the entry built from the resource's current spec, its headers in some order. */
  ghost predicate Reflected(list: seq<Entry>, cr: CR) {
    exists order ::
      && Orders(order, cr.spec.headers)
      && BuildHealthcheckEntry(cr.spec, cr.syncedID, HeaderLines(cr.spec.headers, order)) in list
  }

  ghost predicate PrintsHeaders(cr: CR, plan: Plan) {
    exists order :: Orders(order, cr.spec.headers) && plan.headers == HeaderLines(cr.spec.headers, order)
  }

  ghost predicate SameEntries(a: seq<Entry>, b: seq<Entry>, id: string) {
    forall e: Entry :: e.id == id ==> (e in a <==> e in b)
  }

  lemma {:induction false} UpsertAddsOne(list: seq<Entry>, entry: Entry, freshID: string)
    requires entry.id != "" || !HasID(list, "")
    ensures forall e :: e in Upsert(list, entry.id, entry, freshID) ==> e in list || e == NewEntry(entry, freshID)
  {
    if list != [] && list[0].id != entry.id {
      UpsertAddsOne(list[1..], entry, freshID);
    }
  }

  lemma StepKeepsOthers(doc: Document, cr: CR, plan: Plan, id: string)
    requires Live(cr) && Successful(plan) && !HasID(doc.http, "") && plan.freshID != ""
    requires Reconcile(doc, cr, plan).1.syncedID != id
    ensures SameEntries(doc.http, Reconcile(doc, cr, plan).0.http, id)
  {
    HealOne(doc, cr, plan, {plan.freshID, cr.syncedID});
    if !Skips(doc, cr) {
      var pushing := if Guard(cr) then cr.(syncedID := "") else cr;
      UpsertAddsOne(doc.http, BuildHealthcheckEntry(cr.spec, pushing.syncedID, plan.headers), plan.freshID);
    }
  }

  lemma SkippedAtItsTurn(doc: Document, crs: seq<CR>, plans: seq<Plan>, k: nat, doc1: Document, crs1: seq<CR>)
    requires RoundReady(doc, crs, plans) && k < |crs| && Midway(doc, crs, plans, k, doc1, crs1)
    requires Skips(doc, crs[k])
    ensures Reconcile(doc1, crs1[k], plans[k]) == (doc1, crs[k])
  {
    assert crs1[k..][0] == crs[k..][0];
  }

  lemma OthersTurn(doc: Document, crs: seq<CR>, plans: seq<Plan>, k: nat, doc1: Document, crs1: seq<CR>, i: nat)
    requires RoundReady(doc, crs, plans) && k < |crs| && Midway(doc, crs, plans, k, doc1, crs1)
    requires i < |crs| && i != k && crs[i].syncedID != ""
    ensures SameEntries(doc1.http, Reconcile(doc1, crs1[k], plans[k]).0.http, crs[i].syncedID)
  {
    var r := Reconcile(doc1, crs1[k], plans[k]);
    MidwayStep(doc, crs, plans, k, doc1, crs1, r.0, r.1);
    OwnIDsDiffer(doc, crs, plans, i, k, crs[i].syncedID, r.1.syncedID);
    StepKeepsOthers(doc1, crs1[k], plans[k], crs[i].syncedID);
  }

  /** A skipped resource and the entries of its ID go through the round untouched. */
  lemma {:induction false} RoundKeepsSkipped(doc: Document, crs: seq<CR>, plans: seq<Plan>, k: nat,
                                             doc1: Document, crs1: seq<CR>, i: nat)
    requires RoundReady(doc, crs, plans) && Midway(doc, crs, plans, k, doc1, crs1)
    requires i < |crs| && Skips(doc, crs[i])
    requires crs1[i] == crs[i] && SameEntries(doc.http, doc1.http, crs[i].syncedID)
    ensures var (doc', crs') := Round(doc1, crs1, plans, k);
            crs'[i] == crs[i] && SameEntries(doc.http, doc'.http, crs[i].syncedID)
    decreases |crs| - k
  {
    if k < |crs| {
      var r := Reconcile(doc1, crs1[k], plans[k]);
      MidwayStep(doc, crs, plans, k, doc1, crs1, r.0, r.1);
      if i == k {
        SkippedAtItsTurn(doc, crs, plans, k, doc1, crs1);
      } else {
        OthersTurn(doc, crs, plans, k, doc1, crs1, i);
      }
      RoundKeepsSkipped(doc, crs, plans, k + 1, r.0, crs1[k := r.1], i);
    }
  }

  /** After a successful round the list reflects a resource's current spec if and only if the resource
      was not skipped, or the list reflected it before. */
  lemma RoundReflectsExactly(doc: Document, crs: seq<CR>, plans: seq<Plan>, i: nat)
    requires RoundReady(doc, crs, plans) && i < |crs| && PrintsHeaders(crs[i], plans[i])
    ensures var (doc', crs') := Round(doc, crs, plans, 0);
            Reflected(doc'.http, crs'[i]) <==> !Skips(doc, crs[i]) || Reflected(doc.http, crs[i])
  {
    MidwayAtStart(doc, crs, plans);
    if Skips(doc, crs[i]) {
      RoundKeepsSkipped(doc, crs, plans, 0, doc, crs, i);
    } else {
      RoundHealsOne(doc, crs, plans, 0, doc, crs, i);
      var order :| Orders(order, crs[i].spec.headers) && plans[i].headers == HeaderLines(crs[i].spec.headers, order);
    }
  }

  // ---------------------------------------------------------------- edits lost from sight

  /** The attempt fails at the connection, the read or the write, and the failure is stored. */
  predicate StoredFailure(plan: Plan) {
    && plan.statusOk
    && (plan.connection == Unresolved || (plan.connection == Connected && (plan.get.Error? || plan.put.Error?)))
  }

  /** A pending edit of a synced resource whose entry is listed ends up hidden, that is skipped from now on
      with the document as it was, if and only if the attempt to push it fails and the failure is stored. */
  lemma FailureHidesEditExactly(doc: Document, cr: CR, plan: Plan)
    requires Live(cr) && cr.ready && cr.syncedID != "" && HasID(doc.http, cr.syncedID)
    requires cr.observedGeneration != cr.generation
    ensures var (doc', cr') := Reconcile(doc, cr, plan);
            (Skips(doc', cr') && cr'.failed && doc' == doc <==> StoredFailure(plan))
            && (Skips(doc', cr') ==> cr'.spec == cr.spec)
  {
  }

  /** An edit followed by such a failure is lost from sight: the failure advances the observed generation
      and leaves Ready standing, so no later reconcile that reads the list pushes the edited spec for as
      long as the old entry is there. */
  lemma FailedAttemptHidesEdit(doc: Document, cr: CR, edited: Spec, failing: Plan, later: Plan)
    requires Live(cr) && Skips(doc, cr) && StoredFailure(failing)
    requires later.connection == Connected && later.driftGet.Ok?
    ensures var edit := cr.(spec := edited, generation := cr.generation + 1);
            var failed := Reconcile(doc, edit, failing);
            && failed.0 == doc && Skips(doc, failed.1) && failed.1.spec == edited
            && Reconcile(doc, failed.1, later) == (doc, failed.1)
  {
    var edit := cr.(spec := edited, generation := cr.generation + 1);
    FailureHidesEditExactly(doc, edit, failing);
  }
}

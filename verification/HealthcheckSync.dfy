/** The HTTP healthcheck controller: every custom resource edits its own entry of one remote document
    that is always read and written as a whole. */
module HealthcheckSync {
  import opened ApiOutcomes
  import opened HealthcheckEntry
  import opened Sequences

  /** A TCP or shell check: written by other controllers, only carried along by this one. */
  datatype OtherCheck = OtherCheck(id: string, content: string)

  datatype Document = Document(http: seq<Entry>, tcp: seq<OtherCheck>, shell: seq<OtherCheck>)

  datatype CR = CR(
    spec: Spec, generation: nat, deleting: bool, finalizer: bool,
    syncedID: string, observedGeneration: nat, ready: bool, failed: bool)

  /** The outcomes of one reconcile's calls, the order in which the headers come out of their map,
      and the UUID that a new entry would get. */
  datatype Plan = Plan(
    connection: Connection, driftGet: Outcome, driftStatusOk: bool, get: Outcome, put: Outcome,
    updateOk: bool, refetchOk: bool, statusOk: bool, headers: seq<string>, freshID: string)

  function IDs(list: seq<Entry>): set<string> {
    if list == [] then {} else {list[0].id} + IDs(list[1..])
  }

  predicate HasID(list: seq<Entry>, id: string) {
    id in IDs(list)
  }

  predicate Guard(cr: CR) {
    cr.ready && cr.observedGeneration == cr.generation && cr.syncedID != ""
  }

  function SetFailed(cr: CR, statusOk: bool): CR {
    if statusOk then cr.(failed := true, observedGeneration := cr.generation) else cr
  }

  // ---------------------------------------------------------------- list editing

  /** The first entry with the synced ID is replaced; without one, the entry is appended. */
  function Upsert(list: seq<Entry>, syncedID: string, entry: Entry, freshID: string): seq<Entry> {
    if list == [] then [NewEntry(entry, freshID)]
    else if list[0].id == syncedID then [entry] + list[1..]
    else [list[0]] + Upsert(list[1..], syncedID, entry, freshID)
  }

  function NewEntry(entry: Entry, freshID: string): Entry {
    if entry.id == "" then entry.(id := freshID) else entry
  }

  function SyncedIDAfter(list: seq<Entry>, syncedID: string, entry: Entry, freshID: string): string {
    if HasID(list, syncedID) then entry.id else NewEntry(entry, freshID).id
  }

  lemma UpsertAt(list: seq<Entry>, syncedID: string, entry: Entry, freshID: string, i: nat)
    requires i < |list|
    ensures var rest := Upsert(list[i..], syncedID, entry, freshID);
            if list[i].id == syncedID then list[..i] + rest == list[i := entry]
            else list[..i] + rest == list[..i + 1] + Upsert(list[i + 1..], syncedID, entry, freshID)
    ensures HasID(list[i..], syncedID) <==> list[i].id == syncedID || HasID(list[i + 1..], syncedID)
  {
    assert list[i..][1..] == list[i + 1..];
    if list[i].id != syncedID {
      MoveAcross(list[..i], list[i], Upsert(list[i + 1..], syncedID, entry, freshID));
      assert list[..i] + [list[i]] == list[..i + 1];
    }
  }

  method UpsertInPlace(list: seq<Entry>, syncedID: string, built: Entry, freshID: string)
    returns (r: seq<Entry>, entryID: string)
    ensures r == Upsert(list, syncedID, built, freshID)
    ensures entryID == SyncedIDAfter(list, syncedID, built, freshID)
  {
    var entry := built;
    r := list;
    var found := false;
    for i := 0 to |list|
      invariant !found && r == list
      invariant HasID(list, syncedID) <==> HasID(list[i..], syncedID)
      invariant Upsert(list, syncedID, entry, freshID) == list[..i] + Upsert(list[i..], syncedID, entry, freshID)
    {
      UpsertAt(list, syncedID, entry, freshID, i);
      if list[i].id == syncedID {
        r := r[i := entry];
        found := true;
        break;
      }
    }
    if !found {
      if entry.id == "" {
        entry := entry.(id := freshID);
      }
      r := r + [entry];
    }
    entryID := entry.id;
  }

  function Without(list: seq<Entry>, id: string): seq<Entry> {
    if list == [] then [] else (if list[0].id == id then [] else [list[0]]) + Without(list[1..], id)
  }

  lemma WithoutAt(list: seq<Entry>, id: string, r: seq<Entry>, i: nat)
    requires i < |list|
    ensures r + Without(list[i..], id)
         == (if list[i].id == id then r else r + [list[i]]) + Without(list[i + 1..], id)
  {
    assert list[i..][1..] == list[i + 1..];
    MoveAcross(r, list[i], Without(list[i + 1..], id));
  }

  method RemoveByID(list: seq<Entry>, id: string) returns (r: seq<Entry>)
    ensures r == Without(list, id)
  {
    r := [];
    for i := 0 to |list|
      invariant r + Without(list[i..], id) == Without(list, id)
    {
      WithoutAt(list, id, r, i);
      if list[i].id != id {
        r := r + [list[i]];
      }
    }
  }

  // ---------------------------------------------------------------- one reconcile

  function Push(doc: Document, cr: CR, plan: Plan): (Document, CR) {
    if plan.get.Error? then (doc, SetFailed(cr, plan.statusOk))
    else
      var entry := BuildHealthcheckEntry(cr.spec, cr.syncedID, plan.headers);
      if plan.put.Error? then (doc, SetFailed(cr, plan.statusOk))
      else
        var id := SyncedIDAfter(doc.http, cr.syncedID, entry, plan.freshID);
        (doc.(http := Upsert(doc.http, cr.syncedID, entry, plan.freshID)),
         if plan.refetchOk && plan.statusOk
         then cr.(syncedID := id, observedGeneration := cr.generation, ready := true, failed := false)
         else cr)
  }

  function Deletion(doc: Document, cr: CR, plan: Plan): (Document, CR) {
    var released := if plan.updateOk then cr.(finalizer := false) else cr;
    if !cr.finalizer then (doc, cr)
    else if plan.connection != Connected then (doc, cr)
    else if cr.syncedID == "" then (doc, released)
    else if plan.get.Error? then (if plan.get.status == 404 then (doc, released) else (doc, cr))
    else if IsRetryable(plan.put) then (doc, cr)
    else if plan.put.Error? then (doc, released)
    else (doc.(http := Without(doc.http, cr.syncedID)), released)
  }

  function Reconcile(doc: Document, cr: CR, plan: Plan): (Document, CR) {
    if cr.deleting then Deletion(doc, cr, plan)
    else if !cr.finalizer then (doc, if plan.updateOk then cr.(finalizer := true) else cr)
    else match plan.connection
      case Paused => (doc, cr)
      case Unresolved => (doc, SetFailed(cr, plan.statusOk))
      case Connected =>
        if !Guard(cr) then Push(doc, cr, plan)
        else if plan.driftGet.Error? then (doc, SetFailed(cr, plan.statusOk))
        else if HasID(doc.http, cr.syncedID) then (doc, cr)
        else if !plan.driftStatusOk then (doc, cr)
        else Push(doc, cr.(syncedID := ""), plan)
  }

  /** All HTTP healthcheck resources of one cluster, and the document they share. */
  class Controller {
    var doc: Document
    var crs: seq<CR>

    method SetFailedCondition(i: nat, statusOk: bool)
      requires i < |crs|
      modifies `crs
      ensures crs == old(crs)[i := SetFailed(old(crs)[i], statusOk)]
    {
      if statusOk {
        crs := crs[i := crs[i].(failed := true, observedGeneration := crs[i].generation)];
      }
    }

    method CheckDrift(i: nat, plan: Plan) returns (done: bool)
      requires i < |crs|
      modifies `crs
      ensures done ==> (plan.driftGet.Error? || HasID(doc.http, old(crs)[i].syncedID) || !plan.driftStatusOk)
      ensures done ==> crs == old(crs)[i := if plan.driftGet.Error? then SetFailed(old(crs)[i], plan.statusOk)
                                            else old(crs)[i]]
      ensures !done ==> plan.driftGet.Ok? && !HasID(doc.http, old(crs)[i].syncedID) && plan.driftStatusOk
      ensures !done ==> crs == old(crs)[i := old(crs)[i].(syncedID := "")]
    {
      if plan.driftGet.Error? {
        SetFailedCondition(i, plan.statusOk);
        return true;
      }
      for k := 0 to |doc.http|
        invariant crs == old(crs)
        invariant HasID(doc.http, crs[i].syncedID) <==> HasID(doc.http[k..], crs[i].syncedID)
      {
        if doc.http[k].id == crs[i].syncedID {
          return true;
        }
      }
      if !plan.driftStatusOk {
        return true;
      }
      crs := crs[i := crs[i].(syncedID := "")];
      return false;
    }

    method HandleDeletion(i: nat, plan: Plan)
      requires i < |crs|
      modifies this
      ensures var r := Deletion(old(doc), old(crs)[i], plan);
              doc == r.0 && crs == old(crs)[i := r.1]
    {
      if !crs[i].finalizer || plan.connection != Connected {
        return;
      }
      if crs[i].syncedID != "" {
        if plan.get.Error? {
          if plan.get.status != 404 {
            return;
          }
        } else {
          var newList := RemoveByID(doc.http, crs[i].syncedID);
          if plan.put.Error? {
            if plan.put.status >= 500 {
              return;
            }
          } else {
            doc := doc.(http := newList);
          }
        }
      }
      if plan.updateOk {
        crs := crs[i := crs[i].(finalizer := false)];
      }
    }

    method ReconcileOne(i: nat, plan: Plan)
      requires i < |crs|
      modifies this
      ensures var r := Reconcile(old(doc), old(crs)[i], plan);
              doc == r.0 && crs == old(crs)[i := r.1]
    {
      if crs[i].deleting {
        HandleDeletion(i, plan);
        return;
      }
      if !crs[i].finalizer {
        if plan.updateOk {
          crs := crs[i := crs[i].(finalizer := true)];
        }
        return;
      }
      if plan.connection == Paused {
        return;
      }
      if plan.connection == Unresolved {
        SetFailedCondition(i, plan.statusOk);
        return;
      }
      if Guard(crs[i]) {
        var done := CheckDrift(i, plan);
        if done {
          return;
        }
      }
      if plan.get.Error? {
        SetFailedCondition(i, plan.statusOk);
        return;
      }
      var entry := BuildHealthcheckEntry(crs[i].spec, crs[i].syncedID, plan.headers);
      var list, entryID := UpsertInPlace(doc.http, crs[i].syncedID, entry, plan.freshID);
      if plan.put.Error? {
        SetFailedCondition(i, plan.statusOk);
        return;
      }
      doc := doc.(http := list);
      if plan.refetchOk && plan.statusOk {
        crs := crs[i := crs[i].(syncedID := entryID, observedGeneration := crs[i].generation,
                                ready := true, failed := false)];
      }
    }

    /** One round: every resource is reconciled once, in turn. */
    method ReconcileAll(plans: seq<Plan>)
      requires |plans| == |crs|
      modifies this
      ensures (doc, crs) == Round(old(doc), old(crs), plans, 0)
    {
      for i := 0 to |plans|
        invariant |crs| == |plans|
        invariant Round(doc, crs, plans, i) == Round(old(doc), old(crs), plans, 0)
      {
        ReconcileOne(i, plans[i]);
      }
    }
  }

  /** What is left of a round from the `k`-th resource on. */
  function Round(doc: Document, crs: seq<CR>, plans: seq<Plan>, k: nat): (r: (Document, seq<CR>))
    requires k <= |plans| == |crs|
    ensures |r.1| == |crs|
    decreases |crs| - k
  {
    if k == |crs| then (doc, crs)
    else
      var step := Reconcile(doc, crs[k], plans[k]);
      Round(step.0, crs[k := step.1], plans, k + 1)
  }
}

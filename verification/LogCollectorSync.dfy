/** The log-collector controller: resources find their entry in the shared remote list by file name
    and keep the UUID they find there. */
module LogCollectorSync {
  import opened Sequences
  import opened ApiOutcomes

  datatype Spec = Spec(
    name: string, interval: string, timeout: string, filename: string, dateFormat: string,
    infoRegex: string, warningRegex: string, errorRegex: string, debugRegex: string, isReadonly: bool)

  /** `integrations` stands for the routing block, which this controller always writes empty. */
  datatype Collector = Collector(uuid: string, id: string, spec: Spec, integrations: string)

  datatype CR = CR(
    spec: Spec, generation: nat, deleting: bool, finalizer: bool,
    syncedUUID: string, observedGeneration: nat, ready: bool, failed: bool)

  datatype Plan = Plan(
    connection: Connection, driftGet: Outcome, driftStatusOk: bool, get: Outcome, put: Outcome,
    updateOk: bool, refetchOk: bool, statusOk: bool, freshUUID: string)

  /** The remote list and the resources; and, for the record, the spec each file name was last pushed
      with and the UUID it got when it was first pushed after its last removal. */
  datatype World = World(list: seq<Collector>, crs: seq<CR>, pushed: map<string, Spec>, uuids: map<string, string>)

  // ---------------------------------------------------------------- list editing

  /** The entries with the given file name, in order. */
  function Entries(list: seq<Collector>, filename: string): seq<Collector> {
    if list == [] then []
    else (if list[0].spec.filename == filename then [list[0]] else []) + Entries(list[1..], filename)
  }

  function Others(list: seq<Collector>, filename: string): seq<Collector> {
    if list == [] then []
    else (if list[0].spec.filename == filename then [] else [list[0]]) + Others(list[1..], filename)
  }

  /** The UUID of the last entry with the file name, or `uuid` if there is none. */
  function ReusedUUID(list: seq<Collector>, filename: string, uuid: string): string {
    if list == [] then uuid
    else ReusedUUID(list[1..], filename, if list[0].spec.filename == filename then list[0].uuid else uuid)
  }

  function Pushed(uuid: string, spec: Spec): Collector {
    Collector(uuid, "", spec, "")
  }

  lemma SplitAt(list: seq<Collector>, filename: string, others: seq<Collector>, uuid: string, i: nat)
    requires i < |list|
    ensures var found := list[i].spec.filename == filename;
            && others + Others(list[i..], filename)
               == (if found then others else others + [list[i]]) + Others(list[i + 1..], filename)
            && ReusedUUID(list[i..], filename, uuid)
               == ReusedUUID(list[i + 1..], filename, if found then list[i].uuid else uuid)
  {
    assert list[i..][1..] == list[i + 1..];
    MoveAcross(others, list[i], Others(list[i + 1..], filename));
  }

  method SplitByFilename(list: seq<Collector>, filename: string, freshUUID: string)
    returns (others: seq<Collector>, collectorUUID: string)
    ensures others == Others(list, filename)
    ensures collectorUUID == ReusedUUID(list, filename, freshUUID)
  {
    others := [];
    collectorUUID := freshUUID;
    for i := 0 to |list|
      invariant others + Others(list[i..], filename) == Others(list, filename)
      invariant ReusedUUID(list[i..], filename, collectorUUID) == ReusedUUID(list, filename, freshUUID)
    {
      SplitAt(list, filename, others, collectorUUID, i);
      if list[i].spec.filename == filename {
        collectorUUID := list[i].uuid;
      } else {
        others := others + [list[i]];
      }
    }
  }

  // ---------------------------------------------------------------- one reconcile

  predicate Guard(cr: CR) {
    cr.ready && cr.observedGeneration == cr.generation && cr.syncedUUID != ""
  }

  function SetFailed(cr: CR, statusOk: bool): CR {
    if statusOk then cr.(failed := true, observedGeneration := cr.generation) else cr
  }

  predicate HasUUID(list: seq<Collector>, uuid: string) {
    exists c :: c in list && c.uuid == uuid
  }

  /** The world after a whole-list write that pushes `spec`. */
  function WritePush(w: World, spec: Spec, freshUUID: string): World {
    var uuid := ReusedUUID(w.list, spec.filename, freshUUID);
    w.(list := Others(w.list, spec.filename) + [Pushed(uuid, spec)],
       pushed := w.pushed[spec.filename := spec],
       uuids := if spec.filename in w.pushed then w.uuids else w.uuids[spec.filename := uuid])
  }

  /** The world after the entries of a file name have left the list. */
  function WriteRemoval(w: World, filename: string): World {
    w.(list := Others(w.list, filename), pushed := w.pushed - {filename}, uuids := w.uuids - {filename})
  }

  function SetCR(w: World, i: nat, cr: CR): World
    requires i < |w.crs|
  {
    w.(crs := w.crs[i := cr])
  }

  function Push(w: World, cr: CR, plan: Plan): (World, CR) {
    if plan.get.Error? || plan.put.Error? then (w, SetFailed(cr, plan.statusOk))
    else
      var uuid := ReusedUUID(w.list, cr.spec.filename, plan.freshUUID);
      (WritePush(w, cr.spec, plan.freshUUID),
       if plan.refetchOk && plan.statusOk
       then cr.(syncedUUID := uuid, observedGeneration := cr.generation, ready := true, failed := false)
       else cr)
  }

  function Deletion(w: World, cr: CR, plan: Plan): (World, CR) {
    var released := if plan.updateOk then cr.(finalizer := false) else cr;
    if !cr.finalizer || plan.connection != Connected || IsRetryable(plan.get) then (w, cr)
    else if plan.get.Error? then (w, released)
    else if |Others(w.list, cr.spec.filename)| == |w.list| then (w, released)
    else if IsRetryable(plan.put) then (w, cr)
    else if plan.put.Error? then (w, released)
    else (WriteRemoval(w, cr.spec.filename), released)
  }

  function ReconcileCR(w: World, cr: CR, plan: Plan): (World, CR) {
    if cr.deleting then Deletion(w, cr, plan)
    else if !cr.finalizer then (w, if plan.updateOk then cr.(finalizer := true) else cr)
    else if plan.connection != Connected then (w, SetFailed(cr, plan.statusOk))
    else if !Guard(cr) then Push(w, cr, plan)
    else if plan.driftGet.Error? || HasUUID(w.list, cr.syncedUUID) || !plan.driftStatusOk then (w, cr)
    else Push(w, cr.(syncedUUID := ""), plan)
  }

  function Reconcile(w: World, i: nat, plan: Plan): World
    requires i < |w.crs|
  {
    var r := ReconcileCR(w, w.crs[i], plan);
    r.0.(crs := w.crs[i := r.1])
  }

  class Controller {
    var list: seq<Collector>
    var crs: seq<CR>
    ghost var pushed: map<string, Spec>
    ghost var uuids: map<string, string>

    ghost function State(): World
      reads this
    {
      World(list, crs, pushed, uuids)
    }

    method SetFailedCondition(i: nat, statusOk: bool)
      requires i < |crs|
      modifies `crs
      ensures State() == SetCR(old(State()), i, SetFailed(old(crs)[i], statusOk))
    {
      if statusOk {
        crs := crs[i := crs[i].(failed := true, observedGeneration := crs[i].generation)];
      }
    }

    method CheckDrift(i: nat, plan: Plan) returns (done: bool)
      requires i < |crs|
      modifies `crs
      ensures done <==> plan.driftGet.Error? || HasUUID(list, old(crs)[i].syncedUUID) || !plan.driftStatusOk
      ensures crs == if done then old(crs) else old(crs)[i := old(crs)[i].(syncedUUID := "")]
    {
      if plan.driftGet.Error? {
        return true;
      }
      for k := 0 to |list|
        invariant crs == old(crs)
        invariant forall j :: 0 <= j < k ==> list[j].uuid != crs[i].syncedUUID
      {
        if list[k].uuid == crs[i].syncedUUID {
          return true;
        }
      }
      if !plan.driftStatusOk {
        return true;
      }
      crs := crs[i := crs[i].(syncedUUID := "")];
      return false;
    }

    method HandleDeletion(i: nat, plan: Plan)
      requires i < |crs|
      modifies this
      ensures var r := Deletion(old(State()), old(crs)[i], plan);
              State() == r.0.(crs := old(crs)[i := r.1])
    {
      if !crs[i].finalizer || plan.connection != Connected {
        return;
      }
      if plan.get.Error? {
        if plan.get.status >= 500 {
          return;
        }
      } else {
        var filename := crs[i].spec.filename;
        var filtered, _ := SplitByFilename(list, filename, "");
        if |filtered| != |list| {
          if plan.put.Error? {
            if plan.put.status >= 500 {
              return;
            }
          } else {
            list := filtered;
            pushed := pushed - {filename};
            uuids := uuids - {filename};
          }
        }
      }
      if plan.updateOk {
        crs := crs[i := crs[i].(finalizer := false)];
      }
    }

    /** The rest of a reconcile once drift is ruled out: read, edit and write back the whole list. */
    method PutCollector(i: nat, plan: Plan)
      requires i < |crs|
      modifies this
      ensures var r := Push(old(State()), old(crs)[i], plan);
              State() == r.0.(crs := old(crs)[i := r.1])
    {
      if plan.get.Error? {
        SetFailedCondition(i, plan.statusOk);
        return;
      }
      var filename := crs[i].spec.filename;
      var others, collectorUUID := SplitByFilename(list, filename, plan.freshUUID);
      var updated := Collector(collectorUUID, "", crs[i].spec, "");
      var collectors := others + [updated];
      if plan.put.Error? {
        SetFailedCondition(i, plan.statusOk);
        return;
      }
      list := collectors;
      if filename !in pushed {
        uuids := uuids[filename := collectorUUID];
      }
      pushed := pushed[filename := crs[i].spec];
      if plan.refetchOk && plan.statusOk {
        crs := crs[i := crs[i].(syncedUUID := collectorUUID, observedGeneration := crs[i].generation,
                                ready := true, failed := false)];
      }
    }

    method ReconcileOne(i: nat, plan: Plan)
      requires i < |crs|
      modifies this
      ensures State() == Reconcile(old(State()), i, plan)
    {
      if crs[i].deleting {
        HandleDeletion(i, plan);
        return;
      }
      if !crs[i].finalizer {
        if plan.updateOk {
          crs := crs[i := crs[i].(finalizer := true)];
        }
        return;
      }
      if plan.connection != Connected {
        SetFailedCondition(i, plan.statusOk);
        return;
      }
      if Guard(crs[i]) {
        var done := CheckDrift(i, plan);
        if done {
          return;
        }
      }
      PutCollector(i, plan);
    }
  }

  // ---------------------------------------------------------------- runs

  datatype Action =
    | Sync(i: nat, plan: Plan)
    | Edit(i: nat, spec: Spec)
    | RequestDelete(i: nat)
    | Recreate(i: nat, spec: Spec)
    | RemoveExternally(filename: string)

  function Step(w: World, a: Action): World {
    match a
    case Sync(i, plan) => if i < |w.crs| then Reconcile(w, i, plan) else w
    case Edit(i, spec) =>
      if i < |w.crs| then SetCR(w, i, w.crs[i].(spec := spec, generation := w.crs[i].generation + 1)) else w
    case RequestDelete(i) =>
      if i < |w.crs| && !w.crs[i].deleting
      then SetCR(w, i, w.crs[i].(deleting := true, generation := w.crs[i].generation + 1)) else w
    case Recreate(i, spec) =>
      if i < |w.crs| && w.crs[i].deleting && !w.crs[i].finalizer
      then SetCR(w, i, CR(spec, 1, false, false, "", 0, false, false)) else w
    case RemoveExternally(filename) => WriteRemoval(w, filename)
  }

  function Run(w: World, actions: seq<Action>): World
    decreases |actions|
  {
    if actions == [] then w else Run(Step(w, actions[0]), actions[1..])
  }

  /** Everything not named by a resource, in order. */
  function Foreign(list: seq<Collector>, names: set<string>): seq<Collector> {
    if list == [] then []
    else (if list[0].spec.filename in names then [] else [list[0]]) + Foreign(list[1..], names)
  }

  /** All file names that resources use, now or after an edit, are among `names`. */
  predicate UsesOnly(a: Action, names: set<string>) {
    match a
    case Edit(_, spec) => spec.filename in names
    case Recreate(_, spec) => spec.filename in names
    case RemoveExternally(filename) => filename in names
    case _ => true
  }

  ghost predicate ResourcesUse(w: World, names: set<string>) {
    forall i :: 0 <= i < |w.crs| ==> w.crs[i].spec.filename in names
  }

  lemma {:induction false} OthersKeep(list: seq<Collector>, filename: string, f: string)
    ensures Entries(Others(list, filename), f) == if f == filename then [] else Entries(list, f)
  {
    if list != [] {
      OthersKeep(list[1..], filename, f);
      var tail := Others(list[1..], filename);
      assert [] + tail == tail;
      assert ([list[0]] + tail)[1..] == tail;
    }
  }

  lemma {:induction false} OthersForeign(list: seq<Collector>, filename: string, names: set<string>)
    requires filename in names
    ensures Foreign(Others(list, filename), names) == Foreign(list, names)
  {
    if list != [] {
      OthersForeign(list[1..], filename, names);
      var tail := Others(list[1..], filename);
      assert [] + tail == tail;
      assert ([list[0]] + tail)[1..] == tail;
    }
  }

  lemma {:induction false} EntriesAppend(list: seq<Collector>, c: Collector, f: string)
    ensures Entries(list + [c], f) == Entries(list, f) + (if c.spec.filename == f then [c] else [])
  {
    if list == [] {
      assert list + [c] == [c];
    } else {
      EntriesAppend(list[1..], c, f);
      assert (list + [c])[1..] == list[1..] + [c];
    }
  }

  lemma {:induction false} ForeignAppend(list: seq<Collector>, c: Collector, names: set<string>)
    requires c.spec.filename in names
    ensures Foreign(list + [c], names) == Foreign(list, names)
  {
    if list == [] {
      assert list + [c] == [c];
    } else {
      ForeignAppend(list[1..], c, names);
      assert (list + [c])[1..] == list[1..] + [c];
    }
  }

  /** The reused UUID depends only on the entries of the file name. */
  lemma {:induction false} ReuseLooksAtEntries(list: seq<Collector>, f: string, uuid: string)
    ensures ReusedUUID(list, f, uuid)
         == if Entries(list, f) == [] then uuid else Entries(list, f)[|Entries(list, f)| - 1].uuid
  {
    if list != [] {
      ReuseLooksAtEntries(list[1..], f, if list[0].spec.filename == f then list[0].uuid else uuid);
    }
  }

  /** A pushed file name has exactly one entry: the last pushed spec under the UUID of its first push. */
  ghost predicate Settled(w: World, f: string) {
    f in w.pushed ==> f in w.uuids && Entries(w.list, f) == [Pushed(w.uuids[f], w.pushed[f])]
  }

  lemma PushSettles(w: World, spec: Spec, freshUUID: string, f: string)
    requires Settled(w, f)
    requires f in w.pushed ==> w.pushed[f].filename == f
    ensures Settled(WritePush(w, spec, freshUUID), f)
    ensures f in WritePush(w, spec, freshUUID).pushed ==> WritePush(w, spec, freshUUID).pushed[f].filename == f
  {
    var uuid := ReusedUUID(w.list, spec.filename, freshUUID);
    OthersKeep(w.list, spec.filename, f);
    EntriesAppend(Others(w.list, spec.filename), Pushed(uuid, spec), f);
    ReuseLooksAtEntries(w.list, f, freshUUID);
  }

  lemma RemovalSettles(w: World, filename: string, f: string)
    requires Settled(w, f)
    ensures Settled(WriteRemoval(w, filename), f)
  {
    OthersKeep(w.list, filename, f);
  }

  ghost predicate Inv(w: World, f: string) {
    Settled(w, f) && (f in w.pushed ==> w.pushed[f].filename == f)
  }

  /** The world after a step differs in the list by one whole-list write at most. */
  lemma StepWrites(w: World, a: Action) returns (spec: Spec, freshUUID: string, filename: string)
    ensures var w' := Step(w, a);
            || w' == w.(crs := w'.crs)
            || (w' == WritePush(w, spec, freshUUID).(crs := w'.crs)
                && a.Sync? && a.i < |w.crs| && spec == w.crs[a.i].spec && freshUUID == a.plan.freshUUID)
            || (w' == WriteRemoval(w, filename).(crs := w'.crs)
                && (|| (a.Sync? && a.i < |w.crs| && filename == w.crs[a.i].spec.filename)
                    || a == RemoveExternally(filename)))
  {
    if a.Sync? && a.i < |w.crs| {
      spec, freshUUID, filename := w.crs[a.i].spec, a.plan.freshUUID, w.crs[a.i].spec.filename;
    } else {
      spec, freshUUID := Spec("", "", "", "", "", "", "", "", "", false), "";
      filename := if a.RemoveExternally? then a.filename else "";
    }
  }

  lemma StepKeepsInv(w: World, a: Action, f: string)
    requires Inv(w, f)
    ensures Inv(Step(w, a), f)
    ensures f in w.pushed && f in Step(w, a).pushed ==>
              f in w.uuids && f in Step(w, a).uuids && Step(w, a).uuids[f] == w.uuids[f]
  {
    var spec, freshUUID, filename := StepWrites(w, a);
    PushSettles(w, spec, freshUUID, f);
    RemovalSettles(w, filename, f);
  }

  lemma ReconcileKeepsSpec(w: World, cr: CR, plan: Plan)
    ensures ReconcileCR(w, cr, plan).1.spec == cr.spec
  {
  }

  lemma StepKeepsName(w: World, a: Action, j: nat)
    requires j < |w.crs|
    ensures var w' := Step(w, a);
            && |w'.crs| == |w.crs|
            && (|| w'.crs[j].spec == w.crs[j].spec
                || (a.Edit? && w'.crs[j].spec == a.spec)
                || (a.Recreate? && w'.crs[j].spec == a.spec))
  {
    if a.Sync? && a.i < |w.crs| {
      ReconcileKeepsSpec(w, w.crs[a.i], a.plan);
    }
  }

  lemma StepKeepsNames(w: World, a: Action, names: set<string>)
    requires ResourcesUse(w, names) && UsesOnly(a, names)
    ensures ResourcesUse(Step(w, a), names)
  {
    var crs' := Step(w, a).crs;
    assert |crs'| == |w.crs| by {
      if w.crs != [] {
        StepKeepsName(w, a, 0);
      }
    }
    forall j | 0 <= j < |crs'| ensures crs'[j].spec.filename in names {
      StepKeepsName(w, a, j);
    }
  }

  lemma WritesKeepForeign(w: World, spec: Spec, freshUUID: string, filename: string, names: set<string>)
    ensures spec.filename in names ==> Foreign(WritePush(w, spec, freshUUID).list, names) == Foreign(w.list, names)
    ensures filename in names ==> Foreign(WriteRemoval(w, filename).list, names) == Foreign(w.list, names)
  {
    if spec.filename in names {
      OthersForeign(w.list, spec.filename, names);
      ForeignAppend(Others(w.list, spec.filename),
                    Pushed(ReusedUUID(w.list, spec.filename, freshUUID), spec), names);
    }
    if filename in names {
      OthersForeign(w.list, filename, names);
    }
  }

  lemma StepKeepsForeign(w: World, a: Action, names: set<string>)
    requires ResourcesUse(w, names) && UsesOnly(a, names)
    ensures Foreign(Step(w, a).list, names) == Foreign(w.list, names)
  {
    var spec, freshUUID, filename := StepWrites(w, a);
    WritesKeepForeign(w, spec, freshUUID, filename, names);
  }

  /** In every run, whatever its failures: entries that no resource names keep content and order. */
  lemma {:induction false} RunKeepsForeign(w: World, actions: seq<Action>, names: set<string>)
    requires ResourcesUse(w, names) && forall a :: a in actions ==> UsesOnly(a, names)
    ensures Foreign(Run(w, actions).list, names) == Foreign(w.list, names)
    decreases |actions|
  {
    if actions != [] {
      StepKeepsNames(w, actions[0], names);
      StepKeepsForeign(w, actions[0], names);
      RunKeepsForeign(Step(w, actions[0]), actions[1..], names);
    }
  }

  /** In every run, whatever its failures: a file name that was pushed and not removed since has
      exactly one entry, equal to the spec pushed last, under the UUID of its first push. */
  lemma {:induction false} RunSettles(w: World, actions: seq<Action>, f: string)
    requires Inv(w, f)
    ensures Inv(Run(w, actions), f)
    decreases |actions|
  {
    if actions != [] {
      StepKeepsInv(w, actions[0], f);
      RunSettles(Step(w, actions[0]), actions[1..], f);
    }
  }

  /** `f` is never removed along the run. */
  ghost predicate StaysPushed(w: World, actions: seq<Action>, f: string)
    decreases |actions|
  {
    f in w.pushed && (actions != [] ==> StaysPushed(Step(w, actions[0]), actions[1..], f))
  }

  /** Between removals, the UUID of a file name never changes, however often its spec is pushed. */
  lemma {:induction false} UUIDIsStable(w: World, actions: seq<Action>, f: string)
    requires Inv(w, f) && StaysPushed(w, actions, f)
    ensures f in Run(w, actions).pushed
    ensures Entries(Run(w, actions).list, f) == [Pushed(w.uuids[f], Run(w, actions).pushed[f])]
    decreases |actions|
  {
    if actions != [] {
      StepKeepsInv(w, actions[0], f);
      UUIDIsStable(Step(w, actions[0]), actions[1..], f);
    }
  }

  /** An entry that was removed behind the operator's back comes back with the next successful
      reconcile of a resource that the guard would skip, with the spec of that moment. */
  lemma DriftRecreates(w: World, i: nat, plan: Plan)
    requires i < |w.crs| && w.crs[i].finalizer && !w.crs[i].deleting && Guard(w.crs[i])
    requires plan.connection == Connected && plan.driftGet.Ok? && plan.driftStatusOk && plan.get.Ok? && plan.put.Ok?
    requires !HasUUID(w.list, w.crs[i].syncedUUID) && Entries(w.list, w.crs[i].spec.filename) == []
    ensures Entries(Reconcile(w, i, plan).list, w.crs[i].spec.filename) == [Pushed(plan.freshUUID, w.crs[i].spec)]
  {
    var spec := w.crs[i].spec;
    ReuseLooksAtEntries(w.list, spec.filename, plan.freshUUID);
    OthersKeep(w.list, spec.filename, spec.filename);
    EntriesAppend(Others(w.list, spec.filename), Pushed(plan.freshUUID, spec), spec.filename);
  }

  // ---------------------------------------------------------------- edits lost from sight

  /** The attempt fails at the connection, also a paused one, the read or the write, and the failure is
      stored. */
  predicate StoredFailure(plan: Plan) {
    plan.statusOk && (plan.connection != Connected || plan.get.Error? || plan.put.Error?)
  }

  /** A pending edit of a synced resource whose UUID is listed ends up hidden, that is skipped from now on
      with the list as it was, if and only if the attempt to push it fails and the failure is stored. */
  lemma FailureHidesEditExactly(w: World, i: nat, plan: Plan)
    requires i < |w.crs| && w.crs[i].finalizer && !w.crs[i].deleting && w.crs[i].ready
    requires w.crs[i].syncedUUID != "" && HasUUID(w.list, w.crs[i].syncedUUID)
    requires w.crs[i].observedGeneration != w.crs[i].generation
    ensures var w' := Reconcile(w, i, plan);
            && (Guard(w'.crs[i]) && w'.crs[i].failed && w'.list == w.list && w'.pushed == w.pushed
                <==> StoredFailure(plan))
            && w'.crs[i].spec == w.crs[i].spec
  {
    var r := ReconcileCR(w, w.crs[i], plan);
    assert Reconcile(w, i, plan).crs[i] == r.1;
  }

  /** From there on no reconcile with a working connection pushes the edited spec while the old entry is
      there. */
  lemma FailedPushHidesEdit(w: World, i: nat, edited: Spec, failing: Plan, later: Plan)
    requires i < |w.crs| && w.crs[i].finalizer && !w.crs[i].deleting && Guard(w.crs[i])
    requires HasUUID(w.list, w.crs[i].syncedUUID) && StoredFailure(failing)
    requires later.connection == Connected
    ensures var w1 := Run(w, [Edit(i, edited), Sync(i, failing)]);
            && w1.list == w.list && w1.pushed == w.pushed
            && |w1.crs| == |w.crs| && w1.crs[i].spec == edited && Guard(w1.crs[i])
            && Reconcile(w1, i, later) == w1
  {
    var edit := Step(w, Edit(i, edited));
    FailureHidesEditExactly(edit, i, failing);
    var actions := [Edit(i, edited), Sync(i, failing)];
    assert actions[1..] == [Sync(i, failing)] && actions[1..][1..] == [];
    assert Run(w, actions) == Run(edit, [Sync(i, failing)]) == Run(Reconcile(edit, i, failing), []);
    var w1 := Reconcile(edit, i, failing);
    assert w1.crs[i := w1.crs[i]] == w1.crs;
  }

  // ---------------------------------------------------------------- one deletion

  lemma {:induction false} OthersAreForeign(list: seq<Collector>, filename: string)
    ensures Others(list, filename) == Foreign(list, {filename})
    ensures |Others(list, filename)| + |Entries(list, filename)| == |list|
    ensures Entries(list, filename) == [] ==> Others(list, filename) == list
  {
    if list != [] {
      OthersAreForeign(list[1..], filename);
    }
  }

  predicate PutLands(plan: Plan) {
    plan.connection == Connected && plan.get.Ok? && plan.put.Ok?
  }

  /** Read or write failed without a server error, which includes a broken connection. */
  predicate GivesUp(plan: Plan) {
    && plan.connection == Connected
    && ((plan.get.Error? && !IsRetryable(plan.get)) || (plan.get.Ok? && plan.put.Error? && !IsRetryable(plan.put)))
  }

  predicate FindsNothing(w: World, filename: string, plan: Plan) {
    plan.connection == Connected && plan.get.Ok? && Entries(w.list, filename) == []
  }

  /** After a deletion no entry of the file name is left if and only if there was none, or read and write
      succeed; all other entries keep content and order. It lets go of the resource if and only if the
      write landed, there was nothing to remove, or it gave up, and in the last case the entry stays. */
  lemma DeletionRemovesExactly(w: World, i: nat, plan: Plan)
    requires i < |w.crs| && w.crs[i].deleting && w.crs[i].finalizer
    ensures var w' := Reconcile(w, i, plan); var f := w.crs[i].spec.filename;
            && (Entries(w'.list, f) == [] <==> Entries(w.list, f) == [] || PutLands(plan))
            && Foreign(w'.list, {f}) == Foreign(w.list, {f})
            && (w'.list == w.list || w'.list == Foreign(w.list, {f}))
            && |w'.crs| == |w.crs| && (forall j :: 0 <= j < |w.crs| && j != i ==> w'.crs[j] == w.crs[j])
            && (!w'.crs[i].finalizer <==>
                  plan.updateOk && (PutLands(plan) || FindsNothing(w, f, plan) || GivesUp(plan)))
            && (!w'.crs[i].finalizer && Entries(w'.list, f) != [] <==>
                  plan.updateOk && GivesUp(plan) && Entries(w.list, f) != [])
  {
    var f := w.crs[i].spec.filename;
    OthersAreForeign(w.list, f);
    OthersKeep(w.list, f, f);
    OthersForeign(w.list, f, {f});
    var r := ReconcileCR(w, w.crs[i], plan);
    assert Reconcile(w, i, plan).crs == w.crs[i := r.1];
  }

  // ---------------------------------------------------------------- one successful push

  predicate Successful(plan: Plan) {
    && plan.connection == Connected && plan.driftGet.Ok? && plan.driftStatusOk
    && plan.get.Ok? && plan.put.Ok? && plan.refetchOk && plan.statusOk
  }

  lemma LastIsIn(list: seq<Collector>, c: Collector)
    ensures HasUUID(list + [c], c.uuid)
  {
    assert (list + [c])[|list|] == c;
    assert c in list + [c];
  }

  /** A successful reconcile that does not skip leaves one entry for the file name, with the current spec and
      the UUID found there, or a fresh one, and stores that UUID. The next one skips if and only if the UUID
      is not empty, as one that was found in the list may be. */
  lemma PushStoresResult(w: World, i: nat, plan: Plan, next: Plan)
    requires i < |w.crs| && w.crs[i].finalizer && !w.crs[i].deleting && Successful(plan)
    requires !Guard(w.crs[i]) || !HasUUID(w.list, w.crs[i].syncedUUID)
    requires next.connection == Connected
    ensures var w' := Reconcile(w, i, plan); var f := w.crs[i].spec.filename;
            var es := Entries(w.list, f); var uuid := if es == [] then plan.freshUUID else es[|es| - 1].uuid;
            && w'.list == Foreign(w.list, {f}) + [Collector(uuid, "", w.crs[i].spec, "")]
            && |w'.crs| == |w.crs| && w'.crs[i].spec == w.crs[i].spec
            && w'.crs[i].syncedUUID == uuid && !w'.crs[i].failed
            && (Guard(w'.crs[i]) <==> uuid != "")
            && (uuid != "" ==> Reconcile(w', i, next) == w')
  {
    var spec := w.crs[i].spec;
    var w' := Reconcile(w, i, plan);
    ReuseLooksAtEntries(w.list, spec.filename, plan.freshUUID);
    OthersAreForeign(w.list, spec.filename);
    var uuid := ReusedUUID(w.list, spec.filename, plan.freshUUID);
    LastIsIn(Others(w.list, spec.filename), Pushed(uuid, spec));
    var r := ReconcileCR(w, w.crs[i], plan);
    assert w'.crs == w.crs[i := r.1];
    assert w'.crs[i := w'.crs[i]] == w'.crs;
  }

  /** A new resource gets its finalizer before anything is written to the list. */
  lemma FinalizerComesFirst(w: World, i: nat, plan: Plan)
    requires i < |w.crs| && !w.crs[i].finalizer
    ensures var w' := Reconcile(w, i, plan);
            && w'.list == w.list && |w'.crs| == |w.crs|
            && (w'.crs[i].finalizer <==> !w.crs[i].deleting && plan.updateOk)
            && w'.crs[i] == w.crs[i].(finalizer := w'.crs[i].finalizer)
  {
    var r := ReconcileCR(w, w.crs[i], plan);
    assert Reconcile(w, i, plan).crs == w.crs[i := r.1];
  }
}

/** The life cycle of one alert-endpoint resource. Unlike metric alerts, a failure here takes Ready
    away, but a success stamps the generation that the re-fetch returns, not the one that was sent. */
module AlertEndpointSync {
  import opened Options
  import opened ApiOutcomes

  datatype Spec = Spec(endpointType: string, content: string)

  datatype Condition = Condition(holds: bool, observedGeneration: nat)

  datatype Status = Status(syncedID: Option<nat>, observedGeneration: nat, ready: Option<Condition>)

  datatype Object = Object(
    spec: Spec, generation: nat, version: nat, deleting: bool, finalizer: bool, status: Status)

  predicate Gone(o: Object) {
    o.deleting && !o.finalizer
  }

  /** `remote` are the integrations with IDs of this resource, numbered in drawing order, each with the spec
      that its parameters were built from. For the record: `history` holds the spec of every generation,
      `accepted` the spec that the API last took in a payload sent for a generation. */
  datatype World = World(
    cr: Object, remote: map<nat, Spec>, nextID: nat, history: seq<Spec>, accepted: map<nat, Spec>)

  // ---------------------------------------------------------------- the environment

  /** Like an edit, the first deletion request raises the generation. */
  datatype Move = EditSpec(spec: Spec) | RequestDelete | RemoveIntegration(id: nat)

  function Apply(w: World, m: Move): World {
    if m.RemoveIntegration? then w.(remote := w.remote - {m.id})
    else if Gone(w.cr) then w
    else match m
      case EditSpec(spec) =>
        w.(cr := w.cr.(spec := spec, generation := w.cr.generation + 1, version := w.cr.version + 1),
           history := w.history + [spec])
      case RequestDelete =>
        if w.cr.deleting then w
        else w.(cr := w.cr.(deleting := true, generation := w.cr.generation + 1, version := w.cr.version + 1),
                history := w.history + [w.cr.spec])
      case RemoveIntegration(_) => w
  }

  function Interfere(w: World, moves: seq<Move>): World
    decreases |moves|
  {
    if moves == [] then w else Interfere(Apply(w, moves[0]), moves[1..])
  }

  // ---------------------------------------------------------------- one reconcile

  datatype Post = Accepted | Refused | AnswerLost

  /** `paramsOk`: the typed configuration is complete and its secrets resolve; `deleteApplied`: a DELETE
      that errors took effect all the same. The gaps lie before the drift check, before its status write,
      before the POST, before the re-fetch and before the final write; in a deletion, before the DELETE
      and before the finalizer write. */
  datatype Plan = Plan(
    driftConnection: Connection, driftGet: Outcome, driftStatusOk: bool, paramsOk: bool,
    connection: Connection, post: Post, refetchOk: bool, statusOk: bool, updateOk: bool,
    delete: Outcome, deleteApplied: bool,
    gap0: seq<Move>, gap1: seq<Move>, gap2: seq<Move>, gap3: seq<Move>, gap4: seq<Move>)

  predicate Guard(o: Object) {
    && o.status.ready.Some? && o.status.ready.value.holds
    && o.status.observedGeneration == o.generation
    && o.status.syncedID.Some?
  }

  predicate WriteLands(w: World, local: Object, ok: bool) {
    ok && !Gone(w.cr) && local.version == w.cr.version
  }

  function WriteStatus(w: World, local: Object, ok: bool): World {
    if WriteLands(w, local, ok) then w.(cr := w.cr.(status := local.status, version := w.cr.version + 1)) else w
  }

  function WriteFinalizer(w: World, local: Object, finalizer: bool, ok: bool): World {
    if WriteLands(w, local, ok) then w.(cr := w.cr.(finalizer := finalizer, version := w.cr.version + 1)) else w
  }

  function NotReady(local: Object): Object {
    local.(status := local.status.(ready := Some(Condition(false, local.generation))))
  }

  function PushedID(w: World, local: Object): nat {
    if local.status.syncedID.Some? then local.status.syncedID.value else w.nextID
  }

  function Posted(w: World, local: Object): World {
    w.(remote := w.remote[PushedID(w, local) := local.spec],
       accepted := w.accepted[local.generation := local.spec],
       nextID := if local.status.syncedID.Some? then w.nextID else w.nextID + 1)
  }

  /** The status after a success carries the generation of the re-fetched object. */
  function Synced(fetched: Object, id: nat): Object {
    fetched.(status := Status(Some(id), fetched.generation, Some(Condition(true, fetched.generation))))
  }

  function Push(w0: World, local: Object, plan: Plan): World {
    var w := Interfere(w0, plan.gap2);
    if !plan.paramsOk then WriteStatus(w, NotReady(local), plan.statusOk)
    else match plan.connection
      case Paused => WriteStatus(w, local, plan.statusOk)
      case Unresolved => WriteStatus(w, NotReady(local), plan.statusOk)
      case Connected =>
        match plan.post
        case Refused => WriteStatus(w, NotReady(local), plan.statusOk)
        case AnswerLost => WriteStatus(Posted(w, local), NotReady(local), plan.statusOk)
        case Accepted =>
          var w1 := Interfere(Posted(w, local), plan.gap3);
          if !plan.refetchOk || Gone(w1.cr) then w1
          else WriteStatus(Interfere(w1, plan.gap4), Synced(w1.cr, PushedID(w, local)), plan.statusOk)
  }

  /** The integration is gone: its ID is forgotten, and the integration posted anew. */
  function Recreate(w0: World, local: Object, plan: Plan): World {
    var w1 := Interfere(w0, plan.gap1);
    var cleared := local.(status := local.status.(syncedID := None));
    if !WriteLands(w1, cleared, plan.driftStatusOk) then w1
    else
      var w2 := WriteStatus(w1, cleared, plan.driftStatusOk);
      Push(w2, w2.cr, plan)
  }

  function Deletion(w0: World, local: Object, plan: Plan): World {
    var w := Interfere(w0, plan.gap0);
    if !local.finalizer || plan.connection != Connected then w
    else if local.status.syncedID.None? then WriteFinalizer(w, local, false, plan.updateOk)
    else
      var w1 := if plan.delete.Ok? || plan.deleteApplied
                then w.(remote := w.remote - {local.status.syncedID.value}) else w;
      if IsRetryable(plan.delete) then w1
      else WriteFinalizer(Interfere(w1, plan.gap1), local, false, plan.updateOk)
  }

  function Reconcile(w: World, plan: Plan): World {
    var local := w.cr;
    if Gone(local) then w
    else if local.deleting then Deletion(w, local, plan)
    else
      var w0 := Interfere(w, plan.gap0);
      if !local.finalizer then WriteFinalizer(w0, local, true, plan.updateOk)
      else if !Guard(local) then Push(w0, local, plan)
      else if plan.driftConnection != Connected then w0
      else if plan.driftGet.Error? then WriteStatus(w0, local, plan.statusOk)
      else if local.status.syncedID.value in w0.remote then w0
      else Recreate(w0, local, plan)
  }

  class Controller {
    var cr: Object
    var remote: map<nat, Spec>
    var nextID: nat
    ghost var history: seq<Spec>
    ghost var accepted: map<nat, Spec>

    ghost function State(): World
      reads this
    {
      World(cr, remote, nextID, history, accepted)
    }

    method Meanwhile(moves: seq<Move>)
      modifies this
      ensures State() == Interfere(old(State()), moves)
    {
      for i := 0 to |moves|
        invariant Interfere(State(), moves[i..]) == Interfere(old(State()), moves)
      {
        assert moves[i..][1..] == moves[i + 1..];
        if moves[i].RemoveIntegration? {
          remote := remote - {moves[i].id};
        } else if !(cr.deleting && !cr.finalizer) {
          if moves[i].EditSpec? {
            cr := cr.(spec := moves[i].spec, generation := cr.generation + 1, version := cr.version + 1);
            history := history + [moves[i].spec];
          } else if !cr.deleting {
            history := history + [cr.spec];
            cr := cr.(deleting := true, generation := cr.generation + 1, version := cr.version + 1);
          }
        }
      }
    }

    method UpdateStatus(local: Object, ok: bool) returns (landed: bool)
      modifies `cr
      ensures landed <==> WriteLands(old(State()), local, ok)
      ensures State() == WriteStatus(old(State()), local, ok)
    {
      landed := ok && !(cr.deleting && !cr.finalizer) && local.version == cr.version;
      if landed {
        cr := cr.(status := local.status, version := cr.version + 1);
      }
    }

    method UpdateFinalizer(local: Object, finalizer: bool, ok: bool)
      modifies `cr
      ensures State() == WriteFinalizer(old(State()), local, finalizer, ok)
    {
      if ok && !(cr.deleting && !cr.finalizer) && local.version == cr.version {
        cr := cr.(finalizer := finalizer, version := cr.version + 1);
      }
    }

    method SyncIntegration(endpoint: Object, plan: Plan)
      modifies this
      ensures State() == Push(old(State()), endpoint, plan)
    {
      Meanwhile(plan.gap2);
      if !plan.paramsOk || plan.connection == Unresolved {
        var _ := UpdateStatus(NotReady(endpoint), plan.statusOk);
        return;
      }
      if plan.connection == Paused {
        var _ := UpdateStatus(endpoint, plan.statusOk);
        return;
      }
      if plan.post == Refused {
        var _ := UpdateStatus(NotReady(endpoint), plan.statusOk);
        return;
      }
      var id := nextID;
      if endpoint.status.syncedID.Some? {
        id := endpoint.status.syncedID.value;
      } else {
        nextID := nextID + 1;
      }
      remote := remote[id := endpoint.spec];
      accepted := accepted[endpoint.generation := endpoint.spec];
      if plan.post == AnswerLost {
        var _ := UpdateStatus(NotReady(endpoint), plan.statusOk);
        return;
      }
      Meanwhile(plan.gap3);
      if !plan.refetchOk || (cr.deleting && !cr.finalizer) {
        return;
      }
      var fetched := cr;
      fetched := fetched.(status := Status(Some(id), fetched.generation, Some(Condition(true, fetched.generation))));
      Meanwhile(plan.gap4);
      var _ := UpdateStatus(fetched, plan.statusOk);
    }

    method HandleDeletion(plan: Plan)
      modifies this
      ensures State() == Deletion(old(State()), old(cr), plan)
    {
      var local := cr;
      Meanwhile(plan.gap0);
      if !local.finalizer || plan.connection != Connected {
        return;
      }
      if local.status.syncedID.Some? {
        if plan.delete.Ok? || plan.deleteApplied {
          remote := remote - {local.status.syncedID.value};
        }
        if plan.delete.Error? && plan.delete.status >= 500 {
          return;
        }
        Meanwhile(plan.gap1);
      }
      UpdateFinalizer(local, false, plan.updateOk);
    }

    method ReconcileOnce(plan: Plan)
      modifies this
      ensures State() == Reconcile(old(State()), plan)
    {
      var endpoint := cr;
      if endpoint.deleting {
        if endpoint.finalizer {
          HandleDeletion(plan);
        }
        return;
      }
      Meanwhile(plan.gap0);
      if !endpoint.finalizer {
        UpdateFinalizer(endpoint, true, plan.updateOk);
        return;
      }
      if Guard(endpoint) {
        if plan.driftConnection != Connected {
          return;
        }
        if plan.driftGet.Error? {
          var _ := UpdateStatus(endpoint, plan.statusOk);
          return;
        }
        if endpoint.status.syncedID.value in remote {
          return;
        }
        Meanwhile(plan.gap1);
        endpoint := endpoint.(status := endpoint.status.(syncedID := None));
        var landed := UpdateStatus(endpoint, plan.driftStatusOk);
        if !landed {
          return;
        }
        endpoint := cr;
      }
      SyncIntegration(endpoint, plan);
    }
  }

  // ---------------------------------------------------------------- invariants

  ghost predicate AcceptedMatch(accepted: map<nat, Spec>, history: seq<Spec>) {
    forall g :: g in accepted ==> 1 <= g <= |history| && accepted[g] == history[g - 1]
  }

  ghost predicate Consistent(w: World) {
    && 1 <= |w.history| == w.cr.generation
    && w.cr.spec == w.history[w.cr.generation - 1]
    && AcceptedMatch(w.accepted, w.history)
  }

  /** A standing Ready condition means that the observed generation was accepted. */
  predicate ReadySound(status: Status, accepted: map<nat, Spec>) {
    status.ready.Some? && status.ready.value.holds ==> status.observedGeneration in accepted
  }

  /** Deletion is checked before the guard, so the condition matters up to the first deletion request. */
  ghost predicate Inv(w: World) {
    Consistent(w) && (w.cr.deleting || ReadySound(w.cr.status, w.accepted))
  }

  ghost predicate CopyOf(local: Object, w: World) {
    && 1 <= local.generation <= |w.history|
    && local.spec == w.history[local.generation - 1]
    && local.status == w.cr.status
    && local.finalizer == w.cr.finalizer
    && (w.cr.deleting || ReadySound(local.status, w.accepted))
  }

  predicate HasEdit(moves: seq<Move>)
    decreases |moves|
  {
    moves != [] && (moves[0].EditSpec? || HasEdit(moves[1..]))
  }

  predicate HasDelete(moves: seq<Move>)
    decreases |moves|
  {
    moves != [] && (moves[0].RequestDelete? || HasDelete(moves[1..]))
  }

  /** What moves can do to a resource that has its finalizer: version and generation grow together,
      with every edit and with the first deletion request. */
  ghost predicate Moved(w: World, w': World, edited: bool, deleted: bool) {
    && w'.cr.status == w.cr.status && w'.cr.finalizer == w.cr.finalizer && w'.accepted == w.accepted
    && w.history <= w'.history
    && w.cr.generation <= w'.cr.generation && w.cr.version <= w'.cr.version
    && (w'.cr.version == w.cr.version <==> w'.cr.generation == w.cr.generation)
    && (w'.cr.deleting <==> w.cr.deleting || deleted)
    && (w'.cr.generation == w.cr.generation <==> !edited && (w.cr.deleting || !deleted))
  }

  lemma {:induction false} InterfereMoves(w: World, moves: seq<Move>)
    requires Consistent(w) && w.cr.finalizer
    ensures Consistent(Interfere(w, moves)) && Moved(w, Interfere(w, moves), HasEdit(moves), HasDelete(moves))
    decreases |moves|
  {
    if moves != [] {
      InterfereMoves(Apply(w, moves[0]), moves[1..]);
    }
  }

  /** No edit lands between the fetch that the payload is built from and the re-fetch. A reconcile that
      recreates builds its payload from the object that its own status write returned. */
  predicate QuietUntilRefetch(o: Object, plan: Plan) {
    (Guard(o) || !HasEdit(plan.gap0)) && !HasEdit(plan.gap2) && !HasEdit(plan.gap3)
  }

  /** With or without the finalizer, moves keep the invariant. */
  lemma {:induction false} MovesKeep(w: World, moves: seq<Move>)
    requires Inv(w)
    ensures Inv(Interfere(w, moves))
    decreases |moves|
  {
    if moves != [] {
      MovesKeep(Apply(w, moves[0]), moves[1..]);
    }
  }

  lemma WriteKeeps(w: World, local: Object, ok: bool)
    requires Inv(w) && (w.cr.deleting || ReadySound(local.status, w.accepted))
    ensures Inv(WriteStatus(w, local, ok))
  {
  }

  lemma PushKeeps(w0: World, local: Object, plan: Plan)
    requires Inv(w0) && CopyOf(local, w0) && local.finalizer
    requires w0.cr.deleting || local.generation == w0.cr.generation
    requires !HasEdit(plan.gap2) && !HasEdit(plan.gap3)
    ensures Inv(Push(w0, local, plan))
  {
    var w := Interfere(w0, plan.gap2);
    InterfereMoves(w0, plan.gap2);
    if !plan.paramsOk || plan.connection != Connected || plan.post.Refused? {
      WriteKeeps(w, NotReady(local), plan.statusOk);
      WriteKeeps(w, local, plan.statusOk);
    } else {
      PostedKeeps(w, local);
      WriteKeeps(Posted(w, local), NotReady(local), plan.statusOk);
      AcceptedKeeps(Posted(w, local), local, PushedID(w, local), plan);
    }
  }

  lemma PostedKeeps(w: World, local: Object)
    requires Inv(w) && CopyOf(local, w)
    ensures Inv(Posted(w, local)) && Posted(w, local).cr == w.cr
  {
  }

  /** From an accepted POST on: the generation of the re-fetched object is the accepted one, or it is
      about to be deleted. */
  lemma AcceptedKeeps(posted: World, local: Object, id: nat, plan: Plan)
    requires Inv(posted) && posted.cr.finalizer && local.generation in posted.accepted
    requires posted.cr.deleting || local.generation == posted.cr.generation
    requires !HasEdit(plan.gap3)
    ensures var w1 := Interfere(posted, plan.gap3);
            Inv(w1) && Inv(WriteStatus(Interfere(w1, plan.gap4), Synced(w1.cr, id), plan.statusOk))
  {
    InterfereMoves(posted, plan.gap3);
    var w1 := Interfere(posted, plan.gap3);
    InterfereMoves(w1, plan.gap4);
    WriteKeeps(Interfere(w1, plan.gap4), Synced(w1.cr, id), plan.statusOk);
  }

  lemma RecreateKeeps(w0: World, local: Object, plan: Plan)
    requires Inv(w0) && CopyOf(local, w0) && local.finalizer
    requires !HasEdit(plan.gap2) && !HasEdit(plan.gap3)
    ensures Inv(Recreate(w0, local, plan))
  {
    InterfereMoves(w0, plan.gap1);
    var w1 := Interfere(w0, plan.gap1);
    var cleared := local.(status := local.status.(syncedID := None));
    WriteKeeps(w1, cleared, plan.driftStatusOk);
    if WriteLands(w1, cleared, plan.driftStatusOk) {
      var w2 := WriteStatus(w1, cleared, plan.driftStatusOk);
      PushKeeps(w2, w2.cr, plan);
    }
  }

  lemma DeletionKeeps(w: World, plan: Plan)
    requires Inv(w) && w.cr.deleting && w.cr.finalizer
    ensures Inv(Deletion(w, w.cr, plan))
  {
    MovesKeep(w, plan.gap0);
    var w0 := Interfere(w, plan.gap0);
    MovesKeep(w0, plan.gap1);
    if w.cr.status.syncedID.Some? {
      MovesKeep(w0.(remote := w0.remote - {w.cr.status.syncedID.value}), plan.gap1);
    }
  }

  lemma ReconcileKeeps(w: World, plan: Plan)
    requires Inv(w) && QuietUntilRefetch(w.cr, plan)
    ensures Inv(Reconcile(w, plan))
  {
    var local := w.cr;
    if Gone(local) {
    } else if local.deleting {
      DeletionKeeps(w, plan);
    } else if local.finalizer {
      InterfereMoves(w, plan.gap0);
      var w0 := Interfere(w, plan.gap0);
      if !Guard(local) {
        PushKeeps(w0, local, plan);
      } else {
        WriteKeeps(w0, local, plan.statusOk);
        RecreateKeeps(w0, local, plan);
      }
    } else {
      MovesKeep(w, plan.gap0);
    }
  }

  // ---------------------------------------------------------------- runs

  datatype Action = Environment(move: Move) | Tick(plan: Plan)

  function Step(w: World, a: Action): World {
    match a
    case Environment(m) => Apply(w, m)
    case Tick(plan) => Reconcile(w, plan)
  }

  function Run(w: World, actions: seq<Action>): World
    decreases |actions|
  {
    if actions == [] then w else Run(Step(w, actions[0]), actions[1..])
  }

  function Created(spec: Spec): World {
    World(Object(spec, 1, 1, false, false, Status(None, 0, None)), map[], 0, [spec], map[])
  }

  /** No reconcile of the run has an edit in its window. */
  predicate QuietRun(w: World, actions: seq<Action>)
    decreases |actions|
  {
    actions != [] ==>
      (actions[0].Tick? ==> QuietUntilRefetch(w.cr, actions[0].plan)) && QuietRun(Step(w, actions[0]), actions[1..])
  }

  lemma {:induction false} RunKeeps(w: World, actions: seq<Action>)
    requires Inv(w) && QuietRun(w, actions)
    ensures Inv(Run(w, actions))
    decreases |actions|
  {
    if actions != [] {
      if actions[0].Environment? {
        assert Interfere(w, [actions[0].move]) == Apply(w, actions[0].move);
        MovesKeep(w, [actions[0].move]);
      } else {
        ReconcileKeeps(w, actions[0].plan);
      }
      RunKeeps(Step(w, actions[0]), actions[1..]);
    }
  }

  /** Where a reconcile would skip, the API has accepted a payload built from the current spec. */
  predicate SkipSound(w: World) {
    Guard(w.cr) && !w.cr.deleting ==>
      w.cr.generation in w.accepted && w.accepted[w.cr.generation] == w.cr.spec
  }

  /** Skip soundness: in every run in which no edit lands between a reconcile's two fetches, whenever
      the guard allows a skip, the API has accepted a payload built from the current spec. */
  lemma SkipIsSound(spec: Spec, actions: seq<Action>)
    requires QuietRun(Created(spec), actions)
    ensures SkipSound(Run(Created(spec), actions))
  {
    RunKeeps(Created(spec), actions);
  }

  // ---------------------------------------------------------------- the exact window

  predicate Succeeds(plan: Plan) {
    && plan.paramsOk && plan.connection == Connected && plan.post == Accepted && plan.refetchOk
    && plan.statusOk && plan.gap4 == []
  }

  lemma PushIsSoundExactly(w0: World, local: Object, plan: Plan, edited: bool)
    requires Consistent(w0) && w0.cr.finalizer && local.finalizer && 1 <= local.generation <= w0.cr.generation
    requires local.spec == w0.history[local.generation - 1]
    requires forall g :: g in w0.accepted ==> g <= local.generation
    requires !w0.cr.deleting ==> (local.generation == w0.cr.generation <==> !edited)
    requires Succeeds(plan)
    ensures SkipSound(Push(w0, local, plan)) <==>
            || w0.cr.deleting || HasDelete(plan.gap2) || HasDelete(plan.gap3)
            || (!edited && !HasEdit(plan.gap2) && !HasEdit(plan.gap3))
  {
    InterfereMoves(w0, plan.gap2);
    var w := Interfere(w0, plan.gap2);
    var posted := Posted(w, local);
    assert Consistent(posted);
    InterfereMoves(posted, plan.gap3);
    var w1 := Interfere(posted, plan.gap3);
    assert Guard(Push(w0, local, plan).cr);
  }

  /** The condition is exact for a push of an unguarded resource that succeeds and stores its success:
      skipping stays sound if and only if no edit landed since the first fetch, or a deletion request did. */
  lemma SkipIsSoundExactly(w: World, plan: Plan)
    requires Inv(w) && w.cr.finalizer && !w.cr.deleting && !Guard(w.cr) && Succeeds(plan)
    ensures SkipSound(Reconcile(w, plan)) <==>
            || HasDelete(plan.gap0) || HasDelete(plan.gap2) || HasDelete(plan.gap3)
            || (!HasEdit(plan.gap0) && !HasEdit(plan.gap2) && !HasEdit(plan.gap3))
  {
    InterfereMoves(w, plan.gap0);
    PushIsSoundExactly(Interfere(w, plan.gap0), w.cr, plan, HasEdit(plan.gap0));
  }

  /** From the copy `local` of a guarded resource that may have changed since. */
  lemma RecreatedIsSoundExactly(w0: World, local: Object, plan: Plan)
    requires Consistent(w0) && w0.cr.finalizer && Guard(local) && local.status == w0.cr.status
    requires local.generation <= w0.cr.generation && local.version <= w0.cr.version
    requires local.version == w0.cr.version ==> !w0.cr.deleting && local == w0.cr
    requires local.version != w0.cr.version ==> local.generation != w0.cr.generation
    requires Succeeds(plan) && plan.driftStatusOk
    ensures SkipSound(Recreate(w0, local, plan)) <==>
            || local.generation != w0.cr.generation || HasEdit(plan.gap1) || HasDelete(plan.gap1)
            || HasDelete(plan.gap2) || HasDelete(plan.gap3)
            || (!HasEdit(plan.gap2) && !HasEdit(plan.gap3))
  {
    InterfereMoves(w0, plan.gap1);
    var w1 := Interfere(w0, plan.gap1);
    var cleared := local.(status := local.status.(syncedID := None));
    if WriteLands(w1, cleared, true) {
      var w2 := WriteStatus(w1, cleared, true);
      PushIsSoundExactly(w2, w2.cr, plan, false);
    }
  }

  lemma {:induction false} UntouchedByMoves(w: World, moves: seq<Move>)
    requires w.cr.finalizer && !HasEdit(moves) && !HasDelete(moves)
    ensures Interfere(w, moves).cr == w.cr
    decreases |moves|
  {
    if moves != [] {
      UntouchedByMoves(Apply(w, moves[0]), moves[1..]);
    }
  }

  /** A guarded resource whose integration is gone is posted anew from the object that the write of its
      cleared status returned. Edits before that write make it fail, and the guard with it; so skipping
      stays sound if and only if one of those came, or no edit came later, or a deletion request did. */
  lemma RecreateIsSoundExactly(w: World, plan: Plan)
    requires Inv(w) && w.cr.finalizer && !w.cr.deleting && Guard(w.cr) && Succeeds(plan)
    requires plan.driftConnection == Connected && plan.driftGet.Ok? && plan.driftStatusOk
    requires w.cr.status.syncedID.value !in Interfere(w, plan.gap0).remote
    ensures SkipSound(Reconcile(w, plan)) <==>
            || HasEdit(plan.gap0) || HasDelete(plan.gap0) || HasEdit(plan.gap1) || HasDelete(plan.gap1)
            || HasDelete(plan.gap2) || HasDelete(plan.gap3)
            || (!HasEdit(plan.gap2) && !HasEdit(plan.gap3))
  {
    InterfereMoves(w, plan.gap0);
    if !HasEdit(plan.gap0) && !HasDelete(plan.gap0) {
      UntouchedByMoves(w, plan.gap0);
    }
    RecreatedIsSoundExactly(Interfere(w, plan.gap0), w.cr, plan);
    assert Reconcile(w, plan) == Recreate(Interfere(w, plan.gap0), w.cr, plan);
  }

  /** An edit in that window is lost from sight: the next reconcile skips although the API never saw
      the new spec. */
  lemma EditBeforeRefetchIsSkipped(w: World, plan: Plan, edited: Spec, later: Plan)
    requires Inv(w) && w.cr.finalizer && !w.cr.deleting && !Guard(w.cr) && Succeeds(plan)
    requires plan.gap0 == [] && plan.gap2 == [] && plan.gap3 == [EditSpec(edited)]
    requires later.gap0 == [] && later.driftConnection == Connected && later.driftGet.Ok?
    ensures var w1 := Reconcile(w, plan);
            && Guard(w1.cr) && w1.cr.spec == edited && w1.cr.generation !in w1.accepted
            && Reconcile(w1, later) == w1
  {
    var posted := Posted(w, w.cr);
    assert Interfere(posted, plan.gap3) == Apply(posted, EditSpec(edited));
  }
}

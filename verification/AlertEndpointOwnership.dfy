/** What the reconciles of an alert endpoint leave on the server. */
module AlertEndpointOwnership {
  import opened Options
  import opened ApiOutcomes
  import opened AlertEndpointSync

  // ---------------------------------------------------------------- single steps

  predicate Undisturbed(plan: Plan) {
    plan.gap0 == [] && plan.gap1 == [] && plan.gap2 == [] && plan.gap3 == [] && plan.gap4 == []
  }

  predicate Live(o: Object) {
    o.finalizer && !o.deleting
  }

  /** A new resource gets its finalizer before anything is posted. */
  lemma FinalizerComesFirst(w: World, plan: Plan)
    requires !w.cr.finalizer && !w.cr.deleting && plan.gap0 == []
    ensures var w' := Reconcile(w, plan);
            && w'.remote == w.remote && w'.accepted == w.accepted
            && (w'.cr.finalizer <==> plan.updateOk) && w'.cr.spec == w.cr.spec && w'.cr.status == w.cr.status
  {
  }

  /** A successful push puts the current spec under the synced ID, or under a new one, and touches no other
      integration; the ID is stored and the next reconcile finds nothing to do. */
  lemma PushPostsExactly(w: World, plan: Plan, next: Plan)
    requires Live(w.cr) && !Guard(w.cr) && Undisturbed(plan) && Succeeds(plan)
    requires Undisturbed(next) && next.driftConnection == Connected && next.driftGet.Ok?
    ensures var w' := Reconcile(w, plan);
            var id := if w.cr.status.syncedID.Some? then w.cr.status.syncedID.value else w.nextID;
            && w'.remote == w.remote[id := w.cr.spec]
            && w'.cr.status.syncedID == Some(id) && w'.cr.spec == w.cr.spec && Guard(w'.cr)
            && Reconcile(w', next) == w'
  {
  }

  /** An integration that vanished comes back under a new ID. */
  lemma RecreatePostsExactly(w: World, plan: Plan)
    requires Live(w.cr) && Guard(w.cr) && w.cr.status.syncedID.value !in w.remote
    requires Undisturbed(plan) && Succeeds(plan)
    requires plan.driftConnection == Connected && plan.driftGet.Ok? && plan.driftStatusOk
    ensures var w' := Reconcile(w, plan);
            && w'.remote == w.remote[w.nextID := w.cr.spec]
            && w'.cr.status.syncedID == Some(w.nextID) && w'.cr.spec == w.cr.spec && Guard(w'.cr)
  {
  }

  predicate Fails(plan: Plan) {
    || !plan.paramsOk || plan.connection == Unresolved
    || (plan.connection == Connected && plan.post != Accepted)
  }

  /** A failed attempt takes Ready away, a successful one gives it, and a paused connection leaves it. */
  lemma ReadyFollowsTheAttempt(w: World, plan: Plan)
    requires Live(w.cr) && !Guard(w.cr) && Undisturbed(plan) && plan.statusOk && plan.refetchOk
    ensures var s' := Reconcile(w, plan).cr.status;
            && (Fails(plan) ==> s' == w.cr.status.(ready := Some(Condition(false, w.cr.generation))))
            && (Succeeds(plan) ==> s'.ready == Some(Condition(true, w.cr.generation)))
            && (!Fails(plan) && !Succeeds(plan) ==> s' == w.cr.status)
  {
  }

  predicate DeleteLands(plan: Plan) {
    plan.connection == Connected && (plan.delete.Ok? || plan.deleteApplied)
  }

  /** A deletion takes exactly the synced integration away, if and only if the DELETE takes effect or there is
      none; and it lets go of the resource if and only if the DELETE met no server error. */
  lemma DeletionRemovesExactly(w: World, plan: Plan)
    requires w.cr.deleting && w.cr.finalizer && w.cr.status.syncedID.Some? && Undisturbed(plan)
    ensures var w' := Reconcile(w, plan); var id := w.cr.status.syncedID.value;
            && (w'.remote == w.remote - {id} <==> DeleteLands(plan) || id !in w.remote)
            && (!DeleteLands(plan) ==> w'.remote == w.remote)
            && (!w'.cr.finalizer <==> plan.updateOk && plan.connection == Connected && !IsRetryable(plan.delete))
            && (!w'.cr.finalizer && id in w'.remote <==>
                  && plan.updateOk && plan.connection == Connected && !IsRetryable(plan.delete)
                  && plan.delete.Error? && !plan.deleteApplied && id in w.remote)
  {
    if w.cr.status.syncedID.value !in w.remote {
      assert w.remote - {w.cr.status.syncedID.value} == w.remote;
    }
  }

  lemma DeletionWithoutID(w: World, plan: Plan)
    requires w.cr.deleting && w.cr.finalizer && w.cr.status.syncedID.None? && Undisturbed(plan)
    ensures var w' := Reconcile(w, plan);
            w'.remote == w.remote && (!w'.cr.finalizer <==> plan.updateOk && plan.connection == Connected)
  {
  }

  // ---------------------------------------------------------------- whole runs

  function SyncedIDs(o: Object): set<nat> {
    if o.status.syncedID.Some? then {o.status.syncedID.value} else {}
  }

  predicate OnlyRemovals(moves: seq<Move>)
    decreases |moves|
  {
    moves != [] ==> moves[0].RemoveIntegration? && OnlyRemovals(moves[1..])
  }

  /** No POST is applied without its ID being stored, and no DELETE is given up. */
  predicate Lossless(plan: Plan) {
    && plan.post != AnswerLost
    && (plan.post == Accepted ==> plan.refetchOk && plan.statusOk && OnlyRemovals(plan.gap4))
    && (plan.delete.Error? ==> IsRetryable(plan.delete))
  }

  ghost predicate PartOf(a: map<nat, Spec>, b: map<nat, Spec>) {
    a.Keys <= b.Keys && forall id :: id in a ==> a[id] == b[id]
  }

  /** Moves only take integrations away. */
  ghost predicate Shrinks(w: World, w': World) {
    && PartOf(w'.remote, w.remote) && w'.nextID == w.nextID
    && w'.cr.status == w.cr.status && w'.cr.finalizer == w.cr.finalizer
  }

  lemma {:induction false} MovesShrink(w: World, moves: seq<Move>)
    ensures Shrinks(w, Interfere(w, moves))
    decreases |moves|
  {
    if moves != [] {
      MovesShrink(Apply(w, moves[0]), moves[1..]);
    }
  }

  lemma {:induction false} RemovalsKeepResource(w: World, moves: seq<Move>)
    requires OnlyRemovals(moves)
    ensures Interfere(w, moves).cr == w.cr
    decreases |moves|
  {
    if moves != [] {
      RemovalsKeepResource(Apply(w, moves[0]), moves[1..]);
    }
  }

  /** The server holds at most the synced integration, and none before and after the finalizer's time. */
  ghost predicate Owned(w: World) {
    w.remote.Keys <= SyncedIDs(w.cr) && (!w.cr.finalizer ==> w.remote == map[])
  }

  lemma PushOwns(w0: World, local: Object, plan: Plan)
    requires Owned(w0) && w0.cr.finalizer && Lossless(plan) && local.status.syncedID == w0.cr.status.syncedID
    ensures Owned(Push(w0, local, plan))
  {
    var w := Interfere(w0, plan.gap2);
    MovesShrink(w0, plan.gap2);
    var posted := Posted(w, local);
    MovesShrink(posted, plan.gap3);
    var w1 := Interfere(posted, plan.gap3);
    if plan.post.Accepted? {
      MovesShrink(w1, plan.gap4);
      RemovalsKeepResource(w1, plan.gap4);
    }
  }

  lemma RecreateOwns(w0: World, local: Object, plan: Plan)
    requires Owned(w0) && w0.cr.finalizer && Lossless(plan) && local.status.syncedID == w0.cr.status.syncedID
    requires local.status.syncedID.Some? && local.status.syncedID.value !in w0.remote
    ensures Owned(Recreate(w0, local, plan))
  {
    assert w0.remote == map[];
    MovesShrink(w0, plan.gap1);
    var w1 := Interfere(w0, plan.gap1);
    var cleared := local.(status := local.status.(syncedID := None));
    if WriteLands(w1, cleared, plan.driftStatusOk) {
      var w2 := WriteStatus(w1, cleared, plan.driftStatusOk);
      PushOwns(w2, w2.cr, plan);
    }
  }

  lemma DeletionOwns(w: World, plan: Plan)
    requires Owned(w) && w.cr.finalizer && Lossless(plan)
    ensures Owned(Deletion(w, w.cr, plan))
  {
    MovesShrink(w, plan.gap0);
    var w0 := Interfere(w, plan.gap0);
    if w.cr.status.syncedID.Some? {
      var removed := w0.(remote := w0.remote - {w.cr.status.syncedID.value});
      assert removed.remote.Keys == {};
      MovesShrink(removed, plan.gap1);
    }
  }

  lemma ReconcileOwns(w: World, plan: Plan)
    requires Owned(w) && Lossless(plan)
    ensures Owned(Reconcile(w, plan))
  {
    var local := w.cr;
    MovesShrink(w, plan.gap0);
    var w0 := Interfere(w, plan.gap0);
    if Gone(local) {
    } else if local.deleting {
      DeletionOwns(w, plan);
    } else if local.finalizer {
      if !Guard(local) {
        PushOwns(w0, local, plan);
      } else if local.status.syncedID.value !in w0.remote {
        RecreateOwns(w0, local, plan);
      }
    }
  }

  lemma {:induction false} RunOwns(w: World, actions: seq<Action>)
    requires Owned(w) && forall a :: a in actions && a.Tick? ==> Lossless(a.plan)
    ensures Owned(Run(w, actions))
    decreases |actions|
  {
    if actions != [] {
      if actions[0].Environment? {
        assert Interfere(w, [actions[0].move]) == Apply(w, actions[0].move);
        MovesShrink(w, [actions[0].move]);
      } else {
        ReconcileOwns(w, actions[0].plan);
      }
      RunOwns(Step(w, actions[0]), actions[1..]);
    }
  }

  /** Single ownership: if every applied POST is followed by a stored status and no DELETE is given up, the
      server holds at most the synced integration at any time, and none once the resource is gone. */
  lemma SingleOwnership(spec: Spec, actions: seq<Action>)
    requires forall a :: a in actions && a.Tick? ==> Lossless(a.plan)
    ensures var w := Run(Created(spec), actions);
            && (forall id :: id in w.remote ==> w.cr.status.syncedID == Some(id))
            && (Gone(w.cr) ==> w.remote == map[])
  {
    RunOwns(Created(spec), actions);
  }

  // ---------------------------------------------------------------- content

  /** Under a standing Ready, the integration holds what was accepted for the observed generation. */
  ghost predicate Holds(w: World) {
    var s := w.cr.status;
    !w.cr.deleting && s.ready.Some? && s.ready.value.holds && s.syncedID.Some? && s.syncedID.value in w.remote ==>
      && s.observedGeneration in w.accepted
      && w.remote[s.syncedID.value] == w.accepted[s.observedGeneration]
  }

  lemma MovesHold(w: World, moves: seq<Move>)
    requires Inv(w) && w.cr.finalizer && Holds(w)
    ensures Holds(Interfere(w, moves))
  {
    InterfereMoves(w, moves);
    MovesShrink(w, moves);
  }

  lemma AcceptedHolds(w: World, local: Object, plan: Plan)
    requires Inv(w) && CopyOf(local, w) && w.cr.finalizer && plan.post.Accepted? && Lossless(plan)
    requires w.cr.deleting || local.generation == w.cr.generation
    requires !HasEdit(plan.gap3)
    ensures var w1 := Interfere(Posted(w, local), plan.gap3);
            Holds(WriteStatus(Interfere(w1, plan.gap4), Synced(w1.cr, PushedID(w, local)), plan.statusOk))
  {
    var posted := Posted(w, local);
    PostedKeeps(w, local);
    InterfereMoves(posted, plan.gap3);
    MovesShrink(posted, plan.gap3);
    var w1 := Interfere(posted, plan.gap3);
    InterfereMoves(w1, plan.gap4);
    MovesShrink(w1, plan.gap4);
    RemovalsKeepResource(w1, plan.gap4);
  }

  lemma PushHolds(w0: World, local: Object, plan: Plan)
    requires Inv(w0) && CopyOf(local, w0) && w0.cr.finalizer && Holds(w0) && Lossless(plan)
    requires w0.cr.deleting || local.generation == w0.cr.generation
    requires !HasEdit(plan.gap2) && !HasEdit(plan.gap3)
    ensures Holds(Push(w0, local, plan))
  {
    InterfereMoves(w0, plan.gap2);
    MovesHold(w0, plan.gap2);
    var w := Interfere(w0, plan.gap2);
    if plan.paramsOk && plan.connection == Connected && plan.post.Accepted? {
      PostedKeeps(w, local);
      InterfereMoves(Posted(w, local), plan.gap3);
      AcceptedHolds(w, local, plan);
    }
  }

  lemma RecreateHolds(w0: World, local: Object, plan: Plan)
    requires Inv(w0) && CopyOf(local, w0) && w0.cr.finalizer && Holds(w0) && Lossless(plan)
    requires !HasEdit(plan.gap2) && !HasEdit(plan.gap3)
    ensures Holds(Recreate(w0, local, plan))
  {
    InterfereMoves(w0, plan.gap1);
    MovesHold(w0, plan.gap1);
    var w1 := Interfere(w0, plan.gap1);
    var cleared := local.(status := local.status.(syncedID := None));
    WriteKeeps(w1, cleared, plan.driftStatusOk);
    if WriteLands(w1, cleared, plan.driftStatusOk) {
      var w2 := WriteStatus(w1, cleared, plan.driftStatusOk);
      PushHolds(w2, w2.cr, plan);
    }
  }

  lemma {:induction false} StaysDeleting(w: World, moves: seq<Move>)
    requires w.cr.deleting
    ensures Interfere(w, moves).cr.deleting
    decreases |moves|
  {
    if moves != [] {
      StaysDeleting(Apply(w, moves[0]), moves[1..]);
    }
  }

  lemma ReconcileHolds(w: World, plan: Plan)
    requires Inv(w) && Holds(w) && Owned(w) && Lossless(plan) && QuietUntilRefetch(w.cr, plan)
    ensures Holds(Reconcile(w, plan))
  {
    var local := w.cr;
    MovesShrink(w, plan.gap0);
    var w0 := Interfere(w, plan.gap0);
    if Gone(local) {
    } else if local.deleting {
      StaysDeleting(w, plan.gap0);
      StaysDeleting(w0, plan.gap1);
      if local.status.syncedID.Some? {
        StaysDeleting(w0.(remote := w0.remote - {local.status.syncedID.value}), plan.gap1);
      }
    } else if local.finalizer {
      InterfereMoves(w, plan.gap0);
      MovesHold(w, plan.gap0);
      if !Guard(local) {
        PushHolds(w0, local, plan);
      } else {
        RecreateHolds(w0, local, plan);
      }
    } else {
      assert w0.remote == map[];
    }
  }

  lemma {:induction false} RunHolds(w: World, actions: seq<Action>)
    requires Inv(w) && Holds(w) && Owned(w) && QuietRun(w, actions)
    requires forall a :: a in actions && a.Tick? ==> Lossless(a.plan)
    ensures Holds(Run(w, actions)) && Inv(Run(w, actions))
    decreases |actions|
  {
    if actions != [] {
      if actions[0].Environment? {
        assert Interfere(w, [actions[0].move]) == Apply(w, actions[0].move);
        MovesKeep(w, [actions[0].move]);
        MovesShrink(w, [actions[0].move]);
      } else {
        ReconcileKeeps(w, actions[0].plan);
        ReconcileOwns(w, actions[0].plan);
        ReconcileHolds(w, actions[0].plan);
      }
      RunHolds(Step(w, actions[0]), actions[1..]);
    }
  }

  /** In every such run without an edit in a reconcile's window: where a reconcile would skip and the synced
      integration is there, it holds the current spec. */
  lemma SkippedIsCurrent(spec: Spec, actions: seq<Action>)
    requires QuietRun(Created(spec), actions)
    requires forall a :: a in actions && a.Tick? ==> Lossless(a.plan)
    ensures var w := Run(Created(spec), actions);
            Guard(w.cr) && !w.cr.deleting && w.cr.status.syncedID.value in w.remote ==>
              w.remote == map[w.cr.status.syncedID.value := w.cr.spec]
  {
    var w := Run(Created(spec), actions);
    RunHolds(Created(spec), actions);
    RunOwns(Created(spec), actions);
    SkipIsSound(spec, actions);
  }
}

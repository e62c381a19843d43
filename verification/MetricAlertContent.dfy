/** What the reconciles of a metric alert leave in the remote rules. */
module MetricAlertContent {
  import opened Options
  import opened ApiOutcomes
  import opened MetricAlertSync
  import opened MetricAlertSafety

  // ---------------------------------------------------------------- single steps

  predicate Live(o: Object) {
    o.finalizer && !o.deleting
  }

  predicate Succeeds(plan: Plan) {
    && plan.connection == Connected && plan.panel.Some? && plan.post == Accepted
    && plan.refetchOk && plan.statusOk
  }

  /** A new resource gets its finalizer before anything is posted. */
  lemma FinalizerComesFirst(w: World, plan: Plan)
    requires !w.cr.finalizer && !w.cr.deleting && plan.gap0 == []
    ensures var w' := Reconcile(w, plan);
            && w'.rules == w.rules && w'.accepted == w.accepted
            && (w'.cr.finalizer <==> plan.updateOk) && w'.cr.spec == w.cr.spec && w'.cr.status == w.cr.status
  {
  }

  /** A successful push puts the current spec and the resolved panel under the synced ID, or under a new one,
      and touches no other rule; ID and panel are stored, and the next reconcile finds nothing to do. */
  lemma PushPostsExactly(w: World, plan: Plan, next: Plan)
    requires Live(w.cr) && !Guard(w.cr) && Quiet(plan) && Succeeds(plan)
    requires Quiet(next) && next.connection == Connected && next.driftGet.Ok?
    ensures var w' := Reconcile(w, plan);
            var id := if w.cr.status.syncedID.Some? then w.cr.status.syncedID.value else w.nextID;
            && w'.rules == w.rules[id := Payload(id, plan.panel.value, w.cr.spec)]
            && w'.cr.spec == w.cr.spec
            && w'.cr.status == Status(Some(id), plan.panel.value, w.cr.generation, Some(w.cr.generation), false)
            && Guard(w'.cr) && Reconcile(w', next) == w'
  {
  }

  /** A rule that vanished comes back under a new ID. */
  lemma RecreatePostsExactly(w: World, plan: Plan)
    requires Live(w.cr) && Guard(w.cr) && w.cr.status.syncedID.value !in w.rules
    requires Quiet(plan) && Succeeds(plan) && plan.driftGet.Ok? && plan.driftStatusOk
    ensures var w' := Reconcile(w, plan);
            && w'.rules == w.rules[w.nextID := Payload(w.nextID, plan.panel.value, w.cr.spec)]
            && w'.cr.status.syncedID == Some(w.nextID) && w'.cr.spec == w.cr.spec && Guard(w'.cr)
  {
  }

  predicate DeleteLands(plan: Plan) {
    plan.connection == Connected && (plan.delete.Ok? || plan.deleteApplied)
  }

  /** A deletion takes exactly the synced rule away, if and only if the DELETE takes effect or there is none;
      and it lets go of the resource if and only if the DELETE met no server error. */
  lemma DeletionRemovesExactly(w: World, plan: Plan)
    requires w.cr.deleting && w.cr.finalizer && w.cr.status.syncedID.Some? && Quiet(plan)
    ensures var w' := Reconcile(w, plan); var id := w.cr.status.syncedID.value;
            && (w'.rules == w.rules - {id} <==> DeleteLands(plan) || id !in w.rules)
            && (!DeleteLands(plan) ==> w'.rules == w.rules)
            && (!w'.cr.finalizer <==> plan.updateOk && plan.connection == Connected && !IsRetryable(plan.delete))
  {
    if w.cr.status.syncedID.value !in w.rules {
      assert w.rules - {w.cr.status.syncedID.value} == w.rules;
    }
  }

  // ---------------------------------------------------------------- whole runs

  function SyncedRule(w: World): Option<Payload> {
    if w.cr.status.syncedID.Some? && w.cr.status.syncedID.value in w.rules
    then Some(w.rules[w.cr.status.syncedID.value]) else None
  }

  /** The synced rule is the one accepted for Ready's generation; and it carries the stored panel, unless a
      newer generation is pending, whose panel a failed attempt may have stored. */
  predicate Matches(w: World) {
    var s := w.cr.status;
    && (s.ready.Some? ==> s.ready.value <= s.observedGeneration <= w.cr.generation)
    && (s.ready.Some? && SyncedRule(w).Some? ==>
          && s.ready.value in w.accepted && SyncedRule(w).value == w.accepted[s.ready.value]
          && SyncedRule(w).value.id == s.syncedID.value
          && (s.ready.value == w.cr.generation ==> SyncedRule(w).value.correlationID == s.correlationID))
  }

  predicate CopyMatches(local: Object, w: World) {
    && local.status == w.cr.status && local.generation <= w.cr.generation
    && local.status.observedGeneration <= local.generation
  }

  ghost predicate PartOf(a: map<nat, Payload>, b: map<nat, Payload>) {
    a.Keys <= b.Keys && forall id :: id in a ==> a[id] == b[id]
  }

  lemma {:induction false} MovesShrink(w: World, moves: seq<Move>)
    ensures var w' := Interfere(w, moves);
            && PartOf(w'.rules, w.rules) && w'.accepted == w.accepted
            && w'.cr.status == w.cr.status && w.cr.generation <= w'.cr.generation
    decreases |moves|
  {
    if moves != [] {
      MovesShrink(Apply(w, moves[0]), moves[1..]);
    }
  }

  lemma MovesMatch(w: World, moves: seq<Move>)
    requires Matches(w)
    ensures Matches(Interfere(w, moves))
  {
    MovesShrink(w, moves);
  }

  /** A failed attempt that stores a new panel had a pending generation, or no ID. */
  lemma FailureMatches(w: World, local: Object, correlationID: string, ok: bool)
    requires Matches(w) && CopyMatches(local, w) && !Guard(local)
    ensures Matches(WriteStatus(w, Failed(local), ok))
    ensures Matches(WriteStatus(w, Failed(local.(status := local.status.(correlationID := correlationID))), ok))
  {
  }

  lemma AcceptedMatches(w: World, local: Object, plan: Plan)
    requires Inv(w) && CopyOf(local, w) && local.finalizer && CopyMatches(local, w)
    requires plan.panel.Some? && plan.post == Accepted && Lossless(plan)
    ensures Matches(Push(w, local, plan.(gap2 := [])))
  {
    var id := PushedID(w, local);
    var posted := Posted(w, local, plan.panel.value);
    PostedIsInFlight(w, local, plan.panel.value);
    InFlightMoves(posted, id, local, plan.gap3);
    MovesShrink(posted, plan.gap3);
    var w1 := Interfere(posted, plan.gap3);
    RemovalsKeepResource(w1, plan.gap4);
    MovesShrink(w1, plan.gap4);
  }

  lemma PushMatches(w0: World, local: Object, plan: Plan)
    requires Inv(w0) && CopyOf(local, w0) && local.finalizer && CopyMatches(local, w0)
    requires Matches(w0) && !Guard(local) && Lossless(plan)
    ensures Matches(Push(w0, local, plan))
  {
    CopySurvives(local, w0, plan.gap2);
    MovesShrink(w0, plan.gap2);
    MovesMatch(w0, plan.gap2);
    var w := Interfere(w0, plan.gap2);
    if plan.panel.None? || plan.post == Refused {
      FailureMatches(w, local, if plan.panel.Some? then plan.panel.value else "", plan.statusOk);
    } else {
      AcceptedMatches(w, local, plan);
      assert Push(w0, local, plan) == Push(w, local, plan.(gap2 := []));
    }
  }

  lemma RecreateMatches(w0: World, local: Object, plan: Plan)
    requires Inv(w0) && CopyOf(local, w0) && local.finalizer && CopyMatches(local, w0)
    requires Matches(w0) && Lossless(plan)
    requires local.status.syncedID.Some? && local.status.syncedID.value !in w0.rules
    ensures Matches(Recreate(w0, local, plan))
  {
    CopySurvives(local, w0, plan.gap1);
    MovesShrink(w0, plan.gap1);
    MovesMatch(w0, plan.gap1);
    var w1 := Interfere(w0, plan.gap1);
    var cleared := local.(status := local.status.(syncedID := None));
    if WriteLands(w1, cleared, plan.driftStatusOk) {
      WriteStatusKeeps(w1, cleared, plan.driftStatusOk);
      var w2 := WriteStatus(w1, cleared, plan.driftStatusOk);
      PushMatches(w2, w2.cr, plan);
    }
  }

  lemma ReleaseMatches(w: World, moves: seq<Move>, local: Object, ok: bool)
    requires Matches(w)
    ensures Matches(WriteFinalizer(Interfere(w, moves), local, false, ok))
  {
    MovesMatch(w, moves);
  }

  lemma DeletionMatches(w: World, plan: Plan)
    requires Matches(w)
    ensures Matches(Deletion(w, w.cr, plan))
  {
    MovesMatch(w, plan.gap0);
    MovesShrink(w, plan.gap0);
    var w0 := Interfere(w, plan.gap0);
    if w.cr.status.syncedID.Some? {
      ReleaseMatches(Deleted(w0, w.cr.status.syncedID.value), plan.gap1, w.cr, plan.updateOk);
      ReleaseMatches(w0, plan.gap1, w.cr, plan.updateOk);
    }
  }

  lemma ConnectedMatches(w: World, plan: Plan)
    requires Inv(w) && Matches(w) && Lossless(plan) && w.cr.finalizer && !w.cr.deleting
    requires w.cr.status.observedGeneration <= w.cr.generation && plan.connection == Connected
    ensures Matches(Reconcile(w, plan))
  {
    var local := w.cr;
    CopySurvives(local, w, plan.gap0);
    MovesShrink(w, plan.gap0);
    MovesMatch(w, plan.gap0);
    var w0 := Interfere(w, plan.gap0);
    if !Guard(local) {
      PushMatches(w0, local, plan);
    } else if plan.driftGet.Ok? && local.status.syncedID.value !in w0.rules {
      RecreateMatches(w0, local, plan);
    }
  }

  /** A status never observes a generation that is still to come. */
  predicate Observes(w: World) {
    w.cr.status.observedGeneration <= w.cr.generation
  }

  lemma ReconcileMatches(w: World, plan: Plan)
    requires Inv(w) && Matches(w) && Lossless(plan) && Observes(w)
    ensures Matches(Reconcile(w, plan))
  {
    var local := w.cr;
    MovesShrink(w, plan.gap0);
    MovesMatch(w, plan.gap0);
    if Gone(local) {
    } else if local.deleting {
      DeletionMatches(w, plan);
    } else if local.finalizer && plan.connection == Connected {
      ConnectedMatches(w, plan);
    }
  }

  lemma MovesObserve(w: World, moves: seq<Move>)
    requires Observes(w)
    ensures Observes(Interfere(w, moves)) && w.cr.generation <= Interfere(w, moves).cr.generation
  {
    MovesShrink(w, moves);
  }

  lemma WriteObserves(w: World, local: Object, ok: bool)
    requires Observes(w) && local.status.observedGeneration <= w.cr.generation
    ensures Observes(WriteStatus(w, local, ok))
  {
  }

  lemma AcceptedObserves(posted: World, local: Object, id: nat, correlationID: string, plan: Plan)
    requires Observes(posted) && local.generation <= posted.cr.generation
    ensures var w1 := Interfere(posted, plan.gap3);
            var fetched := Synced(w1.cr, id, correlationID, local.generation);
            Observes(w1) && Observes(WriteStatus(Interfere(w1, plan.gap4), fetched, plan.statusOk))
  {
    MovesObserve(posted, plan.gap3);
    var w1 := Interfere(posted, plan.gap3);
    MovesObserve(w1, plan.gap4);
    WriteObserves(Interfere(w1, plan.gap4), Synced(w1.cr, id, correlationID, local.generation), plan.statusOk);
  }

  lemma PushObserves(w0: World, local: Object, plan: Plan)
    requires Observes(w0) && local.generation <= w0.cr.generation
    ensures Observes(Push(w0, local, plan))
  {
    MovesObserve(w0, plan.gap2);
    var w := Interfere(w0, plan.gap2);
    if plan.panel.None? {
      WriteObserves(w, Failed(local), plan.statusOk);
    } else {
      var resolved := local.(status := local.status.(correlationID := plan.panel.value));
      var posted := Posted(w, local, plan.panel.value);
      match plan.post
      case Refused => WriteObserves(w, Failed(resolved), plan.statusOk);
      case AnswerLost => WriteObserves(posted, Failed(resolved), plan.statusOk);
      case Accepted => AcceptedObserves(posted, local, PushedID(w, local), plan.panel.value, plan);
    }
  }

  lemma RecreateObserves(w0: World, local: Object, plan: Plan)
    requires Observes(w0) && local.generation <= w0.cr.generation
    requires local.status.observedGeneration <= local.generation
    ensures Observes(Recreate(w0, local, plan))
  {
    MovesShrink(w0, plan.gap1);
    var w1 := Interfere(w0, plan.gap1);
    var cleared := local.(status := local.status.(syncedID := None));
    if WriteLands(w1, cleared, plan.driftStatusOk) {
      var w2 := WriteStatus(w1, cleared, plan.driftStatusOk);
      PushObserves(w2, w2.cr, plan);
    }
  }

  lemma ReleaseObserves(w: World, moves: seq<Move>, local: Object, ok: bool)
    requires Observes(w)
    ensures Observes(WriteFinalizer(Interfere(w, moves), local, false, ok))
  {
    MovesObserve(w, moves);
  }

  lemma DeletionObserves(w: World, plan: Plan)
    requires Observes(w)
    ensures Observes(Deletion(w, w.cr, plan))
  {
    MovesObserve(w, plan.gap0);
    var w0 := Interfere(w, plan.gap0);
    if w.cr.status.syncedID.Some? {
      ReleaseObserves(Deleted(w0, w.cr.status.syncedID.value), plan.gap1, w.cr, plan.updateOk);
      ReleaseObserves(w0, plan.gap1, w.cr, plan.updateOk);
    }
  }

  lemma ReconcileObserves(w: World, plan: Plan)
    requires Observes(w)
    ensures Observes(Reconcile(w, plan))
  {
    var local := w.cr;
    MovesShrink(w, plan.gap0);
    var w0 := Interfere(w, plan.gap0);
    if Gone(local) {
    } else if local.deleting {
      DeletionObserves(w, plan);
    } else if local.finalizer && plan.connection == Connected {
      if Guard(local) {
        RecreateObserves(w0, local, plan);
      } else {
        PushObserves(w0, local, plan);
      }
    }
  }

  lemma {:induction false} RunMatches(w: World, actions: seq<Action>)
    requires Inv(w) && Matches(w) && Observes(w)
    requires forall a :: a in actions && a.Tick? ==> Lossless(a.plan)
    ensures Inv(Run(w, actions)) && Matches(Run(w, actions))
    decreases |actions|
  {
    if actions != [] {
      if actions[0].Environment? {
        assert Interfere(w, [actions[0].move]) == Apply(w, actions[0].move);
        ApplyMoves(w, actions[0].move);
        MovesMatch(w, [actions[0].move]);
        MovesShrink(w, [actions[0].move]);
      } else {
        ReconcileKeeps(w, actions[0].plan);
        ReconcileMatches(w, actions[0].plan);
        ReconcileObserves(w, actions[0].plan);
      }
      RunMatches(Step(w, actions[0]), actions[1..]);
    }
  }

  /** In every lossless run: where Ready carries the current generation and the synced rule is there, it is the
      only one, and it holds the current spec under its own ID with the stored panel. */
  lemma ReadyRuleIsCurrent(spec: Spec, actions: seq<Action>)
    requires forall a :: a in actions && a.Tick? ==> Lossless(a.plan)
    ensures var w := Run(Created(spec), actions); var s := w.cr.status;
            s.ready == Some(w.cr.generation) && s.syncedID.Some? && s.syncedID.value in w.rules ==>
              w.rules == map[s.syncedID.value := Payload(s.syncedID.value, s.correlationID, w.cr.spec)]
  {
    RunMatches(Created(spec), actions);
    SingleOwnership(spec, actions);
  }
}

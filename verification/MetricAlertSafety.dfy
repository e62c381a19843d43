/** What holds in every run of the metric-alert life cycle. */
module MetricAlertSafety {
  import opened Options
  import opened ApiOutcomes
  import opened MetricAlertSync

  function SyncedIDs(o: Object): set<nat> {
    if o.status.syncedID.Some? then {o.status.syncedID.value} else {}
  }

  /** Every recorded payload was built from the spec of its generation. */
  ghost predicate AcceptedMatch(accepted: map<nat, Payload>, history: seq<Spec>) {
    forall g :: g in accepted ==> 1 <= g <= |history| && accepted[g].spec == history[g - 1]
  }

  predicate ReadyBacked(status: Status, accepted: map<nat, Payload>) {
    status.ready.Some? ==> status.ready.value in accepted
  }

  predicate FreshIDs(w: World) {
    && (forall id :: id in w.rules ==> id < w.nextID)
    && (forall id :: id in w.orphans ==> id < w.nextID)
    && (forall id :: id in SyncedIDs(w.cr) ==> id < w.nextID)
  }

  ghost predicate Inv(w: World) {
    && 1 <= |w.history| == w.cr.generation
    && w.cr.spec == w.history[w.cr.generation - 1]
    && AcceptedMatch(w.accepted, w.history)
    && ReadyBacked(w.cr.status, w.accepted)
    && w.rules.Keys <= w.orphans + SyncedIDs(w.cr)
    && (!w.cr.finalizer ==> w.rules.Keys <= w.orphans)
    && FreshIDs(w)
  }

  /** A copy of the resource read earlier in the same reconcile, nothing of ours written since. */
  ghost predicate CopyOf(local: Object, w: World) {
    && 1 <= local.generation <= |w.history|
    && local.spec == w.history[local.generation - 1]
    && ReadyBacked(local.status, w.accepted)
    && local.status.syncedID == w.cr.status.syncedID
    && local.finalizer == w.cr.finalizer
  }

  // ---------------------------------------------------------------- environment moves

  /** Moves leave status, finalizer and records alone; generations and rules only grow and shrink. */
  ghost predicate Moved(w: World, w': World) {
    && w'.cr.status == w.cr.status && w'.cr.finalizer == w.cr.finalizer
    && w'.accepted == w.accepted && w'.orphans == w.orphans && w'.nextID == w.nextID
    && w.history <= w'.history && w'.rules.Keys <= w.rules.Keys
  }

  lemma ApplyMoves(w: World, m: Move)
    requires Inv(w)
    ensures Inv(Apply(w, m)) && Moved(w, Apply(w, m))
  {
  }

  lemma {:induction false} InterfereMoves(w: World, moves: seq<Move>)
    requires Inv(w)
    ensures Inv(Interfere(w, moves)) && Moved(w, Interfere(w, moves))
    decreases |moves|
  {
    if moves != [] {
      ApplyMoves(w, moves[0]);
      InterfereMoves(Apply(w, moves[0]), moves[1..]);
    }
  }

  lemma CopySurvives(local: Object, w: World, moves: seq<Move>)
    requires Inv(w) && CopyOf(local, w)
    ensures Inv(Interfere(w, moves)) && CopyOf(local, Interfere(w, moves)) && Moved(w, Interfere(w, moves))
  {
    InterfereMoves(w, moves);
  }

  // ---------------------------------------------------------------- writes

  lemma WriteStatusKeeps(w: World, local: Object, ok: bool)
    requires Inv(w) && ReadyBacked(local.status, w.accepted)
    requires local.status.syncedID == w.cr.status.syncedID
          || (local.status.syncedID.None? && w.rules.Keys <= w.orphans)
    ensures Inv(WriteStatus(w, local, ok))
  {
  }

  lemma WriteFinalizerKeeps(w: World, local: Object, finalizer: bool, ok: bool)
    requires Inv(w)
    requires finalizer || w.rules.Keys <= w.orphans
    ensures Inv(WriteFinalizer(w, local, finalizer, ok))
  {
  }

  /** Right after a POST, before its ID has reached the status. */
  ghost predicate InFlight(w: World, id: nat, local: Object) {
    && 1 <= |w.history| == w.cr.generation
    && w.cr.spec == w.history[w.cr.generation - 1]
    && AcceptedMatch(w.accepted, w.history)
    && ReadyBacked(w.cr.status, w.accepted)
    && w.rules.Keys <= w.orphans + {id}
    && SyncedIDs(w.cr) <= {id}
    && FreshIDs(w) && id < w.nextID
    && w.cr.finalizer
    && local.generation in w.accepted
    && ReadyBacked(local.status, w.accepted) && local.status.syncedID == w.cr.status.syncedID
  }

  /** Even while a new rule's ID is not stored yet, the resource has no second rule but orphans. */
  lemma PostedIsInFlight(w: World, local: Object, correlationID: string)
    requires Inv(w) && CopyOf(local, w) && local.finalizer
    ensures InFlight(Posted(w, local, correlationID), PushedID(w, local), local)
  {
  }

  lemma {:induction false} InFlightMoves(w: World, id: nat, local: Object, moves: seq<Move>)
    requires InFlight(w, id, local)
    ensures InFlight(Interfere(w, moves), id, local) && Moved(w, Interfere(w, moves))
    decreases |moves|
  {
    if moves != [] {
      assert InFlight(Apply(w, moves[0]), id, local) && Moved(w, Apply(w, moves[0]));
      InFlightMoves(Apply(w, moves[0]), id, local, moves[1..]);
    }
  }

  lemma LandWithout(w: World, id: nat, local: Object, written: Object, ok: bool)
    requires InFlight(w, id, local)
    requires ReadyBacked(written.status, w.accepted)
    requires written.status.syncedID == w.cr.status.syncedID || written.status.syncedID == Some(id)
    ensures Inv(RecordOrphan(WriteStatus(w, written, ok), id))
  {
  }

  lemma LandUnwritten(w: World, id: nat, local: Object)
    requires InFlight(w, id, local)
    ensures Inv(RecordOrphan(w, id))
  {
  }

  lemma PushKeeps(w0: World, local: Object, plan: Plan)
    requires Inv(w0) && CopyOf(local, w0) && local.finalizer
    ensures Inv(Push(w0, local, plan))
  {
    CopySurvives(local, w0, plan.gap2);
    var w := Interfere(w0, plan.gap2);
    if plan.panel.None? {
      WriteStatusKeeps(w, Failed(local), plan.statusOk);
    } else {
      var resolved := local.(status := local.status.(correlationID := plan.panel.value));
      var id := PushedID(w, local);
      var posted := Posted(w, local, plan.panel.value);
      PostedIsInFlight(w, local, plan.panel.value);
      match plan.post
      case Refused => WriteStatusKeeps(w, Failed(resolved), plan.statusOk);
      case AnswerLost => LandWithout(posted, id, local, Failed(resolved), plan.statusOk);
      case Accepted =>
        InFlightMoves(posted, id, local, plan.gap3);
        var w1 := Interfere(posted, plan.gap3);
        if !plan.refetchOk || Gone(w1.cr) {
          LandUnwritten(w1, id, local);
        } else {
          InFlightMoves(w1, id, local, plan.gap4);
          LandWithout(Interfere(w1, plan.gap4), id, local,
                      Synced(w1.cr, id, plan.panel.value, local.generation), plan.statusOk);
        }
    }
  }

  lemma RecreateKeeps(w0: World, local: Object, plan: Plan)
    requires Inv(w0) && CopyOf(local, w0) && local.finalizer
    requires local.status.syncedID.Some? && local.status.syncedID.value !in w0.rules
    ensures Inv(Recreate(w0, local, plan))
  {
    CopySurvives(local, w0, plan.gap1);
    var w1 := Interfere(w0, plan.gap1);
    var cleared := local.(status := local.status.(syncedID := None));
    WriteStatusKeeps(w1, cleared, plan.driftStatusOk);
    if WriteLands(w1, cleared, plan.driftStatusOk) {
      var w2 := WriteStatus(w1, cleared, plan.driftStatusOk);
      PushKeeps(w2, w2.cr, plan);
    }
  }

  lemma DeletedKeeps(w: World, id: nat)
    requires Inv(w)
    ensures Inv(Deleted(w, id))
  {
  }

  lemma GivingUpKeeps(w: World, local: Object, id: nat, plan: Plan)
    requires Inv(w) && w.cr.status.syncedID == Some(id)
    ensures var w2 := WriteFinalizer(Interfere(w, plan.gap1), local, false, plan.updateOk);
            Inv(if w2.cr.finalizer then w2 else w2.(orphans := w2.orphans + {id}))
  {
    InterfereMoves(w, plan.gap1);
  }

  lemma DeletionKeeps(w0: World, plan: Plan)
    requires Inv(w0)
    ensures Inv(Deletion(w0, w0.cr, plan))
  {
    var local := w0.cr;
    CopySurvives(local, w0, plan.gap0);
    var w := Interfere(w0, plan.gap0);
    if local.finalizer && plan.connection == Connected {
      if local.status.syncedID.None? {
        WriteFinalizerKeeps(w, local, false, plan.updateOk);
      } else {
        var id := local.status.syncedID.value;
        DeletedKeeps(w, id);
        if plan.delete.Ok? {
          InterfereMoves(Deleted(w, id), plan.gap1);
          WriteFinalizerKeeps(Interfere(Deleted(w, id), plan.gap1), local, false, plan.updateOk);
        } else if !IsRetryable(plan.delete) {
          GivingUpKeeps(if plan.deleteApplied then Deleted(w, id) else w, local, id, plan);
        }
      }
    }
  }

  lemma ReconcileKeeps(w: World, plan: Plan)
    requires Inv(w)
    ensures Inv(Reconcile(w, plan))
  {
    var local := w.cr;
    if Gone(local) {
    } else if local.deleting {
      DeletionKeeps(w, plan);
    } else {
      CopySurvives(local, w, plan.gap0);
      var w0 := Interfere(w, plan.gap0);
      if !local.finalizer {
        WriteFinalizerKeeps(w0, local, true, plan.updateOk);
      } else if plan.connection != Connected || plan.driftGet.Error? {
        WriteStatusKeeps(w0, local, plan.statusOk);
        WriteStatusKeeps(w0, Failed(local), plan.statusOk);
        PushKeeps(w0, local, plan);
      } else if !Guard(local) {
        PushKeeps(w0, local, plan);
      } else if local.status.syncedID.value !in w0.rules {
        RecreateKeeps(w0, local, plan);
      }
    }
  }

  // ---------------------------------------------------------------- runs

  datatype Action = Environment(move: Move) | Tick(plan: Plan)

  function Step(w: World, a: Action): World {
    match a
    case Environment(m) => Apply(w, m)
    case Tick(plan) => Reconcile(w, plan)
  }

  function Run(w: World, actions: seq<Action>): World
    decreases |actions|
  {
    if actions == [] then w else Run(Step(w, actions[0]), actions[1..])
  }

  function Created(spec: Spec): World {
    World(Object(spec, 1, 1, false, false, Status(None, "", 0, None, false)), map[], 0, [spec], map[], {})
  }

  lemma {:induction false} RunKeeps(w: World, actions: seq<Action>)
    requires Inv(w)
    ensures Inv(Run(w, actions))
    decreases |actions|
  {
    if actions != [] {
      if actions[0].Environment? {
        ApplyMoves(w, actions[0].move);
      } else {
        ReconcileKeeps(w, actions[0].plan);
      }
      RunKeeps(Step(w, actions[0]), actions[1..]);
    }
  }

  /** Ready soundness: in every reachable state, whatever edits and failures came between, a
      Ready=True condition with observed generation g means that the API accepted a payload built
      from the spec of generation g. */
  lemma ReadyIsSound(spec: Spec, actions: seq<Action>)
    ensures var w := Run(Created(spec), actions);
            w.cr.status.ready.Some? ==>
              var g := w.cr.status.ready.value;
              1 <= g <= |w.history| && g in w.accepted && w.accepted[g].spec == w.history[g - 1]
  {
    RunKeeps(Created(spec), actions);
  }

  /** The skip guard is sound where Ready carries the current generation. */
  lemma GuardWithCurrentReady(spec: Spec, actions: seq<Action>)
    ensures var w := Run(Created(spec), actions);
            Guard(w.cr) && w.cr.status.ready == Some(w.cr.generation) ==>
              w.cr.generation in w.accepted && w.accepted[w.cr.generation].spec == w.cr.spec
  {
    RunKeeps(Created(spec), actions);
  }

  // ---------------------------------------------------------------- edits lost from sight

  /** The attempt fails at the connection, the panel lookup or the POST, and the failure is stored. */
  predicate StoredFailure(plan: Plan) {
    && plan.statusOk
    && (plan.connection == Unresolved
        || (plan.connection == Connected && (plan.panel.None? || plan.post == Refused)))
  }

  predicate Quiet(plan: Plan) {
    plan.gap0 == [] && plan.gap1 == [] && plan.gap2 == [] && plan.gap3 == [] && plan.gap4 == []
  }

  /** An undisturbed attempt to push a pending edit of a synced resource leaves the edit hidden, that is
      guarded although no payload for it was accepted, if and only if it fails and the failure is stored. */
  lemma FailureHidesEditExactly(w: World, plan: Plan)
    requires Inv(w) && w.cr.finalizer && !w.cr.deleting
    requires w.cr.status.ready.Some? && w.cr.status.syncedID.Some?
    requires w.cr.status.observedGeneration != w.cr.generation && w.cr.generation !in w.accepted
    requires Quiet(plan)
    ensures var w1 := Reconcile(w, plan);
            && (Guard(w1.cr) && w1.cr.generation !in w1.accepted <==> StoredFailure(plan))
            && w1.cr.spec == w.cr.spec
            && (StoredFailure(plan) ==> w1.rules == w.rules && w1.cr.status.syncedID == w.cr.status.syncedID)
  {
  }

  /** From there on every undisturbed reconcile that reads the rules skips while the old rule exists. */
  lemma FailedPushHidesEdit(w: World, edited: Spec, failing: Plan, later: Plan)
    requires Inv(w) && w.cr.finalizer && !w.cr.deleting && Guard(w.cr)
    requires w.cr.status.syncedID.value in w.rules
    requires Quiet(failing) && StoredFailure(failing)
    requires later.connection == Connected && later.driftGet.Ok? && later.gap0 == []
    ensures var w1 := Reconcile(Apply(w, EditSpec(edited)), failing);
            && Guard(w1.cr) && w1.cr.spec == edited && w1.cr.generation !in w1.accepted
            && Reconcile(w1, later) == w1
  {
    ApplyMoves(w, EditSpec(edited));
    FailureHidesEditExactly(Apply(w, EditSpec(edited)), failing);
  }

  const SMOOTH: Plan :=
    Plan(Connected, Ok, true, Some("panel"), Accepted, true, true, true, Ok, true, [], [], [], [], [])

  /** Finalizer, first push, an edit, a refused push. */
  function HidingRun(edited: Spec): seq<Action> {
    [Tick(SMOOTH), Tick(SMOOTH), Environment(EditSpec(edited)), Tick(SMOOTH.(post := Refused))]
  }

  lemma RunFour(w: World, a: Action, b: Action, c: Action, d: Action)
    ensures Run(w, [a, b, c, d]) == Step(Step(Step(Step(w, a), b), c), d)
  {
    assert [a, b, c, d][1..] == [b, c, d] && [b, c, d][1..] == [c, d] && [c, d][1..] == [d] && [d][1..] == [];
    var w1, w2, w3 := Step(w, a), Step(Step(w, a), b), Step(Step(Step(w, a), b), c);
    assert Run(w, [a, b, c, d]) == Run(w1, [b, c, d]) == Run(w2, [c, d]) == Run(w3, [d]) == Run(Step(w3, d), []);
  }

  /** A freshly created resource gets there in four steps, and stays there. */
  lemma HiddenEditIsReachable(spec: Spec, edited: Spec)
    ensures var w := Run(Created(spec), HidingRun(edited));
            && Guard(w.cr) && w.cr.spec == edited && w.cr.generation !in w.accepted
            && w.accepted.Keys == {1} && w.accepted[1].spec == spec
            && Reconcile(w, SMOOTH) == w
  {
    var created := Created(spec);
    RunFour(created, Tick(SMOOTH), Tick(SMOOTH), Environment(EditSpec(edited)), Tick(SMOOTH.(post := Refused)));
    var w1 := Reconcile(created, SMOOTH);
    assert w1 == created.(cr := created.cr.(finalizer := true, version := 2));
    var w2 := Reconcile(w1, SMOOTH);
    assert Guard(w2.cr) && w2.cr.finalizer && !w2.cr.deleting && w2.cr.status.syncedID == Some(0) && 0 in w2.rules;
    assert w2.accepted == map[1 := Payload(0, "panel", spec)];
    RunKeeps(created, [Tick(SMOOTH)]);
    ReconcileKeeps(w1, SMOOTH);
    FailedPushHidesEdit(w2, edited, SMOOTH.(post := Refused), SMOOTH);
    ApplyMoves(w2, EditSpec(edited));
    assert w2.history == [spec];
  }

  // ---------------------------------------------------------------- lossless runs

  predicate OnlyRemovals(moves: seq<Move>)
    decreases |moves|
  {
    moves != [] ==> moves[0].RemoveRule? && OnlyRemovals(moves[1..])
  }

  /** No POST is applied without its ID being stored, and no DELETE is given up. Between re-fetch and
      status write nobody writes the resource; rules may be removed even then. */
  predicate Lossless(plan: Plan) {
    && plan.post != AnswerLost
    && (plan.post == Accepted ==> plan.refetchOk && plan.statusOk && OnlyRemovals(plan.gap4))
    && (plan.delete.Error? ==> IsRetryable(plan.delete))
  }

  lemma {:induction false} RemovalsKeepResource(w: World, moves: seq<Move>)
    requires OnlyRemovals(moves)
    ensures var w' := Interfere(w, moves);
            && w'.cr == w.cr && w'.accepted == w.accepted && w'.orphans == w.orphans
            && w'.history == w.history && w'.nextID == w.nextID
    decreases |moves|
  {
    if moves != [] {
      RemovalsKeepResource(Apply(w, moves[0]), moves[1..]);
    }
  }

  /** No accepted generation is newer than Ready's, and Ready's is not newer than the current one. */
  ghost predicate ReadyLeads(w: World) {
    && (forall g :: g in w.accepted ==> w.cr.status.ready.Some? && g <= w.cr.status.ready.value)
    && (w.cr.status.ready.Some? ==> w.cr.status.ready.value <= w.cr.generation)
  }

  ghost predicate ReadyLeadsCopy(local: Object, w: World) {
    && ReadyLeads(w)
    && local.status.ready == w.cr.status.ready
    && (local.status.ready.Some? ==> local.status.ready.value <= local.generation)
    && local.generation <= w.cr.generation
  }

  lemma PushLeads(w0: World, local: Object, plan: Plan)
    requires Inv(w0) && CopyOf(local, w0) && local.finalizer && Lossless(plan) && ReadyLeadsCopy(local, w0)
    ensures ReadyLeads(Push(w0, local, plan))
  {
    CopySurvives(local, w0, plan.gap2);
    var w := Interfere(w0, plan.gap2);
    if plan.panel.Some? && plan.post == Accepted {
      var posted := Posted(w, local, plan.panel.value);
      PostedIsInFlight(w, local, plan.panel.value);
      InFlightMoves(posted, PushedID(w, local), local, plan.gap3);
      RemovalsKeepResource(Interfere(posted, plan.gap3), plan.gap4);
    }
  }

  lemma RecreateLeads(w0: World, local: Object, plan: Plan)
    requires Inv(w0) && CopyOf(local, w0) && local.finalizer && Lossless(plan) && ReadyLeadsCopy(local, w0)
    requires local.status.syncedID.Some? && local.status.syncedID.value !in w0.rules
    ensures ReadyLeads(Recreate(w0, local, plan))
  {
    CopySurvives(local, w0, plan.gap1);
    var w1 := Interfere(w0, plan.gap1);
    var cleared := local.(status := local.status.(syncedID := None));
    if WriteLands(w1, cleared, plan.driftStatusOk) {
      WriteStatusKeeps(w1, cleared, plan.driftStatusOk);
      var w2 := WriteStatus(w1, cleared, plan.driftStatusOk);
      PushLeads(w2, w2.cr, plan);
    }
  }

  /** Status and records are as before; the generation may have grown. */
  predicate Leaves(w: World, w': World) {
    w'.cr.status == w.cr.status && w'.accepted == w.accepted && w.cr.generation <= w'.cr.generation
  }

  lemma {:induction false} MovesLeave(w: World, moves: seq<Move>)
    ensures Leaves(w, Interfere(w, moves))
    decreases |moves|
  {
    if moves != [] {
      MovesLeave(Apply(w, moves[0]), moves[1..]);
    }
  }

  lemma ReleaseLeaves(w: World, moves: seq<Move>, local: Object, ok: bool)
    ensures Leaves(w, WriteFinalizer(Interfere(w, moves), local, false, ok))
  {
    MovesLeave(w, moves);
  }

  lemma DeletionLeads(w: World, plan: Plan)
    requires ReadyLeads(w)
    ensures ReadyLeads(Deletion(w, w.cr, plan))
  {
    MovesLeave(w, plan.gap0);
    var w0 := Interfere(w, plan.gap0);
    if w.cr.status.syncedID.Some? {
      ReleaseLeaves(Deleted(w0, w.cr.status.syncedID.value), plan.gap1, w.cr, plan.updateOk);
      ReleaseLeaves(w0, plan.gap1, w.cr, plan.updateOk);
    }
  }

  lemma ReconcileLeads(w: World, plan: Plan)
    requires Inv(w) && ReadyLeads(w) && Lossless(plan)
    ensures ReadyLeads(Reconcile(w, plan))
  {
    var local := w.cr;
    CopySurvives(local, w, plan.gap0);
    var w0 := Interfere(w, plan.gap0);
    if Gone(local) {
    } else if local.deleting {
      DeletionLeads(w, plan);
    } else if local.finalizer && plan.connection == Connected {
      if !Guard(local) {
        PushLeads(w0, local, plan);
      } else if plan.driftGet.Ok? && local.status.syncedID.value !in w0.rules {
        RecreateLeads(w0, local, plan);
      }
    }
  }

  lemma {:induction false} RunLeads(w: World, actions: seq<Action>)
    requires Inv(w) && ReadyLeads(w) && forall a :: a in actions && a.Tick? ==> Lossless(a.plan)
    ensures Inv(Run(w, actions)) && ReadyLeads(Run(w, actions))
    decreases |actions|
  {
    if actions != [] {
      if actions[0].Environment? {
        ApplyMoves(w, actions[0].move);
      } else {
        ReconcileKeeps(w, actions[0].plan);
        ReconcileLeads(w, actions[0].plan);
      }
      RunLeads(Step(w, actions[0]), actions[1..]);
    }
  }

  /** In every lossless run the guard means what it should exactly when Ready carries the current
      generation: that is when, and only when, a payload for the current spec was accepted. */
  lemma CurrentSpecAcceptedExactly(spec: Spec, actions: seq<Action>)
    requires forall a :: a in actions && a.Tick? ==> Lossless(a.plan)
    ensures var w := Run(Created(spec), actions);
            && (w.cr.generation in w.accepted <==> w.cr.status.ready == Some(w.cr.generation))
            && (w.cr.generation in w.accepted ==> w.accepted[w.cr.generation].spec == w.cr.spec)
  {
    RunLeads(Created(spec), actions);
  }

  // ---------------------------------------------------------------- ownership

  /** In every run: the remote rules of the resource are the one its status names, and orphans. */
  lemma OwnershipCensus(spec: Spec, actions: seq<Action>)
    ensures var w := Run(Created(spec), actions);
            && w.rules.Keys <= w.orphans + SyncedIDs(w.cr)
            && |w.rules| <= |w.orphans| + 1
            && (Gone(w.cr) ==> w.rules.Keys <= w.orphans)
  {
    var w := Run(Created(spec), actions);
    RunKeeps(Created(spec), actions);
    SubsetSize(w.rules.Keys, w.orphans + SyncedIDs(w.cr));
    assert |w.rules| == |w.rules.Keys|;
  }

  lemma {:induction false} SubsetSize<T>(a: set<T>, b: set<T>)
    requires a <= b
    ensures |a| <= |b|
  {
    if a != {} {
      var x :| x in a;
      SubsetSize(a - {x}, b - {x});
    }
  }

  lemma LosslessPush(w0: World, local: Object, plan: Plan)
    requires Inv(w0) && CopyOf(local, w0) && local.finalizer && Lossless(plan)
    ensures Push(w0, local, plan).orphans == w0.orphans
  {
    CopySurvives(local, w0, plan.gap2);
    var w := Interfere(w0, plan.gap2);
    if plan.panel.Some? && plan.post == Accepted {
      PostedIsInFlight(w, local, plan.panel.value);
      var posted := Posted(w, local, plan.panel.value);
      InFlightMoves(posted, PushedID(w, local), local, plan.gap3);
      RemovalsKeepResource(Interfere(posted, plan.gap3), plan.gap4);
    }
  }

  lemma LosslessRecreate(w0: World, local: Object, plan: Plan)
    requires Inv(w0) && CopyOf(local, w0) && local.finalizer && Lossless(plan)
    requires local.status.syncedID.Some? && local.status.syncedID.value !in w0.rules
    ensures Recreate(w0, local, plan).orphans == w0.orphans
  {
    CopySurvives(local, w0, plan.gap1);
    var w1 := Interfere(w0, plan.gap1);
    var cleared := local.(status := local.status.(syncedID := None));
    if WriteLands(w1, cleared, plan.driftStatusOk) {
      WriteStatusKeeps(w1, cleared, plan.driftStatusOk);
      var w2 := WriteStatus(w1, cleared, plan.driftStatusOk);
      LosslessPush(w2, w2.cr, plan);
    }
  }

  lemma LosslessReconcile(w: World, plan: Plan)
    requires Inv(w) && Lossless(plan)
    ensures Reconcile(w, plan).orphans == w.orphans
  {
    var local := w.cr;
    CopySurvives(local, w, plan.gap0);
    var w0 := Interfere(w, plan.gap0);
    if !Gone(local) && local.deleting {
      if local.finalizer && local.status.syncedID.Some? {
        DeletedKeeps(w0, local.status.syncedID.value);
        InterfereMoves(Deleted(w0, local.status.syncedID.value), plan.gap1);
      }
    } else if !Gone(local) && local.finalizer && plan.connection == Connected {
      if !Guard(local) {
        LosslessPush(w0, local, plan);
      } else if plan.driftGet.Ok? && local.status.syncedID.value !in w0.rules {
        LosslessRecreate(w0, local, plan);
      }
    }
  }

  lemma {:induction false} LosslessRun(w: World, actions: seq<Action>)
    requires Inv(w) && forall a :: a in actions && a.Tick? ==> Lossless(a.plan)
    ensures Run(w, actions).orphans == w.orphans
    decreases |actions|
  {
    if actions != [] {
      if actions[0].Environment? {
        ApplyMoves(w, actions[0].move);
      } else {
        ReconcileKeeps(w, actions[0].plan);
        LosslessReconcile(w, actions[0].plan);
      }
      LosslessRun(Step(w, actions[0]), actions[1..]);
    }
  }

  /** Single ownership: if every accepted POST is followed by a stored status and no DELETE is given
      up, then at every point of the run the resource has at most one remote rule, the one its status
      names, and none once it is gone. */
  lemma SingleOwnership(spec: Spec, actions: seq<Action>)
    requires forall a :: a in actions && a.Tick? ==> Lossless(a.plan)
    ensures var w := Run(Created(spec), actions);
            && |w.rules| <= 1
            && (forall id :: id in w.rules ==> w.cr.status.syncedID == Some(id))
            && (Gone(w.cr) ==> w.rules == map[])
  {
    OwnershipCensus(spec, actions);
    LosslessRun(Created(spec), actions);
  }

  /** The assumption is needed: when the status write behind a first POST is lost, the next reconcile
      posts a second rule, and the first one stays behind. */
  lemma LostStatusDuplicates(w: World, lost: Plan, next: Plan)
    requires Inv(w) && w.cr.finalizer && !w.cr.deleting && w.cr.status.syncedID.None? && w.rules == map[]
    requires lost.connection == Connected && lost.panel.Some? && lost.post == Accepted && !lost.statusOk
    requires lost.gap0 == [] && lost.gap2 == [] && lost.gap3 == [] && lost.gap4 == []
    requires next.connection == Connected && next.panel.Some? && next.post == Accepted && Lossless(next)
    requires next.gap0 == [] && next.gap2 == [] && next.gap3 == [] && next.gap4 == []
    ensures var w' := Reconcile(Reconcile(w, lost), next);
            w'.rules.Keys == {w.nextID, w.nextID + 1} && w'.cr.status.syncedID == Some(w.nextID + 1)
  {
    var w1 := Reconcile(w, lost);
    assert w1.rules.Keys == {w.nextID} && w1.nextID == w.nextID + 1 && w1.cr == w.cr;
  }
}

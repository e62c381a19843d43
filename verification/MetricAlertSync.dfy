/** The life cycle of one metric-alert resource: finalizer, push, status, drift check, deletion, with
    edits, deletions and external removals landing between any two calls of a reconcile. */
module MetricAlertSync {
  import opened Options
  import opened ApiOutcomes

  datatype Spec = Spec(dashboard: string, chart: string, content: string)

  /** The rule as posted: the spec it was built from, the resolved panel, and the ID. IDs are UUIDs,
      numbered here in the order in which this resource draws them. */
  datatype Payload = Payload(id: nat, correlationID: string, spec: Spec)

  /** `ready` is the observed generation of a Ready=True condition. */
  datatype Status = Status(
    syncedID: Option<nat>, correlationID: string, observedGeneration: nat, ready: Option<nat>, failed: bool)

  datatype Object = Object(
    spec: Spec, generation: nat, version: nat, deleting: bool, finalizer: bool, status: Status)

  predicate Gone(o: Object) {
    o.deleting && !o.finalizer
  }

  /** `rules` are the remote rules with IDs of this resource. For the record: `history` holds the spec
      of every generation, `accepted` the last payload the API took for a generation, and `orphans`
      the IDs that were posted without reaching the status, or given up on deletion. */
  datatype World = World(
    cr: Object, rules: map<nat, Payload>, nextID: nat,
    history: seq<Spec>, accepted: map<nat, Payload>, orphans: set<nat>)

  // ---------------------------------------------------------------- the environment

  /** Like an edit, the first deletion request raises the generation. */
  datatype Move = EditSpec(spec: Spec) | RequestDelete | RemoveRule(id: nat)

  function Apply(w: World, m: Move): World {
    if m.RemoveRule? then w.(rules := w.rules - {m.id})
    else if Gone(w.cr) then w
    else match m
      case EditSpec(spec) =>
        w.(cr := w.cr.(spec := spec, generation := w.cr.generation + 1, version := w.cr.version + 1),
           history := w.history + [spec])
      case RequestDelete =>
        if w.cr.deleting then w
        else w.(cr := w.cr.(deleting := true, generation := w.cr.generation + 1, version := w.cr.version + 1),
                history := w.history + [w.cr.spec])
      case RemoveRule(_) => w
  }

  function Interfere(w: World, moves: seq<Move>): World
    decreases |moves|
  {
    if moves == [] then w else Interfere(Apply(w, moves[0]), moves[1..])
  }

  // ---------------------------------------------------------------- one reconcile

  /** A POST that errors is either not applied, or applied with its answer lost. */
  datatype Post = Accepted | Refused | AnswerLost

  /** The outcomes of one reconcile's calls, and what happens in its five gaps: before the drift
      check, before its status write, before the POST, before the re-fetch, before the final write. */
  datatype Plan = Plan(
    connection: Connection, driftGet: Outcome, driftStatusOk: bool, panel: Option<string>, post: Post,
    refetchOk: bool, statusOk: bool, updateOk: bool, delete: Outcome, deleteApplied: bool,
    gap0: seq<Move>, gap1: seq<Move>, gap2: seq<Move>, gap3: seq<Move>, gap4: seq<Move>)

  predicate Guard(o: Object) {
    o.status.ready.Some? && o.status.observedGeneration == o.generation && o.status.syncedID.Some?
  }

  /** A write goes through only if nobody wrote since the local copy was read. */
  predicate WriteLands(w: World, local: Object, ok: bool) {
    ok && !Gone(w.cr) && local.version == w.cr.version
  }

  function WriteStatus(w: World, local: Object, ok: bool): World {
    if WriteLands(w, local, ok) then w.(cr := w.cr.(status := local.status, version := w.cr.version + 1)) else w
  }

  function WriteFinalizer(w: World, local: Object, finalizer: bool, ok: bool): World {
    if WriteLands(w, local, ok) then w.(cr := w.cr.(finalizer := finalizer, version := w.cr.version + 1)) else w
  }

  function Failed(local: Object): Object {
    local.(status := local.status.(failed := true, observedGeneration := local.generation))
  }

  /** The ID a push posts under: the synced one, or a fresh one. */
  function PushedID(w: World, local: Object): nat {
    if local.status.syncedID.Some? then local.status.syncedID.value else w.nextID
  }

  /** The server keys rules by ID. */
  function Posted(w: World, local: Object, correlationID: string): World {
    var p := Payload(PushedID(w, local), correlationID, local.spec);
    w.(rules := w.rules[p.id := p],
       accepted := w.accepted[local.generation := p],
       nextID := if local.status.syncedID.Some? then w.nextID else w.nextID + 1)
  }

  function Synced(fetched: Object, id: nat, correlationID: string, generation: nat): Object {
    fetched.(status := Status(Some(id), correlationID, generation, Some(generation), false))
  }

  /** An applied POST whose ID is not in the stored status leaves an orphan. */
  function RecordOrphan(w: World, id: nat): World {
    if w.cr.status.syncedID == Some(id) then w else w.(orphans := w.orphans + {id})
  }

  function Push(w0: World, local: Object, plan: Plan): World {
    var w := Interfere(w0, plan.gap2);
    if plan.panel.None? then WriteStatus(w, Failed(local), plan.statusOk)
    else
      var resolved := local.(status := local.status.(correlationID := plan.panel.value));
      var id := PushedID(w, local);
      match plan.post
      case Refused => WriteStatus(w, Failed(resolved), plan.statusOk)
      case AnswerLost =>
        RecordOrphan(WriteStatus(Posted(w, local, plan.panel.value), Failed(resolved), plan.statusOk), id)
      case Accepted =>
        var w1 := Interfere(Posted(w, local, plan.panel.value), plan.gap3);
        if !plan.refetchOk || Gone(w1.cr) then RecordOrphan(w1, id)
        else
          var fetched := Synced(w1.cr, id, plan.panel.value, local.generation);
          RecordOrphan(WriteStatus(Interfere(w1, plan.gap4), fetched, plan.statusOk), id)
  }

  /** The rule is gone: its ID is forgotten, and the rule posted anew. */
  function Recreate(w0: World, local: Object, plan: Plan): World {
    var w1 := Interfere(w0, plan.gap1);
    var cleared := local.(status := local.status.(syncedID := None));
    if !WriteLands(w1, cleared, plan.driftStatusOk) then w1
    else
      var w2 := WriteStatus(w1, cleared, plan.driftStatusOk);
      Push(w2, w2.cr, plan)
  }

  function Deleted(w: World, id: nat): World {
    w.(rules := w.rules - {id})
  }

  function Deletion(w0: World, local: Object, plan: Plan): World {
    var w := Interfere(w0, plan.gap0);
    if !local.finalizer || plan.connection != Connected then w
    else if local.status.syncedID.None? then WriteFinalizer(w, local, false, plan.updateOk)
    else
      var id := local.status.syncedID.value;
      if plan.delete.Ok? then WriteFinalizer(Interfere(Deleted(w, id), plan.gap1), local, false, plan.updateOk)
      else
        var w1 := if plan.deleteApplied then Deleted(w, id) else w;
        if IsRetryable(plan.delete) then w1
        else
          var w2 := WriteFinalizer(Interfere(w1, plan.gap1), local, false, plan.updateOk);
          if w2.cr.finalizer then w2 else w2.(orphans := w2.orphans + {id})
  }

  function Reconcile(w: World, plan: Plan): World {
    var local := w.cr;
    if Gone(local) then w
    else if local.deleting then Deletion(w, local, plan)
    else
      var w0 := Interfere(w, plan.gap0);
      if !local.finalizer then WriteFinalizer(w0, local, true, plan.updateOk)
      else match plan.connection
        case Paused => WriteStatus(w0, local, plan.statusOk)
        case Unresolved => WriteStatus(w0, Failed(local), plan.statusOk)
        case Connected =>
          if !Guard(local) then Push(w0, local, plan)
          else if plan.driftGet.Error? then WriteStatus(w0, local, plan.statusOk)
          else if local.status.syncedID.value in w0.rules then w0
          else Recreate(w0, local, plan)
  }

  // ---------------------------------------------------------------- the controller

  class Controller {
    var cr: Object
    var rules: map<nat, Payload>
    var nextID: nat
    ghost var history: seq<Spec>
    ghost var accepted: map<nat, Payload>
    ghost var orphans: set<nat>

    ghost function State(): World
      reads this
    {
      World(cr, rules, nextID, history, accepted, orphans)
    }

    /** What users and other clients of the API do meanwhile. */
    method Meanwhile(moves: seq<Move>)
      modifies this
      ensures State() == Interfere(old(State()), moves)
    {
      for i := 0 to |moves|
        invariant Interfere(State(), moves[i..]) == Interfere(old(State()), moves)
      {
        assert moves[i..][1..] == moves[i + 1..];
        if moves[i].RemoveRule? {
          rules := rules - {moves[i].id};
        } else if !(cr.deleting && !cr.finalizer) {
          if moves[i].EditSpec? {
            cr := cr.(spec := moves[i].spec, generation := cr.generation + 1, version := cr.version + 1);
            history := history + [moves[i].spec];
          } else if !cr.deleting {
            history := history + [cr.spec];
            cr := cr.(deleting := true, generation := cr.generation + 1, version := cr.version + 1);
          }
        }
      }
    }

    method UpdateStatus(local: Object, ok: bool) returns (landed: bool)
      modifies `cr
      ensures landed <==> WriteLands(old(State()), local, ok)
      ensures State() == WriteStatus(old(State()), local, ok)
    {
      landed := ok && !(cr.deleting && !cr.finalizer) && local.version == cr.version;
      if landed {
        cr := cr.(status := local.status, version := cr.version + 1);
      }
    }

    method UpdateFinalizer(local: Object, finalizer: bool, ok: bool)
      modifies `cr
      ensures State() == WriteFinalizer(old(State()), local, finalizer, ok)
    {
      if ok && !(cr.deleting && !cr.finalizer) && local.version == cr.version {
        cr := cr.(finalizer := finalizer, version := cr.version + 1);
      }
    }

    method CreateOrUpdateRule(local: Object, correlationID: string) returns (id: nat)
      modifies this
      ensures id == PushedID(old(State()), local)
      ensures State() == Posted(old(State()), local, correlationID)
    {
      if local.status.syncedID.Some? {
        id := local.status.syncedID.value;
      } else {
        id := nextID;
        nextID := nextID + 1;
      }
      var rule := Payload(id, correlationID, local.spec);
      rules := rules[id := rule];
      accepted := accepted[local.generation := rule];
    }

    method SyncRule(alert: Object, plan: Plan)
      modifies this
      ensures State() == Push(old(State()), alert, plan)
    {
      var local := alert;
      Meanwhile(plan.gap2);
      if plan.panel.None? {
        var _ := UpdateStatus(Failed(local), plan.statusOk);
        return;
      }
      local := local.(status := local.status.(correlationID := plan.panel.value));
      if plan.post == Refused {
        var _ := UpdateStatus(Failed(local), plan.statusOk);
        return;
      }
      var id := CreateOrUpdateRule(local, plan.panel.value);
      if plan.post == AnswerLost {
        var _ := UpdateStatus(Failed(local), plan.statusOk);
      } else {
        var syncedGeneration := local.generation;
        Meanwhile(plan.gap3);
        if plan.refetchOk && !(cr.deleting && !cr.finalizer) {
          local := Synced(cr, id, plan.panel.value, syncedGeneration);
          Meanwhile(plan.gap4);
          var _ := UpdateStatus(local, plan.statusOk);
        }
      }
      if cr.status.syncedID != Some(id) {
        orphans := orphans + {id};
      }
    }

    method HandleDeletion(plan: Plan)
      requires cr.deleting
      modifies this
      ensures State() == Deletion(old(State()), old(cr), plan)
    {
      var local := cr;
      Meanwhile(plan.gap0);
      if !local.finalizer || plan.connection != Connected {
        return;
      }
      ghost var givenUp := false;
      if local.status.syncedID.Some? {
        var id := local.status.syncedID.value;
        if plan.delete.Ok? || plan.deleteApplied {
          rules := rules - {id};
        }
        if plan.delete.Error? {
          if plan.delete.status >= 500 {
            return;
          }
          givenUp := true;
        }
        Meanwhile(plan.gap1);
      }
      UpdateFinalizer(local, false, plan.updateOk);
      if givenUp && !cr.finalizer {
        orphans := orphans + {local.status.syncedID.value};
      }
    }

    method ReconcileOnce(plan: Plan)
      modifies this
      ensures State() == Reconcile(old(State()), plan)
    {
      var alert := cr;
      if alert.deleting {
        if alert.finalizer {
          HandleDeletion(plan);
        }
        return;
      }
      Meanwhile(plan.gap0);
      if !alert.finalizer {
        UpdateFinalizer(alert, true, plan.updateOk);
        return;
      }
      if plan.connection == Paused {
        var _ := UpdateStatus(alert, plan.statusOk);
        return;
      }
      if plan.connection == Unresolved {
        var _ := UpdateStatus(Failed(alert), plan.statusOk);
        return;
      }
      if && alert.status.ready.Some? && alert.status.observedGeneration == alert.generation
         && alert.status.syncedID.Some? {
        if plan.driftGet.Error? {
          var _ := UpdateStatus(alert, plan.statusOk);
          return;
        }
        if alert.status.syncedID.value in rules {
          return;
        }
        Meanwhile(plan.gap1);
        alert := alert.(status := alert.status.(syncedID := None));
        var landed := UpdateStatus(alert, plan.driftStatusOk);
        if !landed {
          return;
        }
        alert := cr;
      }
      SyncRule(alert, plan);
    }
  }
}

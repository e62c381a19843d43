/** The start-up order: what the controller has read, in the same reconcile, before it writes the Server
    or the Dashboard. Readiness, specs and workloads may change at any point in between. */
module PlatformStartup {
  import opened Options
  import opened PlatformController

  // ---------------------------------------------------------------- reading the record

  /** What the current reconcile works from and which workloads it has seen ready. */
  datatype Watch = Watch(spec: Option<Spec>, ready: set<Workload>)

  function Next(watch: Watch, e: Event): Watch {
    match e
    case Began(spec) => Watch(Some(spec), {})
    case Saw(workload, state) => if SetReady(state) then watch.(ready := watch.ready + {workload}) else watch
    case _ => watch
  }

  function Watched(log: seq<Event>): Watch
    decreases |log|
  {
    if log == [] then Watch(None, {}) else Next(Watched(log[..|log| - 1]), log[|log| - 1])
  }

  predicate Covers(watch: Watch, spec: Spec, workload: Workload) {
    Awaited(spec, workload) ==> workload in watch.ready
  }

  predicate Allowed(watch: Watch, e: Event) {
    match e
    case ServerWrite =>
      && watch.spec.Some? && BlockEnabled(watch.spec.value.server)
      && Covers(watch, watch.spec.value, Database(TimeSeries))
      && Covers(watch, watch.spec.value, Database(Search))
    case DashboardWrite =>
      && watch.spec.Some? && BlockEnabled(watch.spec.value.dashboard)
      && Covers(watch, watch.spec.value, ServerWorkload)
    case _ => true
  }

  predicate InOrder(log: seq<Event>)
    decreases |log|
  {
    log != [] ==> InOrder(log[..|log| - 1]) && Allowed(Watched(log[..|log| - 1]), log[|log| - 1])
  }

  lemma Append(log: seq<Event>, e: Event)
    ensures Watched(log + [e]) == Next(Watched(log), e)
    ensures InOrder(log + [e]) <==> InOrder(log) && Allowed(Watched(log), e)
  {
    assert (log + [e])[..|log + [e]| - 1] == log;
  }

  // ---------------------------------------------------------------- every step keeps the order

  lemma {:induction false} MovesAreSilent(w: World, moves: seq<Move>)
    ensures Interfere(w, moves).log == w.log
    decreases |moves|
  {
    if moves != [] {
      MovesAreSilent(Apply(w, moves[0]), moves[1..]);
    }
  }

  lemma {:induction false} DeletesAreSilent(w: World, db: Db, kinds: seq<Kind>, failing: set<Kind>)
    ensures DeleteObjects(w, db, kinds, failing).w.log == w.log
    decreases |kinds|
  {
    if kinds != [] && kinds[0] !in failing {
      DeletesAreSilent(DeleteObject(w, db, kinds[0]), db, kinds[1..], failing);
    }
  }

  lemma CleanUpIsSilent(w: World, spec: Spec, db: Db, plan: DbPlan)
    ensures CleanUp(w, spec, db, plan).w.log == w.log
  {
    var retain := Retains(w.classes, WantedClass(BlockOf(spec, db)), plan.reading);
    DeletesAreSilent(w, db, ObjectsToDelete(retain), plan.failing);
  }

  lemma EnsureAuthIsSilent(w: World, uid: nat, db: Db, block: DbBlock, plan: DbPlan)
    ensures EnsureAuth(w, uid, db, block, plan).w.log == w.log
  {
  }

  lemma DbStageIsSilent(w: World, uid: nat, spec: Spec, db: Db, plan: DbPlan)
    ensures DbStage(w, uid, spec, db, plan).w.log == w.log
  {
    CleanUpIsSilent(w, spec, db, plan);
    if Internal(spec, db) {
      EnsureAuthIsSilent(w, uid, db, BlockOf(spec, db).value, plan);
    } else if DbEnabled(spec, db) {
      EnsureAuthIsSilent(CleanUp(w, spec, db, plan).w, uid, db, BlockOf(spec, db).value, plan);
    }
  }

  lemma DatabasesAreSilent(w: World, platform: Platform, plan: Plan)
    ensures Databases(w, platform, plan).w.log == w.log
  {
    MovesAreSilent(w, plan.gap1);
    DbStageIsSilent(Interfere(w, plan.gap1), platform.uid, platform.spec, TimeSeries, plan.timeSeries);
    var ts := DbStage(Interfere(w, plan.gap1), platform.uid, platform.spec, TimeSeries, plan.timeSeries).w;
    MovesAreSilent(ts, plan.gap2);
    DbStageIsSilent(Interfere(ts, plan.gap2), platform.uid, platform.spec, Search, plan.search);
  }

  /** The reconcile under way works from `spec` and the record so far is in order. */
  predicate Working(log: seq<Event>, spec: Spec) {
    InOrder(log) && Watched(log).spec == Some(spec)
  }

  lemma CheckWatches(w: World, spec: Spec, workload: Workload, readOk: bool)
    requires Working(w.log, spec)
    ensures var step := Check(w, spec, workload, readOk);
            && Working(step.w.log, spec)
            && Watched(w.log).ready <= Watched(step.w.log).ready
            && (step.go ==> Covers(Watched(step.w.log), spec, workload))
  {
    if workload in w.sets {
      Append(w.log, Saw(workload, w.sets[workload]));
    }
  }

  lemma ServerGateWatches(w: World, spec: Spec, plan: Plan)
    requires Working(w.log, spec)
    ensures var gate := ServerGate(w, spec, plan);
            && Working(gate.w.log, spec)
            && (gate.go ==> Covers(Watched(gate.w.log), spec, Database(TimeSeries)))
            && (gate.go ==> Covers(Watched(gate.w.log), spec, Database(Search)))
  {
    MovesAreSilent(w, plan.gap3);
    CheckWatches(Interfere(w, plan.gap3), spec, Database(TimeSeries), plan.timeSeriesCheck);
    var ts := Check(Interfere(w, plan.gap3), spec, Database(TimeSeries), plan.timeSeriesCheck).w;
    MovesAreSilent(ts, plan.gap4);
    CheckWatches(Interfere(ts, plan.gap4), spec, Database(Search), plan.searchCheck);
  }

  lemma ServerStageInOrder(w: World, spec: Spec, plan: Plan)
    requires Working(w.log, spec)
    ensures Working(ServerStage(w, spec, plan).w.log, spec)
  {
    if BlockEnabled(spec.server) {
      ServerGateWatches(w, spec, plan);
      var gate := ServerGate(w, spec, plan).w;
      MovesAreSilent(gate, plan.gap5);
      Append(gate.log, ServerWrite);
    }
  }

  lemma DashboardStageInOrder(w: World, spec: Spec, plan: Plan)
    requires Working(w.log, spec)
    ensures Working(DashboardStage(w, spec, plan).log, spec)
  {
    if BlockEnabled(spec.dashboard) {
      MovesAreSilent(w, plan.gap6);
      CheckWatches(Interfere(w, plan.gap6), spec, ServerWorkload, plan.serverCheck);
      var server := Check(Interfere(w, plan.gap6), spec, ServerWorkload, plan.serverCheck).w;
      MovesAreSilent(server, plan.gap7);
      Append(server.log, DashboardWrite);
    }
  }

  lemma ProvisionInOrder(w0: World, platform: Platform, plan: Plan)
    requires InOrder(w0.log)
    ensures InOrder(Provision(w0, platform, plan).log)
  {
    Append(w0.log, Began(platform.spec));
    var w := w0.(log := w0.log + [Began(platform.spec)]);
    if !Held(platform.spec, plan) {
      DatabasesAreSilent(w, platform, plan);
      var databases := Databases(w, platform, plan).w;
      ServerStageInOrder(databases, platform.spec, plan);
      DashboardStageInOrder(ServerStage(databases, platform.spec, plan).w, platform.spec, plan);
    }
  }

  lemma {:induction false} DeletionIsSilent(w: World, spec: Spec, dbs: seq<Db>, plan: Plan)
    ensures DeleteCredentials(w, spec, dbs, plan).w.log == w.log
    decreases |dbs|
  {
    if dbs != [] {
      DeletionIsSilent(w, spec, dbs[1..], plan);
      DeletionIsSilent(w.(auth := w.auth - {dbs[0]}), spec, dbs[1..], plan);
    }
  }

  lemma ReconcileInOrder(w: World, plan: Plan)
    requires InOrder(w.log)
    ensures InOrder(Reconcile(w, plan).log)
  {
    if w.cr.Some? {
      var platform := w.cr.value;
      if platform.deleting {
        DeletionIsSilent(w, platform.spec, Components(platform.spec), plan);
      } else if platform.finalizer {
        ProvisionInOrder(w, platform, plan);
      } else {
        var added := w.(cr := Some(platform.(finalizer := true)));
        MovesAreSilent(added, plan.gap0);
        var held := Interfere(added, plan.gap0);
        if held.cr.Some? {
          ProvisionInOrder(held, held.cr.value, plan);
        }
      }
    }
  }

  lemma {:induction false} RunInOrder(w: World, turns: seq<Turn>)
    requires InOrder(w.log)
    ensures InOrder(Run(w, turns).log)
    decreases |turns|
  {
    if turns != [] {
      match turns[0] {
        case Outside(m) => MovesAreSilent(w, [m]);
        case Reconciled(plan) => ReconcileInOrder(w, plan);
      }
      RunInOrder(Take(w, turns[0]), turns[1..]);
    }
  }

  // ---------------------------------------------------------------- what the order means

  /** Between positions `from` and `till` a reading shows the workload with a positive number of
      replicas, all ready. */
  ghost predicate SeenReady(log: seq<Event>, from: nat, till: nat, workload: Workload) {
    exists j, state ::
      from <= j < till <= |log| && log[j] == Saw(workload, state)
      && state.replicas.Some? && 0 < state.replicas.value == state.ready
  }

  /** Position `b` starts the reconcile that is under way just before position `i`. */
  ghost predicate StartedAt(log: seq<Event>, b: nat, i: nat) {
    b < i <= |log| && log[b].Began? && forall j :: b < j < i ==> !log[j].Began?
  }

  lemma {:induction false} WatchedMeans(log: seq<Event>, i: nat) returns (b: nat)
    requires i <= |log| && Watched(log[..i]).spec.Some?
    ensures StartedAt(log, b, i) && log[b] == Began(Watched(log[..i]).spec.value)
    ensures forall workload :: workload in Watched(log[..i]).ready ==> SeenReady(log, b, i, workload)
    decreases i
  {
    assert log[..i][..i - 1] == log[..i - 1];
    var e := log[i - 1];
    if e.Began? {
      b := i - 1;
    } else {
      b := WatchedMeans(log, i - 1);
      forall workload | workload in Watched(log[..i]).ready ensures SeenReady(log, b, i, workload) {
        if workload in Watched(log[..i - 1]).ready {
          var j, state :| b <= j < i - 1 && log[j] == Saw(workload, state)
                          && state.replicas.Some? && 0 < state.replicas.value == state.ready;
        } else {
          assert e == Saw(workload, e.state);
        }
      }
    }
  }

  lemma {:induction false} OrderedPrefix(log: seq<Event>, i: nat)
    requires InOrder(log) && i < |log|
    ensures Allowed(Watched(log[..i]), log[i])
    decreases |log|
  {
    if i < |log| - 1 {
      OrderedPrefix(log[..|log| - 1], i);
      assert log[..|log| - 1][..i] == log[..i];
    }
  }

  /** In every run, whatever edits, readiness changes and failures are interleaved: the reconcile that
      writes the Server has by then read every enabled internal database of its spec as ready, and one
      that writes the Dashboard has read an enabled Server as ready. */
  lemma StartupOrder(w: World, turns: seq<Turn>, i: nat) returns (b: nat, spec: Spec)
    requires w.log == [] && i < |Run(w, turns).log|
    requires Run(w, turns).log[i] in {ServerWrite, DashboardWrite}
    ensures var log := Run(w, turns).log;
            && StartedAt(log, b, i) && log[b] == Began(spec)
            && (log[i].ServerWrite? ==>
                  forall db :: Internal(spec, db) ==> SeenReady(log, b, i, Database(db)))
            && (log[i].DashboardWrite? && BlockEnabled(spec.server) ==> SeenReady(log, b, i, ServerWorkload))
  {
    var log := Run(w, turns).log;
    RunInOrder(w, turns);
    OrderedPrefix(log, i);
    b := WatchedMeans(log, i);
    spec := Watched(log[..i]).spec.value;
    forall db | log[i].ServerWrite? && Internal(spec, db) ensures SeenReady(log, b, i, Database(db)) {
      assert Awaited(spec, Database(db));
    }
    if log[i].DashboardWrite? && BlockEnabled(spec.server) {
      assert Awaited(spec, ServerWorkload);
    }
  }

  // ---------------------------------------------------------------- exactly when the gates open

  predicate ReadyNow(w: World, spec: Spec, workload: Workload) {
    Awaited(spec, workload) ==> workload in w.sets && SetReady(w.sets[workload])
  }

  function WithLog(w: World, log: seq<Event>): World {
    w.(log := log)
  }

  predicate Undisturbed(plan: Plan) {
    && plan.gap3 == [] && plan.gap4 == [] && plan.gap5 == [] && plan.gap6 == [] && plan.gap7 == []
    && plan.timeSeriesCheck && plan.searchCheck && plan.serverCheck
  }

  predicate NoWriteIn(log: seq<Event>) {
    ServerWrite !in log && DashboardWrite !in log
  }

  lemma CheckIsExact(w: World, spec: Spec, workload: Workload)
    ensures var step := Check(w, spec, workload, true);
            && (step.go <==> ReadyNow(w, spec, workload))
            && w.log <= step.w.log && NoWriteIn(step.w.log[|w.log|..])
            && WithLog(step.w, w.log) == w
  {
  }

  lemma AddedEvents(a: seq<Event>, b: seq<Event>, c: seq<Event>, e: Event)
    requires a <= b <= c
    ensures e in c[|a|..] <==> e in b[|a|..] || e in c[|b|..]
  {
    assert c[|a|..] == b[|a|..] + c[|b|..];
  }

  /** The gate opens exactly when every internal database is ready, and changes nothing. */
  lemma ServerGateOpensExactly(w: World, spec: Spec, plan: Plan)
    requires Undisturbed(plan)
    ensures var gate := ServerGate(w, spec, plan);
            && (gate.go <==> forall db :: ReadyNow(w, spec, Database(db)))
            && w.log <= gate.w.log && NoWriteIn(gate.w.log[|w.log|..])
            && WithLog(gate.w, w.log) == w
  {
    var ts := Check(w, spec, Database(TimeSeries), true);
    CheckIsExact(w, spec, Database(TimeSeries));
    CheckIsExact(ts.w, spec, Database(Search));
    var log := Check(ts.w, spec, Database(Search), true).w.log;
    AddedEvents(w.log, ts.w.log, log, ServerWrite);
    AddedEvents(w.log, ts.w.log, log, DashboardWrite);
    assert (forall db :: ReadyNow(w, spec, Database(db)))
      <==> ReadyNow(w, spec, Database(TimeSeries)) && ReadyNow(w, spec, Database(Search));
  }

  /** With no disturbance, an enabled Server is written exactly when every internal database is ready. */
  lemma ServerGateIsExact(w: World, spec: Spec, plan: Plan)
    requires Undisturbed(plan) && BlockEnabled(spec.server)
    ensures var w' := ServerStage(w, spec, plan).w;
            && w.log <= w'.log && DashboardWrite !in w'.log[|w.log|..]
            && (ServerWrite in w'.log[|w.log|..] <==> forall db :: ReadyNow(w, spec, Database(db)))
  {
    var gate := ServerGate(w, spec, plan);
    ServerGateOpensExactly(w, spec, plan);
    if gate.go {
      var log := gate.w.log + [ServerWrite];
      assert log[|gate.w.log|..] == [ServerWrite];
      AddedEvents(w.log, gate.w.log, log, ServerWrite);
      AddedEvents(w.log, gate.w.log, log, DashboardWrite);
    }
  }

  /** Every call of the database part comes back well. */
  predicate Smooth(plan: DbPlan) {
    && plan.failing == {} && plan.referenced.Some? && plan.lookupOk && plan.generated.Some? && plan.secret.Applied?
    && plan.certificateOk && plan.workload.Applied?
  }

  predicate SmoothPlan(plan: Plan) {
    && Undisturbed(plan) && plan.gap1 == [] && plan.gap2 == []
    && plan.clearOk && plan.certManager && plan.issuerOk
    && Smooth(plan.timeSeries) && Smooth(plan.search)
  }

  /** An external database comes with credentials and with the certificate that its TLS needs. */
  predicate Usable(spec: Spec, db: Db) {
    DbEnabled(spec, db) && External(spec, db) ==>
      var block := BlockOf(spec, db).value;
      (block.secretRef != "" || block.username != "") && !CertificateMissing(block.tls)
  }

  function ReadyCount(w: World, workload: Workload): nat {
    if workload in w.sets then w.sets[workload].ready else 0
  }

  ghost predicate SameElsewhere(w: World, w': World, db: Db) {
    && (forall other :: other != Database(db) ==> (other in w.sets <==> other in w'.sets))
    && (forall other :: other != Database(db) && other in w.sets ==> w'.sets[other] == w.sets[other])
  }

  /** The workload asks for one replica and reports the readiness it had before. */
  predicate Rewritten(w: World, w': World, workload: Workload) {
    workload in w'.sets && w'.sets[workload] == StatefulSet(Some(1), ReadyCount(w, workload))
  }

  lemma {:induction false} DeletesFinish(w: World, db: Db, kinds: seq<Kind>)
    ensures var step := DeleteObjects(w, db, kinds, {}); step.go && SameElsewhere(w, step.w, db)
    decreases |kinds|
  {
    if kinds != [] {
      DeletesFinish(DeleteObject(w, db, kinds[0]), db, kinds[1..]);
    }
  }

  lemma CleanUpFinishes(w: World, spec: Spec, db: Db, plan: DbPlan)
    requires Smooth(plan)
    ensures var step := CleanUp(w, spec, db, plan); step.go && SameElsewhere(w, step.w, db)
  {
    DeletesFinish(w, db, ObjectsToDelete(Retains(w.classes, WantedClass(BlockOf(spec, db)), plan.reading)));
  }

  lemma EnsureAuthFinishes(w: World, uid: nat, db: Db, block: DbBlock, plan: DbPlan)
    requires Smooth(plan)
    ensures var step := EnsureAuth(w, uid, db, block, plan); step.go && step.w.sets == w.sets
  {
  }

  lemma DbStageFinishes(w: World, uid: nat, spec: Spec, db: Db, plan: DbPlan)
    requires Smooth(plan)
    ensures var step := DbStage(w, uid, spec, db, plan);
            && (step.go <==> Usable(spec, db))
            && SameElsewhere(w, step.w, db)
            && (Internal(spec, db) ==> Rewritten(w, step.w, Database(db)))
  {
    if Internal(spec, db) {
      EnsureAuthFinishes(w, uid, db, BlockOf(spec, db).value, plan);
    } else {
      CleanUpFinishes(w, spec, db, plan);
      if DbEnabled(spec, db) {
        EnsureAuthFinishes(CleanUp(w, spec, db, plan).w, uid, db, BlockOf(spec, db).value, plan);
      }
    }
  }

  lemma DatabasesFinish(w: World, platform: Platform, plan: Plan)
    requires SmoothPlan(plan)
    ensures var step := Databases(w, platform, plan); var spec := platform.spec;
            && (step.go <==> Usable(spec, TimeSeries) && Usable(spec, Search))
            && (step.go ==> forall db :: ReadyNow(step.w, spec, Database(db)) <==>
                                           (Internal(spec, db) ==> ReadyCount(w, Database(db)) == 1))
  {
    DbStageFinishes(w, platform.uid, platform.spec, TimeSeries, plan.timeSeries);
    var ts := DbStage(w, platform.uid, platform.spec, TimeSeries, plan.timeSeries);
    DbStageFinishes(ts.w, platform.uid, platform.spec, Search, plan.search);
  }

  lemma DashboardStageAdds(w: World, spec: Spec, plan: Plan)
    ensures var log := DashboardStage(w, spec, plan).log;
            w.log <= log && ServerWrite !in log[|w.log|..]
  {
    if BlockEnabled(spec.dashboard) {
      MovesAreSilent(w, plan.gap6);
      MovesAreSilent(Check(Interfere(w, plan.gap6), spec, ServerWorkload, plan.serverCheck).w, plan.gap7);
    }
  }

  /** What the gates and the writes behind them add to the record. */
  lemma WorkloadsWrite(w: World, spec: Spec, plan: Plan)
    requires SmoothPlan(plan)
    ensures var log := Workloads(w, spec, plan).log;
            && w.log <= log
            && (ServerWrite in log[|w.log|..] <==>
                  BlockEnabled(spec.server) && forall db :: ReadyNow(w, spec, Database(db)))
  {
    var server := ServerStage(w, spec, plan);
    if BlockEnabled(spec.server) {
      ServerGateIsExact(w, spec, plan);
    }
    if server.go {
      DashboardStageAdds(server.w, spec, plan);
      AddedEvents(w.log, server.w.log, DashboardStage(server.w, spec, plan).log, ServerWrite);
    }
  }

  /** A reconcile whose calls all work, with nothing happening in between, writes the Server exactly when
      it is asked for, both databases can be used, and each internal one has one ready replica: the count
      that the controller has just set, whatever replica count the workload had before. */
  lemma ServerWrittenExactly(w: World, plan: Plan)
    requires w.cr.Some? && w.cr.value.finalizer && !w.cr.value.deleting && SmoothPlan(plan)
    ensures var spec := w.cr.value.spec; var log := Reconcile(w, plan).log;
            && w.log <= log
            && (ServerWrite in log[|w.log|..] <==>
                  && !spec.pause && BlockEnabled(spec.server)
                  && Usable(spec, TimeSeries) && Usable(spec, Search)
                  && forall db :: Internal(spec, db) ==> ReadyCount(w, Database(db)) == 1)
  {
    var platform := w.cr.value;
    var spec := platform.spec;
    var began := w.(log := w.log + [Began(spec)]);
    assert began.log[|w.log|..] == [Began(spec)];
    if !Held(spec, plan) {
      DatabasesAreSilent(began, platform, plan);
      DatabasesFinish(began, platform, plan);
      var databases := Databases(began, platform, plan);
      if databases.go {
        WorkloadsWrite(databases.w, spec, plan);
        AddedEvents(w.log, began.log, Workloads(databases.w, spec, plan).log, ServerWrite);
      }
    }
  }

  // ---------------------------------------------------------------- the Dashboard

  /** The Server's part adds no Dashboard write, and leaves the Server's readiness to be read. */
  lemma ServerStageFinishes(w: World, spec: Spec, plan: Plan)
    requires SmoothPlan(plan) && plan.server.Applied?
    ensures var server := ServerStage(w, spec, plan);
            && w.log <= server.w.log && DashboardWrite !in server.w.log[|w.log|..]
            && (server.go <==> (BlockEnabled(spec.server) ==> forall db :: ReadyNow(w, spec, Database(db))))
            && (server.go && BlockEnabled(spec.server) ==> Rewritten(w, server.w, ServerWorkload))
  {
    if BlockEnabled(spec.server) {
      ServerGateOpensExactly(w, spec, plan);
      ServerGateIsExact(w, spec, plan);
    }
  }

  lemma DashboardStageIsExact(w: World, spec: Spec, plan: Plan)
    requires Undisturbed(plan)
    ensures var w' := DashboardStage(w, spec, plan);
            && w.log <= w'.log
            && (DashboardWrite in w'.log[|w.log|..] <==>
                  BlockEnabled(spec.dashboard) && ReadyNow(w, spec, ServerWorkload))
  {
    CheckIsExact(w, spec, ServerWorkload);
    if BlockEnabled(spec.dashboard) && ReadyNow(w, spec, ServerWorkload) {
      var server := Check(w, spec, ServerWorkload, true);
      assert DashboardStage(w, spec, plan).log[|server.w.log|] == DashboardWrite;
    }
  }

  lemma WorkloadsWriteDashboard(w: World, spec: Spec, plan: Plan)
    requires SmoothPlan(plan) && plan.server.Applied?
    ensures var log := Workloads(w, spec, plan).log;
            && w.log <= log
            && (DashboardWrite in log[|w.log|..] <==>
                  && BlockEnabled(spec.dashboard)
                  && (BlockEnabled(spec.server) ==>
                        ReadyCount(w, ServerWorkload) == 1 && forall db :: ReadyNow(w, spec, Database(db))))
  {
    var server := ServerStage(w, spec, plan);
    ServerStageFinishes(w, spec, plan);
    if server.go {
      DashboardStageIsExact(server.w, spec, plan);
      AddedEvents(w.log, server.w.log, DashboardStage(server.w, spec, plan).log, DashboardWrite);
    }
  }

  lemma DatabasesLeaveServer(w: World, platform: Platform, plan: Plan)
    requires SmoothPlan(plan)
    ensures ReadyCount(Databases(w, platform, plan).w, ServerWorkload) == ReadyCount(w, ServerWorkload)
  {
    DbStageFinishes(w, platform.uid, platform.spec, TimeSeries, plan.timeSeries);
    var ts := DbStage(w, platform.uid, platform.spec, TimeSeries, plan.timeSeries);
    DbStageFinishes(ts.w, platform.uid, platform.spec, Search, plan.search);
  }

  /** A reconcile whose calls all work, with nothing happening in between, writes the Dashboard exactly
      when it is asked for, both databases can be used, and either the Server is off, which it may be only
      without internal databases, or the Server and each internal database have one ready replica. */
  lemma DashboardWrittenExactly(w: World, plan: Plan)
    requires w.cr.Some? && w.cr.value.finalizer && !w.cr.value.deleting
    requires SmoothPlan(plan) && plan.server.Applied?
    ensures var spec := w.cr.value.spec; var log := Reconcile(w, plan).log;
            && w.log <= log
            && (DashboardWrite in log[|w.log|..] <==>
                  && !spec.pause && BlockEnabled(spec.dashboard)
                  && Usable(spec, TimeSeries) && Usable(spec, Search)
                  && (if BlockEnabled(spec.server)
                      then ReadyCount(w, ServerWorkload) == 1
                           && forall db :: Internal(spec, db) ==> ReadyCount(w, Database(db)) == 1
                      else forall db :: !Internal(spec, db)))
  {
    var platform := w.cr.value;
    var spec := platform.spec;
    var began := w.(log := w.log + [Began(spec)]);
    assert began.log[|w.log|..] == [Began(spec)];
    assert (forall db :: !Internal(spec, db)) <==> !Internal(spec, TimeSeries) && !Internal(spec, Search);
    if !Held(spec, plan) {
      DatabasesAreSilent(began, platform, plan);
      DatabasesFinish(began, platform, plan);
      DatabasesLeaveServer(began, platform, plan);
      var databases := Databases(began, platform, plan);
      if databases.go {
        WorkloadsWriteDashboard(databases.w, spec, plan);
        AddedEvents(w.log, began.log, Workloads(databases.w, spec, plan).log, DashboardWrite);
      }
    }
  }
}

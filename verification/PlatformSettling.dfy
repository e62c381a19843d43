/** What a reconcile of the platform leaves running, and what it stores in new secrets. */
module PlatformSettling {
  import opened Options
  import opened PlatformController
  import opened PlatformStartup

  // ---------------------------------------------------------------- clean-up

  lemma {:induction false} DeletesReachSet(w: World, db: Db, kinds: seq<Kind>, failing: set<Kind>)
    ensures var w' := DeleteObjects(w, db, kinds, failing).w;
            && SameElsewhere(w, w', db) && w'.dashboard == w.dashboard && w'.cr == w.cr
            && (Database(db) in w'.sets ==> Database(db) in w.sets && w'.sets[Database(db)] == w.sets[Database(db)])
    decreases |kinds|
  {
    if kinds != [] && kinds[0] !in failing {
      DeletesReachSet(DeleteObject(w, db, kinds[0]), db, kinds[1..], failing);
    }
  }

  /** Disabling a database, or moving it outside, stops its workload if and only if the deletion of its
      StatefulSet, the first of all, does not fail; no other workload is touched. */
  lemma CleanUpStopsExactly(w: World, spec: Spec, db: Db, plan: DbPlan)
    ensures var w' := CleanUp(w, spec, db, plan).w;
            && (Database(db) !in w'.sets <==> Database(db) !in w.sets || SetObject !in plan.failing)
            && SameElsewhere(w, w', db) && w'.dashboard == w.dashboard
  {
    var kinds := ObjectsToDelete(Retains(w.classes, WantedClass(BlockOf(spec, db)), plan.reading));
    assert kinds[0] == SetObject;
    DeletesReachSet(w, db, kinds, plan.failing);
    if SetObject !in plan.failing {
      DeletesReachSet(DeleteObject(w, db, SetObject), db, kinds[1..], plan.failing);
    }
  }

  // ---------------------------------------------------------------- a smooth reconcile

  lemma EnsureAuthLeavesWorkloads(w: World, uid: nat, db: Db, block: DbBlock, plan: DbPlan)
    ensures var w' := EnsureAuth(w, uid, db, block, plan).w; w'.sets == w.sets && w'.dashboard == w.dashboard
  {
  }

  /** The workload runs, with one replica wanted, exactly for an internal database. */
  predicate Settled(w: World, spec: Spec, db: Db) {
    && (Database(db) in w.sets <==> Internal(spec, db))
    && (Internal(spec, db) ==> w.sets[Database(db)].replicas == Some(1))
  }

  lemma DbStageSettles(w: World, uid: nat, spec: Spec, db: Db, plan: DbPlan)
    requires Smooth(plan)
    ensures var step := DbStage(w, uid, spec, db, plan);
            && Settled(step.w, spec, db) && SameElsewhere(w, step.w, db) && step.w.dashboard == w.dashboard
  {
    DbStageFinishes(w, uid, spec, db, plan);
    if Internal(spec, db) {
      EnsureAuthLeavesWorkloads(w, uid, db, BlockOf(spec, db).value, plan);
    } else {
      CleanUpStopsExactly(w, spec, db, plan);
      if DbEnabled(spec, db) {
        EnsureAuthLeavesWorkloads(CleanUp(w, spec, db, plan).w, uid, db, BlockOf(spec, db).value, plan);
      }
    }
  }

  lemma DatabasesSettle(w: World, platform: Platform, plan: Plan)
    requires SmoothPlan(plan)
    ensures var step := Databases(w, platform, plan); var spec := platform.spec;
            && (step.go ==> Settled(step.w, spec, TimeSeries) && Settled(step.w, spec, Search))
            && (ServerWorkload in step.w.sets <==> ServerWorkload in w.sets)
            && step.w.dashboard == w.dashboard
  {
    DbStageSettles(w, platform.uid, platform.spec, TimeSeries, plan.timeSeries);
    var ts := DbStage(w, platform.uid, platform.spec, TimeSeries, plan.timeSeries);
    DbStageSettles(ts.w, platform.uid, platform.spec, Search, plan.search);
  }

  predicate ServerWaits(w: World, spec: Spec) {
    BlockEnabled(spec.server) && exists db :: !ReadyNow(w, spec, Database(db))
  }

  lemma ServerStageSettles(w: World, spec: Spec, plan: Plan)
    requires SmoothPlan(plan) && plan.server.Applied?
    ensures var step := ServerStage(w, spec, plan);
            && (step.go <==> !ServerWaits(w, spec))
            && (forall db :: Settled(w, spec, db) ==> Settled(step.w, spec, db))
            && (step.go ==> (ServerWorkload in step.w.sets <==> BlockEnabled(spec.server)))
            && (step.go && BlockEnabled(spec.server) ==> step.w.sets[ServerWorkload].replicas == Some(1))
            && (!step.go ==> step.w.sets == w.sets) && step.w.dashboard == w.dashboard
  {
    ServerGateOpensExactly(w, spec, plan);
    assert ServerWaits(w, spec) <==> BlockEnabled(spec.server) && !(forall db :: ReadyNow(w, spec, Database(db)));
  }

  lemma DashboardStageSettles(w: World, spec: Spec, plan: Plan)
    requires SmoothPlan(plan) && plan.dashboard.Applied?
    ensures var w' := DashboardStage(w, spec, plan);
            && w'.sets == w.sets
            && (w'.dashboard <==> BlockEnabled(spec.dashboard) && (w.dashboard || ReadyNow(w, spec, ServerWorkload)))
  {
    CheckIsExact(w, spec, ServerWorkload);
  }

  lemma WorkloadsSettle(w: World, spec: Spec, plan: Plan)
    requires SmoothPlan(plan) && plan.server.Applied? && plan.dashboard.Applied?
    ensures var w' := Workloads(w, spec, plan);
            && (forall db :: Settled(w, spec, db) ==> Settled(w', spec, db))
            && (!ServerWaits(w, spec) ==> (ServerWorkload in w'.sets <==> BlockEnabled(spec.server)))
            && (ServerWaits(w, spec) ==> w'.sets == w.sets && w'.dashboard == w.dashboard)
            && (!ServerWaits(w, spec) && !BlockEnabled(spec.dashboard) ==> !w'.dashboard)
            && (!ServerWaits(w, spec) && BlockEnabled(spec.dashboard) ==>
                  (w'.dashboard <==> w.dashboard || (BlockEnabled(spec.server) ==> ReadyCount(w, ServerWorkload) == 1)))
  {
    var server := ServerStage(w, spec, plan);
    ServerStageSettles(w, spec, plan);
    ServerStageFinishes(w, spec, plan);
    if server.go {
      DashboardStageSettles(server.w, spec, plan);
    }
  }

  /** A reconcile whose calls all work, with nothing happening in between, and that is not held back, leaves
      running what the spec asks for: a database's workload exactly if it is enabled and internal; the Server
      exactly if it is enabled, and the Dashboard only if it is, once the Server does not wait for a database.
      While it waits, Server and Dashboard stay as they were. */
  lemma SmoothReconcileSettles(w: World, plan: Plan)
    requires w.cr.Some? && w.cr.value.finalizer && !w.cr.value.deleting
    requires SmoothPlan(plan) && plan.server.Applied? && plan.dashboard.Applied?
    requires var spec := w.cr.value.spec; !Held(spec, plan) && Usable(spec, TimeSeries) && Usable(spec, Search)
    ensures var spec := w.cr.value.spec; var w' := Reconcile(w, plan);
            var waits := BlockEnabled(spec.server)
                         && exists db :: Internal(spec, db) && ReadyCount(w, Database(db)) != 1;
            && Settled(w', spec, TimeSeries) && Settled(w', spec, Search)
            && (!waits ==> (ServerWorkload in w'.sets <==> BlockEnabled(spec.server)))
            && (waits ==> (ServerWorkload in w'.sets <==> ServerWorkload in w.sets) && w'.dashboard == w.dashboard)
            && (!waits && !BlockEnabled(spec.dashboard) ==> !w'.dashboard)
            && (!waits && BlockEnabled(spec.dashboard) ==>
                  (w'.dashboard <==> w.dashboard || (BlockEnabled(spec.server) ==> ReadyCount(w, ServerWorkload) == 1)))
  {
    var platform := w.cr.value;
    var began := w.(log := w.log + [Began(platform.spec)]);
    DatabasesFinish(began, platform, plan);
    DatabasesSettle(began, platform, plan);
    DatabasesLeaveServer(began, platform, plan);
    WorkloadsSettle(Databases(began, platform, plan).w, platform.spec, plan);
  }

  /** A reconcile touches no workload and no secret while the resource is paused, while an internal database is
      enabled without a Server, or while one needs certificates and cert-manager or the default issuer is not
      there. The default issuer does not matter to a resource that names its own. */
  lemma HeldTouchesNothing(w: World, plan: Plan, issuerOk: bool)
    requires w.cr.Some? && w.cr.value.finalizer && !w.cr.value.deleting
    ensures var spec := w.cr.value.spec; var w' := Reconcile(w, plan);
            var anyInternal := Internal(spec, TimeSeries) || Internal(spec, Search);
            && (spec.pause
                || (anyInternal && !BlockEnabled(spec.server))
                || (anyInternal && !plan.certManager)
                || (anyInternal && spec.issuerName == "" && !plan.issuerOk) ==>
                  w'.sets == w.sets && w'.auth == w.auth && w'.dashboard == w.dashboard && w'.cr == w.cr)
            && (spec.issuerName != "" ==> Reconcile(w, plan.(issuerOk := issuerOk)) == w')
  {
    var platform := w.cr.value;
    var began := w.(log := w.log + [Began(platform.spec)]);
    if platform.spec.issuerName != "" {
      IssuerIsIgnored(began, platform, plan, issuerOk);
    }
  }

  lemma IssuerIsIgnored(w: World, platform: Platform, plan: Plan, issuerOk: bool)
    ensures var plan' := plan.(issuerOk := issuerOk);
            && Databases(w, platform, plan') == Databases(w, platform, plan)
            && forall w1: World :: Workloads(w1, platform.spec, plan') == Workloads(w1, platform.spec, plan)
  {
  }

  /** A database, Server or Dashboard block without the switch counts as enabled; hosts make a database external,
      enabled or not. */
  lemma UnsetMeansEnabled(spec: Spec, block: DbBlock, db: Db)
    requires BlockOf(spec, db) == Some(block)
    ensures Internal(spec, db) <==> (block.enabled == None || block.enabled == Some(true)) && block.hosts == []
    ensures DbEnabled(spec, db) && External(spec, db)
       <==> (block.enabled == None || block.enabled == Some(true)) && block.hosts != []
    ensures BlockEnabled(Some(Block(None))) && BlockEnabled(Some(Block(Some(true))))
    ensures !BlockEnabled(Some(Block(Some(false)))) && !BlockEnabled(None)
  {
    match block.enabled {
      case None =>
      case Some(on) =>
        if on {
          assert block.enabled == Some(true);
        } else {
          assert block.enabled == Some(false);
        }
    }
  }

  /** An external database without credentials, or whose TLS is to be verified without a certificate, stops the
      reconcile before any secret is written; nothing else stops it as long as the calls work. */
  lemma ExternalNeedsCredentialsAndCertificate(w: World, uid: nat, spec: Spec, db: Db, plan: DbPlan)
    requires DbEnabled(spec, db) && External(spec, db)
    ensures var step := DbStage(w, uid, spec, db, plan); var b := BlockOf(spec, db).value;
            var lacking := (b.secretRef == "" && b.username == "")
                           || (b.tls.enabled && !b.tls.insecureSkipVerify && b.tls.certSecretRef == "");
            && (lacking ==> !step.go && step.w == CleanUp(w, spec, db, plan).w)
            && (Smooth(plan) ==> (step.go <==> !lacking))
  {
    if Smooth(plan) {
      DbStageFinishes(w, uid, spec, db, plan);
    }
  }

  // ---------------------------------------------------------------- what secrets hold

  /** After a successful step without a referenced secret there is a managed one, and inline credentials win in
      it; stored ones fill the gaps, and in a new secret the default user name and the random password do. */
  lemma SecretHolds(w: World, uid: nat, db: Db, block: DbBlock, plan: DbPlan)
    requires block.secretRef == "" && EnsureAuth(w, uid, db, block, plan).go
    ensures var w' := EnsureAuth(w, uid, db, block, plan).w;
            && db in w'.auth
            && (block.username != "" ==> w'.auth[db].data.username == block.username)
            && (block.password != "" ==> w'.auth[db].data.password == block.password)
            && (db in w.auth && block.username == "" ==> w'.auth[db].data.username == w.auth[db].data.username)
            && (db in w.auth && block.password == "" ==> w'.auth[db].data.password == w.auth[db].data.password)
            && (db !in w.auth && block.username == "" ==> w'.auth[db].data.username == "axonops")
            && (db !in w.auth && block.password == "" ==> plan.generated == Some(w'.auth[db].data.password))
            && (forall other :: other != db ==> (other in w'.auth <==> other in w.auth))
            && (forall other :: other != db && other in w.auth ==> w'.auth[other] == w.auth[other])
  {
  }

  predicate HasCredentials(w: World, db: Db, block: DbBlock, plan: DbPlan) {
    db in w.auth || block.password != "" || plan.generated.Some?
  }

  /** A referenced secret is only looked at. Otherwise the step succeeds if and only if the lookup does, and
      the stored secret is kept or there is a password to write and the write succeeds; and a step that does not
      get as far as the write leaves everything as it was. */
  lemma EnsureAuthSucceedsExactly(w: World, uid: nat, db: Db, block: DbBlock, plan: DbPlan)
    ensures var step := EnsureAuth(w, uid, db, block, plan);
            var kept := db in w.auth && block.username == "" && block.password == "";
            && (block.secretRef != "" ==> step == Step(w, plan.referenced.Some?))
            && (block.secretRef == "" ==>
                  (step.go <==>
                     plan.lookupOk && (kept || (HasCredentials(w, db, block, plan) && plan.secret.Applied?))))
            && (step.w != w ==> block.secretRef == "" && plan.lookupOk && !kept && !plan.secret.Failed?)
  {
  }

  /** The workload of an internal database is written last: only when its credentials and its certificate are
      there, whatever fails. */
  lemma WorkloadComesLast(w: World, uid: nat, spec: Spec, db: Db, plan: DbPlan)
    requires Internal(spec, db)
    ensures var step := DbStage(w, uid, spec, db, plan);
            var ready := EnsureAuth(w, uid, db, BlockOf(spec, db).value, plan).go && plan.certificateOk;
            && (step.go <==> ready && plan.workload.Applied?)
            && (!ready || plan.workload.Failed? ==> step.w.sets == w.sets)
            && (ready && !plan.workload.Failed? ==> Rewritten(w, step.w, Database(db)))
  {
    EnsureAuthLeavesWorkloads(w, uid, db, BlockOf(spec, db).value, plan);
  }

  /** Nothing is written for a resource without its finalizer: if that cannot be stored, the reconcile ends; if
      it is, the reconcile goes on as if it had been there before. */
  lemma FinalizerComesFirst(w: World, plan: Plan)
    requires w.cr.Some? && !w.cr.value.finalizer && !w.cr.value.deleting && plan.gap0 == []
    ensures var held := w.(cr := Some(w.cr.value.(finalizer := true)));
            && (!plan.finalizerOk ==> Reconcile(w, plan) == w)
            && (plan.finalizerOk && !plan.refetchOk ==> Reconcile(w, plan) == held)
            && (plan.finalizerOk && plan.refetchOk ==> Reconcile(w, plan) == Reconcile(held, plan))
  {
  }

  // ---------------------------------------------------------------- retention

  ghost predicate FirstDefault(classes: seq<StorageClass>, d: nat) {
    d < |classes| && classes[d].isDefault && forall j :: 0 <= j < d ==> !classes[j].isDefault
  }

  ghost predicate FirstNamed(classes: seq<StorageClass>, i: nat, name: string) {
    i < |classes| && classes[i].name == name && forall j :: 0 <= j < i ==> classes[j].name != name
  }

  lemma {:induction false} DefaultClassIsFirst(classes: seq<StorageClass>)
    ensures forall d: nat :: FirstDefault(classes, d) ==> DefaultClass(classes) == classes[d].name
    ensures (forall d: nat :: !FirstDefault(classes, d)) ==> DefaultClass(classes) == ""
  {
    if classes != [] {
      DefaultClassIsFirst(classes[1..]);
      if classes[0].isDefault {
        assert FirstDefault(classes, 0);
      } else {
        forall d: nat | d > 0 ensures FirstDefault(classes, d) <==> FirstDefault(classes[1..], d - 1) {
          assert forall j :: 1 <= j < |classes| ==> classes[1..][j - 1] == classes[j];
        }
        forall d: nat | FirstDefault(classes[1..], d) ensures FirstDefault(classes, d + 1) {
        }
      }
    }
  }

  lemma {:induction false} FindClassIsFirst(classes: seq<StorageClass>, name: string)
    ensures forall i: nat :: FirstNamed(classes, i, name) ==> FindClass(classes, name) == Some(classes[i])
    ensures (forall i: nat :: !FirstNamed(classes, i, name)) ==> FindClass(classes, name) == None
  {
    if classes != [] {
      FindClassIsFirst(classes[1..], name);
      if classes[0].name == name {
        assert FirstNamed(classes, 0, name);
      } else {
        forall i: nat | i > 0 ensures FirstNamed(classes, i, name) <==> FirstNamed(classes[1..], i - 1, name) {
          assert forall j :: 1 <= j < |classes| ==> classes[1..][j - 1] == classes[j];
        }
        forall i: nat | FirstNamed(classes[1..], i, name) ensures FirstNamed(classes, i + 1, name) {
        }
      }
    }
  }

  /** Credentials asked to be kept by a named class are retained if and only if the class can be read, exists and
      has the policy Retain. */
  lemma NamedClassDecides(classes: seq<StorageClass>, name: string, reading: Reading)
    requires name != ""
    ensures Retains(classes, name, reading) <==>
            reading.get && exists i: nat :: FirstNamed(classes, i, name) && classes[i].retain
  {
    FindClassIsFirst(classes, name);
    if exists i: nat :: FirstNamed(classes, i, name) && classes[i].retain {
      var i: nat :| FirstNamed(classes, i, name) && classes[i].retain;
    }
  }

  /** Without a name the first default class decides, if the classes can be listed. */
  lemma DefaultClassDecides(classes: seq<StorageClass>, reading: Reading)
    ensures Retains(classes, "", reading) <==>
            && reading.list
            && exists d: nat :: FirstDefault(classes, d) && classes[d].name != ""
                                && Retains(classes, classes[d].name, reading)
  {
    DefaultClassIsFirst(classes);
    if exists d: nat ::
         FirstDefault(classes, d) && classes[d].name != "" && Retains(classes, classes[d].name, reading) {
      var d: nat :| FirstDefault(classes, d) && classes[d].name != "" && Retains(classes, classes[d].name, reading);
    }
  }
}

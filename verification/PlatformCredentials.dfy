/** Credentials of a database stay the same across disabling, enabling, switching, deleting and
    re-creating the platform, as long as its storage class retains volumes; and exactly when a single
    step of the controller changes or loses them. */
module PlatformCredentials {
  import opened Options
  import opened PlatformController

  // ---------------------------------------------------------------- runs that keep to the conditions

  /** The block is in the spec, asks for one of the `names` and carries no inline credentials. */
  predicate SteadySpec(spec: Spec, db: Db, names: set<string>) {
    var block := BlockOf(spec, db);
    block.Some? && WantedClass(block) in names && block.value.username == "" && block.value.password == ""
  }

  predicate AllRetain(classes: seq<StorageClass>, names: set<string>) {
    forall name :: name in names ==> PolicyRetains(classes, name)
  }

  predicate SteadyMove(m: Move, db: Db, names: set<string>) {
    match m
    case Create(spec) => SteadySpec(spec, db, names)
    case Edit(spec) => SteadySpec(spec, db, names)
    case SetClasses(classes) => AllRetain(classes, names)
    case _ => true
  }

  predicate SteadyMoves(moves: seq<Move>, db: Db, names: set<string>)
    decreases |moves|
  {
    moves != [] ==> SteadyMove(moves[0], db, names) && SteadyMoves(moves[1..], db, names)
  }

  predicate Readable(reading: Reading) {
    reading.list && reading.get
  }

  function PlanOf(plan: Plan, db: Db): DbPlan {
    if db.TimeSeries? then plan.timeSeries else plan.search
  }

  function DeletePlanOf(plan: Plan, db: Db): DeletePlan {
    if db.TimeSeries? then plan.deleteTimeSeries else plan.deleteSearch
  }

  /** Storage classes can be read; any other call of the reconcile may fail. */
  predicate SteadyPlan(plan: Plan, db: Db, names: set<string>) {
    && Readable(PlanOf(plan, db).reading) && Readable(DeletePlanOf(plan, db).reading)
    && SteadyMoves(plan.gap0, db, names) && SteadyMoves(plan.gap1, db, names)
    && SteadyMoves(plan.gap2, db, names) && SteadyMoves(plan.gap3, db, names)
    && SteadyMoves(plan.gap4, db, names) && SteadyMoves(plan.gap5, db, names)
    && SteadyMoves(plan.gap6, db, names) && SteadyMoves(plan.gap7, db, names)
  }

  predicate SteadyTurn(turn: Turn, db: Db, names: set<string>) {
    match turn
    case Outside(m) => SteadyMove(m, db, names)
    case Reconciled(plan) => SteadyPlan(plan, db, names)
  }

  predicate SteadyRun(turns: seq<Turn>, db: Db, names: set<string>)
    decreases |turns|
  {
    turns != [] ==> SteadyTurn(turns[0], db, names) && SteadyRun(turns[1..], db, names)
  }

  /** The secret, if there is one, is nobody's to collect. */
  predicate Settled(w: World, db: Db, names: set<string>) {
    && AllRetain(w.classes, names)
    && (w.cr.Some? ==> SteadySpec(w.cr.value.spec, db, names))
    && (db in w.auth ==> w.auth[db].owner.None?)
  }

  predicate Kept(w: World, w': World, db: Db) {
    db in w.auth ==> db in w'.auth && w'.auth[db] == w.auth[db]
  }

  // ---------------------------------------------------------------- every step keeps the secret

  lemma MoveKeeps(w: World, m: Move, db: Db, names: set<string>)
    requires Settled(w, db, names) && SteadyMove(m, db, names)
    ensures Settled(Apply(w, m), db, names) && Kept(w, Apply(w, m), db)
  {
    if m.CollectGarbage? && db in w.auth {
      assert !Orphaned(w, w.auth[db]);
    }
  }

  lemma {:induction false} MovesKeep(w: World, moves: seq<Move>, db: Db, names: set<string>)
    requires Settled(w, db, names) && SteadyMoves(moves, db, names)
    ensures Settled(Interfere(w, moves), db, names) && Kept(w, Interfere(w, moves), db)
    decreases |moves|
  {
    if moves != [] {
      MoveKeeps(w, moves[0], db, names);
      MovesKeep(Apply(w, moves[0]), moves[1..], db, names);
    }
  }

  lemma SteadyRetains(w: World, spec: Spec, db: Db, names: set<string>, reading: Reading)
    requires AllRetain(w.classes, names) && SteadySpec(spec, db, names) && Readable(reading)
    ensures Retains(w.classes, WantedClass(BlockOf(spec, db)), reading)
  {
    assert WantedClass(BlockOf(spec, db)) in names;
  }

  lemma {:induction false} DeletesTouch(w: World, other: Db, kinds: seq<Kind>, failing: set<Kind>, db: Db)
    requires db != other || AuthSecret !in kinds
    ensures var w' := DeleteObjects(w, other, kinds, failing).w;
            w'.cr == w.cr && w'.classes == w.classes
            && (db in w'.auth <==> db in w.auth) && (db in w.auth ==> w'.auth[db] == w.auth[db])
    decreases |kinds|
  {
    if kinds != [] && kinds[0] !in failing {
      DeletesTouch(DeleteObject(w, other, kinds[0]), other, kinds[1..], failing, db);
    }
  }

  lemma CleanUpKeeps(w: World, spec: Spec, other: Db, plan: DbPlan, db: Db, names: set<string>)
    requires Settled(w, db, names) && SteadySpec(spec, db, names)
    requires other == db ==> Readable(plan.reading)
    ensures var w' := CleanUp(w, spec, other, plan).w; Settled(w', db, names) && Kept(w, w', db)
  {
    if other == db {
      SteadyRetains(w, spec, db, names, plan.reading);
    }
    var retain := Retains(w.classes, WantedClass(BlockOf(spec, other)), plan.reading);
    DeletesTouch(w, other, ObjectsToDelete(retain), plan.failing, db);
  }

  lemma EnsureAuthKeeps(w: World, uid: nat, spec: Spec, other: Db, plan: DbPlan, db: Db, names: set<string>)
    requires Settled(w, db, names) && SteadySpec(spec, db, names) && BlockOf(spec, other).Some?
    requires other == db ==> Readable(plan.reading)
    ensures var w' := EnsureAuth(w, uid, other, BlockOf(spec, other).value, plan).w;
            Settled(w', db, names) && Kept(w, w', db)
  {
    if other == db {
      SteadyRetains(w, spec, db, names, plan.reading);
    }
  }

  lemma DbStageKeeps(w: World, uid: nat, spec: Spec, other: Db, plan: DbPlan, db: Db, names: set<string>)
    requires Settled(w, db, names) && SteadySpec(spec, db, names)
    requires other == db ==> Readable(plan.reading)
    ensures var w' := DbStage(w, uid, spec, other, plan).w; Settled(w', db, names) && Kept(w, w', db)
  {
    if Internal(spec, other) {
      EnsureAuthKeeps(w, uid, spec, other, plan, db, names);
    } else {
      CleanUpKeeps(w, spec, other, plan, db, names);
      var cleaned := CleanUp(w, spec, other, plan).w;
      if DbEnabled(spec, other) {
        EnsureAuthKeeps(cleaned, uid, spec, other, plan, db, names);
      }
    }
  }

  lemma DatabasesKeep(w: World, platform: Platform, plan: Plan, db: Db, names: set<string>)
    requires Settled(w, db, names) && SteadySpec(platform.spec, db, names) && SteadyPlan(plan, db, names)
    ensures var w' := Databases(w, platform, plan).w; Settled(w', db, names) && Kept(w, w', db)
  {
    var w1 := Interfere(w, plan.gap1);
    MovesKeep(w, plan.gap1, db, names);
    DbStageKeeps(w1, platform.uid, platform.spec, TimeSeries, plan.timeSeries, db, names);
    var ts := DbStage(w1, platform.uid, platform.spec, TimeSeries, plan.timeSeries);
    if ts.go {
      MovesKeep(ts.w, plan.gap2, db, names);
      DbStageKeeps(Interfere(ts.w, plan.gap2), platform.uid, platform.spec, Search, plan.search, db, names);
    }
  }

  lemma CheckKeeps(w: World, spec: Spec, workload: Workload, readOk: bool, db: Db, names: set<string>)
    requires Settled(w, db, names)
    ensures var w' := Check(w, spec, workload, readOk).w; Settled(w', db, names) && Kept(w, w', db)
  {
  }

  lemma ServerGateKeeps(w: World, spec: Spec, plan: Plan, db: Db, names: set<string>)
    requires Settled(w, db, names) && SteadyPlan(plan, db, names)
    ensures var w' := ServerGate(w, spec, plan).w; Settled(w', db, names) && Kept(w, w', db)
  {
    MovesKeep(w, plan.gap3, db, names);
    CheckKeeps(Interfere(w, plan.gap3), spec, Database(TimeSeries), plan.timeSeriesCheck, db, names);
    var ts := Check(Interfere(w, plan.gap3), spec, Database(TimeSeries), plan.timeSeriesCheck).w;
    MovesKeep(ts, plan.gap4, db, names);
    CheckKeeps(Interfere(ts, plan.gap4), spec, Database(Search), plan.searchCheck, db, names);
  }

  lemma ServerStageKeeps(w: World, spec: Spec, plan: Plan, db: Db, names: set<string>)
    requires Settled(w, db, names) && SteadyPlan(plan, db, names)
    ensures var w' := ServerStage(w, spec, plan).w; Settled(w', db, names) && Kept(w, w', db)
  {
    if BlockEnabled(spec.server) {
      ServerGateKeeps(w, spec, plan, db, names);
      MovesKeep(ServerGate(w, spec, plan).w, plan.gap5, db, names);
    }
  }

  lemma DashboardStageKeeps(w: World, spec: Spec, plan: Plan, db: Db, names: set<string>)
    requires Settled(w, db, names) && SteadyPlan(plan, db, names)
    ensures var w' := DashboardStage(w, spec, plan); Settled(w', db, names) && Kept(w, w', db)
  {
    if BlockEnabled(spec.dashboard) {
      MovesKeep(w, plan.gap6, db, names);
      MovesKeep(Check(Interfere(w, plan.gap6), spec, ServerWorkload, plan.serverCheck).w, plan.gap7, db, names);
    }
  }

  lemma ProvisionKeeps(w0: World, platform: Platform, plan: Plan, db: Db, names: set<string>)
    requires Settled(w0, db, names) && SteadySpec(platform.spec, db, names) && SteadyPlan(plan, db, names)
    ensures var w' := Provision(w0, platform, plan); Settled(w', db, names) && Kept(w0, w', db)
  {
    var w := w0.(log := w0.log + [Began(platform.spec)]);
    if !Held(platform.spec, plan) {
      DatabasesKeep(w, platform, plan, db, names);
      var databases := Databases(w, platform, plan);
      ServerStageKeeps(databases.w, platform.spec, plan, db, names);
      DashboardStageKeeps(ServerStage(databases.w, platform.spec, plan).w, platform.spec, plan, db, names);
    }
  }

  lemma {:induction false} DeleteCredentialsKeeps(
    w: World, spec: Spec, dbs: seq<Db>, plan: Plan, db: Db, names: set<string>)
    requires Settled(w, db, names) && SteadySpec(spec, db, names) && SteadyPlan(plan, db, names)
    ensures var w' := DeleteCredentials(w, spec, dbs, plan).w; Settled(w', db, names) && Kept(w, w', db)
    decreases |dbs|
  {
    if dbs != [] {
      if dbs[0] == db {
        SteadyRetains(w, spec, db, names, DeletePlanOf(plan, db).reading);
        DeleteCredentialsKeeps(w, spec, dbs[1..], plan, db, names);
      } else {
        DeleteCredentialsKeeps(w, spec, dbs[1..], plan, db, names);
        DeleteCredentialsKeeps(w.(auth := w.auth - {dbs[0]}), spec, dbs[1..], plan, db, names);
      }
    }
  }

  lemma ReconcileKeeps(w: World, plan: Plan, db: Db, names: set<string>)
    requires Settled(w, db, names) && SteadyPlan(plan, db, names)
    ensures Settled(Reconcile(w, plan), db, names) && Kept(w, Reconcile(w, plan), db)
  {
    if w.cr.Some? {
      var platform := w.cr.value;
      if platform.deleting {
        DeleteCredentialsKeeps(w, platform.spec, Components(platform.spec), plan, db, names);
      } else if platform.finalizer {
        ProvisionKeeps(w, platform, plan, db, names);
      } else {
        var added := w.(cr := Some(platform.(finalizer := true)));
        MovesKeep(added, plan.gap0, db, names);
        var held := Interfere(added, plan.gap0);
        if held.cr.Some? {
          ProvisionKeeps(held, held.cr.value, plan, db, names);
        }
      }
    }
  }

  // ---------------------------------------------------------------- whole runs

  lemma {:induction false} RunKeeps(w: World, turns: seq<Turn>, db: Db, names: set<string>)
    requires Settled(w, db, names) && SteadyRun(turns, db, names)
    ensures Settled(Run(w, turns), db, names) && Kept(w, Run(w, turns), db)
    decreases |turns|
  {
    if turns != [] {
      match turns[0] {
        case Outside(m) => MoveKeeps(w, m, db, names);
        case Reconciled(plan) => ReconcileKeeps(w, plan, db, names);
      }
      RunKeeps(Take(w, turns[0]), turns[1..], db, names);
    }
  }

  lemma {:induction false} RunSplits(w: World, before: seq<Turn>, after: seq<Turn>)
    ensures Run(w, before + after) == Run(Run(w, before), after)
    decreases |before|
  {
    if before == [] {
      assert before + after == after;
    } else {
      assert (before + after)[1..] == before[1..] + after;
      RunSplits(Take(w, before[0]), before[1..], after);
    }
  }

  /** From a cluster without the secret, in every steady run: once the secret exists, its data never
      changes, however the database is disabled, enabled, switched, deleted and created again after. */
  lemma CredentialStability(w: World, before: seq<Turn>, after: seq<Turn>, db: Db, names: set<string>)
    requires w.cr.None? && db !in w.auth && AllRetain(w.classes, names)
    requires SteadyRun(before, db, names) && SteadyRun(after, db, names)
    requires db in Run(w, before).auth
    ensures db in Run(w, before + after).auth
    ensures Run(w, before + after).auth[db].data == Run(w, before).auth[db].data
  {
    RunKeeps(w, before, db, names);
    RunKeeps(Run(w, before), after, db, names);
    RunSplits(w, before, after);
  }

  // ---------------------------------------------------------------- exactly when credentials move

  predicate Overrides(given: string, stored: string) {
    given != "" && given != stored
  }

  /** A stored secret is rewritten only for inline credentials that differ from it. */
  lemma EnsureAuthChangesExactly(w: World, uid: nat, db: Db, block: DbBlock, plan: DbPlan)
    requires db in w.auth && plan.lookupOk && !plan.secret.Failed?
    ensures var w' := EnsureAuth(w, uid, db, block, plan).w;
            && db in w'.auth
            && (w'.auth[db].data != w.auth[db].data <==>
                  && block.secretRef == ""
                  && (Overrides(block.username, w.auth[db].data.username)
                      || Overrides(block.password, w.auth[db].data.password)))
  {
  }

  /** Whether a new secret outlives the resource is settled by the policy at its creation; a later change
      of policy does not reach it unless inline credentials make the controller write it again. */
  lemma PolicyAtCreationDecides(w: World, uid: nat, db: Db, block: DbBlock, plan: DbPlan)
    requires block.secretRef == ""
    ensures var step := EnsureAuth(w, uid, db, block, plan);
            && (db !in w.auth && db in step.w.auth ==>
                  (step.w.auth[db].owner.None? <==> Retains(w.classes, WantedClass(Some(block)), plan.reading)))
            && (db in w.auth && block.username == "" && block.password == "" ==> step.w == w)
  {
  }

  /** Writing an existing secret, for inline credentials, brings its owner up to date: the resource owns it from
      then on if and only if the storage is not retained. An owner left behind by a deleted resource stays when
      it is retained, so garbage collection will still take it. */
  lemma InlineWriteUpdatesOwner(w: World, uid: nat, db: Db, block: DbBlock, plan: DbPlan)
    requires db in w.auth && block.secretRef == "" && (block.username != "" || block.password != "")
    requires plan.lookupOk && !plan.secret.Failed?
    ensures var retain := Retains(w.classes, WantedClass(Some(block)), plan.reading);
            var before := w.auth[db].owner; var w' := EnsureAuth(w, uid, db, block, plan).w;
            && db in w'.auth
            && (w'.auth[db].owner == Some(uid) <==> !retain)
            && (retain && (before.None? || before == Some(uid)) ==> w'.auth[db].owner.None?)
            && (retain && before.Some? && before != Some(uid) ==> w'.auth[db].owner == before)
  {
  }

  lemma {:induction false} DeletesReach(w: World, db: Db, kinds: seq<Kind>, failing: set<Kind>, k: nat)
    requires db in w.auth && k < |kinds| && kinds[k] == AuthSecret
    requires forall i :: 0 <= i < k ==> kinds[i] != AuthSecret
    ensures db !in DeleteObjects(w, db, kinds, failing).w.auth <==>
            forall i :: 0 <= i <= k ==> kinds[i] !in failing
    decreases |kinds|
  {
    if kinds[0] !in failing {
      var w1 := DeleteObject(w, db, kinds[0]);
      if k == 0 {
        DeletesShrink(w1, db, kinds[1..], failing);
      } else {
        DeletesReach(w1, db, kinds[1..], failing, k - 1);
        assert forall i :: 1 <= i <= k ==> kinds[1..][i - 1] == kinds[i];
        assert forall i :: 0 <= i <= k - 1 ==> kinds[1..][i] == kinds[i + 1];
      }
    }
  }

  lemma {:induction false} DeletesShrink(w: World, db: Db, kinds: seq<Kind>, failing: set<Kind>)
    ensures DeleteObjects(w, db, kinds, failing).w.auth.Keys <= w.auth.Keys
    decreases |kinds|
  {
    if kinds != [] && kinds[0] !in failing {
      DeletesShrink(DeleteObject(w, db, kinds[0]), db, kinds[1..], failing);
    }
  }

  /** Disabling a database, or moving it outside, loses the secret exactly when the storage is not
      retained and no earlier deletion of the clean-up fails. */
  lemma CleanUpLosesExactly(w: World, spec: Spec, db: Db, plan: DbPlan)
    requires db in w.auth
    ensures db !in CleanUp(w, spec, db, plan).w.auth <==>
            && !Retains(w.classes, WantedClass(BlockOf(spec, db)), plan.reading)
            && plan.failing !! {SetObject, HeadlessService, ClusterService, TLSSecret, AuthSecret}
  {
    var retain := Retains(w.classes, WantedClass(BlockOf(spec, db)), plan.reading);
    var kinds := ObjectsToDelete(retain);
    if retain {
      DeletesTouch(w, db, kinds, plan.failing, db);
    } else {
      DeletesReach(w, db, kinds, plan.failing, 4);
      assert kinds[0] == SetObject && kinds[1] == HeadlessService && kinds[2] == ClusterService
          && kinds[3] == TLSSecret && kinds[4] == AuthSecret;
    }
  }

  predicate DeletionSucceeds(plan: Plan) {
    && plan.tlsCleanupOk && plan.finalizerOk
    && plan.deleteTimeSeries.lookupOk && plan.deleteTimeSeries.deleteOk && plan.deleteTimeSeries.keystoreOk
    && plan.deleteSearch.lookupOk && plan.deleteSearch.deleteOk && plan.deleteSearch.keystoreOk
  }

  lemma {:induction false} DeleteCredentialsDrops(w: World, spec: Spec, dbs: seq<Db>, plan: Plan, db: Db)
    requires DeletionSucceeds(plan)
    ensures var step := DeleteCredentials(w, spec, dbs, plan);
            && step.go
            && (db in step.w.auth <==>
                  && db in w.auth
                  && (db !in dbs
                      || Retains(w.classes, WantedClass(BlockOf(spec, db)), DeletePlanOf(plan, db).reading)))
            && (db in step.w.auth ==> step.w.auth[db] == w.auth[db])
    decreases |dbs|
  {
    if dbs != [] {
      assert dbs == [dbs[0]] + dbs[1..];
      DeleteCredentialsDrops(w, spec, dbs[1..], plan, db);
      DeleteCredentialsDrops(w.(auth := w.auth - {dbs[0]}), spec, dbs[1..], plan, db);
    }
  }

  /** A deletion followed by garbage collection leaves a secret exactly when it has no owner and its block
      is either gone from the spec or on retained storage: retention alone does not save an owned one. */
  lemma DeletionSparesExactly(w: World, plan: Plan, db: Db)
    requires w.cr.Some? && w.cr.value.deleting && w.cr.value.finalizer && db in w.auth
    requires DeletionSucceeds(plan)
    ensures var w' := Run(w, [Reconciled(plan), Outside(CollectGarbage)]);
            var block := BlockOf(w.cr.value.spec, db);
            && w'.cr.None?
            && (db in w'.auth <==>
                  && w.auth[db].owner.None?
                  && (block.None? || Retains(w.classes, WantedClass(block), DeletePlanOf(plan, db).reading)))
            && (db in w'.auth ==> w'.auth[db] == w.auth[db])
  {
    var spec := w.cr.value.spec;
    DeleteCredentialsDrops(w, spec, Components(spec), plan, db);
    var w1 := Reconcile(w, plan);
    var turns := [Reconciled(plan), Outside(CollectGarbage)];
    assert turns[1..] == [Outside(CollectGarbage)] && turns[1..][1..] == [];
    assert Run(w, turns) == Run(w1, turns[1..]) == Run(Collect(w1), []);
    assert db in Components(spec) <==> BlockOf(spec, db).Some?;
  }

  predicate AllCallsWork(plan: DbPlan) {
    plan.failing == {} && plan.lookupOk && plan.generated.Some? && plan.secret.Applied?
  }

  /** The controller asks for explicit credentials of an external database because a generated password
      cannot work there, but it only looks at the user name: a block with a name and no password gets one. */
  lemma ExternalPasswordIsGenerated(w: World, uid: nat, spec: Spec, db: Db, plan: DbPlan)
    requires DbEnabled(spec, db) && External(spec, db) && db !in w.auth && AllCallsWork(plan)
    ensures var block := BlockOf(spec, db).value;
            var w' := DbStage(w, uid, spec, db, plan).w;
            db in w'.auth && w'.auth[db].data.password == plan.generated.value <==>
            && block.secretRef == "" && block.username != "" && !CertificateMissing(block.tls)
            && (block.password == "" || block.password == plan.generated.value)
  {
    var retain := Retains(w.classes, WantedClass(BlockOf(spec, db)), plan.reading);
    DeletesShrink(w, db, ObjectsToDelete(retain), plan.failing);
    DeletesSucceed(w, db, ObjectsToDelete(retain));
  }

  lemma {:induction false} DeletesSucceed(w: World, db: Db, kinds: seq<Kind>)
    ensures DeleteObjects(w, db, kinds, {}).go
    decreases |kinds|
  {
    if kinds != [] {
      DeletesSucceed(DeleteObject(w, db, kinds[0]), db, kinds[1..]);
    }
  }

  predicate Works(w: World, spec: Spec, db: Db, plan: Plan) {
    var calls := DeletePlanOf(plan, db);
    || Retains(w.classes, WantedClass(BlockOf(spec, db)), calls.reading)
    || (calls.lookupOk && (db in w.auth ==> calls.deleteOk) && calls.keystoreOk)
  }

  predicate AllWork(w: World, spec: Spec, dbs: seq<Db>, plan: Plan) {
    dbs != [] ==> Works(w, spec, dbs[0], plan) && AllWork(w, spec, dbs[1..], plan)
  }

  lemma {:induction false} OthersWorkAlike(w: World, spec: Spec, dbs: seq<Db>, plan: Plan, gone: Db)
    requires gone !in dbs
    ensures AllWork(w.(auth := w.auth - {gone}), spec, dbs, plan) <==> AllWork(w, spec, dbs, plan)
  {
    if dbs != [] {
      assert dbs[0] in dbs;
      assert forall db :: db in dbs[1..] ==> db in dbs;
      OthersWorkAlike(w, spec, dbs[1..], plan, gone);
    }
  }

  lemma {:induction false} DeleteCredentialsFinishes(w: World, spec: Spec, dbs: seq<Db>, plan: Plan)
    requires |dbs| == 2 ==> dbs[0] != dbs[1]
    requires |dbs| <= 2
    ensures DeleteCredentials(w, spec, dbs, plan).go <==> AllWork(w, spec, dbs, plan)
    ensures DeleteCredentials(w, spec, dbs, plan).w.cr == w.cr
    decreases |dbs|
  {
    if dbs != [] {
      DeleteCredentialsFinishes(w, spec, dbs[1..], plan);
      DeleteCredentialsFinishes(w.(auth := w.auth - {dbs[0]}), spec, dbs[1..], plan);
      OthersWorkAlike(w, spec, dbs[1..], plan, dbs[0]);
    }
  }

  lemma ComponentsWork(w: World, spec: Spec, plan: Plan)
    ensures AllWork(w, spec, Components(spec), plan)
       <==> forall db :: BlockOf(spec, db).Some? ==> Works(w, spec, db, plan)
  {
    assert (forall db :: BlockOf(spec, db).Some? ==> Works(w, spec, db, plan))
      <==> && (spec.timeSeries.Some? ==> Works(w, spec, TimeSeries, plan))
           && (spec.search.Some? ==> Works(w, spec, Search, plan));
    OneWorks(w, spec, TimeSeries, plan);
    OneWorks(w, spec, Search, plan);
    if spec.timeSeries.Some? && spec.search.Some? {
      assert Components(spec) == [TimeSeries, Search];
      assert [TimeSeries, Search][1..] == [Search];
    } else {
      assert Components(spec)
          == if spec.timeSeries.Some? then [TimeSeries] else if spec.search.Some? then [Search] else [];
    }
  }

  lemma OneWorks(w: World, spec: Spec, db: Db, plan: Plan)
    ensures AllWork(w, spec, [db], plan) <==> Works(w, spec, db, plan)
  {
    assert [db][1..] == [];
  }

  /** A deletion lets go of the resource if and only if the TLS secrets are gone, every credential secret that is
      not retained is gone with its keystore, and the finalizer can be removed. */
  lemma DeletionFinishesExactly(w: World, plan: Plan)
    requires w.cr.Some? && w.cr.value.deleting && w.cr.value.finalizer
    ensures var spec := w.cr.value.spec; var w' := Reconcile(w, plan);
            && (w'.cr.None? <==>
                  && plan.tlsCleanupOk && plan.finalizerOk
                  && forall db :: BlockOf(spec, db).Some? ==> Works(w, spec, db, plan))
            && (w'.cr.Some? ==> w'.cr == w.cr)
  {
    var spec := w.cr.value.spec;
    DeleteCredentialsFinishes(w, spec, Components(spec), plan);
    ComponentsWork(w, spec, plan);
  }
}

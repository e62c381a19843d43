/** The platform controller: how its reconcile treats the database credentials and in which order it
    starts the workloads. Object construction is left out; what an object write can come back with is
    part of the plan of a reconcile. */
module PlatformController {
  import opened Options

  // ---------------------------------------------------------------- the cluster

  datatype Db = TimeSeries | Search

  datatype Workload = Database(db: Db) | ServerWorkload

  datatype StatefulSet = StatefulSet(replicas: Option<nat>, ready: nat)

  /** `retain`: the class has a reclaim policy and it is Retain. */
  datatype StorageClass = StorageClass(name: string, isDefault: bool, retain: bool)

  datatype Credentials = Credentials(username: string, password: string)

  /** `owner` is the UID of the platform resource that the secret is collected with. */
  datatype Secret = Secret(owner: Option<nat>, data: Credentials)

  datatype ExternalTLS = ExternalTLS(enabled: bool, insecureSkipVerify: bool, certSecretRef: string)

  datatype DbBlock = DbBlock(
    enabled: Option<bool>, hosts: seq<string>, tls: ExternalTLS,
    secretRef: string, username: string, password: string, storageClass: Option<string>)

  datatype Block = Block(enabled: Option<bool>)

  datatype Spec = Spec(
    timeSeries: Option<DbBlock>, search: Option<DbBlock>, server: Option<Block>, dashboard: Option<Block>,
    issuerName: string, pause: bool)

  datatype Platform = Platform(uid: nat, spec: Spec, finalizer: bool, deleting: bool)

  /** What a run leaves on record: which spec a reconcile works from, what its gates read, what it wrote. */
  datatype Event = Began(spec: Spec) | Saw(workload: Workload, state: StatefulSet) | ServerWrite | DashboardWrite

  datatype World = World(
    cr: Option<Platform>, nextUID: nat, classes: seq<StorageClass>, auth: map<Db, Secret>,
    sets: map<Workload, StatefulSet>, dashboard: bool, log: seq<Event>)

  function BlockOf(spec: Spec, db: Db): Option<DbBlock> {
    if db.TimeSeries? then spec.timeSeries else spec.search
  }

  predicate DbEnabled(spec: Spec, db: Db) {
    var b := BlockOf(spec, db);
    b.Some? && b.value.enabled != Some(false)
  }

  predicate External(spec: Spec, db: Db) {
    var b := BlockOf(spec, db);
    b.Some? && b.value.hosts != []
  }

  predicate Internal(spec: Spec, db: Db) {
    DbEnabled(spec, db) && !External(spec, db)
  }

  predicate BlockEnabled(b: Option<Block>) {
    b.Some? && b.value.enabled != Some(false)
  }

  function WantedClass(b: Option<DbBlock>): string {
    if b.Some? && b.value.storageClass.Some? then b.value.storageClass.value else ""
  }

  // ---------------------------------------------------------------- the environment

  datatype Move =
    | Create(spec: Spec) | Edit(spec: Spec) | RequestDelete | CollectGarbage
    | SetClasses(classes: seq<StorageClass>) | Rollout(workload: Workload, state: StatefulSet)
    | RemoveSet(workload: Workload)

  predicate Orphaned(w: World, s: Secret) {
    s.owner.Some? && (w.cr.None? || w.cr.value.uid != s.owner.value)
  }

  function Collect(w: World): World {
    w.(auth := map db | db in w.auth && !Orphaned(w, w.auth[db]) :: w.auth[db])
  }

  function Apply(w: World, m: Move): World {
    match m
    case Create(spec) =>
      if w.cr.Some? then w
      else w.(cr := Some(Platform(w.nextUID, spec, false, false)), nextUID := w.nextUID + 1)
    case Edit(spec) => if w.cr.None? then w else w.(cr := Some(w.cr.value.(spec := spec)))
    case RequestDelete =>
      if w.cr.None? then w
      else if !w.cr.value.finalizer then w.(cr := None)
      else w.(cr := Some(w.cr.value.(deleting := true)))
    case CollectGarbage => Collect(w)
    case SetClasses(classes) => w.(classes := classes)
    case Rollout(workload, state) => if workload in w.sets then w.(sets := w.sets[workload := state]) else w
    case RemoveSet(workload) => w.(sets := w.sets - {workload})
  }

  function Interfere(w: World, moves: seq<Move>): World
    decreases |moves|
  {
    if moves == [] then w else Interfere(Apply(w, moves[0]), moves[1..])
  }

  // ---------------------------------------------------------------- what the calls come back with

  datatype Write = Failed | Applied | AppliedThenFailed

  datatype Reading = Reading(list: bool, get: bool)

  datatype Kind = SetObject | HeadlessService | ClusterService | TLSSecret | AuthSecret | KeystoreSecret

  /** `referenced`: what the referenced secret holds, if it exists with the keys needed; `generated`: the
      random password, or none when the random source fails. */
  datatype DbPlan = DbPlan(
    reading: Reading, failing: set<Kind>, referenced: Option<Credentials>, lookupOk: bool, generated: Option<string>,
    secret: Write, certificateOk: bool, workload: Write)

  /** The part of a deletion that concerns one database. */
  datatype DeletePlan = DeletePlan(reading: Reading, lookupOk: bool, deleteOk: bool, keystoreOk: bool)

  /** The gaps lie before the re-fetch, before each database, before each readiness check and before the
      Server and Dashboard writes. */
  datatype Plan = Plan(
    tlsCleanupOk: bool, deleteTimeSeries: DeletePlan, deleteSearch: DeletePlan,
    finalizerOk: bool, refetchOk: bool, clearOk: bool, certManager: bool, issuerOk: bool,
    timeSeries: DbPlan, search: DbPlan,
    timeSeriesCheck: bool, searchCheck: bool, serverCheck: bool, server: Write, dashboard: Write,
    gap0: seq<Move>, gap1: seq<Move>, gap2: seq<Move>, gap3: seq<Move>, gap4: seq<Move>, gap5: seq<Move>,
    gap6: seq<Move>, gap7: seq<Move>)

  /** A world and whether the reconcile goes on from it. */
  datatype Step = Step(w: World, go: bool)

  // ---------------------------------------------------------------- retention

  function DefaultClass(classes: seq<StorageClass>): string
    decreases |classes|
  {
    if classes == [] then ""
    else if classes[0].isDefault then classes[0].name
    else DefaultClass(classes[1..])
  }

  function FindClass(classes: seq<StorageClass>, name: string): Option<StorageClass>
    decreases |classes|
  {
    if classes == [] then None
    else if classes[0].name == name then Some(classes[0])
    else FindClass(classes[1..], name)
  }

  predicate PolicyRetains(classes: seq<StorageClass>, wanted: string) {
    var name := if wanted == "" then DefaultClass(classes) else wanted;
    var found := FindClass(classes, name);
    name != "" && found.Some? && found.value.retain
  }

  predicate Retains(classes: seq<StorageClass>, wanted: string, reading: Reading) {
    (wanted == "" ==> reading.list) && reading.get && PolicyRetains(classes, wanted)
  }

  // ---------------------------------------------------------------- one database

  datatype SecretName = Referenced(name: string) | Managed(db: Db)

  const DEFAULT_USERNAME: string := "axonops"

  function OwnerAfter(before: Option<Secret>, uid: nat, retain: bool): Option<nat> {
    if !retain then Some(uid)
    else if before.None? || before.value.owner == Some(uid) then None
    else before.value.owner
  }

  function Existing(w: World, db: Db): Option<Secret> {
    if db in w.auth then Some(w.auth[db]) else None
  }

  function EnsureAuth(w: World, uid: nat, db: Db, block: DbBlock, plan: DbPlan): Step {
    var found := Existing(w, db);
    if block.secretRef != "" then Step(w, plan.referenced.Some?)
    else if !plan.lookupOk then Step(w, false)
    else if found.Some? && block.username == "" && block.password == "" then Step(w, true)
    else if found.None? && block.password == "" && plan.generated.None? then Step(w, false)
    else
      var username := if block.username != "" then block.username
                      else if found.Some? then found.value.data.username else DEFAULT_USERNAME;
      var password := if block.password != "" then block.password
                      else if found.Some? then found.value.data.password else plan.generated.value;
      var owner := OwnerAfter(found, uid, Retains(w.classes, WantedClass(Some(block)), plan.reading));
      if plan.secret.Failed? then Step(w, false)
      else Step(w.(auth := w.auth[db := Secret(owner, Credentials(username, password))]), plan.secret.Applied?)
  }

  function DeleteObject(w: World, db: Db, kind: Kind): World {
    match kind
    case SetObject => w.(sets := w.sets - {Database(db)})
    case AuthSecret => w.(auth := w.auth - {db})
    case _ => w
  }

  function DeleteObjects(w: World, db: Db, kinds: seq<Kind>, failing: set<Kind>): Step
    decreases |kinds|
  {
    if kinds == [] then Step(w, true)
    else if kinds[0] in failing then Step(w, false)
    else DeleteObjects(DeleteObject(w, db, kinds[0]), db, kinds[1..], failing)
  }

  function ObjectsToDelete(retain: bool): seq<Kind> {
    [SetObject, HeadlessService, ClusterService, TLSSecret] + (if retain then [] else [AuthSecret, KeystoreSecret])
  }

  function CleanUp(w: World, spec: Spec, db: Db, plan: DbPlan): Step {
    var retain := Retains(w.classes, WantedClass(BlockOf(spec, db)), plan.reading);
    DeleteObjects(w, db, ObjectsToDelete(retain), plan.failing)
  }

  function WriteSet(w: World, workload: Workload, write: Write): World {
    if write.Failed? then w
    else
      var ready := if workload in w.sets then w.sets[workload].ready else 0;
      w.(sets := w.sets[workload := StatefulSet(Some(1), ready)])
  }

  predicate CertificateMissing(tls: ExternalTLS) {
    tls.enabled && !tls.insecureSkipVerify && tls.certSecretRef == ""
  }

  function DbStage(w: World, uid: nat, spec: Spec, db: Db, plan: DbPlan): Step {
    if !DbEnabled(spec, db) then CleanUp(w, spec, db, plan)
    else
      var block := BlockOf(spec, db).value;
      if External(spec, db) then
        var cleaned := CleanUp(w, spec, db, plan);
        if !cleaned.go || (block.secretRef == "" && block.username == "") || CertificateMissing(block.tls)
        then cleaned.(go := false)
        else EnsureAuth(cleaned.w, uid, db, block, plan)
      else
        var ensured := EnsureAuth(w, uid, db, block, plan);
        if !ensured.go || !plan.certificateOk then ensured.(go := false)
        else Step(WriteSet(ensured.w, Database(db), plan.workload), plan.workload.Applied?)
  }

  // ---------------------------------------------------------------- the gates

  predicate SetReady(state: StatefulSet) {
    state.replicas.Some? && state.replicas.value != 0 && state.ready == state.replicas.value
  }

  /** The workloads that a component waits for. */
  predicate Awaited(spec: Spec, workload: Workload) {
    match workload
    case Database(db) => Internal(spec, db)
    case ServerWorkload => BlockEnabled(spec.server)
  }

  /** Whether a component counts as ready; the reading is put on record. */
  function Check(w: World, spec: Spec, workload: Workload, readOk: bool): Step {
    if !Awaited(spec, workload) then Step(w, true)
    else if !readOk || workload !in w.sets then Step(w, false)
    else Step(w.(log := w.log + [Saw(workload, w.sets[workload])]), SetReady(w.sets[workload]))
  }

  function ServerGate(w: World, spec: Spec, plan: Plan): Step {
    var ts := Check(Interfere(w, plan.gap3), spec, Database(TimeSeries), plan.timeSeriesCheck);
    var search := Check(Interfere(ts.w, plan.gap4), spec, Database(Search), plan.searchCheck);
    Step(search.w, ts.go && search.go)
  }

  function ServerStage(w: World, spec: Spec, plan: Plan): Step {
    if !BlockEnabled(spec.server) then
      Step(if plan.server.Failed? then w else w.(sets := w.sets - {ServerWorkload}), plan.server.Applied?)
    else
      var gate := ServerGate(w, spec, plan);
      if !gate.go then gate
      else
        var before := Interfere(gate.w, plan.gap5);
        Step(WriteSet(before.(log := before.log + [ServerWrite]), ServerWorkload, plan.server), plan.server.Applied?)
  }

  function DashboardStage(w: World, spec: Spec, plan: Plan): World {
    if !BlockEnabled(spec.dashboard) then
      if plan.dashboard.Failed? then w else w.(dashboard := false)
    else
      var server := Check(Interfere(w, plan.gap6), spec, ServerWorkload, plan.serverCheck);
      if !server.go then server.w
      else
        var before := Interfere(server.w, plan.gap7);
        before.(log := before.log + [DashboardWrite], dashboard := before.dashboard || !plan.dashboard.Failed?)
  }

  // ---------------------------------------------------------------- one reconcile

  function Components(spec: Spec): seq<Db> {
    (if spec.timeSeries.Some? then [TimeSeries] else []) + (if spec.search.Some? then [Search] else [])
  }

  function DeleteCredentials(w: World, spec: Spec, dbs: seq<Db>, plan: Plan): Step
    decreases |dbs|
  {
    if dbs == [] then Step(w, true)
    else
      var calls := if dbs[0].TimeSeries? then plan.deleteTimeSeries else plan.deleteSearch;
      if Retains(w.classes, WantedClass(BlockOf(spec, dbs[0])), calls.reading)
      then DeleteCredentials(w, spec, dbs[1..], plan)
      else if !calls.lookupOk || (dbs[0] in w.auth && !calls.deleteOk) then Step(w, false)
      else if !calls.keystoreOk then Step(w.(auth := w.auth - {dbs[0]}), false)
      else DeleteCredentials(w.(auth := w.auth - {dbs[0]}), spec, dbs[1..], plan)
  }

  function Deletion(w: World, spec: Spec, plan: Plan): World {
    if !plan.tlsCleanupOk then w
    else
      var dropped := DeleteCredentials(w, spec, Components(spec), plan);
      if dropped.go && plan.finalizerOk then dropped.w.(cr := None) else dropped.w
  }

  predicate Misconfigured(spec: Spec) {
    !BlockEnabled(spec.server) && (Internal(spec, TimeSeries) || Internal(spec, Search))
  }

  predicate CertManagerBlocks(spec: Spec, plan: Plan) {
    && (Internal(spec, TimeSeries) || Internal(spec, Search))
    && (!plan.certManager || (spec.issuerName == "" && !plan.issuerOk))
  }

  predicate Held(spec: Spec, plan: Plan) {
    spec.pause || !plan.clearOk || Misconfigured(spec) || CertManagerBlocks(spec, plan)
  }

  function Databases(w: World, platform: Platform, plan: Plan): Step {
    var ts := DbStage(Interfere(w, plan.gap1), platform.uid, platform.spec, TimeSeries, plan.timeSeries);
    if !ts.go then ts
    else DbStage(Interfere(ts.w, plan.gap2), platform.uid, platform.spec, Search, plan.search)
  }

  function Workloads(w: World, spec: Spec, plan: Plan): World {
    var server := ServerStage(w, spec, plan);
    if !server.go then server.w else DashboardStage(server.w, spec, plan)
  }

  function Provision(w0: World, platform: Platform, plan: Plan): World {
    var w := w0.(log := w0.log + [Began(platform.spec)]);
    if Held(platform.spec, plan) then w
    else
      var databases := Databases(w, platform, plan);
      if !databases.go then databases.w else Workloads(databases.w, platform.spec, plan)
  }

  function Reconcile(w: World, plan: Plan): World {
    if w.cr.None? then w
    else if w.cr.value.deleting then
      if w.cr.value.finalizer then Deletion(w, w.cr.value.spec, plan) else w
    else if w.cr.value.finalizer then Provision(w, w.cr.value, plan)
    else if !plan.finalizerOk then w
    else
      var held := Interfere(w.(cr := Some(w.cr.value.(finalizer := true))), plan.gap0);
      if !plan.refetchOk || held.cr.None? then held else Provision(held, held.cr.value, plan)
  }

  datatype Turn = Outside(move: Move) | Reconciled(plan: Plan)

  function Take(w: World, turn: Turn): World {
    if turn.Outside? then Apply(w, turn.move) else Reconcile(w, turn.plan)
  }

  function Run(w: World, turns: seq<Turn>): World
    decreases |turns|
  {
    if turns == [] then w else Run(Take(w, turns[0]), turns[1..])
  }

  // ---------------------------------------------------------------- the code, step by step

  class Controller {
    var cr: Option<Platform>
    var nextUID: nat
    var classes: seq<StorageClass>
    var auth: map<Db, Secret>
    var sets: map<Workload, StatefulSet>
    var dashboard: bool
    ghost var log: seq<Event>

    ghost function State(): World
      reads this
    {
      World(cr, nextUID, classes, auth, sets, dashboard, log)
    }

    method Meanwhile(moves: seq<Move>)
      modifies this
      ensures State() == Interfere(old(State()), moves)
    {
      for i := 0 to |moves|
        invariant Interfere(State(), moves[i..]) == Interfere(old(State()), moves)
      {
        assert moves[i..][1..] == moves[i + 1..];
        Happens(moves[i]);
      }
    }

    method Happens(m: Move)
      modifies this
      ensures State() == Apply(old(State()), m)
    {
      match m
      case Create(spec) =>
        if cr.None? {
          cr := Some(Platform(nextUID, spec, false, false));
          nextUID := nextUID + 1;
        }
      case Edit(spec) => if cr.Some? { cr := Some(cr.value.(spec := spec)); }
      case RequestDelete =>
        if cr.Some? { cr := if cr.value.finalizer then Some(cr.value.(deleting := true)) else None; }
      case CollectGarbage =>
        auth := map db | db in auth && !(auth[db].owner.Some? && (cr.None? || cr.value.uid != auth[db].owner.value))
                :: auth[db];
      case SetClasses(newClasses) => classes := newClasses;
      case Rollout(workload, state) => if workload in sets { sets := sets[workload := state]; }
      case RemoveSet(workload) => sets := sets - {workload};
    }

    method ShouldRetainCredentials(wanted: string, reading: Reading) returns (retain: bool)
      ensures retain == Retains(classes, wanted, reading)
    {
      var name := wanted;
      if name == "" {
        if !reading.list {
          return false;
        }
        var i := 0;
        while i < |classes| && !classes[i].isDefault
          invariant 0 <= i <= |classes|
          invariant DefaultClass(classes[i..]) == DefaultClass(classes)
        {
          assert classes[i..][1..] == classes[i + 1..];
          i := i + 1;
        }
        if i < |classes| {
          name := classes[i].name;
        }
        if name == "" {
          return false;
        }
      }
      if !reading.get {
        return false;
      }
      var found := FindClass(classes, name);
      retain := found.Some? && found.value.retain;
    }

    /** On success also the name of the secret, and the credentials that the content hash is taken of: those
        of the referenced secret, or those that the managed secret holds from now on. */
    method EnsureAuthenticationSecret(uid: nat, db: Db, block: DbBlock, plan: DbPlan)
      returns (ok: bool, name: SecretName, hashed: Option<Credentials>)
      modifies `auth
      ensures Step(State(), ok) == EnsureAuth(old(State()), uid, db, block, plan)
      ensures ok ==> name == if block.secretRef != "" then Referenced(block.secretRef) else Managed(db)
      ensures ok ==> hashed.Some? && hashed == if block.secretRef != "" then plan.referenced
                                               else if db in auth then Some(auth[db].data) else None
    {
      ok, name, hashed := false, Managed(db), None;
      if block.secretRef != "" {
        return plan.referenced.Some?, Referenced(block.secretRef), plan.referenced;
      }
      var username, password := block.username, block.password;
      if !plan.lookupOk {
        return;
      }
      var owner := None;
      if db in auth {
        if username == "" && password == "" {
          return true, name, Some(auth[db].data);
        }
        if username == "" {
          username := auth[db].data.username;
        }
        if password == "" {
          password := auth[db].data.password;
        }
        owner := auth[db].owner;
      } else {
        if username == "" {
          username := DEFAULT_USERNAME;
        }
        if password == "" {
          if plan.generated.None? {
            return;
          }
          password := plan.generated.value;
        }
      }
      var wanted := if block.storageClass.Some? then block.storageClass.value else "";
      var retain := ShouldRetainCredentials(wanted, plan.reading);
      if retain {
        if owner == Some(uid) {
          owner := None;
        }
      } else {
        owner := Some(uid);
      }
      if plan.secret == Failed {
        return;
      }
      auth := auth[db := Secret(owner, Credentials(username, password))];
      ok, hashed := plan.secret == Applied, Some(Credentials(username, password));
    }

    method DeleteEach(db: Db, toDelete: seq<Kind>, failing: set<Kind>) returns (ok: bool)
      modifies `auth, `sets
      ensures Step(State(), ok) == DeleteObjects(old(State()), db, toDelete, failing)
    {
      for i := 0 to |toDelete|
        invariant DeleteObjects(State(), db, toDelete[i..], failing)
               == DeleteObjects(old(State()), db, toDelete, failing)
      {
        assert toDelete[i..][1..] == toDelete[i + 1..];
        if toDelete[i] in failing {
          return false;
        }
        if toDelete[i] == SetObject {
          sets := sets - {Database(db)};
        } else if toDelete[i] == AuthSecret {
          auth := auth - {db};
        }
      }
      ok := true;
    }

    method CleanUpInternal(spec: Spec, db: Db, plan: DbPlan) returns (ok: bool)
      modifies `auth, `sets
      ensures Step(State(), ok) == CleanUp(old(State()), spec, db, plan)
    {
      var block := BlockOf(spec, db);
      var wanted := "";
      if block.Some? && block.value.storageClass.Some? {
        wanted := block.value.storageClass.value;
      }
      var retain := ShouldRetainCredentials(wanted, plan.reading);
      var toDelete := [SetObject, HeadlessService, ClusterService, TLSSecret];
      if !retain {
        toDelete := toDelete + [AuthSecret, KeystoreSecret];
      }
      assert toDelete == ObjectsToDelete(retain);
      ok := DeleteEach(db, toDelete, plan.failing);
    }

    method WriteWorkload(workload: Workload, write: Write)
      modifies `sets
      ensures State() == WriteSet(old(State()), workload, write)
    {
      if write != Failed {
        var ready := if workload in sets then sets[workload].ready else 0;
        sets := sets[workload := StatefulSet(Some(1), ready)];
      }
    }

    method EnsureDatabase(uid: nat, spec: Spec, db: Db, plan: DbPlan) returns (ok: bool)
      modifies `auth, `sets
      ensures Step(State(), ok) == DbStage(old(State()), uid, spec, db, plan)
    {
      if !DbEnabled(spec, db) {
        ok := CleanUpInternal(spec, db, plan);
        return;
      }
      var block := BlockOf(spec, db).value;
      if block.hosts != [] {
        ok := CleanUpInternal(spec, db, plan);
        if !ok {
          return;
        }
        if block.secretRef == "" && block.username == "" {
          return false;
        }
        if block.tls.enabled && !block.tls.insecureSkipVerify && block.tls.certSecretRef == "" {
          return false;
        }
        var ensured, _, _ := EnsureAuthenticationSecret(uid, db, block, plan);
        return ensured;
      }
      var ensured, _, _ := EnsureAuthenticationSecret(uid, db, block, plan);
      ok := ensured;
      if !ok {
        return;
      }
      if !plan.certificateOk {
        return false;
      }
      WriteWorkload(Database(db), plan.workload);
      ok := plan.workload == Applied;
    }

    method IsComponentReady(spec: Spec, workload: Workload, readOk: bool) returns (ready: bool)
      modifies `log
      ensures Step(State(), ready) == Check(old(State()), spec, workload, readOk)
    {
      if workload == ServerWorkload {
        if !BlockEnabled(spec.server) {
          return true;
        }
      } else if !DbEnabled(spec, workload.db) || External(spec, workload.db) {
        return true;
      }
      if !readOk || workload !in sets {
        return false;
      }
      log := log + [Saw(workload, sets[workload])];
      if sets[workload].replicas == None || sets[workload].replicas == Some(0) {
        return false;
      }
      ready := sets[workload].ready == sets[workload].replicas.value;
    }

    method EnsureServer(spec: Spec, plan: Plan) returns (ok: bool)
      modifies this
      ensures Step(State(), ok) == ServerStage(old(State()), spec, plan)
    {
      if BlockEnabled(spec.server) {
        Meanwhile(plan.gap3);
        var timeSeriesReady := IsComponentReady(spec, Database(TimeSeries), plan.timeSeriesCheck);
        Meanwhile(plan.gap4);
        var searchReady := IsComponentReady(spec, Database(Search), plan.searchCheck);
        if !timeSeriesReady || !searchReady {
          return false;
        }
        Meanwhile(plan.gap5);
        log := log + [ServerWrite];
        WriteWorkload(ServerWorkload, plan.server);
      } else if plan.server != Failed {
        sets := sets - {ServerWorkload};
      }
      ok := plan.server == Applied;
    }

    method EnsureDashboard(spec: Spec, plan: Plan)
      modifies this
      ensures State() == DashboardStage(old(State()), spec, plan)
    {
      if BlockEnabled(spec.dashboard) {
        Meanwhile(plan.gap6);
        var serverReady := IsComponentReady(spec, ServerWorkload, plan.serverCheck);
        if !serverReady {
          return;
        }
        Meanwhile(plan.gap7);
        log := log + [DashboardWrite];
        if plan.dashboard != Failed {
          dashboard := true;
        }
      } else if plan.dashboard != Failed {
        dashboard := false;
      }
    }

    method CleanUpCredentials(spec: Spec, plan: Plan) returns (ok: bool)
      modifies `auth
      ensures Step(State(), ok) == DeleteCredentials(old(State()), spec, Components(spec), plan)
    {
      var components: seq<Db> := [];
      if spec.timeSeries.Some? {
        components := components + [TimeSeries];
      }
      if spec.search.Some? {
        components := components + [Search];
      }
      assert components == Components(spec);
      for i := 0 to |components|
        invariant DeleteCredentials(State(), spec, components[i..], plan)
               == DeleteCredentials(old(State()), spec, components, plan)
      {
        assert components[i..][1..] == components[i + 1..];
        var db := components[i];
        var block := BlockOf(spec, db);
        var calls := if db == TimeSeries then plan.deleteTimeSeries else plan.deleteSearch;
        var wanted := if block.Some? && block.value.storageClass.Some? then block.value.storageClass.value else "";
        var retain := ShouldRetainCredentials(wanted, calls.reading);
        if !retain {
          if !calls.lookupOk || (db in auth && !calls.deleteOk) {
            return false;
          }
          auth := auth - {db};
          if !calls.keystoreOk {
            return false;
          }
        }
      }
      ok := true;
    }

    method HandleDeletion(spec: Spec, plan: Plan)
      modifies `auth, `cr
      ensures State() == Deletion(old(State()), spec, plan)
    {
      if !plan.tlsCleanupOk {
        return;
      }
      var ok := CleanUpCredentials(spec, plan);
      if ok && plan.finalizerOk {
        cr := None;
      }
    }

    method ReconcileOnce(plan: Plan)
      modifies this
      ensures State() == Reconcile(old(State()), plan)
    {
      if cr.None? {
        return;
      }
      if cr.value.deleting {
        if cr.value.finalizer {
          HandleDeletion(cr.value.spec, plan);
        }
        return;
      }
      if !cr.value.finalizer {
        if !plan.finalizerOk {
          return;
        }
        cr := Some(cr.value.(finalizer := true));
        Meanwhile(plan.gap0);
        if !plan.refetchOk || cr.None? {
          return;
        }
      }
      var server := cr.value;
      log := log + [Began(server.spec)];
      if Held(server.spec, plan) {
        return;
      }
      Meanwhile(plan.gap1);
      var ok := EnsureDatabase(server.uid, server.spec, TimeSeries, plan.timeSeries);
      if !ok {
        return;
      }
      Meanwhile(plan.gap2);
      ok := EnsureDatabase(server.uid, server.spec, Search, plan.search);
      if !ok {
        return;
      }
      ok := EnsureServer(server.spec, plan);
      if ok {
        EnsureDashboard(server.spec, plan);
      }
    }
  }
}

# AxonOps operator: verified model

This project models the parts of the AxonOps Kubernetes operator and of its exporter that hold real
state or transform text, and proves what they promise. Each module follows one source file or one
component of it. Code that works step by step is a method, or a class with fields, proved equal to a
specification function; the theorems are lemmas about those functions, mostly over every run, every
input or every interleaving.

## What is modelled

* **Reconcilers that share one remote list.** `HealthcheckSync` and `LogCollectorSync` model a whole
  cluster: the remote document, all custom resources, and reconciles whose every call may fail.
  `HealthcheckHealing` proves recovery from a lost whole-list write. `DashboardMerge` is the list algebra
  of the dashboard controller.
* **Sync life cycles.** `MetricAlertSync` and `AlertEndpointSync` model one resource, its remote objects
  and a plan of outcomes for every call, with edits, deletions and external removals possible between any
  two calls and optimistic locking on every write. `MetricAlertSafety` and the second half of
  `AlertEndpointSync` prove what Ready and the skip guard mean; `MetricAlertContent` and
  `AlertEndpointOwnership` what is left on the server.
* **Printers and parsers.** `LogEventsExpr`, `LogAlert`, `MetricAlertRule` and `HealthcheckEntry` pair the
  payloads that the controllers print with the parsers of the exporter.
* **Platform controller.** `PlatformController` models its reconcile from the deletion branch to the
  Dashboard write; `PlatformCredentials` and `PlatformStartup` prove credential stability and start-up
  order, `PlatformSettling` what is left running and stored. `PasswordGenerator` is the password generator
  with its in-place shuffle.
* **Streams and canonical text.** `LimitedBody`, `DnsLabel`, `ConfigHash` and `RemoteConfig`.

A reconcile's plan fixes what its calls come back with; a gap is a list of things that happen between two
calls. A theorem that quantifies over all runs quantifies over all plans and gaps.

## What the code does not do

Some properties that one might expect hold only under a condition. Each is proved with its exact condition,
or with the run that breaks it.

* A failed push advances the status's observed generation and leaves Ready standing, for metric alerts, HTTP
  healthchecks and log collectors alike, so that their skip guards do not mean that the current spec was
  accepted. A pending edit ends up hidden if and only if the attempt fails and the failure is stored
  (`MetricAlertSafety.FailureHidesEditExactly`, `HealthcheckHealing.FailureHidesEditExactly`,
  `LogCollectorSync.FailureHidesEditExactly`); `MetricAlertSafety.HiddenEditIsReachable` is a run of four steps
  from a fresh resource. What Ready's own generation says is true (`MetricAlertSafety.ReadyIsSound`), and in
  runs that lose no status write it says exactly when the current spec was accepted
  (`MetricAlertSafety.CurrentSpecAcceptedExactly`).
* The alert-endpoint controller stamps the generation of its second fetch. Its guard is sound if and only if
  no edit lands after the first fetch, which is earlier than the push, or, when it recreates after drift, after
  the write of the cleared status (`AlertEndpointSync.SkipIsSoundExactly`,
  `AlertEndpointSync.RecreateIsSoundExactly`).
* A deleted HTTP healthcheck leaves its entry behind if and only if the list is reported missing or the write
  fails without a server error, which includes a broken connection
  (`HealthcheckHealing.DeletionRemovesExactly`). When log collectors and alert endpoints are left behind is stated
  the same way (`LogCollectorSync.DeletionRemovesExactly`, `AlertEndpointOwnership.DeletionRemovesExactly`).
* A metric alert whose panel UUID is shared is exported to another chart unless the last panel with the UUID
  stands at the place meant (`MetricAlertRule.IndexLeadsExactly`).
* An HTTP healthcheck without a synced ID takes over the first remote entry whose ID is empty
  (`HealthcheckHealing.FirstPushIsSafe`).
* The platform controller decides whether a credential secret outlives its resource when it first writes
  the secret. A later switch of the storage class to Retain does not reach a secret that already has an
  owner (`PlatformCredentials.PolicyAtCreationDecides`, `PlatformCredentials.DeletionSparesExactly`). And
  although a comment says that external databases must bring explicit credentials, only the user name is
  required: a missing password is generated (`PlatformCredentials.ExternalPasswordIsGenerated`).

## Model

| member | source | states |
|---|---|---|
| LogEventsExpr.ReadQuoted | cmd/axonops-export/export/metric_alert.go:160-182 | the cursor loop reads one quoted value and stops behind its closing quote, within bounds on every input |
| LogEventsExpr.ParseItems | cmd/axonops-export/export/metric_alert.go:152-193 | the loop over the items ends on every text and yields what reading them one by one yields |
| LogEventsExpr.ParseLogEventsExpr | cmd/axonops-export/export/metric_alert.go:143-195 | on every input the loop ends and yields what reading the items one by one yields, later items overriding earlier ones |
| LogEventsExpr.EscapeContentIsPerCharacter | internal/controller/alerts/axonopslogalert_controller.go:348-360 | escaping backslashes and then quotes equals escaping each character on its own |
| LogEventsExpr.ScanUnclean | cmd/axonops-export/export/metric_alert.go:160-182 | an unescaped item with a quote or backslash is never read back as itself |
| LogEventsExpr.ParsePays | cmd/axonops-export/export/metric_alert.go:143-195 | whatever the parser assigns is paid for in characters of its input, so no item can be read twice |
| LogEventsExpr.ParsePrinted | internal/controller/alerts/axonopslogalert_controller.go:348-372 | reading printed items restores all of them if and only if each is clean, and touches no other attribute |
| LogEventsExpr.RoundTrip | internal/controller/alerts/axonopslogalert_controller.go:348-377 | parsing the printed expression gives the fields back, pipes turned into commas, if and only if level, source and type have no quote and no backslash; content may be anything |
| LogEventsExpr.BlanksAroundKeyAreIgnored | cmd/axonops-export/export/metric_alert.go:155-159 | white space around the key of any item makes no difference to what is parsed |
| LogAlert.LogAlertRuleToResource | cmd/axonops-export/export/metric_alert.go:88-139 | the resource: a valid label of the rule's name, the scope of the options, and the exported spec with its filters read in a loop |
| LogAlert.LogAlertRoundTrip | internal/controller/alerts/axonopslogalert_controller.go:300-345 | exporting the built rule restores the spec, up to pipes and empty blocks, under exactly the same condition |
| LogAlert.RuleKeepsItsID | internal/controller/alerts/axonopslogalert_controller.go:300-313 | a rule goes out under the ID its resource was synced with, however the resource was edited since, and without a panel |
| LogAlert.BuiltRuleIsLogAlert | cmd/axonops-export/export/metric_alert.go:83-85 | every rule built for a log alert is recognised as one |
| AlertRules.RecogniseWireName | cmd/axonops-export/export/metric_alert.go:285-319 | the exporter recognises every filter name that the controllers send |
| MetricAlertRule.EmitFilters | internal/controller/alerts/axonopsmetricalert_controller.go:375-392 | in some order of the map, one filter per non-empty dimension |
| MetricAlertRule.BuildMetricAlertRule | internal/controller/alerts/axonopsmetricalert_controller.go:334-395 | the rule carries the spec, the expression, the panel and the filters |
| MetricAlertRule.BuildPanelIndex | cmd/axonops-export/export/metric_alert.go:198-214 | the nested loops index every panel, a later panel overriding an earlier one of the same UUID |
| MetricAlertRule.ResolveDashboardPanel | internal/axonops/client.go:485-496 | the nested search finds the first panel with the wanted titles, or none exists |
| MetricAlertRule.ConvertFilters | cmd/axonops-export/export/metric_alert.go:285-319 | the loop over the filters: last entry wins for each dimension, none for an empty list |
| MetricAlertRule.IndexUndoesSearch | cmd/axonops-export/export/metric_alert.go:198-214 | in particular, with distinct panel UUIDs it leads back to the dashboard and chart that were searched for |
| MetricAlertRule.IndexLeadsExactly | cmd/axonops-export/export/metric_alert.go:198-214 | the index leads a UUID to a place if and only if the last panel with that UUID stands there |
| MetricAlertRule.SharedPanelUUID | cmd/axonops-export/export/metric_alert.go:198-214 | the smallest layout in which it does not |
| MetricAlertRule.MetricSurvives | cmd/axonops-export/export/metric_alert.go:276-282 | the metric is read back if and only if it is one non-empty word |
| MetricAlertRule.FiltersSurvive | cmd/axonops-export/export/metric_alert.go:285-319 | for every emission order the filters are restored, and no filters give none |
| MetricAlertRule.MetricAlertRoundTrip | internal/controller/alerts/axonopsmetricalert_controller.go:334-395 | for every emission order and every layout, exporting the built rule restores the spec if and only if the last panel with its UUID is the one meant, the metric is one word and the annotations are not a widget URL alone |
| MetricAlertRule.UnindexedKeepsChart | cmd/axonops-export/export/metric_alert.go:243-252 | a rule whose panel is not indexed brings its chart title on a dashboard marked unknown, or neither if the title is empty; the rest survives under the same condition |
| MetricAlertRule.BuiltRuleIsMetricAlert | cmd/axonops-export/export/metric_alert.go:83-85 | a built metric rule, whatever its metric, is exported as a metric alert if and only if the first text of its expression that is not blank does not start like a log-event expression |
| HealthcheckEntry.PrintHeaders | internal/controller/alerts/axonopshealthcheckhttp_controller.go:291-296 | one line per header, in some order of the map |
| HealthcheckEntry.IndexByte | cmd/axonops-export/export/healthcheck.go:144-151 | the first position of the byte, or -1 if it does not occur |
| HealthcheckEntry.TrimBlanks | cmd/axonops-export/export/healthcheck.go:154-164 | drops exactly the spaces and tabs at both ends |
| HealthcheckEntry.ParseHeaders | cmd/axonops-export/export/healthcheck.go:52-62 | the loop reads each line at its first colon, later lines overriding earlier ones |
| HealthcheckEntry.HeaderRoundTrip | cmd/axonops-export/export/healthcheck.go:52-62 | for every iteration order, parsing the printed headers gives the map back if and only if no key has a colon and no key or value has a blank at an end |
| HealthcheckEntry.HealthcheckRoundTrip | internal/controller/alerts/axonopshealthcheckhttp_controller.go:291-318 | the exporter restores the whole healthcheck spec under exactly the same condition |
| HealthcheckSync.UpsertInPlace | internal/controller/alerts/axonopshealthcheckhttp_controller.go:137-152 | the loop replaces the first entry with the synced ID or appends, with a fresh ID only where there was none |
| HealthcheckSync.RemoveByID | internal/controller/alerts/axonopshealthcheckhttp_controller.go:256-263 | the list without the entries of the ID, in order |
| HealthcheckSync.Controller.CheckDrift | internal/controller/alerts/axonopshealthcheckhttp_controller.go:197-224 | ends the reconcile on an error or if the entry is there; otherwise forgets the synced ID |
| HealthcheckSync.Controller.HandleDeletion | internal/controller/alerts/axonopshealthcheckhttp_controller.go:227-288 | the list without the entry, and the finalizer gone unless a call is to be retried |
| HealthcheckSync.Controller.ReconcileOne | internal/controller/alerts/axonopshealthcheckhttp_controller.go:60-193 | one reconcile takes the document and the resource to the specified next state, for every outcome of its calls |
| HealthcheckSync.Controller.ReconcileAll | internal/controller/alerts/axonopshealthcheckhttp_controller.go:60-193 | one serialised round over all resources |
| HealthcheckHealing.FirstPushIsSafe | internal/controller/alerts/axonopshealthcheckhttp_controller.go:137-152 | a resource without an ID appends its entry under a fresh ID if and only if no remote entry has an empty ID |
| HealthcheckHealing.DeleteUndoesCreate | internal/controller/alerts/axonopshealthcheckhttp_controller.go:227-288 | creating a healthcheck and deleting it gives back the document as it was |
| HealthcheckHealing.DeletionRemovesExactly | internal/controller/alerts/axonopshealthcheckhttp_controller.go:227-288 | a deletion takes out exactly the resource's entries, the others in order, if and only if read and write succeed; it lets go with the entry still there if and only if it gives up |
| HealthcheckHealing.FinalizerComesFirst | internal/controller/alerts/axonopshealthcheckhttp_controller.go:95-103 | a new resource gets its finalizer before anything is written to the document |
| HealthcheckHealing.PushUpdatesInPlace | internal/controller/alerts/axonopshealthcheckhttp_controller.go:137-184 | a successful push of a listed resource puts its entry, under its ID, in the place of the first old one, changes nothing else, and stores the success |
| HealthcheckHealing.DriftAppendsAnew | internal/controller/alerts/axonopshealthcheckhttp_controller.go:197-224 | where the entry has vanished, a successful reconcile appends a new one under a fresh ID, and the next one skips |
| HealthcheckHealing.SelfHealing | internal/controller/alerts/axonopshealthcheckhttp_controller.go:116-163 | from any document without empty IDs, one successful round leaves every resource with its own ID in the list and its spec pushed unless it is skipped; foreign entries keep content and order, TCP and shell checks are untouched, and IDs stay distinct |
| HealthcheckHealing.RoundReflectsExactly | internal/controller/alerts/axonopshealthcheckhttp_controller.go:116-163 | after a successful round the list holds the entry built from a resource's current spec if and only if the resource was not skipped or the list held it before |
| HealthcheckHealing.SecondRoundIsIdle | internal/controller/alerts/axonopshealthcheckhttp_controller.go:197-224 | a second round right after changes nothing |
| HealthcheckHealing.FailureHidesEditExactly | internal/controller/alerts/axonopshealthcheckhttp_controller.go:105-163 | a pending edit of a synced, listed resource ends up skipped, with the document as it was, if and only if connection, read or write fail and the failure is stored |
| HealthcheckHealing.FailedAttemptHidesEdit | internal/controller/alerts/axonopshealthcheckhttp_controller.go:321-333 | after an edit and any such failure, no later reconcile that reads the list pushes the edit while the old entry stands |
| LogCollectorSync.SplitByFilename | internal/controller/alerts/axonopslogcollector_controller.go:149-158 | the loop separates the entries of a file name and keeps the UUID of the last of them |
| LogCollectorSync.Controller.CheckDrift | internal/controller/alerts/axonopslogcollector_controller.go:236-272 | ends the reconcile if and only if the read fails, the UUID is listed, or the write of the cleared status fails |
| LogCollectorSync.Controller.HandleDeletion | internal/controller/alerts/axonopslogcollector_controller.go:274-330 | the list without the file name, and the finalizer gone unless a call is to be retried |
| LogCollectorSync.Controller.PutCollector | internal/controller/alerts/axonopslogcollector_controller.go:127-232 | read, edit and write back of the whole list take list and resource to the specified next state |
| LogCollectorSync.Controller.ReconcileOne | internal/controller/alerts/axonopslogcollector_controller.go:59-232 | one reconcile takes list and resource to the specified next state, for every outcome of its calls |
| LogCollectorSync.RunKeepsForeign | internal/controller/alerts/axonopslogcollector_controller.go:149-186 | in every run, whatever fails, entries that no resource names keep content and order |
| LogCollectorSync.RunSettles | internal/controller/alerts/axonopslogcollector_controller.go:149-186 | in every run, a file name pushed and not removed since has exactly one entry: the last pushed spec under the UUID of its first push |
| LogCollectorSync.UUIDIsStable | internal/controller/alerts/axonopslogcollector_controller.go:149-158 | between removals the UUID of a file name never changes |
| LogCollectorSync.DriftRecreates | internal/controller/alerts/axonopslogcollector_controller.go:236-272 | an entry removed from outside comes back with the next successful reconcile of a resource that the guard holds for |
| LogCollectorSync.DeletionRemovesExactly | internal/controller/alerts/axonopslogcollector_controller.go:274-330 | after a deletion no entry of the file name is left if and only if there was none or read and write succeed; all others keep content and order; it lets go if and only if the write landed, there was nothing to remove, or it gave up, and in the last case the entry stays |
| LogCollectorSync.PushStoresResult | internal/controller/alerts/axonopslogcollector_controller.go:149-231 | a successful push leaves the foreign entries and one entry with the current spec and the last UUID found, or a fresh one, and stores that UUID; the next reconcile skips if and only if it is not empty |
| LogCollectorSync.FinalizerComesFirst | internal/controller/alerts/axonopslogcollector_controller.go:92-98 | a new resource gets its finalizer before anything is written to the list |
| LogCollectorSync.FailureHidesEditExactly | internal/controller/alerts/axonopslogcollector_controller.go:100-204 | a pending edit of a synced, listed resource ends up skipped, with list and pushed specs as they were, if and only if connection, read or write fail and the failure is stored |
| LogCollectorSync.FailedPushHidesEdit | internal/controller/alerts/axonopslogcollector_controller.go:117-125 | from there on a reconcile with a working connection changes nothing |
| MetricAlertSync.Controller.HandleDeletion | internal/controller/alerts/axonopsmetricalert_controller.go:285-331 | deletion with its retries and given-up errors reaches the specified next state |
| MetricAlertSync.Controller.ReconcileOnce | internal/controller/alerts/axonopsmetricalert_controller.go:71-242 | one whole reconcile, drift check included, reaches the specified next state |
| MetricAlertSafety.ReadyIsSound | internal/controller/alerts/axonopsmetricalert_controller.go:205-238 | in every reachable state Ready=True with observed generation g means that a payload built from the spec of generation g was accepted |
| MetricAlertSafety.GuardWithCurrentReady | internal/controller/alerts/axonopsmetricalert_controller.go:139-147 | in every run, where Ready carries the current generation, a skip means that the current spec was accepted |
| MetricAlertSafety.CurrentSpecAcceptedExactly | internal/controller/alerts/axonopsmetricalert_controller.go:139-238 | in every run in which accepted POSTs are followed by a stored status, the current spec was accepted if and only if Ready carries the current generation |
| MetricAlertSafety.FailureHidesEditExactly | internal/controller/alerts/axonopsmetricalert_controller.go:118-203 | an undisturbed attempt to push a pending edit leaves it guarded and unaccepted if and only if connection, panel lookup or POST fail and the failure is stored |
| MetricAlertSafety.FailedPushHidesEdit | internal/controller/alerts/axonopsmetricalert_controller.go:139-203 | from there on every undisturbed reconcile that reads the rules skips while the old rule exists |
| MetricAlertSafety.HiddenEditIsReachable | internal/controller/alerts/axonopsmetricalert_controller.go:107-203 | a fresh resource gets there by finalizer, push, edit and refused push, and stays there |
| MetricAlertSafety.OwnershipCensus | internal/controller/alerts/axonopsmetricalert_controller.go:178-238 | in every run the remote rules of a resource are the one in its status and those whose ID was never stored or whose deletion was given up |
| MetricAlertSafety.SingleOwnership | internal/controller/alerts/axonopsmetricalert_controller.go:178-331 | if every applied POST is followed by a stored status and no DELETE is given up, there is at most one remote rule at any time, the synced one, and none once the resource is gone |
| MetricAlertSafety.LostStatusDuplicates | internal/controller/alerts/axonopsmetricalert_controller.go:205-238 | losing the status write behind a first POST leaves two remote rules |
| MetricAlertContent.FinalizerComesFirst | internal/controller/alerts/axonopsmetricalert_controller.go:107-116 | a new resource gets its finalizer before anything is posted |
| MetricAlertContent.PushPostsExactly | internal/controller/alerts/axonopsmetricalert_controller.go:175-238 | an undisturbed successful push puts the current spec and the resolved panel under the synced ID, or a new one, touches no other rule, and stores both; the next reconcile has nothing to do |
| MetricAlertContent.RecreatePostsExactly | internal/controller/alerts/axonopsmetricalert_controller.go:246-283 | a rule that vanished comes back under a new ID with the current spec and panel |
| MetricAlertContent.DeletionRemovesExactly | internal/controller/alerts/axonopsmetricalert_controller.go:285-331 | an undisturbed deletion takes exactly the synced rule away if and only if the DELETE takes effect or there is none, and lets go if and only if it met no server error |
| MetricAlertContent.ReadyRuleIsCurrent | internal/controller/alerts/axonopsmetricalert_controller.go:175-238 | in every lossless run: where Ready carries the current generation and the synced rule is there, it is the only one and holds the current spec under its own ID with the stored panel |
| AlertEndpointSync.Controller.HandleDeletion | internal/controller/alerts/axonopsalertendpoint_controller.go:277-321 | deletion with its retries and given-up errors, applied or not, and anything happening before the finalizer write, reaches the specified next state |
| AlertEndpointSync.Controller.ReconcileOnce | internal/controller/alerts/axonopsalertendpoint_controller.go:70-228 | one whole reconcile, drift check included, reaches the specified next state |
| AlertEndpointSync.SkipIsSound | internal/controller/alerts/axonopsalertendpoint_controller.go:113-121 | in every run without an edit between the two fetches of a reconcile, a live resource that may be skipped is one whose current spec was accepted |
| AlertEndpointSync.SkipIsSoundExactly | internal/controller/alerts/axonopsalertendpoint_controller.go:138-223 | a push of an unguarded resource that stores its success keeps this if and only if no edit landed between the fetches, or a deletion request did |
| AlertEndpointSync.RecreateIsSoundExactly | internal/controller/alerts/axonopsalertendpoint_controller.go:232-274 | the same for a reconcile that recreates after drift: its window starts at the write of the cleared status, which edits before it make fail |
| AlertEndpointSync.EditBeforeRefetchIsSkipped | internal/controller/alerts/axonopsalertendpoint_controller.go:202-218 | an edit right before the second fetch is never pushed while nothing else changes |
| AlertEndpointOwnership.FinalizerComesFirst | internal/controller/alerts/axonopsalertendpoint_controller.go:103-111 | a new resource gets its finalizer before anything is posted |
| AlertEndpointOwnership.PushPostsExactly | internal/controller/alerts/axonopsalertendpoint_controller.go:174-223 | an undisturbed successful push puts the current spec under the synced ID, or a new one, touches no other integration, and stores the ID; the next reconcile has nothing to do |
| AlertEndpointOwnership.RecreatePostsExactly | internal/controller/alerts/axonopsalertendpoint_controller.go:232-274 | an integration that vanished comes back under a new ID with the current spec |
| AlertEndpointOwnership.ReadyFollowsTheAttempt | internal/controller/alerts/axonopsalertendpoint_controller.go:128-223 | a failed attempt takes Ready away and nothing else, a successful one gives it, a paused connection leaves it |
| AlertEndpointOwnership.DeletionRemovesExactly | internal/controller/alerts/axonopsalertendpoint_controller.go:277-321 | an undisturbed deletion takes exactly the synced integration away if and only if the DELETE takes effect or there is none; it lets go if and only if it met no server error, with the integration left behind exactly when it gave up |
| AlertEndpointOwnership.SingleOwnership | internal/controller/alerts/axonopsalertendpoint_controller.go:174-321 | in every run in which applied POSTs are followed by a stored status and no DELETE is given up, the server holds at most the synced integration, and none once the resource is gone |
| AlertEndpointOwnership.SkippedIsCurrent | internal/controller/alerts/axonopsalertendpoint_controller.go:113-121 | in every such run without an edit in a reconcile's window: where a reconcile would skip and the integration is there, the server holds it alone, with the current spec |
| PasswordGenerator.FillByClass | internal/controller/axonopsplatform_controller.go:1556-1581 | the array holds one character of each class and then any, or the random source failed |
| PasswordGenerator.ShuffleDrawing | internal/controller/axonopsplatform_controller.go:1584-1591 | the loop that draws as it goes shuffles by exactly those draws, or stops at the first failure |
| PasswordGenerator.EveryDrawVectorOccurs | internal/controller/axonopsplatform_controller.go:1584-1591 | every draw vector is drawn by some run of the random source |
| PasswordGenerator.GenerateRandomPassword | internal/controller/axonopsplatform_controller.go:1531-1594 | the password is the shuffled fill, and there is none if and only if the random source fails |
| PasswordGenerator.ShuffledPermutes | internal/controller/axonopsplatform_controller.go:1584-1591 | every draw vector yields a permutation and leaves the positions above its start alone |
| PasswordGenerator.ShuffledInjective | internal/controller/axonopsplatform_controller.go:1584-1591 | different draw vectors yield different arrangements |
| PasswordGenerator.ShuffledOnto | internal/controller/axonopsplatform_controller.go:1584-1591 | every arrangement is reached by some draw vector |
| PasswordGenerator.ShuffleBijection | internal/controller/axonopsplatform_controller.go:1584-1591 | draw vectors and permutations correspond one to one |
| PasswordGenerator.PasswordIsComplex | internal/controller/axonopsplatform_controller.go:1531-1594 | for every draw sequence the password has the wanted length, at least 8, and a character of each class |
| PasswordGenerator.PasswordsExactly | internal/controller/axonopsplatform_controller.go:1531-1594 | the possible passwords are exactly the texts of the wanted length over the four classes with a character of each |
| PlatformController.Controller.ShouldRetainCredentials | internal/controller/axonopsplatform_controller.go:3214-3247 | true if and only if the named or first default class can be read and its policy is Retain |
| PlatformController.Controller.EnsureAuthenticationSecret | internal/controller/axonopsplatform_controller.go:932-1053 | the secret that is kept, completed or created, its owner, and success, for every outcome of the calls; on success the name, and that the hash is taken of what the named secret holds |
| PlatformController.Controller.DeleteEach | internal/controller/axonopsplatform_controller.go:1363-1372 | deletes the listed objects in order up to the first failure |
| PlatformController.Controller.CleanUpInternal | internal/controller/axonopsplatform_controller.go:1263-1375 | the workload goes, and the credentials too unless the storage is retained |
| PlatformController.Controller.EnsureDatabase | internal/controller/axonopsplatform_controller.go:456-545 | the disabled, external and internal branches of one database |
| PlatformController.Controller.IsComponentReady | internal/controller/axonopsplatform_controller.go:1445-1498 | ready if nothing is to be waited for, or as many replicas are ready as are asked for, and at least one |
| PlatformController.Controller.CleanUpCredentials | internal/controller/axonopsplatform_controller.go:869-920 | the loop over the blocks in the spec drops the secrets that are not retained, up to the first failure |
| PlatformController.Controller.HandleDeletion | internal/controller/axonopsplatform_controller.go:303-327 | the deletion branch: clean-up, then the finalizer |
| PlatformController.Controller.ReconcileOnce | internal/controller/axonopsplatform_controller.go:269-735 | one whole reconcile reaches the specified next state of the resource, its secrets and workloads, whatever happens between its calls |
| PlatformCredentials.CredentialStability | internal/controller/axonopsplatform_controller.go:932-1053 | in every run of reconciles, disabling, enabling, switching, deletion, re-creation and garbage collection with the block in the spec, no inline credentials and a readable class that retains: once the secret exists its data never changes |
| PlatformCredentials.RunKeeps | internal/controller/axonopsplatform_controller.go:869-1053 | the invariant behind it: the secret stays, unchanged and without an owner |
| PlatformCredentials.EnsureAuthChangesExactly | internal/controller/axonopsplatform_controller.go:959-1030 | an existing secret is rewritten if and only if no other secret is referenced and an inline value differs from the stored one |
| PlatformCredentials.PolicyAtCreationDecides | internal/controller/axonopsplatform_controller.go:975-1030 | a new secret has no owner if and only if its storage is retained at that moment; without inline credentials it is never written again |
| PlatformCredentials.InlineWriteUpdatesOwner | internal/controller/axonopsplatform_controller.go:1011-1027 | rewriting a secret for inline credentials makes the resource its owner if and only if the storage is not retained; an owner left behind by a deleted resource stays |
| PlatformCredentials.CleanUpLosesExactly | internal/controller/axonopsplatform_controller.go:1321-1375 | disabling or moving a database outside loses its secret if and only if the storage is not retained and no deletion before it fails |
| PlatformCredentials.DeletionSparesExactly | internal/controller/axonopsplatform_controller.go:869-920 | a successful deletion and the garbage collection after it spare a secret if and only if it has no owner and its block is absent or retained |
| PlatformCredentials.DeletionFinishesExactly | internal/controller/axonopsplatform_controller.go:303-327 | a deletion lets go of the resource if and only if the TLS clean-up works, every secret that is not retained goes with its keystore, and the finalizer can be removed |
| PlatformCredentials.ExternalPasswordIsGenerated | internal/controller/axonopsplatform_controller.go:465-512 | an external database gets a generated password if and only if it brings a user name and no password, references no secret, and its TLS settings are complete |
| PlatformStartup.StartupOrder | internal/controller/axonopsplatform_controller.go:638-735 | in every run with any edits, readiness changes and failures: before the Server is written, the same reconcile has read every enabled internal database with a positive replica count, all ready; before the Dashboard is written, the same of an enabled Server |
| PlatformStartup.ServerGateIsExact | internal/controller/axonopsplatform_controller.go:638-673 | undisturbed, an enabled Server is written if and only if every internal database is ready |
| PlatformStartup.ServerWrittenExactly | internal/controller/axonopsplatform_controller.go:343-693 | a smooth reconcile writes the Server if and only if it is not paused, the Server is enabled, both databases are usable, and each internal one reports exactly one ready replica, because the controller has just set the count to one |
| PlatformStartup.DashboardWrittenExactly | internal/controller/axonopsplatform_controller.go:343-735 | a smooth reconcile writes the Dashboard if and only if it is not paused, the Dashboard is enabled, both databases are usable, and either the Server and each internal database report exactly one ready replica, or the Server is off and there are no internal databases |
| PlatformSettling.CleanUpStopsExactly | internal/controller/axonopsplatform_controller.go:1321-1375 | disabling a database or moving it outside stops its workload if and only if the deletion of its StatefulSet does not fail; no other workload is touched |
| PlatformSettling.WorkloadComesLast | internal/controller/axonopsplatform_controller.go:513-537 | the workload of an internal database is written only when credentials and certificate are there, whatever fails |
| PlatformSettling.SmoothReconcileSettles | internal/controller/axonopsplatform_controller.go:455-735 | a smooth reconcile leaves a database's workload running exactly if it is enabled and internal, with one replica wanted; the Server exactly if enabled, and the Dashboard only if enabled, unless the Server waits, when both stay as they were |
| PlatformSettling.HeldTouchesNothing | internal/controller/axonopsplatform_controller.go:343-450 | paused, with an internal database but no Server, or without the certificates it needs, a reconcile touches no workload and no secret; the default issuer does not matter to a resource that names its own |
| PlatformSettling.FinalizerComesFirst | internal/controller/axonopsplatform_controller.go:330-340 | nothing is written for a resource before its finalizer is stored |
| PlatformSettling.UnsetMeansEnabled | internal/controller/axonopsplatform_controller.go:1500-1526 | a block without the switch counts as enabled, and hosts make a database external |
| PlatformSettling.ExternalNeedsCredentialsAndCertificate | internal/controller/axonopsplatform_controller.go:465-505 | without credentials, or with TLS to verify and no certificate, an external database stops the reconcile before a secret is written |
| PlatformSettling.EnsureAuthSucceedsExactly | internal/controller/axonopsplatform_controller.go:944-1040 | a referenced secret is only looked at; otherwise when the step succeeds, and when it leaves everything as it was |
| PlatformSettling.SecretHolds | internal/controller/axonopsplatform_controller.go:959-1030 | after a successful step inline credentials win, stored ones fill the gaps, and a new secret gets the default user name and the random password; the other database's secret is untouched |
| PlatformSettling.NamedClassDecides | internal/controller/axonopsplatform_controller.go:3217-3246 | with a named storage class, credentials are retained if and only if it can be read, exists and has the policy Retain |
| PlatformSettling.DefaultClassDecides | internal/controller/axonopsplatform_controller.go:3222-3237 | without a name the first default class decides, if the classes can be listed |
| LimitedBody.Limited.Read | internal/axonops/client.go:79-96 | one read over any underlying reader gives the specified bytes, error, remaining allowance and sticky error |
| LimitedBody.DeliversPrefix | internal/axonops/client.go:79-96 | for any body, chunking and buffers: delivered bytes are a prefix, left and delivered make up the limit, at most one byte more is consumed |
| LimitedBody.ShortBodyIsTransparent | internal/axonops/client.go:79-96 | a body within the limit is read as if the limiter were absent, call by call, errors included |
| LimitedBody.LongBodyIsRefused | internal/axonops/client.go:79-96 | a longer body, read on without an underlying error, delivers exactly the limit and then fails for good |
| LimitedBody.TooLargeExactly | internal/axonops/client.go:79-96 | too large is reported if and only if more than the limit was consumed |
| LimitedBody.ErrorSticks | internal/axonops/client.go:80-82 | once set, the error is all that any further call returns |
| DnsLabel.AlwaysALabel | cmd/axonops-export/export/naming.go:31-50 | every result is a label (section 2.1 of RFC 1123, at most 63 characters as in section 2.3.4 of RFC 1035) without a doubled hyphen |
| DnsLabel.FixedPoints | cmd/axonops-export/export/naming.go:31-50 | the unchanged strings are exactly those labels |
| DnsLabel.Idempotent | cmd/axonops-export/export/naming.go:31-50 | a second pass changes nothing |
| DnsLabel.KeepsLettersAndDigits | cmd/axonops-export/export/naming.go:31-50 | the letters and digits of the result are those of the input, lower-cased and in order, cut off only by the length limit; without any the result is `unnamed` |
| DnsLabel.OnePass | cmd/axonops-export/export/naming.go:31-50 | the pipeline equals one pass that lowers letters, keeps digits, and puts one hyphen between two of them if and only if the text has a space, `_`, `.`, `/` or `-` there; cut to 63, not behind a hyphen |
| DnsLabel.WordsAreJoined | cmd/axonops-export/export/naming.go:33-38 | two words with any breaks between them are joined by one hyphen |
| SortedKeys.ListIsUnique | internal/controller/config_hash.go:37-41 | a set of keys has one sorted listing |
| SortedKeys.LessIsLexicographic | internal/controller/config_hash.go:41 | the order is that of strings: the first difference decides, a proper prefix comes first |
| SortedKeys.SortKeys | internal/controller/config_hash.go:37-41 | collects the keys in any order and returns that listing |
| ConfigHash.WriteLines | internal/controller/config_hash.go:43-46 | the loop writes one line per key |
| ConfigHash.ConfigDataHash | internal/controller/config_hash.go:32-70 | the hash depends on the map alone, not on the order of its keys, and is empty for the empty map |
| ConfigHash.PreimageIsInjective | internal/controller/config_hash.go:32-70 | equal texts mean equal maps, for keys without `=` and values without newline |
| ConfigHash.SharedTextExactly | internal/controller/config_hash.go:43-46 | a map with `=`-free keys and any values shares its text with another such map if and only if it has two entries or more, or its only value holds a line that reads like an entry with a later key |
| ConfigHash.EqualsSignInKey | internal/controller/config_hash.go:43-46 | an equals sign in a key makes two maps hash alike |
| ConfigHash.NewlineInValue | internal/controller/config_hash.go:43-46 | so does a newline in a value |
| RemoteConfig.CollectLines | internal/controller/backups/axonopsbackup_controller.go:553-558 | the loop appends one line per non-empty value |
| RemoteConfig.FormatRemoteConfig | internal/controller/backups/axonopsbackup_controller.go:544-560 | the text depends on the map alone: its non-empty entries in sorted order, joined by newlines |
| RemoteConfig.RemoteConfigRoundTrip | internal/controller/backups/axonopsbackup_controller.go:544-560 | reading the text at newlines and first separators gives back exactly the non-empty entries in order, if and only if none has a newline or a separator beginning in its key |
| RemoteConfig.PlainKeyIsReadable | internal/controller/backups/axonopsbackup_controller.go:544-560 | keys without spaces meet that condition |
| RemoteConfig.EntriesAreNonEmpty | internal/controller/backups/axonopsbackup_controller.go:553-558 | the printed entries are exactly those with a value |
| DashboardMerge.MergeDashboard | internal/controller/alerts/axonopsdashboardtemplate_controller.go:315-332 | the loop yields the merged list |
| DashboardMerge.RemoveDashboard | internal/controller/alerts/axonopsdashboardtemplate_controller.go:361-371 | the list without the name, and whether it was in it |
| DashboardMerge.MergeKeepsTheRest | internal/controller/alerts/axonopsdashboardtemplate_controller.go:315-332 | others keep content and place; the merged one keeps its place and UUID, or comes last |
| DashboardMerge.MergeKeepsUnique | internal/controller/alerts/axonopsdashboardtemplate_controller.go:315-332 | names stay unique |
| DashboardMerge.MergeIsIdempotent | internal/controller/alerts/axonopsdashboardtemplate_controller.go:315-332 | merging the same dashboard again changes nothing |
| DashboardMerge.MergesCommute | internal/controller/alerts/axonopsdashboardtemplate_controller.go:315-332 | merges of different names give the same dashboards in either order, and the same list if and only if one of the names was there before |
| DashboardMerge.DeleteUndoesMerge | internal/controller/alerts/axonopsdashboardtemplate_controller.go:361-371 | deleting a merged name gives the list without that name |

## Left out

- PlatformController.Controller.ReconcileOnce: does not model the writes of status and conditions, because nothing that the controller decides about secrets or workloads reads them; only a failed clearing of the Paused condition, which ends a reconcile early, is a case of its own.
- HTTP, TLS, JSON and YAML encoding, SHA-256, UUID and random sources: the digest is a parameter, fresh IDs and draws are inputs of a plan.
- Comments against code: `trimSpace` of the exporter trims spaces and tabs only, not all ASCII white space; the model follows the code.
- Text is a sequence of characters; UTF-8 encoding and byte offsets inside a character are not modelled.
- Tracing, metrics, logging, command-line flags, manager set-up, generated code, and the Progressing, Failed and DriftDetected conditions beyond what the guards read.
- Construction of StatefulSets, Services, Ingress, Gateway and configuration objects: a write is an outcome that can fail before or after the object is applied.
- TCP and shell healthcheck controllers, silence windows, scheduled repairs, adaptive repairs and Kafka controllers: the same shapes again; TCP and shell checks appear as data that must stay untouched.
- Convergence of dashboards and commitlog archives: their drift checks only ask whether some remote item exists.
- A backup round trip: the builder keeps only the part behind the dot of `keyspace.table`, so it is lossy.
- Conflicts between whole-list writes of different controllers: the remote API has no compare-and-swap; `HealthcheckHealing.SelfHealing` starts from any document that such a conflict may leave.
- Keystore secrets of the platform: they follow the same retention policy; only whether their deletion succeeds is modelled.
- Secret references: whether a referenced secret exists with its keys is an outcome; its contents belong to the user.
- Reads from a stale informer cache: a fetch returns the stored object; a write is refused if anyone wrote in between.
- Parameters of alert endpoints: `buildParams` is an outcome that succeeds or fails.
- A POST that the server applies after the client gave up on it and has already sent the next one.
- Metadata of exported resources other than log alerts; a log alert's kind and API version.
- Number formatting in metric expressions: everything behind the metric's first word is an opaque text.
- `slices.Sort` and `sort.Strings` are modelled by an insertion sort; both yield the one sorted listing. The two hash functions differ in their Go value type only and share one method.
- `mergeAnnotationsWithChecksum`: one map update with nothing to relate it to.
- List and map fields are values that methods reassign; sharing of a Go slice's backing array between two names is not modelled. The password buffer and the read buffer are arrays.

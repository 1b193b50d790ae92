# kube-janitor: a model of its deletion safety

kube-janitor deletes expired, orphaned and abandoned Namespaces and ConfigMaps. What keeps it from
deleting the wrong thing is spread over a classifier chain, reference resolvers, a policy engine, an
executor with pre-flight checks, and two reconcilers that read through a possibly stale cache. This
project models that pipeline in Dafny and proves what it guarantees, over every interleaving of
reconciles with users, other controllers, lagging caches and failing API calls.

## How the model is built

- `Domain` holds the shared types. Library parsers and the answers to API reads during one
  classification are functions handed to the model (`Parsers`, `Env`), so every theorem holds for all
  of them.
- `Facts` says what the theorems say about objects and policies in the words of their manifests: annotation
  texts, finalizers, clock values, thresholds as numbers. These readings are independent of the functions
  by which the code is modelled.
- `Resolvers`, `Classifier`, `PolicyEngine`, `Metrics`, `Reporter` and `Executor` follow the Go files.
  Code that updates state is a method or a class (`Registry`, `Recorder`, `EventReporter`, `ApiServer`,
  `DefaultExecutor`) proved against a function, and the theorems are about that function.
- `Production` is the chain that the manager assembles; `Production.ClassByState` is an independent reading
  of the class of every object, proved to be what that chain gives.
- `Pipeline` is one reconcile as a machine that advances by one outside answer at a time (cached Get,
  classification reads, policy listing, pre-flight read, Delete, event). `Reconcilers` proves that the
  two imperative Reconcile methods do exactly what this machine does.
- `Cluster` runs any number of these machines against an API server on which objects are created,
  updated and removed between any two steps. UIDs are never used twice, the cache holds any past
  version of a key, and every call can fail. A Delete can even fail after it was carried out.
- `Interleaved` proves that a reconcile of any run, whoever steps in between, does what the sequential
  machine does on the answers it was given: same error, and its Delete requests and events are those of
  its own steps. `OneReconcile` proves theorems about the sequential machine with the manager's set-up,
  and `EveryRun` carries them over to every reconcile of every run. `Undisturbed` proves the existence
  half: from any reachable world, a reconcile left alone can run to its end.
- `Outcomes` states all that a reconcile leaves behind outright, counters with their labels, requests, events
  and error, and `ByState` derives from it what is deleted and announced from the state of the object.
- `Invariants`, `Safety`, `Conservation` and `DryRun` hold the theorems about whole runs; `Recreated` and
  `Witnesses` hold concrete runs and reconciles of the production controller.
- `DeepCopy` models the generated deep copy of a policy spec on the heap, with pointers, slices and maps
  as references.

## What holds, and what does not

The theorems follow the code. In these places the code differs from its own documentation:

- README.md line 77 promises a confidence of at least 0.9 for a deletion. The delete annotation ignores
  confidence, and a policy may set any threshold; `PolicyEngine.DeletionBelowDefaultThreshold` says
  exactly when a deletion happens below 0.9, and `Witnesses.DeletedBelowDefaultThreshold` shows one.
- The policy engine does not exempt Active findings (`PolicyEngine.ActiveIsNotExempt`). An Active object with
  ownerReferences is refused by the executor, but one that is Active because a Pod or workload uses it is
  deleted whenever a live delete is authorised (`OneReconcile.ActiveDeletedExactly`; a mounted ConfigMap in
  `Witnesses.ActiveConfigMapIsDeleted`), and no event announces it (`OneReconcile.AnnouncedDeletion`).
- Nothing reads the deletion mark of an object. A ConfigMap that a finalizer keeps alive gets a further
  Delete, count and Deleted event in every reconcile (`OneReconcile.DeletedAgain`).
- The header of internal/policy/engine.go says that the most specific selector wins. The code takes the
  first listed policy that names the kind.
- The threshold comment in the ActionConfig type says that DryRun mode ignores the threshold. The code
  uses it, with a default of 0.6 (`PolicyEngine.DryRunModePreviewsDelete`).
- internal/classifier/protection_strategy.go line 17 calls the protection annotation case-insensitive.
  The comparison is exact.
- The Delete carries no UID precondition. `Safety.DeleteHitsRereadObject` says exactly when it hits the
  object that was checked, and `Recreated.DeleteCanHitAnotherObject` is a run of the production controller
  in which it does not.
- The generated deep copy of a policy spec assigns its action struct, so the copy shares the cell of the
  confidence threshold. `DeepCopy.JanitorPolicySpec.DeepCopy` proves that this is all that is shared,
  so copy and original are independent if and only if the action sets no threshold
  (`DeepCopy.EditCopy`, `DeepCopy.EditOriginal`, `DeepCopy.EditThresholdOfCopy`). A copy of a struct onto
  itself loses what its pointers lead to.

## Model

| member | source | states |
|---|---|---|
| Safety.DeletionProvenance | internal/action/executor.go:86-159 | in every run, each Delete is for the key its reconcile was asked about and was preceded, in order and in that reconcile, by a cached read, a classification of that copy, a live delete decision by the policies then listed, and a server read that returned the classified UID, only the janitor finalizer and no ownerReferences, outside the protected namespaces; the decision was authorised (no global dry run, no safe class, override or first policy for the kind) |
| Safety.SameIncarnation | internal/action/executor.go:120-137 | however old the cached copy, the object re-read before a Delete is the incarnation that was classified: its UID held the key without a break since the cached version was served, and its creation time is the same |
| Safety.DeleteHitsRereadObject | internal/action/executor.go:119-159 | the key still holds the re-read UID at the Delete if and only if nobody removed the key in between |
| Recreated.DeleteCanHitAnotherObject | internal/action/executor.go:133-159 | a complete run of the manager's controller, by cache read, elapsed TTL, policy in Delete mode and re-read, in which the Delete of the checked object is accepted for a re-created one with another UID and no TTL |
| Safety.TtlReasonIsTrue | internal/classifier/ttl_strategy.go:44-66 | a ttl-expired finding of the manager's chain means that the object's own annotation holds a readable duration that has elapsed |
| Safety.TtlStillElapsed | internal/classifier/ttl_strategy.go:52-66 | the incarnation deleted for a TTL d is older than d, in exact arithmetic, at every clock value from its classification on, the Delete included |
| Safety.DeletedEventIsTrue | internal/report/reporter.go:77-106 | a reconcile that emits a Deleted event saw, in its step just before, the key absent at the server or its Delete accepted |
| Safety.ContinuousLife | internal/action/executor.go:133-137 | equal UIDs at two moments mean that the key held that UID at every moment in between, since UIDs are never reused |
| Invariants.RunKeepsInv | internal/controller/configmap_reconciler.go:36-89 | every reachable world: what servers, caches and reconciles hold was stored once at its key under its birth UID and creation time, and a finding refers to the object it was made from |
| Invariants.OnlyWayInto | internal/controller/configmap_reconciler.go:43-86 | the phase and answer by which a reconcile can enter each later phase, with what was computed on the way |
| Invariants.EnteredAt | internal/controller/configmap_reconciler.go:36-89 | for every phase a reconcile is in there is the one step of its own that led there, after which it was not touched |
| Conservation.CountersConserved | pkg/metrics/metrics.go:98-132 | at every moment of every run, over all kinds and for each kind and controller: scans, classifications, evaluations, errors and live deletions balance with the reconciles that ended each way and those under way |
| Conservation.CountersAgreeAtRest | pkg/metrics/metrics.go:98-132 | with no reconcile under way: scans = classifications + classify failures, in all and per kind; classifications = evaluations + listing failures; errors under each controller's label = its reconciles that returned an error; unnamed errors of each kind = failed Deletes of that kind; live delete actions of each kind = accepted Deletes of that kind |
| Conservation.TotalsMove | internal/controller/namespace_reconciler.go:55-112 | which totals each step of a reconcile moves, over all phases, answers and decisions |
| DryRun.DryRunIsInert | internal/action/executor.go:77-97 | under the global dry run, in every run, the server changes only by somebody else's steps, and no reconcile ever reaches the re-read or the Delete |
| DryRun.DryRunShadowsLive | internal/policy/engine.go:60-309 | for every live run without a live delete decision, the dry controller has a run on the same schedule and answers with the same phases, events, errors and counters, up to the dry-run flag and label |
| DryRun.PartAtLiveDelete | internal/action/executor.go:86-92 | at the first live delete decision the two part: the dry controller takes the same action for the same policy, counts it as a dry run and concludes; the live one is refused for a protected key and otherwise goes on to the re-read |
| PolicyEngine.GlobalDryRunShadows | internal/policy/engine.go:60-115 | the global switch changes the dry-run flag of a decision and nothing else |
| OneReconcile.QuiescentReconcileExact | internal/action/executor.go:109-159 | on an unchanged object with the manager's set-up, a reconcile is refused by a safety check exactly when it decides a live delete of an object with ownerReferences, and by that check alone; it sends its one Delete exactly when it decides a live delete of an object without any |
| OneReconcile.QuiescentChecks | internal/action/executor.go:109-149 | after a live delete decision the protected, UID and finalizer checks cannot fire on the unchanged object |
| OneReconcile.OrphanedIsNeverDeleted | internal/classifier/ownerref_strategy.go:94-103 | an Orphaned finding never ends in the deletion of an unchanged object |
| OneReconcile.AbandonedNeedsConsent | internal/classifier/resolver_strategy.go:33-67 | an Abandoned object has confidence 0.6 and is decided a live delete if and only if the override or an explicit threshold of the first matching policy consents to it |
| OneReconcile.RipeObjectIsDeletedOnce | internal/controller/configmap_reconciler.go:54-88 | progress: an unprotected, ownerless object with an elapsed TTL, under a first policy in Delete mode within reach, gets exactly one Delete and no error |
| OneReconcile.ReplayAfterRemoval | internal/action/executor.go:119-131 | idempotence: a later replay from the stale cache, once the key is gone, sends no Delete and returns no error, whatever policies are then listed |
| OneReconcile.AnnouncedDeletion | internal/controller/configmap_reconciler.go:82-86 | an accepted deletion is announced as Deleted exactly for an Expired finding and not at all for an Active one |
| Outcomes.DecidedOutcome | internal/controller/namespace_reconciler.go:84-112 | for every chain, policy and answer, a reconcile that gets to a decision leaves exactly these counters with their labels, objects, Delete requests, event and error |
| Outcomes.EndsEarly | internal/controller/namespace_reconciler.go:55-89 | an absent object and a terminating Namespace leave no trace; a failed read, classification or listing leaves exactly the counts so far and one error of the controller |
| Outcomes.Identified | internal/controller/configmap_reconciler.go:59 | finding and decision carry the full reference of the object and the name of the reconcile |
| ByState.DeletedByState | internal/action/executor.go:109-159 | an object unchanged at the re-read is sent a Delete exactly if its state gives it a class that is not safe, delete is said or nothing is said and the first policy for its kind is in Delete mode with 0.6 or 0.9 meeting its threshold or 0.9, there is no global dry run, and it has no ownerReferences |
| ByState.CondemnedExactly | internal/policy/engine.go:60-115 | a live delete is decided exactly in these cases, by the full policy list |
| ByState.SparedByAnnotation | internal/policy/engine.go:131-148 | for every chain and all policies, an object that says skip or report is sent no Delete and stays as it is |
| ByState.EventByState | internal/report/reporter.go:77-106 | no event with an error; without one, by the state of the object: Protected, Blocked, TTLExpired, DryRunDelete or Deleted for an Expired object by its decision, Orphaned, Abandoned, and none for an Active object |
| OneReconcile.ActiveDeletedExactly | internal/action/executor.go:146-149 | an unchanged Active object is sent a Delete if and only if it has no ownerReferences and a live delete is authorised |
| OneReconcile.RipeDeletionShows | internal/action/executor.go:159-170 | the deletion of a ripe object is counted once as a live delete and announced once as Deleted |
| OneReconcile.DeletedAgain | internal/controller/configmap_reconciler.go:43-88 | an already deleted ConfigMap that a finalizer keeps alive gets one more accepted Delete, count and Deleted event |
| Witnesses.ActiveConfigMapIsDeleted | internal/policy/engine.go:248-258 | the manager's controller classifies a ConfigMap mounted by a running Pod as Active and deletes it |
| Witnesses.DeletedBelowDefaultThreshold | internal/policy/engine.go:273-276 | the manager's controller deletes an Abandoned ConfigMap of confidence 0.6 under an explicit threshold of 0.6 |
| OneReconcile.ResolverFailureEndsReconcile | internal/classifier/resolver_strategy.go:38-41 | for an object that nothing before the resolvers speaks for, a failing resolver that handles it ends the reconcile: one scan and one error counted, no evaluation, action, event or Delete |
| Reconcilers.ConfigMapReconciler.Reconcile | internal/controller/configmap_reconciler.go:36-89 | error, counters, objects, Delete requests and events are exactly those of the pipeline machine run to its end on the answers received |
| Reconcilers.NamespaceReconciler.Reconcile | internal/controller/namespace_reconciler.go:48-113 | the same, with the guard for a terminating Namespace |
| Reconcilers.SharedDeps.Act | internal/controller/configmap_reconciler.go:71-88 | execution, error counting and reporting after a decision are those of the machine from its decision on |
| Reconcilers.SharedDeps.constructor | cmd/manager/main.go:105-165 | the registry, the chain, the engine's switch and the executor are built from one list of protected namespaces, as `Manager` says, and counters start at zero |
| Reconcilers.DecidedAsPerformed | internal/action/executor.go:63-171 | one Execute call is the machine from the decision to its end |
| Interleaved.InterleavedIsComplete | internal/controller/configmap_reconciler.go:36-89 | in every run, from the beginning of a reconcile to any later index, whoever steps in between: followed by the rest of the machine it is the sequential reconcile on the answers it was given, and the view it carries has grown by exactly its own Delete requests and events |
| Interleaved.AnswersGiven | internal/controller/configmap_reconciler.go:36-89 | no reconcile asks anything twice, so what it was told always fits into one record of answers |
| EveryRun.WholeIsComplete | internal/controller/namespace_reconciler.go:48-113 | Delete requests, events and error of every finished reconcile of every run are those of the sequential reconcile |
| EveryRun.EveryReconcileIsWhole | internal/controller/namespace_reconciler.go:48-113 | every finished reconcile of every run has a record of answers to which these theorems apply |
| EveryRun.QuiescentInEveryRun | internal/action/executor.go:109-159 | in every run, if the cached object is still on the server at the re-read: refusal exactly for a live delete of an object with ownerReferences, one Delete exactly for a live delete of one without |
| EveryRun.OrphanedInEveryRun | internal/classifier/ownerref_strategy.go:94-103 | in every run, an Orphaned finding sends no Delete while the object is unchanged |
| EveryRun.ActiveInEveryRun | internal/policy/engine.go:70-114 | in every run, an unchanged Active object is sent a Delete if and only if it has no ownerReferences and a live delete is authorised |
| EveryRun.RipeInEveryRun | internal/controller/configmap_reconciler.go:54-88 | in every run, a ripe object still there at the re-read gets exactly one Delete; once accepted, exactly the Deleted event and no error |
| EveryRun.ReplayInEveryRun | internal/action/executor.go:119-131 | in every run, a later reconcile that reads the object from the cache but not from the server sends no Delete and returns no error |
| EveryRun.OneDeleteAtMost | internal/action/executor.go:100-171 | in every run, no reconcile sends more than one Delete, and that is for its own key |
| EveryRun.NothingProtectedIsDeleted | internal/action/executor.go:109-117 | in every run of every controller, whatever its chain, policies and answers: no Delete is sent for a request whose namespace is on the list, or whose namespace is empty and whose name is |
| EveryRun.DeletedInEveryRun | internal/action/executor.go:86-159 | in every run, an object still there at the re-read is sent a Delete exactly if it has a class, is condemned by annotation or first policy, and has no ownerReferences |
| EveryRun.SparedInEveryRun | internal/policy/engine.go:131-148 | in every run of every controller, an object that says skip or report is sent no Delete |
| EveryRun.EventsInEveryRun | internal/report/reporter.go:77-106 | in every run, a reconcile that returns an error announces nothing, and any other exactly the event that the state of the object calls for |
| Undisturbed.AloneIsComplete | internal/controller/configmap_reconciler.go:36-89 | from any reachable world a reconcile left alone has a schedule to its end on that world's answers, with the effect, Delete requests and error of the sequential run |
| Executor.DefaultExecutor.Execute | internal/action/executor.go:63-97 | error, counters, objects and Delete requests for every action and decision |
| Executor.DefaultExecutor.Delete | internal/action/executor.go:100-171 | the five pre-flight checks, the Delete and the handling of its answer, in order |
| Executor.DefaultExecutor.Recheck | internal/action/executor.go:119-149 | what each answer to the re-read leads to |
| Executor.DefaultExecutor.Issue | internal/action/executor.go:159-170 | one Delete request, with the counter and error for each answer |
| Executor.CheckByManifest | internal/action/executor.go:119-149 | what is cleared is exactly an object with the finding's UID, no finalizer but janitor.io/cleanup and no ownerReferences; otherwise the first failing check is the reason |
| Executor.DefaultExecutor.constructor | internal/action/executor.go:42-60 | the protected set holds exactly the configured namespaces |
| PolicyEngine.LiveDeleteExactly | internal/policy/engine.go:60-115 | a live delete is decided if and only if there is no global dry run, the class is not Protected, Unknown or Blocked, and the annotation says delete, or it says nothing and the first policy that names the kind is in Delete mode with its threshold, or else 0.9, met |
| PolicyEngine.SafeClasses | internal/policy/engine.go:69-100 | nothing is done about a Protected or Unknown finding and a Blocked one is reported, whatever else is said |
| PolicyEngine.OverrideByText | internal/policy/engine.go:117-168 | skip, report and delete decide alone, delete live exactly without the global dry run; any other text is as good as none |
| PolicyEngine.PolicyByMode | internal/policy/engine.go:194-283 | the whole decision under the first policy that names the kind, for each mode, by its threshold or the defaults 0.9 and 0.6 |
| PolicyEngine.DefaultByClass | internal/policy/engine.go:285-309 | without such a policy, an Expired, Orphaned, Abandoned or Ephemeral finding of at least 0.6 is reported and nothing is done about any other |
| PolicyEngine.ReportExactly | internal/policy/engine.go:92-309 | exactly when a finding is only reported |
| PolicyEngine.PolicyOfDecision | internal/policy/engine.go:194-271 | the policy named in a decision is the first one for the kind, and only if it decided; the dry-run flag is set exactly by the global switch or by a deciding policy in DryRun mode |
| PolicyEngine.MatchingPolicyIsFirst | internal/policy/engine.go:170-192 | the chosen policy is the one of least index that lists the kind, and none is chosen exactly when none does |
| PolicyEngine.DeletionBelowDefaultThreshold | internal/policy/engine.go:273-283 | below confidence 0.9 a live delete is decided if and only if the override or an explicit threshold of the first matching policy consents |
| PolicyEngine.ActiveIsNotExempt | internal/policy/engine.go:70-114 | one policy in Delete mode decides a live delete of an Active finding |
| PolicyEngine.ClassMattersOnlyByDefault | internal/policy/engine.go:285-309 | outside the three safe classes, a class changes a decision only where the built-in default decides |
| PolicyEngine.MonotoneInConfidence | internal/policy/engine.go:194-309 | more confidence never leads to a weaker action |
| PolicyEngine.AntitoneInThreshold | internal/policy/engine.go:273-283 | a higher explicit threshold in the deciding policy never leads to a stronger action |
| PolicyEngine.DryRunModePreviewsDelete | internal/policy/engine.go:208-271 | trying a Delete policy in DryRun mode picks an action at least as strong, and a stronger one exactly without an explicit threshold for a confidence in [0.6, 0.9) |
| PolicyEngine.PrefilterPreservesEvaluate | internal/controller/namespace_reconciler.go:116-149 | filtering the policies by the finding's kind never changes a decision |
| PolicyEngine.KindFilterKeepsMultiplicity | internal/controller/namespace_reconciler.go:116-131 | the filter keeps each matching policy as often as it is listed, not once per time it names the kind, and drops all others |
| PolicyEngine.KindFilterOfConcat | internal/controller/namespace_reconciler.go:116-131 | the filter works entry by entry, so it keeps the order |
| PolicyEngine.ListMatchingPolicies | internal/controller/namespace_reconciler.go:116-131 | this copy of the filter computes the filtered list, or fails with the listing |
| PolicyEngine.ListMatchingPoliciesForKind | internal/controller/namespace_reconciler.go:134-149 | so does the other copy |
| Classifier.FirstSpeakerWins | internal/classifier/classifier.go:50-91 | for any chain, the result is that of the least strategy that errs or says something; if none does, Unknown at low confidence |
| Classifier.LaterStrategiesIrrelevant | internal/classifier/classifier.go:57-80 | strategies after one that speaks are never consulted, and a silent one can stand anywhere |
| Classifier.ClassifyRefersTo | internal/classifier/classifier.go:93-103 | a finding identifies the object that was classified |
| Classifier.OwnerChecksAgree | internal/classifier/ownerref_strategy.go:43-104 | the owner strategy and the owner resolver give the same answer for every owner list and lookup outcome: the same fault, or Active exactly when the resolver returns a reference; its references are one for each owner that lives on, in order |
| Classifier.ScansAgree | internal/resolver/ownerref_resolver.go:43-93 | from any point of the two loops on, they fail at the same owner or find the same live owners, one reference for each |
| Classifier.OwnerVerdictExactly | internal/classifier/ownerref_strategy.go:45-104 | failure exactly when some owner cannot be read, naming the first; otherwise Active if some lookup finds the UID named and Orphaned if none does |
| Classifier.ClassifyOwnerRef | internal/classifier/ownerref_strategy.go:33-104 | the loop that partitions the owners computes that verdict |
| Classifier.SaturationHarmless | internal/classifier/ttl_strategy.go:48-57 | Go's saturating subtraction decides as exact arithmetic does, unless the age exceeds the longest duration and the TTL is that duration |
| Classifier.TtlMonotone | internal/classifier/ttl_strategy.go:52-57 | expiry is monotone in the clock, and the 64-bit overdue amount of a positive TTL is exact and positive |
| Classifier.TtlAgainstExpiresAt | internal/classifier/expiresat_strategy.go:34-64 | the verdict of a TTL d equals that of an expires-at d + 1 ns after creation unless the age saturates, and differs from that of one d after creation at that single instant |
| Classifier.NewProtectionStrategy | internal/classifier/protection_strategy.go:28-40 | the set holds exactly the given namespaces, no labels are required, and an empty key gets the default |
| Classifier.CheckLabels | internal/classifier/protection_strategy.go:96-104 | the loop over the required labels, in any order, decides that the object carries all of them, a missing label reading as empty |
| Classifier.ClassifyProtection | internal/classifier/protection_strategy.go:46-118 | the verdict by namespace, then annotation, then labels |
| Classifier.ProtectionByManifest | internal/classifier/protection_strategy.go:46-118 | the whole verdict: by the list (namespace, or name of a cluster-scoped object), then by the annotation text, then by all labels, and for nothing else |
| Classifier.TtlByManifest | internal/classifier/ttl_strategy.go:39-82 | the whole verdict: the object's own TTL before a positive default, an error for an unreadable one, Expired for what outlived it |
| Classifier.ExpiresAtByManifest | internal/classifier/expiresat_strategy.go:34-64 | the whole verdict: an error for an unreadable timestamp, Expired from its very instant on |
| Classifier.VerdictByReferences | internal/classifier/resolver_strategy.go:38-67 | the registry's error, Active at 0.9 with the evidence of each reference in order, or Abandoned at 0.6 |
| Classifier.ClassifyFinalizer | internal/classifier/finalizer_strategy.go:29-60 | the loop that collects foreign finalizers decides Blocked exactly when there is one |
| Classifier.ClassifyByResolvers | internal/classifier/resolver_strategy.go:33-67 | error, Active with one evidence item per reference, or Abandoned, by the registry's resolution |
| Production.ChainIsStaged | cmd/manager/main.go:124-135 | what the six strategies of the manager's chain amount to for every object |
| Production.RangeOfChain | cmd/manager/main.go:124-135 | every successful classification is one of six classes, never Unknown, with confidence 0.6 exactly for Abandoned and 0.9 otherwise |
| Production.ProtectedAndBlockedExactly | internal/classifier/protection_strategy.go:46-118 | Protected are exactly the objects in a listed namespace, the cluster-scoped ones with a listed name, and those annotated "true"; Blocked exactly the others with a finalizer that is not janitor.io/cleanup |
| Production.NameAloneDoesNotProtect | internal/classifier/protection_strategy.go:66-77 | an object in a namespace off the list is not protected by a name that is on it |
| Production.ChainByState | cmd/manager/main.go:124-135 | for every object, the class (or its absence) and confidence that the manager's chain gives are those read from its manifest, its owners' lookups and what uses it |
| Production.OwnedByLookups | internal/classifier/ownerref_strategy.go:43-104 | an object left to its owners is Active if one lives on, Orphaned if none does, unclassified if one cannot be read |
| Production.NamespaceLeftToResolvers | internal/resolver/namespace_resolver.go:67-119 | a Namespace left to the resolvers is Active if a listed Pod is Running or Pending or else a Deployment is listed, Abandoned if neither; unclassified without the Pods, or without the Deployments when no such Pod settles it |
| Production.ExpiredAndFailedExactly | internal/classifier/expiresat_strategy.go:34-64 | exactly which objects are Expired and exactly when classification fails: an unreadable TTL hides a passed deadline, a passed TTL hides an unreadable deadline |
| Production.OwnersDecideClass | internal/classifier/ownerref_strategy.go:38-41 | Orphaned, Abandoned and Active are given only on the grounds of owners or of resolved references |
| Production.ConfigMapLeftToResolvers | internal/classifier/resolver_strategy.go:33-67 | a ConfigMap that no earlier strategy speaks for is Active if a listed Pod names it, Abandoned if none does, and unclassified without the listing |
| Production.OwnerResolverRedundant | cmd/manager/main.go:119-122 | registering the owner resolver, at any place among any resolvers, changes no result for any object |
| Production.BrokenResolverStopsClassify | internal/classifier/resolver_strategy.go:38-41 | with a failing resolver that handles the object, only earlier strategies can classify it |
| Resolvers.AggregationFailsSafe | internal/resolver/registry.go:34-56 | ResolveAll errs if and only if a resolver that handles the object failed, and its references are exactly those of the handling resolvers that succeeded |
| Resolvers.AggregateOfConcat | internal/resolver/registry.go:24-56 | the answer of a longer registry is the answers of its parts, in order |
| Resolvers.Registry.Register | internal/resolver/registry.go:24-26 | registration appends |
| Resolvers.Registry.ResolveAll | internal/resolver/registry.go:34-56 | the loop aggregates references and errors in registration order |
| Resolvers.ConfigMapReferencesExact | internal/resolver/configmap_resolver.go:57-65 | exactly one reference per listed Pod that names the ConfigMap, in list order, from that Pod to that ConfigMap, backed by the first place that names it |
| Resolvers.ConfigMapRefsExact | internal/resolver/configmap_resolver.go:35-66 | the Pods of the object's own namespace are searched, the references lead to the object itself, and a failed listing is the error |
| Resolvers.PodReferenceExact | internal/resolver/configmap_resolver.go:78-132 | a Pod gives a reference if and only if a volume, or an envFrom or env key of an init or regular container, names the ConfigMap |
| Resolvers.PodReferenceBacked | internal/resolver/configmap_resolver.go:78-132 | that reference goes from the Pod to the ConfigMap, by a volume if one names it, and otherwise by the environment of the first container, init containers first, that names it, with that Pod or container as its evidence |
| Resolvers.FirstSiteIsLeast | internal/resolver/configmap_resolver.go:78-132 | the place found is the one of least index in volume, init, regular, envFrom-before-env order |
| Resolvers.ResolveConfigMap | internal/resolver/configmap_resolver.go:35-66 | the loop over Pods computes those references |
| Resolvers.PodReferencesConfigMap | internal/resolver/configmap_resolver.go:68-133 | the nested search loops find the reference from the first place |
| Resolvers.ResolveOwners | internal/resolver/ownerref_resolver.go:35-94 | the loop over owners with its skips and error exit computes the references of the scan |
| Resolvers.NamespaceEarlyExitExact | internal/resolver/namespace_resolver.go:67-119 | the early exits return the first of all running or pending Pods, then Deployments, as references spelled out in full, so none exactly when there is none; such a Pod answers even if Deployments cannot be listed |
| Resolvers.ResolveNamespace | internal/resolver/namespace_resolver.go:52-120 | the search with early returns computes those references |
| Metrics.Recorder.RecordScan | pkg/metrics/metrics.go:98-100 | one scan counted for the kind and nothing else changed |
| Metrics.Recorder.RecordClassification | pkg/metrics/metrics.go:103-105 | one classification counted for the kind and class and nothing else changed |
| Metrics.Recorder.RecordAction | pkg/metrics/metrics.go:108-114 | one action counted under its dry_run label and nothing else changed |
| Metrics.Recorder.RecordError | pkg/metrics/metrics.go:117-119 | one error counted under the controller label unknown and nothing else changed |
| Metrics.Recorder.RecordReconcileError | pkg/metrics/metrics.go:122-124 | one error counted under the controller's label and nothing else changed |
| Metrics.Recorder.RecordPolicyEvaluation | pkg/metrics/metrics.go:127-132 | one evaluation counted and nothing else changed |
| Reporter.EventReporter.Report | internal/report/reporter.go:58-75 | exactly one event, about the object, with the reason for its finding and decision |
| DeepCopy.JanitorPolicySpec.DeepCopy | api/v1alpha1/zz_generated.deepcopy.go:105-112 | the copy has the value of the original, nil and empty kept apart; all it reaches is new except exactly the threshold cell of the action, so the two reach nothing in common if and only if the action sets no threshold |
| DeepCopy.JanitorPolicySpec.DeepCopyInto | api/v1alpha1/zz_generated.deepcopy.go:73-102 | the value of the copy into another spec and of a copy onto itself; what the copy reaches is new but for the shared threshold |
| DeepCopy.JanitorPolicySpec.WritesToAnother | api/v1alpha1/zz_generated.deepcopy.go:73-102 | specs that reach nothing in common keep their values whatever is written in place through the other |
| DeepCopy.EditCopy | api/v1alpha1/zz_generated.deepcopy.go:105-112 | for every spec without an action threshold: whatever is then written in place to the copy, nothing that existed before changes |
| DeepCopy.EditOriginal | api/v1alpha1/zz_generated.deepcopy.go:105-112 | for every such spec: whatever is then written in place to the original, the copy keeps its value |
| DeepCopy.EditThresholdOfCopy | api/v1alpha1/zz_generated.deepcopy.go:96 | for every spec with an action threshold: a write to the copy's threshold is a write to the original's |
| DeepCopy.ThresholdIsShared | api/v1alpha1/zz_generated.deepcopy.go:96 | a concrete spec whose threshold changes when its copy's is lowered |
| DeepCopy.ActionConfig.DeepCopyInto | api/v1alpha1/zz_generated.deepcopy.go:268-275 | the action's own deep copy, which the spec's does not call, would share nothing; onto itself it zeroes the threshold |
| DeepCopy.ResourceSelector.DeepCopyInto | api/v1alpha1/zz_generated.deepcopy.go:146-163 | an equal selector with a new slice and new selectors; onto itself these are zeroed |
| DeepCopy.TTLConfig.DeepCopyInto | api/v1alpha1/zz_generated.deepcopy.go:176-183 | an equal TTL configuration with a new duration; onto itself that is zeroed |
| DeepCopy.ProtectionConfig.DeepCopyInto | api/v1alpha1/zz_generated.deepcopy.go:196-210 | an equal protection configuration with a new map and slice; onto itself these are emptied and zeroed |
| DeepCopy.OrphanConfig.DeepCopyInto | api/v1alpha1/zz_generated.deepcopy.go:223-235 | an equal orphan configuration with new cells; onto itself these are zeroed |
| DeepCopy.PRNamespaceConfig.DeepCopyInto | api/v1alpha1/zz_generated.deepcopy.go:248-255 | an equal PR-namespace configuration with a new duration; onto itself that is zeroed |

## Left out

- Message, reason and evidence texts: only reason codes and the identity of evidence sources are modelled.
- Logging, the reconcile-duration histogram, requeue intervals and the wall-clock stamps DecidedAt and ClassifiedAt.
- Registration of the Prometheus vectors, configuration parsing and validation, manager start-up, Helm charts.
- Work queues, event filters, leader election and controller-runtime caches: a reconcile may start at any time on any key, and the cache may hold any past version of it, or none.
- Reads during a classification and the policy listing: their answers are unconstrained in every run, so they may be stale or inconsistent; one classification sees one clock value.
- Duration, timestamp and group-version parsing: library code, uninterpreted functions here.
- Removal of a deleted object: an accepted Delete marks the object, and its removal is a step of the environment at any later time.
- Errors of the event recorder: emitting an event cannot fail here, as the recorder's call returns nothing.
- Policy fields that no code reads (ttl, protection, orphan, prNamespace and both selectors), and the ClosedTTL of the Namespace resolver.
- Reference kinds that the resolvers do not examine, such as projected volumes, ephemeral containers and StatefulSets.
- Deep copies of the status and list types and the nil receivers of the DeepCopy functions: they repeat the patterns modelled or are one branch.
- DeepCopy.ResourceSelector.DeepCopyInto: a label selector is a library type, represented by one map value in a cell of its own; that its inner map and match expressions are copied too is the library's promise and not modelled.
- The tail that both Reconcile functions write out is one shared method here, `Reconcilers.SharedDeps.Act`, and each reconciler handles a fetched object in a method of its own.
- Float rounding: confidences and thresholds are reals, and comparisons between them are exact.

/** Whole-reconcile theorems about the production controller left undisturbed. */
module OneReconcile {
  import opened Domain
  import opened Facts
  import opened Resolvers
  import opened Metrics
  import opened Reporter
  import opened Classifier
  import opened PolicyEngine
  import opened Executor
  import opened Production
  import opened Pipeline
  import opened Reconcilers

  /** The decision a reconcile reaches about a cached object, if it gets that far. */
  function DecisionFor(setup: Setup, req: Request, obj: Obj, a: Answers): Option<(Finding, Decision)> {
    if (req.kind == NamespaceKind && obj.terminating) || a.policies.ListFailed? then None
    else
      match Classify(setup.chain, obj, a.env)
      case Bad(_) => None
      case Good(finding) =>
        var named := Named(req, finding);
        var filtered := KindFilter(a.policies.items, KindName(req.kind));
        Some((named, Evaluate(setup.globalDryRun, obj.annotations, named, filtered)))
  }

  predicate DecidesLiveDelete(setup: Setup, req: Request, obj: Obj, a: Answers) {
    var decided := DecisionFor(setup, req, obj, a);
    decided.Some? && IsLiveDelete(decided.value.1)
  }

  /** The server side of a reconcile's outcome: objects and Delete requests, and the error. */
  ghost predicate Leaves(result: (View, Option<Error>), objects: map<Key, Obj>, deletes: seq<Key>, error: Option<Error>) {
    result.0.objects == objects && result.0.deletes == deletes && result.1 == error
  }

  ghost predicate Unrefused(error: Option<Error>) {
    forall why :: error != Some(ExecuteFailed(Refused(why)))
  }

  /** Up to the decision a reconcile only counts. */
  lemma ReachesDecision(setup: Setup, req: Request, obj: Obj, a: Answers, view: View) returns (counters: Counters)
    requires a.cached == Ok(obj) && DecisionFor(setup, req, obj, a).Some?
    ensures
      var (finding, decision) := DecisionFor(setup, req, obj, a).value;
      Complete(setup, Fetching(req), a, view) ==
        Complete(setup, OnDecided(setup, req, obj, finding, decision).next, a, view.(counters := counters))
      && (StartOf(setup.protectedNamespaces, finding, decision) == MustReread ==>
            counters.actions == view.counters.actions)
  {
    FetchedGoesOn(setup, req, a, view);
    var v1 := Counted(view, Scan(KindName(req.kind)));
    ClassifiedGoesOn(setup, req, obj, a, v1);
    var result := Classify(setup.chain, obj, a.env);
    var v2 := Counted(v1, Classification(KindName(req.kind), result.value.cls));
    ListedGoesOn(setup, req, obj, Named(req, result.value), a, v2);
    var (finding, decision) := DecisionFor(setup, req, obj, a).value;
    counters := AddAll(v2.counters, OnDecided(setup, req, obj, finding, decision).counts);
    assert v2.(counters := counters) == view.(counters := counters);
  }

  lemma WithoutDecision(setup: Setup, req: Request, obj: Obj, a: Answers, view: View)
    requires a.cached == Ok(obj) && DecisionFor(setup, req, obj, a).None?
    ensures
      var (after, error) := Complete(setup, Fetching(req), a, view);
      after.deletes == view.deletes && after.objects == view.objects && Unrefused(error)
  {
    FetchedGoesOn(setup, req, a, view);
    if !(req.kind == NamespaceKind && obj.terminating) {
      var v1 := Counted(view, Scan(KindName(req.kind)));
      ClassifiedGoesOn(setup, req, obj, a, v1);
      var result := Classify(setup.chain, obj, a.env);
      if result.Good? {
        var v2 := Counted(v1, Classification(KindName(req.kind), result.value.cls));
        ListedGoesOn(setup, req, obj, Named(req, result.value), a, v2);
      }
    }
  }

  lemma AfterMildDecision(
    setup: Setup, req: Request, obj: Obj, finding: Finding, decision: Decision, a: Answers, view: View)
    requires !IsLiveDelete(decision)
    ensures
      var (after, error) := Complete(setup, OnDecided(setup, req, obj, finding, decision).next, a, view);
      && after.deletes == view.deletes && after.objects == view.objects && Unrefused(error)
      && (!decision.action.OtherAction? ==> error == None)
  {
  }

  lemma AfterReread(
    setup: Setup, req: Request, obj: Obj, finding: Finding, decision: Decision, a: Answers, view: View)
    ensures
      var result := Complete(setup, Rereading(req, obj, finding, decision), a, view);
      match CheckOf(finding.ref, a.read)
      case Absent => Leaves(result, view.objects, view.deletes, None)
      case Stopped(why) => Leaves(result, view.objects, view.deletes, Some(ExecuteFailed(why)))
      case Cleared(current) =>
        var key := KeyOf(req.kind, RefOf(current));
        Leaves(result, AfterDelete(view.objects, key, a.deletion), view.deletes + [key],
          if a.deletion.DeleteFailed? then Some(ExecuteFailed(DeletionFailed)) else None)
  {
    var step := OnReread(req, obj, finding, decision, a.read);
    var next := After(view, Rereading(req, obj, finding, decision), a.deletion, step);
    ConcludeEnds(setup, req, obj, finding, decision, [], a, next);
    if step.next.Deleting? {
      AfterIssue(setup, req, obj, finding, decision, step.next.current, a, next);
    }
  }

  lemma AfterIssue(
    setup: Setup, req: Request, obj: Obj, finding: Finding, decision: Decision, current: Obj, a: Answers, view: View)
    ensures
      var key := KeyOf(req.kind, RefOf(current));
      Leaves(Complete(setup, Deleting(req, obj, finding, decision, current), a, view),
        AfterDelete(view.objects, key, a.deletion), view.deletes + [key],
        if a.deletion.DeleteFailed? then Some(ExecuteFailed(DeletionFailed)) else None)
  {
    var step := OnDeleted(req, obj, finding, decision, a.deletion);
    var next := After(view, Deleting(req, obj, finding, decision, current), a.deletion, step);
    ConcludeEnds(setup, req, obj, finding, decision, ToSeq(CountOfDelete(finding.ref, a.deletion)), a, next);
  }

  /** For an object the classifier let through, the protected, UID and finalizer checks of the
      executor repeat what is already known: on the unchanged object only owners can stop it. */
  lemma QuiescentChecks(
    protectedNamespaces: set<string>, globalDryRun: bool, req: Request, obj: Obj, a: Answers)
    requires DecidesLiveDelete(Manager(protectedNamespaces, globalDryRun), req, obj, a)
    ensures
      var (finding, decision) := DecisionFor(Manager(protectedNamespaces, globalDryRun), req, obj, a).value;
      && StartOf(protectedNamespaces, finding, decision) == MustReread
      && CheckOf(finding.ref, Ok(obj)) == (if obj.owners != [] then Stopped(Refused(HasOwners)) else Cleared(obj))
  {
    ProtectedAndBlockedExactly(protectedNamespaces, PRODUCTION_RESOLVERS, obj, a.env);
    RangeOfChain(protectedNamespaces, PRODUCTION_RESOLVERS, obj, a.env);
  }

  /** With a current cache and an unchanged object whose re-read succeeds, a reconcile is refused by
      a safety check exactly when it decides a live delete of an object with ownerReferences, and
      by that check alone. It sends one Delete, for that object, exactly when it decides a live
      delete of an object without any; otherwise it sends none. */
  lemma QuiescentReconcileExact(
    protectedNamespaces: set<string>, globalDryRun: bool, req: Request, obj: Obj, a: Answers, view: View)
    requires a.cached == Ok(obj) && a.read == Ok(obj)
    ensures
      var setup := Manager(protectedNamespaces, globalDryRun);
      var (after, error) := Complete(setup, Fetching(req), a, view);
      var live := DecidesLiveDelete(setup, req, obj, a);
      && after.deletes == view.deletes + (if live && obj.owners == [] then [KeyOf(req.kind, RefOf(obj))] else [])
      && (forall why :: error == Some(ExecuteFailed(Refused(why))) <==>
            why == HasOwners && live && obj.owners != [])
  {
    var setup := Manager(protectedNamespaces, globalDryRun);
    if DecisionFor(setup, req, obj, a).None? {
      WithoutDecision(setup, req, obj, a, view);
    } else {
      var counters := ReachesDecision(setup, req, obj, a, view);
      var (finding, decision) := DecisionFor(setup, req, obj, a).value;
      if IsLiveDelete(decision) {
        QuiescentChecks(protectedNamespaces, globalDryRun, req, obj, a);
        AfterReread(setup, req, obj, finding, decision, a, view.(counters := counters));
      } else {
        AfterMildDecision(setup, req, obj, finding, decision, a, view.(counters := counters));
      }
    }
  }

  /** An Orphaned finding never ends in the deletion of an unchanged object: what makes it Orphaned
      is having owners, and having owners is what the executor refuses. */
  lemma OrphanedIsNeverDeleted(
    protectedNamespaces: set<string>, globalDryRun: bool, req: Request, obj: Obj, a: Answers, view: View)
    requires a.cached == Ok(obj) && a.read == Ok(obj)
    requires
      var result := Classify(Manager(protectedNamespaces, globalDryRun).chain, obj, a.env);
      result.Good? && result.value.cls == Orphaned
    ensures Complete(Manager(protectedNamespaces, globalDryRun), Fetching(req), a, view).0.deletes == view.deletes
  {
    OwnersDecideClass(protectedNamespaces, PRODUCTION_RESOLVERS, obj, a.env);
    QuiescentReconcileExact(protectedNamespaces, globalDryRun, req, obj, a, view);
  }

  /** Exactly when an unchanged object is deleted although it is Active: when it has no ownerReferences,
      so that it is Active only by what refers to it, and a live delete is authorised. */
  lemma ActiveDeletedExactly(
    protectedNamespaces: set<string>, globalDryRun: bool, req: Request, obj: Obj, a: Answers, view: View)
    requires a.cached == Ok(obj) && a.read == Ok(obj)
    requires DecisionFor(Manager(protectedNamespaces, globalDryRun), req, obj, a).Some?
    requires DecisionFor(Manager(protectedNamespaces, globalDryRun), req, obj, a).value.0.cls == Active
    ensures
      var setup := Manager(protectedNamespaces, globalDryRun);
      var finding := DecisionFor(setup, req, obj, a).value.0;
      var listed := KindFilter(a.policies.items, KindName(req.kind));
      Complete(setup, Fetching(req), a, view).0.deletes == view.deletes +
        if obj.owners == [] && Authorised(globalDryRun, obj.annotations, finding, listed)
        then [KeyOf(req.kind, RefOf(obj))] else []
  {
    var finding := DecisionFor(Manager(protectedNamespaces, globalDryRun), req, obj, a).value.0;
    var listed := KindFilter(a.policies.items, KindName(req.kind));
    QuiescentReconcileExact(protectedNamespaces, globalDryRun, req, obj, a, view);
    LiveDeleteExactly(globalDryRun, obj.annotations, finding, listed);
  }

  /** An Abandoned object is decided a live delete only with explicit consent to its confidence of
      0.6, and then always. */
  lemma AbandonedNeedsConsent(protectedNamespaces: set<string>, globalDryRun: bool, req: Request, obj: Obj, a: Answers)
    requires DecisionFor(Manager(protectedNamespaces, globalDryRun), req, obj, a).Some?
    requires DecisionFor(Manager(protectedNamespaces, globalDryRun), req, obj, a).value.0.cls == Abandoned
    ensures
      var finding := DecisionFor(Manager(protectedNamespaces, globalDryRun), req, obj, a).value.0;
      var listed := KindFilter(a.policies.items, KindName(req.kind));
      && finding.confidence == 0.6
      && (DecidesLiveDelete(Manager(protectedNamespaces, globalDryRun), req, obj, a) <==>
            !globalDryRun && ConsentsToLowConfidence(obj.annotations, finding, listed))
  {
    RangeOfChain(protectedNamespaces, PRODUCTION_RESOLVERS, obj, a.env);
    var finding := DecisionFor(Manager(protectedNamespaces, globalDryRun), req, obj, a).value.0;
    var listed := KindFilter(a.policies.items, KindName(req.kind));
    DeletionBelowDefaultThreshold(globalDryRun, obj.annotations, finding, listed);
  }

  // ----- progress -----

  /** An expired object nothing speaks for: unprotected, without owners or foreign finalizers, with
      an elapsed TTL of its own and no override to skip or report. */
  ghost predicate RipeForDeletion(protectedNamespaces: set<string>, obj: Obj, env: Env) {
    && !OnList(protectedNamespaces, obj.namespace, obj.name) && !Annotated(obj, "janitor.io/protected", "true")
    && !HeldByOthers(obj) && obj.owners == [] && TtlPassed(obj, env)
    && !Says(obj.annotations, "skip") && !Says(obj.annotations, "report")
  }

  /** The listed policies allow it: the first one for the kind is in Delete mode and its threshold
      is within reach of an expired finding. */
  ghost predicate AllowsDeletion(policies: seq<Policy>, kind: string) {
    exists i: nat :: FirstMatch(policies, i, kind) && policies[i].mode == DeleteMode && Meets(policies[i], 0.9, 0.9)
  }

  lemma RipeIsDecided(protectedNamespaces: set<string>, req: Request, obj: Obj, a: Answers)
    requires RipeForDeletion(protectedNamespaces, obj, a.env)
    requires obj.gvk.kind == KindName(req.kind) && !(req.kind == NamespaceKind && obj.terminating)
    requires a.policies.Listed? && AllowsDeletion(a.policies.items, KindName(req.kind))
    ensures DecidesLiveDelete(Manager(protectedNamespaces, false), req, obj, a)
    ensures DecisionFor(Manager(protectedNamespaces, false), req, obj, a).value.0.cls == Expired
  {
    RipeIsExpired(protectedNamespaces, false, obj, a.env);
    var finding := Named(req, Classify(Manager(protectedNamespaces, false).chain, obj, a.env).value);
    PrefilterPreservesEvaluate(false, obj.annotations, finding, a.policies.items);
    LiveDeleteExactly(false, obj.annotations, finding, a.policies.items);
  }

  /** Progress: in live mode such an object, unchanged on a healthy server, gets exactly one
      Delete, which marks it there; the reconcile returns no error. */
  lemma RipeObjectIsDeletedOnce(protectedNamespaces: set<string>, req: Request, obj: Obj, a: Answers, view: View)
    requires RipeForDeletion(protectedNamespaces, obj, a.env)
    requires obj.gvk.kind == KindName(req.kind) && !(req.kind == NamespaceKind && obj.terminating)
    requires a.policies.Listed? && AllowsDeletion(a.policies.items, KindName(req.kind))
    requires KeyOf(req.kind, RefOf(obj)) == RequestKey(req)
    requires RequestKey(req) in view.objects && view.objects[RequestKey(req)] == obj
    requires a.cached == Ok(obj) && a.read == Ok(obj) && a.deletion == Accepted
    ensures
      var (after, error) := Complete(Manager(protectedNamespaces, false), Fetching(req), a, view);
      && after.deletes == view.deletes + [RequestKey(req)]
      && after.objects == view.objects[RequestKey(req) := obj.(deleting := true)]
      && error == None
  {
    var counters, finding, decision := RipeGetsToReread(protectedNamespaces, req, obj, a, view);
    AfterReread(
      Manager(protectedNamespaces, false), req, obj, finding, decision, a, view.(counters := counters));
  }

  lemma RipeGetsToReread(protectedNamespaces: set<string>, req: Request, obj: Obj, a: Answers, view: View)
    returns (counters: Counters, finding: Finding, decision: Decision)
    requires RipeForDeletion(protectedNamespaces, obj, a.env)
    requires obj.gvk.kind == KindName(req.kind) && !(req.kind == NamespaceKind && obj.terminating)
    requires a.policies.Listed? && AllowsDeletion(a.policies.items, KindName(req.kind))
    requires a.cached == Ok(obj)
    ensures
      var setup := Manager(protectedNamespaces, false);
      && Complete(setup, Fetching(req), a, view) ==
           Complete(setup, Rereading(req, obj, finding, decision), a, view.(counters := counters))
      && counters.actions == view.counters.actions
    ensures IsLiveDelete(decision) && finding.cls == Expired && finding.ref == RefOf(obj)
    ensures CheckOf(finding.ref, Ok(obj)) == Cleared(obj)
  {
    var setup := Manager(protectedNamespaces, false);
    RipeIsDecided(protectedNamespaces, req, obj, a);
    RipeIsExpired(protectedNamespaces, false, obj, a.env);
    QuiescentChecks(protectedNamespaces, false, req, obj, a);
    counters := ReachesDecision(setup, req, obj, a, view);
    finding, decision := DecisionFor(setup, req, obj, a).value.0, DecisionFor(setup, req, obj, a).value.1;
  }

  /** Idempotence: replaying from the stale cache, at any later time, once the key is gone from the
      server, sends no Delete and returns no error, whatever the policies then say. */
  lemma ReplayAfterRemoval(
    protectedNamespaces: set<string>, globalDryRun: bool, req: Request, obj: Obj, env: Env, a: Answers, view: View)
    requires RipeForDeletion(protectedNamespaces, obj, env)
    requires a.env.parse == env.parse && env.now <= a.env.now
    requires a.cached == Ok(obj) && a.read == NotFound && a.policies.Listed?
    ensures
      var (after, error) := Complete(Manager(protectedNamespaces, globalDryRun), Fetching(req), a, view);
      && after.deletes == view.deletes && after.objects == view.objects
      && error == None
  {
    StaysRipe(protectedNamespaces, obj, env, a.env);
    RipeIsExpired(protectedNamespaces, globalDryRun, obj, a.env);
    if req.kind == NamespaceKind && obj.terminating {
      FetchedGoesOn(Manager(protectedNamespaces, globalDryRun), req, a, view);
    } else {
      ReplayFromDecision(protectedNamespaces, globalDryRun, req, obj, a, view);
    }
  }

  lemma StaysRipe(protectedNamespaces: set<string>, obj: Obj, env: Env, later: Env)
    requires RipeForDeletion(protectedNamespaces, obj, env) && later.parse == env.parse && env.now <= later.now
    ensures RipeForDeletion(protectedNamespaces, obj, later)
  {
  }

  lemma RipeIsExpired(protectedNamespaces: set<string>, globalDryRun: bool, obj: Obj, env: Env)
    requires RipeForDeletion(protectedNamespaces, obj, env)
    ensures
      var result := Classify(Manager(protectedNamespaces, globalDryRun).chain, obj, env);
      result.Good? && result.value.cls == Expired && result.value.confidence == 0.9
      && result.value.ref == RefOf(obj)
  {
    ExpiredAndFailedExactly(protectedNamespaces, PRODUCTION_RESOLVERS, obj, env);
    RangeOfChain(protectedNamespaces, PRODUCTION_RESOLVERS, obj, env);
  }

  lemma ReplayFromDecision(
    protectedNamespaces: set<string>, globalDryRun: bool, req: Request, obj: Obj, a: Answers, view: View)
    requires a.cached == Ok(obj) && a.read == NotFound
    requires DecisionFor(Manager(protectedNamespaces, globalDryRun), req, obj, a).Some?
    ensures
      var (after, error) := Complete(Manager(protectedNamespaces, globalDryRun), Fetching(req), a, view);
      after.deletes == view.deletes && after.objects == view.objects && error == None
  {
    var setup := Manager(protectedNamespaces, globalDryRun);
    var counters := ReachesDecision(setup, req, obj, a, view);
    var (finding, decision) := DecisionFor(setup, req, obj, a).value;
    DeclaredAction(globalDryRun, obj.annotations, finding, KindFilter(a.policies.items, KindName(req.kind)));
    if IsLiveDelete(decision) {
      QuiescentChecks(protectedNamespaces, globalDryRun, req, obj, a);
      AfterReread(setup, req, obj, finding, decision, a, view.(counters := counters));
    } else {
      AfterMildDecision(setup, req, obj, finding, decision, a, view.(counters := counters));
    }
  }

  /** What a reconcile that deletes an Expired object counts and announces from the re-read on. */
  lemma ShownDeletion(
    setup: Setup, req: Request, obj: Obj, finding: Finding, decision: Decision, a: Answers, view: View)
    requires a.read == Ok(obj) && CheckOf(finding.ref, a.read) == Cleared(obj) && a.deletion == Accepted
    requires IsLiveDelete(decision) && finding.cls == Expired
    ensures
      var after := Complete(setup, Rereading(req, obj, finding, decision), a, view).0;
      && after.events == view.events + [Event(RefOf(obj), ReasonDeleted)]
      && after.counters.actions == view.counters.actions + multiset{(finding.ref.gvk.kind, "delete")}
  {
    var cleared := OnReread(req, obj, finding, decision, a.read);
    var next := After(view, Rereading(req, obj, finding, decision), a.deletion, cleared);
    assert next == view;
    var step := OnDeleted(req, obj, finding, decision, Accepted);
    AddOne(view.counters, ActionTaken(finding.ref.gvk.kind, "delete", false));
    ConcludeEnds(setup, req, obj, finding, decision, step.counts, a,
      After(view, Deleting(req, obj, finding, decision, obj), a.deletion, step));
  }

  /** Such a deletion is counted once as a live delete and announced once as Deleted. */
  lemma RipeDeletionShows(protectedNamespaces: set<string>, req: Request, obj: Obj, a: Answers, view: View)
    requires RipeForDeletion(protectedNamespaces, obj, a.env)
    requires obj.gvk.kind == KindName(req.kind) && !(req.kind == NamespaceKind && obj.terminating)
    requires a.policies.Listed? && AllowsDeletion(a.policies.items, KindName(req.kind))
    requires a.cached == Ok(obj) && a.read == Ok(obj) && a.deletion == Accepted
    ensures
      var after := Complete(Manager(protectedNamespaces, false), Fetching(req), a, view).0;
      && after.events == view.events + [Event(RefOf(obj), ReasonDeleted)]
      && after.counters.actions == view.counters.actions + multiset{(obj.gvk.kind, "delete")}
  {
    var counters, finding, decision := RipeGetsToReread(protectedNamespaces, req, obj, a, view);
    ShownDeletion(
      Manager(protectedNamespaces, false), req, obj, finding, decision, a, view.(counters := counters));
  }

  /** Nothing reads the deletion mark of an object: a ConfigMap that a finalizer keeps alive gets one
      more accepted Delete, live deletion count and Deleted event in every further reconcile. */
  lemma DeletedAgain(protectedNamespaces: set<string>, req: Request, obj: Obj, a: Answers, view: View)
    requires RipeForDeletion(protectedNamespaces, obj, a.env) && obj.deleting
    requires req.kind == ConfigMapKind && obj.gvk.kind == "ConfigMap"
    requires a.policies.Listed? && AllowsDeletion(a.policies.items, "ConfigMap")
    requires KeyOf(req.kind, RefOf(obj)) == RequestKey(req)
    requires RequestKey(req) in view.objects && view.objects[RequestKey(req)] == obj
    requires a.cached == Ok(obj) && a.read == Ok(obj) && a.deletion == Accepted
    ensures
      var (after, error) := Complete(Manager(protectedNamespaces, false), Fetching(req), a, view);
      && after.objects == view.objects && error == None
      && after.deletes == view.deletes + [RequestKey(req)]
      && after.events == view.events + [Event(RefOf(obj), ReasonDeleted)]
      && after.counters.actions == view.counters.actions + multiset{("ConfigMap", "delete")}
  {
    RipeObjectIsDeletedOnce(protectedNamespaces, req, obj, a, view);
    RipeDeletionShows(protectedNamespaces, req, obj, a, view);
    assert view.objects[RequestKey(req) := obj] == view.objects;
  }

  /** What an accepted deletion is announced as: "Deleted" exactly for an Expired finding, nothing at
      all for an Active one, and the mere finding for any other. */
  lemma AnnouncedDeletion(
    setup: Setup, req: Request, obj: Obj, finding: Finding, decision: Decision, current: Obj, a: Answers, view: View)
    requires IsLiveDelete(decision) && a.deletion == Accepted && finding.cls !in {Protected, Unknown, Blocked}
    ensures
      var (after, error) := Complete(setup, Deleting(req, obj, finding, decision, current), a, view);
      && error == None
      && (after.events == view.events <==> finding.cls == Active)
      && (after.events == view.events + [Event(RefOf(obj), ReasonDeleted)] <==> finding.cls == Expired)
  {
    var step := OnDeleted(req, obj, finding, decision, Accepted);
    var next := After(view, Deleting(req, obj, finding, decision, current), a.deletion, step);
    ConcludeEnds(setup, req, obj, finding, decision, step.counts, a, next);
    assert |view.events + [EventOf(obj, finding, decision)]| == |view.events| + 1;
    assert (view.events + [EventOf(obj, finding, decision)])[|view.events|] == EventOf(obj, finding, decision);
    assert (view.events + [Event(RefOf(obj), ReasonDeleted)])[|view.events|].reason == ReasonDeleted;
  }

  // ----- failing safe -----

  /** One failing listing of a handling resolver stops the whole reconcile: the scan and the error
      are counted, and there is no evaluation, no action, no event and no Delete. */
  lemma ResolverFailureEndsReconcile(
    protectedNamespaces: set<string>, resolvers: seq<Resolver>, r: Resolver, globalDryRun: bool,
    req: Request, obj: Obj, a: Answers, view: View)
    requires a.cached == Ok(obj) && !(req.kind == NamespaceKind && obj.terminating)
    requires LeftToResolvers(protectedNamespaces, obj, a.env)
    requires r in resolvers && Breaks(r, obj, a.env)
    ensures
      var setup := Setup(Chain(protectedNamespaces, resolvers), globalDryRun, protectedNamespaces);
      var fault := ResolversFailed(AggregateOf(resolvers, obj, a.env).faults);
      Complete(setup, Fetching(req), a, view) ==
        ( Counted(Counted(view, Scan(KindName(req.kind))),
            ErrorCount(ControllerLabel(req.kind), KindName(req.kind))),
          Some(ClassifyFailed(fault)) )
  {
    var setup := Setup(Chain(protectedNamespaces, resolvers), globalDryRun, protectedNamespaces);
    ChainIsStaged(protectedNamespaces, resolvers, obj, a.env);
    EarlyStrategies(protectedNamespaces, obj, a.env);
    AggregationFailsSafe(resolvers, obj, a.env);
    FetchedGoesOn(setup, req, a, view);
    ClassifiedGoesOn(setup, req, obj, a, Counted(view, Scan(KindName(req.kind))));
  }
}

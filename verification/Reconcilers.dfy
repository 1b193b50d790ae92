/** The two reconcilers, as methods over the objects they share, each proved to do exactly what the
    pipeline machine does on the answers it received. */
module Reconcilers {
  import opened Domain
  import opened Metrics
  import opened Reporter
  import opened Resolvers
  import opened Classifier
  import opened Production
  import opened PolicyEngine
  import opened Executor
  import opened Pipeline

  /** The controller the manager assembles: one protected set for the classifier and the executor. */
  function Manager(protectedNamespaces: set<string>, globalDryRun: bool): Setup {
    Setup(Chain(protectedNamespaces, PRODUCTION_RESOLVERS), globalDryRun, protectedNamespaces)
  }

  /** Which of a reconcile's API calls fail. */
  datatype Faults = Faults(get: bool, list: bool, reread: bool, deletion: DeleteFault)

  /** What the reconcilers share. `cache` and `policies` are the informer caches the manager's
      client reads; `server` is what the API reader reads and Delete changes. */
  class SharedDeps {
    const setup: Setup
    var cache: map<Key, Obj>
    var policies: seq<Policy>
    const server: ApiServer
    const metrics: Recorder
    const executor: DefaultExecutor
    const reporter: EventReporter

    ghost predicate Valid()
      reads this, server
    {
      && executor.server == server && executor.metrics == metrics
      && executor.protectedNamespaces == setup.protectedNamespaces
      && WellKeyed(server.objects) && WellKeyed(cache)
    }

    function Seen(): View
      reads server, metrics, reporter
    {
      View(metrics.Value(), server.objects, server.deletes, reporter.events)
    }

    /** The answers of an undisturbed cluster to one reconcile. */
    function AnswersTo(req: Request, env: Env, faults: Faults): Answers
      reads this, server
    {
      var key := RequestKey(req);
      Answers(
        ReadAnswer(cache, key, faults.get), env,
        if faults.list then ListFailed else Listed(policies),
        ReadAnswer(server.objects, key, faults.reread),
        AnswerToDelete(server.objects, key, faults.deletion))
    }

    /** Wires the controller as the manager does at start-up. */
    constructor (
      globalDryRun: bool, protectedNamespaces: seq<string>,
      cache: map<Key, Obj>, policies: seq<Policy>, server: ApiServer)
      requires WellKeyed(server.objects) && WellKeyed(cache)
      ensures Valid()
      ensures setup == Manager((set n | n in protectedNamespaces), globalDryRun)
      ensures this.cache == cache && this.policies == policies && this.server == server
      ensures metrics.Value() == ZERO && reporter.events == []
    {
      var m := new Recorder();
      var registry := new Registry();
      registry.Register(OwnerRefResolver);
      registry.Register(ConfigMapResolver);
      registry.Register(NamespaceResolver);
      assert registry.resolvers == PRODUCTION_RESOLVERS;
      var guard := NewProtectionStrategy(PROTECTION_ANNOTATION, protectedNamespaces);
      var e := new DefaultExecutor(server, m, protectedNamespaces);
      var r := new EventReporter();
      this.setup := Setup(Chain(guard.namespaces, registry.resolvers), globalDryRun, e.protectedNamespaces);
      this.cache, this.policies, this.server := cache, policies, server;
      this.metrics, this.executor, this.reporter := m, e, r;
    }

    /** From the decision on, the two reconcilers do the same. */
    method Act(req: Request, obj: Obj, finding: Finding, decision: Decision, env: Env, faults: Faults)
      returns (error: Option<Error>)
      requires Valid() && KeyOf(req.kind, finding.ref) == RequestKey(req)
      modifies server, metrics, reporter
      ensures
        var step := OnDecided(setup, req, obj, finding, decision);
        var before := old(Seen());
        (Seen(), error) ==
          Complete(setup, step.next, old(AnswersTo(req, env, faults)),
            before.(counters := AddAll(before.counters, step.counts)))
    {
      DecidedAsPerformed(
        setup, req, obj, finding, decision, AnswersTo(req, env, faults), Seen(), faults.reread, faults.deletion);
      metrics.RecordPolicyEvaluation(decision.policyRef, decision.action);

      var failure := executor.Execute(req.kind, finding, decision, faults.reread, faults.deletion);
      if failure.Some? {
        metrics.RecordReconcileError(ControllerLabel(req.kind), KindName(req.kind));
        return Some(ExecuteFailed(failure.value));
      }
      if decision.action != OtherAction("") && finding.cls != Active && finding.cls != Unknown {
        reporter.Report(obj, finding, decision);
      }
      return None;
    }
  }

  // ----- the machine from a decision on -----

  /** How a reconcile ends once Execute has returned. */
  function Ending(req: Request, obj: Obj, finding: Finding, decision: Decision,
    after: Observed, events: seq<Event>, error: Option<ExecError>): (View, Option<Error>)
  {
    match error
    case Some(e) =>
      ( View(
          Add(after.counters, ErrorCount(ControllerLabel(req.kind), KindName(req.kind))),
          after.objects, after.deletes, events),
        Some(ExecuteFailed(e)) )
    case None =>
      ( View(
          after.counters, after.objects, after.deletes,
          if Reports(finding, decision) then events + [EventOf(obj, finding, decision)] else events),
        None )
  }

  lemma FailEnds(setup: Setup, req: Request, counts: seq<Count>, e: Error, a: Answers, view: View)
    ensures
      var step := Fail(req, counts, e);
      Complete(setup, step.next, a, view.(counters := AddAll(view.counters, step.counts))) ==
        ( view.(counters := Add(AddAll(view.counters, counts), ErrorCount(ControllerLabel(req.kind), KindName(req.kind)))),
          Some(e) )
  {
    var last := ErrorCount(ControllerLabel(req.kind), KindName(req.kind));
    AddAllOfConcat(view.counters, counts, [last]);
    AddOne(AddAll(view.counters, counts), last);
  }

  lemma ConcludeEnds(
    setup: Setup, req: Request, obj: Obj, finding: Finding, decision: Decision, counts: seq<Count>, a: Answers, view: View)
    ensures Complete(setup, Conclude(req, obj, finding, decision, counts).next, a, view) == Ending(
      req, obj, finding, decision, Observed(view.counters, view.objects, view.deletes), view.events, None)
  {
  }

  lemma AddToSeq(c: Counters, n: Option<Count>)
    ensures AddAll(c, ToSeq(n)) == AddIfAny(c, n)
  {
    if n.Some? {
      AddOne(c, n.value);
    }
  }

  lemma DeletedAsIssued(
    setup: Setup, req: Request, obj: Obj, finding: Finding, decision: Decision, current: Obj, a: Answers, view: View,
    deleteFault: DeleteFault)
    requires KeyOf(req.kind, RefOf(current)) == RequestKey(req)
    requires a.deletion == AnswerToDelete(view.objects, RequestKey(req), deleteFault)
    ensures
      var before := Observed(view.counters, view.objects, view.deletes);
      var (after, error) := PerformIssue(before, RequestKey(req), finding.ref, deleteFault);
      Complete(setup, Deleting(req, obj, finding, decision, current), a, view) ==
        Ending(req, obj, finding, decision, after, view.events, error)
  {
    var phase := Deleting(req, obj, finding, decision, current);
    var step := OnDeleted(req, obj, finding, decision, a.deletion);
    var counts := ToSeq(CountOfDelete(finding.ref, a.deletion));
    var moved := view.(
      objects := AfterDelete(view.objects, RequestKey(req), a.deletion), deletes := view.deletes + [RequestKey(req)]);
    assert After(view, phase, a.deletion, step) == moved.(counters := AddAll(view.counters, step.counts));
    AddToSeq(view.counters, CountOfDelete(finding.ref, a.deletion));
    match ErrorOfDelete(a.deletion) {
      case Some(e) => FailEnds(setup, req, counts, ExecuteFailed(e), a, moved);
      case None =>
        ConcludeEnds(setup, req, obj, finding, decision, counts, a, moved.(counters := AddAll(view.counters, counts)));
    }
  }

  lemma RereadAsPerformed(
    setup: Setup, req: Request, obj: Obj, finding: Finding, decision: Decision, a: Answers, view: View,
    rereadFault: bool, deleteFault: DeleteFault)
    requires WellKeyed(view.objects)
    requires a.read == ReadAnswer(view.objects, RequestKey(req), rereadFault)
    requires a.deletion == AnswerToDelete(view.objects, RequestKey(req), deleteFault)
    ensures
      var before := Observed(view.counters, view.objects, view.deletes);
      var (after, error) := PerformDelete(before, RequestKey(req), finding.ref, rereadFault, deleteFault);
      Complete(setup, Rereading(req, obj, finding, decision), a, view) ==
        Ending(req, obj, finding, decision, after, view.events, error)
  {
    var step := OnReread(req, obj, finding, decision, a.read);
    assert After(view, Rereading(req, obj, finding, decision), a.deletion, step) ==
      view.(counters := AddAll(view.counters, step.counts));
    match CheckOf(finding.ref, a.read) {
      case Absent => ConcludeEnds(setup, req, obj, finding, decision, [], a, view);
      case Stopped(e) => FailEnds(setup, req, [], ExecuteFailed(e), a, view);
      case Cleared(current) => DeletedAsIssued(setup, req, obj, finding, decision, current, a, view, deleteFault);
    }
  }

  /** What Execute does in the middle of a reconcile is what the machine does from the decision on. */
  lemma DecidedAsPerformed(
    setup: Setup, req: Request, obj: Obj, finding: Finding, decision: Decision, a: Answers, view: View,
    rereadFault: bool, deleteFault: DeleteFault)
    requires WellKeyed(view.objects)
    requires KeyOf(req.kind, finding.ref) == RequestKey(req)
    requires a.read == ReadAnswer(view.objects, RequestKey(req), rereadFault)
    requires a.deletion == AnswerToDelete(view.objects, RequestKey(req), deleteFault)
    ensures
      var step := OnDecided(setup, req, obj, finding, decision);
      var counted := Add(view.counters, Evaluation(decision.policyRef, decision.action));
      var (after, error) := Perform(
        Observed(counted, view.objects, view.deletes),
        setup.protectedNamespaces, req.kind, finding, decision, rereadFault, deleteFault);
      Complete(setup, step.next, a, view.(counters := AddAll(view.counters, step.counts))) ==
        Ending(req, obj, finding, decision, after, view.events, error)
  {
    var evaluated := Evaluation(decision.policyRef, decision.action);
    AddOne(view.counters, evaluated);
    match StartOf(setup.protectedNamespaces, finding, decision) {
      case MustReread =>
        RereadAsPerformed(setup, req, obj, finding, decision, a,
          view.(counters := Add(view.counters, evaluated)), rereadFault, deleteFault);
      case Settled(count, error) =>
        var counts := [evaluated] + ToSeq(count);
        AddAllOfConcat(view.counters, [evaluated], ToSeq(count));
        AddToSeq(Add(view.counters, evaluated), count);
        match error {
          case Some(e) => FailEnds(setup, req, counts, ExecuteFailed(e), a, view);
          case None =>
            ConcludeEnds(setup, req, obj, finding, decision, counts, a,
              view.(counters := AddAll(view.counters, counts)));
        }
    }
  }

  // ----- the machine up to the decision -----

  function Counted(view: View, count: Count): View {
    view.(counters := Add(view.counters, count))
  }

  lemma FetchedGoesOn(setup: Setup, req: Request, a: Answers, view: View)
    ensures Complete(setup, Fetching(req), a, view) ==
      match a.cached
      case NotFound => (view, None)
      case Unavailable =>
        ( Counted(view, ErrorCount(ControllerLabel(req.kind), KindName(req.kind))),
          Some(GetFailed) )
      case Ok(obj) =>
        if req.kind == NamespaceKind && obj.terminating then (view, None)
        else Complete(setup, Classifying(req, obj), a, Counted(view, Scan(KindName(req.kind))))
  {
    var step := OnFetched(req, a.cached);
    assert After(view, Fetching(req), a.deletion, step) == view.(counters := AddAll(view.counters, step.counts));
    FailEnds(setup, req, [], GetFailed, a, view);
    AddOne(view.counters, Scan(KindName(req.kind)));
  }

  lemma ClassifiedGoesOn(setup: Setup, req: Request, obj: Obj, a: Answers, view: View)
    ensures
      var result := Classify(setup.chain, obj, a.env);
      Complete(setup, Classifying(req, obj), a, view) ==
        if result.Bad? then
          ( Counted(view, ErrorCount(ControllerLabel(req.kind), KindName(req.kind))),
            Some(ClassifyFailed(result.fault)) )
        else
          Complete(setup, Matching(req, obj, Named(req, result.value)), a,
            Counted(view, Classification(KindName(req.kind), result.value.cls)))
  {
    var result := Classify(setup.chain, obj, a.env);
    var step := OnClassified(req, obj, result);
    assert After(view, Classifying(req, obj), a.deletion, step) ==
      view.(counters := AddAll(view.counters, step.counts));
    match result {
      case Bad(fault) => FailEnds(setup, req, [], ClassifyFailed(fault), a, view);
      case Good(finding) => AddOne(view.counters, Classification(KindName(req.kind), finding.cls));
    }
  }

  lemma ListedGoesOn(setup: Setup, req: Request, obj: Obj, finding: Finding, a: Answers, view: View)
    ensures Complete(setup, Matching(req, obj, finding), a, view) ==
      if a.policies.ListFailed? then
        ( Counted(view, ErrorCount(ControllerLabel(req.kind), KindName(req.kind))),
          Some(PoliciesUnlisted) )
      else
        var filtered := KindFilter(a.policies.items, KindName(req.kind));
        var decision := Evaluate(setup.globalDryRun, obj.annotations, finding, filtered);
        var step := OnDecided(setup, req, obj, finding, decision);
        Complete(setup, step.next, a, view.(counters := AddAll(view.counters, step.counts)))
  {
    FailEnds(setup, req, [], PoliciesUnlisted, a, view);
    var step := OnListed(setup, req, obj, finding, a.policies);
    assert After(view, Matching(req, obj, finding), a.deletion, step) ==
      view.(counters := AddAll(view.counters, step.counts));
  }

  class ConfigMapReconciler {
    const deps: SharedDeps

    constructor (deps: SharedDeps)
      ensures this.deps == deps
    {
      this.deps := deps;
    }

    method Reconcile(req: Request, env: Env, faults: Faults) returns (error: Option<Error>)
      requires deps.Valid() && req.kind == ConfigMapKind
      modifies deps.server, deps.metrics, deps.reporter
      ensures (deps.Seen(), error) ==
        Complete(deps.setup, Fetching(req), old(deps.AnswersTo(req, env, faults)), old(deps.Seen()))
    {
      ghost var a := deps.AnswersTo(req, env, faults);
      FetchedGoesOn(deps.setup, req, a, deps.Seen());
      var cached := ReadAnswer(deps.cache, RequestKey(req), faults.get);
      if !cached.Ok? {
        if cached.NotFound? {
          return None;
        }
        deps.metrics.RecordReconcileError("configmap", "ConfigMap");
        return Some(GetFailed);
      }
      var cm := cached.value;
      deps.metrics.RecordScan("ConfigMap");
      error := Handle(req, cm, env, faults);
    }

    /** What is done with a fetched and counted object. */
    method Handle(req: Request, cm: Obj, env: Env, faults: Faults) returns (error: Option<Error>)
      requires deps.Valid() && req.kind == ConfigMapKind && KeyOf(req.kind, RefOf(cm)) == RequestKey(req)
      modifies deps.server, deps.metrics, deps.reporter
      ensures (deps.Seen(), error) ==
        Complete(deps.setup, Classifying(req, cm), old(deps.AnswersTo(req, env, faults)), old(deps.Seen()))
    {
      ghost var a := deps.AnswersTo(req, env, faults);
      ClassifiedGoesOn(deps.setup, req, cm, a, deps.Seen());
      var classified := Classify(deps.setup.chain, cm, env);
      if classified.Bad? {
        deps.metrics.RecordReconcileError("configmap", "ConfigMap");
        return Some(ClassifyFailed(classified.fault));
      }
      ClassifyRefersTo(deps.setup.chain, cm, env);
      var finding := classified.value.(reconcileId := req.namespace + "/" + req.name);
      deps.metrics.RecordClassification("ConfigMap", finding.cls);

      ListedGoesOn(deps.setup, req, cm, finding, a, deps.Seen());
      var policies := ListMatchingPoliciesForKind(if faults.list then ListFailed else Listed(deps.policies), "ConfigMap");
      if policies.None? {
        deps.metrics.RecordReconcileError("configmap", "ConfigMap");
        return Some(PoliciesUnlisted);
      }
      var decision := Evaluate(deps.setup.globalDryRun, cm.annotations, finding, policies.value);
      error := deps.Act(req, cm, finding, decision, env, faults);
    }
  }

  class NamespaceReconciler {
    const deps: SharedDeps

    constructor (deps: SharedDeps)
      ensures this.deps == deps
    {
      this.deps := deps;
    }

    method Reconcile(req: Request, env: Env, faults: Faults) returns (error: Option<Error>)
      requires deps.Valid() && req.kind == NamespaceKind
      modifies deps.server, deps.metrics, deps.reporter
      ensures (deps.Seen(), error) ==
        Complete(deps.setup, Fetching(req), old(deps.AnswersTo(req, env, faults)), old(deps.Seen()))
    {
      ghost var a := deps.AnswersTo(req, env, faults);
      FetchedGoesOn(deps.setup, req, a, deps.Seen());
      var cached := ReadAnswer(deps.cache, RequestKey(req), faults.get);
      if !cached.Ok? {
        if cached.NotFound? {
          return None;
        }
        deps.metrics.RecordReconcileError("namespace", "Namespace");
        return Some(GetFailed);
      }
      var ns := cached.value;
      if ns.terminating {
        return None;
      }
      deps.metrics.RecordScan("Namespace");
      error := Handle(req, ns, env, faults);
    }

    /** What is done with a fetched and counted object. */
    method Handle(req: Request, ns: Obj, env: Env, faults: Faults) returns (error: Option<Error>)
      requires deps.Valid() && req.kind == NamespaceKind && KeyOf(req.kind, RefOf(ns)) == RequestKey(req)
      modifies deps.server, deps.metrics, deps.reporter
      ensures (deps.Seen(), error) ==
        Complete(deps.setup, Classifying(req, ns), old(deps.AnswersTo(req, env, faults)), old(deps.Seen()))
    {
      ghost var a := deps.AnswersTo(req, env, faults);
      ClassifiedGoesOn(deps.setup, req, ns, a, deps.Seen());
      var classified := Classify(deps.setup.chain, ns, env);
      if classified.Bad? {
        deps.metrics.RecordReconcileError("namespace", "Namespace");
        return Some(ClassifyFailed(classified.fault));
      }
      ClassifyRefersTo(deps.setup.chain, ns, env);
      var finding := classified.value.(reconcileId := req.name);
      deps.metrics.RecordClassification("Namespace", finding.cls);

      ListedGoesOn(deps.setup, req, ns, finding, a, deps.Seen());
      var policies := ListMatchingPolicies(if faults.list then ListFailed else Listed(deps.policies), "Namespace");
      if policies.None? {
        deps.metrics.RecordReconcileError("namespace", "Namespace");
        return Some(PoliciesUnlisted);
      }
      var decision := Evaluate(deps.setup.globalDryRun, ns.annotations, finding, policies.value);
      error := deps.Act(req, ns, finding, decision, env, faults);
    }
  }
}

/** What one reconcile of the production controller does, from the state of the object, the annotation
    texts and the listed policies alone. */
module ByState {
  import opened Domain
  import opened Facts
  import opened Reporter
  import opened PolicyEngine
  import opened Production
  import opened Pipeline
  import opened Reconcilers
  import opened OneReconcile
  import opened Outcomes

  /** The reconcile gets as far as the policies. */
  predicate Proceeds(req: Request, obj: Obj, a: Answers) {
    a.cached == Ok(obj) && a.policies.Listed? && !(req.kind == NamespaceKind && obj.terminating)
  }

  lemma DecidesByState(protectedNamespaces: set<string>, globalDryRun: bool, req: Request, obj: Obj, a: Answers)
    requires Proceeds(req, obj, a)
    ensures
      var decided := DecisionFor(Manager(protectedNamespaces, globalDryRun), req, obj, a);
      match ClassByState(protectedNamespaces, obj, a.env)
      case None => decided == None
      case Some(cls) =>
        && decided.Some? && decided.value.0.cls == cls
        && decided.value.0.confidence == (if cls == Abandoned then 0.6 else 0.9)
        && decided.value.0.ref == ObjectRef(obj.gvk, obj.namespace, obj.name, obj.uid)
        && decided.value.1 == Evaluate(
             globalDryRun, obj.annotations, decided.value.0, KindFilter(a.policies.items, KindName(req.kind)))
  {
    ChainByState(protectedNamespaces, obj, a.env);
  }

  // ----- deletions -----

  /** A live delete of an object of this class is authorised: the annotation says delete, or it says
      nothing and the first policy for the kind is in Delete mode with its threshold, or else 0.9, met
      by 0.6 for an Abandoned object and 0.9 for any other. */
  ghost predicate Condemned(globalDryRun: bool, obj: Obj, cls: Class, policies: seq<Policy>) {
    && !globalDryRun && cls !in {Protected, Blocked}
    && (|| Says(obj.annotations, "delete")
        || (SaysNothing(obj.annotations) && exists i: nat ::
              FirstMatch(policies, i, obj.gvk.kind) && policies[i].mode == DeleteMode
              && Meets(policies[i], if cls == Abandoned then 0.6 else 0.9, 0.9)))
  }

  lemma CondemnedExactly(protectedNamespaces: set<string>, globalDryRun: bool, req: Request, obj: Obj, a: Answers)
    requires Proceeds(req, obj, a) && obj.gvk.kind == KindName(req.kind)
    ensures DecidesLiveDelete(Manager(protectedNamespaces, globalDryRun), req, obj, a) <==>
      match ClassByState(protectedNamespaces, obj, a.env)
      case None => false
      case Some(cls) => Condemned(globalDryRun, obj, cls, a.policies.items)
  {
    var setup := Manager(protectedNamespaces, globalDryRun);
    DecidesByState(protectedNamespaces, globalDryRun, req, obj, a);
    if DecisionFor(setup, req, obj, a).Some? {
      var finding := DecisionFor(setup, req, obj, a).value.0;
      RangeOfChain(protectedNamespaces, PRODUCTION_RESOLVERS, obj, a.env);
      PrefilterPreservesEvaluate(globalDryRun, obj.annotations, finding, a.policies.items);
      LiveDeleteExactly(globalDryRun, obj.annotations, finding, a.policies.items);
    }
  }

  /** Exactly when an object that is unchanged at the re-read is sent a Delete: it has a class, it is
      condemned, and it has no ownerReferences. */
  lemma DeletedByState(
    protectedNamespaces: set<string>, globalDryRun: bool, req: Request, obj: Obj, a: Answers, view: View)
    requires Proceeds(req, obj, a) && obj.gvk.kind == KindName(req.kind) && a.read == Ok(obj)
    ensures
      var sent :=
        match ClassByState(protectedNamespaces, obj, a.env)
        case None => false
        case Some(cls) => obj.owners == [] && Condemned(globalDryRun, obj, cls, a.policies.items);
      Complete(Manager(protectedNamespaces, globalDryRun), Fetching(req), a, view).0.deletes ==
        view.deletes + if sent then [Key(req.kind, obj.namespace, obj.name)] else []
  {
    CondemnedExactly(protectedNamespaces, globalDryRun, req, obj, a);
    QuiescentReconcileExact(protectedNamespaces, globalDryRun, req, obj, a, view);
  }

  /** For every chain and all policies: an object that says skip or report is sent no Delete. */
  lemma SparedByAnnotation(setup: Setup, req: Request, obj: Obj, a: Answers, view: View)
    requires a.cached == Ok(obj) && (Says(obj.annotations, "skip") || Says(obj.annotations, "report"))
    ensures
      var after := Complete(setup, Fetching(req), a, view).0;
      after.deletes == view.deletes && after.objects == view.objects
  {
    if DecisionFor(setup, req, obj, a).None? {
      WithoutDecision(setup, req, obj, a, view);
    } else {
      var finding := DecisionFor(setup, req, obj, a).value.0;
      LiveDeleteExactly(
        setup.globalDryRun, obj.annotations, finding, KindFilter(a.policies.items, KindName(req.kind)));
      DecidedOutcome(setup, req, obj, a, view);
    }
  }

  // ----- events -----

  /** The events of a reconcile that returns no error, by the class of the object and, for an Expired one,
      by what was decided. */
  ghost predicate AnnouncedByState(
    protectedNamespaces: set<string>, obj: Obj, env: Env, d: Decision, events: seq<Event>)
  {
    var about := ObjectRef(obj.gvk, obj.namespace, obj.name, obj.uid);
    match ClassByState(protectedNamespaces, obj, env)
    case None => false
    case Some(cls) =>
      && cls in {Protected, Blocked, Expired, Active, Orphaned, Abandoned}
      && (cls == Protected ==> events == [Event(about, ReasonProtected)])
      && (cls == Blocked ==> events == [Event(about, ReasonBlocked)])
      && (cls == Expired && d.action != DeleteAction ==> events == [Event(about, ReasonTtlExpired)])
      && (cls == Expired && d.action == DeleteAction && d.dryRun ==> events == [Event(about, ReasonDryRunDelete)])
      && (cls == Expired && d.action == DeleteAction && !d.dryRun ==> events == [Event(about, ReasonDeleted)])
      && (cls == Orphaned ==> events == [Event(about, ReasonOrphaned)])
      && (cls == Abandoned ==> events == [Event(about, ReasonAbandoned)])
      && (cls == Active ==> events == [])
  }

  /** An outcome without an error comes with the event for the class, and one with an error with none. */
  lemma OutcomeTells(
    protectedNamespaces: set<string>, req: Request, obj: Obj, finding: Finding, d: Decision, a: Answers, view: View)
    ensures
      var (after, error) := LiveOutcome(protectedNamespaces, req, obj, finding, d, a, view);
      after.events == if error.Some? then view.events else view.events + Announced(obj, finding.cls, d)
  {
  }

  lemma AnnouncedFits(protectedNamespaces: set<string>, obj: Obj, env: Env, cls: Class, d: Decision)
    requires ClassByState(protectedNamespaces, obj, env) == Some(cls)
    requires cls in {Protected, Blocked, Expired, Active, Orphaned, Abandoned}
    ensures AnnouncedByState(protectedNamespaces, obj, env, d, Announced(obj, cls, d))
  {
  }

  /** No event with an error; without one, the event that the state of the object calls for. */
  lemma EventByState(
    protectedNamespaces: set<string>, globalDryRun: bool, req: Request, obj: Obj, a: Answers, view: View)
    returns (events: seq<Event>)
    requires Proceeds(req, obj, a)
    ensures
      var setup := Manager(protectedNamespaces, globalDryRun);
      var (after, error) := Complete(setup, Fetching(req), a, view);
      && after.events == view.events + events
      && (error.Some? ==> events == [])
      && (error.None? ==>
            && DecisionFor(setup, req, obj, a).Some?
            && AnnouncedByState(
                 protectedNamespaces, obj, a.env, DecisionFor(setup, req, obj, a).value.1, events))
  {
    var setup := Manager(protectedNamespaces, globalDryRun);
    DecidesByState(protectedNamespaces, globalDryRun, req, obj, a);
    events := [];
    assert view.events + [] == view.events;
    if DecisionFor(setup, req, obj, a).None? {
      EndsEarly(setup, req, a, view);
    } else {
      var (finding, d) := DecisionFor(setup, req, obj, a).value;
      RangeOfChain(protectedNamespaces, PRODUCTION_RESOLVERS, obj, a.env);
      DecidedOutcome(setup, req, obj, a, view);
      OutcomeTells(protectedNamespaces, req, obj, finding, d, a, view);
      AnnouncedFits(protectedNamespaces, obj, a.env, finding.cls, d);
      if Complete(setup, Fetching(req), a, view).1.None? {
        events := Announced(obj, finding.cls, d);
      }
    }
  }
}

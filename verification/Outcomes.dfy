/** All that a reconcile leaves behind, stated outright: the counters with their labels, the objects, the
    Delete requests, the events and the error, without phases, counts in between or stages. */
module Outcomes {
  import opened Domain
  import opened Facts
  import opened Metrics
  import opened Reporter
  import opened Classifier
  import opened PolicyEngine
  import opened Executor
  import opened Pipeline
  import opened Reconcilers
  import opened OneReconcile

  /** The error counter of the controller for a kind goes up by one. */
  function Erred(c: Counters, kind: Kind): Counters {
    c.(errors := c.errors + multiset{
      match kind
      case NamespaceKind => ("namespace", "Namespace")
      case ConfigMapKind => ("configmap", "ConfigMap")})
  }

  function KindText(kind: Kind): string {
    match kind
    case NamespaceKind => "Namespace"
    case ConfigMapKind => "ConfigMap"
  }

  /** Scanned, classified and evaluated; a decision without a policy is counted under a name of its own. */
  function Decided(c: Counters, kind: Kind, cls: Class, d: Decision): Counters {
    c.(scanned := c.scanned + multiset{KindText(kind)},
       classified := c.classified + multiset{(KindText(kind), cls)},
       evaluations := c.evaluations + multiset{(if d.policyRef == "" then "<default>" else d.policyRef, d.action)})
  }

  /** A report, or a deletion in a dry run, under the kind that the object itself reports. */
  function Acted(c: Counters, kind: string, d: Decision): Counters {
    match d.action
    case ReportAction =>
      if d.dryRun then c.(dryActions := c.dryActions + multiset{(kind, "report")})
      else c.(actions := c.actions + multiset{(kind, "report")})
    case DeleteAction => c.(dryActions := c.dryActions + multiset{(kind, "dryrun-delete")})
    case _ => c
  }

  /** The event for a class and a decision; nothing is said about Active and Unknown findings. */
  function Announced(obj: Obj, cls: Class, d: Decision): seq<Event> {
    var about := ObjectRef(obj.gvk, obj.namespace, obj.name, obj.uid);
    match cls
    case Active => []
    case Unknown => []
    case Protected => [Event(about, ReasonProtected)]
    case Blocked => [Event(about, ReasonBlocked)]
    case Orphaned => [Event(about, ReasonOrphaned)]
    case Abandoned => [Event(about, ReasonAbandoned)]
    case Ephemeral => [Event(about, ReasonClassified)]
    case Expired =>
      [Event(about,
        if d.action != DeleteAction then ReasonTtlExpired else if d.dryRun then ReasonDryRunDelete else ReasonDeleted)]
  }

  // ----- before there is a decision -----

  /** What ends a reconcile before its decision: an absent object and a terminating Namespace without a
      trace; a failed read, classification or listing with an error, counted for the controller. */
  lemma EndsEarly(setup: Setup, req: Request, a: Answers, view: View)
    ensures a.cached == NotFound ==> Complete(setup, Fetching(req), a, view) == (view, None)
    ensures a.cached == Unavailable ==>
      Complete(setup, Fetching(req), a, view) ==
        (view.(counters := Erred(view.counters, req.kind)), Some(GetFailed))
    ensures a.cached.Ok? && req.kind == NamespaceKind && a.cached.value.terminating ==>
      Complete(setup, Fetching(req), a, view) == (view, None)
    ensures a.cached.Ok? && !(req.kind == NamespaceKind && a.cached.value.terminating) ==>
      var scanned := view.counters.(scanned := view.counters.scanned + multiset{KindText(req.kind)});
      var result := Classify(setup.chain, a.cached.value, a.env);
      && (result.Bad? ==>
            Complete(setup, Fetching(req), a, view) ==
              (view.(counters := Erred(scanned, req.kind)), Some(ClassifyFailed(result.fault))))
      && (result.Good? && a.policies.ListFailed? ==>
            Complete(setup, Fetching(req), a, view) ==
              ( view.(counters := Erred(
                  scanned.(classified := scanned.classified + multiset{(KindText(req.kind), result.value.cls)}), req.kind)),
                Some(PoliciesUnlisted) ))
  {
    FetchedGoesOn(setup, req, a, view);
    if a.cached.Ok? && !(req.kind == NamespaceKind && a.cached.value.terminating) {
      var obj := a.cached.value;
      var v1 := Counted(view, Scan(KindName(req.kind)));
      ClassifiedGoesOn(setup, req, obj, a, v1);
      var result := Classify(setup.chain, obj, a.env);
      if result.Good? {
        ListedGoesOn(setup, req, obj, Named(req, result.value), a,
          Counted(v1, Classification(KindName(req.kind), result.value.cls)));
      }
    }
  }

  // ----- from the decision on -----

  /** The identity of a reconcile in its finding and decision. */
  lemma Identified(setup: Setup, req: Request, obj: Obj, a: Answers)
    requires DecisionFor(setup, req, obj, a).Some?
    ensures
      var (finding, decision) := DecisionFor(setup, req, obj, a).value;
      && finding.ref == ObjectRef(obj.gvk, obj.namespace, obj.name, obj.uid)
      && finding.reconcileId == decision.reconcileId
      && finding.reconcileId ==
           match req.kind
           case NamespaceKind => req.name
           case ConfigMapKind => req.namespace + "/" + req.name
  {
    ClassifyRefersTo(setup.chain, obj, a.env);
    var finding := DecisionFor(setup, req, obj, a).value.0;
    KeepsIdentity(setup.globalDryRun, obj.annotations, finding, KindFilter(a.policies.items, KindName(req.kind)));
  }

  lemma DecidedCounts(c: Counters, kind: Kind, cls: Class, d: Decision)
    ensures Add(Add(Add(c, Scan(KindName(kind))), Classification(KindName(kind), cls)), Evaluation(d.policyRef, d.action)) ==
      Decided(c, kind, cls, d)
  {
  }

  /** Up to the decision, and with what it counts. */
  lemma ToDecision(setup: Setup, req: Request, obj: Obj, a: Answers, view: View)
    requires a.cached == Ok(obj) && DecisionFor(setup, req, obj, a).Some?
    ensures
      var (finding, d) := DecisionFor(setup, req, obj, a).value;
      var before := Add(Add(view.counters, Scan(KindName(req.kind))), Classification(KindName(req.kind), finding.cls));
      var step := OnDecided(setup, req, obj, finding, d);
      Complete(setup, Fetching(req), a, view) ==
        Complete(setup, step.next, a, view.(counters := AddAll(before, step.counts)))
  {
    FetchedGoesOn(setup, req, a, view);
    var v1 := Counted(view, Scan(KindName(req.kind)));
    ClassifiedGoesOn(setup, req, obj, a, v1);
    var result := Classify(setup.chain, obj, a.env);
    var v2 := Counted(v1, Classification(KindName(req.kind), result.value.cls));
    ListedGoesOn(setup, req, obj, Named(req, result.value), a, v2);
    var (finding, d) := DecisionFor(setup, req, obj, a).value;
    var counters := AddAll(v2.counters, OnDecided(setup, req, obj, finding, d).counts);
    assert v2.(counters := counters) == view.(counters := counters);
  }

  /** What follows a decision that was carried out. */
  lemma Announces(
    setup: Setup, req: Request, obj: Obj, finding: Finding, d: Decision, counts: seq<Count>, a: Answers, view: View)
    requires !d.action.OtherAction?
    ensures Complete(setup, Conclude(req, obj, finding, d, counts).next, a, view) ==
      (view.(events := view.events + Announced(obj, finding.cls, d)), None)
  {
    ConcludeEnds(setup, req, obj, finding, d, counts, a, view);
    assert view.events + [] == view.events;
  }

  /** A decision that is no live delete: one action counted, if any, one event, if any, and no error. */
  function MildOutcome(req: Request, obj: Obj, finding: Finding, d: Decision, view: View): (View, Option<Error>) {
    ( View(
        Acted(Decided(view.counters, req.kind, finding.cls, d), obj.gvk.kind, d),
        view.objects, view.deletes, view.events + Announced(obj, finding.cls, d)),
      None )
  }

  /** After the request was sent: the outcome of its answer. */
  function SentOutcome(
    req: Request, obj: Obj, finding: Finding, d: Decision, current: Obj, a: Answers, view: View): (View, Option<Error>)
  {
    var key := Key(req.kind, current.namespace, current.name);
    var c := view.counters;
    var sent := view.(objects := AfterDelete(view.objects, key, a.deletion), deletes := view.deletes + [key]);
    var told := view.events + Announced(obj, finding.cls, d);
    match a.deletion
    case Accepted =>
      (sent.(counters := c.(actions := c.actions + multiset{(obj.gvk.kind, "delete")}), events := told), None)
    case AlreadyGone => (sent.(events := told), None)
    case DeleteFailed(_) =>
      ( sent.(counters := Erred(c.(errors := c.errors + multiset{("unknown", obj.gvk.kind)}), req.kind)),
        Some(ExecuteFailed(DeletionFailed)) )
  }

  /** After the re-read: nothing to do for an absent object, stopped by a failed read or check, or sent. */
  function RereadOutcome(req: Request, obj: Obj, finding: Finding, d: Decision, a: Answers, view: View):
    (View, Option<Error>)
  {
    match CheckOf(finding.ref, a.read)
    case Absent => (view.(events := view.events + Announced(obj, finding.cls, d)), None)
    case Stopped(why) => (view.(counters := Erred(view.counters, req.kind)), Some(ExecuteFailed(why)))
    case Cleared(current) => SentOutcome(req, obj, finding, d, current, a, view)
  }

  /** A live delete: refused for a protected key, and otherwise as the re-read has it. */
  function LiveOutcome(
    protectedNamespaces: set<string>, req: Request, obj: Obj, finding: Finding, d: Decision, a: Answers, view: View):
    (View, Option<Error>)
  {
    var decided := view.(counters := Decided(view.counters, req.kind, finding.cls, d));
    if OnList(protectedNamespaces, obj.namespace, obj.name) then
      (decided.(counters := Erred(decided.counters, req.kind)), Some(ExecuteFailed(Refused(NamespaceIsProtected))))
    else RereadOutcome(req, obj, finding, d, a, decided)
  }

  lemma AfterMild(setup: Setup, req: Request, obj: Obj, finding: Finding, d: Decision, a: Answers, view: View)
    requires !d.action.OtherAction? && !(d.action == DeleteAction && !d.dryRun) && finding.ref.gvk == obj.gvk
    ensures
      var before := Add(Add(view.counters, Scan(KindName(req.kind))), Classification(KindName(req.kind), finding.cls));
      var step := OnDecided(setup, req, obj, finding, d);
      Complete(setup, step.next, a, view.(counters := AddAll(before, step.counts))) ==
        MildOutcome(req, obj, finding, d, view)
  {
    var before := Add(Add(view.counters, Scan(KindName(req.kind))), Classification(KindName(req.kind), finding.cls));
    var evaluated := Evaluation(d.policyRef, d.action);
    var count := StartOf(setup.protectedNamespaces, finding, d).count;
    AddAllOfConcat(before, [evaluated], ToSeq(count));
    AddOne(before, evaluated);
    AddToSeq(Add(before, evaluated), count);
    DecidedCounts(view.counters, req.kind, finding.cls, d);
    var counts := [evaluated] + ToSeq(count);
    Announces(setup, req, obj, finding, d, counts, a, view.(counters := AddAll(before, counts)));
  }

  lemma AfterAnswer(
    setup: Setup, req: Request, obj: Obj, finding: Finding, d: Decision, current: Obj, a: Answers, view: View)
    requires d.action == DeleteAction && !d.dryRun && finding.ref.gvk == obj.gvk
    ensures Complete(setup, Deleting(req, obj, finding, d, current), a, view) ==
      SentOutcome(req, obj, finding, d, current, a, view)
  {
    var phase := Deleting(req, obj, finding, d, current);
    var step := OnDeleted(req, obj, finding, d, a.deletion);
    var counts := ToSeq(CountOfDelete(finding.ref, a.deletion));
    var key := Key(req.kind, current.namespace, current.name);
    var moved := view.(objects := AfterDelete(view.objects, key, a.deletion), deletes := view.deletes + [key]);
    assert After(view, phase, a.deletion, step) == moved.(counters := AddAll(view.counters, step.counts));
    AddToSeq(view.counters, CountOfDelete(finding.ref, a.deletion));
    if a.deletion.DeleteFailed? {
      FailEnds(setup, req, counts, ExecuteFailed(DeletionFailed), a, moved);
    } else {
      Announces(setup, req, obj, finding, d, counts, a, moved.(counters := AddAll(view.counters, counts)));
    }
  }

  lemma AfterRereading(
    setup: Setup, req: Request, obj: Obj, finding: Finding, d: Decision, a: Answers, view: View)
    requires d.action == DeleteAction && !d.dryRun && finding.ref.gvk == obj.gvk
    ensures Complete(setup, Rereading(req, obj, finding, d), a, view) ==
      RereadOutcome(req, obj, finding, d, a, view)
  {
    var step := OnReread(req, obj, finding, d, a.read);
    assert After(view, Rereading(req, obj, finding, d), a.deletion, step) ==
      view.(counters := AddAll(view.counters, step.counts));
    match CheckOf(finding.ref, a.read) {
      case Absent => Announces(setup, req, obj, finding, d, [], a, view);
      case Stopped(why) => FailEnds(setup, req, [], ExecuteFailed(why), a, view);
      case Cleared(current) => AfterAnswer(setup, req, obj, finding, d, current, a, view);
    }
  }

  lemma AfterLive(setup: Setup, req: Request, obj: Obj, finding: Finding, d: Decision, a: Answers, view: View)
    requires d.action == DeleteAction && !d.dryRun && finding.ref == ObjectRef(obj.gvk, obj.namespace, obj.name, obj.uid)
    ensures
      var before := Add(Add(view.counters, Scan(KindName(req.kind))), Classification(KindName(req.kind), finding.cls));
      var step := OnDecided(setup, req, obj, finding, d);
      Complete(setup, step.next, a, view.(counters := AddAll(before, step.counts))) ==
        LiveOutcome(setup.protectedNamespaces, req, obj, finding, d, a, view)
  {
    var before := Add(Add(view.counters, Scan(KindName(req.kind))), Classification(KindName(req.kind), finding.cls));
    var evaluated := Evaluation(d.policyRef, d.action);
    AddOne(before, evaluated);
    DecidedCounts(view.counters, req.kind, finding.cls, d);
    if OnList(setup.protectedNamespaces, obj.namespace, obj.name) {
      assert [evaluated] + ToSeq(None) == [evaluated];
      FailEnds(setup, req, [evaluated], ExecuteFailed(Refused(NamespaceIsProtected)), a, view.(counters := before));
    } else {
      AfterRereading(setup, req, obj, finding, d, a, view.(counters := AddAll(before, [evaluated])));
    }
  }

  /** Every reconcile that gets to a decision leaves exactly this behind, for every chain, policy and
      answer. */
  lemma DecidedOutcome(setup: Setup, req: Request, obj: Obj, a: Answers, view: View)
    requires a.cached == Ok(obj) && DecisionFor(setup, req, obj, a).Some?
    ensures
      var (finding, d) := DecisionFor(setup, req, obj, a).value;
      Complete(setup, Fetching(req), a, view) ==
        if d.action == DeleteAction && !d.dryRun then
          LiveOutcome(setup.protectedNamespaces, req, obj, finding, d, a, view)
        else MildOutcome(req, obj, finding, d, view)
  {
    var (finding, d) := DecisionFor(setup, req, obj, a).value;
    Identified(setup, req, obj, a);
    ToDecision(setup, req, obj, a, view);
    DeclaredAction(setup.globalDryRun, obj.annotations, finding, KindFilter(a.policies.items, KindName(req.kind)));
    if d.action == DeleteAction && !d.dryRun {
      AfterLive(setup, req, obj, finding, d, a, view);
    } else {
      AfterMild(setup, req, obj, finding, d, a, view);
    }
  }
}

/** The reconcile pipeline as a machine that advances by one answer of the outside world at a time:
    cached Get, classification reads, policy listing, pre-flight read, Delete, event. Everything
    between two answers is local to the controller. */
module Pipeline {
  import opened Domain
  import opened Metrics
  import opened Reporter
  import opened Classifier
  import opened PolicyEngine
  import opened Executor

  datatype Setup = Setup(chain: seq<Strategy>, globalDryRun: bool, protectedNamespaces: set<string>)

  datatype Request = Request(kind: Kind, namespace: string, name: string)

  function RequestKey(req: Request): Key {
    Key(req.kind, req.namespace, req.name)
  }

  function ControllerLabel(kind: Kind): string {
    match kind
    case NamespaceKind => "namespace"
    case ConfigMapKind => "configmap"
  }

  function ReconcileId(req: Request): string {
    match req.kind
    case NamespaceKind => req.name
    case ConfigMapKind => req.namespace + "/" + req.name
  }

  datatype Error =
    | GetFailed
    | ClassifyFailed(fault: Fault)
    | PoliciesUnlisted
    | ExecuteFailed(why: ExecError)

  datatype Phase =
    | Fetching(req: Request)
    | Classifying(req: Request, obj: Obj)
    | Matching(req: Request, obj: Obj, finding: Finding)
    | Rereading(req: Request, obj: Obj, finding: Finding, decision: Decision)
    | Deleting(req: Request, obj: Obj, finding: Finding, decision: Decision, current: Obj)
    | Reporting(req: Request, obj: Obj, finding: Finding, decision: Decision)
    | Done(error: Option<Error>)

  datatype Input =
    | Fetched(cached: Answer<Obj>)
    | Classified(env: Env)
    | PoliciesListed(listing: Listing<Policy>)
    | Reread(read: Answer<Obj>)
    | Deleted(deletion: DeleteAnswer)
    | Reported

  predicate Expects(phase: Phase, input: Input) {
    match phase
    case Fetching(_) => input.Fetched?
    case Classifying(_, _) => input.Classified?
    case Matching(_, _, _) => input.PoliciesListed?
    case Rereading(_, _, _, _) => input.Reread?
    case Deleting(_, _, _, _, _) => input.Deleted?
    case Reporting(_, _, _, _) => input.Reported?
    case Done(_) => false
  }

  /** One step: the next phase, what was counted and the event emitted, if any. */
  datatype Step = Step(next: Phase, counts: seq<Count>, event: Option<Event>)

  function Fail(req: Request, counts: seq<Count>, error: Error): Step {
    Step(Done(Some(error)), counts + [ErrorCount(ControllerLabel(req.kind), KindName(req.kind))], None)
  }

  /** Whether a reconcile emits an event about a decision it carried out. */
  predicate Reports(finding: Finding, decision: Decision) {
    decision.action != OtherAction("") && finding.cls != Active && finding.cls != Unknown
  }

  /** After an Execute that returned no error. */
  function Conclude(req: Request, obj: Obj, finding: Finding, decision: Decision, counts: seq<Count>): Step {
    Step(
      if Reports(finding, decision) then Reporting(req, obj, finding, decision) else Done(None),
      counts, None)
  }

  function ToSeq(count: Option<Count>): seq<Count> {
    match count
    case None => []
    case Some(n) => [n]
  }

  function Advance(setup: Setup, phase: Phase, input: Input): Step
    requires Expects(phase, input)
  {
    match phase
    case Fetching(req) => OnFetched(req, input.cached)
    case Classifying(req, obj) => OnClassified(req, obj, Classify(setup.chain, obj, input.env))
    case Matching(req, obj, finding) => OnListed(setup, req, obj, finding, input.listing)
    case Rereading(req, obj, finding, decision) => OnReread(req, obj, finding, decision, input.read)
    case Deleting(req, obj, finding, decision, _) => OnDeleted(req, obj, finding, decision, input.deletion)
    case Reporting(req, obj, finding, decision) => Step(Done(None), [], Some(EventOf(obj, finding, decision)))
  }

  function OnFetched(req: Request, cached: Answer<Obj>): Step {
    match cached
    case NotFound => Step(Done(None), [], None)
    case Unavailable => Fail(req, [], GetFailed)
    case Ok(obj) =>
      if req.kind == NamespaceKind && obj.terminating then Step(Done(None), [], None)
      else Step(Classifying(req, obj), [Scan(KindName(req.kind))], None)
  }

  function Named(req: Request, finding: Finding): Finding {
    finding.(reconcileId := ReconcileId(req))
  }

  function OnClassified(req: Request, obj: Obj, result: Outcome<Finding>): Step {
    match result
    case Bad(fault) => Fail(req, [], ClassifyFailed(fault))
    case Good(finding) =>
      Step(Matching(req, obj, Named(req, finding)),
        [Classification(KindName(req.kind), finding.cls)], None)
  }

  function OnListed(setup: Setup, req: Request, obj: Obj, finding: Finding, listing: Listing<Policy>): Step {
    match listing
    case ListFailed => Fail(req, [], PoliciesUnlisted)
    case Listed(items) =>
      var decision := Evaluate(setup.globalDryRun, obj.annotations, finding, KindFilter(items, KindName(req.kind)));
      OnDecided(setup, req, obj, finding, decision)
  }

  function OnDecided(setup: Setup, req: Request, obj: Obj, finding: Finding, decision: Decision): Step {
    var evaluated := [Evaluation(decision.policyRef, decision.action)];
    match StartOf(setup.protectedNamespaces, finding, decision)
    case MustReread => Step(Rereading(req, obj, finding, decision), evaluated, None)
    case Settled(count, error) =>
      if error.Some? then Fail(req, evaluated + ToSeq(count), ExecuteFailed(error.value))
      else Conclude(req, obj, finding, decision, evaluated + ToSeq(count))
  }

  function OnReread(req: Request, obj: Obj, finding: Finding, decision: Decision, read: Answer<Obj>): Step {
    match CheckOf(finding.ref, read)
    case Absent => Conclude(req, obj, finding, decision, [])
    case Stopped(error) => Fail(req, [], ExecuteFailed(error))
    case Cleared(current) => Step(Deleting(req, obj, finding, decision, current), [], None)
  }

  function OnDeleted(req: Request, obj: Obj, finding: Finding, decision: Decision, deletion: DeleteAnswer): Step {
    var counts := ToSeq(CountOfDelete(finding.ref, deletion));
    match ErrorOfDelete(deletion)
    case Some(error) => Fail(req, counts, ExecuteFailed(error))
    case None => Conclude(req, obj, finding, decision, counts)
  }

  // ----- one reconcile from start to end -----

  /** The answers one whole reconcile may ask for. */
  datatype Answers = Answers(
    cached: Answer<Obj>, env: Env, policies: Listing<Policy>, read: Answer<Obj>, deletion: DeleteAnswer)

  function InputFor(phase: Phase, a: Answers): (input: Input)
    requires !phase.Done?
    ensures Expects(phase, input)
  {
    match phase
    case Fetching(_) => Fetched(a.cached)
    case Classifying(_, _) => Classified(a.env)
    case Matching(_, _, _) => PoliciesListed(a.policies)
    case Rereading(_, _, _, _) => Reread(a.read)
    case Deleting(_, _, _, _, _) => Deleted(a.deletion)
    case Reporting(_, _, _, _) => Reported
  }

  function StepsLeft(phase: Phase): nat {
    match phase
    case Fetching(_) => 6
    case Classifying(_, _) => 5
    case Matching(_, _, _) => 4
    case Rereading(_, _, _, _) => 3
    case Deleting(_, _, _, _, _) => 2
    case Reporting(_, _, _, _) => 1
    case Done(_) => 0
  }

  /** All that a reconcile can change outside itself. */
  datatype View = View(counters: Counters, objects: map<Key, Obj>, deletes: seq<Key>, events: seq<Event>)

  /** The view after one step; only the Deleting phase reaches the API server's objects. */
  function After(view: View, phase: Phase, deletion: DeleteAnswer, step: Step): View {
    View(
      AddAll(view.counters, step.counts),
      match phase
      case Deleting(req, _, _, _, current) => AfterDelete(view.objects, KeyOf(req.kind, RefOf(current)), deletion)
      case _ => view.objects,
      match phase
      case Deleting(req, _, _, _, current) => view.deletes + [KeyOf(req.kind, RefOf(current))]
      case _ => view.deletes,
      match step.event
      case None => view.events
      case Some(event) => view.events + [event])
  }

  /** Runs the machine to the end on given answers, with nobody interfering. */
  function Complete(setup: Setup, phase: Phase, a: Answers, view: View): (View, Option<Error>)
    decreases StepsLeft(phase)
  {
    if phase.Done? then (view, phase.error)
    else
      var step := Advance(setup, phase, InputFor(phase, a));
      Complete(setup, step.next, a, After(view, phase, a.deletion, step))
  }
}

/** The counters add up, at every moment of every interleaved run. */
module Conservation {
  import opened Domain
  import opened Metrics
  import opened Classifier
  import opened PolicyEngine
  import opened Executor
  import opened Pipeline
  import opened Cluster

  /** The totals the laws are about, of all kinds and of one. */
  datatype Totals = Totals(
    scanned: nat, scannedOf: nat, classified: nat, classifiedOf: nat, evaluated: nat,
    errors: nat, labelledOf: nat, unnamed: multiset<string>, deletes: multiset<string>)

  const NO_TOTALS := Totals(0, 0, 0, 0, 0, 0, 0, multiset{}, multiset{})

  function One(b: bool): nat {
    if b then 1 else 0
  }

  function LabelOf(kind: Kind): (string, string) {
    (ControllerLabel(kind), KindName(kind))
  }

  function DeleteKinds(n: Count): multiset<string> {
    if n.ActionTaken? && !n.dryRun && n.taken == "delete" then multiset{n.kind} else multiset{}
  }

  function UnnamedKinds(n: Count): multiset<string> {
    if n.ErrorCount? && n.controller == "unknown" then multiset{n.kind} else multiset{}
  }

  function Plus(k: Kind, t: Totals, n: Count): Totals {
    Totals(
      t.scanned + One(n.Scan?), t.scannedOf + One(n == Scan(KindName(k))),
      t.classified + One(n.Classification?), t.classifiedOf + One(n.Classification? && n.kind == KindName(k)),
      t.evaluated + One(n.Evaluation?),
      t.errors + One(n.ErrorCount?), t.labelledOf + One(n == ErrorCount(ControllerLabel(k), KindName(k))),
      t.unnamed + UnnamedKinds(n), t.deletes + DeleteKinds(n))
  }

  function PlusAll(k: Kind, t: Totals, ns: seq<Count>): Totals
    decreases ns
  {
    if ns == [] then t else PlusAll(k, Plus(k, t, ns[0]), ns[1..])
  }

  /** How many classifications were counted for a kind, over all classes. */
  function OfKind(classified: multiset<(string, Class)>, kind: string): nat {
    classified[(kind, Protected)] + classified[(kind, Blocked)] + classified[(kind, Expired)]
    + classified[(kind, Active)] + classified[(kind, Orphaned)] + classified[(kind, Abandoned)]
    + classified[(kind, Ephemeral)] + classified[(kind, Unknown)]
  }

  ghost predicate ShowsScans(k: Kind, c: Counters, t: Totals) {
    |c.scanned| == t.scanned && c.scanned[KindName(k)] == t.scannedOf
  }

  ghost predicate ShowsClassifications(k: Kind, c: Counters, t: Totals) {
    |c.classified| == t.classified && OfKind(c.classified, KindName(k)) == t.classifiedOf
  }

  ghost predicate ShowsErrors(k: Kind, c: Counters, t: Totals) {
    && |c.errors| == t.errors && c.errors[LabelOf(k)] == t.labelledOf
    && forall kind :: c.errors[("unknown", kind)] == t.unnamed[kind]
  }

  ghost predicate ShowsActions(c: Counters, t: Totals) {
    forall kind :: c.actions[(kind, "delete")] == t.deletes[kind]
  }

  /** The counters show these totals. */
  ghost predicate Shows(k: Kind, c: Counters, t: Totals) {
    && ShowsScans(k, c, t) && ShowsClassifications(k, c, t) && |c.evaluations| == t.evaluated
    && ShowsErrors(k, c, t) && ShowsActions(c, t)
  }

  lemma OneMore<T>(m: multiset<T>, x: T, y: T)
    ensures (m + multiset{x})[y] == m[y] + One(x == y) && |m + multiset{x}| == |m| + 1
  {
  }

  lemma OfKindAfter(m: multiset<(string, Class)>, x: (string, Class), kind: string)
    ensures OfKind(m + multiset{x}, kind) == OfKind(m, kind) + One(x.0 == kind)
  {
    OneMore(m, x, (kind, Protected)); OneMore(m, x, (kind, Blocked));
    OneMore(m, x, (kind, Expired)); OneMore(m, x, (kind, Active));
    OneMore(m, x, (kind, Orphaned)); OneMore(m, x, (kind, Abandoned));
    OneMore(m, x, (kind, Ephemeral)); OneMore(m, x, (kind, Unknown));
    match x.1 {
      case Protected => case Blocked => case Expired => case Active =>
      case Orphaned => case Abandoned => case Ephemeral => case Unknown =>
    }
  }

  lemma AddShowsClassifications(k: Kind, c: Counters, t: Totals, n: Count)
    requires ShowsClassifications(k, c, t)
    ensures ShowsClassifications(k, Add(c, n), Plus(k, t, n))
  {
    if n.Classification? {
      OfKindAfter(c.classified, (n.kind, n.cls), KindName(k));
    }
  }

  lemma AddShowsErrors(k: Kind, c: Counters, t: Totals, n: Count)
    requires ShowsErrors(k, c, t)
    ensures ShowsErrors(k, Add(c, n), Plus(k, t, n))
  {
    if n.ErrorCount? {
      OneMore(c.errors, (n.controller, n.kind), LabelOf(k));
      forall kind
        ensures Add(c, n).errors[("unknown", kind)] == Plus(k, t, n).unnamed[kind]
      {
        UnnamedAfter(c.errors, t.unnamed, n, kind);
      }
    }
  }

  lemma UnnamedAfter(errors: multiset<(string, string)>, unnamed: multiset<string>, n: Count, kind: string)
    requires n.ErrorCount? && errors[("unknown", kind)] == unnamed[kind]
    ensures (errors + multiset{(n.controller, n.kind)})[("unknown", kind)] == (unnamed + UnnamedKinds(n))[kind]
  {
    OneMore(errors, (n.controller, n.kind), ("unknown", kind));
    OneMore(unnamed, n.kind, kind);
  }

  lemma AddShowsScans(k: Kind, c: Counters, t: Totals, n: Count)
    requires ShowsScans(k, c, t)
    ensures ShowsScans(k, Add(c, n), Plus(k, t, n))
  {
    if n.Scan? {
      OneMore(c.scanned, n.kind, KindName(k));
    }
  }

  lemma AddShowsActions(k: Kind, c: Counters, t: Totals, n: Count)
    requires ShowsActions(c, t)
    ensures ShowsActions(Add(c, n), Plus(k, t, n))
  {
    forall kind
      ensures Add(c, n).actions[(kind, "delete")] == Plus(k, t, n).deletes[kind]
    {
      DeletedAfter(c, t.deletes, n, kind);
    }
  }

  lemma DeletedAfter(c: Counters, deletes: multiset<string>, n: Count, kind: string)
    requires c.actions[(kind, "delete")] == deletes[kind]
    ensures Add(c, n).actions[(kind, "delete")] == (deletes + DeleteKinds(n))[kind]
  {
    if n.ActionTaken? && !n.dryRun {
      OneMore(c.actions, (n.kind, n.taken), (kind, "delete"));
      OneMore(deletes, n.kind, kind);
    }
  }

  lemma {:induction false} AddAllShows(k: Kind, c: Counters, t: Totals, ns: seq<Count>)
    requires Shows(k, c, t)
    ensures Shows(k, AddAll(c, ns), PlusAll(k, t, ns))
    decreases ns
  {
    if ns != [] {
      AddShowsClassifications(k, c, t, ns[0]);
      AddShowsErrors(k, c, t, ns[0]);
      AddShowsScans(k, c, t, ns[0]);
      AddShowsActions(k, c, t, ns[0]);
      AddAllShows(k, Add(c, ns[0]), Plus(k, t, ns[0]), ns[1..]);
    }
  }

  lemma {:induction false} PlusAllOfConcat(k: Kind, t: Totals, a: seq<Count>, b: seq<Count>)
    ensures PlusAll(k, t, a + b) == PlusAll(k, PlusAll(k, t, a), b)
    decreases a
  {
    if a == [] {
      assert a + b == b;
    } else {
      assert (a + b)[1..] == a[1..] + b;
      PlusAllOfConcat(k, Plus(k, t, a[0]), a[1..], b);
    }
  }

  lemma PlusOne(k: Kind, t: Totals, n: Count)
    ensures PlusAll(k, t, [n]) == Plus(k, t, n)
  {
    assert [n][1..] == [];
  }

  /** How many reconciles are about to classify, of all kinds and of one, and how many are about to
      match policies. */
  datatype UnderWay = UnderWay(classifying: int, classifyingOf: int, matching: int)

  ghost predicate ScansBalance(k: Kind, ledger: Ledger, t: Totals, u: UnderWay) {
    && t.scanned == t.classified + ledger.classifyFailures.Total() + u.classifying
    && t.scannedOf == t.classifiedOf + ledger.classifyFailures.Of(k) + u.classifyingOf
    && t.classified == t.evaluated + ledger.listFailures.Total() + u.matching
  }

  ghost predicate ErrorsBalance(k: Kind, ledger: Ledger, t: Totals) {
    && t.labelledOf == ledger.erredReconciles.Of(k)
    && t.errors == ledger.erredReconciles.Total() + |ledger.failedDeletes|
    && t.unnamed == ledger.failedDeletes && t.deletes == ledger.acceptedDeletes
  }

  /** The conservation laws, for a moment in which some reconciles may be under way. */
  ghost predicate Balanced(k: Kind, ledger: Ledger, t: Totals, u: UnderWay) {
    ScansBalance(k, ledger, t, u) && ErrorsBalance(k, ledger, t)
  }

  /** The label values of the two kinds, and the one of an unnamed controller, all differ. */
  lemma LabelsDiffer(k: Kind, kind: Kind)
    ensures (KindName(kind) == KindName(k) <==> kind == k) && (ControllerLabel(kind) == ControllerLabel(k) <==> kind == k)
    ensures ControllerLabel(kind) != "unknown"
  {
    assert "Namespace"[0] != "ConfigMap"[0] && "namespace"[0] != "configmap"[0];
    assert |"unknown"| != |"namespace"| && |"unknown"| != |"configmap"|;
  }

  lemma FailTotals(k: Kind, t: Totals, req: Request, counts: seq<Count>, error: Error)
    ensures PlusAll(k, t, Fail(req, counts, error).counts) ==
      Failed(k, PlusAll(k, t, counts), req)
  {
    LabelsDiffer(k, req.kind);
    PlusAllOfConcat(k, t, counts, [ErrorCount(ControllerLabel(req.kind), KindName(req.kind))]);
    PlusOne(k, PlusAll(k, t, counts), ErrorCount(ControllerLabel(req.kind), KindName(req.kind)));
  }

  /** How one step moves the totals. */
  function Moved(k: Kind, t: Totals, phase: Phase, input: Input, next: Phase): Totals
    requires !phase.Done?
  {
    var erred := next.Done? && next.error.Some?;
    var deleteFailed := input.Deleted? && input.deletion.DeleteFailed?;
    Totals(
      t.scanned + One(next.Classifying?), t.scannedOf + One(next.Classifying? && next.req.kind == k),
      t.classified + One(next.Matching?), t.classifiedOf + One(next.Matching? && next.req.kind == k),
      t.evaluated + One(phase.Matching? && input.PoliciesListed? && input.listing.Listed?),
      t.errors + One(erred) + One(deleteFailed), t.labelledOf + One(erred && phase.req.kind == k),
      t.unnamed + DeletionsOf(phase, deleteFailed), t.deletes + DeletionsOf(phase, input == Deleted(Accepted)))
  }

  function Failed(k: Kind, t: Totals, req: Request): Totals {
    t.(errors := t.errors + 1, labelledOf := t.labelledOf + One(req.kind == k))
  }

  function FailedIf(k: Kind, next: Phase, t: Totals, req: Request): Totals {
    if next.Done? && next.error.Some? then Failed(k, t, req) else t
  }

  /** A step that fails before anything else is counted. */
  lemma FailureTotals(k: Kind, t: Totals, phase: Phase, input: Input, error: Error)
    requires !phase.Done? && !phase.Deleting? && !(input.PoliciesListed? && input.listing.Listed?)
    requires !input.Deleted?
    ensures
      var step := Fail(phase.req, [], error);
      PlusAll(k, t, step.counts) == Moved(k, t, phase, input, step.next)
  {
    FailTotals(k, t, phase.req, [], error);
    MovedByFailure(k, t, phase, input, error);
  }

  lemma MovedByFailure(k: Kind, t: Totals, phase: Phase, input: Input, error: Error)
    requires !phase.Done? && !phase.Deleting? && !(input.PoliciesListed? && input.listing.Listed?)
    requires !input.Deleted?
    ensures Moved(k, t, phase, input, Done(Some(error))) == Failed(k, t, phase.req)
  {
    Unmoved(t);
  }

  lemma ClassifyTotals(k: Kind, setup: Setup, req: Request, obj: Obj, env: Env, t: Totals)
    ensures
      var step := OnClassified(req, obj, Classify(setup.chain, obj, env));
      PlusAll(k, t, step.counts) == Moved(k, t, Classifying(req, obj), Classified(env), step.next)
  {
    LabelsDiffer(k, req.kind);
    match Classify(setup.chain, obj, env) {
      case Bad(fault) => FailureTotals(k, t, Classifying(req, obj), Classified(env), ClassifyFailed(fault));
      case Good(finding) => PlusOne(k, t, Classification(KindName(req.kind), finding.cls));
    }
  }

  lemma FetchTotals(k: Kind, req: Request, cached: Answer<Obj>, t: Totals)
    ensures
      var step := OnFetched(req, cached);
      PlusAll(k, t, step.counts) == Moved(k, t, Fetching(req), Fetched(cached), step.next)
  {
    match cached {
      case NotFound => Unmoved(t);
      case Unavailable => FailureTotals(k, t, Fetching(req), Fetched(Unavailable), GetFailed);
      case Ok(obj) =>
        if req.kind == NamespaceKind && obj.terminating {
          Unmoved(t);
        } else {
          ScanTotals(k, t, req, obj);
        }
    }
  }

  lemma ScanTotals(k: Kind, t: Totals, req: Request, obj: Obj)
    ensures PlusAll(k, t, [Scan(KindName(req.kind))]) ==
      Moved(k, t, Fetching(req), Fetched(Ok(obj)), Classifying(req, obj))
  {
    LabelsDiffer(k, req.kind);
    PlusOne(k, t, Scan(KindName(req.kind)));
  }

  lemma Unmoved(t: Totals)
    ensures t.unnamed + multiset{} == t.unnamed && t.deletes + multiset{} == t.deletes
  {
  }

  /** Reports and dry runs are counted as actions, but not as live deletions. */
  lemma SettledIsMild(k: Kind, setup: Setup, finding: Finding, decision: Decision, t: Totals)
    requires StartOf(setup.protectedNamespaces, finding, decision).Settled?
    ensures PlusAll(k, t, ToSeq(StartOf(setup.protectedNamespaces, finding, decision).count)) == t
  {
    var count := StartOf(setup.protectedNamespaces, finding, decision).count;
    if count.Some? {
      PlusOne(k, t, count.value);
      assert "report"[0] != "delete"[0] && |"dryrun-delete"| != |"delete"|;
      MildCounts(k, t, count.value);
    }
  }

  lemma MildCounts(k: Kind, t: Totals, n: Count)
    requires n.ActionTaken? && n.taken != "delete"
    ensures Plus(k, t, n) == t
  {
  }

  lemma DecideTotals(k: Kind, setup: Setup, req: Request, obj: Obj, finding: Finding, decision: Decision, t: Totals)
    ensures
      var step := OnDecided(setup, req, obj, finding, decision);
      PlusAll(k, t, step.counts) == FailedIf(k, step.next, t.(evaluated := t.evaluated + 1), req)
  {
    var evaluated := Evaluation(decision.policyRef, decision.action);
    PlusOne(k, t, evaluated);
    match StartOf(setup.protectedNamespaces, finding, decision) {
      case MustReread =>
      case Settled(count, error) =>
        PlusAllOfConcat(k, t, [evaluated], ToSeq(count));
        SettledIsMild(k, setup, finding, decision, Plus(k, t, evaluated));
        if error.Some? {
          FailTotals(k, t, req, [evaluated] + ToSeq(count), ExecuteFailed(error.value));
        }
    }
  }

  lemma ListTotals(k: Kind, setup: Setup, req: Request, obj: Obj, finding: Finding, listing: Listing<Policy>, t: Totals)
    ensures
      var step := OnListed(setup, req, obj, finding, listing);
      PlusAll(k, t, step.counts) == Moved(k, t, Matching(req, obj, finding), PoliciesListed(listing), step.next)
  {
    match listing {
      case ListFailed =>
        FailureTotals(k, t, Matching(req, obj, finding), PoliciesListed(ListFailed), PoliciesUnlisted);
      case Listed(items) =>
        var decision := Evaluate(setup.globalDryRun, obj.annotations, finding, KindFilter(items, KindName(req.kind)));
        DecideTotals(k, setup, req, obj, finding, decision, t);
        MovedByDecision(k, t, Matching(req, obj, finding), items, OnDecided(setup, req, obj, finding, decision).next);
    }
  }

  lemma MovedByDecision(k: Kind, t: Totals, phase: Phase, items: seq<Policy>, next: Phase)
    requires phase.Matching? && (next.Rereading? || next.Reporting? || next.Done?)
    ensures Moved(k, t, phase, PoliciesListed(Listed(items)), next) ==
      FailedIf(k, next, t.(evaluated := t.evaluated + 1), phase.req)
  {
  }

  lemma RereadTotals(k: Kind, req: Request, obj: Obj, finding: Finding, decision: Decision, read: Answer<Obj>, t: Totals)
    ensures
      var step := OnReread(req, obj, finding, decision, read);
      PlusAll(k, t, step.counts) == Moved(k, t, Rereading(req, obj, finding, decision), Reread(read), step.next)
  {
    var check := CheckOf(finding.ref, read);
    if check.Stopped? {
      FailureTotals(k, t, Rereading(req, obj, finding, decision), Reread(read), ExecuteFailed(check.error));
    }
  }

  lemma DeleteTotals(
    k: Kind, req: Request, obj: Obj, finding: Finding, decision: Decision, current: Obj, deletion: DeleteAnswer, t: Totals)
    ensures
      var step := OnDeleted(req, obj, finding, decision, deletion);
      PlusAll(k, t, step.counts) ==
        Moved(k, t, Deleting(req, obj, finding, decision, current), Deleted(deletion), step.next)
  {
    var phase := Deleting(req, obj, finding, decision, current);
    var step := OnDeleted(req, obj, finding, decision, deletion);
    match deletion {
      case Accepted =>
        PlusOne(k, t, ActionTaken(finding.ref.gvk.kind, "delete", false));
        MovedByDelete(k, t, phase, deletion, step.next);
      case AlreadyGone => MovedByDelete(k, t, phase, deletion, step.next);
      case DeleteFailed(_) =>
        var failed := ErrorCount("unknown", finding.ref.gvk.kind);
        FailTotals(k, t, req, [failed], ExecuteFailed(DeletionFailed));
        PlusOne(k, t, failed);
        UnnamedError(k, t, finding.ref.gvk.kind);
        MovedByFailedDelete(k, t, phase, deletion, step.next);
    }
  }

  lemma MovedByDelete(k: Kind, t: Totals, phase: Phase, deletion: DeleteAnswer, next: Phase)
    requires phase.Deleting? && !deletion.DeleteFailed? && (next == Done(None) || next.Reporting?)
    ensures Moved(k, t, phase, Deleted(deletion), next) ==
      if deletion == Accepted then Plus(k, t, ActionTaken(phase.finding.ref.gvk.kind, "delete", false)) else t
  {
  }

  lemma MovedByFailedDelete(k: Kind, t: Totals, phase: Phase, deletion: DeleteAnswer, next: Phase)
    requires phase.Deleting? && deletion.DeleteFailed? && next.Done? && next.error.Some?
    ensures Moved(k, t, phase, Deleted(deletion), next) ==
      Failed(k, t.(errors := t.errors + 1, unnamed := t.unnamed + multiset{phase.finding.ref.gvk.kind}), phase.req)
  {
  }

  lemma UnnamedError(k: Kind, t: Totals, kind: string)
    ensures Plus(k, t, ErrorCount("unknown", kind)) == t.(errors := t.errors + 1, unnamed := t.unnamed + multiset{kind})
  {
    LabelsDiffer(k, k);
  }

  lemma TotalsMove(k: Kind, setup: Setup, phase: Phase, input: Input, t: Totals)
    requires Expects(phase, input)
    ensures
      var step := Advance(setup, phase, input);
      PlusAll(k, t, step.counts) == Moved(k, t, phase, input, step.next)
  {
    match phase {
      case Fetching(req) => FetchTotals(k, req, input.cached, t);
      case Classifying(req, obj) => ClassifyTotals(k, setup, req, obj, input.env, t);
      case Matching(req, obj, finding) => ListTotals(k, setup, req, obj, finding, input.listing, t);
      case Rereading(req, obj, finding, decision) => RereadTotals(k, req, obj, finding, decision, input.read, t);
      case Deleting(req, obj, finding, decision, current) =>
        DeleteTotals(k, req, obj, finding, decision, current, input.deletion, t);
      case Reporting(_, _, _, _) =>
    }
  }

  /** A classification either goes on to the policies or fails; nothing else leads there. */
  lemma NextOf(setup: Setup, phase: Phase, input: Input)
    requires Expects(phase, input)
    ensures
      var next := Advance(setup, phase, input).next;
      && !next.Fetching? && (next.Classifying? ==> phase.Fetching?) && (next.Matching? ==> phase.Classifying?)
      && (phase.Classifying? ==> next.Matching? || (next.Done? && next.error.Some?))
      && (input == PoliciesListed(ListFailed) ==> phase.Matching? && next.Done? && next.error.Some?)
  {
  }

  /** The phases that two reconciles in turn are in count as under way. */
  function Passed(k: Kind, u: UnderWay, before: Phase, after: Phase): UnderWay {
    UnderWay(
      u.classifying - One(before.Classifying?) + One(after.Classifying?),
      u.classifyingOf - One(before.Classifying? && before.req.kind == k) + One(after.Classifying? && after.req.kind == k),
      u.matching - One(before.Matching?) + One(after.Matching?))
  }

  lemma SameRequest(setup: Setup, phase: Phase, input: Input)
    requires Expects(phase, input)
    ensures
      var next := Advance(setup, phase, input).next;
      next.Done? || next.req == phase.req
  {
  }

  /** One step moves the totals and the ledger together. */
  lemma StepBalances(k: Kind, setup: Setup, phase: Phase, input: Input, ledger: Ledger, t: Totals, u: UnderWay)
    requires Expects(phase, input) && Balanced(k, ledger, t, u)
    ensures
      var step := Advance(setup, phase, input);
      Balanced(k, LedgerAfter(ledger, phase, input, step.next), PlusAll(k, t, step.counts), Passed(k, u, phase, step.next))
  {
    TotalsMove(k, setup, phase, input, t);
    NextOf(setup, phase, input);
    SameRequest(setup, phase, input);
    MovedBalances(k, phase, input, Advance(setup, phase, input).next, ledger, t, u);
  }

  lemma MovedBalances(k: Kind, phase: Phase, input: Input, next: Phase, ledger: Ledger, t: Totals, u: UnderWay)
    requires Expects(phase, input) && Balanced(k, ledger, t, u) && (next.Done? || next.req == phase.req)
    requires next.Classifying? ==> !phase.Classifying?
    requires next.Matching? ==> phase.Classifying?
    requires phase.Classifying? ==> next.Matching? || (next.Done? && next.error.Some?)
    requires input == PoliciesListed(ListFailed) ==> phase.Matching? && next.Done? && next.error.Some?
    ensures Balanced(
      k, LedgerAfter(ledger, phase, input, next), Moved(k, t, phase, input, next), Passed(k, u, phase, next))
  {
  }

  // ----- over runs -----

  ghost function ClassifyingNow(procs: map<nat, Phase>): set<nat> {
    set p | p in procs && procs[p].Classifying?
  }

  ghost function ClassifyingOf(k: Kind, procs: map<nat, Phase>): set<nat> {
    set p | p in procs && procs[p].Classifying? && procs[p].req.kind == k
  }

  ghost function MatchingNow(procs: map<nat, Phase>): set<nat> {
    set p | p in procs && procs[p].Matching?
  }

  ghost function Counted(k: Kind, procs: map<nat, Phase>): UnderWay {
    UnderWay(|ClassifyingNow(procs)|, |ClassifyingOf(k, procs)|, |MatchingNow(procs)|)
  }

  lemma OneMoved(s: set<nat>, s': set<nat>, pid: nat)
    requires s - {pid} == s' - {pid}
    ensures |s'| == |s| - One(pid in s) + One(pid in s')
  {
    assert s == (s - {pid}) + (if pid in s then {pid} else {});
    assert s' == (s - {pid}) + (if pid in s' then {pid} else {});
  }

  lemma CountedAfter(k: Kind, procs: map<nat, Phase>, pid: nat, next: Phase)
    ensures Counted(k, procs[pid := next]) ==
      Passed(k, Counted(k, procs), if pid in procs then procs[pid] else Done(None), next)
  {
    var procs' := procs[pid := next];
    assert ClassifyingNow(procs) - {pid} == ClassifyingNow(procs') - {pid};
    assert ClassifyingOf(k, procs) - {pid} == ClassifyingOf(k, procs') - {pid};
    assert MatchingNow(procs) - {pid} == MatchingNow(procs') - {pid};
    OneMoved(ClassifyingNow(procs), ClassifyingNow(procs'), pid);
    OneMoved(ClassifyingOf(k, procs), ClassifyingOf(k, procs'), pid);
    OneMoved(MatchingNow(procs), MatchingNow(procs'), pid);
  }

  ghost predicate BalancedWorld(k: Kind, w: World, t: Totals) {
    Shows(k, w.counters, t) && Balanced(k, w.ledger, t, Counted(k, w.procs))
  }

  lemma IoBalances(k: Kind, setup: Setup, w: World, pid: nat, input: Input, t: Totals) returns (t': Totals)
    requires Enabled(w, Io(pid, input)) && BalancedWorld(k, w, t)
    ensures BalancedWorld(k, AfterIo(setup, w, pid, input), t')
  {
    var phase := w.procs[pid];
    var step := Advance(setup, phase, input);
    CountedAfter(k, w.procs, pid, step.next);
    StepBalances(k, setup, phase, input, w.ledger, t, Counted(k, w.procs));
    AddAllShows(k, w.counters, t, step.counts);
    t' := PlusAll(k, t, step.counts);
  }

  lemma WorldStepBalances(k: Kind, setup: Setup, w: World, l: Label, t: Totals) returns (t': Totals)
    requires Enabled(w, l) && BalancedWorld(k, w, t)
    ensures BalancedWorld(k, Apply(setup, w, l), t')
  {
    t' := t;
    match l {
      case Begin(pid, req) => CountedAfter(k, w.procs, pid, Fetching(req));
      case Io(pid, input) => t' := IoBalances(k, setup, w, pid, input, t);
      case _ =>
    }
  }

  lemma NobodyUnderWay(k: Kind, procs: map<nat, Phase>)
    requires forall p :: p in procs ==> procs[p].Done?
    ensures Counted(k, procs) == UnderWay(0, 0, 0)
  {
    assert ClassifyingNow(procs) == {} && ClassifyingOf(k, procs) == {} && MatchingNow(procs) == {};
  }

  ghost predicate HasNone(k: Kind, ledger: Ledger) {
    && ledger.classifyFailures.Total() == ledger.listFailures.Total() == ledger.erredReconciles.Total() == 0
    && ledger.classifyFailures.Of(k) == ledger.erredReconciles.Of(k) == 0
    && ledger.failedDeletes == ledger.acceptedDeletes == multiset{}
  }

  lemma ZeroTally(k: Kind, tally: Tally)
    requires tally.IsZero()
    ensures tally.Total() == 0 && tally.Of(k) == 0
  {
  }

  lemma EmptyHasNone(k: Kind, ledger: Ledger)
    requires IsEmpty(ledger)
    ensures HasNone(k, ledger)
  {
    ZeroTally(k, ledger.classifyFailures);
    ZeroTally(k, ledger.listFailures);
    ZeroTally(k, ledger.erredReconciles);
  }

  lemma InitiallyBalanced(k: Kind, w: World)
    requires HasNone(k, w.ledger) && w.counters == ZERO && w.procs == map[]
    ensures BalancedWorld(k, w, NO_TOTALS)
  {
    NobodyUnderWay(k, w.procs);
    NothingShown(k, w.counters);
  }

  lemma NothingShown(k: Kind, c: Counters)
    requires c == ZERO
    ensures Shows(k, c, NO_TOTALS)
  {
    assert OfKind(c.classified, KindName(k)) == 0;
  }

  /** At every moment of every run, over all kinds and for each kind: each scanned object is
      classified, failed classification or is being classified; each classification is evaluated,
      failed to list policies or is about to; the errors under a controller's name are its
      reconciles that returned one; the other errors are the failed Deletes, by kind; and the live
      deletions counted for each kind are the accepted Deletes of that kind. */
  lemma {:induction false} CountersConserved(k: Kind, setup: Setup, ws: seq<World>, ls: seq<Label>, i: nat)
    returns (t: Totals)
    requires IsRun(setup, ws, ls) && i < |ws|
    ensures BalancedWorld(k, ws[i], t)
  {
    if i == 0 {
      t := NO_TOTALS;
      EmptyHasNone(k, ws[0].ledger);
      InitiallyBalanced(k, ws[0]);
    } else {
      var before := CountersConserved(k, setup, ws, ls, i - 1);
      assert StepAt(setup, ws, ls, i - 1);
      t := WorldStepBalances(k, setup, ws[i - 1], ls[i - 1], before);
    }
  }

  /** The laws, in the terms of the counters and of what became of the reconciles. */
  ghost predicate Agree(k: Kind, c: Counters, ledger: Ledger) {
    && |c.scanned| == |c.classified| + ledger.classifyFailures.Total()
    && c.scanned[KindName(k)] == OfKind(c.classified, KindName(k)) + ledger.classifyFailures.Of(k)
    && |c.classified| == |c.evaluations| + ledger.listFailures.Total()
    && c.errors[LabelOf(k)] == ledger.erredReconciles.Of(k)
    && (forall kind :: c.errors[("unknown", kind)] == ledger.failedDeletes[kind])
    && |c.errors| == ledger.erredReconciles.Total() + |ledger.failedDeletes|
    && (forall kind :: c.actions[(kind, "delete")] == ledger.acceptedDeletes[kind])
  }

  /** Whenever no reconcile is under way, the counters agree outright, for both kinds. */
  lemma CountersAgreeAtRest(setup: Setup, ws: seq<World>, ls: seq<Label>, i: nat, k: Kind)
    requires IsRun(setup, ws, ls) && i < |ws|
    requires forall p :: p in ws[i].procs ==> ws[i].procs[p].Done?
    ensures Agree(k, ws[i].counters, ws[i].ledger)
  {
    var t := CountersConserved(k, setup, ws, ls, i);
    NobodyUnderWay(k, ws[i].procs);
  }
}

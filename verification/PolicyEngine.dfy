/** The policy engine: from a finding, the object's annotations and the policies to a decision. */
module PolicyEngine {
  import opened Domain
  import opened Facts

  const ACTION_ANNOTATION := "janitor.io/action"
  const DEFAULT_DELETE_THRESHOLD := 0.9
  const DEFAULT_REPORT_THRESHOLD := 0.6

  function Evaluate(
    globalDryRun: bool, annotations: map<string, string>, finding: Finding, policies: seq<Policy>): Decision
  {
    if finding.cls == Protected || finding.cls == Unknown then
      Decision(NoAction, globalDryRun, "", finding.reconcileId)
    else if finding.cls == Blocked then
      Decision(ReportAction, globalDryRun, "", finding.reconcileId)
    else
      match Override(globalDryRun, annotations, finding)
      case Some(decision) => decision
      case None =>
        match MatchingPolicy(finding, policies)
        case Some(policy) => EvaluatePolicy(globalDryRun, finding, policy)
        case None => DefaultDecision(globalDryRun, finding)
  }

  function Override(globalDryRun: bool, annotations: map<string, string>, finding: Finding): Option<Decision> {
    match OverrideOf(annotations)
    case Some(action) => Some(Decision(action, globalDryRun, "", finding.reconcileId))
    case None => None
  }

  function OverrideOf(annotations: map<string, string>): Option<Action> {
    if ACTION_ANNOTATION in annotations then OverrideAction(annotations[ACTION_ANNOTATION]) else None
  }

  function OverrideAction(text: string): Option<Action> {
    if text == "skip" then Some(NoAction)
    else if text == "report" then Some(ReportAction)
    else if text == "delete" then Some(DeleteAction)
    else None
  }

  predicate ListsKind(policy: Policy, kind: string) {
    exists i :: 0 <= i < |policy.kinds| && policy.kinds[i].kind == kind
  }

  function MatchingPolicy(finding: Finding, policies: seq<Policy>): Option<Policy> {
    if policies == [] then None
    else if ListsKind(policies[0], finding.ref.gvk.kind) then Some(policies[0])
    else MatchingPolicy(finding, policies[1..])
  }

  function Threshold(policy: Policy): real {
    match policy.threshold
    case Some(t) => t
    case None => if policy.mode == DeleteMode then DEFAULT_DELETE_THRESHOLD else DEFAULT_REPORT_THRESHOLD
  }

  function EvaluatePolicy(globalDryRun: bool, finding: Finding, policy: Policy): Decision {
    var meets := finding.confidence >= Threshold(policy);
    var dryRun := globalDryRun || policy.mode == DryRunMode;
    match policy.mode
    case DryRunMode =>
      Decision(if meets then DeleteAction else ReportAction, true, policy.name, finding.reconcileId)
    case ReportMode =>
      Decision(if meets then ReportAction else NoAction, dryRun, policy.name, finding.reconcileId)
    case DeleteMode =>
      Decision(if meets then DeleteAction else ReportAction, dryRun, policy.name, finding.reconcileId)
    case OtherMode(_) => DefaultDecision(globalDryRun, finding)
  }

  function DefaultDecision(globalDryRun: bool, finding: Finding): Decision {
    var actionable := finding.cls in {Expired, Orphaned, Abandoned, Ephemeral};
    Decision(
      if actionable && finding.confidence >= DEFAULT_REPORT_THRESHOLD then ReportAction else NoAction,
      globalDryRun, "", finding.reconcileId)
  }

  predicate IsLiveDelete(decision: Decision) {
    decision.action == DeleteAction && !decision.dryRun
  }

  /** Listing a kind is naming it, once or more. */
  lemma ListsWhatItNames()
    ensures forall p: Policy, kind :: ListsKind(p, kind) <==> NamesKind(p, kind)
  {
    forall p: Policy, kind
      ensures ListsKind(p, kind) <==> NamesKind(p, kind)
    {
      if NamesKind(p, kind) {
        var k :| k in p.kinds && k.kind == kind;
        var i :| 0 <= i < |p.kinds| && p.kinds[i] == k;
      }
    }
  }

  lemma {:induction false} MatchingPolicyIsFirst(finding: Finding, policies: seq<Policy>)
    ensures
      var kind := finding.ref.gvk.kind;
      match MatchingPolicy(finding, policies)
      case Some(p) => exists i: nat :: FirstMatch(policies, i, kind) && policies[i] == p
      case None => forall q :: q in policies ==> !NamesKind(q, kind)
    ensures forall i: nat :: FirstMatch(policies, i, finding.ref.gvk.kind) ==>
      MatchingPolicy(finding, policies) == Some(policies[i])
  {
    var kind := finding.ref.gvk.kind;
    ListsWhatItNames();
    if policies != [] {
      MatchingPolicyIsFirst(finding, policies[1..]);
      if ListsKind(policies[0], kind) {
        assert FirstMatch(policies, 0, kind);
      } else {
        if i: nat :| FirstMatch(policies[1..], i, kind) && Some(policies[1..][i]) == MatchingPolicy(finding, policies[1..]) {
          assert FirstMatch(policies, i + 1, kind);
        }
        forall i: nat | FirstMatch(policies, i, kind)
          ensures MatchingPolicy(finding, policies) == Some(policies[i])
        {
          assert FirstMatch(policies[1..], i - 1, kind);
        }
      }
    }
  }

  // ----- what decides, case by case -----

  /** The three safe classes: nothing is done about a Protected or Unknown finding, and a Blocked one is
      reported, whatever else is said. */
  lemma SafeClasses(globalDryRun: bool, annotations: map<string, string>, finding: Finding, policies: seq<Policy>)
    ensures
      var d := Evaluate(globalDryRun, annotations, finding, policies);
      && (finding.cls in {Protected, Unknown} ==> d == Decision(NoAction, globalDryRun, "", finding.reconcileId))
      && (finding.cls == Blocked ==> d == Decision(ReportAction, globalDryRun, "", finding.reconcileId))
  {
  }

  /** The annotation, by its text: skip, report and delete decide alone, and delete is live exactly
      without the global dry run; any other text is as good as none. */
  lemma OverrideByText(globalDryRun: bool, annotations: map<string, string>, finding: Finding, policies: seq<Policy>)
    requires finding.cls !in {Protected, Unknown, Blocked}
    ensures
      var d := Evaluate(globalDryRun, annotations, finding, policies);
      && (Says(annotations, "skip") ==> d == Decision(NoAction, globalDryRun, "", finding.reconcileId))
      && (Says(annotations, "report") ==> d == Decision(ReportAction, globalDryRun, "", finding.reconcileId))
      && (Says(annotations, "delete") ==> d == Decision(DeleteAction, globalDryRun, "", finding.reconcileId))
      && (SaysNothing(annotations) ==>
            d == Evaluate(globalDryRun, annotations - {"janitor.io/action"}, finding, policies))
  {
  }

  /** The annotation says nothing, the class is not a safe one, and the first policy that names the
      kind is the i-th: its mode and its threshold, or the default of 0.9 or 0.6, decide. */
  lemma PolicyByMode(
    globalDryRun: bool, annotations: map<string, string>, finding: Finding, policies: seq<Policy>, i: nat)
    requires finding.cls !in {Protected, Unknown, Blocked} && SaysNothing(annotations)
    requires FirstMatch(policies, i, finding.ref.gvk.kind)
    ensures
      var p := policies[i];
      var d := Evaluate(globalDryRun, annotations, finding, policies);
      match p.mode
      case DeleteMode =>
        d == Decision(
          if Meets(p, finding.confidence, 0.9) then DeleteAction else ReportAction,
          globalDryRun, p.name, finding.reconcileId)
      case ReportMode =>
        d == Decision(
          if Meets(p, finding.confidence, 0.6) then ReportAction else NoAction,
          globalDryRun, p.name, finding.reconcileId)
      case DryRunMode =>
        d == Decision(
          if Meets(p, finding.confidence, 0.6) then DeleteAction else ReportAction,
          true, p.name, finding.reconcileId)
      case OtherMode(_) => d == Evaluate(globalDryRun, annotations, finding, [])
  {
    MatchingPolicyIsFirst(finding, policies);
  }

  /** Without such a policy: an actionable finding of at least 0.6 is reported, and nothing is done about
      any other. */
  lemma DefaultByClass(globalDryRun: bool, annotations: map<string, string>, finding: Finding, policies: seq<Policy>)
    requires finding.cls !in {Protected, Unknown, Blocked} && SaysNothing(annotations)
    requires forall p :: p in policies ==> !NamesKind(p, finding.ref.gvk.kind)
    ensures Evaluate(globalDryRun, annotations, finding, policies) ==
      Decision(
        if finding.cls in {Expired, Orphaned, Abandoned, Ephemeral} && finding.confidence >= 0.6
        then ReportAction else NoAction,
        globalDryRun, "", finding.reconcileId)
  {
    MatchingPolicyIsFirst(finding, policies);
  }

  // ----- when a live delete is decided -----

  /** Exactly when the engine decides a live delete: the annotation says delete, or it says nothing and
      the first policy for the kind is in Delete mode with its threshold, or 0.9, met. */
  ghost predicate Authorised(
    globalDryRun: bool, annotations: map<string, string>, finding: Finding, policies: seq<Policy>)
  {
    && !globalDryRun
    && finding.cls !in {Protected, Unknown, Blocked}
    && (|| Says(annotations, "delete")
        || (SaysNothing(annotations) && AuthorisedByPolicy(finding, policies)))
  }

  ghost predicate AuthorisedByPolicy(finding: Finding, policies: seq<Policy>) {
    exists i: nat :: FirstMatch(policies, i, finding.ref.gvk.kind)
      && policies[i].mode == DeleteMode && Meets(policies[i], finding.confidence, 0.9)
  }

  lemma LiveDeleteExactly(
    globalDryRun: bool, annotations: map<string, string>, finding: Finding, policies: seq<Policy>)
    ensures
      var d := Evaluate(globalDryRun, annotations, finding, policies);
      IsLiveDelete(d) <==> Authorised(globalDryRun, annotations, finding, policies)
    ensures
      var d := Evaluate(globalDryRun, annotations, finding, policies);
      IsLiveDelete(d) <==> d.action == DeleteAction && !d.dryRun
  {
    MatchingPolicyIsFirst(finding, policies);
  }

  /** The listed policies decide: no safe class, an annotation that says nothing, and the first policy
      for the kind is in a declared mode. */
  ghost predicate DecidesAt(annotations: map<string, string>, finding: Finding, policies: seq<Policy>, i: nat) {
    && finding.cls !in {Protected, Unknown, Blocked} && SaysNothing(annotations)
    && FirstMatch(policies, i, finding.ref.gvk.kind) && !policies[i].mode.OtherMode?
  }

  /** What it takes for a listed policy to decide, in terms of the chosen policy. */
  lemma ChosenDecides(annotations: map<string, string>, finding: Finding, policies: seq<Policy>)
    ensures
      var chosen := MatchingPolicy(finding, policies);
      && (forall i: nat :: DecidesAt(annotations, finding, policies, i) ==> chosen == Some(policies[i]))
      && ((exists i: nat :: DecidesAt(annotations, finding, policies, i)) <==>
           && finding.cls !in {Protected, Unknown, Blocked} && SaysNothing(annotations)
           && chosen.Some? && !chosen.value.mode.OtherMode?)
  {
    MatchingPolicyIsFirst(finding, policies);
    if i: nat :| FirstMatch(policies, i, finding.ref.gvk.kind) {
      assert DecidesAt(annotations, finding, policies, i) <==>
        (finding.cls !in {Protected, Unknown, Blocked} && SaysNothing(annotations) && !policies[i].mode.OtherMode?);
    }
  }

  /** A policy is named by a decision only if it decided, and a decision outside a global dry run is
      one only if a policy in DryRun mode decided. */
  lemma PolicyOfDecision(
    globalDryRun: bool, annotations: map<string, string>, finding: Finding, policies: seq<Policy>)
    ensures
      var d := Evaluate(globalDryRun, annotations, finding, policies);
      && (forall i: nat :: DecidesAt(annotations, finding, policies, i) ==> d.policyRef == policies[i].name)
      && (d.policyRef != "" ==> exists i: nat :: DecidesAt(annotations, finding, policies, i))
      && (d.dryRun <==>
          (globalDryRun || exists i: nat :: DecidesAt(annotations, finding, policies, i) && policies[i].mode == DryRunMode))
  {
    ChosenDecides(annotations, finding, policies);
  }

  ghost predicate ReportsByPolicy(finding: Finding, policy: Policy) {
    match policy.mode
    case ReportMode => Meets(policy, finding.confidence, 0.6)
    case DeleteMode => !Meets(policy, finding.confidence, 0.9)
    case DryRunMode => !Meets(policy, finding.confidence, 0.6)
    case OtherMode(_) => false
  }

  /** Exactly when a finding is only reported. */
  lemma ReportExactly(
    globalDryRun: bool, annotations: map<string, string>, finding: Finding, policies: seq<Policy>)
    ensures Evaluate(globalDryRun, annotations, finding, policies).action == ReportAction <==>
      || finding.cls == Blocked
      || (finding.cls !in {Protected, Unknown} && Says(annotations, "report"))
      || (exists i: nat :: DecidesAt(annotations, finding, policies, i) && ReportsByPolicy(finding, policies[i]))
      || (&& finding.cls in {Expired, Orphaned, Abandoned, Ephemeral} && SaysNothing(annotations)
          && finding.confidence >= 0.6
          && forall i: nat :: !DecidesAt(annotations, finding, policies, i))
  {
    ChosenDecides(annotations, finding, policies);
  }

  /** Every decision is for one of the three declared actions. */
  lemma DeclaredAction(globalDryRun: bool, annotations: map<string, string>, finding: Finding, policies: seq<Policy>)
    ensures !Evaluate(globalDryRun, annotations, finding, policies).action.OtherAction?
  {
  }

  /** A decision belongs to the reconcile of its finding. */
  lemma KeepsIdentity(globalDryRun: bool, annotations: map<string, string>, finding: Finding, policies: seq<Policy>)
    ensures Evaluate(globalDryRun, annotations, finding, policies).reconcileId == finding.reconcileId
  {
  }

  /** The global switch forces a dry run and changes nothing else about the decision. */
  lemma GlobalDryRunShadows(annotations: map<string, string>, finding: Finding, policies: seq<Policy>)
    ensures Evaluate(true, annotations, finding, policies) ==
      Evaluate(false, annotations, finding, policies).(dryRun := true)
  {
  }

  /** Deleting at a confidence below the default threshold of 0.9 takes explicit consent: the
      annotation, or a threshold that the policy itself sets low enough. */
  lemma DeletionBelowDefaultThreshold(
    globalDryRun: bool, annotations: map<string, string>, finding: Finding, policies: seq<Policy>)
    requires finding.confidence < 0.9
    ensures IsLiveDelete(Evaluate(globalDryRun, annotations, finding, policies)) <==>
      && !globalDryRun && finding.cls !in {Protected, Unknown, Blocked}
      && ConsentsToLowConfidence(annotations, finding, policies)
  {
    LiveDeleteExactly(globalDryRun, annotations, finding, policies);
  }

  ghost predicate ConsentsToLowConfidence(annotations: map<string, string>, finding: Finding, policies: seq<Policy>) {
    || Says(annotations, "delete")
    || (SaysNothing(annotations)
        && exists i: nat :: FirstMatch(policies, i, finding.ref.gvk.kind) && policies[i].mode == DeleteMode
             && policies[i].threshold.Some? && policies[i].threshold.value <= finding.confidence)
  }

  /** Being in use is no protection here: an Active finding can be decided a live delete. */
  lemma ActiveIsNotExempt(ref: ObjectRef, reasons: seq<Reason>)
    ensures
      var finding := Finding(ref, Active, 0.9, reasons, "");
      var policy := Policy("p", [ref.gvk], DeleteMode, None);
      Evaluate(false, map[], finding, [policy]) == Decision(DeleteAction, false, "p", "")
  {
    var policy := Policy("p", [ref.gvk], DeleteMode, None);
    assert policy.kinds[0].kind == ref.gvk.kind;
  }

  /** Exactly when the class of a finding outside the three safe ones matters to the decision:
      only where the built-in default decides, and only by its list of actionable classes. */
  lemma ClassMattersOnlyByDefault(
    globalDryRun: bool, annotations: map<string, string>, finding: Finding, cls: Class, policies: seq<Policy>)
    requires finding.cls !in {Protected, Unknown, Blocked} && cls !in {Protected, Unknown, Blocked}
    ensures
      var byDefault := SaysNothing(annotations)
        && forall i: nat :: FirstMatch(policies, i, finding.ref.gvk.kind) ==> policies[i].mode.OtherMode?;
      Evaluate(globalDryRun, annotations, finding, policies)
        != Evaluate(globalDryRun, annotations, finding.(cls := cls), policies)
      <==> byDefault && finding.confidence >= 0.6 && (finding.cls == Active) != (cls == Active)
  {
    MatchingReadsKind(finding, finding.(cls := cls), policies);
    MatchingPolicyIsFirst(finding, policies);
  }

  /** Of a finding, the choice of a policy reads only the kind. */
  lemma {:induction false} MatchingReadsKind(finding: Finding, other: Finding, policies: seq<Policy>)
    requires other.ref.gvk.kind == finding.ref.gvk.kind
    ensures MatchingPolicy(other, policies) == MatchingPolicy(finding, policies)
  {
    if policies != [] {
      MatchingReadsKind(finding, other, policies[1..]);
    }
  }

  // ----- order laws -----

  /** Actions by how much they do. */
  function Rank(action: Action): nat {
    match action
    case NoAction => 0
    case ReportAction => 1
    case DeleteAction => 2
    case OtherAction(_) => 3
  }

  /** More confidence never leads to a weaker action. */
  lemma MonotoneInConfidence(
    globalDryRun: bool, annotations: map<string, string>, finding: Finding, confidence: real, policies: seq<Policy>)
    requires finding.confidence <= confidence
    ensures Rank(Evaluate(globalDryRun, annotations, finding, policies).action) <=
      Rank(Evaluate(globalDryRun, annotations, finding.(confidence := confidence), policies).action)
  {
    MatchingReadsKind(finding, finding.(confidence := confidence), policies);
  }

  /** Replacing a policy by one that lists the same kinds moves no first match. */
  lemma FirstMatchOfReplaced(finding: Finding, policies: seq<Policy>, i: nat, replacement: Policy)
    requires FirstMatch(policies, i, finding.ref.gvk.kind) && replacement.kinds == policies[i].kinds
    ensures MatchingPolicy(finding, policies) == Some(policies[i])
    ensures MatchingPolicy(finding, policies[i := replacement]) == Some(replacement)
  {
    MatchingPolicyIsFirst(finding, policies);
    MatchingPolicyIsFirst(finding, policies[i := replacement]);
    assert FirstMatch(policies[i := replacement], i, finding.ref.gvk.kind);
  }

  /** A higher threshold in the policy that decides never leads to a stronger action. */
  lemma AntitoneInThreshold(
    globalDryRun: bool, annotations: map<string, string>, finding: Finding, policies: seq<Policy>, i: nat, higher: real)
    requires FirstMatch(policies, i, finding.ref.gvk.kind)
    requires policies[i].threshold.Some? && policies[i].threshold.value <= higher
    ensures
      var raised := policies[i := policies[i].(threshold := Some(higher))];
      Rank(Evaluate(globalDryRun, annotations, finding, raised).action) <=
        Rank(Evaluate(globalDryRun, annotations, finding, policies).action)
  {
    FirstMatchOfReplaced(finding, policies, i, policies[i].(threshold := Some(higher)));
  }

  /** Trying a Delete policy in DryRun mode: with a threshold of its own it picks the same action;
      without one it picks an action at least as strong, and a stronger one exactly for a
      confidence in [0.6, 0.9) that no override settles. */
  lemma DryRunModePreviewsDelete(
    globalDryRun: bool, annotations: map<string, string>, finding: Finding, policies: seq<Policy>, i: nat)
    requires FirstMatch(policies, i, finding.ref.gvk.kind) && policies[i].mode == DeleteMode
    requires finding.cls !in {Protected, Unknown, Blocked}
    ensures
      var trial := policies[i := policies[i].(mode := DryRunMode)];
      var preview := Evaluate(globalDryRun, annotations, finding, trial);
      var actual := Evaluate(globalDryRun, annotations, finding, policies);
      && Rank(actual.action) <= Rank(preview.action)
      && (actual.action != preview.action <==>
            && policies[i].threshold == None && SaysNothing(annotations) && 0.6 <= finding.confidence < 0.9)
  {
    FirstMatchOfReplaced(finding, policies, i, policies[i].(mode := DryRunMode));
  }

  // ----- the pre-filter of the reconcilers -----

  function KindFilter(policies: seq<Policy>, kind: string): seq<Policy> {
    if policies == [] then []
    else (if ListsKind(policies[0], kind) then [policies[0]] else []) + KindFilter(policies[1..], kind)
  }

  lemma {:induction false} KindFilterOfConcat(a: seq<Policy>, b: seq<Policy>, kind: string)
    ensures KindFilter(a + b, kind) == KindFilter(a, kind) + KindFilter(b, kind)
  {
    if a == [] {
      assert a + b == b;
    } else {
      assert (a + b)[0] == a[0] && (a + b)[1..] == a[1..] + b;
      KindFilterOfConcat(a[1..], b, kind);
      var first := if ListsKind(a[0], kind) then [a[0]] else [];
      assert first + (KindFilter(a[1..], kind) + KindFilter(b, kind)) ==
             (first + KindFilter(a[1..], kind)) + KindFilter(b, kind);
    }
  }

  /** The filter keeps each matching policy as often as it is listed (not once per time it names
      the kind) and drops all others; with KindFilterOfConcat, it also keeps their order. */
  lemma {:induction false} KindFilterKeepsMultiplicity(policies: seq<Policy>, kind: string, p: Policy)
    ensures multiset(KindFilter(policies, kind))[p] == if NamesKind(p, kind) then multiset(policies)[p] else 0
  {
    ListsWhatItNames();
    if policies != [] {
      assert policies == [policies[0]] + policies[1..];
      KindFilterKeepsMultiplicity(policies[1..], kind, p);
    }
  }

  lemma {:induction false} MatchingInFiltered(finding: Finding, policies: seq<Policy>)
    ensures MatchingPolicy(finding, KindFilter(policies, finding.ref.gvk.kind)) == MatchingPolicy(finding, policies)
  {
    if policies != [] {
      MatchingInFiltered(finding, policies[1..]);
      if ListsKind(policies[0], finding.ref.gvk.kind) {
        assert KindFilter(policies, finding.ref.gvk.kind)[0] == policies[0];
      } else {
        assert KindFilter(policies, finding.ref.gvk.kind) == KindFilter(policies[1..], finding.ref.gvk.kind);
      }
    }
  }

  /** Pre-filtering by the finding's kind never changes a decision. */
  lemma PrefilterPreservesEvaluate(
    globalDryRun: bool, annotations: map<string, string>, finding: Finding, policies: seq<Policy>)
    ensures Evaluate(globalDryRun, annotations, finding, KindFilter(policies, finding.ref.gvk.kind)) ==
      Evaluate(globalDryRun, annotations, finding, policies)
  {
    MatchingInFiltered(finding, policies);
  }

  /** The Namespace reconciler's copy of the filter. */
  method ListMatchingPolicies(listing: Listing<Policy>, kind: string) returns (result: Option<seq<Policy>>)
    ensures result == match listing
                      case ListFailed => None
                      case Listed(items) => Some(KindFilter(items, kind))
  {
    if listing.ListFailed? {
      return None;
    }
    var matching := [];
    for i := 0 to |listing.items|
      invariant matching == KindFilter(listing.items[..i], kind)
    {
      var p := listing.items[i];
      assert listing.items[..i + 1] == listing.items[..i] + [p];
      KindFilterOfConcat(listing.items[..i], [p], kind);
      var k := 0;
      while k < |p.kinds|
        invariant 0 <= k <= |p.kinds|
        invariant forall m :: 0 <= m < k ==> p.kinds[m].kind != kind
        invariant matching == KindFilter(listing.items[..i], kind)
      {
        if p.kinds[k].kind == kind {
          matching := matching + [p];
          break;
        }
        k := k + 1;
      }
    }
    assert listing.items[..|listing.items|] == listing.items;
    return Some(matching);
  }

  /** The shared copy, used by the ConfigMap reconciler. */
  method ListMatchingPoliciesForKind(listing: Listing<Policy>, kind: string) returns (result: Option<seq<Policy>>)
    ensures result == match listing
                      case ListFailed => None
                      case Listed(items) => Some(KindFilter(items, kind))
  {
    if listing.ListFailed? {
      return None;
    }
    var matching := [];
    for i := 0 to |listing.items|
      invariant matching + KindFilter(listing.items[i..], kind) == KindFilter(listing.items, kind)
    {
      var p := listing.items[i];
      assert listing.items[i..][1..] == listing.items[i + 1..];
      var k := 0;
      while k < |p.kinds|
        invariant 0 <= k <= |p.kinds|
        invariant forall m :: 0 <= m < k ==> p.kinds[m].kind != kind
        invariant matching + KindFilter(listing.items[i..], kind) == KindFilter(listing.items, kind)
      {
        if p.kinds[k].kind == kind {
          matching := matching + [p];
          break;
        }
        k := k + 1;
      }
    }
    assert matching + [] == matching;
    return Some(matching);
  }
}

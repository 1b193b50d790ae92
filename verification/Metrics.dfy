/** The Prometheus counters. A counter vector is the multiset of the label tuples counted so far:
    the value of one counter is a multiplicity, and the total of a vector is its cardinality. */
module Metrics {
  import opened Domain

  /** The two values of the dry_run label have a multiset each. */
  datatype Counters = Counters(
    scanned: multiset<string>,
    classified: multiset<(string, Class)>,
    actions: multiset<(string, string)>,
    dryActions: multiset<(string, string)>,
    errors: multiset<(string, string)>,
    evaluations: multiset<(string, Action)>)

  const ZERO := Counters(multiset{}, multiset{}, multiset{}, multiset{}, multiset{}, multiset{})

  datatype Count =
    | Scan(kind: string)
    | Classification(kind: string, cls: Class)
    | ActionTaken(kind: string, taken: string, dryRun: bool)
    | ErrorCount(controller: string, kind: string)
    | Evaluation(policy: string, action: Action)

  function Add(c: Counters, n: Count): Counters {
    match n
    case Scan(kind) => c.(scanned := c.scanned + multiset{kind})
    case Classification(kind, cls) => c.(classified := c.classified + multiset{(kind, cls)})
    case ActionTaken(kind, taken, dryRun) =>
      if dryRun then c.(dryActions := c.dryActions + multiset{(kind, taken)})
      else c.(actions := c.actions + multiset{(kind, taken)})
    case ErrorCount(controller, kind) => c.(errors := c.errors + multiset{(controller, kind)})
    case Evaluation(policy, action) =>
      c.(evaluations := c.evaluations + multiset{(if policy == "" then "<default>" else policy, action)})
  }

  function AddAll(c: Counters, ns: seq<Count>): Counters
    decreases ns
  {
    if ns == [] then c else AddAll(Add(c, ns[0]), ns[1..])
  }

  function AddIfAny(c: Counters, n: Option<Count>): Counters {
    match n
    case None => c
    case Some(count) => Add(c, count)
  }

  lemma AddOne(c: Counters, n: Count)
    ensures AddAll(c, [n]) == Add(c, n)
  {
    assert [n][1..] == [];
  }

  lemma {:induction false} AddAllOfConcat(c: Counters, a: seq<Count>, b: seq<Count>)
    ensures AddAll(c, a + b) == AddAll(AddAll(c, a), b)
    decreases a
  {
    if a == [] {
      assert a + b == b;
    } else {
      assert (a + b)[1..] == a[1..] + b;
      AddAllOfConcat(Add(c, a[0]), a[1..], b);
    }
  }

  class Recorder {
    var scanned: multiset<string>
    var classified: multiset<(string, Class)>
    var actions: multiset<(string, string)>
    var dryActions: multiset<(string, string)>
    var errors: multiset<(string, string)>
    var evaluations: multiset<(string, Action)>

    function Value(): Counters
      reads this
    {
      Counters(scanned, classified, actions, dryActions, errors, evaluations)
    }

    constructor ()
      ensures Value() == ZERO
    {
      scanned, classified, actions, dryActions := multiset{}, multiset{}, multiset{}, multiset{};
      errors, evaluations := multiset{}, multiset{};
    }

    method RecordScan(kind: string)
      modifies this
      ensures Value() == Add(old(Value()), Scan(kind))
    {
      scanned := scanned + multiset{kind};
    }

    method RecordClassification(kind: string, cls: Class)
      modifies this
      ensures Value() == Add(old(Value()), Classification(kind, cls))
    {
      classified := classified + multiset{(kind, cls)};
    }

    method RecordAction(kind: string, action: string, dryRun: bool)
      modifies this
      ensures Value() == Add(old(Value()), ActionTaken(kind, action, dryRun))
    {
      if dryRun {
        dryActions := dryActions + multiset{(kind, action)};
      } else {
        actions := actions + multiset{(kind, action)};
      }
    }

    /** Counts under the controller label "unknown". */
    method RecordError(kind: string)
      modifies this
      ensures Value() == Add(old(Value()), ErrorCount("unknown", kind))
    {
      errors := errors + multiset{("unknown", kind)};
    }

    method RecordReconcileError(controller: string, kind: string)
      modifies this
      ensures Value() == Add(old(Value()), ErrorCount(controller, kind))
    {
      errors := errors + multiset{(controller, kind)};
    }

    method RecordPolicyEvaluation(policyName: string, action: Action)
      modifies this
      ensures Value() == Add(old(Value()), Evaluation(policyName, action))
    {
      var policyLabel := policyName;
      if policyLabel == "" {
        policyLabel := "<default>";
      }
      evaluations := evaluations + multiset{(policyLabel, action)};
    }
  }
}

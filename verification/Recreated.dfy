/** A run that shows the limit of the pre-flight checks: the Delete carries no UID precondition, so
    an object re-created between the re-read and the Delete is deleted in place of the one that was
    classified. The controller is the production one; the run also shows that live deletions of
    objects with an elapsed TTL happen in this model. */
module Recreated {
  import opened Domain
  import opened Facts
  import opened Metrics
  import opened Classifier
  import opened Production
  import opened Pipeline
  import opened Reconcilers
  import opened OneReconcile
  import opened Cluster
  import opened Invariants

  const REQ := Request(ConfigMapKind, "team", "settings")
  const KEY := RequestKey(REQ)

  const FIRST := Obj(
    GVK("", "v1", "ConfigMap"), "team", "settings", "uid-1", 0, map["janitor.io/ttl" := "1h"], map[], [], [], false, false)

  const SECOND := FIRST.(uid := "uid-2", annotations := map[])

  const HOUR: Duration := 3_600_000_000_000

  /** Two hours later, with a parser that reads one text. */
  const ENV := Env(
    (i, gvk, namespace, name) => NotFound, namespace => Listed([]), namespace => Listed([]),
    Parsers(text => if text == "1h" then Some(HOUR) else None, text => None, text => None), 2 * HOUR)

  const POLICY := Policy("cleanup", [FIRST.gvk], DeleteMode, None)

  const GIVEN := Answers(Ok(FIRST), ENV, Listed([POLICY]), Ok(FIRST), Accepted)

  function Controller(): Setup {
    Manager({}, false)
  }

  lemma FirstIsRipe()
    ensures RipeForDeletion({}, FIRST, ENV) && AllowsDeletion([POLICY], "ConfigMap")
  {
    assert ENV.parse.duration("1h") == Some(HOUR);
    assert POLICY.kinds[0].kind == "ConfigMap";
    assert FirstMatch([POLICY], 0, "ConfigMap");
  }

  /** The phases that the reconcile of the first object goes through. */
  lemma Phases() returns (finding: Finding, decision: Decision)
    ensures OnClassified(REQ, FIRST, Classify(Controller().chain, FIRST, ENV)).next == Matching(REQ, FIRST, finding)
    ensures OnListed(Controller(), REQ, FIRST, finding, Listed([POLICY])).next == Rereading(REQ, FIRST, finding, decision)
    ensures OnReread(REQ, FIRST, finding, decision, Ok(FIRST)).next == Deleting(REQ, FIRST, finding, decision, FIRST)
    ensures finding.ref == RefOf(FIRST) && |finding.reasons| == 1 && finding.reasons[0].code == "ttl-expired"
  {
    FirstIsRipe();
    RipeIsDecided({}, REQ, FIRST, GIVEN);
    QuiescentChecks({}, false, REQ, FIRST, GIVEN);
    ChainIsStaged({}, PRODUCTION_RESOLVERS, FIRST, ENV);
    finding := DecisionFor(Controller(), REQ, FIRST, GIVEN).value.0;
    decision := DecisionFor(Controller(), REQ, FIRST, GIVEN).value.1;
  }

  /** A run that has brought reconcile 0 to a phase, if it has begun, with the first object in place. */
  ghost predicate Reaches(ws: seq<World>, ls: seq<Label>, phase: Option<Phase>) {
    && IsRun(Controller(), ws, ls)
    && ghost var w := ws[|ls|];
      && (match phase case None => 0 !in w.procs case Some(p) => 0 in w.procs && w.procs[0] == p)
      && Stored(w.server, KEY, FIRST) && Stored(w.cache, KEY, FIRST) && "uid-2" !in w.births && w.clock == 2 * HOUR
  }

  lemma Prepare() returns (ws: seq<World>, ls: seq<Label>)
    ensures Reaches(ws, ls, None)
  {
    var w := World(map[], map[], {}, map[], 2 * HOUR, map[], ZERO, [],
      Ledger(Tally(0, 0), Tally(0, 0), Tally(0, 0), multiset{}, multiset{}));
    ws, ls := [w], [];
    ws, ls := OneStep(ws, ls, Create(KEY, FIRST));
    ws, ls := OneStep(ws, ls, Sync(KEY, FIRST));
    assert FIRST.uid != "uid-2";
  }

  lemma OneStep(ws: seq<World>, ls: seq<Label>, l: Label) returns (ws': seq<World>, ls': seq<Label>)
    requires IsRun(Controller(), ws, ls) && Enabled(ws[|ls|], l)
    ensures IsRun(Controller(), ws', ls') && |ls'| == |ls| + 1
    ensures ls'[|ls|] == l && ws'[|ls|] == ws[|ls|]
    ensures ws'[|ls'|] == Apply(Controller(), ws[|ls|], l)
  {
    ExtendedIsRun(Controller(), ws, ls, l);
    ws', ls' := ws + [Apply(Controller(), ws[|ls|], l)], ls + [l];
  }

  /** One more answer to reconcile 0. */
  lemma OneAnswer(ws: seq<World>, ls: seq<Label>, phase: Phase, input: Input, next: Phase)
    returns (ws': seq<World>, ls': seq<Label>)
    requires Reaches(ws, ls, Some(phase)) && !phase.Deleting?
    requires Expects(phase, input) && Possible(ws[|ls|], phase, input)
    requires next == Advance(Controller(), phase, input).next
    ensures Reaches(ws', ls', Some(next))
  {
    ws', ls' := OneStep(ws, ls, Io(0, input));
  }

  lemma UpToClassify() returns (ws: seq<World>, ls: seq<Label>)
    ensures Reaches(ws, ls, Some(Classifying(REQ, FIRST)))
  {
    ws, ls := Prepare();
    ws, ls := OneStep(ws, ls, Begin(0, REQ));
    assert Reaches(ws, ls, Some(Fetching(REQ)));
    ws, ls := OneAnswer(ws, ls, Fetching(REQ), Fetched(Ok(FIRST)), Classifying(REQ, FIRST));
  }

  lemma UpToDelete() returns (ws: seq<World>, ls: seq<Label>, finding: Finding, decision: Decision)
    ensures Reaches(ws, ls, Some(Deleting(REQ, FIRST, finding, decision, FIRST)))
    ensures |finding.reasons| == 1 && finding.reasons[0].code == "ttl-expired"
  {
    finding, decision := Phases();
    ws, ls := UpToClassify();
    ws, ls := OneAnswer(ws, ls, Classifying(REQ, FIRST), Classified(ENV), Matching(REQ, FIRST, finding));
    ws, ls := OneAnswer(ws, ls, Matching(REQ, FIRST, finding), PoliciesListed(Listed([POLICY])),
      Rereading(REQ, FIRST, finding, decision));
    ws, ls := OneAnswer(ws, ls, Rereading(REQ, FIRST, finding, decision), Reread(Ok(FIRST)),
      Deleting(REQ, FIRST, finding, decision, FIRST));
  }

  /** A full run of the production controller in which the Delete of a reconcile that classified and
      re-read one object is accepted for another: one with a different UID, without a TTL, that no
      reconcile ever read. */
  lemma DeleteCanHitAnotherObject() returns (ws: seq<World>, ls: seq<Label>, j: nat)
    ensures IsRun(Manager({}, false), ws, ls) && j < |ls| && ls[j] == Io(0, Deleted(Accepted))
    ensures 0 in ws[j].procs && ws[j].procs[0].Deleting?
    ensures
      var phase := ws[j].procs[0];
      && |phase.finding.reasons| == 1 && phase.finding.reasons[0].code == "ttl-expired"
      && KEY in ws[j].server && ws[j].server[KEY].uid != phase.current.uid
      && "janitor.io/ttl" !in ws[j].server[KEY].annotations
      && KEY in ws[j + 1].server && ws[j + 1].server[KEY] == SECOND.(deleting := true)
  {
    var finding, decision;
    ws, ls, finding, decision := UpToDelete();
    ws, ls := OneStep(ws, ls, Remove(KEY));
    ws, ls := OneStep(ws, ls, Create(KEY, SECOND));
    j := |ls|;
    ws, ls := OneStep(ws, ls, Io(0, Deleted(Accepted)));
    assert "uid-1" != "uid-2";
  }
}

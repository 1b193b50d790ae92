/** The invariant of the cluster, and how a reconcile got into the phase it is in. */
module Invariants {
  import opened Domain
  import opened Classifier
  import opened PolicyEngine
  import opened Executor
  import opened Pipeline
  import opened Cluster

  lemma CarriesStays(w: World, w': World, phase: Phase)
    requires Carries(w, phase) && w.past <= w'.past
    ensures Carries(w', phase)
  {
  }

  // ----- one reconcile, phase by phase -----

  lemma FetchedCarries(w: World, req: Request, cached: Answer<Obj>)
    requires Inv(w) && Fits(w.cache, RequestKey(req), cached)
    ensures Carries(w, OnFetched(req, cached).next)
  {
  }

  lemma ClassifiedCarries(setup: Setup, w: World, req: Request, obj: Obj, env: Env)
    requires Carries(w, Classifying(req, obj))
    ensures Carries(w, OnClassified(req, obj, Classify(setup.chain, obj, env)).next)
  {
    ClassifyRefersTo(setup.chain, obj, env);
  }

  lemma DecidedCarries(setup: Setup, w: World, req: Request, obj: Obj, finding: Finding, decision: Decision)
    requires Carries(w, Matching(req, obj, finding))
    ensures Carries(w, OnDecided(setup, req, obj, finding, decision).next)
  {
  }

  lemma RereadCarries(w: World, req: Request, obj: Obj, finding: Finding, decision: Decision, read: Answer<Obj>)
    requires Inv(w) && Carries(w, Rereading(req, obj, finding, decision))
    requires Fits(w.server, KeyOf(req.kind, finding.ref), read)
    ensures Carries(w, OnReread(req, obj, finding, decision, read).next)
  {
    assert Accounted(w.births, Version(RequestKey(req), obj));
  }

  lemma DeletedCarries(
    w: World, req: Request, obj: Obj, finding: Finding, decision: Decision, current: Obj, deletion: DeleteAnswer)
    requires Carries(w, Deleting(req, obj, finding, decision, current))
    ensures Carries(w, OnDeleted(req, obj, finding, decision, deletion).next)
  {
  }

  lemma AdvanceCarries(setup: Setup, w: World, phase: Phase, input: Input)
    requires Inv(w) && Carries(w, phase) && Expects(phase, input) && Possible(w, phase, input)
    ensures Carries(w, Advance(setup, phase, input).next)
  {
    match phase {
      case Fetching(req) => FetchedCarries(w, req, input.cached);
      case Classifying(req, obj) => ClassifiedCarries(setup, w, req, obj, input.env);
      case Matching(req, obj, finding) =>
        if input.listing.Listed? {
          var filtered := KindFilter(input.listing.items, KindName(req.kind));
          DecidedCarries(setup, w, req, obj, finding, Evaluate(setup.globalDryRun, obj.annotations, finding, filtered));
        }
      case Rereading(req, obj, finding, decision) => RereadCarries(w, req, obj, finding, decision, input.read);
      case Deleting(req, obj, finding, decision, current) =>
        DeletedCarries(w, req, obj, finding, decision, current, input.deletion);
      case Reporting(_, _, _, _) =>
    }
  }

  /** A reconcile only ever deletes at the key it was asked about. */
  lemma DeletesOwnKey(w: World, phase: Phase)
    requires Inv(w) && Carries(w, phase) && phase.Deleting?
    ensures DeleteKey(phase.req, phase.current) == RequestKey(phase.req)
  {
    assert Accounted(w.births, Version(RequestKey(phase.req), phase.current));
  }

  // ----- the whole cluster, step by step -----

  ghost predicate StoredAccounted(w: World) {
    && (forall v :: v in w.past ==> Accounted(w.births, v))
    && (forall k :: k in w.server ==> Version(k, w.server[k]) in w.past)
    && (forall k :: k in w.cache ==> Version(k, w.cache[k]) in w.past)
  }

  lemma ProcsStay(w: World, w': World)
    requires Inv(w) && w.past <= w'.past && w'.procs == w.procs
    ensures forall p :: p in w'.procs ==> Carries(w', w'.procs[p])
  {
    forall p | p in w'.procs ensures Carries(w', w'.procs[p]) {
      CarriesStays(w, w', w.procs[p]);
    }
  }

  lemma IoKeepsStored(setup: Setup, w: World, pid: nat, input: Input)
    requires Inv(w) && Enabled(w, Io(pid, input))
    ensures StoredAccounted(AfterIo(setup, w, pid, input))
  {
    var phase := w.procs[pid];
    if phase.Deleting? {
      DeleteKeepsStored(w, DeleteKey(phase.req, phase.current), input.deletion);
    }
  }

  /** The version that a Delete stores is the old one with its mark. */
  lemma DeleteKeepsStored(w: World, key: Key, deletion: DeleteAnswer)
    requires StoredAccounted(w) && (Applied(deletion) ==> key in w.server)
    ensures
      var server := AfterDelete(w.server, key, deletion);
      key in server ==> Accounted(w.births, Version(key, server[key]))
  {
    if key in w.server {
      assert Accounted(w.births, Version(key, w.server[key]));
    }
  }

  lemma IoKeepsInv(setup: Setup, w: World, pid: nat, input: Input)
    requires Inv(w) && Enabled(w, Io(pid, input))
    ensures Inv(AfterIo(setup, w, pid, input))
  {
    var next := Advance(setup, w.procs[pid], input).next;
    var w' := AfterIo(setup, w, pid, input);
    IoKeepsStored(setup, w, pid, input);
    AdvanceCarries(setup, w, w.procs[pid], input);
    assert w.past <= w'.past && w'.procs == w.procs[pid := next];
    forall p | p in w'.procs ensures Carries(w', w'.procs[p]) {
      CarriesStays(w, w', if p == pid then next else w.procs[p]);
    }
  }

  lemma CreateKeepsInv(setup: Setup, w: World, key: Key, obj: Obj)
    requires Inv(w) && Enabled(w, Create(key, obj))
    ensures Inv(Apply(setup, w, Create(key, obj)))
  {
    var w' := Apply(setup, w, Create(key, obj));
    forall v | v in w'.past ensures Accounted(w'.births, v) {
      assert v == Version(key, obj) || Accounted(w.births, v);
    }
    ProcsStay(w, w');
  }

  lemma UpdateKeepsInv(setup: Setup, w: World, key: Key, obj: Obj)
    requires Inv(w) && Enabled(w, Update(key, obj))
    ensures Inv(Apply(setup, w, Update(key, obj)))
  {
    assert Accounted(w.births, Version(key, w.server[key]));
    ProcsStay(w, Apply(setup, w, Update(key, obj)));
  }

  lemma BeginKeepsInv(setup: Setup, w: World, pid: nat, req: Request)
    requires Inv(w) && Enabled(w, Begin(pid, req))
    ensures Inv(Apply(setup, w, Begin(pid, req)))
  {
    var w' := Apply(setup, w, Begin(pid, req));
    forall p | p in w'.procs ensures Carries(w', w'.procs[p]) {
      if p != pid {
        CarriesStays(w, w', w.procs[p]);
      }
    }
  }

  lemma StepKeepsInv(setup: Setup, w: World, l: Label)
    requires Inv(w) && Enabled(w, l)
    ensures Inv(Apply(setup, w, l))
  {
    match l {
      case Io(pid, input) => IoKeepsInv(setup, w, pid, input);
      case Create(key, obj) => CreateKeepsInv(setup, w, key, obj);
      case Update(key, obj) => UpdateKeepsInv(setup, w, key, obj);
      case Begin(pid, req) => BeginKeepsInv(setup, w, pid, req);
      case _ => OutsideKeepsInv(setup, w, l);
    }
  }

  lemma OutsideKeepsInv(setup: Setup, w: World, l: Label)
    requires Inv(w) && Enabled(w, l) && (l.Remove? || l.Sync? || l.Evict? || l.Tick?)
    ensures Inv(Apply(setup, w, l))
  {
    ProcsStay(w, Apply(setup, w, l));
  }

  lemma {:induction false} RunKeepsInv(setup: Setup, ws: seq<World>, ls: seq<Label>, i: nat)
    requires IsRun(setup, ws, ls) && i < |ws|
    ensures Inv(ws[i])
  {
    if i > 0 {
      RunKeepsInv(setup, ws, ls, i - 1);
      assert StepAt(setup, ws, ls, i - 1);
      StepKeepsInv(setup, ws[i - 1], ls[i - 1]);
    }
  }

  // ----- shorter and longer runs -----

  lemma PrefixIsRun(setup: Setup, ws: seq<World>, ls: seq<Label>, n: nat)
    requires IsRun(setup, ws, ls) && n <= |ls|
    ensures IsRun(setup, ws[..n + 1], ls[..n])
  {
    var (start, done) := (ws[..n + 1], ls[..n]);
    forall i: nat | i < n
      ensures StepAt(setup, start, done, i)
    {
      assert StepAt(setup, ws, ls, i);
    }
  }

  lemma ExtendedIsRun(setup: Setup, ws: seq<World>, ls: seq<Label>, l: Label)
    requires IsRun(setup, ws, ls) && Enabled(ws[|ls|], l)
    ensures IsRun(setup, ws + [Apply(setup, ws[|ls|], l)], ls + [l])
  {
    var ws' := ws + [Apply(setup, ws[|ls|], l)];
    forall i: nat | i < |ls| + 1
      ensures StepAt(setup, ws', ls + [l], i)
    {
      if i < |ls| {
        assert StepAt(setup, ws, ls, i);
      }
    }
  }

  // ----- looking back -----

  /** From index i + 1 to index j the reconcile stays in one phase. */
  ghost predicate Waits(ws: seq<World>, pid: nat, phase: Phase, i: nat, j: nat)
    requires j < |ws|
  {
    forall k :: i < k <= j ==> pid in ws[k].procs && ws[k].procs[pid] == phase
  }

  ghost predicate Untouched(ls: seq<Label>, pid: nat, i: nat, j: nat)
    requires j <= |ls|
  {
    forall k :: i < k < j ==> !IsStepOf(ls[k], pid)
  }

  lemma OthersWait(setup: Setup, w: World, l: Label, pid: nat)
    requires Enabled(w, l) && !IsStepOf(l, pid) && pid in Apply(setup, w, l).procs
    ensures pid in w.procs && Apply(setup, w, l).procs[pid] == w.procs[pid]
  {
  }

  /** The step by which a reconcile entered the phase it is in. */
  lemma {:induction false} EnteredAt(setup: Setup, ws: seq<World>, ls: seq<Label>, pid: nat, j: nat) returns (i: nat)
    requires IsRun(setup, ws, ls) && j < |ws| && pid in ws[j].procs
    ensures i < j && IsStepOf(ls[i], pid)
    ensures Waits(ws, pid, ws[j].procs[pid], i, j) && Untouched(ls, pid, i, j)
  {
    assert j > 0;
    if IsStepOf(ls[j - 1], pid) {
      i := j - 1;
    } else {
      assert StepAt(setup, ws, ls, j - 1);
      OthersWait(setup, ws[j - 1], ls[j - 1], pid);
      i := EnteredAt(setup, ws, ls, pid, j - 1);
    }
  }

  /** Which phase and answer lead into each phase that matters. */
  lemma OnlyWayInto(setup: Setup, phase: Phase, input: Input)
    requires Expects(phase, input)
    ensures
      var next := Advance(setup, phase, input).next;
      match next
      case Fetching(_) => false
      case Classifying(req, obj) => phase == Fetching(req) && input == Fetched(Ok(obj))
      case Matching(req, obj, finding) =>
        && phase == Classifying(req, obj)
        && Classify(setup.chain, obj, input.env).Good?
        && finding == Named(req, Classify(setup.chain, obj, input.env).value)
      case Rereading(req, obj, finding, decision) =>
        && phase == Matching(req, obj, finding) && input.listing.Listed?
        && decision == Evaluate(
             setup.globalDryRun, obj.annotations, finding, KindFilter(input.listing.items, KindName(req.kind)))
        && StartOf(setup.protectedNamespaces, finding, decision) == MustReread
      case Deleting(req, obj, finding, decision, current) =>
        && phase == Rereading(req, obj, finding, decision) && input == Reread(Ok(current))
        && CheckOf(finding.ref, Ok(current)) == Cleared(current)
      case Reporting(req, obj, finding, decision) =>
        IsLiveDelete(decision) ==>
          || (phase == Rereading(req, obj, finding, decision) && input == Reread(NotFound))
          || (phase.Deleting? && phase.finding == finding && phase.req == req
              && input in {Deleted(Accepted), Deleted(AlreadyGone)})
      case Done(_) => true
  {
  }
}

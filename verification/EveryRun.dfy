/** The whole-reconcile theorems for every run: any number of other reconciles, users and caches step
    in between. The answers a reconcile was given always fit into one record (Interleaved.AnswersGiven),
    so each theorem is about an arbitrary finished reconcile and that record. */
module EveryRun {
  import opened Domain
  import opened Facts
  import opened Metrics
  import opened Reporter
  import opened Classifier
  import opened PolicyEngine
  import opened Executor
  import opened Pipeline
  import opened Reconcilers
  import opened OneReconcile
  import opened Production
  import opened ByState
  import opened Cluster
  import opened Invariants
  import opened Interleaved
  import opened Safety

  /** From b to j a reconcile of this request begins and ends, with the answers in `a`. */
  ghost predicate Whole(setup: Setup, ws: seq<World>, ls: seq<Label>, pid: nat, req: Request, a: Answers, b: nat, j: nat) {
    && IsRun(setup, ws, ls) && Underway(ls, pid, req, b, j) && Agrees(ws, ls, pid, a, b + 1, j)
    && pid in ws[j].procs && ws[j].procs[pid].Done?
  }

  /** Its Delete requests, its events and its error are those of the sequential reconcile. */
  lemma WholeIsComplete(
    setup: Setup, ws: seq<World>, ls: seq<Label>, pid: nat, req: Request, a: Answers, view: View, b: nat, j: nat)
    requires Whole(setup, ws, ls, pid, req, a, b, j)
    ensures
      var (after, error) := Complete(setup, Fetching(req), a, view);
      && Sent(view.deletes, ws, ls, pid, b + 1, j) == after.deletes
      && Emitted(view.events, ws, ls, pid, b + 1, j) == after.events
      && ws[j].procs[pid].error == error
  {
    var own := InterleavedIsComplete(setup, ws, ls, pid, req, a, view, b, j);
  }

  /** Every finished reconcile of every run has such a record; an answer it never asked for can be
      chosen freely. */
  lemma EveryReconcileIsWhole(
    setup: Setup, ws: seq<World>, ls: seq<Label>, pid: nat, req: Request, unasked: Answers, b: nat, j: nat)
    returns (a: Answers)
    requires IsRun(setup, ws, ls) && Underway(ls, pid, req, b, j) && pid in ws[j].procs && ws[j].procs[pid].Done?
    ensures Whole(setup, ws, ls, pid, req, a, b, j) && Heard(ls, pid, unasked, a, b + 1, j)
  {
    BeginsFetching(setup, ws, ls, pid, req, b, j);
    a := AnswersGiven(setup, ws, ls, pid, unasked, b + 1, j);
  }

  const NOTHING_SEEN := View(ZERO, map[], [], [])

  /** If the object read from the cache is still the one on the server at the re-read: a safety check
      refuses exactly a live delete of an object with ownerReferences, and exactly one Delete, for
      that object, is sent for a live delete of one without; otherwise none is. */
  lemma QuiescentInEveryRun(
    protectedNamespaces: set<string>, globalDryRun: bool, ws: seq<World>, ls: seq<Label>,
    pid: nat, req: Request, obj: Obj, a: Answers, b: nat, j: nat)
    requires Whole(Manager(protectedNamespaces, globalDryRun), ws, ls, pid, req, a, b, j)
    requires a.cached == Ok(obj) && a.read == Ok(obj)
    ensures
      var live := DecidesLiveDelete(Manager(protectedNamespaces, globalDryRun), req, obj, a);
      && Sent([], ws, ls, pid, b + 1, j) == (if live && obj.owners == [] then [KeyOf(req.kind, RefOf(obj))] else [])
      && (forall why :: ws[j].procs[pid].error == Some(ExecuteFailed(Refused(why))) <==>
            why == HasOwners && live && obj.owners != [])
  {
    WholeIsComplete(Manager(protectedNamespaces, globalDryRun), ws, ls, pid, req, a, NOTHING_SEEN, b, j);
    QuiescentReconcileExact(protectedNamespaces, globalDryRun, req, obj, a, NOTHING_SEEN);
  }

  /** A reconcile that classified an object as Orphaned sends no Delete while it is unchanged. */
  lemma OrphanedInEveryRun(
    protectedNamespaces: set<string>, globalDryRun: bool, ws: seq<World>, ls: seq<Label>,
    pid: nat, req: Request, obj: Obj, a: Answers, b: nat, j: nat)
    requires Whole(Manager(protectedNamespaces, globalDryRun), ws, ls, pid, req, a, b, j)
    requires a.cached == Ok(obj) && a.read == Ok(obj)
    requires
      var result := Classify(Manager(protectedNamespaces, globalDryRun).chain, obj, a.env);
      result.Good? && result.value.cls == Orphaned
    ensures Sent([], ws, ls, pid, b + 1, j) == []
  {
    WholeIsComplete(Manager(protectedNamespaces, globalDryRun), ws, ls, pid, req, a, NOTHING_SEEN, b, j);
    OrphanedIsNeverDeleted(protectedNamespaces, globalDryRun, req, obj, a, NOTHING_SEEN);
  }

  /** An Active object is deleted exactly if it has no ownerReferences and a live delete is authorised. */
  lemma ActiveInEveryRun(
    protectedNamespaces: set<string>, globalDryRun: bool, ws: seq<World>, ls: seq<Label>,
    pid: nat, req: Request, obj: Obj, a: Answers, b: nat, j: nat)
    requires Whole(Manager(protectedNamespaces, globalDryRun), ws, ls, pid, req, a, b, j)
    requires a.cached == Ok(obj) && a.read == Ok(obj)
    requires DecisionFor(Manager(protectedNamespaces, globalDryRun), req, obj, a).Some?
    requires DecisionFor(Manager(protectedNamespaces, globalDryRun), req, obj, a).value.0.cls == Active
    ensures
      var finding := DecisionFor(Manager(protectedNamespaces, globalDryRun), req, obj, a).value.0;
      var listed := KindFilter(a.policies.items, KindName(req.kind));
      Sent([], ws, ls, pid, b + 1, j) ==
        if obj.owners == [] && Authorised(globalDryRun, obj.annotations, finding, listed)
        then [KeyOf(req.kind, RefOf(obj))] else []
  {
    WholeIsComplete(Manager(protectedNamespaces, globalDryRun), ws, ls, pid, req, a, NOTHING_SEEN, b, j);
    ActiveDeletedExactly(protectedNamespaces, globalDryRun, req, obj, a, NOTHING_SEEN);
  }

  /** Progress: a ripe object that is still there at the re-read gets exactly one Delete from the
      reconcile; once that is accepted, it emits exactly the Deleted event and returns no error. */
  lemma RipeInEveryRun(
    protectedNamespaces: set<string>, ws: seq<World>, ls: seq<Label>,
    pid: nat, req: Request, obj: Obj, a: Answers, b: nat, j: nat)
    requires Whole(Manager(protectedNamespaces, false), ws, ls, pid, req, a, b, j)
    requires RipeForDeletion(protectedNamespaces, obj, a.env)
    requires obj.gvk.kind == KindName(req.kind) && !(req.kind == NamespaceKind && obj.terminating)
    requires a.policies.Listed? && AllowsDeletion(a.policies.items, KindName(req.kind))
    requires KeyOf(req.kind, RefOf(obj)) == RequestKey(req)
    requires a.cached == Ok(obj) && a.read == Ok(obj) && a.deletion == Accepted
    ensures Sent([], ws, ls, pid, b + 1, j) == [RequestKey(req)]
    ensures Emitted([], ws, ls, pid, b + 1, j) == [Event(RefOf(obj), ReasonDeleted)]
    ensures ws[j].procs[pid].error == None
  {
    var seen := NOTHING_SEEN.(objects := map[RequestKey(req) := obj]);
    WholeIsComplete(Manager(protectedNamespaces, false), ws, ls, pid, req, a, seen, b, j);
    RipeObjectIsDeletedOnce(protectedNamespaces, req, obj, a, seen);
    RipeDeletionShows(protectedNamespaces, req, obj, a, seen);
  }

  /** Idempotence: a later reconcile that still reads the object from the cache but not from the server
      sends no Delete and returns no error. */
  lemma ReplayInEveryRun(
    protectedNamespaces: set<string>, globalDryRun: bool, ws: seq<World>, ls: seq<Label>,
    pid: nat, req: Request, obj: Obj, env: Env, a: Answers, b: nat, j: nat)
    requires Whole(Manager(protectedNamespaces, globalDryRun), ws, ls, pid, req, a, b, j)
    requires RipeForDeletion(protectedNamespaces, obj, env)
    requires a.env.parse == env.parse && env.now <= a.env.now
    requires a.cached == Ok(obj) && a.read == NotFound && a.policies.Listed?
    ensures Sent([], ws, ls, pid, b + 1, j) == []
    ensures ws[j].procs[pid].error == None
  {
    WholeIsComplete(Manager(protectedNamespaces, globalDryRun), ws, ls, pid, req, a, NOTHING_SEEN, b, j);
    ReplayAfterRemoval(protectedNamespaces, globalDryRun, req, obj, env, a, NOTHING_SEEN);
  }

  // ----- from the state of the object -----

  /** In every run, for an object that is still there at the re-read: a Delete is sent exactly if it has a
      class, is condemned and has no ownerReferences. */
  lemma DeletedInEveryRun(
    protectedNamespaces: set<string>, globalDryRun: bool, ws: seq<World>, ls: seq<Label>,
    pid: nat, req: Request, obj: Obj, a: Answers, b: nat, j: nat)
    requires Whole(Manager(protectedNamespaces, globalDryRun), ws, ls, pid, req, a, b, j)
    requires Proceeds(req, obj, a) && obj.gvk.kind == KindName(req.kind) && a.read == Ok(obj)
    ensures
      var sent :=
        match ClassByState(protectedNamespaces, obj, a.env)
        case None => false
        case Some(cls) => obj.owners == [] && Condemned(globalDryRun, obj, cls, a.policies.items);
      Sent([], ws, ls, pid, b + 1, j) == if sent then [Key(req.kind, obj.namespace, obj.name)] else []
  {
    WholeIsComplete(Manager(protectedNamespaces, globalDryRun), ws, ls, pid, req, a, NOTHING_SEEN, b, j);
    DeletedByState(protectedNamespaces, globalDryRun, req, obj, a, NOTHING_SEEN);
  }

  /** In every run of every controller: an object that says skip or report is sent no Delete. */
  lemma SparedInEveryRun(
    setup: Setup, ws: seq<World>, ls: seq<Label>, pid: nat, req: Request, obj: Obj, a: Answers, b: nat, j: nat)
    requires Whole(setup, ws, ls, pid, req, a, b, j)
    requires a.cached == Ok(obj) && (Says(obj.annotations, "skip") || Says(obj.annotations, "report"))
    ensures Sent([], ws, ls, pid, b + 1, j) == []
  {
    WholeIsComplete(setup, ws, ls, pid, req, a, NOTHING_SEEN, b, j);
    SparedByAnnotation(setup, req, obj, a, NOTHING_SEEN);
  }

  /** In every run: what a reconcile announces is nothing if it returns an error, and otherwise the event
      that the state of the object calls for. */
  lemma EventsInEveryRun(
    protectedNamespaces: set<string>, globalDryRun: bool, ws: seq<World>, ls: seq<Label>,
    pid: nat, req: Request, obj: Obj, a: Answers, b: nat, j: nat)
    requires Whole(Manager(protectedNamespaces, globalDryRun), ws, ls, pid, req, a, b, j) && Proceeds(req, obj, a)
    ensures ws[j].procs[pid].error.Some? ==> Emitted([], ws, ls, pid, b + 1, j) == []
    ensures ws[j].procs[pid].error.None? ==>
      var decided := DecisionFor(Manager(protectedNamespaces, globalDryRun), req, obj, a);
      decided.Some? && AnnouncedByState(
        protectedNamespaces, obj, a.env, decided.value.1, Emitted([], ws, ls, pid, b + 1, j))
  {
    WholeIsComplete(Manager(protectedNamespaces, globalDryRun), ws, ls, pid, req, a, NOTHING_SEEN, b, j);
    var events := EventByState(protectedNamespaces, globalDryRun, req, obj, a, NOTHING_SEEN);
    assert [] + events == events;
  }

  // ----- without any assumption on the answers -----

  /** In every run, no reconcile sends more than one Delete, and that is for its own key. */
  lemma OneDeleteAtMost(
    setup: Setup, ws: seq<World>, ls: seq<Label>, pid: nat, req: Request, b: nat, j: nat)
    requires IsRun(setup, ws, ls) && Underway(ls, pid, req, b, j)
    ensures Sent([], ws, ls, pid, b + 1, j) == [] || Sent([], ws, ls, pid, b + 1, j) == [RequestKey(req)]
  {
    BeginsFetching(setup, ws, ls, pid, req, b, j);
    OneDeleteFrom(setup, ws, ls, pid, req, [], b + 1, j);
    assert [] + [RequestKey(req)] == [RequestKey(req)];
  }

  lemma {:induction false} OneDeleteFrom(
    setup: Setup, ws: seq<World>, ls: seq<Label>, pid: nat, req: Request, before: seq<Key>, i: nat, j: nat)
    requires IsRun(setup, ws, ls) && i <= j <= |ls| && NoneBegins(ls, pid, i, j)
    requires pid in ws[i].procs && (ws[i].procs[pid].Done? || ws[i].procs[pid].req == req)
    ensures Sent(before, ws, ls, pid, i, j) == before
      || (Sent(before, ws, ls, pid, i, j) == before + [RequestKey(req)] && StepsLeft(ws[i].procs[pid]) >= 2)
    decreases j - i
  {
    if i < j {
      var sent := OneStepSends(setup, ws, ls, pid, req, i);
      OneDeleteFrom(setup, ws, ls, pid, req, before + sent, i + 1, j);
      assert before + [] == before;
    }
  }

  lemma OneStepSends(setup: Setup, ws: seq<World>, ls: seq<Label>, pid: nat, req: Request, i: nat)
    returns (sent: seq<Key>)
    requires IsRun(setup, ws, ls) && i < |ls| && !(ls[i].Begin? && ls[i].pid == pid)
    requires pid in ws[i].procs && (ws[i].procs[pid].Done? || ws[i].procs[pid].req == req)
    ensures sent == SentAt(ws[i], ls[i], pid)
    ensures pid in ws[i + 1].procs && (ws[i + 1].procs[pid].Done? || ws[i + 1].procs[pid].req == req)
    ensures StepsLeft(ws[i + 1].procs[pid]) <= StepsLeft(ws[i].procs[pid])
    ensures sent == [] || (sent == [RequestKey(req)]
      && StepsLeft(ws[i].procs[pid]) == 2 && StepsLeft(ws[i + 1].procs[pid]) < 2)
  {
    sent := SentAt(ws[i], ls[i], pid);
    assert StepAt(setup, ws, ls, i);
    if IsIoOf(ls[i], pid) {
      RunKeepsInv(setup, ws, ls, i);
      sent := OneAnswerSends(setup, ws[i], pid, ls[i].input, req);
    } else {
      OthersWait(setup, ws[i], ls[i], pid);
    }
  }

  lemma OneAnswerSends(setup: Setup, w: World, pid: nat, input: Input, req: Request) returns (sent: seq<Key>)
    requires Inv(w) && Enabled(w, Io(pid, input)) && w.procs[pid].req == req
    ensures sent == SentAt(w, Io(pid, input), pid)
    ensures
      var next := Advance(setup, w.procs[pid], input).next;
      && (next.Done? || next.req == req) && StepsLeft(next) < StepsLeft(w.procs[pid])
      && (sent == [] || (sent == [RequestKey(req)] && StepsLeft(w.procs[pid]) == 2))
  {
    sent := SentAt(w, Io(pid, input), pid);
    NextPhase(setup, w.procs[pid], input);
    StepsDecrease(setup, w.procs[pid], input);
    if w.procs[pid].Deleting? {
      DeletesOwnKey(w, w.procs[pid]);
    }
  }

  /** In every run of every controller, whatever its chain, its policies and the answers: nothing is
      deleted in a protected namespace, and no protected namespace itself. */
  lemma NothingProtectedIsDeleted(
    setup: Setup, ws: seq<World>, ls: seq<Label>, pid: nat, req: Request, b: nat, j: nat)
    requires IsRun(setup, ws, ls) && Underway(ls, pid, req, b, j)
    requires req.namespace in setup.protectedNamespaces
      || (req.namespace == "" && req.name in setup.protectedNamespaces)
    ensures Sent([], ws, ls, pid, b + 1, j) == []
  {
    BeginsFetching(setup, ws, ls, pid, req, b, j);
    NothingSentFrom(setup, ws, ls, pid, req, [], b + 1, j);
  }

  lemma {:induction false} NothingSentFrom(
    setup: Setup, ws: seq<World>, ls: seq<Label>, pid: nat, req: Request, before: seq<Key>, i: nat, j: nat)
    requires IsRun(setup, ws, ls) && i <= j <= |ls| && NoneBegins(ls, pid, i, j)
    requires pid in ws[i].procs && (ws[i].procs[pid].Done? || ws[i].procs[pid].req == req)
    requires OnList(setup.protectedNamespaces, req.namespace, req.name)
    ensures Sent(before, ws, ls, pid, i, j) == before
    decreases j - i
  {
    if i < j {
      var sent := OneStepSends(setup, ws, ls, pid, req, i);
      NoneSentAt(setup, ws, ls, pid, req, i);
      assert before + [] == before;
      NothingSentFrom(setup, ws, ls, pid, req, before, i + 1, j);
    }
  }

  lemma NoneSentAt(setup: Setup, ws: seq<World>, ls: seq<Label>, pid: nat, req: Request, i: nat)
    requires IsRun(setup, ws, ls) && i < |ls|
    requires pid in ws[i].procs && (ws[i].procs[pid].Done? || ws[i].procs[pid].req == req)
    requires OnList(setup.protectedNamespaces, req.namespace, req.name)
    ensures SentAt(ws[i], ls[i], pid) == []
  {
    if SentAt(ws[i], ls[i], pid) != [] {
      DeletionProvenance(setup, ws, ls, pid, i);
      assert false;
    }
  }
}

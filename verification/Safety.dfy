/** Deletion safety over every interleaved run, whatever the controller's chain and settings. */
module Safety {
  import opened Domain
  import opened Facts
  import opened Reporter
  import opened Classifier
  import opened Executor
  import opened PolicyEngine
  import opened Production
  import opened Pipeline
  import opened Cluster
  import opened Invariants

  // ----- provenance -----

  /** The four steps of one reconcile that lead to its Delete at index j: it fetched the object from
      the cache, classified it, decided with the listed policies, and re-read it. */
  ghost predicate LeadsToDelete(
    setup: Setup, ws: seq<World>, ls: seq<Label>, pid: nat, phase: Phase,
    fetch: nat, classify: nat, decide: nat, reread: nat, j: nat)
    requires IsRun(setup, ws, ls) && j < |ls| && phase.Deleting?
  {
    var Deleting(req, obj, finding, decision, current) := phase;
    && fetch < classify < decide < reread < j
    && ls[fetch] == Io(pid, Fetched(Ok(obj))) && Stored(ws[fetch].cache, RequestKey(req), obj)
    && ls[classify].Io? && ls[classify].pid == pid && ls[classify].input.Classified?
    && Classify(setup.chain, obj, ls[classify].input.env).Good?
    && finding == Named(req, Classify(setup.chain, obj, ls[classify].input.env).value)
    && ls[classify].input.env.now == ws[classify].clock
    && ls[decide].Io? && ls[decide].pid == pid && ls[decide].input.PoliciesListed? && ls[decide].input.listing.Listed?
    && decision == Evaluate(setup.globalDryRun, obj.annotations, finding,
         KindFilter(ls[decide].input.listing.items, KindName(req.kind)))
    && IsLiveDelete(decision)
    && ls[reread] == Io(pid, Reread(Ok(current))) && Stored(ws[reread].server, RequestKey(req), current)
    && Untouched(ls, pid, fetch, classify) && Untouched(ls, pid, classify, decide)
    && Untouched(ls, pid, decide, reread) && Untouched(ls, pid, reread, j)
  }

  /** What the code had established about the object it deletes. */
  ghost predicate Safe(setup: Setup, req: Request, obj: Obj, finding: Finding, current: Obj, listed: seq<Policy>) {
    && finding.ref == RefOf(obj)
    && current.uid == obj.uid
    && (forall f :: f in current.finalizers ==> f == "janitor.io/cleanup")
    && current.owners == []
    && req.namespace !in setup.protectedNamespaces
    && (req.namespace == "" ==> req.name !in setup.protectedNamespaces)
    && Authorised(setup.globalDryRun, obj.annotations, finding, KindFilter(listed, KindName(req.kind)))
  }

  ghost predicate Justified(setup: Setup, ws: seq<World>, ls: seq<Label>, pid: nat, phase: Phase, j: nat)
    requires IsRun(setup, ws, ls) && j < |ls| && phase.Deleting?
  {
    exists fetch: nat, classify: nat, decide: nat, reread: nat ::
      && LeadsToDelete(setup, ws, ls, pid, phase, fetch, classify, decide, reread, j)
      && Safe(setup, phase.req, phase.obj, phase.finding, phase.current, ls[decide].input.listing.items)
  }

  lemma StepInto(setup: Setup, ws: seq<World>, ls: seq<Label>, pid: nat, j: nat) returns (i: nat)
    requires IsRun(setup, ws, ls) && j < |ws| && pid in ws[j].procs && !ws[j].procs[pid].Fetching?
    ensures i < j && ls[i].Io? && ls[i].pid == pid && pid in ws[i].procs
    ensures Expects(ws[i].procs[pid], ls[i].input) && Possible(ws[i], ws[i].procs[pid], ls[i].input)
    ensures Advance(setup, ws[i].procs[pid], ls[i].input).next == ws[j].procs[pid]
    ensures Untouched(ls, pid, i, j)
  {
    i := EnteredAt(setup, ws, ls, pid, j);
    assert StepAt(setup, ws, ls, i);
    assert ws[i + 1].procs[pid] == ws[j].procs[pid];
    if ls[i].Io? {
      OnlyWayInto(setup, ws[i].procs[pid], ls[i].input);
    }
  }

  /** The step before each phase on the way to a Delete. */
  lemma CameFromReread(setup: Setup, ws: seq<World>, ls: seq<Label>, pid: nat, j: nat) returns (i: nat)
    requires IsRun(setup, ws, ls) && j < |ws| && pid in ws[j].procs && ws[j].procs[pid].Deleting?
    ensures i < j && Untouched(ls, pid, i, j)
    ensures
      var Deleting(req, obj, finding, decision, current) := ws[j].procs[pid];
      && pid in ws[i].procs && ws[i].procs[pid] == Rereading(req, obj, finding, decision)
      && ls[i] == Io(pid, Reread(Ok(current))) && Stored(ws[i].server, KeyOf(req.kind, finding.ref), current)
      && CheckOf(finding.ref, Ok(current)) == Cleared(current)
  {
    i := StepInto(setup, ws, ls, pid, j);
    OnlyWayInto(setup, ws[i].procs[pid], ls[i].input);
  }

  lemma CameFromDecision(setup: Setup, ws: seq<World>, ls: seq<Label>, pid: nat, j: nat) returns (i: nat)
    requires IsRun(setup, ws, ls) && j < |ws| && pid in ws[j].procs && ws[j].procs[pid].Rereading?
    ensures i < j && Untouched(ls, pid, i, j)
    ensures
      var Rereading(req, obj, finding, decision) := ws[j].procs[pid];
      && pid in ws[i].procs && ws[i].procs[pid] == Matching(req, obj, finding)
      && ls[i].Io? && ls[i].pid == pid && ls[i].input.PoliciesListed? && ls[i].input.listing.Listed?
      && decision == Evaluate(setup.globalDryRun, obj.annotations, finding,
           KindFilter(ls[i].input.listing.items, KindName(req.kind)))
      && StartOf(setup.protectedNamespaces, finding, decision) == MustReread
  {
    i := StepInto(setup, ws, ls, pid, j);
    OnlyWayInto(setup, ws[i].procs[pid], ls[i].input);
  }

  lemma CameFromClassification(setup: Setup, ws: seq<World>, ls: seq<Label>, pid: nat, j: nat) returns (i: nat)
    requires IsRun(setup, ws, ls) && j < |ws| && pid in ws[j].procs && ws[j].procs[pid].Matching?
    ensures i < j && Untouched(ls, pid, i, j)
    ensures
      var Matching(req, obj, finding) := ws[j].procs[pid];
      && pid in ws[i].procs && ws[i].procs[pid] == Classifying(req, obj)
      && ls[i].Io? && ls[i].pid == pid && ls[i].input.Classified? && ls[i].input.env.now == ws[i].clock
      && Classify(setup.chain, obj, ls[i].input.env).Good?
      && finding == Named(req, Classify(setup.chain, obj, ls[i].input.env).value)
  {
    i := StepInto(setup, ws, ls, pid, j);
    OnlyWayInto(setup, ws[i].procs[pid], ls[i].input);
  }

  lemma CameFromFetch(setup: Setup, ws: seq<World>, ls: seq<Label>, pid: nat, j: nat) returns (i: nat)
    requires IsRun(setup, ws, ls) && j < |ws| && pid in ws[j].procs && ws[j].procs[pid].Classifying?
    ensures i < j && Untouched(ls, pid, i, j)
    ensures
      var Classifying(req, obj) := ws[j].procs[pid];
      ls[i] == Io(pid, Fetched(Ok(obj))) && Stored(ws[i].cache, RequestKey(req), obj)
  {
    i := StepInto(setup, ws, ls, pid, j);
    OnlyWayInto(setup, ws[i].procs[pid], ls[i].input);
  }

  /** Every Delete in every run is justified, and it is sent for the key the reconcile was for. */
  lemma DeletionProvenance(setup: Setup, ws: seq<World>, ls: seq<Label>, pid: nat, j: nat)
    requires IsRun(setup, ws, ls) && j < |ls|
    requires ls[j].Io? && ls[j].pid == pid && ls[j].input.Deleted?
    ensures pid in ws[j].procs && ws[j].procs[pid].Deleting?
    ensures
      var phase := ws[j].procs[pid];
      DeleteKey(phase.req, phase.current) == RequestKey(phase.req) && Justified(setup, ws, ls, pid, phase, j)
  {
    assert StepAt(setup, ws, ls, j);
    var phase := ws[j].procs[pid];
    var Deleting(req, obj, finding, decision, current) := phase;
    RunKeepsInv(setup, ws, ls, j);
    DeletesOwnKey(ws[j], phase);

    var reread := CameFromReread(setup, ws, ls, pid, j);
    var decide := CameFromDecision(setup, ws, ls, pid, reread);
    var classify := CameFromClassification(setup, ws, ls, pid, decide);
    var fetch := CameFromFetch(setup, ws, ls, pid, classify);

    assert Accounted(ws[j].births, Version(RequestKey(req), obj));
    ClassifyRefersTo(setup.chain, obj, ls[classify].input.env);
    var listed := KindFilter(ls[decide].input.listing.items, KindName(req.kind));
    LiveDeleteExactly(setup.globalDryRun, obj.annotations, finding, listed);
    assert LeadsToDelete(setup, ws, ls, pid, phase, fetch, classify, decide, reread, j);
    assert Safe(setup, req, obj, finding, current, ls[decide].input.listing.items);
  }

  // ----- one incarnation -----

  lemma {:induction false} PastWasServed(setup: Setup, ws: seq<World>, ls: seq<Label>, j: nat, v: Version) returns (s: nat)
    requires IsRun(setup, ws, ls) && j < |ws| && v in ws[j].past
    ensures s <= j && Stored(ws[s].server, v.key, v.obj)
  {
    assert j > 0;
    assert StepAt(setup, ws, ls, j - 1);
    if v in ws[j - 1].past {
      s := PastWasServed(setup, ws, ls, j - 1, v);
    } else {
      s := j;
    }
  }

  ghost predicate HoldsUid(w: World, key: Key, uid: string) {
    key in w.server && w.server[key].uid == uid
  }

  /** A UID that was born and is gone never comes back. */
  lemma GoneStaysGone(setup: Setup, w: World, l: Label, key: Key, uid: string)
    requires Inv(w) && Enabled(w, l) && uid in w.births && w.births[uid].key == key && !HoldsUid(w, key, uid)
    ensures
      var w' := Apply(setup, w, l);
      uid in w'.births && w'.births[uid] == w.births[uid] && !HoldsUid(w', key, uid)
  {
  }

  lemma {:induction false} GoneForGood(
    setup: Setup, ws: seq<World>, ls: seq<Label>, key: Key, uid: string, k: nat, j: nat)
    requires IsRun(setup, ws, ls) && k <= j < |ws|
    requires uid in ws[k].births && ws[k].births[uid].key == key && !HoldsUid(ws[k], key, uid)
    ensures !HoldsUid(ws[j], key, uid)
    decreases j - k
  {
    if k < j {
      RunKeepsInv(setup, ws, ls, k);
      assert StepAt(setup, ws, ls, k);
      GoneStaysGone(setup, ws[k], ls[k], key, uid);
      GoneForGood(setup, ws, ls, key, uid, k + 1, j);
    }
  }

  lemma {:induction false} BirthsStay(setup: Setup, ws: seq<World>, ls: seq<Label>, uid: string, i: nat, j: nat)
    requires IsRun(setup, ws, ls) && i <= j < |ws| && uid in ws[i].births
    ensures uid in ws[j].births && ws[j].births[uid] == ws[i].births[uid]
    decreases j - i
  {
    if i < j {
      BirthsStay(setup, ws, ls, uid, i, j - 1);
      assert StepAt(setup, ws, ls, j - 1);
    }
  }

  /** An object held at two times was there, under the same UID, at every time in between. */
  lemma ContinuousLife(setup: Setup, ws: seq<World>, ls: seq<Label>, key: Key, uid: string, i: nat, j: nat)
    requires IsRun(setup, ws, ls) && i <= j < |ws|
    requires HoldsUid(ws[i], key, uid) && HoldsUid(ws[j], key, uid)
    ensures forall k :: i <= k <= j ==> HoldsUid(ws[k], key, uid)
  {
    RunKeepsInv(setup, ws, ls, i);
    assert Accounted(ws[i].births, Version(key, ws[i].server[key]));
    forall k | i <= k <= j
      ensures HoldsUid(ws[k], key, uid)
    {
      if !HoldsUid(ws[k], key, uid) {
        BirthsStay(setup, ws, ls, uid, i, k);
        GoneForGood(setup, ws, ls, key, uid, k, j);
      }
    }
  }

  /** However old the cached copy, a reconcile that gets to its Delete re-read the incarnation it
      had classified: from a time when the classified version was the stored one until the re-read,
      the key held that UID without a break, and the creation time is the same. */
  lemma SameIncarnation(
    setup: Setup, ws: seq<World>, ls: seq<Label>, pid: nat, phase: Phase,
    fetch: nat, classify: nat, decide: nat, reread: nat, j: nat) returns (origin: nat)
    requires IsRun(setup, ws, ls) && j < |ls| && phase.Deleting?
    requires LeadsToDelete(setup, ws, ls, pid, phase, fetch, classify, decide, reread, j)
    requires phase.current.uid == phase.obj.uid
    ensures origin <= fetch && Stored(ws[origin].server, RequestKey(phase.req), phase.obj)
    ensures forall k :: origin <= k <= reread ==> HoldsUid(ws[k], RequestKey(phase.req), phase.obj.uid)
    ensures phase.current.created == phase.obj.created
  {
    var key := RequestKey(phase.req);
    RunKeepsInv(setup, ws, ls, fetch);
    origin := PastWasServed(setup, ws, ls, fetch, Version(key, phase.obj));
    ContinuousLife(setup, ws, ls, key, phase.obj.uid, origin, reread);
    assert Accounted(ws[fetch].births, Version(key, phase.obj));
    BirthsStay(setup, ws, ls, phase.obj.uid, fetch, reread);
    RunKeepsInv(setup, ws, ls, reread);
    assert Accounted(ws[reread].births, Version(key, phase.current));
  }

  /** What the Delete itself hits: it carries no UID precondition, so it is the re-read incarnation
      exactly when nobody removed the key in between. */
  lemma DeleteHitsRereadObject(
    setup: Setup, ws: seq<World>, ls: seq<Label>, pid: nat, phase: Phase,
    fetch: nat, classify: nat, decide: nat, reread: nat, j: nat)
    requires IsRun(setup, ws, ls) && j < |ls| && phase.Deleting?
    requires LeadsToDelete(setup, ws, ls, pid, phase, fetch, classify, decide, reread, j)
    ensures HoldsUid(ws[j], RequestKey(phase.req), phase.current.uid) <==>
      forall k :: reread <= k < j ==> ls[k] != Remove(RequestKey(phase.req))
  {
    var key := RequestKey(phase.req);
    if HoldsUid(ws[j], key, phase.current.uid) {
      ContinuousLife(setup, ws, ls, key, phase.current.uid, reread, j);
      forall k | reread <= k < j
        ensures ls[k] != Remove(key)
      {
        assert StepAt(setup, ws, ls, k);
        assert HoldsUid(ws[k + 1], key, phase.current.uid);
      }
    } else if forall k :: reread <= k < j ==> ls[k] != Remove(key) {
      StaysUnlessRemoved(setup, ws, ls, key, phase.current.uid, reread, j);
    }
  }

  lemma {:induction false} StaysUnlessRemoved(
    setup: Setup, ws: seq<World>, ls: seq<Label>, key: Key, uid: string, i: nat, j: nat)
    requires IsRun(setup, ws, ls) && i <= j < |ws| && HoldsUid(ws[i], key, uid)
    requires forall k :: i <= k < j ==> ls[k] != Remove(key)
    ensures HoldsUid(ws[j], key, uid)
    decreases j - i
  {
    if i < j {
      StaysUnlessRemoved(setup, ws, ls, key, uid, i, j - 1);
      assert StepAt(setup, ws, ls, j - 1);
    }
  }

  // ----- time -----

  lemma {:induction false} ClockAdvances(setup: Setup, ws: seq<World>, ls: seq<Label>, i: nat, j: nat)
    requires IsRun(setup, ws, ls) && i <= j < |ws|
    ensures ws[i].clock <= ws[j].clock
    decreases j - i
  {
    if i < j {
      ClockAdvances(setup, ws, ls, i, j - 1);
      assert StepAt(setup, ws, ls, j - 1);
    }
  }

  /** A finding of the production chain with this reason code means the TTL of the object's own
      annotation had elapsed. */
  lemma TtlReasonIsTrue(protectedNamespaces: set<string>, resolvers: seq<Resolver>, obj: Obj, env: Env)
    requires Classify(Chain(protectedNamespaces, resolvers), obj, env).Good?
    requires
      var reasons := Classify(Chain(protectedNamespaces, resolvers), obj, env).value.reasons;
      |reasons| == 1 && reasons[0].code == "ttl-expired"
    ensures TtlPassed(obj, env)
  {
    ChainIsStaged(protectedNamespaces, resolvers, obj, env);
    TtlByManifest(TTL, obj, env);
  }

  /** An object deleted because of its TTL d really is older than d: the incarnation that was re-read
      exceeds d at every later clock value, that of the Delete step included. */
  lemma TtlStillElapsed(
    protectedNamespaces: set<string>, resolvers: seq<Resolver>, setup: Setup, ws: seq<World>, ls: seq<Label>,
    pid: nat, phase: Phase, fetch: nat, classify: nat, decide: nat, reread: nat, j: nat)
    requires setup.chain == Chain(protectedNamespaces, resolvers)
    requires IsRun(setup, ws, ls) && j < |ls| && phase.Deleting?
    requires LeadsToDelete(setup, ws, ls, pid, phase, fetch, classify, decide, reread, j)
    requires phase.current.uid == phase.obj.uid
    requires |phase.finding.reasons| == 1 && phase.finding.reasons[0].code == "ttl-expired"
    ensures "janitor.io/ttl" in phase.obj.annotations
    ensures
      var d := ls[classify].input.env.parse.duration(phase.obj.annotations["janitor.io/ttl"]);
      d.Some? && forall k :: classify <= k < |ws| ==> ws[k].clock - phase.current.created > d.value
  {
    var env := ls[classify].input.env;
    TtlReasonIsTrue(protectedNamespaces, resolvers, phase.obj, env);
    var d := env.parse.duration(phase.obj.annotations["janitor.io/ttl"]).value;
    var origin := SameIncarnation(setup, ws, ls, pid, phase, fetch, classify, decide, reread, j);
    forall k | classify <= k < |ws|
      ensures ws[k].clock - phase.current.created > d
    {
      ClockAdvances(setup, ws, ls, classify, k);
    }
  }

  // ----- events -----

  /** A reconcile saw its object gone, or had its Delete accepted. */
  ghost predicate SawItGone(ws: seq<World>, ls: seq<Label>, pid: nat, i: nat)
    requires i < |ls| && i < |ws| && pid in ws[i].procs
  {
    var phase := ws[i].procs[pid];
    || (phase.Rereading? && ls[i] == Io(pid, Reread(NotFound)) && KeyOf(phase.req.kind, phase.finding.ref) !in ws[i].server)
    || (phase.Deleting? && ls[i] == Io(pid, Deleted(AlreadyGone)) && DeleteKey(phase.req, phase.current) !in ws[i].server)
    || (phase.Deleting? && ls[i] == Io(pid, Deleted(Accepted)))
  }

  /** No false "Deleted" event: the reconcile that emits one, in its step just before, saw the
      object absent at the server or had its Delete accepted. */
  lemma DeletedEventIsTrue(setup: Setup, ws: seq<World>, ls: seq<Label>, pid: nat, j: nat) returns (i: nat)
    requires IsRun(setup, ws, ls) && j < |ls| && ls[j] == Io(pid, Reported)
    requires pid in ws[j].procs && ws[j].procs[pid].Reporting?
    requires EventReasonOf(ws[j].procs[pid].finding, ws[j].procs[pid].decision) == ReasonDeleted
    ensures ws[j + 1].events == ws[j].events + [Event(RefOf(ws[j].procs[pid].obj), ReasonDeleted)]
    ensures i < j && Untouched(ls, pid, i, j) && pid in ws[i].procs
    ensures SawItGone(ws, ls, pid, i)
  {
    assert StepAt(setup, ws, ls, j);
    i := StepInto(setup, ws, ls, pid, j);
    OnlyWayInto(setup, ws[i].procs[pid], ls[i].input);
  }
}

/** The global dry run: it changes nothing, and until a live controller decides a live delete it
    shows exactly what that controller does. */
module DryRun {
  import opened Domain
  import opened Metrics
  import opened PolicyEngine
  import opened Executor
  import opened Pipeline
  import opened Cluster
  import opened Invariants

  // ----- inert -----

  predicate Harmless(phase: Phase) {
    !phase.Rereading? && !phase.Deleting?
  }

  lemma {:induction false} NoneReachesServer(setup: Setup, ws: seq<World>, ls: seq<Label>, i: nat)
    requires setup.globalDryRun && IsRun(setup, ws, ls) && i < |ws|
    ensures forall p :: p in ws[i].procs ==> Harmless(ws[i].procs[p])
  {
    if i > 0 {
      var (w, l) := (ws[i - 1], ls[i - 1]);
      NoneReachesServer(setup, ws, ls, i - 1);
      assert StepAt(setup, ws, ls, i - 1);
      if l.Io? {
        StaysHarmless(setup, w.procs[l.pid], l.input);
      }
    }
  }

  lemma StaysHarmless(setup: Setup, phase: Phase, input: Input)
    requires setup.globalDryRun && Harmless(phase) && Expects(phase, input)
    ensures Harmless(Advance(setup, phase, input).next)
  {
    if phase.Matching? && input.listing.Listed? {
      var filtered := KindFilter(input.listing.items, KindName(phase.req.kind));
      GlobalDryRunShadows(phase.obj.annotations, phase.finding, filtered);
    }
  }

  /** With the switch on, in every run, no reconcile ever re-reads or deletes anything: every change
      of the server is a step of somebody else, and no live deletion is ever accepted. */
  lemma DryRunIsInert(setup: Setup, ws: seq<World>, ls: seq<Label>, i: nat)
    requires setup.globalDryRun && IsRun(setup, ws, ls) && i < |ls|
    ensures ws[i + 1].server != ws[i].server ==> ls[i].Create? || ls[i].Update? || ls[i].Remove?
    ensures !(ls[i].Io? && (ls[i].input.Reread? || ls[i].input.Deleted?))
  {
    NoneReachesServer(setup, ws, ls, i);
    assert StepAt(setup, ws, ls, i);
  }

  // ----- a faithful shadow -----

  function Live(chain: seq<Strategy>, protectedNamespaces: set<string>): Setup {
    Setup(chain, false, protectedNamespaces)
  }

  function Dry(chain: seq<Strategy>, protectedNamespaces: set<string>): Setup {
    Setup(chain, true, protectedNamespaces)
  }

  /** The same phase, up to the dry-run flag of a decision that is no live delete. */
  predicate PhaseShadow(p: Phase, q: Phase) {
    match p
    case Reporting(req, obj, finding, decision) =>
      q == Reporting(req, obj, finding, decision.(dryRun := true)) && !IsLiveDelete(decision)
    case Rereading(_, _, _, _) => false
    case Deleting(_, _, _, _, _) => false
    case _ => p == q
  }

  /** The same counters, up to the dry_run label of the actions. */
  predicate CounterShadow(c: Counters, d: Counters) {
    && c.scanned == d.scanned && c.classified == d.classified
    && c.errors == d.errors && c.evaluations == d.evaluations
    && c.actions + c.dryActions == d.actions + d.dryActions
  }

  ghost predicate Shadows(w: World, v: World) {
    && v.server == w.server && v.births == w.births && v.past == w.past && v.cache == w.cache && v.clock == w.clock
    && v.procs.Keys == w.procs.Keys
    && (forall p :: p in w.procs ==> PhaseShadow(w.procs[p], v.procs[p]))
    && CounterShadow(w.counters, v.counters)
    && v.events == w.events && v.ledger == w.ledger
  }

  /** The live controller decides a live delete in this step: for a protected key that is refused at
      once, for any other key the executor goes on to re-read the object. */
  ghost predicate GoesLive(chain: seq<Strategy>, protectedNamespaces: set<string>, w: World, l: Label) {
    && l.Io? && l.pid in w.procs && w.procs[l.pid].Matching? && l.input.PoliciesListed? && l.input.listing.Listed?
    && IsLiveDelete(DecisionIn(Live(chain, protectedNamespaces), w.procs[l.pid], l.input))
  }

  function DecisionIn(setup: Setup, phase: Phase, input: Input): Decision
    requires phase.Matching? && input.PoliciesListed? && input.listing.Listed?
  {
    Evaluate(setup.globalDryRun, phase.obj.annotations, phase.finding,
      KindFilter(input.listing.items, KindName(phase.req.kind)))
  }

  /** Counts that differ at most in the dry_run label. */
  predicate CountShadow(n: Count, m: Count) {
    if n.ActionTaken? then m.ActionTaken? && m.kind == n.kind && m.taken == n.taken else m == n
  }

  ghost predicate CountsShadow(ns: seq<Count>, ms: seq<Count>) {
    |ns| == |ms| && forall i :: 0 <= i < |ns| ==> CountShadow(ns[i], ms[i])
  }

  lemma AddShadow(c: Counters, d: Counters, n: Count, m: Count)
    requires CounterShadow(c, d) && CountShadow(n, m)
    ensures CounterShadow(Add(c, n), Add(d, m))
  {
    if n.ActionTaken? {
      var one := multiset{(n.kind, n.taken)};
      assert Add(c, n).actions + Add(c, n).dryActions == c.actions + c.dryActions + one;
      assert Add(d, m).actions + Add(d, m).dryActions == d.actions + d.dryActions + one;
    }
  }

  lemma {:induction false} AddAllShadow(c: Counters, d: Counters, ns: seq<Count>, ms: seq<Count>)
    requires CounterShadow(c, d) && CountsShadow(ns, ms)
    ensures CounterShadow(AddAll(c, ns), AddAll(d, ms))
    decreases ns
  {
    if ns != [] {
      AddShadow(c, d, ns[0], ms[0]);
      AddAllShadow(Add(c, ns[0]), Add(d, ms[0]), ns[1..], ms[1..]);
    }
  }

  ghost predicate StepShadow(s: Step, t: Step) {
    PhaseShadow(s.next, t.next) && CountsShadow(s.counts, t.counts) && s.event == t.event
  }

  /** The decision of the dry controller is that of the live one, flag apart; so unless that is a
      live delete, both conclude alike. */
  lemma DecidedShadow(
    chain: seq<Strategy>, protectedNamespaces: set<string>, req: Request, obj: Obj, finding: Finding, decision: Decision)
    requires !IsLiveDelete(decision)
    ensures StepShadow(
      OnDecided(Live(chain, protectedNamespaces), req, obj, finding, decision),
      OnDecided(Dry(chain, protectedNamespaces), req, obj, finding, decision.(dryRun := true)))
  {
  }

  lemma AdvanceShadow(chain: seq<Strategy>, protectedNamespaces: set<string>, p: Phase, q: Phase, input: Input)
    requires PhaseShadow(p, q) && Expects(p, input)
    requires p.Matching? && input.listing.Listed? ==>
      !IsLiveDelete(DecisionIn(Live(chain, protectedNamespaces), p, input))
    ensures Expects(q, input)
    ensures StepShadow(
      Advance(Live(chain, protectedNamespaces), p, input), Advance(Dry(chain, protectedNamespaces), q, input))
  {
    if p.Matching? && input.listing.Listed? {
      GlobalDryRunShadows(p.obj.annotations, p.finding, KindFilter(input.listing.items, KindName(p.req.kind)));
      DecidedShadow(chain, protectedNamespaces, p.req, p.obj, p.finding,
        DecisionIn(Live(chain, protectedNamespaces), p, input));
    }
  }

  lemma LedgerShadow(ledger: Ledger, p: Phase, q: Phase, input: Input, next: Phase, next': Phase)
    requires Expects(p, input) && Expects(q, input) && PhaseShadow(p, q) && PhaseShadow(next, next')
    ensures LedgerAfter(ledger, p, input, next) == LedgerAfter(ledger, q, input, next')
  {
  }

  function Moved(w: World, pid: nat, step: Step, ledger: Ledger): World {
    w.(procs := w.procs[pid := step.next], counters := AddAll(w.counters, step.counts),
       events := w.events + (match step.event case None => [] case Some(e) => [e]), ledger := ledger)
  }

  lemma HarmlessIo(setup: Setup, w: World, pid: nat, input: Input)
    requires Enabled(w, Io(pid, input)) && Harmless(w.procs[pid])
    ensures
      var step := Advance(setup, w.procs[pid], input);
      AfterIo(setup, w, pid, input) == Moved(w, pid, step, LedgerAfter(w.ledger, w.procs[pid], input, step.next))
  {
  }

  lemma MovedShadow(w: World, v: World, pid: nat, s: Step, t: Step, ledger: Ledger)
    requires Shadows(w, v) && pid in w.procs && StepShadow(s, t)
    ensures Shadows(Moved(w, pid, s, ledger), Moved(v, pid, t, ledger))
  {
    AddAllShadow(w.counters, v.counters, s.counts, t.counts);
  }

  lemma IoKeepsShadow(
    chain: seq<Strategy>, protectedNamespaces: set<string>, w: World, v: World, pid: nat, input: Input)
    requires Shadows(w, v) && Enabled(w, Io(pid, input)) && !GoesLive(chain, protectedNamespaces, w, Io(pid, input))
    ensures Enabled(v, Io(pid, input))
    ensures Shadows(
      AfterIo(Live(chain, protectedNamespaces), w, pid, input), AfterIo(Dry(chain, protectedNamespaces), v, pid, input))
  {
    var (p, q) := (w.procs[pid], v.procs[pid]);
    AdvanceShadow(chain, protectedNamespaces, p, q, input);
    var s := Advance(Live(chain, protectedNamespaces), p, input);
    var t := Advance(Dry(chain, protectedNamespaces), q, input);
    MovedShadow(w, v, pid, s, t, LedgerAfter(w.ledger, p, input, s.next));
    LedgerShadow(w.ledger, p, q, input, s.next, t.next);
    HarmlessIo(Live(chain, protectedNamespaces), w, pid, input);
    HarmlessIo(Dry(chain, protectedNamespaces), v, pid, input);
  }

  lemma StepKeepsShadow(chain: seq<Strategy>, protectedNamespaces: set<string>, w: World, v: World, l: Label)
    requires Shadows(w, v) && Enabled(w, l) && !GoesLive(chain, protectedNamespaces, w, l)
    ensures Enabled(v, l)
    ensures Shadows(Apply(Live(chain, protectedNamespaces), w, l), Apply(Dry(chain, protectedNamespaces), v, l))
  {
    if l.Io? {
      IoKeepsShadow(chain, protectedNamespaces, w, v, l.pid, l.input);
    }
  }

  ghost predicate ShadowsAt(ws: seq<World>, vs: seq<World>, i: nat)
    requires i < |ws| && i < |vs|
  {
    Shadows(ws[i], vs[i])
  }

  /** For every run of a live controller that decides no live delete, the dry controller has a run on
      the same schedule, with the same answers, that shadows it at every step. */
  lemma {:induction false} DryRunShadowsLive(
    chain: seq<Strategy>, protectedNamespaces: set<string>, ws: seq<World>, ls: seq<Label>) returns (vs: seq<World>)
    requires IsRun(Live(chain, protectedNamespaces), ws, ls)
    requires forall i :: 0 <= i < |ls| ==> !GoesLive(chain, protectedNamespaces, ws[i], ls[i])
    ensures IsRun(Dry(chain, protectedNamespaces), vs, ls)
    ensures |vs| == |ws| && forall i: nat :: i < |ws| ==> ShadowsAt(ws, vs, i)
    decreases |ls|
  {
    if |ls| == 0 {
      vs := ws;
    } else {
      var n := |ls| - 1;
      PrefixIsRun(Live(chain, protectedNamespaces), ws, ls, n);
      var before := DryRunShadowsLive(chain, protectedNamespaces, ws[..n + 1], ls[..n]);
      assert ShadowsAt(ws[..n + 1], before, n);
      assert StepAt(Live(chain, protectedNamespaces), ws, ls, n);
      StepKeepsShadow(chain, protectedNamespaces, ws[n], before[n], ls[n]);
      vs := before + [Apply(Dry(chain, protectedNamespaces), before[n], ls[n])];
      assert ls[..n] + [ls[n]] == ls;
      ExtendedIsRun(Dry(chain, protectedNamespaces), before, ls[..n], ls[n]);
      ShadowGrows(ws, before, vs);
    }
  }

  lemma ShadowGrows(ws: seq<World>, before: seq<World>, vs: seq<World>)
    requires |ws| == |vs| == |before| + 1 && vs[..|before|] == before
    requires forall i: nat :: i < |before| ==> ShadowsAt(ws[..|before|], before, i)
    requires Shadows(ws[|before|], vs[|before|])
    ensures forall i: nat :: i < |ws| ==> ShadowsAt(ws, vs, i)
  {
    forall i: nat | i < |ws|
      ensures ShadowsAt(ws, vs, i)
    {
      if i < |before| {
        assert ShadowsAt(ws[..|before|], before, i);
        assert vs[..|before|][i] == before[i];
      }
    }
  }

  /** Where they part: at the step in which the live controller decides a live delete, the dry one
      takes the same action for the same policy as a dry run, counts it and concludes. */
  lemma PartAtLiveDelete(chain: seq<Strategy>, protectedNamespaces: set<string>, w: World, v: World, l: Label)
    requires Shadows(w, v) && Enabled(w, l) && GoesLive(chain, protectedNamespaces, w, l)
    ensures Enabled(v, l)
    ensures
      var phase := w.procs[l.pid];
      var live := DecisionIn(Live(chain, protectedNamespaces), phase, l.input);
      var dry := DecisionIn(Dry(chain, protectedNamespaces), phase, l.input);
      var w' := Apply(Live(chain, protectedNamespaces), w, l);
      var v' := Apply(Dry(chain, protectedNamespaces), v, l);
      var ref := phase.finding.ref;
      var refused := ref.namespace in protectedNamespaces || (ref.namespace == "" && ref.name in protectedNamespaces);
      && dry == live.(dryRun := true)
      && w'.procs[l.pid] ==
           (if refused then Done(Some(ExecuteFailed(Refused(NamespaceIsProtected))))
            else Rereading(phase.req, phase.obj, phase.finding, live))
      && v'.procs[l.pid] ==
           (if phase.finding.cls == Active then Done(None)
            else Reporting(phase.req, phase.obj, phase.finding, dry))
      && v'.counters == Add(
           Add(v.counters, Evaluation(live.policyRef, live.action)),
           ActionTaken(phase.finding.ref.gvk.kind, "dryrun-delete", true))
      && !Shadows(w', v')
  {
    var phase := w.procs[l.pid];
    GlobalDryRunShadows(phase.obj.annotations, phase.finding,
      KindFilter(l.input.listing.items, KindName(phase.req.kind)));
    var dry := DecisionIn(Dry(chain, protectedNamespaces), phase, l.input);
    var evaluated := Evaluation(dry.policyRef, dry.action);
    var taken := ActionTaken(phase.finding.ref.gvk.kind, "dryrun-delete", true);
    AddAllOfConcat(v.counters, [evaluated], [taken]);
    AddOne(v.counters, evaluated);
    AddOne(Add(v.counters, evaluated), taken);
  }
}

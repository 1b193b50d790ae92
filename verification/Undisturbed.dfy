/** The sequential reconcile and the cluster are one system: a reconcile left alone in any reachable
    world can run to its end there, and does what Pipeline.Complete says. */
module Undisturbed {
  import opened Domain
  import opened Pipeline
  import opened Cluster
  import opened Invariants
  import opened Interleaved

  /** The answers this world gives to a reconcile of this request. */
  ghost predicate AnswersOf(w: World, req: Request, a: Answers) {
    var key := RequestKey(req);
    && Fits(w.cache, key, a.cached) && a.env.now == w.clock && Fits(w.server, key, a.read)
    && (match a.deletion
        case Accepted => key in w.server
        case AlreadyGone => key !in w.server
        case DeleteFailed(applied) => applied ==> key in w.server)
  }

  lemma SameKey(w: World, phase: Phase)
    requires Inv(w) && Carries(w, phase)
    ensures phase.Rereading? ==> KeyOf(phase.req.kind, phase.finding.ref) == RequestKey(phase.req)
    ensures phase.Deleting? ==> DeleteKey(phase.req, phase.current) == RequestKey(phase.req)
  {
    if phase.Rereading? || phase.Deleting? {
      assert Accounted(w.births, Version(RequestKey(phase.req), phase.obj));
    }
    if phase.Deleting? {
      assert Accounted(w.births, Version(RequestKey(phase.req), phase.current));
    }
  }

  /** Part of the cluster a reconcile can change, next to a log of Delete requests. */
  function ViewOf(w: World, deletes: seq<Key>): View {
    View(w.counters, w.server, deletes, w.events)
  }

  ghost predicate IsSchedule(setup: Setup, ws: seq<World>, ls: seq<Label>, pid: nat) {
    && |ws| == |ls| + 1
    && (forall i: nat :: i < |ls| ==> StepAt(setup, ws, ls, i))
    && (forall l :: l in ls ==> IsIoOf(l, pid))
  }

  lemma AnswerIsPossible(setup: Setup, w: World, pid: nat, a: Answers)
    requires Inv(w) && pid in w.procs && !w.procs[pid].Done? && AnswersOf(w, RequestOf(w.procs[pid]), a)
    ensures Enabled(w, Io(pid, InputFor(w.procs[pid], a)))
  {
    SameKey(w, w.procs[pid]);
  }

  /** Until it deletes, a reconcile changes nothing that its answers depend on. */
  lemma WorldStays(setup: Setup, w: World, pid: nat, input: Input)
    requires Enabled(w, Io(pid, input)) && !w.procs[pid].Deleting?
    ensures
      var w' := AfterIo(setup, w, pid, input);
      w'.server == w.server && w'.cache == w.cache && w'.clock == w.clock
  {
  }

  lemma NextAnswers(setup: Setup, w: World, pid: nat, a: Answers)
    requires Inv(w) && pid in w.procs && !w.procs[pid].Done? && AnswersOf(w, RequestOf(w.procs[pid]), a)
    ensures Enabled(w, Io(pid, InputFor(w.procs[pid], a)))
    ensures
      var phase := w.procs[pid];
      var w' := AfterIo(setup, w, pid, InputFor(phase, a));
      && w'.procs[pid] == Advance(setup, phase, InputFor(phase, a)).next
      && (!w'.procs[pid].Done? ==> RequestOf(w'.procs[pid]) == RequestOf(phase))
      && (w'.procs[pid].Done? || w'.procs[pid].Reporting? || AnswersOf(w', RequestOf(phase), a))
  {
    var input := InputFor(w.procs[pid], a);
    AnswerIsPossible(setup, w, pid, a);
    NextPhase(setup, w.procs[pid], input);
    if !w.procs[pid].Deleting? {
      WorldStays(setup, w, pid, input);
    }
  }

  /** What one step does to the view is what Complete takes it to do. */
  lemma SameEffect(setup: Setup, w: World, pid: nat, a: Answers, deletes: seq<Key>)
    requires pid in w.procs && !w.procs[pid].Done? && Enabled(w, Io(pid, InputFor(w.procs[pid], a)))
    ensures
      var phase := w.procs[pid];
      var input := InputFor(phase, a);
      ViewOf(AfterIo(setup, w, pid, input), deletes + SentAt(w, Io(pid, input), pid)) ==
        After(ViewOf(w, deletes), phase, a.deletion, Advance(setup, phase, input))
  {
  }

  lemma OneStepOn(setup: Setup, w: World, pid: nat, a: Answers, deletes: seq<Key>) returns (next: World)
    requires Inv(w) && pid in w.procs && !w.procs[pid].Done?
    requires w.procs[pid].Reporting? || AnswersOf(w, RequestOf(w.procs[pid]), a)
    ensures
      var phase := w.procs[pid];
      var l := Io(pid, InputFor(phase, a));
      && Enabled(w, l) && next == Apply(setup, w, l)
      && Inv(next) && pid in next.procs && StepsLeft(next.procs[pid]) < StepsLeft(phase)
      && (next.procs[pid].Done? || next.procs[pid].Reporting? || AnswersOf(next, RequestOf(next.procs[pid]), a))
      && Complete(setup, phase, a, ViewOf(w, deletes)) ==
           Complete(setup, next.procs[pid], a, ViewOf(next, deletes + SentAt(w, l, pid)))
  {
    var input := InputFor(w.procs[pid], a);
    if !w.procs[pid].Reporting? {
      NextAnswers(setup, w, pid, a);
    }
    next := AfterIo(setup, w, pid, input);
    IoKeepsInv(setup, w, pid, input);
    StepsDecrease(setup, w.procs[pid], input);
    SameEffect(setup, w, pid, a, deletes);
  }

  /** The steps of the schedule are given the answers in `a`, and it ends the reconcile with the view,
      the Delete requests it sent included, and the error of the sequential run. */
  lemma {:induction false} AloneIsComplete(setup: Setup, w: World, pid: nat, a: Answers, deletes: seq<Key>)
    returns (ws: seq<World>, ls: seq<Label>)
    requires Inv(w) && pid in w.procs
    requires w.procs[pid].Done? || w.procs[pid].Reporting? || AnswersOf(w, RequestOf(w.procs[pid]), a)
    ensures IsSchedule(setup, ws, ls, pid) && ws[0] == w && Agrees(ws, ls, pid, a, 0, |ls|)
    ensures pid in ws[|ls|].procs && ws[|ls|].procs[pid].Done?
    ensures (ViewOf(ws[|ls|], Sent(deletes, ws, ls, pid, 0, |ls|)), ws[|ls|].procs[pid].error) ==
      Complete(setup, w.procs[pid], a, ViewOf(w, deletes))
    decreases StepsLeft(w.procs[pid])
  {
    if w.procs[pid].Done? {
      ws, ls := [w], [];
    } else {
      var l := Io(pid, InputFor(w.procs[pid], a));
      var next := OneStepOn(setup, w, pid, a, deletes);
      var ws1, ls1 := AloneIsComplete(setup, next, pid, a, deletes + SentAt(w, l, pid));
      ws, ls := OneStepBefore(setup, w, l, ws1, ls1, pid, a, deletes);
    }
  }

  lemma OneStepBefore(
    setup: Setup, w: World, l: Label, ws: seq<World>, ls: seq<Label>, pid: nat, a: Answers, deletes: seq<Key>)
    returns (ws': seq<World>, ls': seq<Label>)
    requires IsSchedule(setup, ws, ls, pid) && Agrees(ws, ls, pid, a, 0, |ls|)
    requires pid in w.procs && !w.procs[pid].Done? && l == Io(pid, InputFor(w.procs[pid], a))
    requires Enabled(w, l) && ws[0] == Apply(setup, w, l)
    ensures IsSchedule(setup, ws', ls', pid) && ws'[0] == w && ws'[|ls'|] == ws[|ls|]
    ensures Agrees(ws', ls', pid, a, 0, |ls'|)
    ensures Sent(deletes, ws', ls', pid, 0, |ls'|) == Sent(deletes + SentAt(w, l, pid), ws, ls, pid, 0, |ls|)
  {
    ws', ls' := [w] + ws, [l] + ls;
    assert Prepends(ws, ls, ws', ls');
    ScheduleGrows(setup, ws, ls, ws', ls', pid, a);
    SentShifts(deletes + SentAt(w, l, pid), ws, ls, ws', ls', pid, 0);
  }

  /** The second schedule is the first with one step before it. */
  ghost predicate Prepends(ws: seq<World>, ls: seq<Label>, ws': seq<World>, ls': seq<Label>) {
    && |ws| == |ls| + 1 && |ws'| == |ws| + 1 && |ls'| == |ls| + 1
    && (forall i :: 0 < i < |ws'| ==> ws'[i] == ws[i - 1])
    && (forall i :: 0 < i < |ls'| ==> ls'[i] == ls[i - 1])
  }

  lemma StepIsLater(setup: Setup, ws: seq<World>, ls: seq<Label>, ws': seq<World>, ls': seq<Label>, i: nat)
    requires Prepends(ws, ls, ws', ls') && 0 < i < |ls'| && StepAt(setup, ws, ls, i - 1)
    ensures StepAt(setup, ws', ls', i)
  {
  }

  lemma ScheduleGrows(
    setup: Setup, ws: seq<World>, ls: seq<Label>, ws': seq<World>, ls': seq<Label>, pid: nat, a: Answers)
    requires IsSchedule(setup, ws, ls, pid) && Prepends(ws, ls, ws', ls') && StepAt(setup, ws', ls', 0)
    requires Agrees(ws, ls, pid, a, 0, |ls|) && Agrees(ws', ls', pid, a, 0, 1) && IsIoOf(ls'[0], pid)
    ensures IsSchedule(setup, ws', ls', pid) && Agrees(ws', ls', pid, a, 0, |ls'|)
  {
    forall i: nat | i < |ls'|
      ensures StepAt(setup, ws', ls', i)
    {
      if i > 0 {
        StepIsLater(setup, ws, ls, ws', ls', i);
      }
    }
  }

  lemma {:induction false} SentShifts(
    before: seq<Key>, ws: seq<World>, ls: seq<Label>, ws': seq<World>, ls': seq<Label>, pid: nat, i: nat)
    requires Prepends(ws, ls, ws', ls') && i <= |ls|
    ensures Sent(before, ws', ls', pid, i + 1, |ls'|) == Sent(before, ws, ls, pid, i, |ls|)
    decreases |ls| - i
  {
    if i < |ls| {
      SentShifts(before + SentAt(ws[i], ls[i], pid), ws, ls, ws', ls', pid, i + 1);
    }
  }
}

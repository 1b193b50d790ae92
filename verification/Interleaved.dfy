/** One reconcile within a run that other reconciles, users and caches interrupt at will: what its own
    steps did is what the sequential machine does on the answers it was given. */
module Interleaved {
  import opened Domain
  import opened Reporter
  import opened Pipeline
  import opened Cluster
  import opened Invariants

  predicate IsIoOf(l: Label, pid: nat) {
    l.Io? && l.pid == pid
  }

  /** Steps i to j - 1 can be taken from the worlds they start in. */
  ghost predicate IsStretch(setup: Setup, ws: seq<World>, ls: seq<Label>, i: nat, j: nat) {
    && i <= j <= |ls| && |ws| == |ls| + 1
    && forall k: nat :: i <= k < j ==> StepAt(setup, ws, ls, k)
  }

  /** No reconcile begins under this number from i on. */
  ghost predicate NoneBegins(ls: seq<Label>, pid: nat, i: nat, j: nat)
    requires j <= |ls|
  {
    forall k :: i <= k < j ==> !(ls[k].Begin? && ls[k].pid == pid)
  }

  function RequestOf(phase: Phase): Request
    requires !phase.Done?
  {
    phase.req
  }

  /** A reconcile keeps its request, and has no step left after its Delete but the report. */
  lemma NextPhase(setup: Setup, phase: Phase, input: Input)
    requires Expects(phase, input)
    ensures
      var next := Advance(setup, phase, input).next;
      && (next.Done? || RequestOf(next) == RequestOf(phase))
      && (phase.Deleting? ==> next.Done? || next.Reporting?)
  {
  }

  // ----- what the steps of one reconcile did to the cluster -----

  ghost function SentAt(w: World, l: Label, pid: nat): seq<Key> {
    if IsIoOf(l, pid) && l.input.Deleted? && pid in w.procs && w.procs[pid].Deleting?
    then [DeleteKey(w.procs[pid].req, w.procs[pid].current)] else []
  }

  /** Some keys, followed by those of its Delete requests, in order. */
  ghost function Sent(before: seq<Key>, ws: seq<World>, ls: seq<Label>, pid: nat, i: nat, j: nat): seq<Key>
    requires i <= j <= |ls| && |ws| == |ls| + 1
    decreases j - i
  {
    if i == j then before else Sent(before + SentAt(ws[i], ls[i], pid), ws, ls, pid, i + 1, j)
  }

  ghost function EmittedAt(w: World, l: Label, w': World, pid: nat): seq<Event> {
    if IsIoOf(l, pid) && |w.events| <= |w'.events| then w'.events[|w.events|..] else []
  }

  /** Some events, followed by what its steps added to those of the cluster. */
  ghost function Emitted(before: seq<Event>, ws: seq<World>, ls: seq<Label>, pid: nat, i: nat, j: nat): seq<Event>
    requires i <= j <= |ls| && |ws| == |ls| + 1
    decreases j - i
  {
    if i == j then before else Emitted(before + EmittedAt(ws[i], ls[i], ws[i + 1], pid), ws, ls, pid, i + 1, j)
  }

  /** Every answer it was given is the one in `a`. */
  ghost predicate Agrees(ws: seq<World>, ls: seq<Label>, pid: nat, a: Answers, i: nat, j: nat)
    requires i <= j <= |ls| && |ws| == |ls| + 1
  {
    forall k :: i <= k < j && IsIoOf(ls[k], pid) ==>
      pid in ws[k].procs && !ws[k].procs[pid].Done? && ls[k].input == InputFor(ws[k].procs[pid], a)
  }

  // ----- the view that a reconcile carries along -----

  ghost function OwnAt(setup: Setup, w: World, l: Label, pid: nat, a: Answers, view: View): View {
    if IsIoOf(l, pid) && pid in w.procs && Expects(w.procs[pid], l.input) then
      After(view, w.procs[pid], a.deletion, Advance(setup, w.procs[pid], l.input))
    else view
  }

  /** A view changed by its own steps alone. */
  ghost function Own(
    setup: Setup, ws: seq<World>, ls: seq<Label>, pid: nat, a: Answers, view: View, i: nat, j: nat): View
    requires i <= j <= |ls| && |ws| == |ls| + 1
    decreases j - i
  {
    if i == j then view else Own(setup, ws, ls, pid, a, OwnAt(setup, ws[i], ls[i], pid, a, view), i + 1, j)
  }

  lemma OwnStepShows(
    setup: Setup, ws: seq<World>, ls: seq<Label>, pid: nat, a: Answers, view: View, i: nat, j: nat)
    requires IsStretch(setup, ws, ls, i, j) && i < j
    ensures
      var next := OwnAt(setup, ws[i], ls[i], pid, a, view);
      && next.deletes == view.deletes + SentAt(ws[i], ls[i], pid)
      && next.events == view.events + EmittedAt(ws[i], ls[i], ws[i + 1], pid)
  {
    assert StepAt(setup, ws, ls, i);
  }

  lemma {:induction false} OwnDeletes(
    setup: Setup, ws: seq<World>, ls: seq<Label>, pid: nat, a: Answers, view: View, i: nat, j: nat)
    requires IsStretch(setup, ws, ls, i, j)
    ensures Own(setup, ws, ls, pid, a, view, i, j).deletes == Sent(view.deletes, ws, ls, pid, i, j)
    decreases j - i
  {
    if i < j {
      OwnStepShows(setup, ws, ls, pid, a, view, i, j);
      OwnDeletes(setup, ws, ls, pid, a, OwnAt(setup, ws[i], ls[i], pid, a, view), i + 1, j);
    }
  }

  lemma {:induction false} OwnEvents(
    setup: Setup, ws: seq<World>, ls: seq<Label>, pid: nat, a: Answers, view: View, i: nat, j: nat)
    requires IsStretch(setup, ws, ls, i, j)
    ensures Own(setup, ws, ls, pid, a, view, i, j).events == Emitted(view.events, ws, ls, pid, i, j)
    decreases j - i
  {
    if i < j {
      OwnStepShows(setup, ws, ls, pid, a, view, i, j);
      OwnEvents(setup, ws, ls, pid, a, OwnAt(setup, ws[i], ls[i], pid, a, view), i + 1, j);
    }
  }

  // ----- the sequential machine in any stretch of a run -----

  lemma OneStepOfComplete(
    setup: Setup, ws: seq<World>, ls: seq<Label>, pid: nat, a: Answers, view: View, i: nat, j: nat)
    requires IsStretch(setup, ws, ls, i, j) && i < j && pid in ws[i].procs
    requires NoneBegins(ls, pid, i, j) && Agrees(ws, ls, pid, a, i, j)
    ensures pid in ws[i + 1].procs
    ensures Complete(setup, ws[i].procs[pid], a, view) ==
      Complete(setup, ws[i + 1].procs[pid], a, OwnAt(setup, ws[i], ls[i], pid, a, view))
  {
    assert StepAt(setup, ws, ls, i);
    if !IsIoOf(ls[i], pid) {
      OthersWait(setup, ws[i], ls[i], pid);
    }
  }

  /** From any point of a reconcile to any later one, whoever steps in between. */
  lemma {:induction false} StretchIsComplete(
    setup: Setup, ws: seq<World>, ls: seq<Label>, pid: nat, a: Answers, view: View, i: nat, j: nat)
    requires IsStretch(setup, ws, ls, i, j) && pid in ws[i].procs
    requires NoneBegins(ls, pid, i, j) && Agrees(ws, ls, pid, a, i, j)
    ensures pid in ws[j].procs
    ensures Complete(setup, ws[i].procs[pid], a, view) ==
      Complete(setup, ws[j].procs[pid], a, Own(setup, ws, ls, pid, a, view, i, j))
    decreases j - i
  {
    if i < j {
      OneStepOfComplete(setup, ws, ls, pid, a, view, i, j);
      StretchIsComplete(setup, ws, ls, pid, a, OwnAt(setup, ws[i], ls[i], pid, a, view), i + 1, j);
    }
  }

  /** The view it carries grows by exactly the Delete requests and events of its steps in the cluster. */
  lemma OwnOfStretch(
    setup: Setup, ws: seq<World>, ls: seq<Label>, pid: nat, a: Answers, view: View, i: nat, j: nat)
    returns (own: View)
    requires IsStretch(setup, ws, ls, i, j) && pid in ws[i].procs
    requires NoneBegins(ls, pid, i, j) && Agrees(ws, ls, pid, a, i, j)
    ensures pid in ws[j].procs
    ensures Complete(setup, ws[i].procs[pid], a, view) == Complete(setup, ws[j].procs[pid], a, own)
    ensures own.deletes == Sent(view.deletes, ws, ls, pid, i, j)
    ensures own.events == Emitted(view.events, ws, ls, pid, i, j)
  {
    own := Own(setup, ws, ls, pid, a, view, i, j);
    StretchIsComplete(setup, ws, ls, pid, a, view, i, j);
    OwnDeletes(setup, ws, ls, pid, a, view, i, j);
    OwnEvents(setup, ws, ls, pid, a, view, i, j);
  }

  /** The reconcile begun at b is still the one under its number at j. */
  ghost predicate Underway(ls: seq<Label>, pid: nat, req: Request, b: nat, j: nat) {
    b < j <= |ls| && ls[b] == Begin(pid, req) && NoneBegins(ls, pid, b + 1, j)
  }

  lemma BeginsFetching(setup: Setup, ws: seq<World>, ls: seq<Label>, pid: nat, req: Request, b: nat, j: nat)
    requires IsRun(setup, ws, ls) && Underway(ls, pid, req, b, j)
    ensures IsStretch(setup, ws, ls, b + 1, j) && pid in ws[b + 1].procs && ws[b + 1].procs[pid] == Fetching(req)
  {
    assert StepAt(setup, ws, ls, b);
  }

  /** In every run: a whole reconcile, from its beginning to any index j, followed by the rest of the
      machine, is the sequential reconcile on the answers it was given; and the Delete requests and
      events of the view it carries are exactly those of its steps. */
  lemma InterleavedIsComplete(
    setup: Setup, ws: seq<World>, ls: seq<Label>, pid: nat, req: Request, a: Answers, view: View, b: nat, j: nat)
    returns (own: View)
    requires IsRun(setup, ws, ls) && Underway(ls, pid, req, b, j) && Agrees(ws, ls, pid, a, b + 1, j)
    ensures pid in ws[j].procs
    ensures Complete(setup, Fetching(req), a, view) == Complete(setup, ws[j].procs[pid], a, own)
    ensures own.deletes == Sent(view.deletes, ws, ls, pid, b + 1, j)
    ensures own.events == Emitted(view.events, ws, ls, pid, b + 1, j)
  {
    BeginsFetching(setup, ws, ls, pid, req, b, j);
    own := OwnOfStretch(setup, ws, ls, pid, a, view, b + 1, j);
  }

  // ----- the answers a reconcile was given -----

  function Told(a: Answers, input: Input): Answers {
    match input
    case Fetched(cached) => a.(cached := cached)
    case Classified(env) => a.(env := env)
    case PoliciesListed(listing) => a.(policies := listing)
    case Reread(read) => a.(read := read)
    case Deleted(deletion) => a.(deletion := deletion)
    case Reported => a
  }

  lemma ToldAgrees(phase: Phase, a: Answers, input: Input)
    requires Expects(phase, input)
    ensures InputFor(phase, Told(a, input)) == input
    ensures forall p: Phase :: !p.Done? && StepsLeft(p) != StepsLeft(phase) ==>
      InputFor(p, Told(a, input)) == InputFor(p, a)
  {
  }

  lemma StepsDecrease(setup: Setup, phase: Phase, input: Input)
    requires Expects(phase, input)
    ensures StepsLeft(Advance(setup, phase, input).next) < StepsLeft(phase)
  {
  }

  /** An answer it was given, or one of `before` in place of one it never asked for. */
  ghost predicate Heard(ls: seq<Label>, pid: nat, before: Answers, a: Answers, i: nat, j: nat)
    requires i <= j <= |ls|
  {
    && (a.cached == before.cached || exists k :: i <= k < j && ls[k] == Io(pid, Fetched(a.cached)))
    && (a.env == before.env || exists k :: i <= k < j && ls[k] == Io(pid, Classified(a.env)))
    && (a.policies == before.policies || exists k :: i <= k < j && ls[k] == Io(pid, PoliciesListed(a.policies)))
    && (a.read == before.read || exists k :: i <= k < j && ls[k] == Io(pid, Reread(a.read)))
    && (a.deletion == before.deletion || exists k :: i <= k < j && ls[k] == Io(pid, Deleted(a.deletion)))
  }

  ghost predicate Past(ws: seq<World>, ls: seq<Label>, pid: nat, i: nat, j: nat)
    requires i <= j <= |ls| && |ws| == |ls| + 1
  {
    pid in ws[j].procs && forall k :: i <= k < j && IsIoOf(ls[k], pid) ==>
      pid in ws[k].procs && StepsLeft(ws[k].procs[pid]) > StepsLeft(ws[j].procs[pid])
  }

  /** No reconcile asks twice, so its answers always fit into one record. */
  lemma {:induction false} AnswersGiven(
    setup: Setup, ws: seq<World>, ls: seq<Label>, pid: nat, before: Answers, i: nat, j: nat) returns (a: Answers)
    requires IsStretch(setup, ws, ls, i, j) && pid in ws[i].procs && NoneBegins(ls, pid, i, j)
    ensures Agrees(ws, ls, pid, a, i, j) && Heard(ls, pid, before, a, i, j) && Past(ws, ls, pid, i, j)
    decreases j - i
  {
    if i == j {
      a := before;
    } else {
      var a0 := AnswersGiven(setup, ws, ls, pid, before, i, j - 1);
      a := if IsIoOf(ls[j - 1], pid) then Told(a0, ls[j - 1].input) else a0;
      StepForward(setup, ws, ls, pid, i, j);
      OneMoreAnswer(ws, ls, pid, before, a0, a, i, j);
    }
  }

  /** What a step does to a reconcile's phase. */
  ghost predicate Moves(w: World, l: Label, w': World, pid: nat) {
    && pid in w.procs && pid in w'.procs
    && if IsIoOf(l, pid) then
         Expects(w.procs[pid], l.input) && StepsLeft(w'.procs[pid]) < StepsLeft(w.procs[pid])
       else w'.procs[pid] == w.procs[pid]
  }

  lemma StepForward(setup: Setup, ws: seq<World>, ls: seq<Label>, pid: nat, i: nat, j: nat)
    requires IsStretch(setup, ws, ls, i, j) && i < j && pid in ws[j - 1].procs && NoneBegins(ls, pid, i, j)
    ensures Moves(ws[j - 1], ls[j - 1], ws[j], pid)
  {
    assert StepAt(setup, ws, ls, j - 1);
    if IsIoOf(ls[j - 1], pid) {
      StepsDecrease(setup, ws[j - 1].procs[pid], ls[j - 1].input);
    } else {
      OthersWait(setup, ws[j - 1], ls[j - 1], pid);
    }
  }

  lemma OneMoreAnswer(
    ws: seq<World>, ls: seq<Label>, pid: nat, before: Answers, a0: Answers, a: Answers, i: nat, j: nat)
    requires i < j <= |ls| && |ws| == |ls| + 1
    requires Agrees(ws, ls, pid, a0, i, j - 1) && Heard(ls, pid, before, a0, i, j - 1) && Past(ws, ls, pid, i, j - 1)
    requires Moves(ws[j - 1], ls[j - 1], ws[j], pid)
    requires a == if IsIoOf(ls[j - 1], pid) then Told(a0, ls[j - 1].input) else a0
    ensures Agrees(ws, ls, pid, a, i, j) && Heard(ls, pid, before, a, i, j) && Past(ws, ls, pid, i, j)
  {
    if IsIoOf(ls[j - 1], pid) {
      ToldAgrees(ws[j - 1].procs[pid], a0, ls[j - 1].input);
    }
  }
}

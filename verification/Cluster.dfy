/** Any number of reconciles running against a live cluster: users and other controllers create,
    change and remove objects between any two steps, caches lag behind, and any call can fail. */
module Cluster {
  import opened Domain
  import opened Metrics
  import opened Reporter
  import opened Executor
  import opened Pipeline

  /** One stored version of an object. */
  datatype Version = Version(key: Key, obj: Obj)

  /** Where and when the object with some UID was created. */
  datatype Birth = Birth(key: Key, created: Time)

  /** History that no counter keeps: which reconciles ended how, by their kind, and the kinds of the
      objects whose Delete failed or was accepted. */
  datatype Ledger = Ledger(
    classifyFailures: Tally, listFailures: Tally, erredReconciles: Tally,
    failedDeletes: multiset<string>, acceptedDeletes: multiset<string>)

  /** A number for each kind. */
  datatype Tally = Tally(namespaces: nat, configMaps: nat) {
    function Of(kind: Kind): nat {
      match kind
      case NamespaceKind => namespaces
      case ConfigMapKind => configMaps
    }

    predicate IsZero() {
      namespaces == 0 && configMaps == 0
    }

    function Total(): nat {
      namespaces + configMaps
    }

    function OneMoreIf(b: bool, kind: Kind): Tally {
      if !b then this
      else
        match kind
        case NamespaceKind => this.(namespaces := namespaces + 1)
        case ConfigMapKind => this.(configMaps := configMaps + 1)
    }
  }

  /** `births` records every UID ever used and `past` every version ever stored. */
  datatype World = World(
    server: map<Key, Obj>,
    births: map<string, Birth>,
    past: set<Version>,
    cache: map<Key, Obj>,
    clock: Time,
    procs: map<nat, Phase>,
    counters: Counters,
    events: seq<Event>,
    ledger: Ledger)

  datatype Label =
    | Create(key: Key, obj: Obj)
    | Update(key: Key, obj: Obj)
    | Remove(key: Key)
    | Sync(key: Key, obj: Obj)
    | Evict(key: Key)
    | Tick(now: Time)
    | Begin(pid: nat, req: Request)
    | Io(pid: nat, input: Input)

  predicate IsEmpty(ledger: Ledger) {
    && ledger.classifyFailures.IsZero() && ledger.listFailures.IsZero() && ledger.erredReconciles.IsZero()
    && ledger.failedDeletes == multiset{} && ledger.acceptedDeletes == multiset{}
  }

  predicate Initial(w: World) {
    && w.server == map[] && w.births == map[] && w.past == {} && w.cache == map[]
    && w.procs == map[] && w.counters == ZERO && w.events == [] && IsEmpty(w.ledger)
  }

  predicate Names(key: Key, obj: Obj) {
    obj.namespace == key.namespace && obj.name == key.name
  }

  predicate Stored(objects: map<Key, Obj>, key: Key, obj: Obj) {
    key in objects && objects[key] == obj
  }

  /** A Get answers with the stored object, its absence, or an error at any time. */
  predicate Fits(objects: map<Key, Obj>, key: Key, answer: Answer<Obj>) {
    match answer
    case Ok(obj) => Stored(objects, key, obj)
    case NotFound => key !in objects
    case Unavailable => true
  }

  function DeleteKey(req: Request, current: Obj): Key {
    KeyOf(req.kind, RefOf(current))
  }

  /** Which answers the cluster can give a reconcile in a phase. Those to the reads of a
      classification and to the policy listing are unrestricted but for the clock. */
  ghost predicate Possible(w: World, phase: Phase, input: Input)
    requires Expects(phase, input)
  {
    match phase
    case Fetching(req) => Fits(w.cache, RequestKey(req), input.cached)
    case Classifying(_, _) => input.env.now == w.clock
    case Rereading(req, _, finding, _) => Fits(w.server, KeyOf(req.kind, finding.ref), input.read)
    case Deleting(req, _, _, _, current) =>
      (match input.deletion
       case Accepted => DeleteKey(req, current) in w.server
       case AlreadyGone => DeleteKey(req, current) !in w.server
       case DeleteFailed(applied) => applied ==> DeleteKey(req, current) in w.server)
    case _ => true
  }

  ghost predicate Enabled(w: World, l: Label) {
    match l
    case Create(key, obj) => key !in w.server && obj.uid !in w.births && Names(key, obj)
    case Update(key, obj) =>
      key in w.server && obj.uid == w.server[key].uid && obj.created == w.server[key].created && Names(key, obj)
    case Remove(key) => key in w.server
    case Sync(key, obj) => Version(key, obj) in w.past
    case Evict(key) => true
    case Tick(now) => w.clock <= now
    case Begin(pid, req) => pid in w.procs ==> w.procs[pid].Done?
    case Io(pid, input) => pid in w.procs && Expects(w.procs[pid], input) && Possible(w, w.procs[pid], input)
  }

  function ServerAfter(w: World, phase: Phase, input: Input): map<Key, Obj>
    requires Expects(phase, input)
  {
    match phase
    case Deleting(req, _, _, _, current) => AfterDelete(w.server, DeleteKey(req, current), input.deletion)
    case _ => w.server
  }

  function PastAfter(w: World, phase: Phase, input: Input): set<Version>
    requires Expects(phase, input)
  {
    match phase
    case Deleting(req, _, _, _, current) =>
      var key := DeleteKey(req, current);
      if key in ServerAfter(w, phase, input) then w.past + {Version(key, ServerAfter(w, phase, input)[key])} else w.past
    case _ => w.past
  }

  /** The kind of the object that a reconcile is deleting. */
  function DeletionsOf(phase: Phase, b: bool): multiset<string> {
    if phase.Deleting? && b then multiset{phase.finding.ref.gvk.kind} else multiset{}
  }

  function LedgerAfter(ledger: Ledger, phase: Phase, input: Input, next: Phase): Ledger
    requires Expects(phase, input)
  {
    var erred := next.Done? && next.error.Some?;
    Ledger(
      ledger.classifyFailures.OneMoreIf(phase.Classifying? && erred, phase.req.kind),
      ledger.listFailures.OneMoreIf(input == PoliciesListed(ListFailed), phase.req.kind),
      ledger.erredReconciles.OneMoreIf(erred, phase.req.kind),
      ledger.failedDeletes + DeletionsOf(phase, input.Deleted? && input.deletion.DeleteFailed?),
      ledger.acceptedDeletes + DeletionsOf(phase, input == Deleted(Accepted)))
  }

  ghost function Apply(setup: Setup, w: World, l: Label): World
    requires Enabled(w, l)
  {
    match l
    case Create(key, obj) =>
      w.(server := w.server[key := obj], births := w.births[obj.uid := Birth(key, obj.created)],
         past := w.past + {Version(key, obj)})
    case Update(key, obj) => w.(server := w.server[key := obj], past := w.past + {Version(key, obj)})
    case Remove(key) => w.(server := w.server - {key})
    case Sync(key, obj) => w.(cache := w.cache[key := obj])
    case Evict(key) => w.(cache := w.cache - {key})
    case Tick(now) => w.(clock := now)
    case Begin(pid, req) => w.(procs := w.procs[pid := Fetching(req)])
    case Io(pid, input) => AfterIo(setup, w, pid, input)
  }

  ghost function AfterIo(setup: Setup, w: World, pid: nat, input: Input): World
    requires Enabled(w, Io(pid, input))
  {
    var phase := w.procs[pid];
    var step := Advance(setup, phase, input);
    w.(server := ServerAfter(w, phase, input),
       past := PastAfter(w, phase, input),
       procs := w.procs[pid := step.next],
       counters := AddAll(w.counters, step.counts),
       events := w.events + (match step.event case None => [] case Some(e) => [e]),
       ledger := LedgerAfter(w.ledger, phase, input, step.next))
  }

  ghost predicate StepAt(setup: Setup, ws: seq<World>, ls: seq<Label>, i: nat)
    requires i < |ls| && |ws| == |ls| + 1
  {
    Enabled(ws[i], ls[i]) && ws[i + 1] == Apply(setup, ws[i], ls[i])
  }

  /** A run: n steps through n + 1 worlds. */
  ghost predicate IsRun(setup: Setup, ws: seq<World>, ls: seq<Label>) {
    && |ws| == |ls| + 1
    && Initial(ws[0])
    && forall i: nat :: i < |ls| ==> StepAt(setup, ws, ls, i)
  }

  predicate IsStepOf(l: Label, pid: nat) {
    (l.Io? && l.pid == pid) || (l.Begin? && l.pid == pid)
  }

  // ----- what every step keeps -----

  /** A version is accounted for: its UID was born at its key, at its creation time. */
  predicate Accounted(births: map<string, Birth>, v: Version) {
    v.obj.uid in births && births[v.obj.uid] == Birth(v.key, v.obj.created) && Names(v.key, v.obj)
  }

  /** What a reconcile carries was stored at its key once, and its finding is about that object. */
  predicate Carries(w: World, phase: Phase) {
    match phase
    case Classifying(req, obj) => Version(RequestKey(req), obj) in w.past
    case Matching(req, obj, finding) => Version(RequestKey(req), obj) in w.past && finding.ref == RefOf(obj)
    case Rereading(req, obj, finding, _) => Version(RequestKey(req), obj) in w.past && finding.ref == RefOf(obj)
    case Deleting(req, obj, finding, _, current) =>
      && Version(RequestKey(req), obj) in w.past && finding.ref == RefOf(obj)
      && Version(RequestKey(req), current) in w.past && current.uid == obj.uid
    case Reporting(req, obj, finding, _) => Version(RequestKey(req), obj) in w.past && finding.ref == RefOf(obj)
    case _ => true
  }

  ghost predicate Inv(w: World) {
    && (forall v :: v in w.past ==> Accounted(w.births, v))
    && (forall k :: k in w.server ==> Version(k, w.server[k]) in w.past)
    && (forall k :: k in w.cache ==> Version(k, w.cache[k]) in w.past)
    && (forall p :: p in w.procs ==> Carries(w, w.procs[p]))
  }
}

/** The action executor: the pre-flight checks and the only deletion in the system. */
module Executor {
  import opened Domain
  import opened Metrics
  import opened Classifier

  datatype Refusal = NamespaceIsProtected | UidMismatch | ForeignFinalizer | HasOwners

  datatype ExecError = Refused(why: Refusal) | RereadFailed | DeletionFailed | UnknownAction

  /** The first stage needs no API call: it settles every decision but an unprotected live delete. */
  datatype Start = Settled(count: Option<Count>, error: Option<ExecError>) | MustReread

  function StartOf(protectedNamespaces: set<string>, finding: Finding, decision: Decision): Start {
    var ref := finding.ref;
    match decision.action
    case NoAction => Settled(None, None)
    case ReportAction => Settled(Some(ActionTaken(ref.gvk.kind, "report", decision.dryRun)), None)
    case DeleteAction =>
      if decision.dryRun then Settled(Some(ActionTaken(ref.gvk.kind, "dryrun-delete", true)), None)
      else if InProtectedNamespace(protectedNamespaces, ref.namespace, ref.name) then
        Settled(None, Some(Refused(NamespaceIsProtected)))
      else MustReread
    case OtherAction(_) => Settled(None, Some(UnknownAction))
  }

  /** The second stage judges what the re-read returned. */
  datatype Check = Absent | Stopped(error: ExecError) | Cleared(current: Obj)

  function CheckOf(ref: ObjectRef, answer: Answer<Obj>): Check {
    match answer
    case NotFound => Absent
    case Unavailable => Stopped(RereadFailed)
    case Ok(current) =>
      if current.uid != ref.uid then Stopped(Refused(UidMismatch))
      else if !OnlyJanitorFinalizers(current.finalizers) then Stopped(Refused(ForeignFinalizer))
      else if current.owners != [] then Stopped(Refused(HasOwners))
      else Cleared(current)
  }

  /** The checks on what was re-read: cleared is exactly an object with the UID of the finding, no
      finalizer but the janitor's own and no ownerReferences; otherwise the first failing check, in
      this order, is the reason of the refusal. */
  lemma CheckByManifest(ref: ObjectRef, answer: Answer<Obj>)
    ensures
      match answer
      case NotFound => CheckOf(ref, answer) == Absent
      case Unavailable => CheckOf(ref, answer) == Stopped(RereadFailed)
      case Ok(current) =>
        CheckOf(ref, answer) ==
          if current.uid != ref.uid then Stopped(Refused(UidMismatch))
          else if exists f :: f in current.finalizers && f != "janitor.io/cleanup" then Stopped(Refused(ForeignFinalizer))
          else if |current.owners| > 0 then Stopped(Refused(HasOwners))
          else Cleared(current)
  {
  }

  /** The third stage follows the answer to the Delete. */
  function CountOfDelete(ref: ObjectRef, answer: DeleteAnswer): Option<Count> {
    match answer
    case Accepted => Some(ActionTaken(ref.gvk.kind, "delete", false))
    case AlreadyGone => None
    case DeleteFailed(_) => Some(ErrorCount("unknown", ref.gvk.kind))
  }

  function ErrorOfDelete(answer: DeleteAnswer): Option<ExecError> {
    if answer.DeleteFailed? then Some(DeletionFailed) else None
  }

  // ----- the API server as one undisturbed caller sees it -----

  /** How a Delete can fail in transit: before or after the server carried it out. */
  datatype DeleteFault = Healthy | LostBefore | LostAfter

  function ReadAnswer(objects: map<Key, Obj>, key: Key, fault: bool): Answer<Obj> {
    if fault then Unavailable
    else if key in objects then Ok(objects[key])
    else NotFound
  }

  function AnswerToDelete(objects: map<Key, Obj>, key: Key, fault: DeleteFault): DeleteAnswer {
    match fault
    case LostBefore => DeleteFailed(false)
    case LostAfter => DeleteFailed(key in objects)
    case Healthy => if key in objects then Accepted else AlreadyGone
  }

  predicate Applied(answer: DeleteAnswer) {
    answer == Accepted || answer == DeleteFailed(true)
  }

  /** An accepted deletion request marks the object; its removal is the server's own affair. */
  function AfterDelete(objects: map<Key, Obj>, key: Key, answer: DeleteAnswer): map<Key, Obj> {
    if Applied(answer) && key in objects then objects[key := objects[key].(deleting := true)] else objects
  }

  ghost predicate WellKeyed(objects: map<Key, Obj>) {
    forall k :: k in objects ==> objects[k].namespace == k.namespace && objects[k].name == k.name
  }

  class ApiServer {
    var objects: map<Key, Obj>
    /** The keys of all Delete requests received, in order. */
    var deletes: seq<Key>

    constructor (initial: map<Key, Obj>)
      ensures objects == initial && deletes == []
    {
      objects, deletes := initial, [];
    }

    method Get(key: Key, fault: bool) returns (answer: Answer<Obj>)
      ensures answer == ReadAnswer(objects, key, fault)
    {
      if fault {
        return Unavailable;
      }
      if key in objects {
        return Ok(objects[key]);
      }
      return NotFound;
    }

    method Delete(key: Key, fault: DeleteFault) returns (answer: DeleteAnswer)
      modifies this
      ensures answer == AnswerToDelete(old(objects), key, fault)
      ensures objects == AfterDelete(old(objects), key, answer)
      ensures deletes == old(deletes) + [key]
    {
      deletes := deletes + [key];
      if fault == LostBefore {
        return DeleteFailed(false);
      }
      var found := key in objects;
      if found {
        objects := objects[key := objects[key].(deleting := true)];
      }
      if fault == LostAfter {
        return DeleteFailed(found);
      }
      return if found then Accepted else AlreadyGone;
    }
  }

  // ----- the executor -----

  /** Everything an Execute can change. */
  datatype Observed = Observed(counters: Counters, objects: map<Key, Obj>, deletes: seq<Key>)

  /** One Execute against an otherwise undisturbed server. */
  function Perform(
    before: Observed, protectedNamespaces: set<string>, kind: Kind, finding: Finding, decision: Decision,
    readFault: bool, deleteFault: DeleteFault): (Observed, Option<ExecError>)
  {
    match StartOf(protectedNamespaces, finding, decision)
    case Settled(count, error) => (before.(counters := AddIfAny(before.counters, count)), error)
    case MustReread => PerformDelete(before, KeyOf(kind, finding.ref), finding.ref, readFault, deleteFault)
  }

  function PerformDelete(before: Observed, key: Key, ref: ObjectRef, readFault: bool, deleteFault: DeleteFault):
    (Observed, Option<ExecError>)
  {
    match CheckOf(ref, ReadAnswer(before.objects, key, readFault))
    case Absent => (before, None)
    case Stopped(error) => (before, Some(error))
    case Cleared(_) => PerformIssue(before, key, ref, deleteFault)
  }

  function PerformIssue(before: Observed, key: Key, ref: ObjectRef, deleteFault: DeleteFault):
    (Observed, Option<ExecError>)
  {
    var answer := AnswerToDelete(before.objects, key, deleteFault);
    ( Observed(
        AddIfAny(before.counters, CountOfDelete(ref, answer)),
        AfterDelete(before.objects, key, answer),
        before.deletes + [key]),
      ErrorOfDelete(answer) )
  }

  class DefaultExecutor {
    const server: ApiServer
    const metrics: Recorder
    const protectedNamespaces: set<string>

    constructor (server: ApiServer, metrics: Recorder, protectedNamespaces: seq<string>)
      ensures this.server == server && this.metrics == metrics
      ensures this.protectedNamespaces == set n | n in protectedNamespaces
    {
      var ns: set<string> := {};
      for i := 0 to |protectedNamespaces|
        invariant ns == set n | n in protectedNamespaces[..i]
      {
        ns := ns + {protectedNamespaces[i]};
      }
      this.server, this.metrics := server, metrics;
      this.protectedNamespaces := ns;
    }

    function Observe(): Observed
      reads server, metrics
    {
      Observed(metrics.Value(), server.objects, server.deletes)
    }

    method Execute(kind: Kind, finding: Finding, decision: Decision, readFault: bool, deleteFault: DeleteFault)
      returns (error: Option<ExecError>)
      requires WellKeyed(server.objects)
      modifies server, metrics
      ensures (Observe(), error) ==
        Perform(old(Observe()), protectedNamespaces, kind, finding, decision, readFault, deleteFault)
    {
      match decision.action {
        case NoAction =>
          return None;
        case ReportAction =>
          metrics.RecordAction(finding.ref.gvk.kind, "report", decision.dryRun);
          return None;
        case DeleteAction =>
          if decision.dryRun {
            metrics.RecordAction(finding.ref.gvk.kind, "dryrun-delete", true);
            return None;
          }
          error := Delete(kind, finding, readFault, deleteFault);
        case OtherAction(_) =>
          return Some(UnknownAction);
      }
    }

    /** The re-read and the checks on what it returns. */
    method Recheck(key: Key, ref: ObjectRef, readFault: bool) returns (check: Check)
      ensures check == CheckOf(ref, ReadAnswer(server.objects, key, readFault))
    {
      var answer := server.Get(key, readFault);
      if answer.NotFound? {
        return Absent;
      }
      if answer.Unavailable? {
        return Stopped(RereadFailed);
      }
      var current := answer.value;
      if current.uid != ref.uid {
        return Stopped(Refused(UidMismatch));
      }
      for i := 0 to |current.finalizers|
        invariant OnlyJanitorFinalizers(current.finalizers[..i])
      {
        assert current.finalizers[..i + 1] == current.finalizers[..i] + [current.finalizers[i]];
        OnlyJanitorAppend(current.finalizers[..i], current.finalizers[i]);
        if current.finalizers[i] != JANITOR_FINALIZER {
          assert current.finalizers[i] in current.finalizers;
          assert !OnlyJanitorFinalizers(current.finalizers);
          return Stopped(Refused(ForeignFinalizer));
        }
      }
      assert current.finalizers[..|current.finalizers|] == current.finalizers;
      if |current.owners| > 0 {
        return Stopped(Refused(HasOwners));
      }
      return Cleared(current);
    }

    method Delete(kind: Kind, finding: Finding, readFault: bool, deleteFault: DeleteFault)
      returns (error: Option<ExecError>)
      requires WellKeyed(server.objects)
      modifies server, metrics
      ensures (Observe(), error) ==
        if finding.ref.namespace in protectedNamespaces
          || (finding.ref.namespace == "" && finding.ref.name in protectedNamespaces) then
          (old(Observe()), Some(Refused(NamespaceIsProtected)))
        else PerformDelete(old(Observe()), KeyOf(kind, finding.ref), finding.ref, readFault, deleteFault)
    {
      var ref := finding.ref;
      if ref.namespace in protectedNamespaces {
        return Some(Refused(NamespaceIsProtected));
      }
      if ref.namespace == "" {
        if ref.name in protectedNamespaces {
          return Some(Refused(NamespaceIsProtected));
        }
      }
      var check := Recheck(KeyOf(kind, ref), ref, readFault);
      if check.Absent? {
        return None;
      }
      if check.Stopped? {
        return Some(check.error);
      }
      var current := check.current;
      error := Issue(Key(kind, current.namespace, current.name), ref, deleteFault);
    }

    /** The Delete request and the bookkeeping of its answer. */
    method Issue(key: Key, ref: ObjectRef, deleteFault: DeleteFault) returns (error: Option<ExecError>)
      modifies server, metrics
      ensures (Observe(), error) == PerformIssue(old(Observe()), key, ref, deleteFault)
    {
      var deleted := server.Delete(key, deleteFault);
      if deleted.AlreadyGone? {
        return None;
      }
      if deleted.DeleteFailed? {
        metrics.RecordError(ref.gvk.kind);
        return Some(DeletionFailed);
      }
      metrics.RecordAction(ref.gvk.kind, "delete", false);
      return None;
    }
  }
}

/** The Kubernetes Events the controller emits. */
module Reporter {
  import opened Domain

  datatype EventReason =
    ReasonClassified | ReasonDryRunDelete | ReasonDeleted | ReasonProtected | ReasonBlocked
    | ReasonTtlExpired | ReasonOrphaned | ReasonAbandoned

  datatype Event = Event(about: ObjectRef, reason: EventReason)

  function EventReasonOf(finding: Finding, decision: Decision): EventReason {
    match finding.cls
    case Protected => ReasonProtected
    case Blocked => ReasonBlocked
    case Expired =>
      if decision.action == DeleteAction then (if decision.dryRun then ReasonDryRunDelete else ReasonDeleted)
      else ReasonTtlExpired
    case Orphaned => ReasonOrphaned
    case Abandoned => ReasonAbandoned
    case _ => ReasonClassified
  }

  function EventOf(obj: Obj, finding: Finding, decision: Decision): Event {
    Event(RefOf(obj), EventReasonOf(finding, decision))
  }

  class EventReporter {
    var events: seq<Event>

    constructor ()
      ensures events == []
    {
      events := [];
    }

    method Report(obj: Obj, finding: Finding, decision: Decision)
      modifies this
      ensures events == old(events) + [EventOf(obj, finding, decision)]
    {
      events := events + [EventOf(obj, finding, decision)];
    }
  }
}

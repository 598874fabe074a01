/** Rebuilding an entity's state from its aggregate's event log alone. */
module Replay {
  import opened Durations
  import opened Domain

  type Log = seq<Event>

  datatype CustomerView = CustomerView(status: CustomerStatus, createdBy: string, reviewedBy: string,
                                       reviewedAt: Option<Time>)

  datatype AlertView = AlertView(status: AlertStatus, closedBy: string, closureReason: string, closedAt: Option<Time>)

  datatype CaseView = CaseView(
    alert: ID, priority: Priority, status: CaseStatus, assignedTo: string, resolution: string, createdBy: string,
    createdAt: Time, updatedAt: Time, resolvedBy: string, resolvedAt: Option<Time>)

  datatype MatchView = MatchView(status: MatchStatus, reviewedBy: string, reviewedAt: Option<Time>,
                                 dispositionReason: string)

  datatype ScheduleView = ScheduleView(enabled: bool, hours: int)

  // ---------- one event ----------

  function CustomerStep(v: Option<CustomerView>, e: Event): Option<CustomerView> {
    match e.detail
    case Submitted => Some(CustomerView(PendingApproval, e.actor, "", None))
    case Reviewed(approved, _) =>
      if v.None? then v
      else
        Some(v.value.(status := if approved then Active else Rejected,
                      reviewedBy := e.actor, reviewedAt := Some(e.occurredAt)))
    case _ => v
  }

  function AlertStep(v: Option<AlertView>, e: Event): Option<AlertView> {
    match e.detail
    case AlertRaised(_, _) => Some(AlertView(AlertOpen, "", "", None))
    case AlertClosure(reason, _) =>
      if v.None? then v else Some(AlertView(AlertClosed, e.actor, reason, Some(e.occurredAt)))
    case _ => v
  }

  function CaseStep(v: Option<CaseView>, e: Event): Option<CaseView> {
    match e.detail
    case CaseCreated(alert, priority) =>
      Some(CaseView(alert, priority, CaseOpen, "", "", e.actor, e.occurredAt, e.occurredAt, "", None))
    case CaseAssigned(assignee) =>
      if v.None? then v else Some(v.value.(assignedTo := assignee, status := CaseInProgress, updatedAt := e.occurredAt))
    case CaseCommented(_) => if v.None? then v else Some(v.value.(updatedAt := e.occurredAt))
    case CaseResolution(resolution) =>
      if v.None? then v
      else Some(v.value.(status := CaseResolved, resolution := resolution, resolvedBy := e.actor,
                         resolvedAt := Some(e.occurredAt), updatedAt := e.occurredAt))
    case _ => v
  }

  function MatchStep(v: MatchView, id: ID, e: Event): MatchView {
    match e.detail
    case MatchDisposition(m, status, reason) =>
      if m == id then MatchView(status, e.actor, Some(e.occurredAt), reason) else v
    case _ => v
  }

  function ScheduleStep(v: Option<ScheduleView>, e: Event): Option<ScheduleView> {
    match e.detail
    case ScheduleUpdated(enabled, hours, _) => Some(ScheduleView(enabled, hours))
    case _ => v
  }

  // ---------- the whole log ----------

  function CustomerOf(log: Log): Option<CustomerView> {
    if log == [] then None else CustomerStep(CustomerOf(log[..|log| - 1]), log[|log| - 1])
  }

  function AlertOf(log: Log): Option<AlertView> {
    if log == [] then None else AlertStep(AlertOf(log[..|log| - 1]), log[|log| - 1])
  }

  function CaseOf(log: Log): Option<CaseView> {
    if log == [] then None else CaseStep(CaseOf(log[..|log| - 1]), log[|log| - 1])
  }

  /** A match starts out potential; its dispositions lie in its customer's log. */
  function MatchOf(log: Log, id: ID): MatchView {
    if log == [] then MatchView(Potential, "", None, "")
    else MatchStep(MatchOf(log[..|log| - 1], id), id, log[|log| - 1])
  }

  function ScheduleOf(log: Log): Option<ScheduleView> {
    if log == [] then None else ScheduleStep(ScheduleOf(log[..|log| - 1]), log[|log| - 1])
  }

  lemma {:induction false} Append(log: Log, e: Event)
    ensures CustomerOf(log + [e]) == CustomerStep(CustomerOf(log), e)
    ensures AlertOf(log + [e]) == AlertStep(AlertOf(log), e)
    ensures CaseOf(log + [e]) == CaseStep(CaseOf(log), e)
    ensures forall id :: MatchOf(log + [e], id) == MatchStep(MatchOf(log, id), id, e)
    ensures ScheduleOf(log + [e]) == ScheduleStep(ScheduleOf(log), e)
  {
    assert (log + [e])[..|log|] == log;
  }

  lemma {:induction false} Undisposed(log: Log, id: ID)
    requires forall i :: 0 <= i < |log| && log[i].detail.MatchDisposition? ==> log[i].detail.match_ != id
    ensures MatchOf(log, id) == MatchView(Potential, "", None, "")
  {
    if log != [] {
      Undisposed(log[..|log| - 1], id);
    }
  }
}

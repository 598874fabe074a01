/**
 The in-memory repository: maps of records and one append-only event log per aggregate,
 changed only by guarded operations that either do everything or nothing.
 */
module Store {
  import opened Durations
  import opened Domain
  import Fanout
  import Schedules

  datatype Error =
    | InvalidCustomer | InvalidTransaction | InvalidAlertReview | InvalidCase | InvalidScreening
    | CustomerNotFound | ReviewConflict | MakerCannotReview | CustomerNotActive | IdempotencyConflict
    | AlertNotFound | AlertConflict | AlertHasCase | CaseNotFound | CaseConflict
    | ScheduleNotFound | ProviderFailed | InvalidDecision | AlertsWithoutEvents

  type Log = seq<Event>

  datatype State = State(
    customers: map<ID, Customer>, transactions: map<ID, Transaction>, alerts: map<ID, Alert>,
    idempotency: map<string, ID>, cases: map<ID, Case>, comments: map<ID, seq<Comment>>,
    matches: map<ID, Match>, notifications: map<ID, Fanout.Notification>,
    schedules: map<ID, Schedules.Schedule>, events: map<ID, Log>)

  const EMPTY := State(map[], map[], map[], map[], map[], map[], map[], map[], map[], map[])

  /** What an operation answers: an error, a new or a replayed transaction with its alerts, or just success. */
  datatype Answer =
    | Failed(error: Error)
    | Created(transaction: Transaction, alerts: set<Alert>)
    | Replayed(transaction: Transaction, alerts: set<Alert>)
    | Done

  predicate NoEffect(a: Answer) {
    a.Failed? || a.Replayed?
  }

  datatype Result = Result(state: State, answer: Answer)

  // ---------- the log ----------

  function LogOf(events: map<ID, Log>, id: ID): Log {
    if id in events then events[id] else []
  }

  function Appended(events: map<ID, Log>, e: Event): map<ID, Log> {
    events[e.aggregate := LogOf(events, e.aggregate) + [e]]
  }

  function AllAppended(events: map<ID, Log>, es: seq<Event>): map<ID, Log> {
    if es == [] then events else Appended(AllAppended(events, es[..|es| - 1]), es[|es| - 1])
  }

  // ---------- the operations ----------

  function CreateCustomer(s: State, c: Customer, e: Event): Result {
    Result(s.(customers := s.customers[c.id := c], events := Appended(s.events, e)), Done)
  }

  datatype Decision = Approve | Reject | OtherDecision

  function ReviewCustomer(s: State, id: ID, decision: Decision, actor: string, e: Event): (r: Result)
    ensures NoEffect(r.answer) ==> r.state == s
  {
    if id !in s.customers then Result(s, Failed(CustomerNotFound))
    else if s.customers[id].createdBy == actor then Result(s, Failed(MakerCannotReview))
    else if s.customers[id].status != PendingApproval then Result(s, Failed(ReviewConflict))
    else if decision == OtherDecision then Result(s, Failed(InvalidDecision))
    else
      var c := s.customers[id].(status := if decision == Approve then Active else Rejected,
                                reviewedBy := actor, reviewedAt := Some(e.occurredAt));
      Result(s.(customers := s.customers[id := c], events := Appended(s.events, e)), Done)
  }

  predicate SamePayload(a: Transaction, b: Transaction) {
    && a.externalRef == b.externalRef && a.customer == b.customer && a.direction == b.direction
    && a.amountMinor == b.amountMinor && a.currency == b.currency
    && a.counterpartyCountry == b.counterpartyCountry && a.occurredAt == b.occurredAt
  }

  function AlertsOf(s: State, transaction: ID): set<Alert> {
    set id | id in s.alerts && s.alerts[id].transaction == transaction :: s.alerts[id]
  }

  function WithAlerts(alerts: map<ID, Alert>, added: seq<Alert>): map<ID, Alert> {
    if added == [] then alerts
    else WithAlerts(alerts, added[..|added| - 1])[added[|added| - 1].id := added[|added| - 1]]
  }

  /**
   The key decides first: a known key answers with the stored transaction or a conflict, whatever
   became of its customer.
   */
  function CreateTransaction(s: State, t: Transaction, e: Event, alerts: seq<Alert>,
                             alertEvents: seq<Event>): (r: Result)
    ensures NoEffect(r.answer) ==> r.state == s
  {
    if |alerts| != |alertEvents| then Result(s, Failed(AlertsWithoutEvents))
    else if t.idempotencyKey in s.idempotency && s.idempotency[t.idempotencyKey] in s.transactions then
      var stored := s.transactions[s.idempotency[t.idempotencyKey]];
      if SamePayload(stored, t) then Result(s, Replayed(stored, AlertsOf(s, stored.id)))
      else Result(s, Failed(IdempotencyConflict))
    else if t.customer !in s.customers then Result(s, Failed(CustomerNotFound))
    else if s.customers[t.customer].status != Active then Result(s, Failed(CustomerNotActive))
    else
      Result(s.(transactions := s.transactions[t.id := t],
                idempotency := s.idempotency[t.idempotencyKey := t.id],
                alerts := WithAlerts(s.alerts, alerts),
                events := AllAppended(Appended(s.events, e), alertEvents)),
             Created(t, set a | a in alerts))
  }

  function Closed(a: Alert, actor: string, reason: string, at: Time): Alert {
    a.(status := AlertClosed, closedAt := Some(at), closedBy := actor, closureReason := reason)
  }

  function CloseAlert(s: State, id: ID, actor: string, reason: string, e: Event): (r: Result)
    ensures NoEffect(r.answer) ==> r.state == s
  {
    if id !in s.alerts then Result(s, Failed(AlertNotFound))
    else if s.alerts[id].status != AlertOpen then Result(s, Failed(AlertConflict))
    else Result(s.(alerts := s.alerts[id := Closed(s.alerts[id], actor, reason, e.occurredAt)],
                   events := Appended(s.events, e)), Done)
  }

  predicate HasCase(s: State, alert: ID) {
    exists id :: id in s.cases && s.cases[id].alert == alert
  }

  function CreateCase(s: State, item: Case, e: Event): (r: Result)
    ensures NoEffect(r.answer) ==> r.state == s
  {
    if item.alert !in s.alerts then Result(s, Failed(AlertNotFound))
    else if s.alerts[item.alert].status != AlertOpen then Result(s, Failed(AlertConflict))
    else if HasCase(s, item.alert) then Result(s, Failed(AlertHasCase))
    else
      var c := item.(customer := s.alerts[item.alert].customer);
      Result(s.(cases := s.cases[c.id := c], events := Appended(s.events, e)), Done)
  }

  function AssignCase(s: State, id: ID, assignee: string, e: Event): (r: Result)
    ensures NoEffect(r.answer) ==> r.state == s
  {
    if id !in s.cases then Result(s, Failed(CaseNotFound))
    else if s.cases[id].status == CaseResolved then Result(s, Failed(CaseConflict))
    else
      var c := s.cases[id].(assignedTo := assignee, status := CaseInProgress, updatedAt := e.occurredAt);
      Result(s.(cases := s.cases[id := c], events := Appended(s.events, e)), Done)
  }

  function CommentsOf(s: State, id: ID): seq<Comment> {
    if id in s.comments then s.comments[id] else []
  }

  function AddCaseComment(s: State, id: ID, comment: Comment, e: Event): (r: Result)
    ensures NoEffect(r.answer) ==> r.state == s
  {
    if id !in s.cases then Result(s, Failed(CaseNotFound))
    else if s.cases[id].status == CaseResolved then Result(s, Failed(CaseConflict))
    else
      Result(s.(cases := s.cases[id := s.cases[id].(updatedAt := comment.createdAt)],
                comments := s.comments[id := CommentsOf(s, id) + [comment]],
                events := Appended(s.events, e)), Done)
  }

  /** Resolving closes the alert in the same step, or does nothing. */
  function ResolveCase(s: State, id: ID, resolution: string, actor: string, caseEvent: Event,
                       alertEvent: Event): (r: Result)
    ensures NoEffect(r.answer) ==> r.state == s
  {
    if id !in s.cases then Result(s, Failed(CaseNotFound))
    else if s.cases[id].status == CaseResolved then Result(s, Failed(CaseConflict))
    else if s.cases[id].alert !in s.alerts || s.alerts[s.cases[id].alert].status != AlertOpen then
        Result(s, Failed(AlertConflict))
    else
      var alert, at := s.cases[id].alert, caseEvent.occurredAt;
      var c := s.cases[id].(status := CaseResolved, resolution := resolution, resolvedBy := actor,
                            resolvedAt := Some(at), updatedAt := at);
      Result(s.(cases := s.cases[id := c],
                alerts := s.alerts[alert := Closed(s.alerts[alert], actor, resolution, at)],
                events := Appended(Appended(s.events, caseEvent), alertEvent.(aggregate := alert))), Done)
  }

  function WithMatches(matches: map<ID, Match>, added: seq<Match>): map<ID, Match> {
    if added == [] then matches
    else WithMatches(matches, added[..|added| - 1])[added[|added| - 1].id := added[|added| - 1]]
  }

  function WithNotifications(
      notifications: map<ID, Fanout.Notification>, added: seq<Fanout.Notification>): map<ID, Fanout.Notification>
  {
    if added == [] then notifications
    else
      var before, n := added[..|added| - 1], added[|added| - 1];
      WithNotifications(notifications, before)[n.id := n]
  }

  /** In memory the runs and the outbox rows of a batch are dropped. */
  function SaveScreening(s: State, batch: Fanout.Batch): Result {
    Result(s.(matches := WithMatches(s.matches, batch.matches),
              notifications := WithNotifications(s.notifications, batch.notifications),
              events := AllAppended(s.events, batch.events)), Done)
  }

  function DispositionMatch(s: State, id: ID, status: MatchStatus, reason: string, actor: string, e: Event): (r: Result)
    ensures NoEffect(r.answer) ==> r.state == s
  {
    if id !in s.matches || s.matches[id].status != Potential then Result(s, Failed(ReviewConflict))
    else
      var m := s.matches[id].(status := status, reviewedBy := actor, reviewedAt := Some(e.occurredAt),
                              dispositionReason := reason);
      Result(s.(matches := s.matches[id := m], events := Appended(s.events, e.(aggregate := m.customer))), Done)
  }

  function UpsertSchedule(s: State, customer: ID, schedule: Schedules.Schedule, e: Event): (r: Result)
    ensures NoEffect(r.answer) ==> r.state == s
  {
    if customer !in s.customers then Result(s, Failed(CustomerNotFound))
    else
      var kept := if customer in s.schedules then schedule.(lastRunAt := s.schedules[customer].lastRunAt) else schedule;
      Result(s.(schedules := s.schedules[customer := kept], events := Appended(s.events, e)), Done)
  }

  /** In memory a claim leases every due row. */
  function ClaimSchedules(s: State, now: Time, owner: string, until: Time): Result {
    Result(s.(schedules := map c | c in s.schedules ::
                             if Schedules.Due(s.schedules[c], now) then Schedules.Leased(s.schedules[c], owner, until)
                                 else s.schedules[c]),
           Done)
  }

  function CompleteSchedule(s: State, customer: ID, owner: string, ranAt: Time, nextRun: Time,
                            lastError: string): (r: Result)
    ensures NoEffect(r.answer) ==> r.state == s
  {
    if customer !in s.schedules || s.schedules[customer].leaseOwner != Some(owner) then
        Result(s, Failed(ScheduleNotFound))
    else Result(s.(schedules := s.schedules[customer := Schedules.Finished(s.schedules[customer], ranAt, nextRun,
        lastError)]), Done)
  }

  /** The due-diligence upserts, as far as the log sees them. */
  function RecordDueDiligence(s: State, customer: ID, e: Event): (r: Result)
    ensures NoEffect(r.answer) ==> r.state == s
  {
    if customer !in s.customers then Result(s, Failed(CustomerNotFound))
    else Result(s.(events := Appended(s.events, e)), Done)
  }
}

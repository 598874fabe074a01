/**
 The records of the compliance store. An identifier is what newID returned: the index-th
 call of it while serving one request, so two requests never share one; a request may also
 name an entity by a blank or by any other identifier.
 */
module Domain {
  import opened Durations

  datatype ID = Blank | ID(request: nat, index: nat)

  datatype CustomerStatus = PendingApproval | Active | Rejected

  datatype Customer = Customer(
    id: ID, legalName: string, countryCode: string, status: CustomerStatus,
    createdBy: string, createdAt: Time, reviewedBy: string, reviewedAt: Option<Time>)

  datatype Direction = Inbound | Outbound | OtherDirection

  datatype Transaction = Transaction(
    id: ID, idempotencyKey: string, externalRef: string, customer: ID, direction: Direction, amountMinor: int,
    currency: string, counterpartyCountry: string, occurredAt: Time, ingestedAt: Time, ingestedBy: string)

  datatype AlertStatus = AlertOpen | AlertClosed

  datatype RuleCode = LargeTransaction | HighRiskCounterpartyCountry

  datatype Alert = Alert(
    id: ID, transaction: ID, customer: ID, rule: RuleCode, status: AlertStatus, createdAt: Time,
    closedAt: Option<Time>, closedBy: string, closureReason: string)

  datatype Priority = Low | Medium | High | OtherPriority

  datatype CaseStatus = CaseOpen | CaseInProgress | CaseResolved

  datatype Case = Case(
    id: ID, alert: ID, customer: ID, title: string, priority: Priority, status: CaseStatus, assignedTo: string,
    resolution: string, createdBy: string, createdAt: Time, updatedAt: Time, resolvedBy: string,
        resolvedAt: Option<Time>)

  datatype Comment = Comment(id: ID, author: string, body: string, createdAt: Time)

  datatype SubjectKind = CustomerSubject | BeneficialOwner

  datatype MatchStatus = Potential | Confirmed | FalsePositive

  datatype ListType = Sanctions | PEP | AdverseMedia

  datatype Match = Match(
    id: ID, run: ID, customer: ID, subjectKind: SubjectKind, subjectID: ID, queryName: string, listType: ListType,
    matchedName: string, score: int, status: MatchStatus, createdAt: Time,
    reviewedBy: string, reviewedAt: Option<Time>, dispositionReason: string)

  /** An event's type and payload in one. */
  datatype Detail =
    | Submitted
    | Reviewed(approved: bool, reviewReason: string)
    | Ingested(customer: ID, amountMinor: int)
    | AlertRaised(transaction: ID, rule: RuleCode)
    | AlertClosure(closureReason: string, byCase: bool)
    | CaseCreated(alert: ID, priority: Priority)
    | CaseAssigned(assignee: string)
    | CaseCommented(comment: ID)
    | CaseResolution(resolution: string)
    | ScreeningCompleted(run: ID, subjectKind: SubjectKind, subjectID: ID, matchCount: nat)
    | MatchDisposition(match_: ID, status: MatchStatus, dispositionReason: string)
    | ScheduleUpdated(enabled: bool, hours: int, nextRunAt: Time)
    | DueDiligenceUpdated

  datatype AggregateType = CustomerAggregate | TransactionAggregate | AlertAggregate | CaseAggregate

  datatype Event = Event(id: ID, aggregateType: AggregateType, aggregate: ID, actor: string, occurredAt: Time,
                         detail: Detail)

  // ---------- text ----------

  predicate IsSpace(c: char) {
    c == ' ' || '\t' <= c <= '\r' || c == '\U{0085}' || c == '\U{00A0}'
  }

  function TrimLeft(s: string): string {
    if s != [] && IsSpace(s[0]) then TrimLeft(s[1..]) else s
  }

  function TrimRight(s: string): string {
    if s != [] && IsSpace(s[|s| - 1]) then TrimRight(s[..|s| - 1]) else s
  }

  function Trim(s: string): string {
    TrimRight(TrimLeft(s))
  }

  function UpperChar(c: char): char {
    if 'a' <= c <= 'z' then c - 'a' + 'A' else c
  }

  function Upper(s: string): string {
    seq(|s|, i requires 0 <= i < |s| => UpperChar(s[i]))
  }
}

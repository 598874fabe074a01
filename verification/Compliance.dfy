/**
 The services over the store: each request is trimmed and checked, turned into records and
 audit events, and handed to one repository operation. A run is any sequence of requests.
 */
module Compliance {
  import opened Durations
  import opened Domain
  import opened Store
  import Fanout
  import Replay
  import Schedules

  datatype CustomerType = Individual | Company | OtherType

  datatype CountryRisk = LowRisk | MediumRisk | HighRisk | OtherRisk

  datatype IngestCommand = IngestCommand(
    externalRef: string, customer: ID, direction: Direction, amountMinor: int, currency: string,
    counterpartyCountry: string, occurredAt: Time, actor: string, idempotencyKey: string)

  datatype Request =
    | Onboard(customerType: CustomerType, legalName: string, countryCode: string, countryRisk: CountryRisk,
              actor: string)
    | Review(customer: ID, decision: Decision, actor: string, reason: string)
    | Ingest(cmd: IngestCommand)
    | Close(alert: ID, actor: string, reason: string)
    | OpenCase(alert: ID, title: string, priority: Priority, actor: string)
    | Assign(case_: ID, assignee: string, actor: string)
    | AddComment(case_: ID, body: string, actor: string)
    | Resolve(case_: ID, resolution: string, actor: string)
    | Screen(customer: ID, actor: string, owners: seq<Fanout.Owner>, replies: seq<Fanout.Reply>, webhook: string,
             recipients: seq<string>)
    | Disposition(match_: ID, status: MatchStatus, reason: string, actor: string)
    | Configure(customer: ID, enabled: bool, hours: int, actor: string)
    | ClaimDue(owner: string, until: Time)
    | CompleteRun(customer: ID, owner: string, ranAt: Time, nextRun: Time, lastError: string)
    | UpdateDueDiligence(customer: ID, actor: string)

  /** One request, the number it was served under, and the clock it read. */
  datatype Call = Call(serial: nat, now: Time, request: Request)

  // ---------- customers ----------

  function OnboardCustomer(s: State, c: Call, legalName: string, countryCode: string, actor: string): Result {
    var customer := Customer(ID(c.serial, 0), legalName, countryCode, PendingApproval, actor, c.now, "", None);
    CreateCustomer(s, customer, Event(ID(c.serial, 1), CustomerAggregate, customer.id, actor, c.now, Submitted))
  }

  function PerformOnboard(s: State, c: Call): (result: Result)
    requires c.request.Onboard?
    ensures NoEffect(result.answer) ==> result.state == s
  {
    var r := c.request;
    var name, country, actor := Trim(r.legalName), Upper(Trim(r.countryCode)), Trim(r.actor);
    if name == "" || |country| != 2 || r.customerType == OtherType || r.countryRisk == OtherRisk || actor == "" then
      Result(s, Failed(InvalidCustomer))
    else OnboardCustomer(s, c, name, country, actor)
  }

  function PerformReview(s: State, c: Call): (result: Result)
    requires c.request.Review?
    ensures NoEffect(result.answer) ==> result.state == s
  {
    var r := c.request;
    var actor, reason := Trim(r.actor), Trim(r.reason);
    if r.customer == Blank || actor == "" || r.decision == OtherDecision then Result(s, Failed(InvalidCustomer))
    else ReviewCustomer(s, r.customer, r.decision, actor,
                        Event(ID(c.serial, 0), CustomerAggregate, r.customer, actor, c.now,
                              Reviewed(r.decision == Approve, reason)))
  }

  // ---------- transactions ----------

  const LARGE_AMOUNT := 1_000_000

  predicate HighRiskCountry(country: string) {
    country == "IR" || country == "KP" || country == "SY"
  }

  function Findings(t: Transaction): seq<RuleCode> {
    (if t.amountMinor >= LARGE_AMOUNT then [LargeTransaction] else []) +
    (if HighRiskCountry(t.counterpartyCountry) then [HighRiskCounterpartyCountry] else [])
  }

  function ToMicroseconds(t: Time): Time {
    t - t % 1000
  }

  function Normalized(cmd: IngestCommand): IngestCommand {
    cmd.(externalRef := Trim(cmd.externalRef), currency := Upper(Trim(cmd.currency)),
         counterpartyCountry := Upper(Trim(cmd.counterpartyCountry)), actor := Trim(cmd.actor),
         idempotencyKey := Trim(cmd.idempotencyKey))
  }

  predicate ValidIngest(cmd: IngestCommand) {
    && cmd.customer != Blank && cmd.amountMinor > 0 && |cmd.currency| == 3 && |cmd.counterpartyCountry| == 2
    && cmd.occurredAt != ZERO_TIME && cmd.actor != "" && cmd.idempotencyKey != "" && |cmd.idempotencyKey| <= 200
    && cmd.direction != OtherDirection
  }

  function NewTransaction(c: Call, cmd: IngestCommand): Transaction {
    Transaction(ID(c.serial, 0), cmd.idempotencyKey, cmd.externalRef, cmd.customer, cmd.direction, cmd.amountMinor,
                cmd.currency, cmd.counterpartyCountry, ToMicroseconds(cmd.occurredAt), c.now, cmd.actor)
  }

  /** The i-th finding's alert and its event: newID was called twice before the first and twice for each. */
  function NewAlert(c: Call, t: Transaction, i: nat, rule: RuleCode): Alert {
    Alert(ID(c.serial, 2 + 2 * i), t.id, t.customer, rule, AlertOpen, c.now, None, "", "")
  }

  function NewAlertEvent(c: Call, t: Transaction, i: nat, rule: RuleCode): Event {
    Event(ID(c.serial, 3 + 2 * i), AlertAggregate, ID(c.serial, 2 + 2 * i), "transaction-monitoring-engine", c.now,
          AlertRaised(t.id, rule))
  }

  function NewAlerts(c: Call, t: Transaction, rules: seq<RuleCode>): seq<Alert> {
    seq(|rules|, i requires 0 <= i < |rules| => NewAlert(c, t, i, rules[i]))
  }

  function NewAlertEvents(c: Call, t: Transaction, rules: seq<RuleCode>): seq<Event> {
    seq(|rules|, i requires 0 <= i < |rules| => NewAlertEvent(c, t, i, rules[i]))
  }

  function IngestNormalized(s: State, c: Call, cmd: IngestCommand): Result {
    var t := NewTransaction(c, cmd);
    CreateTransaction(s, t,
                      Event(ID(c.serial, 1), TransactionAggregate, t.id, cmd.actor, c.now,
                            Ingested(t.customer, t.amountMinor)),
                      NewAlerts(c, t, Findings(t)), NewAlertEvents(c, t, Findings(t)))
  }

  function PerformIngest(s: State, c: Call): (result: Result)
    requires c.request.Ingest?
    ensures NoEffect(result.answer) ==> result.state == s
  {
    var cmd := Normalized(c.request.cmd);
    if !ValidIngest(cmd) then Result(s, Failed(InvalidTransaction)) else IngestNormalized(s, c, cmd)
  }

  function PerformClose(s: State, c: Call): (result: Result)
    requires c.request.Close?
    ensures NoEffect(result.answer) ==> result.state == s
  {
    var r := c.request;
    var actor, reason := Trim(r.actor), Trim(r.reason);
    if r.alert == Blank || actor == "" || reason == "" then Result(s, Failed(InvalidAlertReview))
    else CloseAlert(s, r.alert, actor, reason,
                    Event(ID(c.serial, 0), AlertAggregate, r.alert, actor, c.now, AlertClosure(reason, false)))
  }

  // ---------- cases ----------

  function PerformOpenCase(s: State, c: Call): (result: Result)
    requires c.request.OpenCase?
    ensures NoEffect(result.answer) ==> result.state == s
  {
    var r := c.request;
    var title, actor := Trim(r.title), Trim(r.actor);
    if r.alert == Blank || title == "" || |title| > 200 || actor == "" || r.priority == OtherPriority then
        Result(s, Failed(InvalidCase))
    else
      var item := Case(ID(c.serial, 0), r.alert, Blank, title, r.priority, CaseOpen, "", "", actor, c.now,
                       c.now, "", None);
      CreateCase(s, item, Event(ID(c.serial, 1), CaseAggregate, item.id, actor, c.now,
                                CaseCreated(r.alert, r.priority)))
  }

  function PerformAssign(s: State, c: Call): (result: Result)
    requires c.request.Assign?
    ensures NoEffect(result.answer) ==> result.state == s
  {
    var r := c.request;
    var assignee, actor := Trim(r.assignee), Trim(r.actor);
    if r.case_ == Blank || assignee == "" || |assignee| > 200 || actor == "" then Result(s, Failed(InvalidCase))
    else AssignCase(s, r.case_, assignee,
                    Event(ID(c.serial, 0), CaseAggregate, r.case_, actor, c.now, CaseAssigned(assignee)))
  }

  function PerformComment(s: State, c: Call): (result: Result)
    requires c.request.AddComment?
    ensures NoEffect(result.answer) ==> result.state == s
  {
    var r := c.request;
    var body, actor := Trim(r.body), Trim(r.actor);
    if r.case_ == Blank || body == "" || |body| > 4000 || actor == "" then Result(s, Failed(InvalidCase))
    else
      var comment := Comment(ID(c.serial, 0), actor, body, c.now);
      AddCaseComment(s, r.case_, comment,
                     Event(ID(c.serial, 1), CaseAggregate, r.case_, actor, c.now, CaseCommented(comment.id)))
  }

  function PerformResolve(s: State, c: Call): (result: Result)
    requires c.request.Resolve?
    ensures NoEffect(result.answer) ==> result.state == s
  {
    var r := c.request;
    var resolution, actor := Trim(r.resolution), Trim(r.actor);
    if r.case_ == Blank || resolution == "" || |resolution| > 4000 || actor == "" then Result(s, Failed(InvalidCase))
    else ResolveCase(s, r.case_, resolution, actor,
                     Event(ID(c.serial, 0), CaseAggregate, r.case_, actor, c.now, CaseResolution(resolution)),
                     Event(ID(c.serial, 1), AlertAggregate, Blank, actor, c.now, AlertClosure(resolution, true)))
  }

  // ---------- screening ----------

  function ScreenContext(c: Call): Fanout.Context
    requires c.request.Screen?
  {
    Fanout.Context(c.serial, c.request.customer, Trim(c.request.actor), c.now,
                   Fanout.Destinations(c.request.webhook, c.request.recipients))
  }

  /**
   The customer's beneficial owners and the provider's answers come with the request; a missing
   answer is an error.
   */
  function PerformScreen(s: State, c: Call): (result: Result)
    requires c.request.Screen?
    ensures NoEffect(result.answer) ==> result.state == s
  {
    var r := c.request;
    if r.customer == Blank || Trim(r.actor) == "" then Result(s, Failed(InvalidScreening))
    else if r.customer !in s.customers then Result(s, Failed(CustomerNotFound))
    else if |r.replies| != 1 + |r.owners| then Result(s, Failed(ProviderFailed))
    else
      var batch := Fanout.Build(ScreenContext(c),
                                Fanout.Subjects(r.customer, s.customers[r.customer].legalName, r.owners), r.replies);
      if batch.None? then Result(s, Failed(ProviderFailed)) else SaveScreening(s, batch.value)
  }

  function PerformDisposition(s: State, c: Call): (result: Result)
    requires c.request.Disposition?
    ensures NoEffect(result.answer) ==> result.state == s
  {
    var r := c.request;
    var reason, actor := Trim(r.reason), Trim(r.actor);
    if r.match_ == Blank || reason == "" || actor == "" || r.status == Potential then
        Result(s, Failed(InvalidScreening))
    else DispositionMatch(s, r.match_, r.status, reason, actor,
                          Event(ID(c.serial, 0), CustomerAggregate, Blank, actor, c.now,
                                MatchDisposition(r.match_, r.status, reason)))
  }

  function PerformConfigure(s: State, c: Call): (result: Result)
    requires c.request.Configure?
    ensures NoEffect(result.answer) ==> result.state == s
  {
    var r := c.request;
    var actor := Trim(r.actor);
    if r.customer == Blank || actor == "" || !Schedules.ValidHours(r.hours) then Result(s, Failed(InvalidScreening))
    else
      var row := Schedules.Configured(None, r.enabled, r.hours, actor, c.now);
      UpsertSchedule(s, r.customer, row,
                     Event(ID(c.serial, 0), CustomerAggregate, r.customer, actor, c.now,
                           ScheduleUpdated(r.enabled, r.hours, row.nextRunAt)))
  }

  function PerformDueDiligence(s: State, c: Call): (result: Result)
    requires c.request.UpdateDueDiligence?
    ensures NoEffect(result.answer) ==> result.state == s
  {
    RecordDueDiligence(s, c.request.customer,
                       Event(ID(c.serial, 0), CustomerAggregate, c.request.customer, c.request.actor, c.now,
                             DueDiligenceUpdated))
  }

  // ---------- runs ----------

  /** A request answered with an error or a replay changes nothing. */
  function Perform(s: State, c: Call): (result: Result)
    ensures NoEffect(result.answer) ==> result.state == s
  {
    match c.request
    case Onboard(_, _, _, _, _) => PerformOnboard(s, c)
    case Review(_, _, _, _) => PerformReview(s, c)
    case Ingest(_) => PerformIngest(s, c)
    case Close(_, _, _) => PerformClose(s, c)
    case OpenCase(_, _, _, _) => PerformOpenCase(s, c)
    case Assign(_, _, _) => PerformAssign(s, c)
    case AddComment(_, _, _) => PerformComment(s, c)
    case Resolve(_, _, _) => PerformResolve(s, c)
    case Screen(_, _, _, _, _, _) => PerformScreen(s, c)
    case Disposition(_, _, _, _) => PerformDisposition(s, c)
    case Configure(_, _, _, _) => PerformConfigure(s, c)
    case ClaimDue(owner, until) => ClaimSchedules(s, c.now, owner, until)
    case CompleteRun(customer, owner, ranAt, nextRun, lastError) =>
        CompleteSchedule(s, customer, owner, ranAt, nextRun, lastError)
    case UpdateDueDiligence(_, _) => PerformDueDiligence(s, c)
  }

  function Exec(s: State, history: seq<Call>): State {
    if history == [] then s
    else Perform(Exec(s, history[..|history| - 1]), history[|history| - 1]).state
  }

  function Serials(history: seq<Call>): set<nat> {
    set c | c in history :: c.serial
  }

  /** newID never repeats itself: no two requests share a serial. */
  predicate FreshIDs(history: seq<Call>) {
    forall i, j :: 0 <= i < j < |history| ==> history[i].serial != history[j].serial
  }

  lemma {:induction false} Exec1(s: State, history: seq<Call>, c: Call)
    ensures Exec(s, history + [c]) == Perform(Exec(s, history), c).state
  {
    assert (history + [c])[..|history|] == history;
  }

  lemma {:induction false} SameNext(s: State, t: State, first: seq<Call>, second: seq<Call>, c: Call)
    requires Exec(s, first) == Exec(t, second)
    ensures Exec(s, first + [c]) == Exec(t, second + [c])
  {
    Exec1(s, first, c);
    Exec1(t, second, c);
  }

  lemma {:induction false} ExecAppend(s: State, first: seq<Call>, second: seq<Call>)
    ensures Exec(s, first + second) == Exec(Exec(s, first), second)
    decreases |second|
  {
    if second == [] {
      assert first + second == first;
    } else {
      var before, c := second[..|second| - 1], second[|second| - 1];
      ExecAppend(s, first, before);
      SameNext(s, Exec(s, first), first + before, before, c);
      assert second == before + [c] && first + second == (first + before) + [c];
    }
  }
}

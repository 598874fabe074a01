/**
 What a run may change and what it may not: logs only grow, finished reviews stand, transactions
 and their alerts stay as first stored, and calls answered with an error leave no trace.
 */
module Histories {
  import opened Durations
  import opened Domain
  import opened Store
  import opened Compliance
  import opened Invariants
  import Fanout
  import Schedules

  // ---------- what one step may change ----------

  ghost predicate LogsGrow(s: State, t: State) {
    forall id {:trigger LogOf(t.events, id)} :: LogOf(s.events, id) <= LogOf(t.events, id)
  }

  /** A reviewed customer stays as it is, an unreviewed one keeps its creator and its time of creation. */
  ghost predicate CustomersStand(m: map<ID, Customer>, n: map<ID, Customer>) {
    forall id :: id in m ==>
      && id in n && n[id].createdBy == m[id].createdBy && n[id].createdAt == m[id].createdAt
      && (m[id].status != PendingApproval ==> n[id] == m[id])
  }

  ghost predicate Kept<K, V>(m: map<K, V>, n: map<K, V>) {
    forall k :: k in m ==> k in n && n[k] == m[k]
  }

  /** Closing is the only change an alert sees. */
  predicate SameButClosure(a: Alert, b: Alert) {
    a.id == b.id && a.transaction == b.transaction && a.customer == b.customer && a.rule == b.rule
        && a.createdAt == b.createdAt
  }

  /** New alerts belong to new transactions, and an old one either stays as it is or goes from open to closed. */
  ghost predicate AlertsStand(m: map<ID, Alert>, n: map<ID, Alert>, transactions: map<ID, Transaction>) {
    && (forall id :: id in m ==>
          && id in n && SameButClosure(m[id], n[id])
          && (m[id].status == AlertClosed || n[id].status == AlertOpen ==> n[id] == m[id]))
    && (forall id :: id in n && id !in m ==> n[id].transaction !in transactions)
  }

  /** A resolved case stays as it is, and only a case with an open alert is resolved. */
  ghost predicate CasesStand(m: map<ID, Case>, n: map<ID, Case>, alerts: map<ID, Alert>) {
    forall id :: id in m ==>
      && id in n && n[id].alert == m[id].alert && n[id].customer == m[id].customer
      && (m[id].status == CaseResolved ==> n[id] == m[id])
      && (n[id].status == CaseResolved && m[id].status != CaseResolved && m[id].alert in alerts ==>
          alerts[m[id].alert].status == AlertOpen)
  }

  ghost predicate MatchesStand(m: map<ID, Match>, n: map<ID, Match>) {
    forall id :: id in m ==> id in n && (m[id].status != Potential ==> n[id] == m[id])
  }

  ghost predicate Stands(s: State, t: State) {
    && LogsGrow(s, t) && CustomersStand(s.customers, t.customers)
    && Kept(s.transactions, t.transactions) && Kept(s.idempotency, t.idempotency)
    && AlertsStand(s.alerts, t.alerts, s.transactions) && CasesStand(s.cases, t.cases, s.alerts)
    && MatchesStand(s.matches, t.matches)
  }

  lemma {:induction false} Stationary(s: State)
    ensures CustomersStand(s.customers, s.customers) && Kept(s.transactions, s.transactions)
            && Kept(s.idempotency, s.idempotency)
    ensures AlertsStand(s.alerts, s.alerts, s.transactions) && CasesStand(s.cases, s.cases, s.alerts)
    ensures MatchesStand(s.matches, s.matches) && LogsGrow(s, s)
  {
  }

  lemma {:induction false} LogsGrowOn(s: State, t: State, u: State)
    requires LogsGrow(s, t) && LogsGrow(t, u)
    ensures LogsGrow(s, u)
  {
    forall id ensures LogOf(s.events, id) <= LogOf(u.events, id) {
      assert LogOf(s.events, id) <= LogOf(t.events, id) && LogOf(t.events, id) <= LogOf(u.events, id);
    }
  }

  lemma {:induction false} RecordsStandOn(s: State, t: State, u: State)
    requires CustomersStand(s.customers, t.customers) && CustomersStand(t.customers, u.customers)
    requires MatchesStand(s.matches, t.matches) && MatchesStand(t.matches, u.matches)
    ensures CustomersStand(s.customers, u.customers) && MatchesStand(s.matches, u.matches)
  {
  }

  lemma {:induction false} AlertsStandOn(s: State, t: State, u: State)
    requires AlertsStand(s.alerts, t.alerts, s.transactions) && AlertsStand(t.alerts, u.alerts, t.transactions)
    requires Kept(s.transactions, t.transactions)
    ensures AlertsStand(s.alerts, u.alerts, s.transactions)
  {
    forall id | id in u.alerts && id !in s.alerts ensures u.alerts[id].transaction !in s.transactions {
      assert id in t.alerts ==> SameButClosure(t.alerts[id], u.alerts[id]);
    }
  }

  lemma {:induction false} CasesStandOn(s: State, t: State, u: State)
    requires CasesStand(s.cases, t.cases, s.alerts) && CasesStand(t.cases, u.cases, t.alerts)
    requires AlertsStand(s.alerts, t.alerts, s.transactions)
    ensures CasesStand(s.cases, u.cases, s.alerts)
  {
  }

  lemma {:induction false} StandsOn(s: State, t: State, u: State)
    requires Stands(s, t) && Stands(t, u)
    ensures Stands(s, u)
  {
    LogsGrowOn(s, t, u);
    RecordsStandOn(s, t, u);
    AlertsStandOn(s, t, u);
    CasesStandOn(s, t, u);
  }

  // ---------- each operation ----------

  lemma {:induction false} AppendGrows(events: map<ID, Log>, e: Event)
    ensures forall id :: LogOf(events, id) <= LogOf(Appended(events, e), id)
  {
  }

  lemma {:induction false} AllAppendGrows(events: map<ID, Log>, es: seq<Event>)
    ensures forall id :: LogOf(events, id) <= LogOf(AllAppended(events, es), id)
  {
    if es != [] {
      AllAppendGrows(events, es[..|es| - 1]);
      AppendGrows(AllAppended(events, es[..|es| - 1]), es[|es| - 1]);
    }
  }

  lemma {:induction false} WithAlertsAdds(alerts: map<ID, Alert>, added: seq<Alert>)
    requires forall i :: 0 <= i < |added| ==> added[i].id !in alerts
    ensures forall id :: id in alerts ==> id in WithAlerts(alerts, added) && WithAlerts(alerts, added)[id] == alerts[id]
    ensures forall id :: id in WithAlerts(alerts, added) && id !in alerts ==> WithAlerts(alerts, added)[id] in added
  {
    if added != [] {
      WithAlertsAdds(alerts, added[..|added| - 1]);
    }
  }

  lemma {:induction false} WithMatchesAdds(matches: map<ID, Match>, added: seq<Match>)
    requires forall i :: 0 <= i < |added| ==> added[i].id !in matches
    ensures forall id :: id in matches ==>
            id in WithMatches(matches, added) && WithMatches(matches, added)[id] == matches[id]
  {
    if added != [] {
      WithMatchesAdds(matches, added[..|added| - 1]);
    }
  }

  lemma {:induction false} ReviewCustomerStands(s: State, id: ID, decision: Decision, actor: string, e: Event)
    ensures Stands(s, ReviewCustomer(s, id, decision, actor, e).state)
  {
    Stationary(s);
    AppendGrows(s.events, e);
  }

  lemma {:induction false} MatchPutStands(m: map<ID, Match>, id: ID, v: Match)
    requires id in m && m[id].status == Potential
    ensures MatchesStand(m, m[id := v])
  {
  }

  lemma {:induction false} DispositionMatchStands(s: State, id: ID, status: MatchStatus, reason: string,
                                                  actor: string, e: Event)
    ensures Stands(s, DispositionMatch(s, id, status, reason, actor, e).state)
  {
    Stationary(s);
    var result := DispositionMatch(s, id, status, reason, actor, e);
    if result.answer == Done {
      AppendGrows(s.events, e.(aggregate := s.matches[id].customer));
      MatchPutStands(s.matches, id, result.state.matches[id]);
    }
  }

  lemma {:induction false} QuietStands(s: State, t: State, e: Event)
    requires Quiet(s, t, e)
    ensures Stands(s, t)
  {
    Stationary(s);
    AppendGrows(s.events, e);
  }

  lemma {:induction false} ClosureStands(m: map<ID, Alert>, id: ID, actor: string, reason: string, at: Time,
                                         transactions: map<ID, Transaction>)
    requires id in m && m[id].status == AlertOpen
    ensures AlertsStand(m, m[id := Closed(m[id], actor, reason, at)], transactions)
  {
  }

  lemma {:induction false} CloseAlertStands(s: State, id: ID, actor: string, reason: string, e: Event)
    ensures Stands(s, CloseAlert(s, id, actor, reason, e).state)
  {
    Stationary(s);
    if CloseAlert(s, id, actor, reason, e).answer == Done {
      AppendGrows(s.events, e);
      ClosureStands(s.alerts, id, actor, reason, e.occurredAt, s.transactions);
    }
  }

  lemma {:induction false} CasePutStands(m: map<ID, Case>, id: ID, v: Case, alerts: map<ID, Alert>)
    requires id in m && m[id].status != CaseResolved && v.alert == m[id].alert && v.customer == m[id].customer
    requires v.status == CaseResolved && v.alert in alerts ==> alerts[v.alert].status == AlertOpen
    ensures CasesStand(m, m[id := v], alerts)
  {
  }

  lemma {:induction false} AssignCaseStands(s: State, id: ID, assignee: string, e: Event)
    ensures Stands(s, AssignCase(s, id, assignee, e).state)
  {
    Stationary(s);
    var result := AssignCase(s, id, assignee, e);
    if result.answer == Done {
      AppendGrows(s.events, e);
      CasePutStands(s.cases, id, result.state.cases[id], s.alerts);
    }
  }

  lemma {:induction false} AddCaseCommentStands(s: State, id: ID, comment: Comment, e: Event)
    ensures Stands(s, AddCaseComment(s, id, comment, e).state)
  {
    Stationary(s);
    var result := AddCaseComment(s, id, comment, e);
    if result.answer == Done {
      AppendGrows(s.events, e);
      CasePutStands(s.cases, id, result.state.cases[id], s.alerts);
    }
  }

  lemma {:induction false} TwoAppendsGrow(events: map<ID, Log>, e: Event, f: Event)
    ensures forall id :: LogOf(events, id) <= LogOf(Appended(Appended(events, e), f), id)
  {
    AppendGrows(events, e);
    AppendGrows(Appended(events, e), f);
  }

  lemma {:induction false} ResolveCaseStands(s: State, id: ID, resolution: string, actor: string, caseEvent: Event,
                                             alertEvent: Event)
    ensures Stands(s, ResolveCase(s, id, resolution, actor, caseEvent, alertEvent).state)
  {
    Stationary(s);
    var result := ResolveCase(s, id, resolution, actor, caseEvent, alertEvent);
    if result.answer == Done {
      var alert := s.cases[id].alert;
      TwoAppendsGrow(s.events, caseEvent, alertEvent.(aggregate := alert));
      ClosureStands(s.alerts, alert, actor, resolution, caseEvent.occurredAt, s.transactions);
      CasePutStands(s.cases, id, Resolved(s.cases[id], resolution, actor, caseEvent.occurredAt), s.alerts);
    }
  }

  lemma {:induction false} CreateCustomerStands(s: State, customer: Customer, e: Event)
    requires Fresh(s, customer.id)
    ensures Stands(s, CreateCustomer(s, customer, e).state)
  {
    Stationary(s);
    AppendGrows(s.events, e);
  }

  lemma {:induction false} CreateCaseStands(s: State, item: Case, e: Event)
    requires Fresh(s, item.id)
    ensures Stands(s, CreateCase(s, item, e).state)
  {
    Stationary(s);
    AppendGrows(s.events, e);
  }

  lemma {:induction false} RaisingGrows(events: map<ID, Log>, e: Event, es: seq<Event>)
    ensures forall id :: LogOf(events, id) <= LogOf(AllAppended(Appended(events, e), es), id)
  {
    AppendGrows(events, e);
    AllAppendGrows(Appended(events, e), es);
  }

  lemma {:induction false} RaisingStands(alerts: map<ID, Alert>, added: seq<Alert>, transactions: map<ID, Transaction>)
    requires forall i :: 0 <= i < |added| ==> added[i].id !in alerts && added[i].transaction !in transactions
    ensures AlertsStand(alerts, WithAlerts(alerts, added), transactions)
  {
    WithAlertsAdds(alerts, added);
  }

  lemma {:induction false} CreateTransactionStands(s: State, t: Transaction, e: Event, alerts: seq<Alert>,
                                                   es: seq<Event>)
    requires Fresh(s, t.id) && KeysGood(s)
    requires forall i :: 0 <= i < |alerts| ==> Fresh(s, alerts[i].id) && alerts[i].transaction == t.id
    ensures Stands(s, CreateTransaction(s, t, e, alerts, es).state)
  {
    Stationary(s);
    if CreateTransaction(s, t, e, alerts, es).answer.Created? {
      RaisingGrows(s.events, e, es);
      RaisingStands(s.alerts, alerts, s.transactions);
    }
  }

  lemma {:induction false} SaveScreeningStands(s: State, batch: Fanout.Batch)
    requires forall i :: 0 <= i < |batch.matches| ==> Fresh(s, batch.matches[i].id)
    ensures Stands(s, SaveScreening(s, batch).state)
  {
    Stationary(s);
    AllAppendGrows(s.events, batch.events);
    WithMatchesAdds(s.matches, batch.matches);
  }

  // ---------- each request, each run ----------

  lemma {:induction false} ScreenStands(s: State, c: Call)
    requires c.request.Screen?
    requires forall k: nat :: Fresh(s, ID(c.serial, k))
    ensures Stands(s, Perform(s, c).state)
  {
    if Perform(s, c).answer == Done {
      var batch := ScreenedBatch(s, {c.serial}, c);
      SaveScreeningStands(s, batch);
    } else {
      Stationary(s);
    }
  }

  lemma {:induction false} IngestStands(s: State, c: Call)
    requires c.request.Ingest? && KeysGood(s)
    requires forall k: nat :: Fresh(s, ID(c.serial, k))
    ensures Stands(s, Perform(s, c).state)
  {
    var cmd := Normalized(c.request.cmd);
    if ValidIngest(cmd) {
      var t := NewTransaction(c, cmd);
      CreateTransactionStands(s, t,
                              Event(ID(c.serial, 1), TransactionAggregate, t.id, cmd.actor, c.now,
                                    Ingested(t.customer, t.amountMinor)),
                              NewAlerts(c, t, Findings(t)), NewAlertEvents(c, t, Findings(t)));
    }
  }

  lemma {:induction false} OnboardStands(s: State, c: Call)
    requires c.request.Onboard? && Fresh(s, ID(c.serial, 0))
    ensures Stands(s, Perform(s, c).state)
  {
    var r := c.request;
    var customer := Customer(ID(c.serial, 0), Trim(r.legalName), Upper(Trim(r.countryCode)), PendingApproval,
                             Trim(r.actor), c.now, "", None);
    CreateCustomerStands(s, customer,
                         Event(ID(c.serial, 1), CustomerAggregate, customer.id, Trim(r.actor), c.now, Submitted));
    Stationary(s);
  }

  lemma {:induction false} OpenCaseStands(s: State, c: Call)
    requires c.request.OpenCase? && Fresh(s, ID(c.serial, 0))
    ensures Stands(s, Perform(s, c).state)
  {
    var r := c.request;
    var item := Case(ID(c.serial, 0), r.alert, Blank, Trim(r.title), r.priority, CaseOpen, "", "", Trim(r.actor),
                     c.now, c.now, "", None);
    CreateCaseStands(s, item,
                     Event(ID(c.serial, 1), CaseAggregate, item.id, Trim(r.actor), c.now,
                     CaseCreated(r.alert, r.priority)));
    Stationary(s);
  }

  lemma {:induction false} AssignStands(s: State, c: Call)
    requires c.request.Assign?
    ensures Stands(s, Perform(s, c).state)
  {
    var r := c.request;
    Stationary(s);
    AssignCaseStands(s, r.case_, Trim(r.assignee),
                     Event(ID(c.serial, 0), CaseAggregate, r.case_, Trim(r.actor), c.now,
                           CaseAssigned(Trim(r.assignee))));
  }

  lemma {:induction false} CommentStands(s: State, c: Call)
    requires c.request.AddComment?
    ensures Stands(s, Perform(s, c).state)
  {
    var r := c.request;
    Stationary(s);
    var comment := Comment(ID(c.serial, 0), Trim(r.actor), Trim(r.body), c.now);
    AddCaseCommentStands(s, r.case_, comment,
                         Event(ID(c.serial, 1), CaseAggregate, r.case_, Trim(r.actor), c.now,
                         CaseCommented(comment.id)));
  }

  lemma {:induction false} ResolveStands(s: State, c: Call)
    requires c.request.Resolve?
    ensures Stands(s, Perform(s, c).state)
  {
    var r := c.request;
    Stationary(s);
    ResolveCaseStands(s, r.case_, Trim(r.resolution), Trim(r.actor),
                      Event(ID(c.serial, 0), CaseAggregate, r.case_, Trim(r.actor), c.now,
                            CaseResolution(Trim(r.resolution))),
                      Event(ID(c.serial, 1), AlertAggregate, Blank, Trim(r.actor), c.now,
                            AlertClosure(Trim(r.resolution), true)));
  }

  lemma {:induction false} ReviewStands(s: State, c: Call)
    requires c.request.Review?
    ensures Stands(s, Perform(s, c).state)
  {
    var r := c.request;
    Stationary(s);
    ReviewCustomerStands(s, r.customer, r.decision, Trim(r.actor),
                         Event(ID(c.serial, 0), CustomerAggregate, r.customer, Trim(r.actor), c.now,
                               Reviewed(r.decision == Approve, Trim(r.reason))));
  }

  lemma {:induction false} CloseStands(s: State, c: Call)
    requires c.request.Close?
    ensures Stands(s, Perform(s, c).state)
  {
    var r := c.request;
    Stationary(s);
    CloseAlertStands(s, r.alert, Trim(r.actor), Trim(r.reason),
                     Event(ID(c.serial, 0), AlertAggregate, r.alert, Trim(r.actor), c.now,
                           AlertClosure(Trim(r.reason), false)));
  }

  lemma {:induction false} DispositionStands(s: State, c: Call)
    requires c.request.Disposition?
    ensures Stands(s, Perform(s, c).state)
  {
    var r := c.request;
    Stationary(s);
    DispositionMatchStands(s, r.match_, r.status, Trim(r.reason), Trim(r.actor),
                           Event(ID(c.serial, 0), CustomerAggregate, Blank, Trim(r.actor), c.now,
                                 MatchDisposition(r.match_, r.status, Trim(r.reason))));
  }

  /** The event of a request that changes no record the statements above are about. */
  function QuietEvent(c: Call): Event
    requires c.request.Configure? || c.request.UpdateDueDiligence?
  {
    var r := c.request;
    if r.Configure? then
      var row := Schedules.Configured(None, r.enabled, r.hours, Trim(r.actor), c.now);
      Event(ID(c.serial, 0), CustomerAggregate, r.customer, Trim(r.actor), c.now,
            ScheduleUpdated(r.enabled, r.hours, row.nextRunAt))
    else Event(ID(c.serial, 0), CustomerAggregate, r.customer, r.actor, c.now, DueDiligenceUpdated)
  }

  ghost predicate Quiet(s: State, t: State, e: Event) {
    && t == s.(comments := t.comments, schedules := t.schedules, events := t.events)
    && (t.events == s.events || t.events == Appended(s.events, e))
  }

  lemma {:induction false} ConfigureIsQuiet(s: State, c: Call)
    requires c.request.Configure?
    ensures Quiet(s, Perform(s, c).state, QuietEvent(c))
  {
  }

  lemma {:induction false} DueDiligenceIsQuiet(s: State, c: Call)
    requires c.request.UpdateDueDiligence?
    ensures Quiet(s, Perform(s, c).state, QuietEvent(c))
  {
  }

  lemma {:induction false} WorkerStands(s: State, c: Call)
    requires c.request.ClaimDue? || c.request.CompleteRun?
    ensures Stands(s, Perform(s, c).state)
  {
    QuietStands(s, Perform(s, c).state, Event(Blank, CustomerAggregate, Blank, "", 0, Submitted));
  }

  lemma {:induction false} CreatingStands(s: State, c: Call)
    requires KeysGood(s) && forall k: nat :: Fresh(s, ID(c.serial, k))
    requires c.request.Screen? || c.request.Ingest? || c.request.Onboard? || c.request.OpenCase?
    ensures Stands(s, Perform(s, c).state)
  {
    match c.request
    case Screen(_, _, _, _, _, _) => ScreenStands(s, c);
    case Ingest(_) => IngestStands(s, c);
    case Onboard(_, _, _, _, _) => OnboardStands(s, c);
    case OpenCase(_, _, _, _) => OpenCaseStands(s, c);
  }

  lemma {:induction false} CaseworkStands(s: State, c: Call)
    requires c.request.Assign? || c.request.AddComment? || c.request.Resolve?
    ensures Stands(s, Perform(s, c).state)
  {
    match c.request
    case Assign(_, _, _) => AssignStands(s, c);
    case AddComment(_, _, _) => CommentStands(s, c);
    case Resolve(_, _, _) => ResolveStands(s, c);
  }

  lemma {:induction false} ReviewingStands(s: State, c: Call)
    requires c.request.Review? || c.request.Close? || c.request.Disposition?
    ensures Stands(s, Perform(s, c).state)
  {
    match c.request
    case Review(_, _, _, _) => ReviewStands(s, c);
    case Close(_, _, _) => CloseStands(s, c);
    case Disposition(_, _, _, _) => DispositionStands(s, c);
  }

  lemma {:induction false} PerformStands(s: State, used: set<nat>, c: Call)
    requires Inv(s, used) && c.serial !in used
    ensures Stands(s, Perform(s, c).state)
  {
    Widen(s, used, c.serial);
    var r := c.request;
    if r.Screen? || r.Ingest? || r.Onboard? || r.OpenCase? {
      CreatingStands(s, c);
    } else if r.Assign? || r.AddComment? || r.Resolve? {
      CaseworkStands(s, c);
    } else if r.Review? || r.Close? || r.Disposition? {
      ReviewingStands(s, c);
    } else if r.Configure? {
      ConfigureIsQuiet(s, c);
      QuietStands(s, Perform(s, c).state, QuietEvent(c));
    } else if r.UpdateDueDiligence? {
      DueDiligenceIsQuiet(s, c);
      QuietStands(s, Perform(s, c).state, QuietEvent(c));
    } else {
      WorkerStands(s, c);
    }
  }

  lemma {:induction false} ExecStands(s: State, used: set<nat>, history: seq<Call>)
    requires Inv(s, used) && FreshAfter(used, history)
    ensures Stands(s, Exec(s, history))
  {
    if history == [] {
      Stationary(s);
    } else {
      var before, c := history[..|history| - 1], history[|history| - 1];
      ExecStands(s, used, before);
      InvOver(s, used, before);
      PerformStands(Exec(s, before), used + Serials(before), c);
      StandsOn(s, Exec(s, before), Exec(s, history));
    }
  }

  lemma {:induction false} RestIsFresh(past: seq<Call>, rest: seq<Call>)
    requires FreshIDs(past + rest)
    ensures FreshIDs(past) && FreshAfter(Serials(past), rest)
  {
    var history := past + rest;
    forall i, j | 0 <= i < j < |past| ensures past[i].serial != past[j].serial {
      assert history[i] == past[i] && history[j] == past[j];
    }
    forall i, j | 0 <= i < j < |rest| ensures rest[i].serial != rest[j].serial {
      assert history[|past| + i] == rest[i] && history[|past| + j] == rest[j];
    }
    forall k | 0 <= k < |rest| ensures rest[k].serial !in Serials(past) {
      forall i | 0 <= i < |past| ensures past[i].serial != rest[k].serial {
        assert history[i] == past[i] && history[|past| + k] == rest[k];
      }
    }
  }

  lemma {:induction false} StandsLater(past: seq<Call>, rest: seq<Call>)
    requires FreshIDs(past + rest)
    ensures Stands(Exec(EMPTY, past), Exec(EMPTY, past + rest))
  {
    RestIsFresh(past, rest);
    InvAlways(past);
    ExecStands(Exec(EMPTY, past), Serials(past), rest);
    ExecAppend(EMPTY, past, rest);
  }

  /** Whatever was settled at some point of a run is settled the same way at its end. */
  lemma {:induction false} PastStands(history: seq<Call>, i: nat)
    requires FreshIDs(history) && i <= |history|
    ensures Stands(Exec(EMPTY, history[..i]), Exec(EMPTY, history))
  {
    assert history[..i] + history[i..] == history;
    StandsLater(history[..i], history[i..]);
  }

  // ---------- calls without effect ----------

  function AnswerAt(history: seq<Call>, k: nat): Answer
    requires k < |history|
  {
    Perform(Exec(EMPTY, history[..k]), history[k]).answer
  }

  /** The run with every ingest left out that was answered as a replay, a conflict or an error. */
  function WithoutIdleIngests(history: seq<Call>): seq<Call> {
    if history == [] then []
    else
      var n := |history| - 1;
      WithoutIdleIngests(history[..n]) +
      (if history[n].request.Ingest? && NoEffect(AnswerAt(history, n)) then [] else [history[n]])
  }

  lemma {:induction false} IdleIngestsLeaveNoTrace(history: seq<Call>)
    ensures Exec(EMPTY, WithoutIdleIngests(history)) == Exec(EMPTY, history)
  {
    if history != [] {
      var n := |history| - 1;
      var s, c := Exec(EMPTY, history[..n]), history[n];
      IdleIngestsLeaveNoTrace(history[..n]);
      if c.request.Ingest? && NoEffect(AnswerAt(history, n)) {
        assert WithoutIdleIngests(history) == WithoutIdleIngests(history[..n]);
      } else {
        Exec1(EMPTY, WithoutIdleIngests(history[..n]), c);
      }
    }
  }
}

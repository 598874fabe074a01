/**
 What every run of the compliance store keeps: each entity is the replay of its log, and the
 entities agree with each other.
 */
module Invariants {
  import opened Durations
  import opened Domain
  import opened Store
  import opened Compliance
  import Fanout
  import Replay
  import Schedules

  // ---------- the invariant, entity by entity ----------

  function ViewOfCustomer(c: Customer): Replay.CustomerView {
    Replay.CustomerView(c.status, c.createdBy, c.reviewedBy, c.reviewedAt)
  }

  function ViewOfAlert(a: Alert): Replay.AlertView {
    Replay.AlertView(a.status, a.closedBy, a.closureReason, a.closedAt)
  }

  function ViewOfCase(c: Case): Replay.CaseView {
    Replay.CaseView(c.alert, c.priority, c.status, c.assignedTo, c.resolution, c.createdBy, c.createdAt, c.updatedAt,
                    c.resolvedBy, c.resolvedAt)
  }

  function ViewOfMatch(m: Match): Replay.MatchView {
    Replay.MatchView(m.status, m.reviewedBy, m.reviewedAt, m.dispositionReason)
  }

  function ViewOfSchedule(row: Schedules.Schedule): Replay.ScheduleView {
    Replay.ScheduleView(row.enabled, row.intervalHours)
  }

  /** A reviewed customer was reviewed by someone other than its creator. */
  ghost predicate CustomerGood(s: State, id: ID)
    requires id in s.customers
  {
    var c := s.customers[id];
    && c.id == id
    && Replay.CustomerOf(LogOf(s.events, id)) == Some(ViewOfCustomer(c))
    && (c.status != PendingApproval ==> c.reviewedBy != c.createdBy)
  }

  ghost predicate TransactionGood(s: State, id: ID)
    requires id in s.transactions
  {
    var t := s.transactions[id];
    && t.id == id
    && t.customer in s.customers && s.customers[t.customer].status == Active
    && t.idempotencyKey in s.idempotency && s.idempotency[t.idempotencyKey] == id
  }

  ghost predicate AlertGood(s: State, id: ID)
    requires id in s.alerts
  {
    var a := s.alerts[id];
    && a.id == id
    && a.transaction in s.transactions && s.transactions[a.transaction].customer == a.customer
    && Replay.AlertOf(LogOf(s.events, id)) == Some(ViewOfAlert(a))
  }

  /** A resolved case closed its alert: same person, same words, same instant. */
  predicate ClosedByCase(a: Alert, c: Case) {
    a.status == AlertClosed && a.closedBy == c.resolvedBy && a.closureReason == c.resolution
        && a.closedAt == c.resolvedAt
  }

  /** When the last event of a log occurred. */
  function LastTime(log: Log): Time {
    if log == [] then 0 else log[|log| - 1].occurredAt
  }

  ghost predicate CaseGood(s: State, id: ID)
    requires id in s.cases
  {
    var c := s.cases[id];
    && c.id == id
    && c.alert in s.alerts && s.alerts[c.alert].customer == c.customer
    && Replay.CaseOf(LogOf(s.events, id)) == Some(ViewOfCase(c))
    && c.updatedAt == LastTime(LogOf(s.events, id))
    && (c.status == CaseResolved ==> ClosedByCase(s.alerts[c.alert], c))
  }

  ghost predicate MatchGood(s: State, id: ID)
    requires id in s.matches
  {
    var m := s.matches[id];
    && m.id == id
    && m.customer in s.customers
    && Replay.MatchOf(LogOf(s.events, m.customer), id) == ViewOfMatch(m)
  }

  ghost predicate ScheduleGood(s: State, id: ID)
    requires id in s.schedules
  {
    id in s.customers && Replay.ScheduleOf(LogOf(s.events, id)) == Some(ViewOfSchedule(s.schedules[id]))
  }

  ghost predicate LogGood(s: State, id: ID)
    requires id in s.events
  {
    forall i :: 0 <= i < |s.events[id]| ==>
      && s.events[id][i].aggregate == id
      && (s.events[id][i].detail.MatchDisposition? ==> s.events[id][i].detail.match_ in s.matches)
  }

  predicate Issued(id: ID, used: set<nat>) {
    id.ID? && id.request in used
  }

  /** Every identifier was issued, and no two kinds of entity share one. */
  ghost predicate IDsGood(s: State, used: set<nat>) {
    && (forall id :: id in s.customers ==>
        Issued(id, used) && id !in s.transactions && id !in s.alerts && id !in s.cases)
    && (forall id :: id in s.transactions ==> Issued(id, used) && id !in s.alerts && id !in s.cases)
    && (forall id :: id in s.alerts ==> Issued(id, used) && id !in s.cases)
    && (forall id :: id in s.cases ==> Issued(id, used))
    && (forall id :: id in s.matches ==>
          Issued(id, used) && id !in s.customers && id !in s.transactions && id !in s.alerts && id !in s.cases)
    && (forall id :: id in s.events ==> Issued(id, used))
  }

  ghost predicate OneCasePerAlert(s: State) {
    forall c1, c2 :: c1 in s.cases && c2 in s.cases && s.cases[c1].alert == s.cases[c2].alert ==> c1 == c2
  }

  ghost predicate EntityGood(s: State, x: ID) {
    && (x in s.customers ==> CustomerGood(s, x))
    && (x in s.transactions ==> TransactionGood(s, x))
    && (x in s.alerts ==> AlertGood(s, x))
    && (x in s.cases ==> CaseGood(s, x))
    && (x in s.matches ==> MatchGood(s, x))
    && (x in s.schedules ==> ScheduleGood(s, x))
  }

  predicate IsEntity(s: State, x: ID) {
    x in s.customers || x in s.transactions || x in s.alerts || x in s.cases
  }

  ghost predicate GoodAt(s: State, x: ID) {
    EntityGood(s, x) && (x in s.events ==> LogGood(s, x) && IsEntity(s, x))
  }

  ghost predicate KeysGood(s: State) {
    forall key {:trigger s.idempotency[key]} :: key in s.idempotency ==> s.idempotency[key] in s.transactions
  }

  ghost predicate EntitiesGood(s: State) {
    (forall x {:trigger GoodAt(s, x)} :: GoodAt(s, x)) && KeysGood(s) && OneCasePerAlert(s)
  }

  ghost predicate Inv(s: State, used: set<nat>) {
    IDsGood(s, used) && EntitiesGood(s)
  }

  // ---------- what an entity's goodness depends on ----------

  lemma {:induction false} LogAfter(events: map<ID, Log>, e: Event, id: ID)
    ensures LogOf(Appended(events, e), id) == if id == e.aggregate then LogOf(events, id) + [e] else LogOf(events, id)
  {
  }

  lemma {:induction false} CustomerFrame(s: State, t: State, e: Event, id: ID)
    requires id in s.customers && CustomerGood(s, id)
    requires id in t.customers && t.customers[id] == s.customers[id]
    requires t.events == Appended(s.events, e)
    requires e.aggregate == id ==> !e.detail.Submitted? && !e.detail.Reviewed?
    ensures CustomerGood(t, id)
  {
    LogAfter(s.events, e, id);
    Replay.Append(LogOf(s.events, id), e);
  }

  lemma {:induction false} TransactionFrame(s: State, t: State, id: ID)
    requires id in s.transactions && TransactionGood(s, id)
    requires id in t.transactions && t.transactions[id] == s.transactions[id]
    requires var c := s.transactions[id].customer; c in t.customers && t.customers[c].status == Active
    requires var k := s.transactions[id].idempotencyKey; k in t.idempotency && t.idempotency[k] == s.idempotency[k]
    ensures TransactionGood(t, id)
  {
  }

  lemma {:induction false} AlertFrame(s: State, t: State, e: Event, id: ID)
    requires id in s.alerts && AlertGood(s, id)
    requires id in t.alerts && t.alerts[id] == s.alerts[id]
    requires s.alerts[id].transaction in t.transactions
    requires t.transactions[s.alerts[id].transaction] == s.transactions[s.alerts[id].transaction]
    requires t.events == Appended(s.events, e)
    requires e.aggregate == id ==> !e.detail.AlertRaised? && !e.detail.AlertClosure?
    ensures AlertGood(t, id)
  {
    LogAfter(s.events, e, id);
    Replay.Append(LogOf(s.events, id), e);
  }

  lemma {:induction false} CaseFrame(s: State, t: State, e: Event, id: ID)
    requires id in s.cases && CaseGood(s, id)
    requires id in t.cases && t.cases[id] == s.cases[id]
    requires s.cases[id].alert in t.alerts
    requires var a := s.cases[id].alert;
             t.alerts[a] == s.alerts[a]
                 || (s.alerts[a].status == AlertOpen && t.alerts[a].customer == s.alerts[a].customer)
    requires t.events == Appended(s.events, e)
    requires e.aggregate != id
    ensures CaseGood(t, id)
  {
    LogAfter(s.events, e, id);
    Replay.Append(LogOf(s.events, id), e);
  }

  lemma {:induction false} MatchFrame(s: State, t: State, e: Event, id: ID)
    requires id in s.matches && MatchGood(s, id)
    requires id in t.matches && t.matches[id] == s.matches[id]
    requires s.matches[id].customer in t.customers
    requires t.events == Appended(s.events, e)
    requires e.aggregate == s.matches[id].customer ==> !(e.detail.MatchDisposition? && e.detail.match_ == id)
    ensures MatchGood(t, id)
  {
    LogAfter(s.events, e, s.matches[id].customer);
    Replay.Append(LogOf(s.events, s.matches[id].customer), e);
  }

  lemma {:induction false} ScheduleFrame(s: State, t: State, e: Event, id: ID)
    requires id in s.schedules && ScheduleGood(s, id)
    requires id in t.schedules && ViewOfSchedule(t.schedules[id]) == ViewOfSchedule(s.schedules[id])
    requires id in t.customers
    requires t.events == Appended(s.events, e)
    requires e.aggregate == id ==> !e.detail.ScheduleUpdated?
    ensures ScheduleGood(t, id)
  {
    LogAfter(s.events, e, id);
    Replay.Append(LogOf(s.events, id), e);
  }

  lemma {:induction false} LogFrame(s: State, t: State, e: Event, id: ID)
    requires id in t.events && (id in s.events ==> LogGood(s, id))
    requires t.events == Appended(s.events, e)
    requires s.matches.Keys <= t.matches.Keys
    requires e.detail.MatchDisposition? ==> e.detail.match_ in t.matches
    ensures LogGood(t, id)
  {
    LogAfter(s.events, e, id);
  }

  // ---------- one step that touches one entity ----------

  /** Only the entry of x may differ, and no entry is lost. */
  ghost predicate Only<T>(m: map<ID, T>, m': map<ID, T>, x: ID) {
    && m.Keys <= m'.Keys <= m.Keys + {x}
    && (forall id {:trigger m'[id]} :: id in m && id != x ==> m'[id] == m[id])
  }

  /** A step that appends one event and otherwise touches only the entity x, which the event is about. */
  ghost predicate Touches(s: State, t: State, e: Event, x: ID) {
    && Only(s.customers, t.customers, x) && Only(s.transactions, t.transactions, x) && Only(s.alerts, t.alerts, x)
    && Only(s.cases, t.cases, x) && Only(s.matches, t.matches, x) && Only(s.schedules, t.schedules, x)
    && t.events == Appended(s.events, e)
    && (e.aggregate == x || (e.aggregate !in s.cases && e.detail.MatchDisposition?))
    && IsEntity(t, e.aggregate)
    && (e.detail.MatchDisposition? ==> e.detail.match_ == x && x in t.matches)
  }

  /** What the rest of the store relies on about x did not get worse. */
  ghost predicate Compatible(s: State, t: State, x: ID) {
    && (x in s.customers && s.customers[x].status == Active ==> x in t.customers && t.customers[x].status == Active)
    && (x in s.transactions ==> x in t.transactions && t.transactions[x] == s.transactions[x])
    && (x in s.alerts ==>
          && x in t.alerts
          && (t.alerts[x] == s.alerts[x]
              || (s.alerts[x].status == AlertOpen && t.alerts[x].customer == s.alerts[x].customer)))
    && (x in t.cases ==> forall c :: c in s.cases && s.cases[c].alert == t.cases[x].alert ==> c == x)
  }

  ghost predicate KeysKept(s: State, t: State, x: ID) {
    || t.idempotency == s.idempotency
    || (x in t.transactions && t.transactions[x].idempotencyKey !in s.idempotency
        && t.idempotency == s.idempotency[t.transactions[x].idempotencyKey := x])
  }

  lemma {:induction false} GoodEverywhere(s: State, x: ID)
    requires EntitiesGood(s)
    ensures GoodAt(s, x)
  {
  }

  lemma {:induction false} PartyFrame(s: State, t: State, e: Event, x: ID, id: ID)
    requires GoodAt(s, id) && Touches(s, t, e, x) && id != x
    ensures id in t.customers ==> CustomerGood(t, id)
    ensures id in t.schedules ==> ScheduleGood(t, id)
  {
    if id in t.customers {
      CustomerFrame(s, t, e, id);
    }
    if id in t.schedules {
      ScheduleFrame(s, t, e, id);
    }
  }

  lemma {:induction false} PaymentFrame(s: State, t: State, e: Event, x: ID, id: ID)
    requires GoodAt(s, id) && Touches(s, t, e, x) && id != x && Compatible(s, t, x) && KeysKept(s, t, x)
    ensures id in t.transactions ==> TransactionGood(t, id)
    ensures id in t.alerts ==> AlertGood(t, id)
  {
    if id in t.transactions {
      TransactionFrame(s, t, id);
    }
    if id in t.alerts {
      AlertFrame(s, t, e, id);
    }
  }

  lemma {:induction false} InquiryFrame(s: State, t: State, e: Event, x: ID, id: ID)
    requires GoodAt(s, id) && Touches(s, t, e, x) && id != x && Compatible(s, t, x)
    ensures id in t.cases ==> CaseGood(t, id)
    ensures id in t.matches ==> MatchGood(t, id)
  {
    if id in t.cases {
      assert s.cases[id].alert != x ==> t.alerts[s.cases[id].alert] == s.alerts[s.cases[id].alert];
      CaseFrame(s, t, e, id);
    }
    if id in t.matches {
      MatchFrame(s, t, e, id);
    }
  }

  lemma {:induction false} OneCaseFrame(s: State, t: State, x: ID)
    requires OneCasePerAlert(s) && Only(s.cases, t.cases, x) && Compatible(s, t, x)
    ensures OneCasePerAlert(t)
  {
    forall c1, c2 | c1 in t.cases && c2 in t.cases && t.cases[c1].alert == t.cases[c2].alert ensures c1 == c2 {
      assert c1 != x ==> t.cases[c1] == s.cases[c1];
      assert c2 != x ==> t.cases[c2] == s.cases[c2];
    }
  }

  lemma {:induction false} KeysFrame(s: State, t: State, x: ID)
    requires KeysGood(s) && Only(s.transactions, t.transactions, x) && KeysKept(s, t, x)
    ensures KeysGood(t)
  {
  }

  lemma {:induction false} LogPlaceFrame(s: State, t: State, e: Event, x: ID, id: ID)
    requires GoodAt(s, id) && Touches(s, t, e, x) && id in t.events
    ensures LogGood(t, id) && IsEntity(t, id)
  {
    LogFrame(s, t, e, id);
  }

  lemma {:induction false} PlaceFrame(s: State, t: State, e: Event, x: ID, id: ID)
    requires GoodAt(s, id) && Touches(s, t, e, x) && EntityGood(t, x) && Compatible(s, t, x) && KeysKept(s, t, x)
    ensures GoodAt(t, id)
  {
    if id != x {
      PartyFrame(s, t, e, x, id);
      PaymentFrame(s, t, e, x, id);
      InquiryFrame(s, t, e, x, id);
    }
    if id in t.events {
      LogPlaceFrame(s, t, e, x, id);
    }
  }

  /** So a step keeps the invariant once the one entity it touches is good afterwards. */
  lemma {:induction false} StepKeeps(s: State, t: State, used: set<nat>, e: Event, x: ID)
    requires Inv(s, used) && Touches(s, t, e, x) && EntityGood(t, x) && Compatible(s, t, x) && KeysKept(s, t, x)
    requires IDsGood(t, used)
    ensures Inv(t, used)
  {
    OneCaseFrame(s, t, x);
    KeysFrame(s, t, x);
    forall id ensures GoodAt(t, id) {
      GoodEverywhere(s, id);
      PlaceFrame(s, t, e, x, id);
    }
  }

  // ---------- each operation keeps it ----------

  /** No entity and no log goes by this identifier. */
  predicate Fresh(s: State, id: ID) {
    id !in s.customers && id !in s.transactions && id !in s.alerts && id !in s.cases && id !in s.matches
        && id !in s.events
  }

  lemma {:induction false} CreateCustomerKeeps(s: State, used: set<nat>, c: Customer, e: Event)
    requires Inv(s, used) && Issued(c.id, used) && Fresh(s, c.id)
    requires c.status == PendingApproval && c.reviewedBy == "" && c.reviewedAt == None
    requires e.aggregate == c.id && e.detail == Submitted && e.actor == c.createdBy
    ensures Inv(CreateCustomer(s, c, e).state, used)
  {
    GoodEverywhere(s, c.id);
    Replay.Append(LogOf(s.events, c.id), e);
    StepKeeps(s, CreateCustomer(s, c, e).state, used, e, c.id);
  }

  lemma {:induction false} ReviewGood(s: State, used: set<nat>, id: ID, decision: Decision, actor: string, e: Event)
    requires IDsGood(s, used) && ReviewCustomer(s, id, decision, actor, e).answer == Done
    requires CustomerGood(s, id) && (id in s.schedules ==> ScheduleGood(s, id))
    requires e.aggregate == id && e.actor == actor && e.detail.Reviewed? && e.detail.approved == (decision == Approve)
    ensures EntityGood(ReviewCustomer(s, id, decision, actor, e).state, id)
  {
    Replay.Append(LogOf(s.events, id), e);
  }

  lemma {:induction false} ReviewTouches(s: State, used: set<nat>, id: ID, c: Customer, e: Event)
    requires IDsGood(s, used) && id in s.customers && s.customers[id].status == PendingApproval
    requires e.aggregate == id && e.detail.Reviewed?
    ensures var t := s.(customers := s.customers[id := c], events := Appended(s.events, e));
            Touches(s, t, e, id) && IDsGood(t, used) && Compatible(s, t, id) && KeysKept(s, t, id)
  {
  }

  lemma {:induction false} ReviewCustomerKeeps(s: State, used: set<nat>, id: ID, decision: Decision,
                                               actor: string, e: Event)
    requires Inv(s, used)
    requires e.aggregate == id && e.actor == actor && e.detail.Reviewed? && e.detail.approved == (decision == Approve)
    ensures Inv(ReviewCustomer(s, id, decision, actor, e).state, used)
  {
    if ReviewCustomer(s, id, decision, actor, e).answer == Done {
      GoodEverywhere(s, id);
      ReviewGood(s, used, id, decision, actor, e);
      ReviewTouches(s, used, id, ReviewCustomer(s, id, decision, actor, e).state.customers[id], e);
      StepKeeps(s, ReviewCustomer(s, id, decision, actor, e).state, used, e, id);
    }
  }

  lemma {:induction false} ClosureGood(s: State, used: set<nat>, id: ID, actor: string, reason: string, e: Event)
    requires IDsGood(s, used) && id !in s.schedules && id in s.alerts && AlertGood(s, id)
             && s.alerts[id].status == AlertOpen
    requires e.aggregate == id && e.actor == actor && e.detail.AlertClosure? && e.detail.closureReason == reason
    ensures EntityGood(CloseAlert(s, id, actor, reason, e).state, id)
  {
    Replay.Append(LogOf(s.events, id), e);
  }

  lemma {:induction false} ClosureTouches(s: State, used: set<nat>, id: ID, actor: string, reason: string, e: Event)
    requires IDsGood(s, used) && id !in s.schedules && id in s.alerts && s.alerts[id].status == AlertOpen
    requires e.aggregate == id && e.detail.AlertClosure?
    ensures var t := CloseAlert(s, id, actor, reason, e).state;
            Touches(s, t, e, id) && IDsGood(t, used) && Compatible(s, t, id) && KeysKept(s, t, id)
  {
  }

  lemma {:induction false} CloseAlertKeeps(s: State, used: set<nat>, id: ID, actor: string, reason: string, e: Event)
    requires Inv(s, used)
    requires e.aggregate == id && e.actor == actor && e.detail.AlertClosure? && e.detail.closureReason == reason
    ensures Inv(CloseAlert(s, id, actor, reason, e).state, used)
  {
    var result := CloseAlert(s, id, actor, reason, e);
    if result.answer == Done {
      GoodEverywhere(s, id);
      ClosureGood(s, used, id, actor, reason, e);
      ClosureTouches(s, used, id, actor, reason, e);
      StepKeeps(s, result.state, used, e, id);
    }
  }

  lemma {:induction false} NewCaseGood(s: State, used: set<nat>, item: Case, e: Event)
    requires IDsGood(s, used) && Issued(item.id, used) && Fresh(s, item.id) && item.id !in s.schedules
    requires item.alert in s.alerts && !HasCase(s, item.alert) && item.customer == s.alerts[item.alert].customer
    requires item.status == CaseOpen && item.assignedTo == "" && item.resolution == "" && item.resolvedBy == ""
             && item.resolvedAt == None
    requires item.createdAt == item.updatedAt == e.occurredAt && item.createdBy == e.actor
    requires e.aggregate == item.id && e.detail == CaseCreated(item.alert, item.priority)
    ensures var t := s.(cases := s.cases[item.id := item], events := Appended(s.events, e));
            && Touches(s, t, e, item.id) && IDsGood(t, used) && Compatible(s, t, item.id) && KeysKept(s, t, item.id)
            && EntityGood(t, item.id)
  {
    Replay.Append(LogOf(s.events, item.id), e);
  }

  lemma {:induction false} CreateCaseKeeps(s: State, used: set<nat>, item: Case, e: Event)
    requires Inv(s, used) && Issued(item.id, used) && Fresh(s, item.id)
    requires item.status == CaseOpen && item.assignedTo == "" && item.resolution == "" && item.resolvedBy == ""
             && item.resolvedAt == None
    requires item.createdAt == item.updatedAt == e.occurredAt && item.createdBy == e.actor
    requires e.aggregate == item.id && e.detail == CaseCreated(item.alert, item.priority)
    ensures Inv(CreateCase(s, item, e).state, used)
  {
    var result := CreateCase(s, item, e);
    if result.answer == Done {
      NoScheduleWithoutCustomer(s, item.id);
      NewCaseGood(s, used, item.(customer := s.alerts[item.alert].customer), e);
      StepKeeps(s, result.state, used, e, item.id);
    }
  }

  /** A case changed the way its event says. */
  ghost predicate CaseUpdate(s: State, t: State, id: ID, e: Event) {
    && id in s.cases && id in t.cases
    && t == s.(cases := s.cases[id := t.cases[id]], comments := t.comments, events := Appended(s.events, e))
    && t.cases[id].id == s.cases[id].id && t.cases[id].alert == s.cases[id].alert
        && t.cases[id].customer == s.cases[id].customer
    && e.aggregate == id && !e.detail.MatchDisposition? && t.cases[id].updatedAt == e.occurredAt
    && Some(ViewOfCase(t.cases[id])) == Replay.CaseStep(Some(ViewOfCase(s.cases[id])), e)
  }

  lemma {:induction false} CaseUpdateTouches(s: State, t: State, used: set<nat>, id: ID, e: Event)
    requires IDsGood(s, used) && OneCasePerAlert(s) && id !in s.schedules && CaseUpdate(s, t, id, e)
    ensures Touches(s, t, e, id) && IDsGood(t, used) && Compatible(s, t, id) && KeysKept(s, t, id)
  {
  }

  lemma {:induction false} CaseUpdateGood(s: State, t: State, used: set<nat>, id: ID, e: Event)
    requires IDsGood(s, used) && id !in s.schedules && CaseUpdate(s, t, id, e) && CaseGood(s, id)
    requires t.cases[id].status == CaseResolved ==> ClosedByCase(s.alerts[t.cases[id].alert], t.cases[id])
    ensures EntityGood(t, id)
  {
    Replay.Append(LogOf(s.events, id), e);
  }

  lemma {:induction false} CaseUpdateKeeps(s: State, t: State, used: set<nat>, id: ID, e: Event)
    requires Inv(s, used) && CaseUpdate(s, t, id, e) && s.cases[id].alert in s.alerts
    requires t.cases[id].status == CaseResolved ==> ClosedByCase(s.alerts[t.cases[id].alert], t.cases[id])
    ensures Inv(t, used)
  {
    GoodEverywhere(s, id);
    CaseUpdateTouches(s, t, used, id, e);
    CaseUpdateGood(s, t, used, id, e);
    StepKeeps(s, t, used, e, id);
  }

  lemma {:induction false} AssignCaseKeeps(s: State, used: set<nat>, id: ID, assignee: string, e: Event)
    requires Inv(s, used) && e.aggregate == id && e.detail == CaseAssigned(assignee)
    ensures Inv(AssignCase(s, id, assignee, e).state, used)
  {
    var result := AssignCase(s, id, assignee, e);
    if result.answer == Done {
      GoodEverywhere(s, id);
      CaseUpdateKeeps(s, result.state, used, id, e);
    }
  }

  lemma {:induction false} AddCaseCommentKeeps(s: State, used: set<nat>, id: ID, comment: Comment, e: Event)
    requires Inv(s, used) && e.aggregate == id && e.detail == CaseCommented(comment.id)
             && comment.createdAt == e.occurredAt
    ensures Inv(AddCaseComment(s, id, comment, e).state, used)
  {
    var result := AddCaseComment(s, id, comment, e);
    if result.answer == Done {
      GoodEverywhere(s, id);
      CaseUpdateKeeps(s, result.state, used, id, e);
    }
  }

  function Resolved(c: Case, resolution: string, actor: string, at: Time): Case {
    c.(status := CaseResolved, resolution := resolution, resolvedBy := actor, resolvedAt := Some(at), updatedAt := at)
  }

  function MarkResolved(s: State, id: ID, resolution: string, actor: string, e: Event): State
    requires id in s.cases
  {
    s.(cases := s.cases[id := Resolved(s.cases[id], resolution, actor, e.occurredAt)], events := Appended(s.events, e))
  }

  lemma {:induction false} MarkResolvedKeeps(s: State, used: set<nat>, id: ID, resolution: string,
                                             actor: string, e: Event)
    requires Inv(s, used) && id in s.cases && s.cases[id].alert in s.alerts
    requires e.aggregate == id && e.actor == actor && e.detail == CaseResolution(resolution)
    requires ClosedByCase(s.alerts[s.cases[id].alert], Resolved(s.cases[id], resolution, actor, e.occurredAt))
    ensures Inv(MarkResolved(s, id, resolution, actor, e), used)
  {
    CaseUpdateKeeps(s, MarkResolved(s, id, resolution, actor, e), used, id, e);
  }

  lemma {:induction false} ResolveCaseSplits(s: State, id: ID, resolution: string, actor: string, caseEvent: Event,
                                             alertEvent: Event)
    requires ResolveCase(s, id, resolution, actor, caseEvent, alertEvent).answer == Done
    requires caseEvent.aggregate == id && id != s.cases[id].alert && alertEvent.occurredAt == caseEvent.occurredAt
    ensures var closed := CloseAlert(s, s.cases[id].alert, actor, resolution,
                                     alertEvent.(aggregate := s.cases[id].alert));
            && closed.answer == Done && closed.state.cases == s.cases
            && ResolveCase(s, id, resolution, actor, caseEvent, alertEvent).state ==
                MarkResolved(closed.state, id, resolution, actor, caseEvent)
  {
    var closure := alertEvent.(aggregate := s.cases[id].alert);
    assert Appended(Appended(s.events, closure), caseEvent) == Appended(Appended(s.events, caseEvent), closure);
  }

  /** Resolving is closing the alert and then marking the case: in between lies a state the store can be in anyway. */
  lemma {:induction false} ResolveCaseKeeps(s: State, used: set<nat>, id: ID, resolution: string, actor: string,
                                            caseEvent: Event, alertEvent: Event)
    requires Inv(s, used)
    requires caseEvent.aggregate == id && caseEvent.actor == actor && caseEvent.detail == CaseResolution(resolution)
    requires alertEvent.actor == actor && alertEvent.occurredAt == caseEvent.occurredAt
    requires alertEvent.detail.AlertClosure? && alertEvent.detail.closureReason == resolution
    ensures Inv(ResolveCase(s, id, resolution, actor, caseEvent, alertEvent).state, used)
  {
    var result := ResolveCase(s, id, resolution, actor, caseEvent, alertEvent);
    if result.answer == Done {
      var closure := alertEvent.(aggregate := s.cases[id].alert);
      GoodEverywhere(s, id);
      CloseAlertKeeps(s, used, s.cases[id].alert, actor, resolution, closure);
      ResolveCaseSplits(s, id, resolution, actor, caseEvent, alertEvent);
      MarkResolvedKeeps(CloseAlert(s, s.cases[id].alert, actor, resolution, closure).state, used, id, resolution,
                        actor, caseEvent);
    }
  }

  function AlertIDs(alerts: seq<Alert>): set<ID> {
    set a | a in alerts :: a.id
  }

  function Raised(s: State, alerts: seq<Alert>, es: seq<Event>): State {
    s.(alerts := WithAlerts(s.alerts, alerts), events := AllAppended(s.events, es))
  }

  /** Open alerts on one stored transaction, each with its own new identifier and its creation event. */
  ghost predicate Raisable(s: State, used: set<nat>, alerts: seq<Alert>, es: seq<Event>) {
    && |alerts| == |es|
    && (forall i :: 0 <= i < |alerts| ==>
          && Issued(alerts[i].id, used) && Fresh(s, alerts[i].id)
          && alerts[i].transaction in s.transactions
              && s.transactions[alerts[i].transaction].customer == alerts[i].customer
          && alerts[i].status == AlertOpen && alerts[i].closedBy == "" && alerts[i].closureReason == ""
              && alerts[i].closedAt == None
          && es[i].aggregate == alerts[i].id && es[i].detail.AlertRaised?)
    && (forall i, j :: 0 <= i < j < |alerts| ==> alerts[i].id != alerts[j].id)
  }

  lemma {:induction false} RaisedStep(s: State, alerts: seq<Alert>, es: seq<Event>)
    requires |alerts| == |es| > 0
    ensures var n := |alerts| - 1;
            Raised(s, alerts, es) == RaiseOne(Raised(s, alerts[..n], es[..n]), alerts[n], es[n])
  {
  }

  /** Each identifier in the store afterwards was there before or belongs to one of the alerts. */
  lemma {:induction false} RaisedDomain(s: State, alerts: seq<Alert>, es: seq<Event>)
    requires |alerts| == |es| && forall i :: 0 <= i < |alerts| ==> es[i].aggregate == alerts[i].id
    ensures Raised(s, alerts, es).alerts.Keys <= s.alerts.Keys + AlertIDs(alerts)
    ensures Raised(s, alerts, es).events.Keys <= s.events.Keys + AlertIDs(alerts)
    decreases |alerts|
  {
    if alerts != [] {
      var n := |alerts| - 1;
      RaisedDomain(s, alerts[..n], es[..n]);
      assert alerts[n] in alerts && forall a :: a in alerts[..n] ==> a in alerts;
    }
  }

  lemma {:induction false} RaisedKeeps(s: State, used: set<nat>, alerts: seq<Alert>, es: seq<Event>)
    requires Inv(s, used) && Raisable(s, used, alerts, es)
    ensures Inv(Raised(s, alerts, es), used)
    decreases |alerts|
  {
    if alerts == [] {
      assert Raised(s, alerts, es) == s;
    } else {
      var n := |alerts| - 1;
      RaisedKeeps(s, used, alerts[..n], es[..n]);
      RaisedDomain(s, alerts[..n], es[..n]);
      RaisedStep(s, alerts, es);
      RaiseOneKeeps(s, Raised(s, alerts[..n], es[..n]), used, alerts[n], es[n]);
    }
  }

  function RaiseOne(s: State, a: Alert, e: Event): State {
    s.(alerts := s.alerts[a.id := a], events := Appended(s.events, e))
  }

  lemma {:induction false} NewAlertGood(mid: State, used: set<nat>, a: Alert, e: Event)
    requires IDsGood(mid, used) && Issued(a.id, used) && Fresh(mid, a.id) && a.id !in mid.schedules
    requires a.transaction in mid.transactions && mid.transactions[a.transaction].customer == a.customer
    requires a.status == AlertOpen && a.closedBy == "" && a.closureReason == "" && a.closedAt == None
    requires e.aggregate == a.id && e.detail.AlertRaised?
    ensures var t := RaiseOne(mid, a, e);
            Touches(mid, t, e, a.id) && IDsGood(t, used) && Compatible(mid, t, a.id) && KeysKept(mid, t, a.id)
                && EntityGood(t, a.id)
  {
    Replay.Append(LogOf(mid.events, a.id), e);
  }

  lemma {:induction false} RaiseOneKeeps(s: State, mid: State, used: set<nat>, a: Alert, e: Event)
    requires Inv(mid, used) && mid == s.(alerts := mid.alerts, events := mid.events)
    requires Issued(a.id, used) && Fresh(mid, a.id)
    requires a.transaction in s.transactions && s.transactions[a.transaction].customer == a.customer
    requires a.status == AlertOpen && a.closedBy == "" && a.closureReason == "" && a.closedAt == None
    requires e.aggregate == a.id && e.detail.AlertRaised?
    ensures Inv(RaiseOne(mid, a, e), used)
  {
    var t := RaiseOne(mid, a, e);
    NoScheduleWithoutCustomer(mid, a.id);
    NewAlertGood(mid, used, a, e);
    StepKeeps(mid, t, used, e, a.id);
  }

  lemma {:induction false} NoScheduleWithoutCustomer(s: State, id: ID)
    requires EntitiesGood(s) && id !in s.customers
    ensures id !in s.schedules
  {
    GoodEverywhere(s, id);
  }

  /** The keys and references of a new transaction, before its alerts are raised. */
  lemma {:induction false} StoreTransactionKeeps(s: State, used: set<nat>, tr: Transaction, e: Event)
    requires Inv(s, used) && Issued(tr.id, used) && Fresh(s, tr.id)
    requires tr.idempotencyKey !in s.idempotency
    requires tr.customer in s.customers && s.customers[tr.customer].status == Active
    requires e.aggregate == tr.id && e.detail.Ingested?
    ensures Inv(WithTransaction(s, tr, e), used)
  {
    GoodEverywhere(s, tr.id);
    NoScheduleWithoutCustomer(s, tr.id);
    StepKeeps(s, WithTransaction(s, tr, e), used, e, tr.id);
  }

  function WithTransaction(s: State, tr: Transaction, e: Event): State {
    s.(transactions := s.transactions[tr.id := tr], idempotency := s.idempotency[tr.idempotencyKey := tr.id],
       events := Appended(s.events, e))
  }

  /** The alerts and events that ingestion builds for a transaction. */
  ghost predicate AlertsFor(s: State, used: set<nat>, tr: Transaction, alerts: seq<Alert>, es: seq<Event>) {
    && |alerts| == |es|
    && (forall i :: 0 <= i < |alerts| ==>
          && Issued(alerts[i].id, used) && Fresh(s, alerts[i].id) && alerts[i].id != tr.id
          && alerts[i].transaction == tr.id && alerts[i].customer == tr.customer && alerts[i].status == AlertOpen
          && alerts[i].closedBy == "" && alerts[i].closureReason == "" && alerts[i].closedAt == None
          && es[i].aggregate == alerts[i].id && es[i].detail.AlertRaised?)
    && (forall i, j :: 0 <= i < j < |alerts| ==> alerts[i].id != alerts[j].id)
  }

  lemma {:induction false} AlertsAreRaisable(
      s: State, used: set<nat>, tr: Transaction, e: Event, alerts: seq<Alert>, es: seq<Event>)
    requires AlertsFor(s, used, tr, alerts, es) && e.aggregate == tr.id
    ensures Raisable(WithTransaction(s, tr, e), used, alerts, es)
  {
  }

  lemma {:induction false} CreationRaises(s: State, tr: Transaction, e: Event, alerts: seq<Alert>, es: seq<Event>)
    requires CreateTransaction(s, tr, e, alerts, es).answer.Created?
    ensures CreateTransaction(s, tr, e, alerts, es).state == Raised(WithTransaction(s, tr, e), alerts, es)
  {
  }

  lemma {:induction false} CreateTransactionKeeps(
      s: State, used: set<nat>, tr: Transaction, e: Event, alerts: seq<Alert>, es: seq<Event>)
    requires Inv(s, used) && Issued(tr.id, used) && Fresh(s, tr.id)
    requires e.aggregate == tr.id && e.detail.Ingested? && AlertsFor(s, used, tr, alerts, es)
    ensures Inv(CreateTransaction(s, tr, e, alerts, es).state, used)
  {
    if CreateTransaction(s, tr, e, alerts, es).answer.Created? {
      AlertsAreRaisable(s, used, tr, e, alerts, es);
      CreationRaises(s, tr, e, alerts, es);
      CreationGuards(s, tr, e, alerts, es);
      StoreTransactionKeeps(s, used, tr, e);
      RaisedKeeps(WithTransaction(s, tr, e), used, alerts, es);
    }
  }

  lemma {:induction false} CreationGuards(s: State, tr: Transaction, e: Event, alerts: seq<Alert>, es: seq<Event>)
    requires KeysGood(s) && CreateTransaction(s, tr, e, alerts, es).answer.Created?
    ensures tr.idempotencyKey !in s.idempotency
    ensures tr.customer in s.customers && s.customers[tr.customer].status == Active
  {
  }

  // ---------- screening ----------

  /** An event that replays nowhere. */
  lemma {:induction false} NoteKeeps(s: State, used: set<nat>, e: Event)
    requires Inv(s, used) && e.aggregate in s.customers
    requires e.detail.ScreeningCompleted? || e.detail.DueDiligenceUpdated?
    ensures Inv(s.(events := Appended(s.events, e)), used)
  {
    var t := s.(events := Appended(s.events, e));
    GoodEverywhere(s, e.aggregate);
    Replay.Append(LogOf(s.events, e.aggregate), e);
    StepKeeps(s, t, used, e, e.aggregate);
  }

  lemma {:induction false} NotesKeep(s: State, used: set<nat>, es: seq<Event>)
    requires Inv(s, used)
    requires forall i :: 0 <= i < |es| ==> es[i].aggregate in s.customers && es[i].detail.ScreeningCompleted?
    ensures Inv(s.(events := AllAppended(s.events, es)), used)
  {
    if es == [] {
      assert s.(events := AllAppended(s.events, es)) == s;
    } else {
      var n := |es| - 1;
      NotesKeep(s, used, es[..n]);
      NoteKeeps(s.(events := AllAppended(s.events, es[..n])), used, es[n]);
    }
  }

  lemma {:induction false} QuietAt(s: State, t: State, id: ID)
    requires GoodAt(s, id) && t == s.(matches := t.matches, notifications := t.notifications, schedules := t.schedules)
    requires s.matches.Keys <= t.matches.Keys && t.schedules.Keys == s.schedules.Keys
    requires id in s.matches ==> t.matches[id] == s.matches[id]
    requires id in t.matches && id !in s.matches ==> MatchGood(t, id)
    requires id in s.schedules ==> ViewOfSchedule(t.schedules[id]) == ViewOfSchedule(s.schedules[id])
    ensures GoodAt(t, id)
  {
  }

  /** No event, no change but to the matches and to what a schedule's replay does not see. */
  lemma {:induction false} QuietKeeps(s: State, t: State, used: set<nat>)
    requires Inv(s, used) && t == s.(matches := t.matches, notifications := t.notifications, schedules := t.schedules)
    requires s.matches.Keys <= t.matches.Keys && t.schedules.Keys == s.schedules.Keys
    requires forall id {:trigger t.matches[id]} :: id in s.matches ==> t.matches[id] == s.matches[id]
    requires forall id :: id in t.matches && id !in s.matches ==> Issued(id, used) && Fresh(s, id) && MatchGood(t, id)
    requires forall id :: id in s.schedules ==> ViewOfSchedule(t.schedules[id]) == ViewOfSchedule(s.schedules[id])
    ensures Inv(t, used)
  {
    forall id ensures GoodAt(t, id) {
      GoodEverywhere(s, id);
      QuietAt(s, t, id);
    }
  }

  function WithMatch(s: State, m: Match): State {
    s.(matches := s.matches[m.id := m])
  }

  lemma {:induction false} AddMatchKeeps(s: State, used: set<nat>, m: Match)
    requires Inv(s, used) && Issued(m.id, used) && Fresh(s, m.id) && m.customer in s.customers
    requires m.status == Potential && m.reviewedBy == "" && m.reviewedAt == None && m.dispositionReason == ""
    ensures Inv(WithMatch(s, m), used)
  {
    GoodEverywhere(s, m.customer);
    Replay.Undisposed(LogOf(s.events, m.customer), m.id);
    QuietKeeps(s, WithMatch(s, m), used);
  }

  ghost predicate NewMatches(s: State, used: set<nat>, ms: seq<Match>) {
    && (forall i :: 0 <= i < |ms| ==>
          && Issued(ms[i].id, used) && Fresh(s, ms[i].id) && ms[i].customer in s.customers
          && ms[i].status == Potential && ms[i].reviewedBy == "" && ms[i].reviewedAt == None
              && ms[i].dispositionReason == "")
    && (forall i, j :: 0 <= i < j < |ms| ==> ms[i].id != ms[j].id)
  }

  lemma {:induction false} MatchesDomain(matches: map<ID, Match>, ms: seq<Match>)
    ensures forall id :: id in WithMatches(matches, ms) ==> id in matches || exists i :: 0 <= i < |ms| && ms[i].id == id
  {
    if ms != [] {
      MatchesDomain(matches, ms[..|ms| - 1]);
    }
  }

  function WithAllMatches(s: State, ms: seq<Match>): State {
    s.(matches := WithMatches(s.matches, ms))
  }

  lemma {:induction false} WithOneMore(s: State, ms: seq<Match>)
    requires ms != []
    ensures WithAllMatches(s, ms) == WithMatch(WithAllMatches(s, ms[..|ms| - 1]), ms[|ms| - 1])
  {
  }

  lemma {:induction false} LastIsNew(s: State, used: set<nat>, ms: seq<Match>)
    requires ms != [] && NewMatches(s, used, ms)
    ensures NewMatches(s, used, ms[..|ms| - 1]) && Fresh(WithAllMatches(s, ms[..|ms| - 1]), ms[|ms| - 1].id)
  {
    MatchesDomain(s.matches, ms[..|ms| - 1]);
  }

  lemma {:induction false} AddMatchesKeep(s: State, used: set<nat>, ms: seq<Match>)
    requires Inv(s, used) && NewMatches(s, used, ms)
    ensures Inv(WithAllMatches(s, ms), used)
  {
    if ms == [] {
      assert WithAllMatches(s, ms) == s;
    } else {
      var n := |ms| - 1;
      LastIsNew(s, used, ms);
      AddMatchesKeep(s, used, ms[..n]);
      AddMatchKeeps(WithAllMatches(s, ms[..n]), used, ms[n]);
      WithOneMore(s, ms);
    }
  }

  lemma {:induction false} SaveScreeningKeeps(s: State, used: set<nat>, batch: Fanout.Batch)
    requires Inv(s, used) && NewMatches(s, used, batch.matches)
    requires forall i :: 0 <= i < |batch.events| ==>
             batch.events[i].aggregate in s.customers && batch.events[i].detail.ScreeningCompleted?
    ensures Inv(SaveScreening(s, batch).state, used)
  {
    var noted := WithAllMatches(s, batch.matches);
    AddMatchesKeep(s, used, batch.matches);
    NotesKeep(noted, used, batch.events);
    NotifyingKeeps(noted.(events := AllAppended(s.events, batch.events)), used,
                   WithNotifications(s.notifications, batch.notifications));
  }

  lemma {:induction false} NotifyingKeeps(s: State, used: set<nat>, notifications: map<ID, Fanout.Notification>)
    requires Inv(s, used)
    ensures Inv(s.(notifications := notifications), used)
  {
    QuietKeeps(s, s.(notifications := notifications), used);
  }

  lemma {:induction false} DispositionTouches(s: State, used: set<nat>, id: ID, m: Match, e: Event)
    requires IDsGood(s, used) && id in s.matches && e.aggregate in s.customers && id !in s.schedules
    requires e.detail.MatchDisposition? && e.detail.match_ == id
    ensures var t := s.(matches := s.matches[id := m], events := Appended(s.events, e));
            Touches(s, t, e, id) && IDsGood(t, used) && Compatible(s, t, id) && KeysKept(s, t, id)
  {
  }

  lemma {:induction false} DispositionGood(s: State, used: set<nat>, id: ID, m: Match, e: Event)
    requires IDsGood(s, used) && id in s.matches && MatchGood(s, id) && id !in s.schedules
    requires e.aggregate == m.customer == s.matches[id].customer && m.id == id
    requires e.detail.MatchDisposition? && e.detail.match_ == id
    requires ViewOfMatch(m) ==
             Replay.MatchView(e.detail.status, e.actor, Some(e.occurredAt), e.detail.dispositionReason)
    ensures EntityGood(s.(matches := s.matches[id := m], events := Appended(s.events, e)), id)
  {
    Replay.Append(LogOf(s.events, m.customer), e);
  }

  lemma {:induction false} DispositionMatchKeeps(s: State, used: set<nat>, id: ID, status: MatchStatus,
                                                 reason: string, actor: string, e: Event)
    requires Inv(s, used) && e.actor == actor && e.detail == MatchDisposition(id, status, reason)
    ensures Inv(DispositionMatch(s, id, status, reason, actor, e).state, used)
  {
    var result := DispositionMatch(s, id, status, reason, actor, e);
    if result.answer == Done {
      var noted := e.(aggregate := s.matches[id].customer);
      GoodEverywhere(s, id);
      NoScheduleWithoutCustomer(s, id);
      DispositionGood(s, used, id, result.state.matches[id], noted);
      DispositionTouches(s, used, id, result.state.matches[id], noted);
      StepKeeps(s, result.state, used, noted, id);
    }
  }

  lemma {:induction false} UpsertTouches(s: State, used: set<nat>, customer: ID, row: Schedules.Schedule, e: Event)
    requires IDsGood(s, used) && e.aggregate == customer && e.detail.ScheduleUpdated? && customer in s.customers
    ensures var t := UpsertSchedule(s, customer, row, e).state;
            Touches(s, t, e, customer) && IDsGood(t, used) && Compatible(s, t, customer) && KeysKept(s, t, customer)
  {
  }

  lemma {:induction false} UpsertGood(s: State, used: set<nat>, customer: ID, row: Schedules.Schedule, e: Event)
    requires IDsGood(s, used) && e.aggregate == customer && customer in s.customers && CustomerGood(s, customer)
    requires e.detail.ScheduleUpdated? && e.detail.enabled == row.enabled && e.detail.hours == row.intervalHours
    ensures EntityGood(UpsertSchedule(s, customer, row, e).state, customer)
  {
    Replay.Append(LogOf(s.events, customer), e);
  }

  lemma {:induction false} UpsertScheduleKeeps(s: State, used: set<nat>, customer: ID,
                                               row: Schedules.Schedule, e: Event)
    requires Inv(s, used) && e.aggregate == customer
    requires e.detail.ScheduleUpdated? && e.detail.enabled == row.enabled && e.detail.hours == row.intervalHours
    ensures Inv(UpsertSchedule(s, customer, row, e).state, used)
  {
    if UpsertSchedule(s, customer, row, e).answer == Done {
      GoodEverywhere(s, customer);
      UpsertTouches(s, used, customer, row, e);
      UpsertGood(s, used, customer, row, e);
      StepKeeps(s, UpsertSchedule(s, customer, row, e).state, used, e, customer);
    }
  }

  lemma {:induction false} ClaimSchedulesKeeps(s: State, used: set<nat>, now: Time, owner: string, until: Time)
    requires Inv(s, used)
    ensures Inv(ClaimSchedules(s, now, owner, until).state, used)
  {
    QuietKeeps(s, ClaimSchedules(s, now, owner, until).state, used);
  }

  lemma {:induction false} CompletionIsQuiet(s: State, customer: ID, owner: string, ranAt: Time, nextRun: Time,
                                             lastError: string)
    requires customer in s.schedules
    ensures var row := Schedules.Finished(s.schedules[customer], ranAt, nextRun, lastError);
            ViewOfSchedule(row) == ViewOfSchedule(s.schedules[customer])
  {
  }

  lemma {:induction false} CompleteScheduleKeeps(s: State, used: set<nat>, customer: ID, owner: string, ranAt: Time,
                                                 nextRun: Time, lastError: string)
    requires Inv(s, used)
    ensures Inv(CompleteSchedule(s, customer, owner, ranAt, nextRun, lastError).state, used)
  {
    var result := CompleteSchedule(s, customer, owner, ranAt, nextRun, lastError);
    if result.answer == Done {
      var row := Schedules.Finished(s.schedules[customer], ranAt, nextRun, lastError);
      CompletionIsQuiet(s, customer, owner, ranAt, nextRun, lastError);
      QuietKeeps(s, s.(schedules := s.schedules[customer := row]), used);
    }
  }

  // ---------- each request keeps it ----------

  lemma {:induction false} Widen(s: State, used: set<nat>, serial: nat)
    requires Inv(s, used) && serial !in used
    ensures Inv(s, used + {serial})
    ensures forall k: nat :: Fresh(s, ID(serial, k)) && Issued(ID(serial, k), used + {serial})
  {
    assert forall k: nat :: !Issued(ID(serial, k), used);
  }

  lemma {:induction false} OnboardKeeps(s: State, used: set<nat>, c: Call)
    requires Inv(s, used) && c.serial in used && c.request.Onboard?
    requires forall k: nat :: Fresh(s, ID(c.serial, k)) && Issued(ID(c.serial, k), used)
    ensures Inv(Perform(s, c).state, used)
  {
    var r := c.request;
    var name, country, actor := Trim(r.legalName), Upper(Trim(r.countryCode)), Trim(r.actor);
    if PerformOnboard(s, c).answer == Done {
      var customer := Customer(ID(c.serial, 0), name, country, PendingApproval, actor, c.now, "", None);
      CreateCustomerKeeps(s, used, customer,
                          Event(ID(c.serial, 1), CustomerAggregate, customer.id, actor, c.now, Submitted));
    }
  }

  lemma {:induction false} IngestKeeps(s: State, used: set<nat>, c: Call)
    requires Inv(s, used) && c.request.Ingest?
    requires forall k: nat :: Fresh(s, ID(c.serial, k)) && Issued(ID(c.serial, k), used)
    ensures Inv(Perform(s, c).state, used)
  {
    var cmd := Normalized(c.request.cmd);
    if ValidIngest(cmd) {
      var t := NewTransaction(c, cmd);
      BuiltAlerts(s, used, c, t);
      CreateTransactionKeeps(s, used, t,
                             Event(ID(c.serial, 1), TransactionAggregate, t.id, cmd.actor, c.now,
                                   Ingested(t.customer, t.amountMinor)),
                             NewAlerts(c, t, Findings(t)), NewAlertEvents(c, t, Findings(t)));
    }
  }

  lemma {:induction false} BuiltAlerts(s: State, used: set<nat>, c: Call, t: Transaction)
    requires t.id == ID(c.serial, 0)
    requires forall k: nat :: Fresh(s, ID(c.serial, k)) && Issued(ID(c.serial, k), used)
    ensures AlertsFor(s, used, t, NewAlerts(c, t, Findings(t)), NewAlertEvents(c, t, Findings(t)))
  {
  }

  lemma {:induction false} OpenCaseKeeps(s: State, used: set<nat>, c: Call)
    requires Inv(s, used) && c.request.OpenCase?
    requires forall k: nat :: Fresh(s, ID(c.serial, k)) && Issued(ID(c.serial, k), used)
    ensures Inv(Perform(s, c).state, used)
  {
    var r := c.request;
    var item := Case(ID(c.serial, 0), r.alert, Blank, Trim(r.title), r.priority, CaseOpen, "", "", Trim(r.actor),
                     c.now, c.now, "", None);
    CreateCaseKeeps(s, used, item,
                    Event(ID(c.serial, 1), CaseAggregate, item.id, Trim(r.actor), c.now,
                    CaseCreated(r.alert, r.priority)));
  }

  lemma {:induction false} BatchFits(s: State, used: set<nat>, ctx: Fanout.Context, subjects: seq<Fanout.Subject>,
                                     replies: seq<Fanout.Reply>)
    requires ctx.customer in s.customers && |replies| == |subjects| && Fanout.Build(ctx, subjects, replies).Some?
    requires forall k: nat :: Fresh(s, ID(ctx.request, k)) && Issued(ID(ctx.request, k), used)
    ensures var batch := Fanout.Build(ctx, subjects, replies).value;
            && NewMatches(s, used, batch.matches)
            && forall i :: 0 <= i < |batch.events| ==>
                batch.events[i].aggregate in s.customers && batch.events[i].detail.ScreeningCompleted?
  {
    var batch := Fanout.Build(ctx, subjects, replies).value;
    Fanout.BatchIsExact(ctx, subjects, replies);
    Fanout.MatchesAreNew(ctx, subjects, replies);
    forall i | 0 <= i < |batch.matches|
      ensures Issued(batch.matches[i].id, used) && Fresh(s, batch.matches[i].id)
              && Fanout.Unreviewed(batch.matches[i], ctx.customer) {
      assert batch.matches[i].id == ID(ctx.request, batch.matches[i].id.index);
    }
  }

  /** What a screening request that succeeds saves. */
  lemma {:induction false} ScreenedBatch(s: State, used: set<nat>, c: Call) returns (batch: Fanout.Batch)
    requires c.request.Screen? && Perform(s, c).answer == Done
    requires forall k: nat :: Fresh(s, ID(c.serial, k)) && Issued(ID(c.serial, k), used)
    ensures Perform(s, c).state == SaveScreening(s, batch).state && NewMatches(s, used, batch.matches)
    ensures forall i :: 0 <= i < |batch.events| ==>
              batch.events[i].aggregate in s.customers && batch.events[i].detail.ScreeningCompleted?
  {
    var r := c.request;
    var subjects := Fanout.Subjects(r.customer, s.customers[r.customer].legalName, r.owners);
    BatchFits(s, used, ScreenContext(c), subjects, r.replies);
    batch := Fanout.Build(ScreenContext(c), subjects, r.replies).value;
  }

  lemma {:induction false} ScreenKeeps(s: State, used: set<nat>, c: Call)
    requires Inv(s, used) && c.request.Screen?
    requires forall k: nat :: Fresh(s, ID(c.serial, k)) && Issued(ID(c.serial, k), used)
    ensures Inv(Perform(s, c).state, used)
  {
    if Perform(s, c).answer == Done {
      var batch := ScreenedBatch(s, used, c);
      SaveScreeningKeeps(s, used, batch);
    }
  }

  lemma {:induction false} ReviewKeeps(s: State, used: set<nat>, c: Call)
    requires Inv(s, used) && c.request.Review?
    ensures Inv(Perform(s, c).state, used)
  {
    var r := c.request;
    ReviewCustomerKeeps(s, used, r.customer, r.decision, Trim(r.actor),
                        Event(ID(c.serial, 0), CustomerAggregate, r.customer, Trim(r.actor), c.now,
                              Reviewed(r.decision == Approve, Trim(r.reason))));
  }

  lemma {:induction false} CloseKeeps(s: State, used: set<nat>, c: Call)
    requires Inv(s, used) && c.request.Close?
    ensures Inv(Perform(s, c).state, used)
  {
    var r := c.request;
    CloseAlertKeeps(s, used, r.alert, Trim(r.actor), Trim(r.reason),
                    Event(ID(c.serial, 0), AlertAggregate, r.alert, Trim(r.actor), c.now,
                          AlertClosure(Trim(r.reason), false)));
  }

  lemma {:induction false} AssignKeeps(s: State, used: set<nat>, c: Call)
    requires Inv(s, used) && c.request.Assign?
    ensures Inv(Perform(s, c).state, used)
  {
    var r := c.request;
    AssignCaseKeeps(s, used, r.case_, Trim(r.assignee),
                    Event(ID(c.serial, 0), CaseAggregate, r.case_, Trim(r.actor), c.now,
                          CaseAssigned(Trim(r.assignee))));
  }

  lemma {:induction false} CommentKeeps(s: State, used: set<nat>, c: Call)
    requires Inv(s, used) && c.request.AddComment?
    ensures Inv(Perform(s, c).state, used)
  {
    var r := c.request;
    var comment := Comment(ID(c.serial, 0), Trim(r.actor), Trim(r.body), c.now);
    AddCaseCommentKeeps(s, used, r.case_, comment,
                        Event(ID(c.serial, 1), CaseAggregate, r.case_, Trim(r.actor), c.now,
                        CaseCommented(comment.id)));
  }

  lemma {:induction false} ResolveKeeps(s: State, used: set<nat>, c: Call)
    requires Inv(s, used) && c.request.Resolve?
    ensures Inv(Perform(s, c).state, used)
  {
    var r := c.request;
    ResolveCaseKeeps(s, used, r.case_, Trim(r.resolution), Trim(r.actor),
                     Event(ID(c.serial, 0), CaseAggregate, r.case_, Trim(r.actor), c.now,
                           CaseResolution(Trim(r.resolution))),
                     Event(ID(c.serial, 1), AlertAggregate, Blank, Trim(r.actor), c.now,
                           AlertClosure(Trim(r.resolution), true)));
  }

  lemma {:induction false} DispositionKeeps(s: State, used: set<nat>, c: Call)
    requires Inv(s, used) && c.request.Disposition?
    ensures Inv(Perform(s, c).state, used)
  {
    var r := c.request;
    DispositionMatchKeeps(s, used, r.match_, r.status, Trim(r.reason), Trim(r.actor),
                          Event(ID(c.serial, 0), CustomerAggregate, Blank, Trim(r.actor), c.now,
                                MatchDisposition(r.match_, r.status, Trim(r.reason))));
  }

  lemma {:induction false} ConfigureKeeps(s: State, used: set<nat>, c: Call)
    requires Inv(s, used) && c.request.Configure?
    ensures Inv(Perform(s, c).state, used)
  {
    var r := c.request;
    var row := Schedules.Configured(None, r.enabled, r.hours, Trim(r.actor), c.now);
    UpsertScheduleKeeps(s, used, r.customer, row,
                        Event(ID(c.serial, 0), CustomerAggregate, r.customer, Trim(r.actor), c.now,
                              ScheduleUpdated(r.enabled, r.hours, row.nextRunAt)));
  }

  lemma {:induction false} DueDiligenceKeeps(s: State, used: set<nat>, c: Call)
    requires Inv(s, used) && c.request.UpdateDueDiligence?
    ensures Inv(Perform(s, c).state, used)
  {
    if PerformDueDiligence(s, c).answer == Done {
      NoteKeeps(s, used, Event(ID(c.serial, 0), CustomerAggregate, c.request.customer, c.request.actor, c.now,
                               DueDiligenceUpdated));
    }
  }

  lemma {:induction false} CreatingKeeps(s: State, used: set<nat>, c: Call)
    requires Inv(s, used) && c.serial in used
    requires forall k: nat :: Fresh(s, ID(c.serial, k)) && Issued(ID(c.serial, k), used)
    requires c.request.Onboard? || c.request.Ingest? || c.request.OpenCase? || c.request.Screen?
    ensures Inv(Perform(s, c).state, used)
  {
    match c.request
    case Onboard(_, _, _, _, _) => OnboardKeeps(s, used, c);
    case Ingest(_) => IngestKeeps(s, used, c);
    case OpenCase(_, _, _, _) => OpenCaseKeeps(s, used, c);
    case Screen(_, _, _, _, _, _) => ScreenKeeps(s, used, c);
  }

  lemma {:induction false} CaseworkKeeps(s: State, used: set<nat>, c: Call)
    requires Inv(s, used) && (c.request.Assign? || c.request.AddComment? || c.request.Resolve?)
    ensures Inv(Perform(s, c).state, used)
  {
    match c.request
    case Assign(_, _, _) => AssignKeeps(s, used, c);
    case AddComment(_, _, _) => CommentKeeps(s, used, c);
    case Resolve(_, _, _) => ResolveKeeps(s, used, c);
  }

  lemma {:induction false} ReviewingKeeps(s: State, used: set<nat>, c: Call)
    requires Inv(s, used) && (c.request.Review? || c.request.Close? || c.request.Disposition?)
    ensures Inv(Perform(s, c).state, used)
  {
    match c.request
    case Review(_, _, _, _) => ReviewKeeps(s, used, c);
    case Close(_, _, _) => CloseKeeps(s, used, c);
    case Disposition(_, _, _, _) => DispositionKeeps(s, used, c);
  }

  lemma {:induction false} MonitoringKeeps(s: State, used: set<nat>, c: Call)
    requires Inv(s, used)
    requires c.request.Configure? || c.request.ClaimDue? || c.request.CompleteRun? || c.request.UpdateDueDiligence?
    ensures Inv(Perform(s, c).state, used)
  {
    match c.request
    case Configure(_, _, _, _) => ConfigureKeeps(s, used, c);
    case ClaimDue(owner, until) => ClaimSchedulesKeeps(s, used, c.now, owner, until);
    case CompleteRun(customer, owner, ranAt, nextRun, lastError) =>
      CompleteScheduleKeeps(s, used, customer, owner, ranAt, nextRun, lastError);
    case UpdateDueDiligence(_, _) => DueDiligenceKeeps(s, used, c);
  }

  lemma {:induction false} PerformKeeps(s: State, used: set<nat>, c: Call)
    requires Inv(s, used) && c.serial !in used
    ensures Inv(Perform(s, c).state, used + {c.serial})
  {
    var r, wider := c.request, used + {c.serial};
    Widen(s, used, c.serial);
    if r.Onboard? || r.Ingest? || r.OpenCase? || r.Screen? {
      CreatingKeeps(s, wider, c);
    } else if r.Assign? || r.AddComment? || r.Resolve? {
      CaseworkKeeps(s, wider, c);
    } else if r.Review? || r.Close? || r.Disposition? {
      ReviewingKeeps(s, wider, c);
    } else {
      MonitoringKeeps(s, wider, c);
    }
  }

  /** Requests whose serials nobody used before. */
  predicate FreshAfter(used: set<nat>, history: seq<Call>) {
    FreshIDs(history) && forall i :: 0 <= i < |history| ==> history[i].serial !in used
  }

  lemma {:induction false} InvOver(s: State, used: set<nat>, history: seq<Call>)
    requires Inv(s, used) && FreshAfter(used, history)
    ensures Inv(Exec(s, history), used + Serials(history))
  {
    if history == [] {
      assert used + Serials(history) == used;
    } else {
      var before, c := history[..|history| - 1], history[|history| - 1];
      InvOver(s, used, before);
      SerialsStep(before, c);
      assert history == before + [c] && used + Serials(history) == used + Serials(before) + {c.serial};
      PerformKeeps(Exec(s, before), used + Serials(before), c);
    }
  }

  lemma {:induction false} SerialsStep(history: seq<Call>, c: Call)
    ensures Serials(history + [c]) == Serials(history) + {c.serial}
  {
  }

  lemma {:induction false} EmptyIsGood()
    ensures Inv(EMPTY, {})
  {
    assert forall x :: Replay.MatchOf([], x) == Replay.MatchView(Potential, "", None, "");
  }

  lemma {:induction false} InvAlways(history: seq<Call>)
    requires FreshIDs(history)
    ensures Inv(Exec(EMPTY, history), Serials(history))
  {
    EmptyIsGood();
    InvOver(EMPTY, {}, history);
    assert {} + Serials(history) == Serials(history);
  }
}

/**
 The repository as it is written: maps updated in place under one lock, loops over alerts,
 cases, matches and events. Each method is one step of the store's specification.
 */
module MemoryRepository {
  import opened Durations
  import opened Domain
  import opened Store
  import opened Compliance
  import opened Collections
  import Activity
  import Fanout
  import Schedules

  class Repository {
    var customers: map<ID, Customer>
    var transactions: map<ID, Transaction>
    var alerts: map<ID, Alert>
    var idempotency: map<string, ID>
    var cases: map<ID, Case>
    var comments: map<ID, seq<Comment>>
    var matches: map<ID, Match>
    var notifications: map<ID, Fanout.Notification>
    var schedules: map<ID, Schedules.Schedule>
    var events: map<ID, Log>

    ghost function Contents(): State
      reads this
    {
      State(customers, transactions, alerts, idempotency, cases, comments, matches, notifications, schedules, events)
    }

    constructor ()
      ensures Contents() == EMPTY
    {
      customers, transactions, alerts, idempotency := map[], map[], map[], map[];
      cases, comments, matches, notifications, schedules, events := map[], map[], map[], map[], map[], map[];
    }

    method Append(e: Event)
      modifies this`events
      ensures events == Appended(old(events), e)
    {
      events := events[e.aggregate := (if e.aggregate in events then events[e.aggregate] else []) + [e]];
    }

    // ---------- customers ----------

    method CreateCustomer(customer: Customer, e: Event)
      modifies this
      ensures Contents() == Store.CreateCustomer(old(Contents()), customer, e).state
    {
      customers := customers[customer.id := customer];
      Append(e);
    }

    method ReviewCustomer(id: ID, decision: Decision, actor: string, e: Event) returns (answer: Answer)
      modifies this
      ensures Result(Contents(), answer) == Store.ReviewCustomer(old(Contents()), id, decision, actor, e)
    {
      if id !in customers {
        return Failed(CustomerNotFound);
      }
      var customer := customers[id];
      if customer.createdBy == actor {
        return Failed(MakerCannotReview);
      }
      if customer.status != PendingApproval {
        return Failed(ReviewConflict);
      }
      match decision {
        case Approve => customer := customer.(status := Active);
        case Reject => customer := customer.(status := Rejected);
        case OtherDecision => return Failed(InvalidDecision);
      }
      customer := customer.(reviewedBy := actor, reviewedAt := Some(e.occurredAt));
      customers := customers[id := customer];
      Append(e);
      return Done;
    }

    // ---------- transactions and alerts ----------

    method StoredAlerts(transaction: ID) returns (stored: set<Alert>)
      ensures stored == AlertsOf(Contents(), transaction)
    {
      stored := {};
      var left := alerts.Keys;
      while left != {}
        invariant left <= alerts.Keys
        invariant stored == set id | id in alerts && id !in left && alerts[id].transaction == transaction :: alerts[id]
        decreases left
      {
        var id :| id in left;
        left := left - {id};
        if alerts[id].transaction == transaction {
          stored := stored + {alerts[id]};
        }
      }
    }

    method RaiseAlerts(added: seq<Alert>, alertEvents: seq<Event>)
      requires |added| == |alertEvents|
      modifies this`alerts, this`events
      ensures alerts == WithAlerts(old(alerts), added) && events == AllAppended(old(events), alertEvents)
    {
      for i := 0 to |added|
        invariant alerts == WithAlerts(old(alerts), added[..i]) && events == AllAppended(old(events), alertEvents[..i])
      {
        alerts := alerts[added[i].id := added[i]];
        Append(alertEvents[i]);
        assert added[..i + 1][..i] == added[..i] && alertEvents[..i + 1][..i] == alertEvents[..i];
      }
      assert added[..|added|] == added && alertEvents[..|added|] == alertEvents;
    }

    /** A key that names no stored transaction cannot occur in a run, so the model lets it pass as unknown. */
    method CreateTransaction(transaction: Transaction, e: Event, added: seq<Alert>, alertEvents: seq<Event>)
      returns (answer: Answer)
      modifies this
      ensures Result(Contents(), answer) == Store.CreateTransaction(old(Contents()), transaction, e, added, alertEvents)
    {
      if |added| != |alertEvents| {
        return Failed(AlertsWithoutEvents);
      }
      if transaction.idempotencyKey in idempotency && idempotency[transaction.idempotencyKey] in transactions {
        var stored := transactions[idempotency[transaction.idempotencyKey]];
        if !SamePayload(stored, transaction) {
          return Failed(IdempotencyConflict);
        }
        var storedAlerts := StoredAlerts(stored.id);
        return Replayed(stored, storedAlerts);
      }
      if transaction.customer !in customers {
        return Failed(CustomerNotFound);
      }
      if customers[transaction.customer].status != Active {
        return Failed(CustomerNotActive);
      }
      transactions := transactions[transaction.id := transaction];
      idempotency := idempotency[transaction.idempotencyKey := transaction.id];
      Append(e);
      RaiseAlerts(added, alertEvents);
      return Created(transaction, set a | a in added);
    }

    method CloseAlert(id: ID, actor: string, reason: string, e: Event) returns (answer: Answer)
      modifies this
      ensures Result(Contents(), answer) == Store.CloseAlert(old(Contents()), id, actor, reason, e)
    {
      if id !in alerts {
        return Failed(AlertNotFound);
      }
      var alert := alerts[id];
      if alert.status != AlertOpen {
        return Failed(AlertConflict);
      }
      alert := alert.(status := AlertClosed, closedAt := Some(e.occurredAt), closedBy := actor,
                      closureReason := reason);
      alerts := alerts[id := alert];
      Append(e);
      return Done;
    }

    // ---------- cases ----------

    method FindCase(alert: ID) returns (found: bool)
      ensures found <==> HasCase(Contents(), alert)
    {
      var left := cases.Keys;
      while left != {}
        invariant left <= cases.Keys
        invariant forall id :: id in cases && id !in left ==> cases[id].alert != alert
        decreases left
      {
        var id :| id in left;
        if cases[id].alert == alert {
          return true;
        }
        left := left - {id};
      }
      return false;
    }

    method CreateCase(item: Case, e: Event) returns (answer: Answer)
      modifies this
      ensures Result(Contents(), answer) == Store.CreateCase(old(Contents()), item, e)
    {
      if item.alert !in alerts {
        return Failed(AlertNotFound);
      }
      var alert := alerts[item.alert];
      if alert.status != AlertOpen {
        return Failed(AlertConflict);
      }
      var found := FindCase(item.alert);
      if found {
        return Failed(AlertHasCase);
      }
      cases := cases[item.id := item.(customer := alert.customer)];
      Append(e);
      return Done;
    }

    method AssignCase(id: ID, assignee: string, e: Event) returns (answer: Answer)
      modifies this
      ensures Result(Contents(), answer) == Store.AssignCase(old(Contents()), id, assignee, e)
    {
      if id !in cases {
        return Failed(CaseNotFound);
      }
      var item := cases[id];
      if item.status == CaseResolved {
        return Failed(CaseConflict);
      }
      item := item.(assignedTo := assignee, status := CaseInProgress, updatedAt := e.occurredAt);
      cases := cases[id := item];
      Append(e);
      return Done;
    }

    method AddCaseComment(id: ID, comment: Comment, e: Event) returns (answer: Answer)
      modifies this
      ensures Result(Contents(), answer) == Store.AddCaseComment(old(Contents()), id, comment, e)
    {
      if id !in cases {
        return Failed(CaseNotFound);
      }
      var item := cases[id];
      if item.status == CaseResolved {
        return Failed(CaseConflict);
      }
      cases := cases[id := item.(updatedAt := comment.createdAt)];
      comments := comments[id := (if id in comments then comments[id] else []) + [comment]];
      Append(e);
      return Done;
    }

    method ResolveCase(id: ID, resolution: string, actor: string, caseEvent: Event, alertEvent: Event)
        returns (answer: Answer)
      modifies this
      ensures Result(Contents(), answer) ==
              Store.ResolveCase(old(Contents()), id, resolution, actor, caseEvent, alertEvent)
    {
      if id !in cases {
        return Failed(CaseNotFound);
      }
      var item := cases[id];
      if item.status == CaseResolved {
        return Failed(CaseConflict);
      }
      if item.alert !in alerts || alerts[item.alert].status != AlertOpen {
        return Failed(AlertConflict);
      }
      var alert, at := alerts[item.alert], caseEvent.occurredAt;
      cases := cases[id := item.(status := CaseResolved, resolution := resolution, resolvedBy := actor,
                                 resolvedAt := Some(at), updatedAt := at)];
      alerts := alerts[item.alert := alert.(status := AlertClosed, closedAt := Some(at), closedBy := actor,
                                            closureReason := resolution)];
      Append(caseEvent);
      Append(alertEvent.(aggregate := item.alert));
      return Done;
    }

    // ---------- screening ----------

    method SaveScreening(batch: Fanout.Batch)
      modifies this
      ensures Contents() == Store.SaveScreening(old(Contents()), batch).state
    {
      SaveMatches(batch.matches);
      SaveNotifications(batch.notifications);
      SaveEvents(batch.events);
    }

    method SaveMatches(added: seq<Match>)
      modifies this`matches
      ensures matches == WithMatches(old(matches), added)
    {
      for i := 0 to |added|
        invariant matches == WithMatches(old(matches), added[..i])
      {
        matches := matches[added[i].id := added[i]];
        assert added[..i + 1][..i] == added[..i];
      }
      assert added[..|added|] == added;
    }

    method SaveNotifications(added: seq<Fanout.Notification>)
      modifies this`notifications
      ensures notifications == WithNotifications(old(notifications), added)
    {
      for i := 0 to |added|
        invariant notifications == WithNotifications(old(notifications), added[..i])
      {
        notifications := notifications[added[i].id := added[i]];
        assert added[..i + 1][..i] == added[..i];
      }
      assert added[..|added|] == added;
    }

    method SaveEvents(added: seq<Event>)
      modifies this`events
      ensures events == AllAppended(old(events), added)
    {
      for i := 0 to |added|
        invariant events == AllAppended(old(events), added[..i])
      {
        Append(added[i]);
        assert added[..i + 1][..i] == added[..i];
      }
      assert added[..|added|] == added;
    }

    method DispositionMatch(id: ID, status: MatchStatus, reason: string, actor: string, e: Event)
        returns (answer: Answer)
      modifies this
      ensures Result(Contents(), answer) == Store.DispositionMatch(old(Contents()), id, status, reason, actor, e)
    {
      if id !in matches || matches[id].status != Potential {
        return Failed(ReviewConflict);
      }
      var m := matches[id].(status := status, reviewedBy := actor, reviewedAt := Some(e.occurredAt),
                            dispositionReason := reason);
      matches := matches[id := m];
      Append(e.(aggregate := m.customer));
      return Done;
    }

    // ---------- schedules ----------

    method UpsertSchedule(customer: ID, schedule: Schedules.Schedule, e: Event) returns (answer: Answer)
      modifies this
      ensures Result(Contents(), answer) == Store.UpsertSchedule(old(Contents()), customer, schedule, e)
    {
      if customer !in customers {
        return Failed(CustomerNotFound);
      }
      var row := schedule;
      if customer in schedules {
        row := row.(lastRunAt := schedules[customer].lastRunAt);
      }
      schedules := schedules[customer := row];
      Append(e);
      return Done;
    }

    /**
     In memory every due row is leased, and the batch, earliest run first, is cut to the limit
     afterwards: the rows past the limit stay leased by a worker that does not run them.
     */
    method ClaimDueSchedules(now: Time, limit: nat, owner: string, until: Time) returns (batch: seq<ID>)
      modifies this
      ensures Contents() == Store.ClaimSchedules(old(Contents()), now, owner, until).state
      ensures forall id :: id in schedules ==>
                schedules[id] == if id in ReadyRows(old(schedules), now)
                                 then old(schedules)[id].(leaseOwner := Some(owner), leaseUntil := Some(until))
                                 else old(schedules)[id]
      ensures var ready := ReadyRows(old(schedules), now);
              && (forall id :: id in batch ==> id in ready)
              && |batch| == Min(limit, |ready|)
              && EarliestFirst(old(schedules), batch)
              && (forall id, k :: id in ready && id !in batch && 0 <= k < |batch| ==>
                    RunsBefore(old(schedules), batch[k], id))
    {
      var leased := LeaseReady(now, owner, until);
      var sorted := SortByNextRun(schedules, leased);
      SameOrder(old(schedules), schedules, sorted);
      batch := Cut(old(schedules), sorted, limit, ReadyRows(old(schedules), now));
    }

    /** The loop over the table. */
    method LeaseReady(now: Time, owner: string, until: Time) returns (leased: seq<ID>)
      modifies this`schedules
      ensures schedules.Keys == old(schedules).Keys && Distinct(leased)
      ensures forall id :: id in leased <==> id in ReadyRows(old(schedules), now)
      ensures forall id :: id in schedules ==>
                schedules[id] == if id in ReadyRows(old(schedules), now)
                                 then old(schedules)[id].(leaseOwner := Some(owner), leaseUntil := Some(until))
                                 else old(schedules)[id]
    {
      leased := [];
      var left := schedules.Keys;
      while left != {}
        invariant left <= old(schedules).Keys == schedules.Keys
        invariant forall id :: id in schedules ==>
                    schedules[id] == if id !in left && id in ReadyRows(old(schedules), now)
                                     then old(schedules)[id].(leaseOwner := Some(owner), leaseUntil := Some(until))
                                     else old(schedules)[id]
        invariant forall id :: id in leased <==> id !in left && id in ReadyRows(old(schedules), now)
        invariant Distinct(leased)
        decreases left
      {
        var id :| id in left;
        left := left - {id};
        var schedule := schedules[id];
        if schedule.enabled && schedule.nextRunAt <= now
           && (schedule.leaseUntil.None? || schedule.leaseUntil.value <= now) {
          schedules := schedules[id := schedule.(leaseOwner := Some(owner), leaseUntil := Some(until))];
          leased := leased + [id];
        }
      }
    }

    method CompleteSchedule(customer: ID, owner: string, ranAt: Time, nextRun: Time, lastError: string)
        returns (answer: Answer)
      modifies this
      ensures Result(Contents(), answer) ==
              Store.CompleteSchedule(old(Contents()), customer, owner, ranAt, nextRun, lastError)
    {
      if customer !in schedules || schedules[customer].leaseOwner != Some(owner) {
        return Failed(ScheduleNotFound);
      }
      var row := schedules[customer].(lastRunAt := Some(ranAt), lastError := lastError, nextRunAt := nextRun);
      if lastError == "" {
        row := row.(failureCount := 0);
      } else {
        row := row.(failureCount := row.failureCount + 1);
      }
      schedules := schedules[customer := row.(leaseOwner := None, leaseUntil := None, updatedAt := ranAt)];
      return Done;
    }

    method RecordDueDiligence(customer: ID, e: Event) returns (answer: Answer)
      modifies this
      ensures Result(Contents(), answer) == Store.RecordDueDiligence(old(Contents()), customer, e)
    {
      if customer !in customers {
        return Failed(CustomerNotFound);
      }
      Append(e);
      return Done;
    }

    // ---------- reading ----------

    /** The aggregates whose events make up a customer's timeline, gathered one map at a time. */
    method RelatedAggregates(customer: ID) returns (related: set<ID>)
      ensures related == Activity.Related(Contents(), customer)
    {
      related := {customer};
      var left := transactions.Keys;
      while left != {}
        invariant left <= transactions.Keys
        invariant related == {customer} + set id | id in transactions && id !in left
                  && transactions[id].customer == customer
        decreases left
      {
        var id :| id in left;
        left := left - {id};
        if transactions[id].customer == customer {
          related := related + {id};
        }
      }
      ghost var payments := related;
      left := alerts.Keys;
      while left != {}
        invariant left <= alerts.Keys
        invariant related == payments + set id | id in alerts && id !in left && alerts[id].customer == customer
        decreases left
      {
        var id :| id in left;
        left := left - {id};
        if alerts[id].customer == customer {
          related := related + {id};
        }
      }
      ghost var raised := related;
      left := cases.Keys;
      while left != {}
        invariant left <= cases.Keys
        invariant related == raised + set id | id in cases && id !in left && cases[id].customer == customer
        decreases left
      {
        var id :| id in left;
        left := left - {id};
        if cases[id].customer == customer {
          related := related + {id};
        }
      }
    }
  }

  /** Leasing moves no next run. */
  lemma {:induction false} SameOrder(
      before: map<ID, Schedules.Schedule>, after: map<ID, Schedules.Schedule>, s: seq<ID>)
    requires EarliestFirst(after, s) && before.Keys == after.Keys
    requires forall id :: id in before ==> before[id].nextRunAt == after[id].nextRunAt
    ensures EarliestFirst(before, s)
  {
  }

  /** The earliest rows up to the limit. */
  method Cut(ghost rows: map<ID, Schedules.Schedule>, sorted: seq<ID>, limit: nat, ghost due: set<ID>)
    returns (batch: seq<ID>)
    requires EarliestFirst(rows, sorted) && forall id :: id in sorted <==> id in due
    ensures (forall id :: id in batch ==> id in due) && |batch| == Min(limit, |due|) && EarliestFirst(rows, batch)
    ensures forall id, k :: id in due && id !in batch && 0 <= k < |batch| ==> RunsBefore(rows, batch[k], id)
  {
    DistinctSize(sorted);
    assert (set id | id in sorted) == due;
    batch := if |sorted| > limit then sorted[..limit] else sorted;
    forall id, k | id in due && id !in batch && 0 <= k < |batch| ensures RunsBefore(rows, batch[k], id) {
      var i :| 0 <= i < |sorted| && sorted[i] == id;
      assert i >= |batch| && batch[k] == sorted[k];
    }
  }

  /** The rows a claim at this time leases: enabled, their time come, no lease open. */
  function ReadyRows(rows: map<ID, Schedules.Schedule>, now: Time): set<ID> {
    set id | id in rows && rows[id].enabled && rows[id].nextRunAt <= now
             && (rows[id].leaseUntil.None? || rows[id].leaseUntil.value <= now)
  }

  predicate RunsBefore(rows: map<ID, Schedules.Schedule>, a: ID, b: ID) {
    a in rows && b in rows && rows[a].nextRunAt <= rows[b].nextRunAt
  }

  predicate EarliestFirst(rows: map<ID, Schedules.Schedule>, s: seq<ID>) {
    forall i, j :: 0 <= i < j < |s| ==> s[i] != s[j] && RunsBefore(rows, s[i], s[j])
  }

  /** sort.Slice by the next run; insertion stands in for the library's sort. */
  method SortByNextRun(rows: map<ID, Schedules.Schedule>, ids: seq<ID>) returns (sorted: seq<ID>)
    requires forall id :: id in ids ==> id in rows
    requires forall i, j :: 0 <= i < j < |ids| ==> ids[i] != ids[j]
    ensures (forall id :: id in sorted <==> id in ids) && EarliestFirst(rows, sorted)
  {
    sorted := [];
    for k := 0 to |ids|
      invariant (forall id :: id in sorted <==> id in ids[..k]) && EarliestFirst(rows, sorted)
      invariant forall id :: id in sorted ==> id in rows
    {
      var at := 0;
      while at < |sorted| && rows[sorted[at]].nextRunAt <= rows[ids[k]].nextRunAt
        invariant 0 <= at <= |sorted|
        invariant forall i :: 0 <= i < at ==> RunsBefore(rows, sorted[i], ids[k])
      {
        at := at + 1;
      }
      InsertKeepsOrder(rows, sorted, at, ids[k]);
      sorted := sorted[..at] + [ids[k]] + sorted[at..];
      assert ids[..k + 1] == ids[..k] + [ids[k]];
    }
    assert ids[..|ids|] == ids;
  }

  lemma {:induction false} InsertKeepsOrder(rows: map<ID, Schedules.Schedule>, s: seq<ID>, at: nat, id: ID)
    requires EarliestFirst(rows, s) && at <= |s| && id in rows && id !in s && forall x :: x in s ==> x in rows
    requires forall i :: 0 <= i < at ==> RunsBefore(rows, s[i], id)
    requires at < |s| ==> RunsBefore(rows, id, s[at])
    ensures EarliestFirst(rows, s[..at] + [id] + s[at..])
    ensures forall x :: x in s[..at] + [id] + s[at..] <==> x in s || x == id
  {
    assert s == s[..at] + s[at..];
    var t := s[..at] + [id] + s[at..];
    forall i, j | 0 <= i < j < |t| ensures t[i] != t[j] && RunsBefore(rows, t[i], t[j]) {
      if i == at && j > at + 1 {
        assert RunsBefore(rows, s[at], s[j - 1]);
      }
    }
  }
}

/** What the compliance store promises over whole runs. */
module Guarantees {
  import opened Durations
  import opened Domain
  import opened Store
  import opened Compliance
  import opened Invariants
  import opened Histories
  import Replay
  import Schedules

  // ---------- the audit trail ----------

  /** After every run, folding an aggregate's events reproduces its current state. */
  lemma {:induction false} AuditReplay(history: seq<Call>)
    requires FreshIDs(history)
    ensures var s := Exec(EMPTY, history);
            && (forall id :: id in s.customers ==>
                Replay.CustomerOf(LogOf(s.events, id)) == Some(ViewOfCustomer(s.customers[id])))
            && (forall id :: id in s.alerts ==> Replay.AlertOf(LogOf(s.events, id)) == Some(ViewOfAlert(s.alerts[id])))
            && (forall id :: id in s.cases ==>
                  && Replay.CaseOf(LogOf(s.events, id)) == Some(ViewOfCase(s.cases[id]))
                  && s.cases[id].updatedAt == LastTime(LogOf(s.events, id)))
            && (forall id :: id in s.matches ==>
                  Replay.MatchOf(LogOf(s.events, s.matches[id].customer), id) == ViewOfMatch(s.matches[id]))
            && (forall id :: id in s.schedules ==>
                Replay.ScheduleOf(LogOf(s.events, id)) == Some(ViewOfSchedule(s.schedules[id])))
  {
    InvAlways(history);
    var s := Exec(EMPTY, history);
    assert forall x {:trigger CustomerGood(s, x)} {:trigger LogOf(s.events, x)} :: GoodAt(s, x);
    forall id | id in s.matches
        ensures Replay.MatchOf(LogOf(s.events, s.matches[id].customer), id) == ViewOfMatch(s.matches[id]) {
      assert GoodAt(s, id);
    }
  }

  // ---------- agreement between the entities ----------

  /** A transaction's customer is active and was reviewed by someone other than its creator. */
  predicate CheckedCustomer(s: State, id: ID) {
    id in s.customers && s.customers[id].status == Active && s.customers[id].reviewedBy != s.customers[id].createdBy
  }

  /** A case, its alert and the alert's transaction name one customer. */
  predicate OneCustomer(s: State, case_: ID)
    requires case_ in s.cases
  {
    var c := s.cases[case_];
    && c.alert in s.alerts && s.alerts[c.alert].transaction in s.transactions
    && c.customer == s.alerts[c.alert].customer == s.transactions[s.alerts[c.alert].transaction].customer
    && CheckedCustomer(s, c.customer)
  }

  lemma {:induction false} StoreAgrees(history: seq<Call>)
    requires FreshIDs(history)
    ensures var s := Exec(EMPTY, history);
            && (forall id :: id in s.transactions ==> CheckedCustomer(s, s.transactions[id].customer))
            && (forall id :: id in s.cases ==> OneCustomer(s, id))
            && (forall id :: id in s.cases && s.cases[id].status == CaseResolved ==>
                ClosedByCase(s.alerts[s.cases[id].alert], s.cases[id]))
            && OneCasePerAlert(s)
  {
    InvAlways(history);
    var s := Exec(EMPTY, history);
    forall id | id in s.transactions ensures CheckedCustomer(s, s.transactions[id].customer) {
      TransactionChecked(s, id);
    }
    forall id | id in s.cases
      ensures OneCustomer(s, id)
              && (s.cases[id].status == CaseResolved ==> ClosedByCase(s.alerts[s.cases[id].alert], s.cases[id])) {
      CaseChecked(s, id);
    }
  }

  lemma {:induction false} TransactionChecked(s: State, id: ID)
    requires EntitiesGood(s) && id in s.transactions
    ensures CheckedCustomer(s, s.transactions[id].customer)
  {
    GoodEverywhere(s, id);
    GoodEverywhere(s, s.transactions[id].customer);
  }

  lemma {:induction false} CaseChecked(s: State, id: ID)
    requires EntitiesGood(s) && id in s.cases
    ensures OneCustomer(s, id)
    ensures s.cases[id].status == CaseResolved ==> ClosedByCase(s.alerts[s.cases[id].alert], s.cases[id])
  {
    GoodEverywhere(s, id);
    GoodEverywhere(s, s.cases[id].alert);
    TransactionChecked(s, s.alerts[s.cases[id].alert].transaction);
  }

  // ---------- idempotent ingestion ----------

  function AlertIDsOf(s: State, transaction: ID): set<ID> {
    set id | id in s.alerts && s.alerts[id].transaction == transaction
  }

  function IDsOf(alerts: set<Alert>): set<ID> {
    set a | a in alerts :: a.id
  }

  lemma {:induction false} AlertsOfHaveIDs(s: State, transaction: ID)
    requires EntitiesGood(s)
    ensures IDsOf(AlertsOf(s, transaction)) == AlertIDsOf(s, transaction)
  {
    forall id | id in AlertIDsOf(s, transaction) ensures id in IDsOf(AlertsOf(s, transaction)) {
      GoodEverywhere(s, id);
      assert s.alerts[id] in AlertsOf(s, transaction);
    }
    forall id | id in IDsOf(AlertsOf(s, transaction)) ensures id in AlertIDsOf(s, transaction) {
      var a :| a in AlertsOf(s, transaction) && a.id == id;
      var k :| k in s.alerts && s.alerts[k] == a && a.transaction == transaction;
      GoodEverywhere(s, k);
    }
  }

  /** The alerts of a stored transaction are settled: as identifiers they never change. */
  lemma {:induction false} AlertIDsStand(s: State, t: State, transaction: ID)
    requires Stands(s, t) && transaction in s.transactions
    ensures AlertIDsOf(t, transaction) == AlertIDsOf(s, transaction)
  {
    forall id ensures id in AlertIDsOf(t, transaction) <==> id in AlertIDsOf(s, transaction) {
    }
  }

  lemma {:induction false} WithAlertsHolds(alerts: map<ID, Alert>, added: seq<Alert>)
    requires forall i, j :: 0 <= i < j < |added| ==> added[i].id != added[j].id
    ensures forall i :: 0 <= i < |added| ==>
            added[i].id in WithAlerts(alerts, added) && WithAlerts(alerts, added)[added[i].id] == added[i]
    ensures forall id :: id in WithAlerts(alerts, added) ==>
              WithAlerts(alerts, added)[id] in added || (id in alerts && alerts[id] == WithAlerts(alerts, added)[id])
  {
    if added != [] {
      WithAlertsHolds(alerts, added[..|added| - 1]);
    }
  }

  /** What is known of an ingested transaction from the moment its ingestion is answered. */
  ghost predicate Ingested(s: State, t: Transaction, alerts: set<ID>) {
    && t.id in s.transactions && s.transactions[t.id] == t
    && t.idempotencyKey in s.idempotency && s.idempotency[t.idempotencyKey] == t.id
    && AlertIDsOf(s, t.id) == alerts
  }

  lemma {:induction false} RaisedIDs(alerts: map<ID, Alert>, added: seq<Alert>, transaction: ID)
    requires forall id :: id in alerts ==> alerts[id].transaction != transaction
    requires forall i :: 0 <= i < |added| ==> added[i].id !in alerts && added[i].transaction == transaction
    requires forall i, j :: 0 <= i < j < |added| ==> added[i].id != added[j].id
    ensures (set id | id in WithAlerts(alerts, added) && WithAlerts(alerts, added)[id].transaction == transaction) ==
            (set a | a in added :: a.id)
  {
    WithAlertsHolds(alerts, added);
    WithAlertsAdds(alerts, added);
    forall id | id in WithAlerts(alerts, added) && WithAlerts(alerts, added)[id].transaction == transaction
      ensures id in (set a | a in added :: a.id) {
      AddedUnderOwnID(alerts, added, id);
    }
  }

  lemma {:induction false} NoAlertsYet(s: State, transaction: ID)
    requires EntitiesGood(s) && transaction !in s.transactions
    ensures forall id :: id in s.alerts ==> s.alerts[id].transaction != transaction
  {
    forall id | id in s.alerts ensures s.alerts[id].transaction != transaction {
      GoodEverywhere(s, id);
    }
  }

  lemma {:induction false} CreationRecords(s: State, c: Call)
    requires EntitiesGood(s) && c.request.Ingest? && PerformIngest(s, c).answer.Created?
    requires forall k: nat :: Fresh(s, ID(c.serial, k))
    ensures PerformIngest(s, c).answer.transaction == NewTransaction(c, Normalized(c.request.cmd))
    ensures var r := PerformIngest(s, c); Ingested(r.state, r.answer.transaction, IDsOf(r.answer.alerts))
  {
    var t := NewTransaction(c, Normalized(c.request.cmd));
    var added := NewAlerts(c, t, Findings(t));
    NoAlertsYet(s, t.id);
    RaisedIDs(s.alerts, added, t.id);
    CreationAnswers(s, c);
    AnsweredIDs(added);
  }

  lemma {:induction false} CreationAnswers(s: State, c: Call)
    requires c.request.Ingest? && PerformIngest(s, c).answer.Created?
    ensures var r, t := PerformIngest(s, c), NewTransaction(c, Normalized(c.request.cmd));
            var added := NewAlerts(c, t, Findings(t));
            && r.answer == Created(t, set a | a in added) && r.state.alerts == WithAlerts(s.alerts, added)
            && r.state.transactions == s.transactions[t.id := t]
            && r.state.idempotency == s.idempotency[t.idempotencyKey := t.id]
            && r.state.customers == s.customers && r.state.cases == s.cases
  {
  }

  lemma {:induction false} AnsweredIDs(added: seq<Alert>)
    ensures IDsOf(set a | a in added) == set a | a in added :: a.id
  {
  }

  lemma {:induction false} AddedUnderOwnID(alerts: map<ID, Alert>, added: seq<Alert>, id: ID)
    requires id in WithAlerts(alerts, added) && id !in alerts
    ensures WithAlerts(alerts, added)[id].id == id
  {
    if added != [] && id != added[|added| - 1].id {
      AddedUnderOwnID(alerts, added[..|added| - 1], id);
    }
  }

  lemma {:induction false} IngestedStands(s: State, t: State, transaction: Transaction, alerts: set<ID>)
    requires Ingested(s, transaction, alerts) && Stands(s, t)
    ensures Ingested(t, transaction, alerts)
  {
    AlertIDsStand(s, t, transaction.id);
  }

  /** Two commands ask for the same payment: seven fields agree, the time in whole microseconds. */
  predicate SameRequest(a: IngestCommand, b: IngestCommand) {
    && a.externalRef == b.externalRef && a.customer == b.customer && a.direction == b.direction
    && a.amountMinor == b.amountMinor && a.currency == b.currency
    && a.counterpartyCountry == b.counterpartyCountry && a.occurredAt / 1000 == b.occurredAt / 1000
  }

  lemma {:induction false} PayloadsAgree(c: Call, d: Call, a: IngestCommand, b: IngestCommand)
    ensures SamePayload(NewTransaction(c, a), NewTransaction(d, b)) <==> SameRequest(a, b)
  {
  }

  /** A known key is answered from the store: the payload of the command that created the transaction decides. */
  lemma {:induction false} ReplayAnswers(s: State, c: Call, first: Call, created: IngestCommand, alerts: set<ID>)
    requires EntitiesGood(s) && Ingested(s, NewTransaction(first, created), alerts)
    requires c.request.Ingest? && ValidIngest(Normalized(c.request.cmd))
    requires Normalized(c.request.cmd).idempotencyKey == created.idempotencyKey
    ensures var a := PerformIngest(s, c).answer;
            if SameRequest(created, Normalized(c.request.cmd))
            then a.Replayed? && a.transaction == NewTransaction(first, created) && IDsOf(a.alerts) == alerts
            else a == Failed(IdempotencyConflict)
  {
    AlertsOfHaveIDs(s, NewTransaction(first, created).id);
    PayloadsAgree(first, c, created, Normalized(c.request.cmd));
  }

  lemma {:induction false} FreshPrefix(history: seq<Call>, i: nat)
    requires FreshIDs(history) && i < |history|
    ensures Inv(Exec(EMPTY, history[..i]), Serials(history[..i])) && history[i].serial !in Serials(history[..i])
    ensures forall k: nat :: Fresh(Exec(EMPTY, history[..i]), ID(history[i].serial, k))
  {
    InvAlways(history[..i]);
    Widen(Exec(EMPTY, history[..i]), Serials(history[..i]), history[i].serial);
  }

  lemma {:induction false} OneMoreCall(history: seq<Call>, i: nat)
    requires i < |history|
    ensures Exec(EMPTY, history[..i + 1]) == Perform(Exec(EMPTY, history[..i]), history[i]).state
  {
    assert history[..i + 1] == history[..i] + [history[i]];
    Exec1(EMPTY, history[..i], history[i]);
  }

  lemma {:induction false} IngestedNow(history: seq<Call>, i: nat)
    requires FreshIDs(history) && i < |history| && history[i].request.Ingest? && AnswerAt(history, i).Created?
    ensures Ingested(Exec(EMPTY, history[..i + 1]), AnswerAt(history, i).transaction,
                     IDsOf(AnswerAt(history, i).alerts))
    ensures AnswerAt(history, i).transaction == NewTransaction(history[i], Normalized(history[i].request.cmd))
  {
    FreshPrefix(history, i);
    CreationRecords(Exec(EMPTY, history[..i]), history[i]);
    OneMoreCall(history, i);
  }

  lemma {:induction false} IngestedByThen(history: seq<Call>, i: nat, j: nat)
    requires FreshIDs(history) && i < j <= |history| && history[i].request.Ingest? && AnswerAt(history, i).Created?
    ensures Ingested(Exec(EMPTY, history[..j]), AnswerAt(history, i).transaction, IDsOf(AnswerAt(history, i).alerts))
    ensures AnswerAt(history, i).transaction == NewTransaction(history[i], Normalized(history[i].request.cmd))
  {
    IngestedNow(history, i);
    PastStands(history[..j], i + 1);
    assert history[..j][..i + 1] == history[..i + 1];
    IngestedStands(Exec(EMPTY, history[..i + 1]), Exec(EMPTY, history[..j]), AnswerAt(history, i).transaction,
                   IDsOf(AnswerAt(history, i).alerts));
  }

  /**
   Once a key was used, every later valid ingestion under it, whatever happened in between, is a
   replay of the same transaction with the same alerts exactly when it asks for the same payment,
   and otherwise a conflict.
   */
  lemma {:induction false} IngestionIsIdempotent(history: seq<Call>, i: nat, j: nat)
    requires FreshIDs(history) && i < j < |history|
    requires history[i].request.Ingest? && AnswerAt(history, i).Created?
    requires history[j].request.Ingest? && ValidIngest(Normalized(history[j].request.cmd))
    requires Normalized(history[j].request.cmd).idempotencyKey == Normalized(history[i].request.cmd).idempotencyKey
    ensures var first, again := AnswerAt(history, i), AnswerAt(history, j);
            if SameRequest(Normalized(history[i].request.cmd), Normalized(history[j].request.cmd))
            then again.Replayed? && again.transaction == first.transaction && IDsOf(again.alerts) == IDsOf(first.alerts)
            else again == Failed(IdempotencyConflict)
  {
    IngestedByThen(history, i, j);
    FreshPrefix(history, j);
    ReplayAnswers(Exec(EMPTY, history[..j]), history[j], history[i], Normalized(history[i].request.cmd),
                  IDsOf(AnswerAt(history, i).alerts));
  }

  /** The alerts as first answered: open, and stored under their own identifiers. */
  ghost predicate Recorded(s: State, alerts: set<Alert>) {
    forall a :: a in alerts ==> a.status == AlertOpen && a.id in s.alerts && s.alerts[a.id] == a
  }

  lemma {:induction false} CreationStoresAlerts(s: State, c: Call)
    requires c.request.Ingest? && PerformIngest(s, c).answer.Created?
    ensures Recorded(PerformIngest(s, c).state, PerformIngest(s, c).answer.alerts)
  {
    var t := NewTransaction(c, Normalized(c.request.cmd));
    WithAlertsHolds(s.alerts, NewAlerts(c, t, Findings(t)));
  }

  /** Later they are the same alerts exactly while none of them was closed. */
  lemma {:induction false} SameAlertsIff(s: State, t: State, transaction: ID, alerts: set<Alert>)
    requires Recorded(s, alerts) && AlertsStand(s.alerts, t.alerts, s.transactions)
    requires AlertIDsOf(t, transaction) == IDsOf(alerts)
    ensures AlertsOf(t, transaction) == alerts <==> StillOpen(t, IDsOf(alerts))
  {
    forall a | a in alerts ensures a.id in IDsOf(alerts) && a.id in AlertIDsOf(t, transaction) {
    }
    if AlertsOf(t, transaction) == alerts {
      forall id | id in IDsOf(alerts) ensures id in t.alerts && t.alerts[id].status == AlertOpen {
        assert t.alerts[id] in AlertsOf(t, transaction);
      }
    }
    if StillOpen(t, IDsOf(alerts)) {
      forall a ensures a in AlertsOf(t, transaction) <==> a in alerts {
        if a in alerts {
          assert t.alerts[a.id] == a;
        }
        if a in AlertsOf(t, transaction) {
          var id :| id in t.alerts && t.alerts[id].transaction == transaction && t.alerts[id] == a;
          assert id in IDsOf(alerts);
          var b :| b in alerts && b.id == id;
        }
      }
    }
  }

  predicate StillOpen(s: State, alerts: set<ID>) {
    forall id :: id in alerts ==> id in s.alerts && s.alerts[id].status == AlertOpen
  }

  lemma {:induction false} RecordedNow(history: seq<Call>, i: nat)
    requires i < |history| && history[i].request.Ingest? && AnswerAt(history, i).Created?
    ensures Recorded(Exec(EMPTY, history[..i + 1]), AnswerAt(history, i).alerts)
  {
    CreationStoresAlerts(Exec(EMPTY, history[..i]), history[i]);
    OneMoreCall(history, i);
  }

  lemma {:induction false} ReplayedAlerts(s: State, c: Call)
    requires c.request.Ingest? && PerformIngest(s, c).answer.Replayed?
    ensures var a := PerformIngest(s, c).answer; a.alerts == AlertsOf(s, a.transaction.id)
  {
  }

  /** The replay is the original response, alerts included, exactly while none of its alerts was closed. */
  lemma {:induction false} ReplayIsOriginalIff(history: seq<Call>, i: nat, j: nat)
    requires FreshIDs(history) && i < j < |history|
    requires history[i].request.Ingest? && AnswerAt(history, i).Created?
    requires history[j].request.Ingest? && ValidIngest(Normalized(history[j].request.cmd))
    requires Normalized(history[j].request.cmd).idempotencyKey == Normalized(history[i].request.cmd).idempotencyKey
    requires SamePayload(AnswerAt(history, i).transaction,
                         NewTransaction(history[j], Normalized(history[j].request.cmd)))
    ensures var first, again := AnswerAt(history, i), AnswerAt(history, j);
            && again.Replayed? && again.transaction == first.transaction
            && (again.alerts == first.alerts <==> StillOpen(Exec(EMPTY, history[..j]), IDsOf(first.alerts)))
  {
    var first := AnswerAt(history, i);
    IngestionIsIdempotent(history, i, j);
    IngestedByThen(history, i, j);
    ReplayedAlerts(Exec(EMPTY, history[..j]), history[j]);
    AlertsSince(history, i, j);
    SameAlertsIff(Exec(EMPTY, history[..i + 1]), Exec(EMPTY, history[..j]), first.transaction.id, first.alerts);
  }

  lemma {:induction false} AlertsSince(history: seq<Call>, i: nat, j: nat)
    requires FreshIDs(history) && i < j < |history|
    requires history[i].request.Ingest? && AnswerAt(history, i).Created?
    ensures var s, t := Exec(EMPTY, history[..i + 1]), Exec(EMPTY, history[..j]);
            Recorded(s, AnswerAt(history, i).alerts) && AlertsStand(s.alerts, t.alerts, s.transactions)
  {
    RecordedNow(history, i);
    PastStands(history[..j], i + 1);
    assert history[..j][..i + 1] == history[..i + 1];
  }

  // ---------- reading a transaction back and sending it again ----------

  predicate Trimmed(s: string) {
    s == [] || (!IsSpace(s[0]) && !IsSpace(s[|s| - 1]))
  }

  lemma {:induction false} TrimLeftShape(s: string)
    ensures TrimLeft(s) == [] || !IsSpace(TrimLeft(s)[0])
  {
    if s != [] && IsSpace(s[0]) {
      TrimLeftShape(s[1..]);
    }
  }

  lemma {:induction false} TrimRightShape(s: string)
    ensures TrimRight(s) == [] || (!IsSpace(TrimRight(s)[|TrimRight(s)| - 1]) && TrimRight(s)[0] == s[0])
  {
    if s != [] && IsSpace(s[|s| - 1]) {
      TrimRightShape(s[..|s| - 1]);
    }
  }

  lemma {:induction false} TrimIsStable(s: string)
    ensures Trimmed(Trim(s)) && Trim(Trim(s)) == Trim(s)
  {
    TrimLeftShape(s);
    TrimRightShape(TrimLeft(s));
  }

  lemma {:induction false} CodeIsStable(s: string)
    ensures Upper(Trim(Upper(Trim(s)))) == Upper(Trim(s))
  {
    TrimIsStable(s);
    var code := Upper(Trim(s));
    assert Trimmed(code);
    assert Trim(code) == code;
    assert forall i :: 0 <= i < |code| ==> UpperChar(code[i]) == code[i];
    assert Upper(code) == code;
  }

  function Resubmitted(t: Transaction, actor: string): IngestCommand {
    IngestCommand(t.externalRef, t.customer, t.direction, t.amountMinor, t.currency, t.counterpartyCountry,
                  t.occurredAt, actor, t.idempotencyKey)
  }

  lemma {:induction false} StoredFieldsAreNormal(c: Call, cmd: IngestCommand, actor: string)
    requires ValidIngest(Normalized(cmd))
    ensures var again := Normalized(Resubmitted(NewTransaction(c, Normalized(cmd)), actor));
            && again == Resubmitted(NewTransaction(c, Normalized(cmd)), Trim(actor))
            && (ValidIngest(again) <==> Trim(actor) != "" && ToMicroseconds(cmd.occurredAt) != ZERO_TIME)
  {
    TrimIsStable(cmd.externalRef);
    TrimIsStable(cmd.idempotencyKey);
    CodeIsStable(cmd.currency);
    CodeIsStable(cmd.counterpartyCountry);
  }

  /**
   A stored transaction sent again field by field is a replay, whatever happened since, exactly
   when its stored time can pass for a time: an instant less than a microsecond after the zero
   time is accepted once, stored as the zero time, and refused afterwards.
   */
  lemma {:induction false} ResubmissionReplaysIff(history: seq<Call>, i: nat, j: nat, actor: string)
    requires FreshIDs(history) && i < j < |history|
    requires history[i].request.Ingest? && AnswerAt(history, i).Created? && Trim(actor) != ""
    requires history[j].request == Ingest(Resubmitted(AnswerAt(history, i).transaction, actor))
    ensures var first, again := AnswerAt(history, i), AnswerAt(history, j);
            if first.transaction.occurredAt != ZERO_TIME
            then again.Replayed? && again.transaction == first.transaction && IDsOf(again.alerts) == IDsOf(first.alerts)
            else again == Failed(InvalidTransaction)
  {
    IngestedByThen(history, i, j);
    CreatedWasValid(history, i);
    StoredFieldsAreNormal(history[i], history[i].request.cmd, actor);
    if AnswerAt(history, i).transaction.occurredAt != ZERO_TIME {
      StoredFieldsMatch(history[i], history[i].request.cmd, actor);
      IngestionIsIdempotent(history, i, j);
    } else {
      InvalidIsRefused(Exec(EMPTY, history[..j]), history[j]);
    }
  }

  lemma {:induction false} StoredFieldsMatch(c: Call, cmd: IngestCommand, actor: string)
    requires ValidIngest(Normalized(cmd))
    ensures var again := Normalized(Resubmitted(NewTransaction(c, Normalized(cmd)), actor));
            SameRequest(Normalized(cmd), again) && again.idempotencyKey == Normalized(cmd).idempotencyKey
  {
    StoredFieldsAreNormal(c, cmd, actor);
  }

  lemma {:induction false} InvalidIsRefused(s: State, c: Call)
    requires c.request.Ingest? && !ValidIngest(Normalized(c.request.cmd))
    ensures Perform(s, c).answer == Failed(InvalidTransaction)
  {
  }

  lemma {:induction false} CreatedWasValid(history: seq<Call>, i: nat)
    requires i < |history| && history[i].request.Ingest? && AnswerAt(history, i).Created?
    ensures ValidIngest(Normalized(history[i].request.cmd))
  {
  }

  lemma {:induction false} CreatedEarlier(history: seq<Call>, n: nat, i: nat, key: string)
    requires i < n <= |history| && CreatedUnder(history[..n], i, key)
    ensures CreatedUnder(history, i, key)
  {
    assert history[..n][..i] == history[..i];
  }

  lemma {:induction false} CreatedLast(history: seq<Call>, key: string)
    requires history != []
    requires key !in Exec(EMPTY, history[..|history| - 1]).idempotency && key in Exec(EMPTY, history).idempotency
    ensures CreatedUnder(history, |history| - 1, key)
  {
    KeyComesFromIngest(Exec(EMPTY, history[..|history| - 1]), history[|history| - 1], key);
  }

  /**
   And a replayed transaction was created by an earlier ingestion under the same key: every key
   creates exactly once.
   */
  lemma {:induction false} StoredWasCreated(history: seq<Call>, key: string) returns (i: nat)
    requires key in Exec(EMPTY, history).idempotency
    ensures i < |history| && CreatedUnder(history, i, key)
  {
    assert history != [];
    var n := |history| - 1;
    if key in Exec(EMPTY, history[..n]).idempotency {
      i := StoredWasCreated(history[..n], key);
      CreatedEarlier(history, n, i, key);
    } else {
      CreatedLast(history, key);
      i := n;
    }
  }

  predicate CreatedUnder(history: seq<Call>, i: nat, key: string)
    requires i < |history|
  {
    && history[i].request.Ingest? && Normalized(history[i].request.cmd).idempotencyKey == key
        && AnswerAt(history, i).Created?
  }

  lemma {:induction false} StoreKeepsKeys(s: State, c: Call)
    requires c.request.Onboard? || c.request.Review? || c.request.Close? || c.request.Screen?
    ensures Perform(s, c).state.idempotency == s.idempotency
  {
  }

  lemma {:induction false} CasesKeepKeys(s: State, c: Call)
    requires c.request.OpenCase? || c.request.Assign? || c.request.AddComment? || c.request.Resolve?
    ensures Perform(s, c).state.idempotency == s.idempotency
  {
  }

  lemma {:induction false} MonitoringKeepsKeys(s: State, c: Call)
    requires c.request.Disposition? || c.request.Configure? || c.request.ClaimDue? || c.request.CompleteRun?
             || c.request.UpdateDueDiligence?
    ensures Perform(s, c).state.idempotency == s.idempotency
  {
  }

  lemma {:induction false} KeyComesFromIngest(s: State, c: Call, key: string)
    requires key !in s.idempotency && key in Perform(s, c).state.idempotency
    ensures c.request.Ingest? && Normalized(c.request.cmd).idempotencyKey == key && PerformIngest(s, c).answer.Created?
  {
    var r := c.request;
    if r.Onboard? || r.Review? || r.Close? || r.Screen? {
      StoreKeepsKeys(s, c);
    } else if r.OpenCase? || r.Assign? || r.AddComment? || r.Resolve? {
      CasesKeepKeys(s, c);
    } else if !r.Ingest? {
      MonitoringKeepsKeys(s, c);
    }
  }

  lemma {:induction false} KeyCreatesOnce(history: seq<Call>, i: nat, j: nat, key: string)
    requires FreshIDs(history) && i < |history| && j < |history|
    requires CreatedUnder(history, i, key) && CreatedUnder(history, j, key)
    ensures i == j
  {
    if i < j {
      IngestionIsIdempotent(history, i, j);
    } else if j < i {
      IngestionIsIdempotent(history, j, i);
    }
  }

  // ---------- schedules ----------

  /**
   An operator's request leaves the row that the lease protocol's Configure step leaves: only the
   last run survives.
   */
  lemma {:induction false} ConfigureIsProtocolStep(s: State, c: Call)
    requires c.request.Configure?
    ensures var r := c.request;
            var previous := if r.customer in s.schedules then Some(s.schedules[r.customer]) else None;
            && (PerformConfigure(s, c).answer == Done <==>
                r.customer in s.customers && r.customer != Blank && Trim(r.actor) != ""
                    && Schedules.ValidHours(r.hours))
            && (PerformConfigure(s, c).answer == Done ==>
                  PerformConfigure(s, c).state.schedules ==
                  s.schedules[r.customer := Schedules.Configured(previous, r.enabled, r.hours, Trim(r.actor), c.now)])
  {
  }

  // ---------- cases that can never be resolved ----------

  predicate ResolvedIn(s: State, case_: ID) {
    case_ in s.cases && s.cases[case_].status == CaseResolved
  }

  lemma {:induction false} FreshSerial(used: set<nat>) returns (serial: nat)
    ensures forall k :: k in used ==> k < serial
  {
    serial := 0;
    if used != {} {
      var k :| k in used;
      serial := FreshSerial(used - {k});
      serial := if serial <= k then k + 1 else serial;
      assert used == (used - {k}) + {k};
    }
  }

  lemma {:induction false} OpenAlertResolves(s: State, case_: ID, serial: nat)
    requires case_ != Blank && case_ in s.cases && s.cases[case_].status != CaseResolved
    requires s.cases[case_].alert in s.alerts && s.alerts[s.cases[case_].alert].status == AlertOpen
    ensures ResolvedIn(Perform(s, Call(serial, 0, Resolve(case_, "x", "y"))).state, case_)
  {
    TrimKeeps("x");
    TrimKeeps("y");
  }

  lemma {:induction false} TrimKeeps(s: string)
    requires s != [] && !IsSpace(s[0]) && !IsSpace(s[|s| - 1])
    ensures Trim(s) == s
  {
  }

  lemma {:induction false} CanResolve(history: seq<Call>, case_: ID) returns (more: seq<Call>)
    requires FreshIDs(history)
    requires var s := Exec(EMPTY, history);
             && case_ in s.cases && s.cases[case_].status != CaseResolved
             && s.cases[case_].alert in s.alerts && s.alerts[s.cases[case_].alert].status == AlertOpen
    ensures FreshIDs(history + more) && ResolvedIn(Exec(EMPTY, history + more), case_)
  {
    var serial := FreshSerial(Serials(history));
    more := [Call(serial, 0, Resolve(case_, "x", "y"))];
    CaseHasAlert(history, case_);
    forall i | 0 <= i < |history| ensures history[i].serial in Serials(history) {
    }
    OpenAlertResolves(Exec(EMPTY, history), case_, serial);
    Exec1(EMPTY, history, more[0]);
  }

  lemma {:induction false} OrphanStays(history: seq<Call>, more: seq<Call>, case_: ID)
    requires FreshIDs(history + more)
    requires var s := Exec(EMPTY, history);
             && case_ in s.cases && s.cases[case_].status != CaseResolved
             && s.cases[case_].alert in s.alerts && s.alerts[s.cases[case_].alert].status == AlertClosed
    ensures !ResolvedIn(Exec(EMPTY, history + more), case_)
  {
    PastStands(history + more, |history|);
    assert (history + more)[..|history|] == history;
  }

  /** An unresolved case can still be resolved, by whatever requests may follow, exactly while its alert is open. */
  lemma {:induction false} ResolvableIff(history: seq<Call>, case_: ID)
    requires FreshIDs(history)
    requires case_ in Exec(EMPTY, history).cases && Exec(EMPTY, history).cases[case_].status != CaseResolved
    ensures var s := Exec(EMPTY, history);
            && s.cases[case_].alert in s.alerts
            && (s.alerts[s.cases[case_].alert].status == AlertOpen <==>
                exists more :: FreshIDs(history + more) && ResolvedIn(Exec(EMPTY, history + more), case_))
  {
    var s := Exec(EMPTY, history);
    CaseHasAlert(history, case_);
    if s.alerts[s.cases[case_].alert].status == AlertOpen {
      var more := CanResolve(history, case_);
    } else {
      forall more | FreshIDs(history + more) ensures !ResolvedIn(Exec(EMPTY, history + more), case_) {
        OrphanStays(history, more, case_);
      }
    }
  }

  lemma {:induction false} CaseHasAlert(history: seq<Call>, case_: ID)
    requires FreshIDs(history) && case_ in Exec(EMPTY, history).cases
    ensures Exec(EMPTY, history).cases[case_].alert in Exec(EMPTY, history).alerts && case_ != Blank
  {
    InvAlways(history);
    CaseChecked(Exec(EMPTY, history), case_);
  }
}

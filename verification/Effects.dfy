/**
 What each request leaves behind, field by field: which part of the request ends in which field of
 the record and of the event, and with which answer a refused request is turned down.
 */
module Effects {
  import opened Durations
  import opened Domain
  import opened Store
  import opened Compliance
  import opened Invariants
  import opened Histories
  import opened Guarantees
  import EventLog
  import Fanout
  import Schedules

  // ---------- texts ----------

  /** Trimming cuts exactly the spaces at the two ends. */
  lemma {:induction false} TrimCuts(s: string) returns (i: nat, j: nat)
    ensures i <= j <= |s| && Trim(s) == s[i..j]
    ensures (forall k :: 0 <= k < i || j <= k < |s| ==> IsSpace(s[k]))
    ensures i < j ==> !IsSpace(s[i]) && !IsSpace(s[j - 1])
  {
    i := LeftCut(s);
    var m := RightCut(s[i..]);
    j := i + m;
    TrimIsStable(s);
    assert s[i..][..m] == s[i..j];
    forall k | j <= k < |s| ensures IsSpace(s[k]) {
      assert s[k] == s[i..][k - i];
    }
  }

  lemma {:induction false} LeftCut(s: string) returns (i: nat)
    ensures i <= |s| && TrimLeft(s) == s[i..] && forall k :: 0 <= k < i ==> IsSpace(s[k])
  {
    if s != [] && IsSpace(s[0]) {
      var rest := LeftCut(s[1..]);
      i := rest + 1;
      assert s[1..][rest..] == s[i..];
      forall k | 0 <= k < i ensures IsSpace(s[k]) {
        assert k > 0 ==> s[k] == s[1..][k - 1];
      }
    } else {
      i := 0;
    }
  }

  lemma {:induction false} RightCut(s: string) returns (j: nat)
    ensures j <= |s| && TrimRight(s) == s[..j] && forall k :: j <= k < |s| ==> IsSpace(s[k])
  {
    if s != [] && IsSpace(s[|s| - 1]) {
      j := RightCut(s[..|s| - 1]);
      assert s[..|s| - 1][..j] == s[..j];
      forall k | j <= k < |s| ensures IsSpace(s[k]) {
        assert k < |s| - 1 ==> s[k] == s[..|s| - 1][k];
      }
    } else {
      j := |s|;
    }
  }

  /** Codes are upper-cased letter by letter. */
  lemma {:induction false} UpperByLetter(s: string)
    ensures |Upper(s)| == |s|
    ensures forall i :: 0 <= i < |s| ==> Upper(s)[i] == if 'a' <= s[i] <= 'z' then s[i] - 'a' + 'A' else s[i]
  {
  }

  // ---------- customers ----------

  lemma {:induction false} OnboardWrites(s: State, c: Call)
    requires c.request.Onboard?
    ensures var r, id := c.request, ID(c.serial, 0);
            var name, country, actor := Trim(r.legalName), Upper(Trim(r.countryCode)), Trim(r.actor);
            if name != "" && |country| == 2 && actor != "" && r.customerType != OtherType && r.countryRisk != OtherRisk
            then Perform(s, c) == Result(
                   s.(customers := s.customers[id := Customer(id, name, country, PendingApproval, actor, c.now,
                       "", None)],
                      events := Appended(s.events,
                                         Event(ID(c.serial, 1), CustomerAggregate, id, actor, c.now, Submitted))),
                   Done)
            else Perform(s, c) == Result(s, Failed(InvalidCustomer))
  {
  }

  /** The decision asked for is the status that results. */
  lemma {:induction false} ReviewDecides(s: State, c: Call)
    requires c.request.Review? && c.request.customer in s.customers && c.request.customer != Blank
    requires s.customers[c.request.customer].status == PendingApproval && c.request.decision != OtherDecision
    requires Trim(c.request.actor) != "" && Trim(c.request.actor) != s.customers[c.request.customer].createdBy
    ensures var r, t := c.request, Perform(s, c).state;
            && Perform(s, c).answer == Done
            && t == s.(customers := t.customers, events := t.events)
            && t.customers.Keys == s.customers.Keys
            && (forall id :: id in s.customers && id != r.customer ==> t.customers[id] == s.customers[id])
            && (r.decision == Approve ==> t.customers[r.customer].status == Active)
            && (r.decision == Reject ==> t.customers[r.customer].status == Rejected)
            && t.customers[r.customer].reviewedBy == Trim(r.actor) && t.customers[r.customer].reviewedAt == Some(c.now)
            && t.customers[r.customer] == s.customers[r.customer].(
                 status := t.customers[r.customer].status, reviewedBy := Trim(r.actor), reviewedAt := Some(c.now))
            && t.events == Appended(s.events,
                                    Event(ID(c.serial, 0), CustomerAggregate, r.customer, Trim(r.actor), c.now,
                                                    Reviewed(r.decision == Approve, Trim(r.reason))))
  {
  }

  /** Every other review is refused, and the first reason that applies is the answer. */
  lemma {:induction false} ReviewRefusals(s: State, c: Call)
    requires c.request.Review?
    ensures var r, a := c.request, Perform(s, c).answer;
            if r.customer == Blank || Trim(r.actor) == "" || r.decision == OtherDecision then
                a == Failed(InvalidCustomer)
            else if r.customer !in s.customers then a == Failed(CustomerNotFound)
            else if s.customers[r.customer].createdBy == Trim(r.actor) then a == Failed(MakerCannotReview)
            else if s.customers[r.customer].status != PendingApproval then a == Failed(ReviewConflict)
            else a == Done
  {
  }

  // ---------- transactions and alerts ----------

  /** The alerts a payment raises: the large one first. */
  function Rules(amountMinor: int, country: string): seq<RuleCode> {
    (if amountMinor >= 1_000_000 then [LargeTransaction] else []) +
    (if country == "IR" || country == "KP" || country == "SY" then [HighRiskCounterpartyCountry] else [])
  }

  lemma {:induction false} IngestValidates(cmd: IngestCommand)
    ensures ValidIngest(Normalized(cmd)) <==>
              && cmd.customer != Blank && cmd.amountMinor > 0 && cmd.direction != OtherDirection
              && cmd.occurredAt != 0 && Trim(cmd.actor) != "" && 0 < |Trim(cmd.idempotencyKey)| <= 200
              && |Upper(Trim(cmd.currency))| == 3 && |Upper(Trim(cmd.counterpartyCountry))| == 2
  {
  }

  /** A payment under a new key of an active customer is stored as sent, with one open alert for each rule it breaks. */
  lemma {:induction false} IngestWrites(s: State, c: Call)
    requires c.request.Ingest? && ValidIngest(Normalized(c.request.cmd))
    requires Trim(c.request.cmd.idempotencyKey) !in s.idempotency
    requires c.request.cmd.customer in s.customers && s.customers[c.request.cmd.customer].status == Active
    ensures var cmd, id, key := c.request.cmd, ID(c.serial, 0), Trim(c.request.cmd.idempotencyKey);
            var country := Upper(Trim(cmd.counterpartyCountry));
            var t := Transaction(id, key, Trim(cmd.externalRef), cmd.customer, cmd.direction, cmd.amountMinor,
                                 Upper(Trim(cmd.currency)), country, cmd.occurredAt - cmd.occurredAt % 1000, c.now,
                                     Trim(cmd.actor));
            var r := Perform(s, c);
            && r.answer.Created? && r.answer.transaction == t
            && r.state.transactions == s.transactions[id := t] && r.state.idempotency == s.idempotency[key := id]
            && r.answer.alerts == set k | 0 <= k < |Rules(t.amountMinor, country)| ::
                 Alert(ID(c.serial, 2 + 2 * k), id, cmd.customer, Rules(t.amountMinor, country)[k], AlertOpen, c.now,
                       None, "", "")
  {
    var t := NewTransaction(c, Normalized(c.request.cmd));
    var rules := Rules(t.amountMinor, t.counterpartyCountry);
    assert Findings(t) == rules;
    RaisedSet(c, t, rules);
  }

  /** The events of the alerts a payment raises, in the order of the rules. */
  function AlertEvents(c: Call, rules: seq<RuleCode>): seq<Event> {
    seq(|rules|, k requires 0 <= k < |rules| =>
      Event(ID(c.serial, 3 + 2 * k), AlertAggregate, ID(c.serial, 2 + 2 * k), "transaction-monitoring-engine",
            c.now, AlertRaised(ID(c.serial, 0), rules[k])))
  }

  lemma {:induction false} AlertEventsBuilt(c: Call, t: Transaction)
    requires t.id == ID(c.serial, 0)
    ensures NewAlertEvents(c, t, Findings(t)) == AlertEvents(c, Rules(t.amountMinor, t.counterpartyCountry))
  {
    assert Findings(t) == Rules(t.amountMinor, t.counterpartyCountry);
  }

  /** And its events: the payment's own, then one for each alert. */
  lemma {:induction false} IngestLogs(s: State, c: Call)
    requires c.request.Ingest? && PerformIngest(s, c).answer.Created?
    ensures var cmd, id := c.request.cmd, ID(c.serial, 0);
            Perform(s, c).state.events == AllAppended(
              Appended(s.events, Event(ID(c.serial, 1), TransactionAggregate, id, Trim(cmd.actor), c.now,
                                       Ingested(cmd.customer, cmd.amountMinor))),
              AlertEvents(c, Rules(cmd.amountMinor, Upper(Trim(cmd.counterpartyCountry)))))
  {
    AlertEventsBuilt(c, NewTransaction(c, Normalized(c.request.cmd)));
  }

  lemma {:induction false} RaisedSet(c: Call, t: Transaction, rules: seq<RuleCode>)
    ensures (set a | a in NewAlerts(c, t, rules)) ==
            set k | 0 <= k < |rules| ::
                Alert(ID(c.serial, 2 + 2 * k), t.id, t.customer, rules[k], AlertOpen, c.now, None, "", "")
  {
    var alerts := NewAlerts(c, t, rules);
    forall k | 0 <= k < |rules|
      ensures Alert(ID(c.serial, 2 + 2 * k), t.id, t.customer, rules[k], AlertOpen, c.now, None, "", "") in alerts
    {
      assert alerts[k] == Alert(ID(c.serial, 2 + 2 * k), t.id, t.customer, rules[k], AlertOpen, c.now, None, "", "");
    }
  }

  lemma {:induction false} IngestRefusals(s: State, c: Call)
    requires c.request.Ingest? && Trim(c.request.cmd.idempotencyKey) !in s.idempotency
    ensures var cmd, a := c.request.cmd, Perform(s, c).answer;
            if !ValidIngest(Normalized(cmd)) then a == Failed(InvalidTransaction)
            else if cmd.customer !in s.customers then a == Failed(CustomerNotFound)
            else if s.customers[cmd.customer].status != Active then a == Failed(CustomerNotActive)
            else a.Created?
  {
  }

  /** Closing writes who, when and why on the alert and in its log. */
  lemma {:induction false} CloseWrites(s: State, c: Call)
    requires c.request.Close?
    ensures var r, id := c.request, c.request.alert;
            var actor, reason := Trim(r.actor), Trim(r.reason);
            if id == Blank || actor == "" || reason == "" then Perform(s, c) == Result(s, Failed(InvalidAlertReview))
            else if id !in s.alerts then Perform(s, c) == Result(s, Failed(AlertNotFound))
            else if s.alerts[id].status != AlertOpen then Perform(s, c) == Result(s, Failed(AlertConflict))
            else Perform(s, c) == Result(
                   s.(alerts := s.alerts[id := s.alerts[id].(
                        status := AlertClosed, closedAt := Some(c.now), closedBy := actor, closureReason := reason)],
                      events := Appended(s.events, Event(ID(c.serial, 0), AlertAggregate, id, actor, c.now,
                                                         AlertClosure(reason, false)))),
                   Done)
  {
  }

  // ---------- cases ----------

  lemma {:induction false} OpenCaseWrites(s: State, c: Call)
    requires c.request.OpenCase?
    ensures var r, id := c.request, ID(c.serial, 0);
            var title, actor := Trim(r.title), Trim(r.actor);
            if r.alert == Blank || title == "" || |title| > 200 || actor == "" || r.priority == OtherPriority then
              Perform(s, c) == Result(s, Failed(InvalidCase))
            else if r.alert !in s.alerts then Perform(s, c) == Result(s, Failed(AlertNotFound))
            else if s.alerts[r.alert].status != AlertOpen then Perform(s, c) == Result(s, Failed(AlertConflict))
            else if exists k :: k in s.cases && s.cases[k].alert == r.alert then
              Perform(s, c) == Result(s, Failed(AlertHasCase))
            else
              Perform(s, c) == Result(
                s.(cases := s.cases[id := Case(id, r.alert, s.alerts[r.alert].customer, title, r.priority,
                                               CaseOpen, "", "",
                                               actor, c.now, c.now, "", None)],
                   events := Appended(s.events, Event(ID(c.serial, 1), CaseAggregate, id, actor, c.now,
                                                      CaseCreated(r.alert, r.priority)))),
                Done)
  {
  }

  lemma {:induction false} AssignWrites(s: State, c: Call)
    requires c.request.Assign?
    ensures var r, id := c.request, c.request.case_;
            var assignee, actor := Trim(r.assignee), Trim(r.actor);
            if id == Blank || assignee == "" || |assignee| > 200 || actor == "" then
              Perform(s, c) == Result(s, Failed(InvalidCase))
            else if id !in s.cases then Perform(s, c) == Result(s, Failed(CaseNotFound))
            else if s.cases[id].status == CaseResolved then Perform(s, c) == Result(s, Failed(CaseConflict))
            else
              Perform(s, c) == Result(
                s.(cases := s.cases[id := s.cases[id].(assignedTo := assignee, status := CaseInProgress,
                                                       updatedAt := c.now)],
                   events := Appended(s.events,
                                      Event(ID(c.serial, 0), CaseAggregate, id, actor, c.now, CaseAssigned(assignee)))),
                Done)
  {
  }

  lemma {:induction false} CommentWrites(s: State, c: Call)
    requires c.request.AddComment?
    ensures var r, id := c.request, c.request.case_;
            var body, actor := Trim(r.body), Trim(r.actor);
            var earlier := if id in s.comments then s.comments[id] else [];
            if id == Blank || body == "" || |body| > 4000 || actor == "" then
                Perform(s, c) == Result(s, Failed(InvalidCase))
            else if id !in s.cases then Perform(s, c) == Result(s, Failed(CaseNotFound))
            else if s.cases[id].status == CaseResolved then Perform(s, c) == Result(s, Failed(CaseConflict))
            else
              Perform(s, c) == Result(
                s.(cases := s.cases[id := s.cases[id].(updatedAt := c.now)],
                   comments := s.comments[id := earlier + [Comment(ID(c.serial, 0), actor, body, c.now)]],
                   events := Appended(s.events, Event(ID(c.serial, 1), CaseAggregate, id, actor, c.now,
                                                      CaseCommented(ID(c.serial, 0))))),
                Done)
  {
  }

  /** Resolving writes the same person, words and instant on the case and on its alert, and an event in each log. */
  lemma {:induction false} ResolveWrites(s: State, c: Call)
    requires c.request.Resolve?
    ensures var r, id := c.request, c.request.case_;
            var words, actor := Trim(r.resolution), Trim(r.actor);
            if id == Blank || words == "" || |words| > 4000 || actor == "" then
                Perform(s, c) == Result(s, Failed(InvalidCase))
            else if id !in s.cases then Perform(s, c) == Result(s, Failed(CaseNotFound))
            else if s.cases[id].status == CaseResolved then Perform(s, c) == Result(s, Failed(CaseConflict))
            else
              var alert := s.cases[id].alert;
              if alert !in s.alerts || s.alerts[alert].status != AlertOpen then
                  Perform(s, c) == Result(s, Failed(AlertConflict))
              else Perform(s, c) == Result(ResolvedState(s, c, id, alert, words, actor), Done)
  {
  }

  function ResolvedState(s: State, c: Call, id: ID, alert: ID, words: string, actor: string): State
    requires id in s.cases && alert in s.alerts
  {
    s.(cases := s.cases[id := s.cases[id].(status := CaseResolved, resolution := words, resolvedBy := actor,
                                           resolvedAt := Some(c.now), updatedAt := c.now)],
       alerts := s.alerts[alert := s.alerts[alert].(status := AlertClosed, closedAt := Some(c.now), closedBy := actor,
                                                    closureReason := words)],
       events := Appended(
         Appended(s.events, Event(ID(c.serial, 0), CaseAggregate, id, actor, c.now, CaseResolution(words))),
         Event(ID(c.serial, 1), AlertAggregate, alert, actor, c.now, AlertClosure(words, true))))
  }

  // ---------- screening ----------

  /**
   A screening saves every match of its batch, and is refused for a blank request, an unknown
   customer or a failed provider.
   */
  lemma {:induction false} ScreenWrites(s: State, c: Call)
    requires c.request.Screen?
    ensures var r, a := c.request, Perform(s, c).answer;
            if r.customer == Blank || Trim(r.actor) == "" then a == Failed(InvalidScreening)
            else if r.customer !in s.customers then a == Failed(CustomerNotFound)
            else if |r.replies| == 1 + |r.owners|
                && (forall i :: 0 <= i < |r.replies| ==> r.replies[i].Some?) then a == Done
            else a == Failed(ProviderFailed)
  {
    var r := c.request;
    if r.customer in s.customers && |r.replies| == 1 + |r.owners| {
      Fanout.BatchIsExact(ScreenContext(c), Fanout.Subjects(r.customer, s.customers[r.customer].legalName, r.owners),
                          r.replies);
    }
  }

  function MatchIDs(matches: seq<Match>): set<ID> {
    set m | m in matches :: m.id
  }

  lemma {:induction false} MatchesSaved(matches: map<ID, Match>, added: seq<Match>)
    requires forall i, j :: 0 <= i < j < |added| ==> added[i].id != added[j].id
    ensures forall i :: 0 <= i < |added| ==>
              added[i].id in WithMatches(matches, added) && WithMatches(matches, added)[added[i].id] == added[i]
  {
    if added != [] {
      MatchesSaved(matches, added[..|added| - 1]);
    }
  }

  lemma {:induction false} OtherMatchesStay(matches: map<ID, Match>, added: seq<Match>, id: ID)
    requires id !in MatchIDs(added)
    ensures id in WithMatches(matches, added) <==> id in matches
    ensures id in matches ==> WithMatches(matches, added)[id] == matches[id]
  {
    if added != [] {
      var n := |added| - 1;
      assert added[n] in added && forall m :: m in added[..n] ==> m in added;
      OtherMatchesStay(matches, added[..n], id);
    }
  }

  lemma {:induction false} NotificationsSaved(
      notifications: map<ID, Fanout.Notification>, added: seq<Fanout.Notification>)
    requires forall i, j :: 0 <= i < j < |added| ==> added[i].id != added[j].id
    ensures forall i :: 0 <= i < |added| ==>
              && added[i].id in WithNotifications(notifications, added)
              && WithNotifications(notifications, added)[added[i].id] == added[i]
  {
    if added != [] {
      NotificationsSaved(notifications, added[..|added| - 1]);
    }
  }

  lemma {:induction false} EventsSaved(events: map<ID, Log>, es: seq<Event>, aggregate: ID, id: ID)
    requires forall i :: 0 <= i < |es| ==> es[i].aggregate == aggregate
    ensures LogOf(AllAppended(events, es), id) == LogOf(events, id) + (if id == aggregate then es else [])
  {
    if es != [] {
      var n := |es| - 1;
      EventsSaved(events, es[..n], aggregate, id);
      LogAfter(AllAppended(events, es[..n]), es[n], id);
      assert es == es[..n] + [es[n]];
    }
  }

  /** The whole batch is in the store, and the rest of the store is as it was. */
  ghost predicate Saved(s: State, t: State, batch: Fanout.Batch, customer: ID) {
    && t == s.(matches := t.matches, notifications := t.notifications, events := t.events)
    && (forall i :: 0 <= i < |batch.matches| ==>
          batch.matches[i].id in t.matches && t.matches[batch.matches[i].id] == batch.matches[i])
    && (forall i :: 0 <= i < |batch.notifications| ==>
          && batch.notifications[i].id in t.notifications
          && t.notifications[batch.notifications[i].id] == batch.notifications[i])
    && (forall id :: id !in MatchIDs(batch.matches) ==>
          (id in t.matches <==> id in s.matches) && (id in s.matches ==> t.matches[id] == s.matches[id]))
    && (forall id :: LogOf(t.events, id) == LogOf(s.events, id) + (if id == customer then batch.events else []))
  }

  lemma {:induction false} BatchSaves(s: State, batch: Fanout.Batch, customer: ID)
    requires forall i, j :: 0 <= i < j < |batch.matches| ==> batch.matches[i].id != batch.matches[j].id
    requires forall i, j :: 0 <= i < j < |batch.notifications| ==>
               batch.notifications[i].id != batch.notifications[j].id
    requires forall i :: 0 <= i < |batch.events| ==> batch.events[i].aggregate == customer
    ensures Saved(s, SaveScreening(s, batch).state, batch, customer)
  {
    MatchesSaved(s.matches, batch.matches);
    NotificationsSaved(s.notifications, batch.notifications);
    forall id | id !in MatchIDs(batch.matches)
      ensures id in WithMatches(s.matches, batch.matches) <==> id in s.matches
      ensures id in s.matches ==> WithMatches(s.matches, batch.matches)[id] == s.matches[id]
    {
      OtherMatchesStay(s.matches, batch.matches, id);
    }
    forall id
      ensures LogOf(AllAppended(s.events, batch.events), id) ==
              LogOf(s.events, id) + (if id == customer then batch.events else [])
    {
      EventsSaved(s.events, batch.events, customer, id);
    }
  }

  /** What a batch is, of its subjects and the answers for them. */
  ghost predicate ExactBatch(
      batch: Fanout.Batch, ctx: Fanout.Context, subjects: seq<Fanout.Subject>, replies: seq<Fanout.Reply>)
    requires |replies| == |subjects|
  {
    Fanout.Complete(batch, ctx, subjects, replies) && Fanout.Linked(batch, ctx) && Fanout.Attributed(batch, ctx)
  }

  lemma {:induction false} BatchIsSavable(ctx: Fanout.Context, subjects: seq<Fanout.Subject>,
                                          replies: seq<Fanout.Reply>)
    requires |replies| == |subjects| && Fanout.Build(ctx, subjects, replies).Some?
    ensures var batch := Fanout.Build(ctx, subjects, replies).value;
            && ExactBatch(batch, ctx, subjects, replies)
            && (forall i, j :: 0 <= i < j < |batch.matches| ==> batch.matches[i].id != batch.matches[j].id)
            && (forall i, j :: 0 <= i < j < |batch.notifications| ==>
                  batch.notifications[i].id != batch.notifications[j].id)
            && (forall i :: 0 <= i < |batch.events| ==> batch.events[i].aggregate == ctx.customer)
  {
    Fanout.BatchIsExact(ctx, subjects, replies);
    Fanout.BatchIsAttributed(ctx, subjects, replies);
    var batch := Fanout.Build(ctx, subjects, replies).value;
    var ids := Fanout.NotificationIDs(batch.notifications);
    forall i, j | 0 <= i < j < |batch.notifications| ensures batch.notifications[i].id != batch.notifications[j].id {
      assert ids[i] == batch.notifications[i].id && ids[j] == batch.notifications[j].id;
    }
  }

  function SubjectsOf(s: State, c: Call): seq<Fanout.Subject>
    requires c.request.Screen? && c.request.customer in s.customers
  {
    Fanout.Subjects(c.request.customer, s.customers[c.request.customer].legalName, c.request.owners)
  }

  lemma {:induction false} ScreenIsOneSave(s: State, c: Call)
    requires c.request.Screen? && Perform(s, c).answer == Done
    ensures c.request.customer in s.customers && |c.request.replies| == |SubjectsOf(s, c)|
    ensures var batch := Fanout.Build(ScreenContext(c), SubjectsOf(s, c), c.request.replies);
            batch.Some? && Perform(s, c).state == SaveScreening(s, batch.value).state
  {
  }

  /**
   An accepted screening saves the exact batch of its subjects' answers, whole: matches,
   notifications, events in order.
   */
  lemma {:induction false} ScreenSaves(s: State, c: Call) returns (batch: Fanout.Batch)
    requires c.request.Screen? && Perform(s, c).answer == Done
    ensures c.request.customer in s.customers && |c.request.replies| == |SubjectsOf(s, c)|
    ensures ExactBatch(batch, ScreenContext(c), SubjectsOf(s, c), c.request.replies)
    ensures Saved(s, Perform(s, c).state, batch, c.request.customer)
  {
    ScreenIsOneSave(s, c);
    batch := Fanout.Build(ScreenContext(c), SubjectsOf(s, c), c.request.replies).value;
    BatchIsSavable(ScreenContext(c), SubjectsOf(s, c), c.request.replies);
    BatchSaves(s, batch, c.request.customer);
  }

  /** The subjects are the customer, then the owners; the context is the request's. */
  lemma {:induction false} ScreenedSubjects(s: State, c: Call)
    requires c.request.Screen? && c.request.customer in s.customers
    ensures var r := c.request;
            var subjects := Fanout.Subjects(r.customer, s.customers[r.customer].legalName, r.owners);
            && |subjects| == 1 + |r.owners|
            && subjects[0] == Fanout.Subject(CustomerSubject, r.customer, s.customers[r.customer].legalName)
            && (forall i :: 0 <= i < |r.owners| ==>
                  subjects[i + 1] == Fanout.Subject(BeneficialOwner, r.owners[i].id, r.owners[i].fullName))
            && ScreenContext(c) == Fanout.Context(c.serial, r.customer, Trim(r.actor), c.now,
                                                  Fanout.Destinations(r.webhook, r.recipients))
            && Fanout.Lists(Fanout.Destinations(r.webhook, r.recipients), r.webhook, r.recipients)
  {
  }

  lemma {:induction false} DispositionWrites(s: State, c: Call)
    requires c.request.Disposition?
    ensures var r, id := c.request, c.request.match_;
            var reason, actor := Trim(r.reason), Trim(r.actor);
            if id == Blank || reason == "" || actor == "" || r.status == Potential then
              Perform(s, c) == Result(s, Failed(InvalidScreening))
            else if id !in s.matches || s.matches[id].status != Potential then
                Perform(s, c) == Result(s, Failed(ReviewConflict))
            else
              Perform(s, c) == Result(
                s.(matches := s.matches[id := s.matches[id].(status := r.status, reviewedBy := actor,
                                                             reviewedAt := Some(c.now), dispositionReason := reason)],
                   events := Appended(s.events,
                                      Event(ID(c.serial, 0), CustomerAggregate, s.matches[id].customer, actor, c.now,
                                                      MatchDisposition(id, r.status, reason)))),
                Done)
  {
  }

  // ---------- schedules ----------

  lemma {:induction false} ConfigureWrites(s: State, c: Call)
    requires c.request.Configure?
    ensures var r, id := c.request, c.request.customer;
            var actor, next := Trim(r.actor), c.now + r.hours * 3_600_000_000_000;
            var lastRun := if id in s.schedules then s.schedules[id].lastRunAt else None;
            if id == Blank || actor == "" || r.hours < 1 || r.hours > 8760 then
                Perform(s, c) == Result(s, Failed(InvalidScreening))
            else if id !in s.customers then Perform(s, c) == Result(s, Failed(CustomerNotFound))
            else
              Perform(s, c) == Result(
                s.(schedules := s.schedules[id := Schedules.Schedule(
                     r.enabled, r.hours, next, lastRun, "", 0, None, None, actor, c.now)],
                   events := Appended(s.events, Event(ID(c.serial, 0), CustomerAggregate, id, actor, c.now,
                                                      ScheduleUpdated(r.enabled, r.hours, next)))),
                Done)
  {
  }

  /**
   In memory a claim leases every row that is enabled, whose time has come and whose lease is not
   open, and no other.
   */
  lemma {:induction false} ClaimWrites(s: State, c: Call, id: ID)
    requires c.request.ClaimDue? && id in s.schedules
    ensures var row, t := s.schedules[id], Perform(s, c).state;
            && t == s.(schedules := t.schedules) && t.schedules.Keys == s.schedules.Keys
            && t.schedules[id] ==
               if row.enabled && row.nextRunAt <= c.now && (row.leaseUntil == None || row.leaseUntil.value <= c.now)
               then row.(leaseOwner := Some(c.request.owner), leaseUntil := Some(c.request.until)) else row
  {
  }

  lemma {:induction false} CompleteRunWrites(s: State, c: Call)
    requires c.request.CompleteRun?
    ensures var r, id := c.request, c.request.customer;
            if id in s.schedules && s.schedules[id].leaseOwner == Some(r.owner)
            then Perform(s, c) == Result(
                   s.(schedules := s.schedules[id := s.schedules[id].(
                        lastRunAt := Some(r.ranAt), lastError := r.lastError, nextRunAt := r.nextRun,
                            updatedAt := r.ranAt,
                        failureCount := if r.lastError == "" then 0 else s.schedules[id].failureCount + 1,
                        leaseOwner := None, leaseUntil := None)]),
                   Done)
            else Perform(s, c) == Result(s, Failed(ScheduleNotFound))
  {
  }

  // ---------- who decided ----------

  /** A request that reviewed this customer with this decision and was accepted. */
  predicate Decided(history: seq<Call>, i: int, id: ID, decision: Decision) {
    && 0 <= i < |history| && history[i].request.Review?
    && history[i].request.customer == id && history[i].request.decision == decision && AnswerAt(history, i) == Done
  }

  /** A status that a request brings: only a review brings a decision, and its own. */
  ghost predicate StatusBrought(s: State, c: Call, id: ID) {
    var t := Perform(s, c);
    id in t.state.customers ==>
      || (id in s.customers && t.state.customers[id].status == s.customers[id].status)
      || t.state.customers[id].status == PendingApproval
      || (c.request.Review? && c.request.customer == id && t.answer == Done
          && t.state.customers[id].status == (if c.request.decision == Approve then Active else Rejected)
          && c.request.decision != OtherDecision)
  }

  lemma {:induction false} OnboardBringsStatus(s: State, c: Call, id: ID)
    requires c.request.Onboard?
    ensures StatusBrought(s, c, id)
  {
    OnboardWrites(s, c);
  }

  lemma {:induction false} ReviewBringsStatus(s: State, c: Call, id: ID)
    requires c.request.Review?
    ensures StatusBrought(s, c, id)
  {
    ReviewRefusals(s, c);
    if Perform(s, c).answer == Done {
      ReviewDecides(s, c);
    }
  }

  lemma {:induction false} CaseRequestKeepsCustomers(s: State, c: Call)
    requires c.request.Ingest? || c.request.Close? || c.request.OpenCase? || c.request.Assign?
             || c.request.AddComment? || c.request.Resolve?
    ensures Perform(s, c).state.customers == s.customers
  {
  }

  lemma {:induction false} MonitoringKeepsCustomers(s: State, c: Call)
    requires c.request.Screen? || c.request.Disposition? || c.request.Configure? || c.request.ClaimDue?
             || c.request.CompleteRun? || c.request.UpdateDueDiligence?
    ensures Perform(s, c).state.customers == s.customers
  {
  }

  lemma {:induction false} RequestBringsStatus(s: State, c: Call, id: ID)
    ensures StatusBrought(s, c, id)
  {
    var r := c.request;
    if r.Onboard? {
      OnboardBringsStatus(s, c, id);
    } else if r.Review? {
      ReviewBringsStatus(s, c, id);
    } else if r.Screen? || r.Disposition? || r.Configure? || r.ClaimDue? || r.CompleteRun? || r.UpdateDueDiligence? {
      MonitoringKeepsCustomers(s, c);
    } else {
      CaseRequestKeepsCustomers(s, c);
    }
  }

  lemma {:induction false} DecidedEarlier(history: seq<Call>, n: nat, i: int, id: ID, decision: Decision)
    requires n <= |history| && Decided(history[..n], i, id, decision)
    ensures Decided(history, i, id, decision)
  {
    assert history[..n][..i] == history[..i];
  }

  /**
   Over every run, a customer is active only by an accepted request to approve it, and rejected only
   by one to reject it.
   */
  lemma {:induction false} StatusWasDecided(history: seq<Call>, id: ID) returns (i: int)
    requires id in Exec(EMPTY, history).customers && Exec(EMPTY, history).customers[id].status != PendingApproval
    ensures Decided(history, i, id, if Exec(EMPTY, history).customers[id].status == Active then Approve else Reject)
  {
    assert history != [];
    var n := |history| - 1;
    var s := Exec(EMPTY, history[..n]);
    RequestBringsStatus(s, history[n], id);
    if id in s.customers && Exec(EMPTY, history).customers[id].status == s.customers[id].status {
      i := StatusWasDecided(history[..n], id);
      DecidedEarlier(history, n, i, id, if s.customers[id].status == Active then Approve else Reject);
    } else {
      i := n;
    }
  }
}

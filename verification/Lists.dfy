/**
 The other lists over runs of the store: customers, alerts and transactions keep the time they
 are listed by, cases are listed by their last update and move forward.
 */
module Lists {
  import opened Durations
  import opened Domain
  import opened Store
  import opened Compliance
  import opened Invariants
  import opened Histories
  import opened Guarantees
  import opened Paging
  import ActivityPages
  import EventLog

  /** What is listed; a status filter only hides rows. */
  datatype Listing = AllCustomers | AllAlerts | TransactionsOf(customer: ID) | AllCases

  /** The time each row is listed by. */
  function Stamps(s: State, which: Listing): map<ID, Time> {
    match which
    case AllCustomers => map id | id in s.customers :: s.customers[id].createdAt
    case AllAlerts => map id | id in s.alerts :: s.alerts[id].createdAt
    case TransactionsOf(customer) =>
      map id | id in s.transactions && s.transactions[id].customer == customer :: s.transactions[id].occurredAt
    case AllCases => map id | id in s.cases :: s.cases[id].updatedAt
  }

  ghost function Rows(stamps: map<ID, Time>, text: ID -> string): set<Item<ID>> {
    set id | id in stamps :: Item(Key(stamps[id], text(id)), id)
  }

  predicate NonZero(stamps: map<ID, Time>) {
    forall id :: id in stamps ==> stamps[id] != ZERO_TIME
  }

  lemma {:induction false} RowsGood(stamps: map<ID, Time>, text: ID -> string)
    requires ActivityPages.Spelling(text) && NonZero(stamps)
    ensures GoodRows(Rows(stamps, text))
  {
  }

  // ---------- where the times come from ----------

  // Each time is an old one or one this request brought.

  ghost predicate CustomersStamped(m: map<ID, Customer>, n: map<ID, Customer>, now: Time) {
    forall id :: id in n ==> (id in m && n[id].createdAt == m[id].createdAt) || n[id].createdAt == now
  }

  ghost predicate AlertsStamped(m: map<ID, Alert>, n: map<ID, Alert>, now: Time) {
    forall id :: id in n ==> (id in m && n[id].createdAt == m[id].createdAt) || n[id].createdAt == now
  }

  ghost predicate CasesStamped(m: map<ID, Case>, n: map<ID, Case>, now: Time) {
    forall id :: id in n ==> (id in m && n[id].updatedAt == m[id].updatedAt) || n[id].updatedAt == now
  }

  ghost predicate TransactionsStamped(m: map<ID, Transaction>, n: map<ID, Transaction>, occurred: Option<Time>) {
    forall id :: id in n ==> (id in m && n[id] == m[id]) || Some(n[id].occurredAt) == occurred
  }

  /** The stored time of the payment a request carries. */
  function Occurred(c: Call): Option<Time> {
    if c.request.Ingest? then Some(ToMicroseconds(c.request.cmd.occurredAt)) else None
  }

  ghost predicate Stamped(s: State, t: State, c: Call) {
    && CustomersStamped(s.customers, t.customers, c.now) && AlertsStamped(s.alerts, t.alerts, c.now)
    && CasesStamped(s.cases, t.cases, c.now) && TransactionsStamped(s.transactions, t.transactions, Occurred(c))
  }

  lemma {:induction false} CustomersStamp(s: State, c: Call)
    requires c.request.Onboard? || c.request.Review?
    ensures Stamped(s, Perform(s, c).state, c)
  {
  }

  lemma {:induction false} RaisingStamps(alerts: map<ID, Alert>, added: seq<Alert>, now: Time)
    requires forall i, j :: 0 <= i < j < |added| ==> added[i].id != added[j].id
    requires forall i :: 0 <= i < |added| ==> added[i].createdAt == now
    ensures AlertsStamped(alerts, WithAlerts(alerts, added), now)
  {
    WithAlertsHolds(alerts, added);
  }

  lemma {:induction false} CreationStamps(s: State, c: Call)
    requires c.request.Ingest? && PerformIngest(s, c).answer.Created?
    ensures Stamped(s, PerformIngest(s, c).state, c)
  {
    var t := NewTransaction(c, Normalized(c.request.cmd));
    CreationAnswers(s, c);
    RaisingStamps(s.alerts, NewAlerts(c, t, Findings(t)), c.now);
  }

  lemma {:induction false} IngestStamps(s: State, c: Call)
    requires c.request.Ingest?
    ensures Stamped(s, PerformIngest(s, c).state, c)
  {
    if PerformIngest(s, c).answer.Created? {
      CreationStamps(s, c);
    } else {
      NoCreation(s, c);
    }
  }

  lemma {:induction false} NoCreation(s: State, c: Call)
    requires c.request.Ingest? && !PerformIngest(s, c).answer.Created?
    ensures PerformIngest(s, c).state == s
  {
  }

  lemma {:induction false} CloseStamps(s: State, c: Call)
    requires c.request.Close?
    ensures Stamped(s, Perform(s, c).state, c)
  {
  }

  lemma {:induction false} ResolveStamps(s: State, c: Call)
    requires c.request.Resolve?
    ensures Stamped(s, Perform(s, c).state, c)
  {
  }

  lemma {:induction false} OpenStamps(s: State, c: Call)
    requires c.request.OpenCase?
    ensures Stamped(s, Perform(s, c).state, c)
  {
  }

  lemma {:induction false} CaseworkStamps(s: State, c: Call)
    requires c.request.Assign? || c.request.AddComment?
    ensures Stamped(s, Perform(s, c).state, c)
  {
  }

  lemma {:induction false} ScreeningStamps(s: State, c: Call)
    requires c.request.Screen? || c.request.Disposition?
    ensures Stamped(s, Perform(s, c).state, c)
  {
  }

  lemma {:induction false} ScheduleStamps(s: State, c: Call)
    requires c.request.Configure? || c.request.ClaimDue? || c.request.CompleteRun? || c.request.UpdateDueDiligence?
    ensures Stamped(s, Perform(s, c).state, c)
  {
  }

  lemma {:induction false} PerformStamps(s: State, c: Call)
    ensures Stamped(s, Perform(s, c).state, c)
  {
    var r := c.request;
    if r.Onboard? || r.Review? {
      CustomersStamp(s, c);
    } else if r.Ingest? {
      IngestStamps(s, c);
    } else if r.Close? {
      CloseStamps(s, c);
    } else if r.Resolve? {
      ResolveStamps(s, c);
    } else if r.OpenCase? {
      OpenStamps(s, c);
    } else if r.Assign? || r.AddComment? {
      CaseworkStamps(s, c);
    } else if r.Screen? || r.Disposition? {
      ScreeningStamps(s, c);
    } else {
      ScheduleStamps(s, c);
    }
  }

  // ---------- over runs ----------

  /** No payment is dated within a microsecond of the zero time, which would be stored as the zero time. */
  predicate Dated(history: seq<Call>) {
    forall i :: 0 <= i < |history| ==> Occurred(history[i]) != Some(ZERO_TIME)
  }

  ghost predicate TimesGood(s: State) {
    && (forall id :: id in s.customers ==> s.customers[id].createdAt != ZERO_TIME)
    && (forall id :: id in s.alerts ==> s.alerts[id].createdAt != ZERO_TIME)
    && (forall id :: id in s.cases ==> s.cases[id].updatedAt != ZERO_TIME)
    && (forall id :: id in s.transactions ==> s.transactions[id].occurredAt != ZERO_TIME)
  }

  lemma {:induction false} TimesStayGood(s: State, t: State, c: Call)
    requires TimesGood(s) && Stamped(s, t, c) && c.now != ZERO_TIME && Occurred(c) != Some(ZERO_TIME)
    ensures TimesGood(t)
  {
  }

  lemma {:induction false} TimesGoodAlways(history: seq<Call>)
    requires EventLog.Timed(history) && Dated(history)
    ensures TimesGood(Exec(EMPTY, history))
  {
    if history != [] {
      var n := |history| - 1;
      TimesGoodAlways(history[..n]);
      PerformStamps(Exec(EMPTY, history[..n]), history[n]);
      TimesStayGood(Exec(EMPTY, history[..n]), Exec(EMPTY, history), history[n]);
    }
  }

  lemma {:induction false} StampsGood(history: seq<Call>, which: Listing)
    requires EventLog.Timed(history) && Dated(history)
    ensures NonZero(Stamps(Exec(EMPTY, history), which))
  {
    TimesGoodAlways(history);
  }

  /** Everything but a case keeps the time it is listed by. */
  lemma {:induction false} StampsStand(s: State, t: State, which: Listing)
    requires Stands(s, t) && !which.AllCases?
    ensures Kept(Stamps(s, which), Stamps(t, which))
  {
  }

  lemma {:induction false} RowsGrow(m: map<ID, Time>, n: map<ID, Time>, text: ID -> string)
    requires Kept(m, n)
    ensures Rows(m, text) <= Rows(n, text)
  {
  }

  ghost function Views(history: seq<Call>, moments: seq<nat>, which: Listing, text: ID -> string): seq<set<Item<ID>>>
    requires ActivityPages.Moments(history, moments)
  {
    seq(|moments|, i requires 0 <= i < |moments| => Rows(Stamps(Exec(EMPTY, history[..moments[i]]), which), text))
  }

  /**
   Whatever requests are served between the pages, a completed walk over the customers, the alerts
   or a customer's transactions lists each one that was there when it began exactly once.
   */
  lemma {:induction false} ListWalk(
      history: seq<Call>, moments: seq<nat>, which: Listing, text: ID -> string, size: int)
    requires FreshIDs(history) && EventLog.Timed(history) && Dated(history) && ActivityPages.Spelling(text)
    requires ActivityPages.Moments(history, moments) && moments != [] && AcceptedSize(size) && !which.AllCases?
    ensures var views := Views(history, moments, which, text);
            && (forall i :: 0 <= i < |views| ==> GoodRows(views[i]))
            && Descending(Concat(Walk(views, size, NoToken)))
            && (Completed(Walk(views, size, NoToken)) ==> ListsOnce(Concat(Walk(views, size, NoToken)), views[0]))
  {
    var views := Views(history, moments, which, text);
    forall i | 0 <= i < |views| ensures GoodRows(views[i]) && views[0] <= views[i] {
      var past, now := history[..moments[0]], history[..moments[i]];
      StampsGood(now, which);
      RowsGood(Stamps(Exec(EMPTY, now), which), text);
      PastStands(now, moments[0]);
      assert now[..moments[0]] == past;
      StampsStand(Exec(EMPTY, past), Exec(EMPTY, now), which);
      RowsGrow(Stamps(Exec(EMPTY, past), which), Stamps(Exec(EMPTY, now), which), text);
    }
    GrowingWalk(views, size);
  }

  // ---------- cases move forward ----------

  predicate ClockRuns(history: seq<Call>) {
    forall i, j :: 0 <= i < j < |history| ==> history[i].now <= history[j].now
  }

  /** No case was updated after the clock was last read. */
  ghost predicate UpdatedBy(s: State, now: Time) {
    forall id :: id in s.cases ==> s.cases[id].updatedAt <= now
  }

  lemma {:induction false} UpdatedByClock(history: seq<Call>, now: Time)
    requires ClockRuns(history) && forall i :: 0 <= i < |history| ==> history[i].now <= now
    ensures UpdatedBy(Exec(EMPTY, history), now)
  {
    if history != [] {
      var n := |history| - 1;
      UpdatedByClock(history[..n], now);
      PerformStamps(Exec(EMPTY, history[..n]), history[n]);
    }
  }

  ghost predicate MovedForward(s: State, t: State) {
    forall id :: id in s.cases ==> id in t.cases && s.cases[id].updatedAt <= t.cases[id].updatedAt
  }

  lemma {:induction false} CaseMoves(s: State, t: State, u: State, c: Call)
    requires MovedForward(s, t) && Stands(t, u) && Stamped(t, u, c) && UpdatedBy(t, c.now)
    ensures MovedForward(s, u)
  {
  }

  lemma {:induction false} LastMove(history: seq<Call>, before: seq<Call>, c: Call)
    requires history == before + [c] && FreshIDs(history) && ClockRuns(history)
    ensures Stands(Exec(EMPTY, before), Exec(EMPTY, history)) && Stamped(Exec(EMPTY, before), Exec(EMPTY, history), c)
    ensures UpdatedBy(Exec(EMPTY, before), c.now)
  {
    forall i | 0 <= i < |before| ensures before[i].now <= c.now {
      assert history[i] == before[i] && history[|before|] == c;
    }
    forall i, j | 0 <= i < j < |before| ensures before[i].now <= before[j].now {
      assert history[i] == before[i] && history[j] == before[j];
    }
    UpdatedByClock(before, c.now);
    PerformStamps(Exec(EMPTY, before), c);
    Exec1(EMPTY, before, c);
    StandsLater(before, [c]);
  }

  lemma {:induction false} CasesMoveForward(history: seq<Call>, i: nat)
    requires FreshIDs(history) && ClockRuns(history) && i <= |history|
    ensures MovedForward(Exec(EMPTY, history[..i]), Exec(EMPTY, history))
  {
    if i == |history| {
      assert history[..i] == history;
    } else {
      var before, c := history[..|history| - 1], history[|history| - 1];
      CasesMoveForward(before, i);
      assert before[..i] == history[..i] && history == before + [c];
      LastMove(history, before, c);
      CaseMoves(Exec(EMPTY, history[..i]), Exec(EMPTY, before), Exec(EMPTY, history), c);
    }
  }

  lemma {:induction false} CaseViewsGood(history: seq<Call>, moments: seq<nat>, text: ID -> string, i: nat)
    requires EventLog.Timed(history) && Dated(history) && ActivityPages.Spelling(text)
    requires ActivityPages.Moments(history, moments) && i < |moments|
    ensures GoodRows(Views(history, moments, AllCases, text)[i])
  {
    StampsGood(history[..moments[i]], AllCases);
    RowsGood(Stamps(Exec(EMPTY, history[..moments[i]]), AllCases), text);
  }

  lemma {:induction false} CaseRowMoves(
      history: seq<Call>, moments: seq<nat>, text: ID -> string, i: nat, j: nat, r: Item<ID>)
    requires FreshIDs(history) && ClockRuns(history) && ActivityPages.Spelling(text)
    requires ActivityPages.Moments(history, moments) && i <= j < |moments|
    requires r in Views(history, moments, AllCases, text)[i]
    ensures HasID(Views(history, moments, AllCases, text)[j], r.key.id)
    ensures forall q :: q in Views(history, moments, AllCases, text)[j] && q.key.id == r.key.id ==>
            r.key.time <= q.key.time
  {
    var past, now := history[..moments[i]], history[..moments[j]];
    assert now[..moments[i]] == past;
    CasesMoveForward(now, moments[i]);
    var stamps := Stamps(Exec(EMPTY, now), AllCases);
    assert r.data in stamps && r.key.id == text(r.data);
    assert Item(Key(stamps[r.data], text(r.data)), r.data) in Rows(stamps, text);
  }

  /**
   Over any run with a monotone clock, a completed walk over the cases lists each case at most once,
   and a case that was there when it began exactly when it was not touched across the cursor.
   */
  lemma {:induction false} CaseWalk(history: seq<Call>, moments: seq<nat>, text: ID -> string, size: int, case_: ID)
    requires FreshIDs(history) && EventLog.Timed(history) && Dated(history) && ClockRuns(history)
    requires ActivityPages.Spelling(text) && ActivityPages.Moments(history, moments) && moments != []
             && AcceptedSize(size)
    requires case_ in Exec(EMPTY, history[..moments[0]]).cases
    ensures var views := Views(history, moments, AllCases, text);
            && (forall i :: 0 <= i < |views| ==> GoodRows(views[i]))
            && (var items := Concat(Walk(views, size, NoToken)); forall k :: 0 <= k < |items| ==> OnlyAt(items, k))
            && (Completed(Walk(views, size, NoToken)) ==>
                  (IDListed(Concat(Walk(views, size, NoToken)), text(case_)) <==>
                   Uncrossed(views, Walk(views, size, NoToken), text(case_))))
  {
    var views := Views(history, moments, AllCases, text);
    forall i | 0 <= i < |views| ensures GoodRows(views[i]) {
      CaseViewsGood(history, moments, text, i);
    }
    forall i, j, r: Item<ID>, q: Item<ID> | 0 <= i < j < |views| && r in views[i] && q in views[j]
        && r.key.id == q.key.id
      ensures r.key.time <= q.key.time
    {
      CaseRowMoves(history, moments, text, i, j, r);
    }
    var stamps := Stamps(Exec(EMPTY, history[..moments[0]]), AllCases);
    var first := Item(Key(stamps[case_], text(case_)), case_);
    assert first in Rows(stamps, text);
    forall i | 0 <= i < |views| ensures HasID(views[i], text(case_)) {
      CaseRowMoves(history, moments, text, 0, i, first);
    }
    TouchedIsListedOnce(views, size);
    if Completed(Walk(views, size, NoToken)) {
      TouchedIsListedIff(views, size, text(case_));
    }
  }
}

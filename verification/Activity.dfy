/**
 A customer's activity: the events of the customer and of every transaction, alert and case
 that names the customer. Ownership runs along references, so every event is some one customer's.
 */
module Activity {
  import opened Durations
  import opened Domain
  import opened Store
  import opened Compliance
  import opened Invariants
  import opened Guarantees

  /** The aggregates a customer's timeline is gathered from. */
  function Related(s: State, customer: ID): set<ID> {
    {customer}
    + (set id | id in s.transactions && s.transactions[id].customer == customer)
    + (set id | id in s.alerts && s.alerts[id].customer == customer)
    + (set id | id in s.cases && s.cases[id].customer == customer)
  }

  function OwnerOfAlert(s: State, alert: ID): ID {
    if alert in s.alerts && s.alerts[alert].transaction in s.transactions then
        s.transactions[s.alerts[alert].transaction].customer
    else Blank
  }

  /** Whose an aggregate is: a case leads to its alert, an alert to its transaction, a transaction to its customer. */
  function OwnerOf(s: State, id: ID): ID {
    if id in s.customers then id
    else if id in s.transactions then s.transactions[id].customer
    else if id in s.cases then OwnerOfAlert(s, s.cases[id].alert)
    else OwnerOfAlert(s, id)
  }

  lemma {:induction false} EntityOwner(s: State, used: set<nat>, id: ID, customer: ID)
    requires Inv(s, used) && IsEntity(s, id) && customer in s.customers
    ensures OwnerOf(s, id) in s.customers
    ensures id in Related(s, customer) <==> OwnerOf(s, id) == customer
  {
    GoodEverywhere(s, id);
    if id in s.cases {
      CaseChecked(s, id);
    } else if id in s.alerts {
      TransactionChecked(s, s.alerts[id].transaction);
    }
  }

  /** Every event in the store belongs to the activity of exactly one customer, the owner of its aggregate. */
  lemma {:induction false} ActivityIsOwnership(history: seq<Call>, id: ID)
    requires FreshIDs(history) && id in Exec(EMPTY, history).events
    ensures var s := Exec(EMPTY, history);
            && OwnerOf(s, id) in s.customers
            && forall customer :: customer in s.customers ==>
                (id in Related(s, customer) <==> OwnerOf(s, id) == customer)
  {
    var s := Exec(EMPTY, history);
    InvAlways(history);
    GoodEverywhere(s, id);
    if customer :| customer in s.customers {
      EntityOwner(s, Serials(history), id, customer);
    } else {
      NoEntitiesWithoutCustomers(s, Serials(history), id);
    }
    forall customer | customer in s.customers ensures id in Related(s, customer) <==> OwnerOf(s, id) == customer {
      EntityOwner(s, Serials(history), id, customer);
    }
  }

  lemma {:induction false} NoEntitiesWithoutCustomers(s: State, used: set<nat>, id: ID)
    requires Inv(s, used) && IsEntity(s, id)
    ensures s.customers != map[]
  {
    GoodEverywhere(s, id);
    if id in s.cases {
      CaseChecked(s, id);
    } else if id in s.alerts {
      TransactionChecked(s, s.alerts[id].transaction);
    }
  }
}

/** Paging through a customer's activity while the store goes on serving requests. */
module ActivityPages {
  import opened Durations
  import opened Domain
  import opened Store
  import opened Compliance
  import opened Invariants
  import opened Histories
  import opened Activity
  import EventLog
  import opened Paging

  /** How identifiers are written: never empty, and no two alike. */
  ghost predicate Spelling(text: ID -> string) {
    (forall id :: text(id) != "") && (forall a, b :: text(a) == text(b) ==> a == b)
  }

  function RowOf(e: Event, text: ID -> string): Item<Event> {
    Item(Key(e.occurredAt, text(e.id)), e)
  }

  ghost predicate InActivity(s: State, customer: ID, text: ID -> string, r: Item<Event>) {
    exists a, i :: a in Related(s, customer) && EventLog.EventAt(s.events, a, i) && r == RowOf(s.events[a][i], text)
  }

  ghost function ActivityRows(s: State, customer: ID, text: ID -> string): set<Item<Event>> {
    set a, i | a in Related(s, customer) && a in s.events && 0 <= i < |s.events[a]| :: RowOf(s.events[a][i], text)
  }

  lemma {:induction false} RowsAreActivity(s: State, customer: ID, text: ID -> string, r: Item<Event>)
    ensures r in ActivityRows(s, customer, text) <==> InActivity(s, customer, text, r)
  {
    if r in ActivityRows(s, customer, text) {
      var a, i :| a in Related(s, customer) && a in s.events && 0 <= i < |s.events[a]|
          && r == RowOf(s.events[a][i], text);
      assert EventLog.EventAt(s.events, a, i);
    }
  }

  lemma {:induction false} ActivityRowsGood(history: seq<Call>, customer: ID, text: ID -> string)
    requires FreshIDs(history) && EventLog.Timed(history) && Spelling(text)
    ensures GoodRows(ActivityRows(Exec(EMPTY, history), customer, text))
  {
    var s := Exec(EMPTY, history);
    EventLog.EventsGoodAlways(history);
    forall r, q | r in ActivityRows(s, customer, text) && q in ActivityRows(s, customer, text) && r.key.id == q.key.id
        ensures r == q {
      RowsAreActivity(s, customer, text, r);
      RowsAreActivity(s, customer, text, q);
      var a, i :| a in Related(s, customer) && EventLog.EventAt(s.events, a, i) && r == RowOf(s.events[a][i], text);
      var b, j :| b in Related(s, customer) && EventLog.EventAt(s.events, b, j) && q == RowOf(s.events[b][j], text);
      assert s.events[a][i].id == s.events[b][j].id;
    }
    forall r | r in ActivityRows(s, customer, text) ensures r.key.time != ZERO_TIME && r.key.id != "" {
      RowsAreActivity(s, customer, text, r);
    }
  }

  lemma {:induction false} RelatedGrows(s: State, t: State, customer: ID)
    requires Stands(s, t)
    ensures Related(s, customer) <= Related(t, customer)
  {
    forall id | id in Related(s, customer) ensures id in Related(t, customer) {
    }
  }

  lemma {:induction false} ActivityGrows(s: State, t: State, customer: ID, text: ID -> string)
    requires Stands(s, t)
    ensures ActivityRows(s, customer, text) <= ActivityRows(t, customer, text)
  {
    RelatedGrows(s, t, customer);
    forall r | r in ActivityRows(s, customer, text) ensures r in ActivityRows(t, customer, text) {
      RowsAreActivity(s, customer, text, r);
      var a, i :| a in Related(s, customer) && EventLog.EventAt(s.events, a, i) && r == RowOf(s.events[a][i], text);
      assert LogOf(s.events, a) <= LogOf(t.events, a);
      assert EventLog.EventAt(t.events, a, i) && t.events[a][i] == s.events[a][i];
      RowsAreActivity(t, customer, text, r);
    }
  }

  /** The request number at which each page is served. */
  predicate Moments(history: seq<Call>, moments: seq<nat>) {
    && (forall i :: 0 <= i < |moments| ==> moments[i] <= |history|)
    && (forall i, j :: 0 <= i <= j < |moments| ==> moments[i] <= moments[j])
  }

  ghost function Views(history: seq<Call>, moments: seq<nat>, customer: ID, text: ID -> string): seq<set<Item<Event>>>
    requires Moments(history, moments)
  {
    seq(|moments|, i requires 0 <= i < |moments| => ActivityRows(Exec(EMPTY, history[..moments[i]]), customer, text))
  }

  lemma {:induction false} ViewsGrow(history: seq<Call>, moments: seq<nat>, customer: ID, text: ID -> string, i: nat)
    requires FreshIDs(history) && EventLog.Timed(history) && Spelling(text) && Moments(history, moments)
             && i < |moments|
    ensures GoodRows(Views(history, moments, customer, text)[i])
    ensures Views(history, moments, customer, text)[0] <= Views(history, moments, customer, text)[i]
  {
    ActivityRowsGood(history[..moments[i]], customer, text);
    PastStands(history[..moments[i]], moments[0]);
    assert history[..moments[i]][..moments[0]] == history[..moments[0]];
    ActivityGrows(Exec(EMPTY, history[..moments[0]]), Exec(EMPTY, history[..moments[i]]), customer, text);
  }

  /**
   Whatever requests are served between the pages, a completed walk over a customer's activity
   lists every event that was there when it began exactly once, and all events newest first.
   */
  lemma {:induction false} ActivityWalk(history: seq<Call>, moments: seq<nat>, customer: ID,
                                        text: ID -> string, size: int)
    requires FreshIDs(history) && EventLog.Timed(history) && Spelling(text)
    requires Moments(history, moments) && moments != [] && AcceptedSize(size)
    ensures var views := Views(history, moments, customer, text);
            && (forall i :: 0 <= i < |views| ==> GoodRows(views[i]))
            && Descending(Concat(Walk(views, size, NoToken)))
            && (Completed(Walk(views, size, NoToken)) ==> ListsOnce(Concat(Walk(views, size, NoToken)), views[0]))
  {
    var views := Views(history, moments, customer, text);
    forall i | 0 <= i < |views| ensures GoodRows(views[i]) && views[0] <= views[i] {
      ViewsGrow(history, moments, customer, text, i);
    }
    GrowingWalk(views, size);
  }
}

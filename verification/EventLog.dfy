/** Every request appends a run of events with new identifiers, so no two events of the store share one. */
module EventLog {
  import opened Durations
  import opened Domain
  import opened Store
  import opened Compliance
  import opened Invariants
  import Fanout

  /** The events of one request: its own identifiers in increasing order, all at the instant it was served. */
  predicate RunOf(es: seq<Event>, serial: nat, now: Time) {
    && (forall i :: 0 <= i < |es| ==> es[i].id.ID? && es[i].id.request == serial && es[i].occurredAt == now)
    && (forall i, j :: 0 <= i < j < |es| ==> es[i].id.index < es[j].id.index)
  }

  ghost predicate Appends(s: State, c: Call, es: seq<Event>) {
    Perform(s, c).state.events == AllAppended(s.events, es) && RunOf(es, c.serial, c.now)
  }

  lemma {:induction false} NothingAppended(events: map<ID, Log>)
    ensures AllAppended(events, []) == events
  {
  }

  lemma {:induction false} OneAppended(events: map<ID, Log>, e: Event)
    ensures AllAppended(events, [e]) == Appended(events, e)
  {
    assert [e][..0] == [];
  }

  lemma {:induction false} TwoAppended(events: map<ID, Log>, e: Event, f: Event)
    ensures AllAppended(events, [e, f]) == Appended(Appended(events, e), f)
  {
    assert [e, f][..1] == [e];
    OneAppended(events, e);
  }

  lemma {:induction false} FirstAppended(events: map<ID, Log>, e: Event, es: seq<Event>)
    ensures AllAppended(events, [e] + es) == AllAppended(Appended(events, e), es)
  {
    if es == [] {
      assert [e] + es == [e];
      OneAppended(events, e);
    } else {
      var n := |es| - 1;
      assert ([e] + es)[..n + 1] == [e] + es[..n];
      FirstAppended(events, e, es[..n]);
    }
  }

  lemma {:induction false} AlertEventsInOrder(c: Call, t: Transaction, e: Event)
    requires e.id == ID(c.serial, 1) && e.occurredAt == c.now
    ensures RunOf([e] + NewAlertEvents(c, t, Findings(t)), c.serial, c.now)
  {
    var rest := NewAlertEvents(c, t, Findings(t));
    forall i | 0 <= i < |rest| ensures rest[i].id == ID(c.serial, 3 + 2 * i) && rest[i].occurredAt == c.now {
    }
  }

  lemma {:induction false} CreationAppends(s: State, t: Transaction, e: Event, alerts: seq<Alert>, es: seq<Event>)
    requires CreateTransaction(s, t, e, alerts, es).answer.Created?
    ensures CreateTransaction(s, t, e, alerts, es).state.events == AllAppended(s.events, [e] + es)
  {
    FirstAppended(s.events, e, es);
  }

  lemma {:induction false} IngestAppends(s: State, c: Call) returns (es: seq<Event>)
    requires c.request.Ingest?
    ensures Appends(s, c, es)
  {
    if NoEffect(PerformIngest(s, c).answer) {
      es := [];
      NothingAppended(s.events);
    } else {
      var cmd := Normalized(c.request.cmd);
      var t := NewTransaction(c, cmd);
      var e := Event(ID(c.serial, 1), TransactionAggregate, t.id, cmd.actor, c.now,
                     Ingested(t.customer, t.amountMinor));
      es := [e] + NewAlertEvents(c, t, Findings(t));
      CreationAppends(s, t, e, NewAlerts(c, t, Findings(t)), NewAlertEvents(c, t, Findings(t)));
      AlertEventsInOrder(c, t, e);
    }
  }

  lemma {:induction false} ScreenAppends(s: State, c: Call) returns (es: seq<Event>)
    requires c.request.Screen?
    ensures Appends(s, c, es)
  {
    es := [];
    NothingAppended(s.events);
    if PerformScreen(s, c).answer == Done {
      var r := c.request;
      var subjects := Fanout.Subjects(r.customer, s.customers[r.customer].legalName, r.owners);
      Fanout.EventsInOrder(ScreenContext(c), subjects, r.replies);
      es := Fanout.Build(ScreenContext(c), subjects, r.replies).value.events;
    }
  }

  lemma {:induction false} OneEventAppends(s: State, c: Call, e: Event)
    requires NoEffect(Perform(s, c).answer) || Perform(s, c).state.events == Appended(s.events, e)
    requires e.id.ID? && e.id.request == c.serial && e.occurredAt == c.now
    ensures Appends(s, c, if NoEffect(Perform(s, c).answer) then [] else [e])
  {
    NothingAppended(s.events);
    OneAppended(s.events, e);
  }

  lemma {:induction false} CaseRequestAppends(s: State, c: Call) returns (es: seq<Event>)
    requires c.request.OpenCase? || c.request.Assign?
    ensures Appends(s, c, es)
  {
    var r := c.request;
    var e := if r.OpenCase?
      then Event(ID(c.serial, 1), CaseAggregate, ID(c.serial, 0), Trim(r.actor), c.now,
                 CaseCreated(r.alert, r.priority))
      else Event(ID(c.serial, 0), CaseAggregate, r.case_, Trim(r.actor), c.now, CaseAssigned(Trim(r.assignee)));
    OneEventAppends(s, c, e);
    es := if NoEffect(Perform(s, c).answer) then [] else [e];
  }

  lemma {:induction false} RemarkAppends(s: State, c: Call) returns (es: seq<Event>)
    requires c.request.AddComment? || c.request.Close?
    ensures Appends(s, c, es)
  {
    var r := c.request;
    var e := if r.AddComment?
      then Event(ID(c.serial, 1), CaseAggregate, r.case_, Trim(r.actor), c.now, CaseCommented(ID(c.serial, 0)))
      else Event(ID(c.serial, 0), AlertAggregate, r.alert, Trim(r.actor), c.now, AlertClosure(Trim(r.reason), false));
    OneEventAppends(s, c, e);
    es := if NoEffect(Perform(s, c).answer) then [] else [e];
  }

  lemma {:induction false} ResolveAppends(s: State, c: Call) returns (es: seq<Event>)
    requires c.request.Resolve?
    ensures Appends(s, c, es)
  {
    es := [];
    NothingAppended(s.events);
    if Perform(s, c).answer == Done {
      var r := c.request;
      var e := Event(ID(c.serial, 0), CaseAggregate, r.case_, Trim(r.actor), c.now, CaseResolution(Trim(r.resolution)));
      var f := Event(ID(c.serial, 1), AlertAggregate, s.cases[r.case_].alert, Trim(r.actor), c.now,
                     AlertClosure(Trim(r.resolution), true));
      es := [e, f];
      TwoAppended(s.events, e, f);
    }
  }

  lemma {:induction false} CustomerRequestAppends(s: State, c: Call) returns (es: seq<Event>)
    requires c.request.Onboard? || c.request.Review?
    ensures Appends(s, c, es)
  {
    var r := c.request;
    var e := if r.Onboard?
      then Event(ID(c.serial, 1), CustomerAggregate, ID(c.serial, 0), Trim(r.actor), c.now, Submitted)
      else Event(ID(c.serial, 0), CustomerAggregate, r.customer, Trim(r.actor), c.now,
                 Reviewed(r.decision == Approve, Trim(r.reason)));
    OneEventAppends(s, c, e);
    es := if NoEffect(Perform(s, c).answer) then [] else [e];
  }

  lemma {:induction false} DueDiligenceAppends(s: State, c: Call) returns (es: seq<Event>)
    requires c.request.UpdateDueDiligence?
    ensures Appends(s, c, es)
  {
    var e := Event(ID(c.serial, 0), CustomerAggregate, c.request.customer, c.request.actor, c.now, DueDiligenceUpdated);
    OneEventAppends(s, c, e);
    es := if NoEffect(Perform(s, c).answer) then [] else [e];
  }

  lemma {:induction false} MonitoringRequestAppends(s: State, c: Call) returns (es: seq<Event>)
    requires c.request.Disposition? || c.request.Configure? || c.request.ClaimDue? || c.request.CompleteRun?
    ensures Appends(s, c, es)
  {
    es := [];
    NothingAppended(s.events);
    var r := c.request;
    if r.Disposition? && Perform(s, c).answer == Done {
      es := [Event(ID(c.serial, 0), CustomerAggregate, s.matches[r.match_].customer, Trim(r.actor), c.now,
                   MatchDisposition(r.match_, r.status, Trim(r.reason)))];
      OneAppended(s.events, es[0]);
    } else if r.Configure? && Perform(s, c).answer == Done {
      es := [Event(ID(c.serial, 0), CustomerAggregate, r.customer, Trim(r.actor), c.now,
                   ScheduleUpdated(r.enabled, r.hours, PerformConfigure(s, c).state.schedules[r.customer].nextRunAt))];
      OneAppended(s.events, es[0]);
    }
  }

  /** Whatever the request and its answer, its effect on the logs is one such run, empty when it fails. */
  lemma {:induction false} PerformAppends(s: State, c: Call) returns (es: seq<Event>)
    ensures Appends(s, c, es)
  {
    match c.request
    case Onboard(_, _, _, _, _) => es := CustomerRequestAppends(s, c);
    case Review(_, _, _, _) => es := CustomerRequestAppends(s, c);
    case Ingest(_) => es := IngestAppends(s, c);
    case Close(_, _, _) => es := RemarkAppends(s, c);
    case OpenCase(_, _, _, _) => es := CaseRequestAppends(s, c);
    case Assign(_, _, _) => es := CaseRequestAppends(s, c);
    case AddComment(_, _, _) => es := RemarkAppends(s, c);
    case Resolve(_, _, _) => es := ResolveAppends(s, c);
    case Screen(_, _, _, _, _, _) => es := ScreenAppends(s, c);
    case UpdateDueDiligence(_, _) => es := DueDiligenceAppends(s, c);
    case _ => es := MonitoringRequestAppends(s, c);
  }

  // ---------- event identifiers ----------

  predicate EventAt(events: map<ID, Log>, a: ID, i: int) {
    a in events && 0 <= i < |events[a]|
  }

  /** Events come from requests already served, or from the current one up to its k-th identifier. */
  ghost predicate EventsBelow(events: map<ID, Log>, used: set<nat>, serial: nat, k: nat) {
    forall a, i :: EventAt(events, a, i) ==>
      && events[a][i].id.ID? && events[a][i].occurredAt != ZERO_TIME
      && (events[a][i].id.request in used || (events[a][i].id.request == serial && events[a][i].id.index < k))
  }

  ghost predicate DistinctIDs(events: map<ID, Log>) {
    forall a, i, b, j :: EventAt(events, a, i) && EventAt(events, b, j) && events[a][i].id == events[b][j].id ==>
        a == b && i == j
  }

  ghost predicate EventsGood(events: map<ID, Log>, used: set<nat>) {
    DistinctIDs(events) && forall a, i :: EventAt(events, a, i) ==>
        Issued(events[a][i].id, used) && events[a][i].occurredAt != ZERO_TIME
  }

  lemma {:induction false} AppendKeepsDistinct(events: map<ID, Log>, used: set<nat>, serial: nat, k: nat, e: Event)
    requires DistinctIDs(events) && EventsBelow(events, used, serial, k) && serial !in used
    requires e.id.ID? && e.id.request == serial && e.id.index >= k && e.occurredAt != ZERO_TIME
    ensures DistinctIDs(Appended(events, e)) && EventsBelow(Appended(events, e), used, serial, e.id.index + 1)
  {
    var after := Appended(events, e);
    forall a, i | EventAt(after, a, i)
        ensures after[a][i] == e || (EventAt(events, a, i) && events[a][i] == after[a][i]) {
    }
    forall a, i, b, j | EventAt(after, a, i) && EventAt(after, b, j) && after[a][i].id == after[b][j].id
        ensures a == b && i == j {
      assert EventAt(events, a, i) ==> events[a][i].id != e.id;
      assert EventAt(events, b, j) ==> events[b][j].id != e.id;
    }
  }

  lemma {:induction false} RunKeepsDistinct(events: map<ID, Log>, used: set<nat>, serial: nat, now: Time,
                                            es: seq<Event>)
    requires DistinctIDs(events) && EventsBelow(events, used, serial, 0) && serial !in used
    requires RunOf(es, serial, now) && now != ZERO_TIME
    ensures DistinctIDs(AllAppended(events, es))
    ensures EventsBelow(AllAppended(events, es), used, serial, if es == [] then 0 else es[|es| - 1].id.index + 1)
  {
    if es != [] {
      var n := |es| - 1;
      RunKeepsDistinct(events, used, serial, now, es[..n]);
      var next := if n == 0 then 0 else es[n - 1].id.index + 1;
      AppendKeepsDistinct(AllAppended(events, es[..n]), used, serial, next, es[n]);
    }
  }

  /** No request is served at the zero instant. */
  predicate Timed(history: seq<Call>) {
    forall i :: 0 <= i < |history| ==> history[i].now != ZERO_TIME
  }

  lemma {:induction false} EventsGoodAlways(history: seq<Call>)
    requires FreshIDs(history) && Timed(history)
    ensures EventsGood(Exec(EMPTY, history).events, Serials(history))
  {
    if history != [] {
      var before, c := history[..|history| - 1], history[|history| - 1];
      EventsGoodAlways(before);
      SerialsStep(before, c);
      assert history == before + [c];
      var s := Exec(EMPTY, before);
      var es := PerformAppends(s, c);
      RunKeepsDistinct(s.events, Serials(before), c.serial, c.now, es);
    }
  }
}

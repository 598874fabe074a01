/**
 Recurring screening as a transition system: rows of the schedule table, one
 clock, and the batch each worker is still working through. Workers claim rows
 under a time lease, may crash or outlive the lease at any point, and operators
 may reconfigure a schedule while a run of it is in flight.
 */
module Schedules {
  import opened Durations
  import opened Backoff
  import opened Collections

  type CustomerID = string
  type Worker = string

  datatype Schedule = Schedule(
    enabled: bool, intervalHours: int, nextRunAt: Time, lastRunAt: Option<Time>,
    lastError: string, failureCount: int, leaseOwner: Option<Worker>, leaseUntil: Option<Time>,
    updatedBy: string, updatedAt: Time)

  type Rows = map<CustomerID, Schedule>

  /** A row as RETURNING handed it to the worker: from here on a private, possibly stale copy. */
  datatype Claimed = Claimed(customer: CustomerID, row: Schedule)

  /** What is left of one RunDue call: its single clock read, the end of its lease, the rows not yet completed. */
  datatype Batch = Batch(now: Time, until: Time, items: seq<Claimed>)

  datatype System = System(clock: Time, rows: Rows, batches: map<Worker, Batch>)

  /** A run's error, or None. The table receives only its text, and reads the empty text as success. */
  type Outcome = Option<string>

  datatype Action =
    | Tick(elapsed: nat)
    | Configure(customer: CustomerID, enabled: bool, hours: int, actor: string)
    | Claim(worker: Worker, lease: Time, limit: int, picks: seq<CustomerID>)
    | Complete(worker: Worker, outcome: Outcome)
    | Crash(worker: Worker)

  // ---------- the three statements on the table ----------

  predicate ValidHours(hours: int) {
    1 <= hours <= 8760
  }

  /** An operator's update: only the time of the last run survives from the row it replaces. */
  function Configured(previous: Option<Schedule>, enabled: bool, hours: int, actor: string, now: Time): Schedule {
    var lastRunAt := if previous.Some? then previous.value.lastRunAt else None;
    Schedule(enabled, hours, now + hours * HOUR, lastRunAt, "", 0, None, None, actor, now)
  }

  function Upserted(rows: Rows, customer: CustomerID, enabled: bool, hours: int, actor: string, now: Time): Rows {
    rows[customer := Configured(if customer in rows then Some(rows[customer]) else None, enabled, hours, actor, now)]
  }

  predicate Due(row: Schedule, now: Time) {
    row.enabled && row.nextRunAt <= now && (row.leaseUntil.None? || row.leaseUntil.value <= now)
  }

  function Leased(row: Schedule, owner: Worker, until: Time): Schedule {
    row.(leaseOwner := Some(owner), leaseUntil := Some(until))
  }

  function LeaseAll(rows: Rows, picks: seq<CustomerID>, owner: Worker, until: Time): Rows {
    map c | c in rows :: if c in picks then Leased(rows[c], owner, until) else rows[c]
  }

  function Finished(row: Schedule, ranAt: Time, nextRun: Time, errorText: string): Schedule {
    row.(lastRunAt := Some(ranAt), lastError := errorText, nextRunAt := nextRun, updatedAt := ranAt,
         failureCount := if errorText == "" then 0 else row.failureCount + 1,
         leaseOwner := None, leaseUntil := None)
  }

  // ---------- the worker ----------

  function EffectiveLimit(limit: int): int {
    if limit < 1 then 25 else limit
  }

  function ErrorText(outcome: Outcome): string {
    if outcome.None? then "" else outcome.value
  }

  /** Computed from the worker's copy of the row, never from the table. */
  function NextRun(copy: Schedule, now: Time, outcome: Outcome): Time {
    if outcome.None? then now + copy.intervalHours * HOUR else now + ScreeningDelay(copy.failureCount + 1)
  }

  predicate Busy(s: System, w: Worker) {
    w in s.batches && s.batches[w].items != []
  }

  /** SKIP LOCKED promises no order: a claim takes any due rows, at most the limit. */
  predicate CanClaim(s: System, w: Worker, lease: Time, limit: int, picks: seq<CustomerID>) {
    && !Busy(s, w)
    && lease > 0
    && Distinct(picks)
    && |picks| <= EffectiveLimit(limit)
    && forall c :: c in picks ==> c in s.rows && Due(s.rows[c], s.clock)
  }

  function Copies(rows: Rows, picks: seq<CustomerID>, owner: Worker, until: Time): (items: seq<Claimed>)
    requires forall c :: c in picks ==> c in rows
  {
    seq(|picks|, i requires 0 <= i < |picks| => Claimed(picks[i], Leased(rows[picks[i]], owner, until)))
  }

  predicate Owns(rows: Rows, c: CustomerID, w: Worker) {
    c in rows && rows[c].leaseOwner == Some(w)
  }

  /** An action whose guard fails changes nothing: the statement matches no row, or the service refuses the request. */
  function Apply(s: System, a: Action): System {
    match a
    case Tick(elapsed) => s.(clock := s.clock + elapsed)
    case Configure(c, enabled, hours, actor) =>
      if ValidHours(hours) then s.(rows := Upserted(s.rows, c, enabled, hours, actor, s.clock)) else s
    case Claim(w, lease, limit, picks) =>
      if CanClaim(s, w, lease, limit, picks) then
        var until := s.clock + lease;
        System(s.clock, LeaseAll(s.rows, picks, w, until),
               s.batches[w := Batch(s.clock, until, Copies(s.rows, picks, w, until))])
      else s
    case Complete(w, outcome) =>
      if !Busy(s, w) then s
      else
        var b := s.batches[w];
        var head := b.items[0];
        if Owns(s.rows, head.customer, w) then
          System(s.clock,
                 s.rows[head.customer := Finished(s.rows[head.customer], b.now, NextRun(head.row, b.now, outcome),
                                                  ErrorText(outcome))],
                 s.batches[w := b.(items := b.items[1..])])
        else s.(batches := s.batches - {w})
    case Crash(w) => s.(batches := s.batches - {w})
  }

  /** Every sequence of actions is a run. */
  function Exec(s: System, history: seq<Action>): System {
    if history == [] then s
    else Apply(Exec(s, history[..|history| - 1]), history[|history| - 1])
  }

  function Init(clock: Time): System {
    System(clock, map[], map[])
  }

  // ---------- the cadence invariant ----------

  predicate OnCadence(row: Schedule) {
    row.nextRunAt == row.updatedAt +
        (if row.failureCount == 0 then row.intervalHours * HOUR else ScreeningDelay(row.failureCount))
  }

  /** A copy in a batch may be stale, but while the row still names the worker it is exact. */
  ghost predicate CopiesGood(s: System, w: Worker)
    requires w in s.batches
  {
    var b := s.batches[w];
    && b.now <= s.clock
    && (forall i :: 0 <= i < |b.items| ==> b.items[i].customer in s.rows)
    && (forall i, j :: 0 <= i < j < |b.items| ==> b.items[i].customer != b.items[j].customer)
    && (forall i :: 0 <= i < |b.items| && Owns(s.rows, b.items[i].customer, w) ==>
          s.rows[b.items[i].customer] == b.items[i].row && b.items[i].row.leaseUntil == Some(b.until))
  }

  /** What lease safety rests on; error texts play no part in it. */
  ghost predicate LeaseBase(s: System) {
    && (forall c :: c in s.rows ==> (s.rows[c].leaseOwner.None? <==> s.rows[c].leaseUntil.None?))
    && (forall w :: w in s.batches ==> CopiesGood(s, w))
  }

  ghost predicate RowGood(s: System, row: Schedule) {
    && OnCadence(row)
    && ValidHours(row.intervalHours)
    && row.failureCount >= 0
    && row.updatedAt <= s.clock
  }

  ghost predicate Inv(s: System) {
    && LeaseBase(s)
    && (forall c :: c in s.rows ==> RowGood(s, s.rows[c]))
  }

  /** No run fails with an empty error text. */
  predicate ErrorsHaveText(history: seq<Action>) {
    forall a :: a in history && a.Complete? ==> a.outcome != Some("")
  }

  lemma {:induction false} ConfigureKeepsCopies(s: System, a: Action, w: Worker)
    requires LeaseBase(s) && a.Configure? && w in s.batches
    ensures CopiesGood(Apply(s, a), w)
  {
    assert CopiesGood(s, w);
  }

  lemma {:induction false} ClaimKeepsCopies(s: System, a: Action, w: Worker)
    requires LeaseBase(s) && a.Claim? && w in Apply(s, a).batches
    ensures CopiesGood(Apply(s, a), w)
  {
    assert w in s.batches ==> CopiesGood(s, w);
  }

  lemma {:induction false} CompleteKeepsCopies(s: System, a: Action, w: Worker)
    requires LeaseBase(s) && a.Complete? && w in Apply(s, a).batches
    ensures CopiesGood(Apply(s, a), w)
  {
    assert CopiesGood(s, w);
    assert Busy(s, a.worker) ==> CopiesGood(s, a.worker);
  }

  lemma {:induction false} RowsStayLeased(s: System, a: Action, c: CustomerID)
    requires forall c :: c in s.rows ==> (s.rows[c].leaseOwner.None? <==> s.rows[c].leaseUntil.None?)
    requires c in Apply(s, a).rows
    ensures Apply(s, a).rows[c].leaseOwner.None? <==> Apply(s, a).rows[c].leaseUntil.None?
  {
  }

  lemma {:induction false} ApplyKeepsLeaseBase(s: System, a: Action)
    requires LeaseBase(s)
    ensures LeaseBase(Apply(s, a))
  {
    var t := Apply(s, a);
    forall w | w in t.batches ensures CopiesGood(t, w) {
      if a.Configure? {
        ConfigureKeepsCopies(s, a, w);
      } else if a.Claim? {
        ClaimKeepsCopies(s, a, w);
      } else if a.Complete? {
        CompleteKeepsCopies(s, a, w);
      } else {
        assert CopiesGood(s, w);
      }
    }
    forall c | c in t.rows ensures t.rows[c].leaseOwner.None? <==> t.rows[c].leaseUntil.None? {
      RowsStayLeased(s, a, c);
    }
  }

  lemma {:induction false} ApplyKeepsRow(s: System, a: Action, c: CustomerID)
    requires Inv(s)
    requires a.Complete? ==> a.outcome != Some("")
    requires c in Apply(s, a).rows
    ensures RowGood(Apply(s, a), Apply(s, a).rows[c])
  {
    assert c in s.rows ==> RowGood(s, s.rows[c]);
    if a.Complete? && Busy(s, a.worker) {
      assert CopiesGood(s, a.worker);
    }
  }

  lemma {:induction false} ApplyKeepsInv(s: System, a: Action)
    requires Inv(s)
    requires a.Complete? ==> a.outcome != Some("")
    ensures Inv(Apply(s, a))
  {
    ApplyKeepsLeaseBase(s, a);
    var t := Apply(s, a);
    forall c | c in t.rows ensures RowGood(t, t.rows[c]) {
      ApplyKeepsRow(s, a, c);
    }
  }

  lemma {:induction false} InvAlways(clock: Time, history: seq<Action>)
    requires ErrorsHaveText(history)
    ensures Inv(Exec(Init(clock), history))
  {
    if history != [] {
      var before := history[..|history| - 1];
      InvAlways(clock, before);
      ApplyKeepsInv(Exec(Init(clock), before), history[|history| - 1]);
    }
  }

  /**
   In every reachable state each row's next run is its last update plus the interval,
   or plus the backoff for its failure count, whatever claims, takeovers, crashes and
   reconfigurations happened; so no row is ever scheduled further out than that.
   */
  lemma {:induction false} CadenceAlways(clock: Time, history: seq<Action>, c: CustomerID)
    requires ErrorsHaveText(history)
    requires c in Exec(Init(clock), history).rows
    ensures var s := Exec(Init(clock), history); var row := s.rows[c];
            && OnCadence(row)
            && row.updatedAt <= s.clock
            && row.nextRunAt <= s.clock + Max(row.intervalHours * HOUR, DAY)
  {
    InvAlways(clock, history);
    var row := Exec(Init(clock), history).rows[c];
    CappedShape(5 * MINUTE, DAY, row.failureCount);
  }

  /**
   The text matters: an accepted completion leaves its row on cadence exactly when the
   error, if there is one, has a text, or its first backoff happens to equal the interval.
   */
  lemma {:induction false} CompletionOnCadenceIff(s: System, w: Worker, outcome: Outcome)
    requires Inv(s) && Busy(s, w)
    requires Owns(s.rows, s.batches[w].items[0].customer, w)
    ensures var head := s.batches[w].items[0];
            OnCadence(Apply(s, Complete(w, outcome)).rows[head.customer]) <==>
              (outcome != Some("") || head.row.intervalHours * HOUR == ScreeningDelay(head.row.failureCount + 1))
  {
    assert CopiesGood(s, w);
  }

  // ---------- lease exclusion ----------

  predicate InBatch(b: Batch, c: CustomerID) {
    exists i :: 0 <= i < |b.items| && b.items[i].customer == c
  }

  /** The worker has yet to complete the row and its lease window is still open. */
  predicate Holds(s: System, w: Worker, c: CustomerID) {
    w in s.batches && s.clock < s.batches[w].until && InBatch(s.batches[w], c)
  }

  ghost predicate Exclusive(s: System) {
    forall w1, w2, c :: Holds(s, w1, c) && Holds(s, w2, c) ==> w1 == w2
  }

  /** Every lease in the history is at most `lease`, every configured interval at least `hours`. */
  predicate Bounded(history: seq<Action>, lease: Time, hours: int) {
    forall a :: a in history ==>
      && (a.Claim? ==> a.lease <= lease)
      && (a.Configure? ==> hours <= a.hours)
  }

  /** A held row still names its holder, or was reconfigured and is not due before the holder's window closes. */
  ghost predicate Shielded(s: System, w: Worker, c: CustomerID)
    requires w in s.batches
  {
    c in s.rows &&
    (s.rows[c].leaseOwner == Some(w) || (s.rows[c].leaseOwner == None && s.batches[w].until <= s.rows[c].nextRunAt))
  }

  ghost predicate LeaseInv(s: System, lease: Time) {
    && (forall w :: w in s.batches ==> s.batches[w].until <= s.batches[w].now + lease)
    && (forall w, c :: Holds(s, w, c) ==> Shielded(s, w, c))
    && Exclusive(s)
  }

  lemma {:induction false} HeldBefore(s: System, a: Action, w: Worker, c: CustomerID)
    requires Holds(Apply(s, a), w, c)
    ensures Holds(s, w, c) || (a.Claim? && a.worker == w && CanClaim(s, w, a.lease, a.limit, a.picks) && c in a.picks)
    ensures w in s.batches && !(a.Claim? && a.worker == w && CanClaim(s, w, a.lease, a.limit, a.picks)) ==>
              Apply(s, a).batches[w].until == s.batches[w].until
  {
    var t := Apply(s, a);
    var i :| 0 <= i < |t.batches[w].items| && t.batches[w].items[i].customer == c;
    match a
    case Complete(w', outcome) =>
      if w == w' && Busy(s, w) {
        assert t.batches[w].items[i] == s.batches[w].items[i + 1];
      }
    case Tick(elapsed) =>
    case Configure(_, _, _, _) =>
    case Claim(_, _, _, _) =>
    case Crash(_) =>
  }

  lemma {:induction false} ClaimKeepsShield(s: System, a: Action, w: Worker, c: CustomerID)
    requires a.Claim? && Holds(s, w, c) && Holds(Apply(s, a), w, c) && Shielded(s, w, c) && CopiesGood(s, w)
    ensures Shielded(Apply(s, a), w, c)
  {
    var i :| 0 <= i < |s.batches[w].items| && s.batches[w].items[i].customer == c;
    assert s.rows[c].leaseOwner == Some(w) ==> s.rows[c].leaseUntil == Some(s.batches[w].until);
  }

  lemma {:induction false} CompleteKeepsShield(s: System, a: Action, w: Worker, c: CustomerID)
    requires a.Complete? && Holds(s, w, c) && Holds(Apply(s, a), w, c) && Shielded(s, w, c) && CopiesGood(s, w)
    ensures Shielded(Apply(s, a), w, c)
  {
    var i :| 0 <= i < |s.batches[w].items| && s.batches[w].items[i].customer == c;
    if a.worker == w && Busy(s, w) && Owns(s.rows, s.batches[w].items[0].customer, w) {
      var t := Apply(s, a);
      var k :| 0 <= k < |t.batches[w].items| && t.batches[w].items[k].customer == c;
      assert t.batches[w].items[k] == s.batches[w].items[k + 1];
    }
  }

  lemma {:induction false} ConfigureKeepsShield(s: System, a: Action, lease: Time, w: Worker, c: CustomerID)
    requires a.Configure? && lease <= a.hours * HOUR && Holds(s, w, c) && Shielded(s, w, c) && CopiesGood(s, w)
    requires s.batches[w].until <= s.batches[w].now + lease
    ensures Shielded(Apply(s, a), w, c)
  {
  }

  lemma {:induction false} FreshClaimShields(s: System, a: Action, w: Worker, c: CustomerID)
    requires a.Claim? && a.worker == w && CanClaim(s, w, a.lease, a.limit, a.picks) && c in a.picks
    ensures w in Apply(s, a).batches && Shielded(Apply(s, a), w, c)
  {
  }

  lemma {:induction false} ApplyKeepsShield(s: System, a: Action, lease: Time, hours: int, w: Worker, c: CustomerID)
    requires LeaseBase(s) && LeaseInv(s, lease)
    requires Bounded([a], lease, hours) && lease <= hours * HOUR
    requires Holds(Apply(s, a), w, c)
    ensures Shielded(Apply(s, a), w, c)
  {
    assert a in [a];
    HeldBefore(s, a, w, c);
    if Holds(s, w, c) {
      assert Shielded(s, w, c) && CopiesGood(s, w);
      match a
      case Claim(_, _, _, _) => ClaimKeepsShield(s, a, w, c);
      case Complete(_, _) => CompleteKeepsShield(s, a, w, c);
      case Configure(_, _, h, _) =>
        assert hours * HOUR <= h * HOUR;
        ConfigureKeepsShield(s, a, lease, w, c);
      case Tick(_) =>
      case Crash(_) =>
    } else {
      FreshClaimShields(s, a, w, c);
    }
  }

  /** A row another worker still holds is not due, so no claim can take it. */
  lemma {:induction false} HeldIsNotDue(s: System, lease: Time, w: Worker, c: CustomerID)
    requires LeaseBase(s) && LeaseInv(s, lease) && Holds(s, w, c)
    ensures c in s.rows && !Due(s.rows[c], s.clock)
  {
    assert Shielded(s, w, c) && CopiesGood(s, w);
    var i :| 0 <= i < |s.batches[w].items| && s.batches[w].items[i].customer == c;
  }

  lemma {:induction false} ApplyKeepsLeaseInv(s: System, a: Action, lease: Time, hours: int)
    requires LeaseBase(s) && LeaseInv(s, lease)
    requires Bounded([a], lease, hours) && lease <= hours * HOUR
    ensures LeaseInv(Apply(s, a), lease)
  {
    assert a in [a];
    var t := Apply(s, a);
    forall w, c | Holds(t, w, c) ensures Shielded(t, w, c) {
      ApplyKeepsShield(s, a, lease, hours, w, c);
    }
    forall w1, w2, c | Holds(t, w1, c) && Holds(t, w2, c) ensures w1 == w2 {
      HeldBefore(s, a, w1, c);
      HeldBefore(s, a, w2, c);
      if Holds(s, w1, c) {
        HeldIsNotDue(s, lease, w1, c);
      }
      if Holds(s, w2, c) {
        HeldIsNotDue(s, lease, w2, c);
      }
    }
  }

  lemma {:induction false} LeaseInvAlways(clock: Time, history: seq<Action>, lease: Time, hours: int)
    requires Bounded(history, lease, hours) && lease <= hours * HOUR
    ensures LeaseBase(Exec(Init(clock), history)) && LeaseInv(Exec(Init(clock), history), lease)
  {
    if history != [] {
      var before, a := history[..|history| - 1], history[|history| - 1];
      LeaseInvAlways(clock, before, lease, hours);
      assert Bounded([a], lease, hours);
      ApplyKeepsLeaseBase(Exec(Init(clock), before), a);
      ApplyKeepsLeaseInv(Exec(Init(clock), before), a, lease, hours);
    }
  }

  lemma {:induction false} Exec1(s: System, history: seq<Action>, a: Action)
    ensures Exec(s, history + [a]) == Apply(Exec(s, history), a)
  {
    assert (history + [a])[..|history|] == history;
  }

  /** Two workers reach the same row when a reconfigured row falls due again while the first lease is still open. */
  function Overlap(lease: Time, hours: nat): seq<Action> {
    [Configure("c", true, hours, "operator"), Tick(hours * HOUR), Claim("w1", lease, 1, ["c"])] +
    [Configure("c", true, hours, "operator"), Tick(hours * HOUR), Claim("w2", lease, 1, ["c"])]
  }

  /** One round of it, from any clock: configure, wait one interval, claim. */
  lemma {:induction false} OverlapRound(s: System, w: Worker, lease: Time, hours: nat)
    requires ValidHours(hours) && lease > 0 && !Busy(s, w)
    ensures var s1 := Apply(Apply(s, Configure("c", true, hours, "operator")), Tick(hours * HOUR));
            var t := Apply(s1, Claim(w, lease, 1, ["c"]));
            && t.clock == s.clock + hours * HOUR
            && t.batches.Keys == s.batches.Keys + {w}
            && (forall w' :: w' in s.batches && w' != w ==> t.batches[w'] == s.batches[w'])
            && t.batches[w].until == t.clock + lease
            && InBatch(t.batches[w], "c")
  {
    var s1 := Apply(Apply(s, Configure("c", true, hours, "operator")), Tick(hours * HOUR));
    assert CanClaim(s1, w, lease, 1, ["c"]);
    var t := Apply(s1, Claim(w, lease, 1, ["c"]));
    assert t.batches[w].items[0].customer == "c";
  }

  lemma {:induction false} Exec3(s: System, a: Action, b: Action, c: Action)
    ensures Exec(s, [a, b, c]) == Apply(Apply(Apply(s, a), b), c)
  {
    Exec1(s, [], a);
    Exec1(s, [a], b);
    Exec1(s, [a, b], c);
    assert [] + [a] == [a] && [a] + [b] == [a, b] && [a, b] + [c] == [a, b, c];
  }

  lemma {:induction false} ExecAppend(s: System, first: seq<Action>, second: seq<Action>)
    ensures Exec(s, first + second) == Exec(Exec(s, first), second)
    decreases |second|
  {
    if second == [] {
      assert first + second == first;
    } else {
      var before, a := second[..|second| - 1], second[|second| - 1];
      ExecAppend(s, first, before);
      assert first + second == (first + before) + [a];
      Exec1(s, first + before, a);
    }
  }

  lemma {:induction false} OverlapBreaksExclusion(lease: Time, hours: nat)
    requires ValidHours(hours) && lease > hours * HOUR
    ensures Bounded(Overlap(lease, hours), lease, hours)
    ensures !Exclusive(Exec(Init(0), Overlap(lease, hours)))
  {
    var s0 := Init(0);
    var configure, wait := Configure("c", true, hours, "operator"), Tick(hours * HOUR);
    var claim1, claim2 := Claim("w1", lease, 1, ["c"]), Claim("w2", lease, 1, ["c"]);
    Exec3(s0, configure, wait, claim1);
    OverlapRound(s0, "w1", lease, hours);
    var s1 := Exec(s0, [configure, wait, claim1]);
    Exec3(s1, configure, wait, claim2);
    OverlapRound(s1, "w2", lease, hours);
    ExecAppend(s0, [configure, wait, claim1], [configure, wait, claim2]);
    var s2 := Exec(s0, Overlap(lease, hours));
    assert Holds(s2, "w1", "c") && Holds(s2, "w2", "c");
  }

  /**
   Leases exclude in every run, operators' mid-run updates included, exactly when a lease
   is no longer than the shortest interval an operator may configure.
   */
  lemma {:induction false} LeaseExclusionIff(lease: Time, hours: int)
    requires ValidHours(hours)
    ensures (forall clock: Time, history: seq<Action> :: Bounded(history, lease, hours) ==>
             Exclusive(Exec(Init(clock), history)))
            <==> lease <= hours * HOUR
  {
    if lease <= hours * HOUR {
      forall clock: Time, history: seq<Action> | Bounded(history, lease, hours)
        ensures Exclusive(Exec(Init(clock), history))
      {
        LeaseInvAlways(clock, history, lease, hours);
      }
    } else {
      OverlapBreaksExclusion(lease, hours);
    }
  }

  // ---------- an operator's change stands ----------

  predicate Claims(s: System, a: Action, w: Worker, c: CustomerID) {
    a.Claim? && a.worker == w && CanClaim(s, w, a.lease, a.limit, a.picks) && c in a.picks
  }

  /** The completion is accepted and is about this row. */
  predicate Completes(s: System, a: Action, w: Worker, c: CustomerID) {
    a.Complete? && a.worker == w && Busy(s, w) && s.batches[w].items[0].customer == c && Owns(s.rows, c, w)
  }

  predicate Reconfigures(a: Action, c: CustomerID) {
    a.Configure? && a.customer == c && ValidHours(a.hours)
  }

  function Unleased(row: Schedule): Schedule {
    row.(leaseOwner := None, leaseUntil := None)
  }

  ghost predicate ClaimedWithin(s: System, post: seq<Action>, w: Worker, c: CustomerID, j: int) {
    0 <= j < |post| && Claims(Exec(s, post[..j]), post[j], w, c)
  }

  ghost predicate CompletedWithin(s: System, post: seq<Action>, w: Worker, c: CustomerID, i: int) {
    0 <= i < |post| && Completes(Exec(s, post[..i]), post[i], w, c)
  }

  /** Some worker claimed the row inside `post` and later had its completion of it accepted. */
  ghost predicate RanWithin(s: System, post: seq<Action>, c: CustomerID) {
    exists w, j, i :: ClaimedWithin(s, post, w, c, j) && CompletedWithin(s, post, w, c, i) && j < i
  }

  lemma {:induction false} WithinExtends(s: System, before: seq<Action>, a: Action, c: CustomerID)
    ensures forall w, j :: ClaimedWithin(s, before, w, c, j) ==> ClaimedWithin(s, before + [a], w, c, j)
    ensures RanWithin(s, before, c) ==> RanWithin(s, before + [a], c)
  {
    forall w, j | ClaimedWithin(s, before, w, c, j) ensures ClaimedWithin(s, before + [a], w, c, j) {
      assert (before + [a])[..j] == before[..j];
    }
    forall w, i | CompletedWithin(s, before, w, c, i) ensures CompletedWithin(s, before + [a], w, c, i) {
      assert (before + [a])[..i] == before[..i];
    }
  }

  lemma {:induction false} OwnerClaimedWithin(s: System, post: seq<Action>, w: Worker, c: CustomerID)
    requires c in s.rows && s.rows[c].leaseOwner == None
    requires Owns(Exec(s, post).rows, c, w)
    ensures exists j :: ClaimedWithin(s, post, w, c, j)
  {
    if post != [] {
      var before, a := post[..|post| - 1], post[|post| - 1];
      assert post == before + [a];
      WithinExtends(s, before, a, c);
      if Owns(Exec(s, before).rows, c, w) {
        OwnerClaimedWithin(s, before, w, c);
        var j :| ClaimedWithin(s, before, w, c, j);
        assert ClaimedWithin(s, post, w, c, j);
      } else {
        assert ClaimedWithin(s, post, w, c, |before|);
      }
    }
  }

  /** Only an update of the row or an accepted completion of it changes more than its lease. */
  lemma {:induction false} StepLeavesUnleased(s: System, a: Action, c: CustomerID)
    requires c in s.rows && !Reconfigures(a, c) && !(a.Complete? && Completes(s, a, a.worker, c))
    ensures c in Apply(s, a).rows && Unleased(Apply(s, a).rows[c]) == Unleased(s.rows[c])
  {
  }

  lemma {:induction false} CompletionRan(s: System, before: seq<Action>, a: Action, c: CustomerID)
    requires c in s.rows && s.rows[c].leaseOwner == None
    requires a.Complete? && Completes(Exec(s, before), a, a.worker, c)
    ensures RanWithin(s, before + [a], c)
  {
    var post := before + [a];
    OwnerClaimedWithin(s, before, a.worker, c);
    var j :| ClaimedWithin(s, before, a.worker, c, j);
    WithinExtends(s, before, a, c);
    assert post[..|before|] == before;
    assert ClaimedWithin(s, post, a.worker, c, j) && CompletedWithin(s, post, a.worker, c, |before|);
  }

  lemma {:induction false} RowsRemain(s: System, a: Action, c: CustomerID)
    requires c in s.rows
    ensures c in Apply(s, a).rows
  {
  }

  lemma {:induction false} UnleasedStands(s: System, post: seq<Action>, c: CustomerID)
    requires c in s.rows && s.rows[c].leaseOwner == None
    requires forall a :: a in post ==> !Reconfigures(a, c)
    ensures c in Exec(s, post).rows
    ensures Unleased(Exec(s, post).rows[c]) == Unleased(s.rows[c]) || RanWithin(s, post, c)
  {
    if post != [] {
      var before, a := post[..|post| - 1], post[|post| - 1];
      assert post == before + [a] && a in post;
      UnleasedStands(s, before, c);
      RowsRemain(Exec(s, before), a, c);
      if a.Complete? && Completes(Exec(s, before), a, a.worker, c) {
        CompletionRan(s, before, a, c);
      } else {
        StepLeavesUnleased(Exec(s, before), a, c);
        WithinExtends(s, before, a, c);
      }
    }
  }

  /**
   An interrupted run never overwrites an operator's change: after an accepted update every
   field but the lease keeps the operator's value until the next update, unless a worker both
   claimed the row and completed it after the update. Batches claimed before it are powerless.
   */
  lemma {:induction false} OperatorChangeStands(s: System, c: CustomerID, enabled: bool, hours: int, actor: string,
                                                post: seq<Action>)
    requires ValidHours(hours)
    requires forall a :: a in post ==> !Reconfigures(a, c)
    ensures var s1 := Apply(s, Configure(c, enabled, hours, actor));
            var t := Exec(s1, post);
            && c in t.rows
            && (Unleased(t.rows[c]) == Upserted(s.rows, c, enabled, hours, actor, s.clock)[c] || RanWithin(s1, post, c))
  {
    UnleasedStands(Apply(s, Configure(c, enabled, hours, actor)), post, c);
  }

  /**
   A paused schedule is frozen outright: no claim can touch it, so not even its lease changes until
   the next update.
   */
  lemma {:induction false} PausedIsFrozen(s: System, c: CustomerID, hours: int, actor: string, post: seq<Action>)
    requires ValidHours(hours)
    requires forall a :: a in post ==> !Reconfigures(a, c)
    ensures var s1 := Apply(s, Configure(c, false, hours, actor));
            c in Exec(s1, post).rows && Exec(s1, post).rows[c] == s1.rows[c]
  {
    if post != [] {
      PausedIsFrozen(s, c, hours, actor, post[..|post| - 1]);
      assert post[|post| - 1] in post;
    }
  }

  // ---------- the code, statement by statement ----------

  lemma {:induction false} ApplyTouchesOwnBatchOnly(s: System, a: Action, w: Worker)
    requires Foreign(a, w)
    ensures (w in Apply(s, a).batches <==> w in s.batches)
    ensures w in s.batches ==> Apply(s, a).batches[w] == s.batches[w]
  {
  }

  /** An action of the clock, of an operator, or of another worker. */
  predicate Foreign(a: Action, w: Worker) {
    match a
    case Tick(_) => true
    case Configure(_, _, _, _) => true
    case Claim(w', _, _, _) => w' != w
    case Complete(w', _) => w' != w
    case Crash(w') => w' != w
  }

  lemma {:induction false} ForeignKeepsBatch(s: System, others: seq<Action>, w: Worker)
    requires forall a :: a in others ==> Foreign(a, w)
    ensures w in Exec(s, others).batches <==> w in s.batches
    ensures w in s.batches ==> Exec(s, others).batches[w] == s.batches[w]
  {
    if others != [] {
      ForeignKeepsBatch(s, others[..|others| - 1], w);
      ApplyTouchesOwnBatchOnly(Exec(s, others[..|others| - 1]), others[|others| - 1], w);
    }
  }

  /**
   One RunDue call as a run: its claim, then `n` completions, with whatever the rest of the system
   did before each.
   */
  function RunDueTrace(claim: Action, w: Worker, outcomes: seq<Outcome>, others: seq<seq<Action>>, n: nat): seq<Action>
    requires n <= |outcomes| && n <= |others|
  {
    if n == 0 then [claim]
    else RunDueTrace(claim, w, outcomes, others, n - 1) + others[n - 1] + [Complete(w, outcomes[n - 1])]
  }

  lemma {:induction false} TraceStep(s: System, claim: Action, w: Worker, outcomes: seq<Outcome>,
                                     others: seq<seq<Action>>, n: nat)
    requires n < |outcomes| && n < |others|
    ensures Exec(s, RunDueTrace(claim, w, outcomes, others, n + 1)) ==
            Apply(Exec(Exec(s, RunDueTrace(claim, w, outcomes, others, n)), others[n]), Complete(w, outcomes[n]))
  {
    ExecAppend(s, RunDueTrace(claim, w, outcomes, others, n), others[n]);
    Exec1(s, RunDueTrace(claim, w, outcomes, others, n) + others[n], Complete(w, outcomes[n]));
  }

  /** The state after the claim and n completions of that run. */
  ghost predicate Ran(t: System, s: System, claim: Action, w: Worker, outcomes: seq<Outcome>,
                      others: seq<seq<Action>>, n: nat)
  {
    n <= |outcomes| && n <= |others| && t == Exec(s, RunDueTrace(claim, w, outcomes, others, n))
  }

  lemma {:induction false} RanNone(
      s: System, claim: Action, w: Worker, outcomes: seq<Outcome>, others: seq<seq<Action>>)
    ensures Ran(Apply(s, claim), s, claim, w, outcomes, others, 0)
  {
    Exec1(s, [], claim);
    assert [] + [claim] == [claim];
  }

  lemma {:induction false} RanOne(
      t: System, u: System, s: System, claim: Action, w: Worker, outcomes: seq<Outcome>,
          others: seq<seq<Action>>, n: nat)
    requires Ran(t, s, claim, w, outcomes, others, n) && n < |outcomes| && n < |others|
    requires u == Apply(Exec(t, others[n]), Complete(w, outcomes[n]))
    ensures Ran(u, s, claim, w, outcomes, others, n + 1)
  {
    TraceStep(s, claim, w, outcomes, others, n);
  }

  function Failures(outcomes: seq<Outcome>): nat {
    if outcomes == [] then 0
    else
      var before, last := outcomes[..|outcomes| - 1], outcomes[|outcomes| - 1];
      Failures(before) + (if last.None? then 0 else 1)
  }

  /** The schedule table, the clock, and the batches of the workers that share them. */
  class ScreeningCluster {
    var clock: Time
    var rows: Rows
    var batches: map<Worker, Batch>

    ghost function State(): System
      reads this
    {
      System(clock, rows, batches)
    }

    constructor (start: Time)
      ensures State() == Init(start)
    {
      clock, rows, batches := start, map[], map[];
    }

    /** Texts come trimmed; an unknown customer is refused like a bad request. */
    method ConfigureSchedule(
        known: set<CustomerID>, customer: CustomerID, enabled: bool, hours: int, actor: string)
      returns (ok: bool)
      modifies this
      ensures ok <==> customer != "" && actor != "" && ValidHours(hours) && customer in known
      ensures State() == if ok then Apply(old(State()), Configure(customer, enabled, hours, actor)) else old(State())
    {
      if customer == "" || actor == "" || hours < 1 || hours > 8760 || customer !in known {
        return false;
      }
      var schedule := Schedule(enabled, hours, clock + hours * HOUR, None, "", 0, None, None, actor, clock);
      if customer in rows {
        schedule := schedule.(lastRunAt := rows[customer].lastRunAt);
      }
      rows := rows[customer := schedule];
      return true;
    }

    method ClaimDueScreeningSchedules(w: Worker, lease: Time, limit: int, picks: seq<CustomerID>)
        returns (items: seq<Claimed>)
      requires Distinct(picks) && |picks| <= (if limit < 1 then 25 else limit)
      requires forall c :: c in picks ==>
                 && c in rows && rows[c].enabled && rows[c].nextRunAt <= clock
                 && (rows[c].leaseUntil.None? || rows[c].leaseUntil.value <= clock)
      modifies this`rows
      ensures rows == LeaseAll(old(rows), picks, w, clock + lease)
      ensures items == Copies(old(rows), picks, w, clock + lease)
    {
      items := [];
      var until := clock + lease;
      for i := 0 to |picks|
        invariant rows == LeaseAll(old(rows), picks[..i], w, until)
        invariant items == Copies(old(rows), picks[..i], w, until)
      {
        var c := picks[i];
        assert c in picks;
        assert c !in picks[..i];
        rows := rows[c := rows[c].(leaseOwner := Some(w), leaseUntil := Some(until))];
        items := items + [Claimed(c, rows[c])];
        assert picks[..i + 1] == picks[..i] + [c];
      }
      assert picks[..|picks|] == picks;
    }

    method CompleteScreeningSchedule(customer: CustomerID, owner: Worker, ranAt: Time, nextRun: Time, lastError: string)
      returns (ok: bool)
      modifies this`rows
      ensures ok <==> Owns(old(rows), customer, owner)
      ensures rows == if ok then old(rows)[customer := Finished(old(rows)[customer], ranAt, nextRun, lastError)]
              else old(rows)
    {
      if customer !in rows || rows[customer].leaseOwner != Some(owner) {
        return false;
      }
      var row := rows[customer];
      row := row.(lastRunAt := Some(ranAt), lastError := lastError, nextRunAt := nextRun);
      if lastError == "" {
        row := row.(failureCount := 0);
      } else {
        row := row.(failureCount := row.failureCount + 1);
      }
      row := row.(leaseOwner := None, leaseUntil := None);
      row := row.(updatedAt := ranAt);
      rows := rows[customer := row];
      return true;
    }

    /** Everything else that happens while a RunDue call is between two of its own steps. */
    method Meanwhile(others: seq<Action>)
      modifies this
      ensures State() == Exec(old(State()), others)
    {
      for i := 0 to |others|
        invariant State() == Exec(old(State()), others[..i])
      {
        var t := Apply(System(clock, rows, batches), others[i]);
        clock, rows, batches := t.clock, t.rows, t.batches;
        assert others[..i + 1] == others[..i] + [others[i]];
        Exec1(old(State()), others[..i], others[i]);
      }
      assert others[..|others|] == others;
    }

    /** RunDue's first statement: one clock read, one claim, and the batch is the worker's own from here on. */
    method Begin(w: Worker, lease: Time, limit: int, picks: seq<CustomerID>)
        returns (now: Time, schedules: seq<Claimed>)
      requires CanClaim(State(), w, lease, limit, picks)
      modifies this
      ensures State() == Apply(old(State()), Claim(w, lease, limit, picks))
      ensures |schedules| == |picks|
      ensures w in batches && batches[w] == Batch(now, now + lease, schedules)
    {
      now := clock;
      schedules := ClaimDueScreeningSchedules(w, lease, limit, picks);
      batches := batches[w := Batch(now, now + lease, schedules)];
    }

    /** The body of the worker's loop: its copy of the row and its old clock read decide the next run. */
    method RunOne(w: Worker, now: Time, schedule: Claimed, outcome: Outcome) returns (ok: bool)
      requires Busy(State(), w) && batches[w].items[0] == schedule && batches[w].now == now
      modifies this
      ensures ok <==> Owns(old(rows), schedule.customer, w)
      ensures State() == Apply(old(State()), Complete(w, outcome))
    {
      var errorText := "";
      var nextRun := now + schedule.row.intervalHours * HOUR;
      if outcome.Some? {
        errorText := outcome.value;
        var delay := ScreeningRetryBackoff(schedule.row.failureCount + 1);
        nextRun := now + delay;
      }
      ok := CompleteScreeningSchedule(schedule.customer, w, now, nextRun, errorText);
      if ok {
        batches := batches[w := batches[w].(items := batches[w].items[1..])];
      } else {
        batches := batches - {w};
      }
    }

    method Turn(w: Worker, now: Time, schedule: Claimed, others: seq<Action>, outcome: Outcome) returns (ok: bool)
      requires Busy(State(), w) && batches[w].items[0] == schedule && batches[w].now == now
      requires forall a :: a in others ==> Foreign(a, w)
      modifies this
      ensures State() == Apply(Exec(old(State()), others), Complete(w, outcome))
      ensures !ok ==> w !in batches
      ensures ok ==> w in batches && batches[w] == old(batches[w]).(items := old(batches[w]).items[1..])
    {
      ForeignKeepsBatch(State(), others, w);
      Meanwhile(others);
      ok := RunOne(w, now, schedule, outcome);
    }

    /**
     The worker's loop. `picks` is the database's choice of due rows, `outcomes` what each
     screening returned, `others` what the rest of the system did before each completion.
     The call is a run of the transition system, it stops at the first refused completion,
     and it counts the outcomes of the completions that were accepted.
     */
    method RunDue(w: Worker, lease: Time, limit: int, picks: seq<CustomerID>, outcomes: seq<Outcome>,
                  others: seq<seq<Action>>)
      returns (completed: nat, failed: nat, refused: bool)
      requires CanClaim(State(), w, lease, limit, picks)
      requires |outcomes| == |others| == |picks|
      requires forall i, a :: 0 <= i < |others| && a in others[i] ==> Foreign(a, w)
      modifies this
      ensures var n := completed + failed + (if refused then 1 else 0);
              && n <= |picks|
              && (refused || n == |picks|)
              && State() == Exec(old(State()), RunDueTrace(Claim(w, lease, limit, picks), w, outcomes, others, n))
              && failed == Failures(outcomes[..completed + failed])
      ensures !Busy(State(), w)
    {
      ghost var start := State();
      ghost var claim := Claim(w, lease, limit, picks);
      var now, schedules := Begin(w, lease, limit, picks);
      RanNone(start, claim, w, outcomes, others);
      completed, failed, refused := 0, 0, false;
      for i := 0 to |schedules|
        invariant completed + failed == i && !refused
        invariant failed == Failures(outcomes[..i])
        invariant w in batches && batches[w] == Batch(now, now + lease, schedules[i..])
        invariant Ran(State(), start, claim, w, outcomes, others, i)
      {
        ghost var before := State();
        var ok := Turn(w, now, schedules[i], others[i], outcomes[i]);
        RanOne(before, State(), start, claim, w, outcomes, others, i);
        if !ok {
          refused := true;
          return;
        }
        if outcomes[i].None? {
          completed := completed + 1;
        } else {
          failed := failed + 1;
        }
        assert outcomes[..i + 1][..i] == outcomes[..i];
      }
    }
  }
}

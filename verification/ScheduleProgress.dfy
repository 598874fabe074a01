/**
 What the lease protocol of recurring screening does get done: which rows a claim takes, what an
 update and a completion leave.
 */
module ScheduleProgress {
  import opened Durations
  import opened Backoff
  import opened Collections
  import opened Schedules

  /** The worker has a row of this customer still to complete. */
  ghost predicate HasClaimed(s: System, w: Worker, c: CustomerID) {
    w in s.batches && InBatch(s.batches[w], c)
  }

  // ---------- which rows a claim takes ----------

  /**
   A claim of one row takes it, whatever its history, exactly when it is enabled, its time has come
   and no lease is open.
   */
  lemma {:induction false} ClaimTakesIff(s: System, w: Worker, lease: Time, limit: int, c: CustomerID)
    requires (w in s.batches ==> s.batches[w].items == []) && lease > 0
    ensures var t := Apply(s, Claim(w, lease, limit, [c]));
            && (HasClaimed(t, w, c) <==>
                  && c in s.rows && s.rows[c].enabled && s.rows[c].nextRunAt <= s.clock
                  && (s.rows[c].leaseUntil == None || s.rows[c].leaseUntil.value <= s.clock))
            && (!HasClaimed(t, w, c) ==> t == s)
            && (HasClaimed(t, w, c) ==>
                  && t.rows == s.rows[c := s.rows[c].(leaseOwner := Some(w), leaseUntil := Some(s.clock + lease))]
                  && t.batches[w] == Batch(s.clock, s.clock + lease, [Claimed(c, t.rows[c])]))
  {
    var t := Apply(s, Claim(w, lease, limit, [c]));
    if CanClaim(s, w, lease, limit, [c]) {
      assert t.batches[w].items[0].customer == c;
    }
  }

  /**
   A claim of several rows takes all of them or none: all when the worker is idle, the rows are
   distinct, no more than the limit, and each can be taken.
   */
  lemma {:induction false} ClaimTakesAllIff(s: System, w: Worker, lease: Time, limit: int, picks: seq<CustomerID>)
    requires picks != []
    ensures var t := Apply(s, Claim(w, lease, limit, picks));
            && (t != s <==>
                  && (w in s.batches ==> s.batches[w].items == []) && lease > 0
                  && Distinct(picks) && |picks| <= (if limit < 1 then 25 else limit)
                  && forall c :: c in picks ==>
                       && c in s.rows && s.rows[c].enabled && s.rows[c].nextRunAt <= s.clock
                       && (s.rows[c].leaseUntil == None || s.rows[c].leaseUntil.value <= s.clock))
            && (t != s ==> forall c :: c in picks ==>
                HasClaimed(t, w, c) && t.rows[c].leaseUntil == Some(s.clock + lease))
  {
    var t := Apply(s, Claim(w, lease, limit, picks));
    if CanClaim(s, w, lease, limit, picks) {
      assert t.batches[w].items[0].customer == picks[0];
      forall c | c in picks ensures HasClaimed(t, w, c) {
        var i :| 0 <= i < |picks| && picks[i] == c;
        assert t.batches[w].items[i].customer == c;
      }
      assert w in s.batches ==> t.batches[w].items != s.batches[w].items;
    }
  }

  // ---------- every enabled row is taken in time ----------

  ghost predicate Reachable(s: System, row: Schedule, lease: Time) {
    && row.nextRunAt <= s.clock + Max(row.intervalHours * HOUR, DAY)
    && (row.leaseUntil.Some? ==> row.leaseUntil.value <= s.clock + lease)
  }

  ghost predicate AllReachable(s: System, lease: Time) {
    LeaseBase(s) && forall c :: c in s.rows ==> Reachable(s, s.rows[c], lease)
  }

  predicate LeasesWithin(history: seq<Action>, lease: Time) {
    forall a :: a in history && a.Claim? ==> a.lease <= lease
  }

  lemma {:induction false} StepKeepsReachable(s: System, a: Action, lease: Time, c: CustomerID)
    requires AllReachable(s, lease) && (a.Claim? ==> a.lease <= lease) && c in Apply(s, a).rows
    ensures Reachable(Apply(s, a), Apply(s, a).rows[c], lease)
  {
    assert c in s.rows ==> Reachable(s, s.rows[c], lease);
    if a.Complete? && Busy(s, a.worker) {
      assert CopiesGood(s, a.worker);
      CappedShape(5 * MINUTE, DAY, s.batches[a.worker].items[0].row.failureCount + 1);
    }
  }

  lemma {:induction false} ReachableAlways(clock: Time, history: seq<Action>, lease: Time)
    requires LeasesWithin(history, lease)
    ensures AllReachable(Exec(Init(clock), history), lease)
  {
    if history != [] {
      var before, a := history[..|history| - 1], history[|history| - 1];
      ReachableAlways(clock, before, lease);
      var s := Exec(Init(clock), before);
      assert a in history;
      ApplyKeepsLeaseBase(s, a);
      forall c | c in Apply(s, a).rows ensures Reachable(Apply(s, a), Apply(s, a).rows[c], lease) {
        StepKeepsReachable(s, a, lease, c);
      }
    }
  }

  /**
   No enabled row is stuck: after any run, however often its screening failed, and after a quiet
   time as long as its interval, a day and every lease, an idle worker's claim takes it.
   */
  lemma {:induction false} NothingStuck(
      clock: Time, history: seq<Action>, c: CustomerID, w: Worker, lease: Time, longest: Time, quiet: nat)
    requires LeasesWithin(history, longest) && lease > 0
    requires var s := Exec(Init(clock), history);
             && c in s.rows && s.rows[c].enabled && (w in s.batches ==> s.batches[w].items == [])
             && quiet >= Max(Max(s.rows[c].intervalHours * HOUR, DAY), longest)
    ensures var t := Apply(Apply(Exec(Init(clock), history), Tick(quiet)), Claim(w, lease, 1, [c]));
            HasClaimed(t, w, c) && t.rows[c].leaseOwner == Some(w)
  {
    ReachableAlways(clock, history, longest);
    var s := Exec(Init(clock), history);
    assert Reachable(s, s.rows[c], longest);
    ClaimTakesIff(Apply(s, Tick(quiet)), w, lease, 1, c);
  }

  // ---------- what updates and completions leave ----------

  /** An update is accepted for 1 to 8760 hours and writes every field but the last run. */
  lemma {:induction false} UpdateWrites(s: System, c: CustomerID, enabled: bool, hours: int, actor: string)
    ensures var t := Apply(s, Configure(c, enabled, hours, actor));
            if 1 <= hours <= 8760
            then t == s.(rows := s.rows[c := Schedule(
                   enabled, hours, s.clock + hours * 3_600_000_000_000, if c in s.rows then
                       s.rows[c].lastRunAt else None,
                   "", 0, None, None, actor, s.clock)])
            else t == s
  {
  }

  /**
   In every run, a completion by the worker the row still names writes the outcome at the instant
   of the worker's clock read: success plans the row's own interval ahead, the k-th failure in a
   row the k-th delay, though an error without a text counts as none. A completion by any other
   worker only drops its batch.
   */
  lemma {:induction false} CompletionWrites(clock: Time, history: seq<Action>, w: Worker, outcome: Outcome)
    requires var s := Exec(Init(clock), history); w in s.batches && s.batches[w].items != []
    ensures var s := Exec(Init(clock), history);
            var t, now, c := Apply(s, Complete(w, outcome)), s.batches[w].now, s.batches[w].items[0].customer;
            if c in s.rows && s.rows[c].leaseOwner == Some(w) then
              && t.batches[w].items == s.batches[w].items[1..]
              && t.rows == s.rows[c := s.rows[c].(
                   nextRunAt := if outcome == None then now + s.rows[c].intervalHours * 3_600_000_000_000
                                else now + ScreeningDelay(s.rows[c].failureCount + 1),
                   failureCount := if outcome == None || outcome == Some("") then 0 else s.rows[c].failureCount + 1,
                   lastRunAt := Some(now), updatedAt := now,
                   lastError := if outcome == None then "" else outcome.value,
                   leaseOwner := None, leaseUntil := None)]
            else t.rows == s.rows && t.batches == s.batches - {w}
  {
    LeaseBaseAlways(clock, history);
    assert CopiesGood(Exec(Init(clock), history), w);
  }

  lemma {:induction false} LeaseBaseAlways(clock: Time, history: seq<Action>)
    ensures LeaseBase(Exec(Init(clock), history))
  {
    if history != [] {
      LeaseBaseAlways(clock, history[..|history| - 1]);
      ApplyKeepsLeaseBase(Exec(Init(clock), history[..|history| - 1]), history[|history| - 1]);
    }
  }
}

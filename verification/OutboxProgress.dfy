/**
 What the outbox protocol does get done: which messages a claim takes, what a result leaves, and how
 long a retry waits.
 */
module OutboxProgress {
  import opened Durations
  import opened Backoff
  import opened Collections
  import opened Outbox

  ghost predicate HasClaimed(s: System, w: Worker, id: MessageID) {
    w in s.batches && InBatch(s.batches[w], id)
  }

  /** A claim of one message takes it exactly when it is pending, its time has come and no lease is open. */
  lemma {:induction false} ClaimTakesIff(s: System, w: Worker, limit: int, id: MessageID)
    requires (w in s.batches ==> s.batches[w].items == []) && limit >= 1
    ensures var t := Apply(s, Claim(w, limit, [id]));
            && (HasClaimed(t, w, id) <==>
                  && id in s.rows && s.rows[id].status == Pending && s.rows[id].nextAttemptAt <= s.clock
                  && (s.rows[id].leaseUntil == None || s.rows[id].leaseUntil.value <= s.clock))
            && (!HasClaimed(t, w, id) ==> t == s)
            && (HasClaimed(t, w, id) ==>
                  && t.rows == s.rows[id := s.rows[id].(
                       leaseOwner := Some(w), leaseUntil := Some(s.clock + 120_000_000_000))]
                  && t.batches[w] == Batch(s.clock, s.clock + 120_000_000_000, [Claimed(id, t.rows[id])], None))
  {
    var t := Apply(s, Claim(w, limit, [id]));
    if CanClaim(s, w, limit, [id]) {
      assert t.batches[w].items[0].id == id;
    }
  }

  /** Any claim takes only messages that can be taken, whatever else it asks for. */
  lemma {:induction false} ClaimTakesOnlyDue(s: System, w: Worker, limit: int, picks: seq<MessageID>, id: MessageID)
    requires !HasClaimed(s, w, id) && HasClaimed(Apply(s, Claim(w, limit, picks)), w, id)
    ensures id in s.rows && s.rows[id].status == Pending && s.rows[id].nextAttemptAt <= s.clock
  {
    var t := Apply(s, Claim(w, limit, picks));
    var i :| 0 <= i < |t.batches[w].items| && t.batches[w].items[i].id == id;
    assert picks[i] == id;
  }

  /** After any run and a quiet hour, an idle worker's claim takes any pending message. */
  lemma {:induction false} PendingIsTaken(clock: Time, history: seq<Action>, id: MessageID, w: Worker, quiet: nat)
    requires var s := Exec(Init(clock), history);
             id in s.rows && s.rows[id].status == Pending && (w in s.batches ==> s.batches[w].items == [])
    requires quiet >= HOUR
    ensures HasClaimed(Apply(Apply(Exec(Init(clock), history), Tick(quiet)), Claim(w, 1, [id])), w, id)
  {
    NothingStuck(clock, history, id, w, quiet);
    ClaimTakesIff(Apply(Exec(Init(clock), history), Tick(quiet)), w, 1, id);
  }

  // ---------- what a result leaves ----------

  /**
   In every run, a result recorded by the worker the row still names: a success delivers the row,
   the k-th failed attempt leaves it pending until the k-th delay after the worker's clock read,
   and an error without a text counts as a success. A result of any other worker only drops its
   batch.
   */
  lemma {:induction false} ResultWrites(clock: Time, history: seq<Action>, w: Worker)
    requires var s := Exec(Init(clock), history);
             w in s.batches && s.batches[w].items != [] && s.batches[w].sent.Some?
    ensures var s := Exec(Init(clock), history);
            var t, now, id := Apply(s, Complete(w)), s.batches[w].now, s.batches[w].items[0].id;
            var outcome := s.batches[w].sent.value;
            if id in s.rows && s.rows[id].leaseOwner == Some(w) then
              && t.batches[w].items == s.batches[w].items[1..]
              && t.rows == s.rows[id := s.rows[id].(
                   status := if outcome == None || outcome == Some("") then Delivered else Pending,
                   attempts := s.rows[id].attempts + 1,
                   nextAttemptAt := if outcome == None then now else now + DeliveryDelay(s.rows[id].attempts + 1),
                   lastError := if outcome == None then "" else outcome.value,
                   deliveredAt := if outcome == None || outcome == Some("") then Some(now) else None,
                   leaseOwner := None, leaseUntil := None)]
            else t.rows == s.rows && t.batches == s.batches - {w}
  {
    CopyIsExact(clock, history, w);
  }

  /** The copy in hand is the row as long as the row names the worker. */
  lemma {:induction false} CopyIsExact(clock: Time, history: seq<Action>, w: Worker)
    requires w in Exec(Init(clock), history).batches && Exec(Init(clock), history).batches[w].items != []
    ensures var s := Exec(Init(clock), history);
            var head := s.batches[w].items[0];
            head.id in s.rows && (s.rows[head.id].leaseOwner == Some(w) ==> s.rows[head.id] == head.row)
  {
    SendInvAlways(clock, history);
    assert BatchGood(Exec(Init(clock), history), w);
  }

  // ---------- a retry waits ----------

  /** The message is waiting for its next attempt at that time, or the time has passed. */
  ghost predicate Waiting(s: System, id: MessageID, until: Time) {
    s.clock >= until || (id in s.rows && s.rows[id].nextAttemptAt == until && s.rows[id].leaseOwner == None)
  }

  lemma {:induction false} StepKeepsWaiting(s: System, a: Action, id: MessageID, until: Time)
    requires Waiting(s, id, until)
    ensures Waiting(Apply(s, a), id, until)
  {
  }

  lemma {:induction false} KeepsWaiting(s: System, post: seq<Action>, id: MessageID, until: Time)
    requires Waiting(s, id, until)
    ensures Waiting(Exec(s, post), id, until)
  {
    if post != [] {
      KeepsWaiting(s, post[..|post| - 1], id, until);
      StepKeepsWaiting(Exec(s, post[..|post| - 1]), post[|post| - 1], id, until);
    }
  }

  /**
   After the k-th attempt failed, no worker's claim takes the message before the k-th delay has
   passed since the clock read of that attempt, whatever happens in between.
   */
  lemma {:induction false} RetryWaits(
      clock: Time, history: seq<Action>, w: Worker, text: string, post: seq<Action>, next: Worker, limit: int,
      picks: seq<MessageID>)
    requires var s := Exec(Init(clock), history);
             && w in s.batches && s.batches[w].items != [] && s.batches[w].sent == Some(Some(text)) && text != ""
             && s.batches[w].items[0].id in s.rows && s.rows[s.batches[w].items[0].id].leaseOwner == Some(w)
    requires var s := Exec(Init(clock), history);
             var u := Exec(Apply(s, Complete(w)), post);
             && !HasClaimed(u, next, s.batches[w].items[0].id)
             && HasClaimed(Apply(u, Claim(next, limit, picks)), next, s.batches[w].items[0].id)
    ensures var s := Exec(Init(clock), history);
            var id := s.batches[w].items[0].id;
            var k := Apply(s, Complete(w)).rows[id].attempts;
            Exec(Apply(s, Complete(w)), post).clock >= s.batches[w].now + DeliveryDelay(k)
  {
    var s := Exec(Init(clock), history);
    var id := s.batches[w].items[0].id;
    var t := Apply(s, Complete(w));
    ResultWrites(clock, history, w);
    var until := s.batches[w].now + DeliveryDelay(t.rows[id].attempts);
    assert Waiting(t, id, until);
    KeepsWaiting(t, post, id, until);
    ClaimTakesOnlyDue(Exec(t, post), next, limit, picks, id);
  }
}

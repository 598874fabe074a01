/**
 The notification outbox as a transition system. Sending and recording the result are
 two separate steps, so a worker can crash or lose its lease between them: delivery is
 at least once, and the takeovers bound how often it is more than once.
 */
module Outbox {
  import opened Durations
  import opened Backoff
  import opened Collections

  type MessageID = string
  type Worker = string

  const LEASE: Time := 2 * MINUTE

  datatype Status = Pending | Delivered

  datatype Message = Message(
    destination: string, status: Status, attempts: int, nextAttemptAt: Time, lastError: string,
    leaseOwner: Option<Worker>, leaseUntil: Option<Time>, deliveredAt: Option<Time>)

  type Rows = map<MessageID, Message>

  /** A row as RETURNING handed it to the worker. */
  datatype Claimed = Claimed(id: MessageID, row: Message)

  /** A sender's error, or None. The table receives only its text, and reads the empty text as success. */
  type Outcome = Option<string>

  /** What is left of one RunDue call; `sent` is the outcome of sending the head, once it was sent. */
  datatype Batch = Batch(now: Time, until: Time, items: seq<Claimed>, sent: Option<Outcome>)

  /** What happened to a message, for the statements below only: no step reads it. */
  datatype Record = Record(sends: nat, takeovers: nat, completions: nat, sentByOwner: bool)

  datatype System = System(clock: Time, rows: Rows, batches: map<Worker, Batch>, records: map<MessageID, Record>)

  datatype Action =
    | Tick(elapsed: nat)
    | Save(messages: map<MessageID, string>)
    | Claim(worker: Worker, limit: int, picks: seq<MessageID>)
    | Send(worker: Worker, outcome: Outcome)
    | Complete(worker: Worker)
    | Crash(worker: Worker)

  // ---------- the statements on the table ----------

  function Fresh(destination: string, now: Time): Message {
    Message(destination, Pending, 0, now, "", None, None, None)
  }

  function Inserted(rows: Rows, messages: map<MessageID, string>, now: Time): Rows {
    rows + map id | id in messages :: Fresh(messages[id], now)
  }

  predicate Due(row: Message, now: Time) {
    row.status.Pending? && row.nextAttemptAt <= now && (row.leaseUntil.None? || row.leaseUntil.value <= now)
  }

  function Leased(row: Message, owner: Worker, until: Time): Message {
    row.(leaseOwner := Some(owner), leaseUntil := Some(until))
  }

  function LeaseAll(rows: Rows, picks: seq<MessageID>, owner: Worker, until: Time): Rows {
    map id | id in rows :: if id in picks then Leased(rows[id], owner, until) else rows[id]
  }

  function Finished(row: Message, attemptedAt: Time, next: Time, errorText: string): Message {
    row.(status := if errorText == "" then Delivered else Pending,
         attempts := row.attempts + 1, nextAttemptAt := next, lastError := errorText,
         deliveredAt := if errorText == "" then Some(attemptedAt) else None,
         leaseOwner := None, leaseUntil := None)
  }

  // ---------- the worker ----------

  function ErrorText(outcome: Outcome): string {
    if outcome.None? then "" else outcome.value
  }

  function NextAttempt(copy: Message, now: Time, outcome: Outcome): Time {
    if outcome.None? then now else now + DeliveryDelay(copy.attempts + 1)
  }

  predicate Busy(s: System, w: Worker) {
    w in s.batches && s.batches[w].items != []
  }

  predicate CanClaim(s: System, w: Worker, limit: int, picks: seq<MessageID>) {
    && !Busy(s, w)
    && Distinct(picks)
    && |picks| <= limit
    && forall id :: id in picks ==> id in s.rows && Due(s.rows[id], s.clock)
  }

  predicate CanSend(s: System, w: Worker) {
    Busy(s, w) && s.batches[w].sent.None?
  }

  predicate CanComplete(s: System, w: Worker) {
    Busy(s, w) && s.batches[w].sent.Some?
  }

  predicate Owns(rows: Rows, id: MessageID, w: Worker) {
    id in rows && rows[id].leaseOwner == Some(w)
  }

  function Copies(rows: Rows, picks: seq<MessageID>, owner: Worker, until: Time): (items: seq<Claimed>)
    requires forall id :: id in picks ==> id in rows
  {
    seq(|picks|, i requires 0 <= i < |picks| => Claimed(picks[i], Leased(rows[picks[i]], owner, until)))
  }

  // ---------- what the records note ----------

  function NoteClaims(s: System, picks: seq<MessageID>): map<MessageID, Record> {
    map id | id in s.records ::
      if id in picks && id in s.rows then
        s.records[id].(takeovers := s.records[id].takeovers + (if s.rows[id].leaseOwner.Some? then 1 else 0),
                       sentByOwner := false)
      else s.records[id]
  }

  function NoteSend(s: System, w: Worker, id: MessageID, outcome: Outcome): map<MessageID, Record> {
    if id in s.records && outcome.None? then
      s.records[id := s.records[id].(sends := s.records[id].sends + 1, sentByOwner := s.records[id].sentByOwner
                                     || Owns(s.rows, id, w))]
    else s.records
  }

  function NoteCompletion(s: System, id: MessageID): map<MessageID, Record> {
    if id in s.records then
      s.records[id := s.records[id].(completions := s.records[id].completions + 1, sentByOwner := false)]
    else s.records
  }

  /** An action whose guard fails changes nothing. */
  function Apply(s: System, a: Action): System {
    match a
    case Tick(elapsed) => s.(clock := s.clock + elapsed)
    case Save(messages) =>
      if messages.Keys !! s.rows.Keys then
        s.(rows := Inserted(s.rows, messages, s.clock),
           records := s.records + map id | id in messages :: Record(0, 0, 0, false))
      else s
    case Claim(w, limit, picks) =>
      if CanClaim(s, w, limit, picks) then
        var until := s.clock + LEASE;
        System(s.clock, LeaseAll(s.rows, picks, w, until),
               s.batches[w := Batch(s.clock, until, Copies(s.rows, picks, w, until), None)], NoteClaims(s, picks))
      else s
    case Send(w, outcome) =>
      if CanSend(s, w) then
        s.(batches := s.batches[w := s.batches[w].(sent := Some(outcome))],
           records := NoteSend(s, w, s.batches[w].items[0].id, outcome))
      else s
    case Complete(w) =>
      if !CanComplete(s, w) then s
      else
        var b := s.batches[w];
        var head, outcome := b.items[0], b.sent.value;
        if Owns(s.rows, head.id, w) then
          System(s.clock,
                 s.rows[head.id := Finished(s.rows[head.id], b.now, NextAttempt(head.row, b.now, outcome),
                                            ErrorText(outcome))],
                 s.batches[w := b.(items := b.items[1..], sent := None)],
                 NoteCompletion(s, head.id))
        else s.(batches := s.batches - {w})
    case Crash(w) => s.(batches := s.batches - {w})
  }

  function Exec(s: System, history: seq<Action>): System {
    if history == [] then s
    else Apply(Exec(s, history[..|history| - 1]), history[|history| - 1])
  }

  function Init(clock: Time): System {
    System(clock, map[], map[], map[])
  }

  lemma {:induction false} Exec1(s: System, history: seq<Action>, a: Action)
    ensures Exec(s, history + [a]) == Apply(Exec(s, history), a)
  {
    assert (history + [a])[..|history|] == history;
  }

  lemma {:induction false} ExecAppend(s: System, first: seq<Action>, second: seq<Action>)
    ensures Exec(s, first + second) == Exec(Exec(s, first), second)
    decreases |second|
  {
    if second == [] {
      assert first + second == first;
    } else {
      var before, a := second[..|second| - 1], second[|second| - 1];
      ExecAppend(s, first, before);
      assert first + second == (first + before) + [a];
      Exec1(s, first + before, a);
    }
  }

  // ---------- batches and rows ----------

  /** The worker has the message and has not sent it yet: one more send may come from it. */
  predicate Unsent(b: Batch, id: MessageID) {
    exists i :: (if b.sent.Some? then 1 else 0) <= i < |b.items| && b.items[i].id == id
  }

  ghost predicate BatchGood(s: System, w: Worker)
    requires w in s.batches
  {
    var b := s.batches[w];
    && b.now <= s.clock
    && b.until <= s.clock + LEASE
    && (b.sent.Some? ==> b.items != [])
    && (forall i :: 0 <= i < |b.items| ==> b.items[i].id in s.rows)
    && (forall i, j :: 0 <= i < j < |b.items| ==> b.items[i].id != b.items[j].id)
    && (forall i :: 0 <= i < |b.items| && Owns(s.rows, b.items[i].id, w) ==>
          s.rows[b.items[i].id] == b.items[i].row && b.items[i].row.leaseUntil == Some(b.until))
  }

  ghost predicate RowGood(s: System, row: Message) {
    && (row.leaseOwner.None? <==> row.leaseUntil.None?)
    && (row.status.Delivered? ==> row.leaseOwner.None? && row.deliveredAt.Some?)
    && row.attempts >= 0
    && row.nextAttemptAt <= s.clock + HOUR
    && (row.leaseUntil.Some? ==> row.leaseUntil.value <= s.clock + LEASE)
  }

  ghost predicate Inv(s: System) {
    && s.records.Keys == s.rows.Keys
    && (forall id :: id in s.rows ==> RowGood(s, s.rows[id]) && s.records[id].completions == s.rows[id].attempts)
    && (forall w :: w in s.batches ==> BatchGood(s, w))
  }

  lemma {:induction false} ClaimKeepsBatch(s: System, claimer: Worker, limit: int, picks: seq<MessageID>, w: Worker)
    requires Inv(s) && CanClaim(s, claimer, limit, picks) && w in Apply(s, Claim(claimer, limit, picks)).batches
    ensures BatchGood(Apply(s, Claim(claimer, limit, picks)), w)
  {
    assert w in s.batches ==> BatchGood(s, w);
  }

  lemma {:induction false} CompleteKeepsBatch(s: System, completer: Worker, w: Worker)
    requires Inv(s) && CanComplete(s, completer) && w in Apply(s, Complete(completer)).batches
    ensures BatchGood(Apply(s, Complete(completer)), w)
  {
    assert BatchGood(s, w) && BatchGood(s, completer);
  }

  lemma {:induction false} SaveKeepsBatch(s: System, messages: map<MessageID, string>, w: Worker)
    requires Inv(s) && w in s.batches
    ensures BatchGood(Apply(s, Save(messages)), w)
  {
    assert BatchGood(s, w);
  }

  lemma {:induction false} StepKeepsBatch(s: System, a: Action, w: Worker)
    requires Inv(s) && (a.Tick? || a.Send? || a.Crash?) && w in Apply(s, a).batches
    ensures BatchGood(Apply(s, a), w)
  {
    assert BatchGood(s, w);
  }

  lemma {:induction false} ApplyKeepsBatch(s: System, a: Action, w: Worker)
    requires Inv(s) && w in Apply(s, a).batches
    ensures BatchGood(Apply(s, a), w)
  {
    match a
    case Claim(claimer, limit, picks) =>
      if CanClaim(s, claimer, limit, picks) {
        ClaimKeepsBatch(s, claimer, limit, picks, w);
      } else {
        assert BatchGood(s, w);
      }
    case Complete(completer) =>
      if CanComplete(s, completer) {
        CompleteKeepsBatch(s, completer, w);
      } else {
        assert BatchGood(s, w);
      }
    case Save(messages) => SaveKeepsBatch(s, messages, w);
    case _ => StepKeepsBatch(s, a, w);
  }

  lemma {:induction false} ApplyKeepsRow(s: System, a: Action, id: MessageID)
    requires Inv(s) && id in Apply(s, a).rows
    ensures RowGood(Apply(s, a), Apply(s, a).rows[id])
    ensures id in Apply(s, a).records && Apply(s, a).records[id].completions == Apply(s, a).rows[id].attempts
  {
    assert id in s.rows ==> RowGood(s, s.rows[id]);
    if a.Complete? && CanComplete(s, a.worker) {
      assert BatchGood(s, a.worker);
      CappedShape(MINUTE, HOUR, s.batches[a.worker].items[0].row.attempts + 1);
    }
  }

  lemma {:induction false} ApplyKeepsInv(s: System, a: Action)
    requires Inv(s)
    ensures Inv(Apply(s, a))
  {
    var t := Apply(s, a);
    forall w | w in t.batches ensures BatchGood(t, w) {
      ApplyKeepsBatch(s, a, w);
    }
    forall id | id in t.rows
      ensures RowGood(t, t.rows[id]) && id in t.records && t.records[id].completions == t.rows[id].attempts
    {
      ApplyKeepsRow(s, a, id);
    }
  }

  // ---------- at most one send per claim ----------

  /** Workers that may still send the message although the row no longer names them. */
  function Stale(s: System, id: MessageID): set<Worker> {
    set w | w in s.batches && Unsent(s.batches[w], id) && !Owns(s.rows, id, w)
  }

  /** The message's one good send, if the row is delivered or its present owner already made it. */
  function Spent(s: System, id: MessageID): nat
    requires id in s.rows && id in s.records
  {
    if s.rows[id].status.Delivered? || s.records[id].sentByOwner then 1 else 0
  }

  ghost predicate OwnerGood(s: System, id: MessageID)
    requires id in s.rows && id in s.records
  {
    && (s.records[id].sentByOwner ==> s.rows[id].leaseOwner.Some? && s.records[id].sends >= 1)
    && (forall w :: w in s.batches && Owns(s.rows, id, w) ==>
          && (Unsent(s.batches[w], id) ==> !s.records[id].sentByOwner)
          && (s.batches[w].items != [] && s.batches[w].items[0].id == id && s.batches[w].sent.Some? ==>
                (s.records[id].sentByOwner <==> s.batches[w].sent.value.None?)))
  }

  ghost predicate SendGood(s: System, id: MessageID)
    requires id in s.rows && id in s.records
  {
    && OwnerGood(s, id)
    && s.records[id].sends + |Stale(s, id)| <= s.records[id].takeovers + Spent(s, id)
  }

  ghost predicate SendInv(s: System) {
    && Inv(s)
    && forall id :: id in s.rows ==> SendGood(s, id)
  }

  lemma {:induction false} AtMostOneMore<T>(a: set<T>, b: set<T>, x: T)
    requires a <= b + {x}
    ensures |a| <= |b| + 1
  {
    SubsetSize(a, b + {x});
  }

  lemma {:induction false} OneLess<T>(a: set<T>, b: set<T>, x: T)
    requires a <= b && x in b && x !in a
    ensures |a| + 1 <= |b|
  {
    SubsetSize(a + {x}, b);
  }

  /** Being busy with another message, or idle, a worker neither gains nor loses this one. */
  lemma {:induction false} OthersUntouched(s: System, a: Action, w: Worker)
    requires !(a.Claim? && a.worker == w) && !(a.Send? && a.worker == w) && !(a.Complete? && a.worker == w)
    requires w in Apply(s, a).batches
    ensures w in s.batches && Apply(s, a).batches[w] == s.batches[w]
  {
  }

  lemma {:induction false} ClaimUnsent(s: System, w: Worker, limit: int, picks: seq<MessageID>, id: MessageID)
    requires CanClaim(s, w, limit, picks)
    ensures Unsent(Apply(s, Claim(w, limit, picks)).batches[w], id) <==> id in picks
  {
    var b := Apply(s, Claim(w, limit, picks)).batches[w];
    if id in picks {
      var i :| 0 <= i < |picks| && picks[i] == id;
      assert b.items[i].id == id;
    }
  }

  lemma {:induction false} ClaimStale(s: System, w: Worker, limit: int, picks: seq<MessageID>, id: MessageID)
    requires SendInv(s) && CanClaim(s, w, limit, picks) && id in s.rows
    ensures var taken := id in picks && s.rows[id].leaseOwner.Some? && !s.records[id].sentByOwner;
            |Stale(Apply(s, Claim(w, limit, picks)), id)| <= |Stale(s, id)| + (if taken then 1 else 0)
  {
    var a := Claim(w, limit, picks);
    var t := Apply(s, a);
    assert SendGood(s, id);
    ClaimUnsent(s, w, limit, picks, id);
    forall w' | w' in Stale(t, id) ensures w' in s.batches && Unsent(s.batches[w'], id) {
      assert w' != w;
      OthersUntouched(s, a, w');
    }
    if id in picks && s.rows[id].leaseOwner.Some? && !s.records[id].sentByOwner {
      AtMostOneMore(Stale(t, id), Stale(s, id), s.rows[id].leaseOwner.value);
    } else {
      SubsetSize(Stale(t, id), Stale(s, id));
    }
  }

  lemma {:induction false} ClaimKeepsOwner(s: System, w: Worker, limit: int, picks: seq<MessageID>, id: MessageID)
    requires SendInv(s) && CanClaim(s, w, limit, picks) && id in s.rows
    ensures OwnerGood(Apply(s, Claim(w, limit, picks)), id)
  {
    var a := Claim(w, limit, picks);
    var t := Apply(s, a);
    assert OwnerGood(s, id);
    forall w' | w' in t.batches && w' != w ensures w' in s.batches && t.batches[w'] == s.batches[w'] {
      OthersUntouched(s, a, w');
    }
    ClaimUnsent(s, w, limit, picks, id);
  }

  lemma {:induction false} ClaimKeepsSends(s: System, w: Worker, limit: int, picks: seq<MessageID>, id: MessageID)
    requires SendInv(s) && CanClaim(s, w, limit, picks) && id in s.rows
    ensures SendGood(Apply(s, Claim(w, limit, picks)), id)
  {
    ClaimStale(s, w, limit, picks, id);
    ClaimKeepsOwner(s, w, limit, picks, id);
    assert RowGood(s, s.rows[id]) && SendGood(s, id);
  }

  lemma {:induction false} SendUnsent(s: System, w: Worker, outcome: Outcome, id: MessageID)
    requires SendInv(s) && CanSend(s, w)
    ensures Unsent(Apply(s, Send(w, outcome)).batches[w], id) <==>
            Unsent(s.batches[w], id) && id != s.batches[w].items[0].id
    ensures Unsent(s.batches[w], s.batches[w].items[0].id)
  {
    assert BatchGood(s, w);
    var b, b' := s.batches[w], Apply(s, Send(w, outcome)).batches[w];
    if Unsent(b, id) && id != b.items[0].id {
      var i :| 0 <= i < |b.items| && b.items[i].id == id;
      assert 1 <= i < |b'.items| && b'.items[i].id == id;
    }
  }

  lemma {:induction false} SendStale(s: System, w: Worker, outcome: Outcome, id: MessageID)
    requires SendInv(s) && CanSend(s, w) && id in s.rows
    ensures var spare := s.batches[w].items[0].id == id && !Owns(s.rows, id, w);
            |Stale(Apply(s, Send(w, outcome)), id)| + (if spare then 1 else 0) <= |Stale(s, id)|
  {
    var a := Send(w, outcome);
    var t := Apply(s, a);
    SendUnsent(s, w, outcome, id);
    forall w' | w' in Stale(t, id) ensures w' in Stale(s, id) {
      if w' != w {
        OthersUntouched(s, a, w');
      }
    }
    if s.batches[w].items[0].id == id && !Owns(s.rows, id, w) {
      OneLess(Stale(t, id), Stale(s, id), w);
    } else {
      SubsetSize(Stale(t, id), Stale(s, id));
    }
  }

  lemma {:induction false} SendKeepsOwner(s: System, w: Worker, outcome: Outcome, id: MessageID)
    requires SendInv(s) && CanSend(s, w) && id in s.rows
    ensures OwnerGood(Apply(s, Send(w, outcome)), id)
  {
    var a := Send(w, outcome);
    var t := Apply(s, a);
    assert SendGood(s, id) && RowGood(s, s.rows[id]);
    forall w' | w' in t.batches && w' != w ensures w' in s.batches && t.batches[w'] == s.batches[w'] {
      OthersUntouched(s, a, w');
    }
    SendUnsent(s, w, outcome, id);
    assert Unsent(t.batches[w], id) ==> id != s.batches[w].items[0].id;
  }

  lemma {:induction false} SendKeepsSends(s: System, w: Worker, outcome: Outcome, id: MessageID)
    requires SendInv(s) && CanSend(s, w) && id in s.rows
    ensures SendGood(Apply(s, Send(w, outcome)), id)
  {
    SendStale(s, w, outcome, id);
    SendKeepsOwner(s, w, outcome, id);
    SendUnsent(s, w, outcome, id);
    assert SendGood(s, id);
  }

  lemma {:induction false} CompleteUnsent(s: System, w: Worker, id: MessageID)
    requires SendInv(s) && CanComplete(s, w)
    requires w in Apply(s, Complete(w)).batches
    ensures Unsent(Apply(s, Complete(w)).batches[w], id) ==> Unsent(s.batches[w], id) && id != s.batches[w].items[0].id
  {
    assert BatchGood(s, w);
    var b, b' := s.batches[w], Apply(s, Complete(w)).batches[w];
    if Unsent(b', id) {
      var i :| 0 <= i < |b'.items| && b'.items[i].id == id;
      assert b'.items[i] == b.items[i + 1];
    }
  }

  lemma {:induction false} CompleteStale(s: System, w: Worker, id: MessageID)
    requires SendInv(s) && CanComplete(s, w) && id in s.rows
    ensures |Stale(Apply(s, Complete(w)), id)| <= |Stale(s, id)|
  {
    var a := Complete(w);
    var t := Apply(s, a);
    forall w' | w' in Stale(t, id) ensures w' in Stale(s, id) {
      if w' != w {
        OthersUntouched(s, a, w');
      } else {
        CompleteUnsent(s, w, id);
      }
    }
    SubsetSize(Stale(t, id), Stale(s, id));
  }

  lemma {:induction false} CompleteKeepsOwner(s: System, w: Worker, id: MessageID)
    requires SendInv(s) && CanComplete(s, w) && id in s.rows
    ensures OwnerGood(Apply(s, Complete(w)), id)
  {
    var a := Complete(w);
    var t := Apply(s, a);
    assert SendGood(s, id) && BatchGood(s, w);
    forall w' | w' in t.batches && w' != w ensures w' in s.batches && t.batches[w'] == s.batches[w'] {
      OthersUntouched(s, a, w');
    }
    if w in t.batches {
      CompleteUnsent(s, w, id);
    }
  }

  lemma {:induction false} CompleteKeepsSends(s: System, w: Worker, id: MessageID)
    requires SendInv(s) && CanComplete(s, w) && id in s.rows
    ensures SendGood(Apply(s, Complete(w)), id)
  {
    CompleteStale(s, w, id);
    CompleteKeepsOwner(s, w, id);
    assert SendGood(s, id) && BatchGood(s, w);
  }

  lemma {:induction false} SaveKeepsSends(s: System, messages: map<MessageID, string>, id: MessageID)
    requires SendInv(s) && id in Apply(s, Save(messages)).rows && id in Apply(s, Save(messages)).records
    ensures SendGood(Apply(s, Save(messages)), id)
  {
    var t := Apply(s, Save(messages));
    if id in s.rows {
      assert SendGood(s, id);
      assert Stale(t, id) == Stale(s, id);
    } else {
      forall w | w in s.batches ensures !Unsent(s.batches[w], id) {
        assert BatchGood(s, w);
      }
      assert Stale(t, id) == {};
    }
  }

  lemma {:induction false} QuietKeepsSends(s: System, a: Action, id: MessageID)
    requires SendInv(s) && (a.Tick? || a.Crash?) && id in s.rows
    ensures SendGood(Apply(s, a), id)
  {
    assert SendGood(s, id);
    SubsetSize(Stale(Apply(s, a), id), Stale(s, id));
  }

  lemma {:induction false} ApplyKeepsSends(s: System, a: Action, id: MessageID)
    requires SendInv(s) && id in Apply(s, a).rows && id in Apply(s, a).records
    ensures SendGood(Apply(s, a), id)
  {
    assert id in s.rows ==> SendGood(s, id);
    match a
    case Tick(_) => QuietKeepsSends(s, a, id);
    case Crash(_) => QuietKeepsSends(s, a, id);
    case Save(messages) => SaveKeepsSends(s, messages, id);
    case Claim(w, limit, picks) =>
      if CanClaim(s, w, limit, picks) {
        ClaimKeepsSends(s, w, limit, picks, id);
      }
    case Send(w, outcome) =>
      if CanSend(s, w) {
        SendKeepsSends(s, w, outcome, id);
      }
    case Complete(w) =>
      if CanComplete(s, w) {
        CompleteKeepsSends(s, w, id);
      }
  }

  lemma {:induction false} SendInvAlways(clock: Time, history: seq<Action>)
    ensures SendInv(Exec(Init(clock), history))
  {
    if history != [] {
      var before, a := history[..|history| - 1], history[|history| - 1];
      SendInvAlways(clock, before);
      var s := Exec(Init(clock), before);
      ApplyKeepsInv(s, a);
      forall id | id in Apply(s, a).rows ensures SendGood(Apply(s, a), id) {
        ApplyKeepsSends(s, a, id);
      }
    }
  }

  /**
   In every run a message is sent successfully at most once more than its lease was taken
   over, so without a takeover at most once; and its attempts are its accepted completions.
   */
  lemma {:induction false} SendsBounded(clock: Time, history: seq<Action>, id: MessageID)
    requires id in Exec(Init(clock), history).rows
    ensures var s := Exec(Init(clock), history);
            && id in s.records
            && s.records[id].sends <= 1 + s.records[id].takeovers
            && s.records[id].completions == s.rows[id].attempts
  {
    SendInvAlways(clock, history);
    assert SendGood(Exec(Init(clock), history), id);
  }

  /** The bound is reached: for every number of takeovers there is a run that sends once more than that. */
  lemma {:induction false} BoundIsReached(takeovers: nat)
    ensures exists history :: var s := Exec(Init(0), history);
              "m" in s.records && s.records["m"].takeovers == takeovers && s.records["m"].sends == takeovers + 1
  {
    var save := Save(map["m" := "hook"]);
    var s := Apply(Init(0), save);
    Exec1(Init(0), [], save);
    assert [] + [save] == [save];
    var rounds := CrashRounds(s, takeovers + 1);
    ExecAppend(Init(0), [save], rounds);
  }

  /** Claim, send, crash before recording it, and wait for the lease to lapse: the next round is a takeover. */
  lemma {:induction false} CrashRounds(s: System, n: nat) returns (history: seq<Action>)
    requires "m" in s.rows && Due(s.rows["m"], s.clock) && !Busy(s, "w")
    requires "m" in s.records && s.rows["m"].leaseOwner == None
    ensures var t := Exec(s, history);
            && "m" in t.rows && Due(t.rows["m"], t.clock) && !Busy(t, "w")
            && "m" in t.records && t.records["m"].sends == s.records["m"].sends + n
            && t.records["m"].takeovers == s.records["m"].takeovers + (if n == 0 then 0 else n - 1)
            && (n == 0 ==> t == s)
            && (n > 0 ==> t.rows["m"].leaseOwner.Some?)
  {
    if n == 0 {
      history := [];
    } else {
      var before := CrashRounds(s, n - 1);
      var t := Exec(s, before);
      var claim, send, crash, wait := Claim("w", 1, ["m"]), Send("w", None), Crash("w"), Tick(LEASE);
      history := before + [claim] + [send] + [crash] + [wait];
      Exec1(s, before, claim);
      Exec1(s, before + [claim], send);
      Exec1(s, before + [claim] + [send], crash);
      Exec1(s, before + [claim] + [send] + [crash], wait);
      assert CanClaim(t, "w", 1, ["m"]);
      var t1 := Apply(t, claim);
      assert t1.batches["w"].items[0].id == "m" && CanSend(t1, "w");
    }
  }

  // ---------- delivered means sent ----------

  predicate ErrorsHaveText(history: seq<Action>) {
    forall a :: a in history && a.Send? ==> a.outcome != Some("")
  }

  ghost predicate DeliveredInv(s: System) {
    && SendInv(s)
    && (forall w :: w in s.batches ==> s.batches[w].sent != Some(Some("")))
    && (forall id :: id in s.rows && s.rows[id].status.Delivered? ==> s.records[id].sends >= 1)
  }

  lemma {:induction false} SendsOnlyGrow(s: System, a: Action, id: MessageID)
    requires id in s.records
    ensures id in Apply(s, a).records
    ensures id in s.rows ==> Apply(s, a).records[id].sends >= s.records[id].sends
  {
  }

  lemma {:induction false} BecomesDelivered(s: System, a: Action, id: MessageID)
    requires id in Apply(s, a).rows && Apply(s, a).rows[id].status.Delivered?
    ensures id in s.rows
    ensures s.rows[id].status.Delivered? || (Accepted(s, a) && s.batches[a.worker].items[0].id == id)
    ensures !s.rows[id].status.Delivered? ==> ErrorText(s.batches[a.worker].sent.value) == ""
  {
  }

  lemma {:induction false} DeliveredRowStep(s: System, a: Action, id: MessageID)
    requires DeliveredInv(s)
    requires id in Apply(s, a).rows && Apply(s, a).rows[id].status.Delivered? && id in Apply(s, a).records
    ensures Apply(s, a).records[id].sends >= 1
  {
    BecomesDelivered(s, a, id);
    SendsOnlyGrow(s, a, id);
    assert SendGood(s, id);
    if !s.rows[id].status.Delivered? {
      assert s.batches[a.worker].sent != Some(Some(""));
    }
  }

  lemma {:induction false} SentTextStep(s: System, a: Action, w: Worker)
    requires forall w :: w in s.batches ==> s.batches[w].sent != Some(Some(""))
    requires a.Send? ==> a.outcome != Some("")
    requires w in Apply(s, a).batches
    ensures Apply(s, a).batches[w].sent != Some(Some(""))
  {
  }

  lemma {:induction false} ApplyKeepsDelivered(s: System, a: Action)
    requires DeliveredInv(s) && SendInv(Apply(s, a))
    requires a.Send? ==> a.outcome != Some("")
    ensures DeliveredInv(Apply(s, a))
  {
    var t := Apply(s, a);
    forall w | w in t.batches ensures t.batches[w].sent != Some(Some("")) {
      SentTextStep(s, a, w);
    }
    forall id | id in t.rows && t.rows[id].status.Delivered? ensures t.records[id].sends >= 1 {
      DeliveredRowStep(s, a, id);
    }
  }

  /** If no send fails without a text, a delivered message was sent at least once. */
  lemma {:induction false} DeliveredWasSent(clock: Time, history: seq<Action>)
    requires ErrorsHaveText(history)
    ensures DeliveredInv(Exec(Init(clock), history))
  {
    SendInvAlways(clock, history);
    if history != [] {
      DeliveredWasSent(clock, history[..|history| - 1]);
      ApplyKeepsDelivered(Exec(Init(clock), history[..|history| - 1]), history[|history| - 1]);
    }
  }

  /** Without that assumption it fails: an error with an empty text records an unsent message as delivered. */
  lemma {:induction false} EmptyTextDeliversUnsent() returns (history: seq<Action>)
    ensures forall a :: a in history && a.Send? ==> a.outcome == Some("")
    ensures var s := Exec(Init(0), history);
            && "m" in s.rows && s.rows["m"].status.Delivered? && "m" in s.records && s.records["m"].sends == 0
  {
    var save, claim := Save(map["m" := "hook"]), Claim("w", 1, ["m"]);
    var send, complete := Send("w", Some("")), Complete("w");
    var s := Init(0);
    history := [] + [save] + [claim] + [send] + [complete];
    Exec1(s, [], save);
    Exec1(s, [] + [save], claim);
    Exec1(s, [] + [save] + [claim], send);
    Exec1(s, [] + [save] + [claim] + [send], complete);
    var s1 := Apply(s, save);
    assert CanClaim(s1, "w", 1, ["m"]);
    var s2 := Apply(s1, claim);
    assert s2.batches["w"].items[0].id == "m" && CanSend(s2, "w");
    assert CanComplete(Apply(s2, send), "w");
  }

  /** Every send of the run ended in one of these outcomes. */
  ghost predicate SendsEndIn(history: seq<Action>, outcomes: iset<Outcome>) {
    forall a :: a in history && a.Send? ==> a.outcome in outcomes
  }

  /** What is marked delivered was sent. */
  ghost predicate Honest(s: System) {
    forall id :: id in s.rows && s.rows[id].status.Delivered? ==> id in s.records && s.records[id].sends >= 1
  }

  /**
   Over any outcomes a sender may have, delivered means sent in every run exactly when no error
   comes without a text.
   */
  lemma {:induction false} DeliveredMeansSentIff(outcomes: iset<Outcome>)
    ensures (forall clock: Time, history :: SendsEndIn(history, outcomes) ==> Honest(Exec(Init(clock), history)))
            <==> Some("") !in outcomes
  {
    if Some("") !in outcomes {
      forall clock: Time, history | SendsEndIn(history, outcomes) ensures Honest(Exec(Init(clock), history)) {
        DeliveredWasSent(clock, history);
      }
    } else {
      var history := EmptyTextDeliversUnsent();
      assert SendsEndIn(history, outcomes) && !Honest(Exec(Init(0), history));
    }
  }

  // ---------- lease exclusion ----------

  predicate InBatch(b: Batch, id: MessageID) {
    exists i :: 0 <= i < |b.items| && b.items[i].id == id
  }

  predicate Holds(s: System, w: Worker, id: MessageID) {
    w in s.batches && s.clock < s.batches[w].until && InBatch(s.batches[w], id)
  }

  lemma {:induction false} HeldBefore(s: System, a: Action, w: Worker, id: MessageID)
    requires Holds(Apply(s, a), w, id)
    ensures Holds(s, w, id) || (a.Claim? && a.worker == w && CanClaim(s, w, a.limit, a.picks) && id in a.picks)
    ensures a.Complete? && a.worker == w && CanComplete(s, w) && BatchGood(s, w) ==> id != s.batches[w].items[0].id
  {
    var t := Apply(s, a);
    var i :| 0 <= i < |t.batches[w].items| && t.batches[w].items[i].id == id;
    if a.Complete? && a.worker == w && CanComplete(s, w) {
      assert t.batches[w].items[i] == s.batches[w].items[i + 1];
    } else if a.Claim? && a.worker == w && CanClaim(s, w, a.limit, a.picks) {
    } else {
      assert s.batches[w].items == t.batches[w].items;
    }
  }

  lemma {:induction false} HolderIsNotDue(s: System, w: Worker, id: MessageID)
    requires Inv(s) && Holds(s, w, id) && Owns(s.rows, id, w)
    ensures !Due(s.rows[id], s.clock)
  {
    assert BatchGood(s, w);
  }

  lemma {:induction false} HolderOwns(s: System, a: Action, w: Worker, id: MessageID)
    requires Inv(s) && (forall w, id :: Holds(s, w, id) ==> Owns(s.rows, id, w))
    requires Holds(Apply(s, a), w, id)
    ensures Owns(Apply(s, a).rows, id, w)
  {
    HeldBefore(s, a, w, id);
    if Holds(s, w, id) {
      HolderIsNotDue(s, w, id);
      assert BatchGood(s, w);
    }
  }

  /** While a worker's lease window is open its row names it, so no two workers hold the same message. */
  lemma {:induction false} LeasesExclude(clock: Time, history: seq<Action>)
    ensures forall w, id :: Holds(Exec(Init(clock), history), w, id) ==> Owns(Exec(Init(clock), history).rows, id, w)
    ensures forall w1, w2, id ::
              Holds(Exec(Init(clock), history), w1, id) && Holds(Exec(Init(clock), history), w2, id) ==> w1 == w2
  {
    if history != [] {
      var before, a := history[..|history| - 1], history[|history| - 1];
      LeasesExclude(clock, before);
      SendInvAlways(clock, before);
      var s := Exec(Init(clock), before);
      forall w, id | Holds(Apply(s, a), w, id) ensures Owns(Apply(s, a).rows, id, w) {
        HolderOwns(s, a, w, id);
      }
    }
  }

  // ---------- nothing is lost, nothing is stuck ----------

  function PendingIn(rows: Rows): set<MessageID> {
    set id | id in rows && rows[id].status.Pending?
  }

  function PendingIds(s: System): set<MessageID> {
    PendingIn(s.rows)
  }

  /** Rows an action inserts. */
  function SavedBy(s: System, a: Action): nat {
    if a.Save? && a.messages.Keys !! s.rows.Keys then |a.messages| else 0
  }

  predicate Accepted(s: System, a: Action) {
    a.Complete? && CanComplete(s, a.worker) && Owns(s.rows, s.batches[a.worker].items[0].id, a.worker)
  }

  /** Accepted completions without an error text. */
  function DeliveredBy(s: System, a: Action): nat {
    if Accepted(s, a) && ErrorText(s.batches[a.worker].sent.value) == "" then 1 else 0
  }

  function SavedIn(s: System, history: seq<Action>): nat {
    if history == [] then 0
    else SavedIn(s, history[..|history| - 1]) + SavedBy(Exec(s, history[..|history| - 1]), history[|history| - 1])
  }

  function DeliveredIn(s: System, history: seq<Action>): nat {
    if history == [] then 0
    else
      var before, last := history[..|history| - 1], history[|history| - 1];
      DeliveredIn(s, before) + DeliveredBy(Exec(s, before), last)
  }

  lemma {:induction false} PendingAfterComplete(s: System, w: Worker)
    requires Inv(s) && Accepted(s, Complete(w))
    ensures var id := s.batches[w].items[0].id;
            && id in PendingIds(s)
            && PendingIds(Apply(s, Complete(w))) ==
                PendingIds(s) - (if DeliveredBy(s, Complete(w)) == 1 then {id} else {})
  {
    var id := s.batches[w].items[0].id;
    assert RowGood(s, s.rows[id]);
    var t := Apply(s, Complete(w));
    assert t.rows.Keys == s.rows.Keys;
    assert forall other :: other in t.rows && other != id ==> t.rows[other] == s.rows[other];
  }

  lemma {:induction false} PendingUnchanged(s: System, a: Action)
    requires !a.Save? && !Accepted(s, a)
    ensures PendingIds(Apply(s, a)) == PendingIds(s)
  {
  }

  lemma {:induction false} PendingInInserted(rows: Rows, messages: map<MessageID, string>, now: Time, id: MessageID)
    requires messages.Keys !! rows.Keys
    ensures id in PendingIn(Inserted(rows, messages, now)) <==> id in PendingIn(rows) || id in messages
  {
    assert id in messages ==> id !in rows;
  }

  lemma {:induction false} UnionSize(after: set<MessageID>, before: set<MessageID>, messages: map<MessageID, string>)
    requires before !! messages.Keys
    requires forall id :: id in after <==> id in before || id in messages
    ensures |after| == |before| + |messages|
  {
    assert after == before + messages.Keys;
    assert |messages.Keys| == |messages|;
  }

  lemma {:induction false} PendingAfterInsert(rows: Rows, messages: map<MessageID, string>, now: Time)
    requires messages.Keys !! rows.Keys
    ensures |PendingIn(Inserted(rows, messages, now))| == |PendingIn(rows)| + |messages|
  {
    forall id ensures id in PendingIn(Inserted(rows, messages, now)) <==> id in PendingIn(rows) || id in messages {
      PendingInInserted(rows, messages, now, id);
    }
    UnionSize(PendingIn(Inserted(rows, messages, now)), PendingIn(rows), messages);
  }

  lemma {:induction false} PendingStep(s: System, a: Action)
    requires Inv(s)
    ensures |PendingIds(Apply(s, a))| == |PendingIds(s)| + SavedBy(s, a) - DeliveredBy(s, a)
  {
    if Accepted(s, a) {
      PendingAfterComplete(s, a.worker);
    } else if a.Save? {
      if a.messages.Keys !! s.rows.Keys {
        PendingAfterInsert(s.rows, a.messages, s.clock);
      }
    } else {
      PendingUnchanged(s, a);
    }
  }

  /** The pending count rises only by saved rows and falls only by successful completions: no message is lost. */
  lemma {:induction false} PendingConserved(clock: Time, history: seq<Action>)
    ensures |PendingIds(Exec(Init(clock), history))| + DeliveredIn(Init(clock), history) ==
            SavedIn(Init(clock), history)
  {
    if history != [] {
      PendingConserved(clock, history[..|history| - 1]);
      SendInvAlways(clock, history[..|history| - 1]);
      PendingStep(Exec(Init(clock), history[..|history| - 1]), history[|history| - 1]);
    }
  }

  lemma {:induction false} DeliveredStep(s: System, a: Action, id: MessageID)
    requires id in s.rows && RowGood(s, s.rows[id])
    ensures id in Apply(s, a).rows
    ensures s.rows[id].status.Delivered? ==> Apply(s, a).rows[id] == s.rows[id]
  {
  }

  lemma {:induction false} DeliveredOn(s: System, post: seq<Action>, id: MessageID)
    requires Inv(s) && id in s.rows
    ensures Inv(Exec(s, post)) && id in Exec(s, post).rows
    ensures s.rows[id].status.Delivered? ==> Exec(s, post).rows[id] == s.rows[id]
  {
    if post != [] {
      var before, a := post[..|post| - 1], post[|post| - 1];
      DeliveredOn(s, before, id);
      DeliveredStep(Exec(s, before), a, id);
      ApplyKeepsInv(Exec(s, before), a);
    }
  }

  /** A row, once saved, never goes away, and once delivered never changes. */
  lemma {:induction false} DeliveredIsFinal(clock: Time, history: seq<Action>, post: seq<Action>, id: MessageID)
    requires id in Exec(Init(clock), history).rows
    ensures id in Exec(Init(clock), history + post).rows
    ensures Exec(Init(clock), history).rows[id].status.Delivered? ==>
              Exec(Init(clock), history + post).rows[id] == Exec(Init(clock), history).rows[id]
  {
    SendInvAlways(clock, history);
    DeliveredOn(Exec(Init(clock), history), post, id);
    ExecAppend(Init(clock), history, post);
  }

  /**
   No pending row waits more than an hour: neither its retry time nor its lease reaches further,
   and after one quiet hour any idle worker can claim it.
   */
  lemma {:induction false} NothingStuck(clock: Time, history: seq<Action>, id: MessageID, w: Worker, quiet: nat)
    requires var s := Exec(Init(clock), history); id in s.rows && s.rows[id].status.Pending? && !Busy(s, w)
    ensures var s := Exec(Init(clock), history);
            && s.rows[id].nextAttemptAt <= s.clock + HOUR
            && (s.rows[id].leaseUntil.Some? ==> s.rows[id].leaseUntil.value <= s.clock + LEASE)
            && (quiet >= HOUR ==> CanClaim(Apply(s, Tick(quiet)), w, 1, [id]))
  {
    SendInvAlways(clock, history);
    var s := Exec(Init(clock), history);
    assert RowGood(s, s.rows[id]);
  }

  // ---------- the code, statement by statement ----------

  predicate Foreign(a: Action, w: Worker) {
    match a
    case Tick(_) => true
    case Save(_) => true
    case Claim(w', _, _) => w' != w
    case Send(w', _) => w' != w
    case Complete(w') => w' != w
    case Crash(w') => w' != w
  }

  lemma {:induction false} ForeignKeepsBatch(s: System, others: seq<Action>, w: Worker)
    requires forall a :: a in others ==> Foreign(a, w)
    ensures w in Exec(s, others).batches <==> w in s.batches
    ensures w in s.batches ==> Exec(s, others).batches[w] == s.batches[w]
  {
    if others != [] {
      ForeignKeepsBatch(s, others[..|others| - 1], w);
      assert Foreign(others[|others| - 1], w);
    }
  }

  /** What the rest of the system did before a send, the send's outcome, and what it did before the completion. */
  datatype Round = Round(beforeSend: seq<Action>, outcome: Outcome, beforeComplete: seq<Action>)

  function RoundTrace(w: Worker, r: Round): seq<Action> {
    r.beforeSend + [Send(w, r.outcome)] + r.beforeComplete + [Complete(w)]
  }

  function Rounds(w: Worker, rounds: seq<Round>): seq<Action> {
    if rounds == [] then [] else Rounds(w, rounds[..|rounds| - 1]) + RoundTrace(w, rounds[|rounds| - 1])
  }

  predicate ForeignRound(r: Round, w: Worker) {
    (forall a :: a in r.beforeSend ==> Foreign(a, w)) && (forall a :: a in r.beforeComplete ==> Foreign(a, w))
  }

  function Failures(rounds: seq<Round>): nat {
    if rounds == [] then 0 else Failures(rounds[..|rounds| - 1]) + (if rounds[|rounds| - 1].outcome.None? then 0 else 1)
  }

  lemma {:induction false} RoundsStep(s: System, w: Worker, rounds: seq<Round>, i: nat)
    requires i < |rounds|
    ensures Exec(s, Rounds(w, rounds[..i + 1])) == Exec(Exec(s, Rounds(w, rounds[..i])), RoundTrace(w, rounds[i]))
    ensures Failures(rounds[..i + 1]) == Failures(rounds[..i]) + (if rounds[i].outcome.None? then 0 else 1)
  {
    ExecAppend(s, Rounds(w, rounds[..i]), RoundTrace(w, rounds[i]));
    assert rounds[..i + 1][..i] == rounds[..i];
  }

  lemma {:induction false} RoundExec(s: System, w: Worker, r: Round)
    ensures Exec(s, RoundTrace(w, r)) ==
            Apply(Exec(Apply(Exec(s, r.beforeSend), Send(w, r.outcome)), r.beforeComplete), Complete(w))
  {
    Exec1(s, r.beforeSend, Send(w, r.outcome));
    ExecAppend(s, r.beforeSend + [Send(w, r.outcome)], r.beforeComplete);
    Exec1(s, r.beforeSend + [Send(w, r.outcome)] + r.beforeComplete, Complete(w));
  }

  function PendingAmong(rows: Rows, ids: set<MessageID>): set<MessageID> {
    set id | id in ids && id in rows && rows[id].status.Pending?
  }

  lemma {:induction false} OneMoreSeen(rows: Rows, seen: set<MessageID>, id: MessageID)
    requires id in rows && id !in seen
    ensures |PendingAmong(rows, seen + {id})| ==
            |PendingAmong(rows, seen)| + (if rows[id].status.Pending? then 1 else 0)
  {
    if rows[id].status.Pending? {
      assert PendingAmong(rows, seen + {id}) == PendingAmong(rows, seen) + {id};
    } else {
      assert PendingAmong(rows, seen + {id}) == PendingAmong(rows, seen);
    }
  }

  /** The outbox table, the clock, and the batches of the workers that share them. */
  class DeliveryCluster {
    var clock: Time
    var rows: Rows
    var batches: map<Worker, Batch>
    ghost var records: map<MessageID, Record>

    ghost function State(): System
      reads this
    {
      System(clock, rows, batches, records)
    }

    constructor (start: Time)
      ensures State() == Init(start)
    {
      clock, rows, batches, records := start, map[], map[], map[];
    }

    method ClaimOutbox(now: Time, picks: seq<MessageID>, owner: Worker, until: Time) returns (items: seq<Claimed>)
      requires Distinct(picks)
      requires forall id :: id in picks ==>
                 && id in rows && rows[id].status.Pending? && rows[id].nextAttemptAt <= now
                 && (rows[id].leaseUntil.None? || rows[id].leaseUntil.value <= now)
      modifies this`rows
      ensures rows == LeaseAll(old(rows), picks, owner, until)
      ensures items == Copies(old(rows), picks, owner, until)
    {
      items := [];
      for i := 0 to |picks|
        invariant rows == LeaseAll(old(rows), picks[..i], owner, until)
        invariant items == Copies(old(rows), picks[..i], owner, until)
      {
        var id := picks[i];
        assert id in picks;
        assert id !in picks[..i];
        rows := rows[id := rows[id].(leaseOwner := Some(owner), leaseUntil := Some(until))];
        items := items + [Claimed(id, rows[id])];
        assert picks[..i + 1] == picks[..i] + [id];
      }
      assert picks[..|picks|] == picks;
    }

    method CompleteOutbox(id: MessageID, owner: Worker, attemptedAt: Time, next: Time, lastError: string)
        returns (ok: bool)
      modifies this`rows
      ensures ok <==> Owns(old(rows), id, owner)
      ensures rows == if ok then old(rows)[id := Finished(old(rows)[id], attemptedAt, next, lastError)] else old(rows)
    {
      if id !in rows || rows[id].leaseOwner != Some(owner) {
        return false;
      }
      var row := rows[id];
      if lastError == "" {
        row := row.(status := Delivered, deliveredAt := Some(attemptedAt));
      } else {
        row := row.(status := Pending, deliveredAt := None);
      }
      row := row.(attempts := row.attempts + 1, nextAttemptAt := next, lastError := lastError);
      row := row.(leaseOwner := None, leaseUntil := None);
      rows := rows[id := row];
      return true;
    }

    method CountPendingOutbox() returns (count: nat)
      ensures count == |PendingIds(State())|
    {
      count := 0;
      var left := rows.Keys;
      ghost var seen: set<MessageID> := {};
      while left != {}
        invariant left !! seen && left + seen == rows.Keys
        invariant count == |PendingAmong(rows, seen)|
        decreases left
      {
        var id :| id in left;
        OneMoreSeen(rows, seen, id);
        left, seen := left - {id}, seen + {id};
        if rows[id].status.Pending? {
          count := count + 1;
        }
      }
      assert PendingAmong(rows, seen) == PendingIds(State());
    }

    method Meanwhile(others: seq<Action>)
      modifies this
      ensures State() == Exec(old(State()), others)
    {
      for i := 0 to |others|
        invariant State() == Exec(old(State()), others[..i])
      {
        assert others[..i + 1] == others[..i] + [others[i]];
        Exec1(old(State()), others[..i], others[i]);
        ghost var t := Apply(State(), others[i]);
        var next := Apply(System(clock, rows, batches, map[]), others[i]);
        RecordsAreNeverRead(State(), map[], others[i]);
        clock, rows, batches := next.clock, next.rows, next.batches;
        records := t.records;
      }
      assert others[..|others|] == others;
    }

    method Begin(w: Worker, limit: int, picks: seq<MessageID>) returns (now: Time, items: seq<Claimed>)
      requires CanClaim(State(), w, limit, picks)
      modifies this
      ensures State() == Exec(old(State()), [Claim(w, limit, picks)])
      ensures |items| == |picks|
      ensures w in batches && batches[w] == Batch(now, now + LEASE, items, None)
    {
      Exec1(State(), [], Claim(w, limit, picks));
      assert [] + [Claim(w, limit, picks)] == [Claim(w, limit, picks)];
      now := clock;
      records := NoteClaims(State(), picks);
      items := ClaimOutbox(now, picks, w, now + LEASE);
      batches := batches[w := Batch(now, now + LEASE, items, None)];
    }

    /** The sender's call itself is outside the model: only its outcome is noted. */
    method NoteSent(w: Worker, outcome: Outcome)
      requires CanSend(State(), w)
      modifies this
      ensures State() == Apply(old(State()), Send(w, outcome))
    {
      records := NoteSend(State(), w, batches[w].items[0].id, outcome);
      batches := batches[w := batches[w].(sent := Some(outcome))];
    }

    method RecordResult(w: Worker, now: Time, item: Claimed, outcome: Outcome) returns (ok: bool)
      requires CanComplete(State(), w)
      requires batches[w].items[0] == item && batches[w].now == now && batches[w].sent == Some(outcome)
      modifies this
      ensures State() == Apply(old(State()), Complete(w))
      ensures !ok ==> w !in batches
      ensures ok ==> w in batches && batches[w] == old(batches[w]).(items := old(batches[w]).items[1..], sent := None)
    {
      var lastError := "";
      var next := now;
      if outcome.Some? {
        lastError := outcome.value;
        var delay := DeliveryBackoff(item.row.attempts + 1);
        next := now + delay;
      }
      if Owns(rows, item.id, w) {
        records := NoteCompletion(State(), item.id);
      }
      ok := CompleteOutbox(item.id, w, now, next, lastError);
      if ok {
        batches := batches[w := batches[w].(items := batches[w].items[1..], sent := None)];
      } else {
        batches := batches - {w};
      }
    }

    method Turn(w: Worker, now: Time, item: Claimed, r: Round) returns (ok: bool)
      requires CanSend(State(), w) && batches[w].items[0] == item && batches[w].now == now
      requires ForeignRound(r, w)
      modifies this
      ensures State() == Exec(old(State()), RoundTrace(w, r))
      ensures !ok ==> w !in batches
      ensures ok ==> w in batches && batches[w] == old(batches[w]).(items := old(batches[w]).items[1..], sent := None)
    {
      RoundExec(State(), w, r);
      ForeignKeepsBatch(State(), r.beforeSend, w);
      Meanwhile(r.beforeSend);
      NoteSent(w, r.outcome);
      ForeignKeepsBatch(State(), r.beforeComplete, w);
      Meanwhile(r.beforeComplete);
      ok := RecordResult(w, now, item, r.outcome);
    }

    /** The loop over the claimed items, from the claim on. */
    method Deliver(w: Worker, now: Time, items: seq<Claimed>, rounds: seq<Round>)
        returns (delivered: nat, failed: nat, refused: bool)
      requires w in batches && batches[w] == Batch(now, now + LEASE, items, None)
      requires |rounds| == |items|
      requires forall i :: 0 <= i < |rounds| ==> ForeignRound(rounds[i], w)
      modifies this
      ensures delivered + failed <= |items|
      ensures refused || delivered + failed == |items|
      ensures State() == Exec(old(State()), Rounds(w, rounds[..delivered + failed]))
      ensures failed == Failures(rounds[..delivered + failed])
      ensures !Busy(State(), w)
    {
      ghost var start := State();
      delivered, failed, refused := 0, 0, false;
      for i := 0 to |items|
        invariant delivered + failed == i && !refused
        invariant failed == Failures(rounds[..i])
        invariant w in batches && batches[w] == Batch(now, now + LEASE, items[i..], None)
        invariant State() == Exec(start, Rounds(w, rounds[..i]))
      {
        RoundsStep(start, w, rounds, i);
        assert items[i..][1..] == items[i + 1..];
        if rounds[i].outcome.Some? {
          failed := failed + 1;
        } else {
          delivered := delivered + 1;
        }
        var ok := Turn(w, now, items[i], rounds[i]);
        if !ok {
          refused := true;
          return;
        }
      }
    }

    /**
     The worker's loop: a run of the transition system that stops at the first refused
     completion. A send is counted before its completion is recorded, so the message of a
     refused completion is counted too.
     */
    method RunDue(w: Worker, limit: int, picks: seq<MessageID>, rounds: seq<Round>)
        returns (delivered: nat, failed: nat, refused: bool)
      requires CanClaim(State(), w, limit, picks)
      requires |rounds| == |picks|
      requires forall i :: 0 <= i < |rounds| ==> ForeignRound(rounds[i], w)
      modifies this
      ensures var n := delivered + failed;
              && n <= |picks|
              && (refused || n == |picks|)
              && State() == Exec(old(State()), [Claim(w, limit, picks)] + Rounds(w, rounds[..n]))
              && failed == Failures(rounds[..n])
      ensures !Busy(State(), w)
    {
      ghost var start := State();
      var now, items := Begin(w, limit, picks);
      delivered, failed, refused := Deliver(w, now, items, rounds);
      ExecAppend(start, [Claim(w, limit, picks)], Rounds(w, rounds[..delivered + failed]));
    }
  }

  /** The records are history only: they decide nothing about the rest of the state. */
  lemma {:induction false} RecordsAreNeverRead(s: System, records: map<MessageID, Record>, a: Action)
    ensures Apply(s, a).(records := records) == Apply(s.(records := records), a).(records := records)
  {
  }
}

/**
 The external screening provider's bounded retry and circuit breaker. Checking the
 circuit and recording a result are two critical sections, so calls interleave.
 */
module CircuitBreaker {
  import opened Durations

  const TRIP_AFTER := 3

  datatype Breaker = Breaker(failures: int, openUntil: Time)

  function Closed(): Breaker {
    Breaker(0, ZERO_TIME)
  }

  predicate Admits(b: Breaker, now: Time) {
    !(now < b.openUntil)
  }

  predicate Trips(b: Breaker) {
    b.failures + 1 >= TRIP_AFTER
  }

  function Recorded(b: Breaker, ok: bool, now: Time, openFor: Time): Breaker {
    if ok then Closed()
    else if Trips(b) then Breaker(0, now + openFor)
    else b.(failures := b.failures + 1)
  }

  // ---------- interleaved calls ----------

  type CallID = nat

  datatype System = System(clock: Time, breaker: Breaker, inFlight: set<CallID>)

  datatype Action =
    | Tick(elapsed: nat)
    | Check(call: CallID)
    | Record(call: CallID, ok: bool)

  /** A refused check leaves no call in flight, and only a call in flight records. */
  function Apply(s: System, a: Action, openFor: Time): System {
    match a
    case Tick(elapsed) => s.(clock := s.clock + elapsed)
    case Check(call) => if Admits(s.breaker, s.clock) then s.(inFlight := s.inFlight + {call}) else s
    case Record(call, ok) =>
      if call in s.inFlight then System(s.clock, Recorded(s.breaker, ok, s.clock, openFor), s.inFlight - {call}) else s
  }

  function Exec(s: System, history: seq<Action>, openFor: Time): System {
    if history == [] then s
    else Apply(Exec(s, history[..|history| - 1], openFor), history[|history| - 1], openFor)
  }

  function Init(clock: Time): System {
    System(clock, Closed(), {})
  }

  /** Failures recorded since the last recorded success. */
  function FailuresSinceSuccess(s: System, history: seq<Action>, openFor: Time): nat {
    if history == [] then 0
    else
      var before, a := history[..|history| - 1], history[|history| - 1];
      var count := FailuresSinceSuccess(s, before, openFor);
      if !a.Record? || a.call !in Exec(s, before, openFor).inFlight then count
      else if a.ok then 0
      else count + 1
  }

  /**
   Whatever the interleaving, the counter is the failures since the last success modulo three,
   and the circuit never opens for longer than configured.
   */
  lemma {:induction false} CounterUnderInterleaving(clock: Time, history: seq<Action>, openFor: Time)
    requires clock >= ZERO_TIME && openFor >= 0
    ensures var s := Exec(Init(clock), history, openFor);
            && s.breaker.failures == FailuresSinceSuccess(Init(clock), history, openFor) % 3
            && 0 <= s.breaker.failures < 3
            && s.breaker.openUntil <= s.clock + openFor
            && ZERO_TIME <= clock <= s.clock
  {
    if history != [] {
      CounterUnderInterleaving(clock, history[..|history| - 1], openFor);
    }
  }

  predicate NoSuccess(post: seq<Action>) {
    forall a :: a in post && a.Record? ==> !a.ok
  }

  /**
   Once a failure trips the circuit, and until a success is recorded, no new call gets past the
   check before the open period ends: the calls in flight only become fewer.
   */
  lemma {:induction false} TripBlocksNewCalls(s: System, call: CallID, openFor: Time, post: seq<Action>)
    requires s.breaker.failures >= 0 && openFor >= 0
    requires call in s.inFlight && Trips(s.breaker)
    requires NoSuccess(post)
    ensures var tripped := Apply(s, Record(call, false), openFor);
            var t := Exec(tripped, post, openFor);
            && s.clock <= t.clock
            && s.clock + openFor <= t.breaker.openUntil
            && (t.clock < s.clock + openFor ==> t.inFlight <= tripped.inFlight)
  {
    if post != [] {
      TripBlocksNewCalls(s, call, openFor, post[..|post| - 1]);
      assert post[|post| - 1] in post;
    }
  }

  // ---------- when the circuit is open ----------

  /** The k-th action recorded a failure, the third, sixth, ... since the last success. */
  ghost predicate TrippedAt(clock: Time, history: seq<Action>, openFor: Time, k: nat)
    requires k < |history|
  {
    var s, a := Exec(Init(clock), history[..k], openFor), history[k];
    && a.Record? && !a.ok && a.call in s.inFlight
    && FailuresSinceSuccess(Init(clock), history[..k + 1], openFor) % 3 == 0
  }

  /** The k-th action recorded a success. */
  ghost predicate SucceededAt(clock: Time, history: seq<Action>, openFor: Time, k: nat)
    requires k < |history|
  {
    history[k].Record? && history[k].ok && history[k].call in Exec(Init(clock), history[..k], openFor).inFlight
  }

  /** A trip at action k that no success has cleared since. */
  ghost predicate Standing(clock: Time, history: seq<Action>, openFor: Time, k: int) {
    && 0 <= k < |history| && TrippedAt(clock, history, openFor, k)
    && forall j :: k < j < |history| ==> !SucceededAt(clock, history, openFor, j)
  }

  function ClockAt(clock: Time, history: seq<Action>, openFor: Time, k: nat): Time
    requires k <= |history|
  {
    Exec(Init(clock), history[..k], openFor).clock
  }

  ghost predicate OpenUntilIsLatestTrip(clock: Time, history: seq<Action>, openFor: Time) {
    var until := Exec(Init(clock), history, openFor).breaker.openUntil;
    && (until == ZERO_TIME
        || exists k :: Standing(clock, history, openFor, k) && until == ClockAt(clock, history, openFor, k) + openFor)
    && (forall k :: Standing(clock, history, openFor, k) ==> ClockAt(clock, history, openFor, k) + openFor <= until)
  }

  lemma {:induction false} StandingBefore(clock: Time, before: seq<Action>, a: Action, openFor: Time, k: int)
    requires 0 <= k < |before|
    ensures ClockAt(clock, before + [a], openFor, k) == ClockAt(clock, before, openFor, k)
    ensures Standing(clock, before + [a], openFor, k) <==>
              Standing(clock, before, openFor, k) && !SucceededAt(clock, before + [a], openFor, |before|)
  {
    var h := before + [a];
    assert h[..k] == before[..k] && h[..k + 1] == before[..k + 1] && h[k] == before[k];
    forall j | k < j < |before| ensures SucceededAt(clock, h, openFor, j) <==> SucceededAt(clock, before, openFor, j) {
      assert h[..j] == before[..j] && h[j] == before[j];
    }
  }

  lemma {:induction false} ClockOnlyRuns(clock: Time, history: seq<Action>, openFor: Time, k: nat)
    requires k <= |history|
    ensures ClockAt(clock, history, openFor, k) <= Exec(Init(clock), history, openFor).clock
  {
    if k == |history| {
      assert history[..k] == history;
    } else {
      var before := history[..|history| - 1];
      ClockOnlyRuns(clock, before, openFor, k);
      assert before[..k] == history[..k];
    }
  }

  lemma {:induction false} LastAction(clock: Time, before: seq<Action>, a: Action, openFor: Time)
    requires clock >= ZERO_TIME && openFor >= 0
    ensures var h, s, t := before + [a], Exec(Init(clock), before, openFor), Exec(Init(clock), before + [a], openFor);
            && t == Apply(s, a, openFor) && ClockAt(clock, h, openFor, |before|) == s.clock
            && (SucceededAt(clock, h, openFor, |before|) ==> t.breaker.openUntil == ZERO_TIME)
            && (TrippedAt(clock, h, openFor, |before|) ==> t.breaker.openUntil == s.clock + openFor)
            && (!SucceededAt(clock, h, openFor, |before|) && !TrippedAt(clock, h, openFor, |before|) ==>
                  t.breaker.openUntil == s.breaker.openUntil)
  {
    var h := before + [a];
    assert h[..|before|] == before && h[..|before| + 1] == h;
    CounterUnderInterleaving(clock, before, openFor);
  }

  lemma {:induction false} LatestTripAlways(clock: Time, history: seq<Action>, openFor: Time)
    requires clock >= ZERO_TIME && openFor >= 0
    ensures OpenUntilIsLatestTrip(clock, history, openFor)
  {
    if history != [] {
      var before, a := history[..|history| - 1], history[|history| - 1];
      assert history == before + [a];
      LatestTripAlways(clock, before, openFor);
      LastAction(clock, before, a, openFor);
      LatestTripStep(clock, before, a, openFor);
    }
  }

  lemma {:induction false} LatestTripStep(clock: Time, before: seq<Action>, a: Action, openFor: Time)
    requires clock >= ZERO_TIME && openFor >= 0 && OpenUntilIsLatestTrip(clock, before, openFor)
    ensures OpenUntilIsLatestTrip(clock, before + [a], openFor)
  {
    var h, n := before + [a], |before|;
    LastAction(clock, before, a, openFor);
    var s, t := Exec(Init(clock), before, openFor), Exec(Init(clock), h, openFor);
    forall k | Standing(clock, h, openFor, k) ensures ClockAt(clock, h, openFor, k) + openFor <= t.breaker.openUntil {
      if k < n {
        StandingBefore(clock, before, a, openFor, k);
        ClockOnlyRuns(clock, before, openFor, k);
      }
    }
    if TrippedAt(clock, h, openFor, n) {
      assert Standing(clock, h, openFor, n);
    } else if !SucceededAt(clock, h, openFor, n) && s.breaker.openUntil != ZERO_TIME {
      var k :| Standing(clock, before, openFor, k)
               && s.breaker.openUntil == ClockAt(clock, before, openFor, k) + openFor;
      StandingBefore(clock, before, a, openFor, k);
      assert Standing(clock, h, openFor, k);
    }
  }

  /**
   A new call is refused exactly while a third failure in a row, not followed by a success, is less
   than the open period ago.
   */
  lemma {:induction false} RefusedIff(clock: Time, history: seq<Action>, openFor: Time, call: CallID)
    requires clock >= ZERO_TIME && openFor >= 0
    requires call !in Exec(Init(clock), history, openFor).inFlight
    ensures var s := Exec(Init(clock), history, openFor);
            call !in Apply(s, Check(call), openFor).inFlight <==>
              exists k :: Standing(clock, history, openFor, k)
                  && s.clock < ClockAt(clock, history, openFor, k) + openFor
  {
    CounterUnderInterleaving(clock, history, openFor);
    LatestTripAlways(clock, history, openFor);
  }

  // ---------- sequential calls that all fail ----------

  /** The clock at a call's check and at its record. */
  datatype Call = Call(start: Time, end: Time)

  predicate Sequential(calls: seq<Call>) {
    && (forall i :: 0 <= i < |calls| ==> ZERO_TIME <= calls[i].start <= calls[i].end)
    && (forall i, j :: 0 <= i < j < |calls| ==> calls[i].end <= calls[j].start)
  }

  function AfterFailing(calls: seq<Call>, openFor: Time): Breaker {
    if calls == [] then Closed()
    else
      var b, c := AfterFailing(calls[..|calls| - 1], openFor), calls[|calls| - 1];
      if Admits(b, c.start) then Recorded(b, false, c.end, openFor) else b
  }

  /** Calls with start at most `limit` that get past the check, and so reach the network. */
  function Reaching(calls: seq<Call>, openFor: Time, limit: Time): nat {
    if calls == [] then 0
    else
      var before, c := calls[..|calls| - 1], calls[|calls| - 1];
      Reaching(before, openFor, limit) +
      (if c.start <= limit && Admits(AfterFailing(before, openFor), c.start) then 1 else 0)
  }

  lemma {:induction false} OneMore(calls: seq<Call>, c: Call, openFor: Time, limit: Time)
    ensures AfterFailing(calls + [c], openFor) ==
            (var b := AfterFailing(calls, openFor); if Admits(b, c.start) then
             Recorded(b, false, c.end, openFor) else b)
    ensures Reaching(calls + [c], openFor, limit) ==
            Reaching(calls, openFor, limit) +
                (if c.start <= limit && Admits(AfterFailing(calls, openFor), c.start) then 1 else 0)
  {
    assert (calls + [c])[..|calls|] == calls;
  }

  function Periods(k: nat, openFor: Time): Time {
    k * openFor
  }

  lemma {:induction false} NextPeriod(k: nat, openFor: Time)
    ensures Periods(k + 1, openFor) == Periods(k, openFor) + openFor
  {
  }

  /** After n calls reached the network, the circuit opened n/3 times, each at least a period after the one before. */
  ghost predicate Paced(calls: seq<Call>, openFor: Time, limit: Time) {
    var n, b := Reaching(calls, openFor, limit), AfterFailing(calls, openFor);
    && b.failures == n % 3
    && (calls == [] ==> n == 0)
    && (n >= 3 ==> calls[0].start + Periods(n / 3, openFor) <= b.openUntil)
    && (n > 0 ==> calls[0].start + Periods((n - 1) / 3, openFor) <= limit)
  }

  lemma {:induction false} PacedStep(calls: seq<Call>, c: Call, openFor: Time, limit: Time)
    requires Sequential(calls + [c]) && openFor > 0 && c.start <= limit
    requires Paced(calls, openFor, limit)
    ensures Paced(calls + [c], openFor, limit)
  {
    OneMore(calls, c, openFor, limit);
    var n := Reaching(calls, openFor, limit);
    assert calls != [] ==> (calls + [c])[0] == calls[0] && calls[0].start <= c.start by {
      assert calls != [] ==> (calls + [c])[0].end <= (calls + [c])[|calls|].start;
    }
    assert Periods(0, openFor) == 0;
    NextPeriod(n / 3, openFor);
    if Admits(AfterFailing(calls, openFor), c.start) {
      if n % 3 == 2 {
        assert (n + 1) / 3 == n / 3 + 1;
      } else {
        assert (n + 1) / 3 == n / 3;
      }
    }
  }

  lemma {:induction false} EachTripleCostsAPeriod(calls: seq<Call>, openFor: Time, limit: Time)
    requires Sequential(calls) && openFor > 0
    requires calls != [] ==> calls[|calls| - 1].start <= limit
    ensures Paced(calls, openFor, limit)
  {
    if calls != [] {
      var before, c := calls[..|calls| - 1], calls[|calls| - 1];
      assert before + [c] == calls;
      assert before != [] ==> before[|before| - 1].end <= c.start;
      EachTripleCostsAPeriod(before, openFor, limit);
      PacedStep(before, c, openFor, limit);
    }
  }

  lemma {:induction false} FewerPeriods(a: nat, b: nat, openFor: Time)
    requires openFor > 0 && Periods(a, openFor) < Periods(b, openFor)
    ensures a < b
  {
  }

  lemma {:induction false} PeriodsFit(k: nat, openFor: Time, window: Time)
    requires openFor > 0 && window >= 0 && Periods(k, openFor) <= window
    ensures k <= window / openFor
  {
    var fit := window / openFor;
    assert window < Periods(fit + 1, openFor);
    FewerPeriods(k, fit + 1, openFor);
  }

  lemma {:induction false} TriplesFit(n: nat, fit: int)
    requires n > 0 && (n - 1) / 3 <= fit
    ensures n <= 3 * (fit + 1)
  {
  }

  lemma {:induction false} LateCall(calls: seq<Call>, openFor: Time, limit: Time)
    requires calls != [] && calls[|calls| - 1].start > limit
    ensures Reaching(calls, openFor, limit) == Reaching(calls[..|calls| - 1], openFor, limit)
  {
  }

  lemma {:induction false} FailingCallsFit(calls: seq<Call>, openFor: Time, window: Time)
    requires Sequential(calls) && calls != [] && openFor > 0 && window >= 0
    requires calls[|calls| - 1].start <= calls[0].start + window
    ensures Reaching(calls, openFor, calls[0].start + window) <= 3 * (window / openFor + 1)
  {
    var limit := calls[0].start + window;
    EachTripleCostsAPeriod(calls, openFor, limit);
    var n := Reaching(calls, openFor, limit);
    if n > 0 {
      PeriodsFit((n - 1) / 3, openFor, window);
      TriplesFit(n, window / openFor);
    } else {
      PeriodsFit(0, openFor, window);
    }
  }

  /**
   From a fresh provider, if every call fails, at most 3 * (window / openFor + 1) of the calls
   that start within a window of the first one reach the network.
   */
  lemma {:induction false} FailingCallsBounded(calls: seq<Call>, openFor: Time, window: Time)
    requires Sequential(calls) && calls != [] && openFor > 0 && window >= 0
    ensures Reaching(calls, openFor, calls[0].start + window) <= 3 * (window / openFor + 1)
    decreases |calls|
  {
    if calls[|calls| - 1].start <= calls[0].start + window {
      FailingCallsFit(calls, openFor, window);
    } else {
      FailingCallsBounded(calls[..|calls| - 1], openFor, window);
      LateCall(calls, openFor, calls[0].start + window);
    }
  }

  /** Three instantaneous calls at the start of every open period. */
  function Waves(periods: nat, openFor: nat): seq<Call> {
    var now := Periods(periods, openFor);
    (if periods == 0 then [] else Waves(periods - 1, openFor)) + [Call(now, now)] + [Call(now, now)] + [Call(now, now)]
  }

  lemma {:induction false} ThreeFailures(calls: seq<Call>, now: Time, openFor: Time, limit: Time)
    requires AfterFailing(calls, openFor).failures == 0 && AfterFailing(calls, openFor).openUntil <= now <= limit
    ensures var c := Call(now, now); var after := calls + [c] + [c] + [c];
            && Reaching(after, openFor, limit) == Reaching(calls, openFor, limit) + 3
            && AfterFailing(after, openFor) == Breaker(0, now + openFor)
  {
    var c := Call(now, now);
    OneMore(calls, c, openFor, limit);
    OneMore(calls + [c], c, openFor, limit);
    OneMore(calls + [c] + [c], c, openFor, limit);
  }

  /** The bound is reached by three calls at the start of every period. */
  lemma {:induction false} BoundIsReached(periods: nat, openFor: nat, limit: Time)
    requires openFor > 0 && Periods(periods, openFor) <= limit
    ensures Reaching(Waves(periods, openFor), openFor, limit) == 3 * (periods + 1)
    ensures AfterFailing(Waves(periods, openFor), openFor) == Breaker(0, Periods(periods + 1, openFor))
  {
    NextPeriod(periods, openFor);
    if periods == 0 {
      ThreeFailures([], Periods(0, openFor), openFor, limit);
    } else {
      NextPeriod(periods - 1, openFor);
      BoundIsReached(periods - 1, openFor, limit);
      ThreeFailures(Waves(periods - 1, openFor), Periods(periods, openFor), openFor, limit);
    }
  }

  // ---------- the code ----------

  type Candidate = string

  datatype Error = CircuitOpen | RequestFailed(text: string)

  /** One request's result: candidates, an error worth retrying, or a final error. */
  datatype Reply =
    | Candidates(items: seq<Candidate>)
    | Retryable(text: string)
    | Final(text: string)

  function Text(reply: Reply): string {
    if reply.Candidates? then "" else reply.text
  }

  /** The attempt at which the retry loop stops: the first reply that is not retryable, if the retries reach it. */
  predicate StopsAt(replies: seq<Reply>, retries: int, i: int) {
    0 <= i <= retries && i < |replies| && !replies[i].Retryable? && forall j :: 0 <= j < i ==> replies[j].Retryable?
  }

  class HTTPProvider {
    const retries: int
    const openFor: Time
    var failures: int
    var openUntil: Time

    ghost function State(): Breaker
      reads this
    {
      Breaker(failures, openUntil)
    }

    constructor (retries: int, openFor: Time)
      ensures this.retries == retries && this.openFor == openFor && State() == Closed()
    {
      this.retries, this.openFor, failures, openUntil := retries, openFor, 0, ZERO_TIME;
    }

    method RecordSuccess()
      modifies this
      ensures State() == Recorded(old(State()), true, ZERO_TIME, openFor)
    {
      failures, openUntil := 0, ZERO_TIME;
    }

    method RecordFailure(now: Time)
      modifies this
      ensures State() == Recorded(old(State()), false, now, openFor)
    {
      failures := failures + 1;
      if failures >= 3 {
        openUntil := now + openFor;
        failures := 0;
      }
    }

    /**
     One call on its own: `replies` is what each request would return, `start` and `end` the two
     clock reads. It makes at most retries + 1 requests and none when the circuit is open; it
     succeeds exactly when some reply within the retries is a list and all before it are
     retryable; every other admitted call is recorded as a failure.
     */
    method Screen(replies: seq<Reply>, start: Time, end: Time)
        returns (items: seq<Candidate>, err: Option<Error>, requests: nat)
      requires |replies| > retries
      modifies this
      ensures !Admits(old(State()), start) ==> requests == 0 && err == Some(CircuitOpen) && State() == old(State())
      ensures Admits(old(State()), start) ==>
                && requests <= Max(retries + 1, 0)
                && (forall i :: StopsAt(replies, retries, i) ==>
                      && requests == i + 1
                      && (replies[i].Candidates? ==> items == replies[i].items && err == None)
                      && (replies[i].Final? ==> items == [] && err == Some(RequestFailed(Text(replies[i]))))
                      && State() == Recorded(old(State()), replies[i].Candidates?, end, openFor))
                && ((forall i :: !StopsAt(replies, retries, i)) ==>
                      && requests == Max(retries + 1, 0) && items == []
                      && err == (if retries >= 0 then Some(RequestFailed(Text(replies[retries]))) else None)
                      && State() == Recorded(old(State()), false, end, openFor))
    {
      items, err, requests := [], None, 0;
      if start < openUntil {
        return [], Some(CircuitOpen), 0;
      }
      var attempt := 0;
      while attempt <= retries
        invariant 0 <= attempt <= Max(retries + 1, 0) && requests == attempt && items == []
        invariant forall j :: 0 <= j < attempt ==> replies[j].Retryable?
        invariant State() == old(State())
        invariant err == if attempt == 0 then None else Some(RequestFailed(Text(replies[attempt - 1])))
      {
        var reply := replies[attempt];
        requests := requests + 1;
        if reply.Candidates? {
          assert StopsAt(replies, retries, attempt);
          RecordSuccess();
          return reply.items, None, requests;
        }
        err := Some(RequestFailed(reply.text));
        if reply.Final? {
          assert StopsAt(replies, retries, attempt);
          break;
        }
        attempt := attempt + 1;
      }
      RecordFailure(end);
    }
  }
}

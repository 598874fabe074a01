/**
 The token-bucket rate limiter with idle pruning. Times are seconds and, like the
 token counts, real numbers: rounding of the floats is not modelled.
 */
module RateLimiter {
  import opened Durations

  type Key = string

  const NEVER: real := 0.0
  const PRUNE_EVERY: real := 60.0
  const IDLE_LIMIT: real := 600.0

  datatype Bucket = Bucket(tokens: real, updated: real)

  datatype Config = Config(rate: real, burst: int)

  datatype Limiter = Limiter(clients: map<Key, Bucket>, lastPrune: real)

  datatype Call = Call(key: Key, now: real)

  predicate ValidConfig(cfg: Config) {
    cfg.rate > 0.0 && cfg.burst >= 1
  }

  // ---------- one call ----------

  /** Tokens earned in a time. */
  function Earned(cfg: Config, seconds: real): real {
    seconds * cfg.rate
  }

  function Refill(b: Bucket, cfg: Config, now: real): Bucket {
    var tokens := b.tokens + Earned(cfg, now - b.updated);
    Bucket(if tokens > cfg.burst as real then cfg.burst as real else tokens, now)
  }

  /** A client without a bucket starts with a full one. */
  function Refilled(b: Option<Bucket>, cfg: Config, now: real): Bucket {
    Refill(if b.Some? then b.value else Bucket(cfg.burst as real, now), cfg, now)
  }

  function Taken(b: Option<Bucket>, cfg: Config, now: real): Bucket {
    var r := Refilled(b, cfg, now);
    if r.tokens < 1.0 then r else r.(tokens := r.tokens - 1.0)
  }

  predicate Grants(b: Option<Bucket>, cfg: Config, now: real) {
    Refilled(b, cfg, now).tokens >= 1.0
  }

  function Lookup(clients: map<Key, Bucket>, key: Key): Option<Bucket> {
    if key in clients then Some(clients[key]) else None
  }

  predicate PruneDue(l: Limiter, now: real) {
    l.lastPrune == NEVER || now - l.lastPrune > PRUNE_EVERY
  }

  function Active(clients: map<Key, Bucket>, now: real): map<Key, Bucket> {
    map id | id in clients && now - clients[id].updated <= IDLE_LIMIT :: clients[id]
  }

  function Pruned(l: Limiter, now: real): Limiter {
    if PruneDue(l, now) then Limiter(Active(l.clients, now), now) else l
  }

  function After(l: Limiter, cfg: Config, c: Call): Limiter {
    var p := Pruned(l, c.now);
    p.(clients := p.clients[c.key := Taken(Lookup(p.clients, c.key), cfg, c.now)])
  }

  predicate Allows(l: Limiter, cfg: Config, c: Call) {
    Grants(Lookup(Pruned(l, c.now).clients, c.key), cfg, c.now)
  }

  // ---------- histories ----------

  function Run(cfg: Config, h: seq<Call>): Limiter {
    if h == [] then Limiter(map[], NEVER)
    else After(Run(cfg, h[..|h| - 1]), cfg, h[|h| - 1])
  }

  function Decisions(cfg: Config, h: seq<Call>): (d: seq<bool>)
    ensures |d| == |h|
  {
    if h == [] then []
    else Decisions(cfg, h[..|h| - 1]) + [Allows(Run(cfg, h[..|h| - 1]), cfg, h[|h| - 1])]
  }

  /** The client's own bucket, which nothing prunes and no other client touches. */
  function OwnBucket(cfg: Config, h: seq<Call>, key: Key): Option<Bucket> {
    if h == [] then None
    else
      var before := OwnBucket(cfg, h[..|h| - 1], key);
      var c := h[|h| - 1];
      if c.key == key then Some(Taken(before, cfg, c.now)) else before
  }

  function OwnDecisions(cfg: Config, h: seq<Call>): (d: seq<bool>)
    ensures |d| == |h|
  {
    if h == [] then []
    else
      var c := h[|h| - 1];
      OwnDecisions(cfg, h[..|h| - 1]) + [Grants(OwnBucket(cfg, h[..|h| - 1], c.key), cfg, c.now)]
  }

  predicate Monotone(h: seq<Call>) {
    forall i, j :: 0 <= i < j < |h| ==> h[i].now <= h[j].now
  }

  // ---------- pruning is transparent ----------

  lemma {:induction false} MoreTimeEarnsMore(cfg: Config, a: real, b: real)
    requires ValidConfig(cfg) && a <= b
    ensures Earned(cfg, a) <= Earned(cfg, b)
  {
    assert (b - a) * cfg.rate >= 0.0;
  }

  lemma {:induction false} EarnedNonNegative(cfg: Config, seconds: real)
    requires ValidConfig(cfg) && seconds >= 0.0
    ensures Earned(cfg, seconds) >= 0.0
  {
  }

  lemma {:induction false} EarnedAdds(cfg: Config, from: real, middle: real, to: real)
    ensures Earned(cfg, to - from) == Earned(cfg, to - middle) + Earned(cfg, middle - from)
  {
  }

  /** A pruned bucket would by now have refilled completely. */
  ghost predicate Full(b: Bucket, cfg: Config, now: real) {
    b.tokens + Earned(cfg, now - b.updated) >= cfg.burst as real
  }

  ghost predicate Mirrors(cfg: Config, l: Limiter, h: seq<Call>, key: Key) {
    var own := OwnBucket(cfg, h, key);
    && (key in l.clients ==> own == Some(l.clients[key]))
    && (own.Some? ==> own.value.tokens >= 0.0 && h != [] && own.value.updated <= h[|h| - 1].now)
    && (key !in l.clients && own.Some? ==> Full(own.value, cfg, h[|h| - 1].now))
  }

  lemma {:induction false} FullLasts(b: Bucket, cfg: Config, from: real, to: real)
    requires ValidConfig(cfg) && from <= to && Full(b, cfg, from)
    ensures Full(b, cfg, to)
    ensures Refill(b, cfg, to) == Bucket(cfg.burst as real, to)
  {
    MoreTimeEarnsMore(cfg, from - b.updated, to - b.updated);
  }

  lemma {:induction false} IdleIsFull(b: Bucket, cfg: Config, now: real)
    requires ValidConfig(cfg) && cfg.burst as real <= Earned(cfg, IDLE_LIMIT)
    requires b.tokens >= 0.0 && now - b.updated > IDLE_LIMIT
    ensures Full(b, cfg, now)
  {
    MoreTimeEarnsMore(cfg, IDLE_LIMIT, now - b.updated);
  }

  /** The limiter's own step, seen from one client: pruning first, and a later clock only helps. */
  lemma {:induction false} MirrorsPruned(cfg: Config, l: Limiter, h: seq<Call>, key: Key, now: real)
    requires ValidConfig(cfg) && cfg.burst as real <= Earned(cfg, IDLE_LIMIT)
    requires Mirrors(cfg, l, h, key) && (h != [] ==> h[|h| - 1].now <= now)
    ensures var own, p := OwnBucket(cfg, h, key), Pruned(l, now).clients;
            && (key in p ==> own == Some(p[key]))
            && (key !in p && own.Some? ==> Full(own.value, cfg, now))
            && Refilled(Lookup(p, key), cfg, now) == Refilled(own, cfg, now)
  {
    var own := OwnBucket(cfg, h, key);
    var p := Pruned(l, now).clients;
    if key !in p && own.Some? {
      if key in l.clients {
        IdleIsFull(own.value, cfg, now);
      } else {
        FullLasts(own.value, cfg, h[|h| - 1].now, now);
      }
      FullLasts(own.value, cfg, now, now);
    }
  }

  lemma {:induction false} TakenInRange(b: Option<Bucket>, cfg: Config, now: real)
    requires ValidConfig(cfg)
    requires b.Some? ==> b.value.tokens >= 0.0 && b.value.updated <= now
    ensures Taken(b, cfg, now).tokens >= 0.0 && Taken(b, cfg, now).updated == now
  {
    if b.Some? {
      EarnedNonNegative(cfg, now - b.value.updated);
    }
  }

  lemma {:induction false} RunMirrors(cfg: Config, h: seq<Call>, key: Key)
    requires ValidConfig(cfg) && cfg.burst as real <= Earned(cfg, IDLE_LIMIT)
    requires Monotone(h)
    ensures Mirrors(cfg, Run(cfg, h), h, key)
  {
    if h != [] {
      var before, c := h[..|h| - 1], h[|h| - 1];
      RunMirrors(cfg, before, key);
      MirrorsPruned(cfg, Run(cfg, before), before, key, c.now);
      TakenInRange(OwnBucket(cfg, before, key), cfg, c.now);
    }
  }

  /** In any interleaving of clients every decision equals that of the client's own never-pruned bucket. */
  lemma {:induction false} PruningIsTransparent(cfg: Config, h: seq<Call>)
    requires ValidConfig(cfg) && cfg.burst as real <= Earned(cfg, IDLE_LIMIT)
    requires Monotone(h)
    ensures Decisions(cfg, h) == OwnDecisions(cfg, h)
  {
    if h != [] {
      var before, c := h[..|h| - 1], h[|h| - 1];
      PruningIsTransparent(cfg, before);
      RunMirrors(cfg, before, c.key);
      MirrorsPruned(cfg, Run(cfg, before), before, c.key, c.now);
    }
  }

  // ---------- the admission bound ----------

  /** Requests of a client admitted within [from, to], by a given series of decisions. */
  function Admitted(h: seq<Call>, d: seq<bool>, key: Key, from: real, to: real): nat
    requires |d| == |h|
  {
    if h == [] then 0
    else
      var n := |h| - 1;
      Admitted(h[..n], d[..n], key, from, to) + (if h[n].key == key && d[n] && from <= h[n].now <= to then 1 else 0)
  }

  /** What was admitted since `from` and what is left never exceed one burst and the refill since. */
  ghost predicate Paid(cfg: Config, h: seq<Call>, key: Key, from: real, to: real) {
    var own := OwnBucket(cfg, h, key);
    var admitted := Admitted(h, OwnDecisions(cfg, h), key, from, to) as real;
    if own.Some? && own.value.updated >= from then
      admitted + own.value.tokens <= cfg.burst as real + Earned(cfg, own.value.updated - from)
    else admitted == 0.0
  }

  lemma {:induction false} PaidAlways(cfg: Config, h: seq<Call>, key: Key, from: real, to: real)
    requires ValidConfig(cfg) && Monotone(h)
    requires h != [] ==> h[|h| - 1].now <= to
    ensures Paid(cfg, h, key, from, to)
    ensures var own := OwnBucket(cfg, h, key);
            own.Some? ==> own.value.tokens >= 0.0 && h != [] && own.value.updated <= h[|h| - 1].now
  {
    if h != [] {
      var before, c := h[..|h| - 1], h[|h| - 1];
      PaidAlways(cfg, before, key, from, to);
      var own := OwnBucket(cfg, before, key);
      TakenInRange(own, cfg, c.now);
      assert OwnDecisions(cfg, h)[..|before|] == OwnDecisions(cfg, before);
      if c.now >= from {
        EarnedNonNegative(cfg, c.now - from);
        if own.Some? {
          EarnedAdds(cfg, from, own.value.updated, c.now);
        }
      }
    }
  }

  lemma {:induction false} OwnAdmissionBound(cfg: Config, h: seq<Call>, key: Key, from: real, to: real)
    requires ValidConfig(cfg) && Monotone(h) && from <= to
    ensures Admitted(h, OwnDecisions(cfg, h), key, from, to) as real <= cfg.burst as real + Earned(cfg, to - from)
  {
    if h == [] || h[|h| - 1].now <= to {
      PaidAlways(cfg, h, key, from, to);
      var own := OwnBucket(cfg, h, key);
      EarnedNonNegative(cfg, to - from);
      if own.Some? {
        MoreTimeEarnsMore(cfg, own.value.updated - from, to - from);
      }
    } else {
      OwnAdmissionBound(cfg, h[..|h| - 1], key, from, to);
      assert OwnDecisions(cfg, h)[..|h| - 1] == OwnDecisions(cfg, h[..|h| - 1]);
    }
  }

  // ---------- the exact condition ----------

  function Burst(key: Key, now: real, n: nat): (calls: seq<Call>)
    ensures |calls| == n
  {
    if n == 0 then [] else Burst(key, now, n - 1) + [Call(key, now)]
  }

  /** The client's bucket was last touched, and the map last pruned, just now. */
  predicate Fresh(l: Limiter, key: Key, now: real, left: int) {
    l.lastPrune == now && Lookup(l.clients, key) == Some(Bucket(left as real, now))
  }

  ghost predicate Forgotten(l: Limiter, key: Key, now: real) {
    PruneDue(l, now) && key !in Pruned(l, now).clients
  }

  lemma {:induction false} FirstOfBurst(cfg: Config, key: Key, l: Limiter, now: real)
    requires ValidConfig(cfg) && Forgotten(l, key, now)
    ensures Allows(l, cfg, Call(key, now)) && Fresh(After(l, cfg, Call(key, now)), key, now, cfg.burst - 1)
  {
    assert Earned(cfg, now - now) == 0.0;
  }

  lemma {:induction false} NextOfBurst(cfg: Config, key: Key, l: Limiter, now: real, left: int)
    requires ValidConfig(cfg) && 1 <= left <= cfg.burst && now != NEVER && Fresh(l, key, now, left)
    ensures Allows(l, cfg, Call(key, now)) && Fresh(After(l, cfg, Call(key, now)), key, now, left - 1)
  {
    assert Earned(cfg, now - now) == 0.0;
  }

  lemma {:induction false} RunStep(cfg: Config, h: seq<Call>, c: Call)
    ensures Run(cfg, h + [c]) == After(Run(cfg, h), cfg, c)
    ensures Decisions(cfg, h + [c]) == Decisions(cfg, h) + [Allows(Run(cfg, h), cfg, c)]
  {
    assert (h + [c])[..|h|] == h;
  }

  /** The run followed by n calls at one instant. */
  function WithBurst(h: seq<Call>, key: Key, now: real, n: nat): seq<Call> {
    h + Burst(key, now, n)
  }

  lemma {:induction false} NoBurst(h: seq<Call>, key: Key, now: real)
    ensures WithBurst(h, key, now, 0) == h
  {
  }

  lemma {:induction false} BurstStep(h: seq<Call>, key: Key, now: real, n: nat)
    requires n > 0
    ensures WithBurst(h, key, now, n) == WithBurst(h, key, now, n - 1) + [Call(key, now)]
  {
  }

  function AfterBurst(cfg: Config, l: Limiter, key: Key, now: real, n: nat): Limiter {
    if n == 0 then l else After(AfterBurst(cfg, l, key, now, n - 1), cfg, Call(key, now))
  }

  lemma {:induction false} BurstRun(cfg: Config, h: seq<Call>, key: Key, now: real, n: nat)
    ensures Run(cfg, WithBurst(h, key, now, n)) == AfterBurst(cfg, Run(cfg, h), key, now, n)
  {
    if n == 0 {
      NoBurst(h, key, now);
    } else {
      BurstRun(cfg, h, key, now, n - 1);
      BurstStep(h, key, now, n);
      RunStep(cfg, WithBurst(h, key, now, n - 1), Call(key, now));
    }
  }

  lemma {:induction false} BurstState(cfg: Config, key: Key, l: Limiter, now: real, n: nat)
    requires ValidConfig(cfg) && 0 < n <= cfg.burst && now != NEVER && Forgotten(l, key, now)
    ensures Allows(AfterBurst(cfg, l, key, now, n - 1), cfg, Call(key, now))
    ensures Fresh(AfterBurst(cfg, l, key, now, n), key, now, cfg.burst - n)
  {
    if n == 1 {
      FirstOfBurst(cfg, key, l, now);
    } else {
      BurstState(cfg, key, l, now, n - 1);
      NextOfBurst(cfg, key, AfterBurst(cfg, l, key, now, n - 1), now, cfg.burst - (n - 1));
    }
  }

  lemma {:induction false} BurstAllows(cfg: Config, key: Key, h: seq<Call>, now: real, n: nat)
    requires ValidConfig(cfg) && 0 < n <= cfg.burst && now != NEVER && Forgotten(Run(cfg, h), key, now)
    ensures Allows(Run(cfg, WithBurst(h, key, now, n - 1)), cfg, Call(key, now))
  {
    BurstState(cfg, key, Run(cfg, h), now, n);
    BurstRun(cfg, h, key, now, n - 1);
  }

  lemma {:induction false} AdmittedStep(cfg: Config, h: seq<Call>, c: Call, key: Key, from: real, to: real)
    ensures Admitted(h + [c], Decisions(cfg, h + [c]), key, from, to) ==
            Admitted(h, Decisions(cfg, h), key, from, to) +
            (if c.key == key && Allows(Run(cfg, h), cfg, c) && from <= c.now <= to then 1 else 0)
  {
    RunStep(cfg, h, c);
    var d, ok := Decisions(cfg, h), Allows(Run(cfg, h), cfg, c);
    assert (h + [c])[..|h|] == h && (d + [ok])[..|d|] == d;
  }

  /** From an empty or prunable bucket, a whole burst at one instant is admitted. */
  lemma {:induction false} BurstAdmitted(cfg: Config, key: Key, h: seq<Call>, now: real, n: nat, from: real, to: real)
    requires ValidConfig(cfg) && n <= cfg.burst && now != NEVER && from <= now <= to
    requires Forgotten(Run(cfg, h), key, now)
    ensures var h' := WithBurst(h, key, now, n);
            Admitted(h', Decisions(cfg, h'), key, from, to) == Admitted(h, Decisions(cfg, h), key, from, to) + n
  {
    if n == 0 {
      NoBurst(h, key, now);
    } else {
      BurstAdmitted(cfg, key, h, now, n - 1, from, to);
      BurstAllows(cfg, key, h, now, n);
      BurstStep(h, key, now, n);
      AdmittedStep(cfg, WithBurst(h, key, now, n - 1), Call(key, now), key, from, to);
    }
  }

  lemma {:induction false} BurstsAreMonotone(key: Key, n: nat, from: real, to: real)
    requires from <= to
    ensures Monotone(Burst(key, from, n) + Burst(key, to, n))
  {
    BurstAt(key, from, n);
    BurstAt(key, to, n);
  }

  lemma {:induction false} BurstAt(key: Key, now: real, n: nat)
    ensures forall i :: 0 <= i < n ==> Burst(key, now, n)[i] == Call(key, now)
  {
    if n > 0 {
      BurstAt(key, now, n - 1);
    }
  }

  /** A pause longer than the idle limit that still earns less than a burst. */
  lemma {:induction false} Overlong(cfg: Config) returns (wait: real)
    requires ValidConfig(cfg) && cfg.burst as real > Earned(cfg, IDLE_LIMIT)
    ensures wait > IDLE_LIMIT && Earned(cfg, wait) < cfg.burst as real
  {
    var spare := (cfg.burst as real - Earned(cfg, IDLE_LIMIT)) / 2.0;
    var more := spare / cfg.rate;
    assert Earned(cfg, more) == spare;
    wait := IDLE_LIMIT + more;
    assert Earned(cfg, wait) == Earned(cfg, IDLE_LIMIT) + Earned(cfg, more);
  }

  /** One burst at instant 1 and, after the pause, another. */
  function TwoBursts(cfg: Config, key: Key, to: real): seq<Call>
    requires cfg.burst >= 0
  {
    WithBurst(Burst(key, 1.0, cfg.burst), key, to, cfg.burst)
  }

  lemma {:induction false} FirstBurst(cfg: Config, key: Key, to: real)
    requires ValidConfig(cfg) && to >= 1.0
    ensures var first := Burst(key, 1.0, cfg.burst);
            && Admitted(first, Decisions(cfg, first), key, 1.0, to) == cfg.burst
            && (to > 1.0 + IDLE_LIMIT ==> Forgotten(Run(cfg, first), key, to))
  {
    var first := Burst(key, 1.0, cfg.burst);
    assert WithBurst([], key, 1.0, cfg.burst) == first;
    BurstAdmitted(cfg, key, [], 1.0, cfg.burst, 1.0, to);
    BurstState(cfg, key, Run(cfg, []), 1.0, cfg.burst);
    BurstRun(cfg, [], key, 1.0, cfg.burst);
  }

  /** When a burst outlasts the idle limit, pruning hands the client a second burst before the first is repaid. */
  lemma {:induction false} DoubleBurst(cfg: Config, key: Key) returns (h: seq<Call>, to: real)
    requires ValidConfig(cfg) && cfg.burst as real > Earned(cfg, IDLE_LIMIT)
    ensures Monotone(h) && 1.0 <= to
    ensures Admitted(h, Decisions(cfg, h), key, 1.0, to) as real > cfg.burst as real + Earned(cfg, to - 1.0)
  {
    var wait := Overlong(cfg);
    to := 1.0 + wait;
    FirstBurst(cfg, key, to);
    BurstAdmitted(cfg, key, Burst(key, 1.0, cfg.burst), to, cfg.burst, 1.0, to);
    h := TwoBursts(cfg, key, to);
    BurstsAreMonotone(key, cfg.burst, 1.0, to);
  }

  ghost predicate Transparent(cfg: Config) {
    forall h :: Monotone(h) ==> Decisions(cfg, h) == OwnDecisions(cfg, h)
  }

  ghost predicate AdmissionBounded(cfg: Config) {
    forall h, key, from, to :: Monotone(h) && from <= to ==>
      Admitted(h, Decisions(cfg, h), key, from, to) as real <= cfg.burst as real + Earned(cfg, to - from)
  }

  /**
   Pruning never shows, and every window admits at most one burst plus the refill, exactly
   when a full burst refills within the ten idle minutes.
   */
  lemma {:induction false} PruningIff(cfg: Config)
    requires ValidConfig(cfg)
    ensures Transparent(cfg) <==> cfg.burst as real <= Earned(cfg, IDLE_LIMIT)
    ensures AdmissionBounded(cfg) <==> cfg.burst as real <= Earned(cfg, IDLE_LIMIT)
  {
    if cfg.burst as real <= Earned(cfg, IDLE_LIMIT) {
      forall h | Monotone(h) ensures Decisions(cfg, h) == OwnDecisions(cfg, h) {
        PruningIsTransparent(cfg, h);
      }
      forall h, key, from, to | Monotone(h) && from <= to
        ensures Admitted(h, Decisions(cfg, h), key, from, to) as real <= cfg.burst as real + Earned(cfg, to - from)
      {
        PruningIsTransparent(cfg, h);
        OwnAdmissionBound(cfg, h, key, from, to);
      }
    } else {
      var h, to := DoubleBurst(cfg, "c");
      OwnAdmissionBound(cfg, h, "c", 1.0, to);
    }
  }

  // ---------- a patient client is never denied ----------

  /** The client's calls lie at least 1/rate apart. */
  predicate Spaced(cfg: Config, h: seq<Call>, key: Key) {
    forall i, j :: 0 <= i < j < |h| && h[i].key == key && h[j].key == key ==> Earned(cfg, h[j].now - h[i].now) >= 1.0
  }

  lemma {:induction false} BucketDatesFromCall(cfg: Config, h: seq<Call>, key: Key)
    requires ValidConfig(cfg) && Monotone(h)
    ensures key in Run(cfg, h).clients ==>
              && Run(cfg, h).clients[key].tokens >= 0.0
              && exists i :: 0 <= i < |h| && h[i].key == key && h[i].now == Run(cfg, h).clients[key].updated
  {
    if h != [] {
      var before, c := h[..|h| - 1], h[|h| - 1];
      BucketDatesFromCall(cfg, before, key);
      var l := Run(cfg, before);
      if c.key == key {
        TakenInRange(Lookup(Pruned(l, c.now).clients, key), cfg, c.now);
      } else if key in Run(cfg, h).clients {
        var i :| 0 <= i < |before| && before[i].key == key && before[i].now == l.clients[key].updated;
        assert h[i] == before[i];
      }
    }
  }

  lemma {:induction false} SpacedBucketGrants(cfg: Config, b: Bucket, now: real)
    requires ValidConfig(cfg) && b.tokens >= 0.0 && Earned(cfg, now - b.updated) >= 1.0
    ensures Grants(Some(b), cfg, now)
  {
  }

  lemma {:induction false} PatientCallAdmitted(cfg: Config, before: seq<Call>, c: Call)
    requires ValidConfig(cfg) && Monotone(before + [c]) && Spaced(cfg, before + [c], c.key)
    ensures Allows(Run(cfg, before), cfg, c)
  {
    var h := before + [c];
    assert forall i :: 0 <= i < |before| ==> before[i] == h[i];
    BucketDatesFromCall(cfg, before, c.key);
    var l := Run(cfg, before);
    if c.key in Pruned(l, c.now).clients {
      var k :| 0 <= k < |before| && before[k].key == c.key && before[k].now == l.clients[c.key].updated;
      assert Earned(cfg, h[|before|].now - h[k].now) >= 1.0;
      SpacedBucketGrants(cfg, l.clients[c.key], c.now);
    } else {
      assert Earned(cfg, c.now - c.now) == 0.0;
    }
  }

  /**
   A client that spaces its calls at least 1/rate apart is always admitted, whatever others do and
   whatever is pruned.
   */
  lemma {:induction false} PatientClientAdmitted(cfg: Config, h: seq<Call>, key: Key, i: nat)
    requires ValidConfig(cfg) && Monotone(h) && Spaced(cfg, h, key)
    requires i < |h| && h[i].key == key
    ensures Decisions(cfg, h)[i]
    decreases |h|
  {
    var before, c := h[..|h| - 1], h[|h| - 1];
    if i < |h| - 1 {
      PatientClientAdmitted(cfg, before, key, i);
    } else {
      assert before + [c] == h;
      PatientCallAdmitted(cfg, before, c);
    }
  }

  // ---------- the code ----------

  class TokenBuckets {
    var clients: map<Key, Bucket>
    var lastPrune: real
    const cfg: Config

    ghost function State(): Limiter
      reads this
    {
      Limiter(clients, lastPrune)
    }

    constructor (rate: real, burst: int)
      ensures cfg == Config(rate, burst) && State() == Run(cfg, [])
    {
      clients, lastPrune, cfg := map[], NEVER, Config(rate, burst);
    }

    method Allow(key: Key, now: real) returns (ok: bool)
      modifies this
      ensures ok == Allows(old(State()), cfg, Call(key, now))
      ensures State() == After(old(State()), cfg, Call(key, now))
    {
      if lastPrune == NEVER || now - lastPrune > PRUNE_EVERY {
        Prune(now);
        lastPrune := now;
      }
      var item := if key in clients then clients[key] else Bucket(cfg.burst as real, now);
      item := item.(tokens := item.tokens + Earned(cfg, now - item.updated));
      if item.tokens > cfg.burst as real {
        item := item.(tokens := cfg.burst as real);
      }
      item := item.(updated := now);
      if item.tokens < 1.0 {
        clients := clients[key := item];
        return false;
      }
      item := item.(tokens := item.tokens - 1.0);
      clients := clients[key := item];
      return true;
    }

    method Prune(now: real)
      modifies this`clients
      ensures clients == Active(old(clients), now)
    {
      var left := clients.Keys;
      while left != {}
        invariant left <= old(clients).Keys
        invariant clients == map id | id in old(clients)
                  && (id in left || now - old(clients)[id].updated <= IDLE_LIMIT) :: old(clients)[id]
        decreases left
      {
        var id :| id in left;
        if now - clients[id].updated > IDLE_LIMIT {
          clients := clients - {id};
        }
        left := left - {id};
      }
    }
  }
}

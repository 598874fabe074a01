/** Exactly which calls the token buckets deny, and what a denial costs: nothing. */
module Admission {
  import opened Durations
  import opened RateLimiter

  // ---------- a call is denied exactly when some window is spent ----------

  /** Admitting one more call now would exceed one burst and the refill since `from`. */
  ghost predicate WindowSpent(cfg: Config, before: seq<Call>, d: seq<bool>, c: Call, from: real)
    requires |d| == |before|
  {
    from <= c.now && Admitted(before, d, c.key, from, c.now) as real + 1.0 > cfg.burst as real +
        Earned(cfg, c.now - from)
  }

  ghost predicate SomeWindowSpent(cfg: Config, before: seq<Call>, d: seq<bool>, c: Call)
    requires |d| == |before|
  {
    exists from :: WindowSpent(cfg, before, d, c, from)
  }

  /** Since `from` the bucket has kept everything it earned. */
  ghost predicate FullAt(cfg: Config, h: seq<Call>, key: Key, from: real, to: real) {
    var own := OwnBucket(cfg, h, key);
    && own.Some? && from <= own.value.updated
    && Admitted(h, OwnDecisions(cfg, h), key, from, to) as real + own.value.tokens >=
       cfg.burst as real + Earned(cfg, own.value.updated - from)
  }

  lemma {:induction false} OneMoreOwn(cfg: Config, h: seq<Call>, c: Call, key: Key, from: real, to: real)
    ensures OwnDecisions(cfg, h + [c]) == OwnDecisions(cfg, h) + [Grants(OwnBucket(cfg, h, c.key), cfg, c.now)]
    ensures OwnBucket(cfg, h + [c], key) ==
            if c.key == key then Some(Taken(OwnBucket(cfg, h, key), cfg, c.now)) else OwnBucket(cfg, h, key)
    ensures Admitted(h + [c], OwnDecisions(cfg, h + [c]), key, from, to) ==
            Admitted(h, OwnDecisions(cfg, h), key, from, to) +
            (if c.key == key && Grants(OwnBucket(cfg, h, c.key), cfg, c.now) && from <= c.now <= to then 1 else 0)
  {
    assert (h + [c])[..|h|] == h;
    var d, ok := OwnDecisions(cfg, h), Grants(OwnBucket(cfg, h, c.key), cfg, c.now);
    assert (d + [ok])[..|d|] == d;
  }

  /** The last instant at which the bucket was full is such an instant. */
  lemma {:induction false} LastFull(cfg: Config, h: seq<Call>, key: Key, to: real) returns (from: real)
    requires ValidConfig(cfg) && Monotone(h) && OwnBucket(cfg, h, key).Some?
    requires h[|h| - 1].now <= to
    ensures FullAt(cfg, h, key, from, to)
  {
    var before, c := h[..|h| - 1], h[|h| - 1];
    assert h == before + [c];
    if c.key != key {
      from := LastFull(cfg, before, key, to);
      OneMoreOwn(cfg, before, c, key, from, to);
    } else {
      var own := OwnBucket(cfg, before, key);
      if own.Some? && own.value.tokens + Earned(cfg, c.now - own.value.updated) <= cfg.burst as real {
        from := LastFull(cfg, before, key, to);
        PaidAlways(cfg, before, key, from, to);
        EarnedAdds(cfg, from, own.value.updated, c.now);
      } else {
        from := c.now;
        FullNow(cfg, c.now);
      }
      OneMoreOwn(cfg, before, c, key, from, to);
    }
  }

  lemma {:induction false} FullNow(cfg: Config, now: real)
    ensures Earned(cfg, now - now) == 0.0
  {
  }

  /**
   A never-pruned bucket denies a call exactly when admitting it would make some window that ends
   at it hold more than one burst and the window's refill.
   */
  lemma {:induction false} DeniedIff(cfg: Config, before: seq<Call>, c: Call)
    requires ValidConfig(cfg) && Monotone(before + [c])
    ensures !OwnDecisions(cfg, before + [c])[|before|] <==>
            SomeWindowSpent(cfg, before, OwnDecisions(cfg, before), c)
  {
    var h := before + [c];
    MonotonePrefix(before, c);
    if OwnDecisions(cfg, h)[|before|] {
      forall from ensures !WindowSpent(cfg, before, OwnDecisions(cfg, before), c, from) {
        if from <= c.now {
          OneMoreOwn(cfg, before, c, c.key, from, c.now);
          OwnAdmissionBound(cfg, h, c.key, from, c.now);
        }
      }
    } else {
      var from := SpentWindow(cfg, before, c);
      assert WindowSpent(cfg, before, OwnDecisions(cfg, before), c, from);
    }
  }

  lemma {:induction false} MonotonePrefix(before: seq<Call>, c: Call)
    requires Monotone(before + [c])
    ensures Monotone(before) && forall i :: 0 <= i < |before| ==> before[i].now <= c.now
  {
    var h := before + [c];
    forall i, j | 0 <= i < j < |before| ensures before[i].now <= before[j].now {
      assert h[i] == before[i] && h[j] == before[j];
    }
    forall i | 0 <= i < |before| ensures before[i].now <= c.now {
      assert h[i] == before[i] && h[|before|] == c;
    }
  }

  lemma {:induction false} SpentWindow(cfg: Config, before: seq<Call>, c: Call) returns (from: real)
    requires ValidConfig(cfg) && Monotone(before + [c]) && !OwnDecisions(cfg, before + [c])[|before|]
    ensures WindowSpent(cfg, before, OwnDecisions(cfg, before), c, from)
  {
    MonotonePrefix(before, c);
    var own := OwnBucket(cfg, before, c.key);
    OneMoreOwn(cfg, before, c, c.key, c.now, c.now);
    FullNow(cfg, c.now);
    assert own.Some?;
    BucketHasCall(cfg, before, c.key);
    from := LastFull(cfg, before, c.key, c.now);
    PaidAlways(cfg, before, c.key, from, c.now);
    EarnedAdds(cfg, from, own.value.updated, c.now);
  }

  lemma {:induction false} BucketHasCall(cfg: Config, h: seq<Call>, key: Key)
    requires OwnBucket(cfg, h, key).Some?
    ensures h != []
  {
  }

  /** And so does the limiter, when pruning cannot show. */
  lemma {:induction false} LimiterDeniesIff(cfg: Config, before: seq<Call>, c: Call)
    requires ValidConfig(cfg) && cfg.burst as real <= Earned(cfg, IDLE_LIMIT) && Monotone(before + [c])
    ensures !Decisions(cfg, before + [c])[|before|] <==>
            SomeWindowSpent(cfg, before, Decisions(cfg, before), c)
  {
    MonotonePrefix(before, c);
    PruningIsTransparent(cfg, before);
    PruningIsTransparent(cfg, before + [c]);
    DeniedIff(cfg, before, c);
  }

  // ---------- denials are free ----------

  /** Two buckets that no later call can tell apart. */
  ghost predicate SameWorth(a: Option<Bucket>, b: Option<Bucket>, cfg: Config, now: real) {
    forall later :: later >= now ==> Refilled(a, cfg, later) == Refilled(b, cfg, later)
  }

  lemma {:induction false} RefilledTwice(cfg: Config, b: Option<Bucket>, now: real, later: real)
    requires ValidConfig(cfg) && now <= later
    ensures Refilled(Some(Refilled(b, cfg, now)), cfg, later) == Refilled(b, cfg, later)
  {
    EarnedNonNegative(cfg, later - now);
    FullNow(cfg, now);
    FullNow(cfg, later);
    if b.Some? {
      EarnedAdds(cfg, b.value.updated, now, later);
    }
  }

  /** What is left of a sequence when only the marked entries are kept. */
  function Kept<T>(s: seq<T>, keep: seq<bool>): seq<T>
    requires |keep| == |s|
  {
    if s == [] then []
    else
      var n := |s| - 1;
      Kept(s[..n], keep[..n]) + (if keep[n] then [s[n]] else [])
  }

  /** Every call that is left out was denied. */
  ghost predicate OnlyDeniedDropped(d: seq<bool>, keep: seq<bool>) {
    |keep| == |d| && forall i :: 0 <= i < |d| && !keep[i] ==> !d[i]
  }

  lemma {:induction false} KeptOfMore<T>(s: seq<T>, keep: seq<bool>, x: T, k: bool)
    requires |keep| == |s|
    ensures Kept(s + [x], keep + [k]) == Kept(s, keep) + (if k then [x] else [])
  {
    assert (s + [x])[..|s|] == s && (keep + [k])[..|s|] == keep;
  }

  lemma {:induction false} KeptIn<T>(s: seq<T>, keep: seq<bool>)
    requires |keep| == |s|
    ensures forall x :: x in Kept(s, keep) ==> x in s
  {
    if s != [] {
      KeptIn(s[..|s| - 1], keep[..|s| - 1]);
    }
  }

  lemma {:induction false} KeptIsMonotone(h: seq<Call>, keep: seq<bool>)
    requires |keep| == |h| && Monotone(h)
    ensures Monotone(Kept(h, keep))
  {
    if h != [] {
      var n := |h| - 1;
      KeptIsMonotone(h[..n], keep[..n]);
      KeptIn(h[..n], keep[..n]);
      forall x | x in h[..n] ensures x.now <= h[n].now {
        var i :| 0 <= i < n && h[i] == x;
      }
    }
  }

  lemma {:induction false} WorthStays(cfg: Config, before: seq<Call>, kept: seq<Call>, c: Call, keep: bool, key: Key)
    requires ValidConfig(cfg)
    requires SameWorth(OwnBucket(cfg, kept, key), OwnBucket(cfg, before, key), cfg, c.now)
    requires !keep && c.key == key ==> !Grants(OwnBucket(cfg, before, key), cfg, c.now)
    ensures SameWorth(OwnBucket(cfg, kept + (if keep then [c] else []), key), OwnBucket(cfg, before + [c], key),
                      cfg, c.now)
  {
    OneMoreOwn(cfg, before, c, key, 0.0, 0.0);
    OneMoreOwn(cfg, kept, c, key, 0.0, 0.0);
    var a, b := OwnBucket(cfg, kept, key), OwnBucket(cfg, before, key);
    assert kept + [] == kept;
    if c.key == key {
      assert Refilled(a, cfg, c.now) == Refilled(b, cfg, c.now);
      if !keep {
        forall later | later >= c.now
            ensures Refilled(a, cfg, later) == Refilled(Some(Refilled(b, cfg, c.now)), cfg, later) {
          RefilledTwice(cfg, b, c.now, later);
        }
      }
    }
  }

  lemma {:induction false} DenialsLeaveWorth(cfg: Config, h: seq<Call>, keep: seq<bool>, key: Key, now: real)
    requires ValidConfig(cfg) && Monotone(h) && OnlyDeniedDropped(OwnDecisions(cfg, h), keep)
    requires h != [] ==> h[|h| - 1].now <= now
    ensures SameWorth(OwnBucket(cfg, Kept(h, keep), key), OwnBucket(cfg, h, key), cfg, now)
  {
    if h != [] {
      var n := |h| - 1;
      var before, c := h[..n], h[n];
      assert h == before + [c] && keep == keep[..n] + [keep[n]];
      OneMoreOwn(cfg, before, c, key, 0.0, 0.0);
      DenialsLeaveWorth(cfg, before, keep[..n], key, c.now);
      WorthStays(cfg, before, Kept(before, keep[..n]), c, keep[n], key);
    }
  }

  /** Leaving out denied calls, any of them, changes the decision on no other call. */
  lemma {:induction false} DenialsAreFree(cfg: Config, h: seq<Call>, keep: seq<bool>)
    requires ValidConfig(cfg) && Monotone(h) && OnlyDeniedDropped(OwnDecisions(cfg, h), keep)
    ensures OwnDecisions(cfg, Kept(h, keep)) == Kept(OwnDecisions(cfg, h), keep)
  {
    if h != [] {
      var n := |h| - 1;
      var before, c := h[..n], h[n];
      assert h == before + [c] && keep == keep[..n] + [keep[n]];
      OneMoreOwn(cfg, before, c, c.key, 0.0, 0.0);
      DenialsAreFree(cfg, before, keep[..n]);
      DenialsLeaveWorth(cfg, before, keep[..n], c.key, c.now);
      OneMoreOwn(cfg, Kept(before, keep[..n]), c, c.key, 0.0, 0.0);
      KeptOfMore(OwnDecisions(cfg, before), keep[..n], Grants(OwnBucket(cfg, before, c.key), cfg, c.now), keep[n]);
      assert Refilled(OwnBucket(cfg, Kept(before, keep[..n]), c.key), cfg, c.now) ==
          Refilled(OwnBucket(cfg, before, c.key), cfg, c.now);
      assert Kept(before, keep[..n]) + [] == Kept(before, keep[..n]);
    }
  }

  lemma {:induction false} LimiterDenialsAreFree(cfg: Config, h: seq<Call>, keep: seq<bool>)
    requires ValidConfig(cfg) && cfg.burst as real <= Earned(cfg, IDLE_LIMIT) && Monotone(h)
    requires OnlyDeniedDropped(Decisions(cfg, h), keep)
    ensures Decisions(cfg, Kept(h, keep)) == Kept(Decisions(cfg, h), keep)
  {
    KeptIsMonotone(h, keep);
    PruningIsTransparent(cfg, h);
    PruningIsTransparent(cfg, Kept(h, keep));
    DenialsAreFree(cfg, h, keep);
  }
}

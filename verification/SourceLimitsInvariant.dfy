/**
 What every run of the limiter keeps: the idle queues hold exactly the sources without a
 connection, the counters agree with the live permits, the caps and the table size hold, and
 buckets stay between empty and full.
 */
module SourceLimitsInvariant {
  import opened Basics
  import opened SourceLimits

  // Idle queues

  lemma {:induction false} WithoutAbsent(s: seq<SourceKey>, x: SourceKey)
    requires x !in s
    ensures Without(s, x) == s
  {
    if s != [] {
      WithoutAbsent(s[1..], x);
      assert s == [s[0]] + s[1..];
    }
  }

  lemma {:induction false} WithoutKeeps(s: seq<SourceKey>, x: SourceKey)
    ensures forall y :: y in Without(s, x) <==> y in s && y != x
    ensures Distinct(s) ==> Distinct(Without(s, x))
  {
    if s != [] {
      var rest := Without(s[1..], x);
      WithoutKeeps(s[1..], x);
      assert s == [s[0]] + s[1..];
      if Distinct(s) {
        assert s[0] !in rest;
        assert Distinct(rest) && Distinct([s[0]] + rest);
      }
    }
  }

  ghost predicate Idle(t: Tracker, k: SourceKey) {
    k in t.refilled || k in t.limited
  }

  ghost predicate QueuesSound(t: Tracker) {
    && Distinct(t.refilled) && Distinct(t.limited)
    && (forall k | k in t.refilled :: k in t.sources && k !in t.limited)
    && (forall k | k in t.limited :: k in t.sources)
  }

  /** The queues are sound, and complete for every tracked source but `x`. */
  ghost predicate QueuesBut(t: Tracker, x: SourceKey) {
    QueuesSound(t) && forall k | k in t.sources && k != x :: Idle(t, k) <==> t.sources[k].active == 0
  }

  ghost predicate QueuesOk(t: Tracker) {
    QueuesSound(t) && forall k | k in t.sources :: Idle(t, k) <==> t.sources[k].active == 0
  }

  lemma RemoveIdleQueues(t: Tracker, x: SourceKey)
    requires QueuesBut(t, x)
    ensures QueuesBut(RemoveIdle(t, x), x) && !Idle(RemoveIdle(t, x), x)
  {
    WithoutKeeps(t.refilled, x);
    WithoutKeeps(t.limited, x);
  }

  lemma PushIdleQueues(t: Tracker, x: SourceKey, idle: IdleClass)
    requires QueuesBut(t, x) && x in t.sources && t.sources[x].active == 0
    ensures QueuesOk(PushIdle(t, x, idle))
  {
    RemoveIdleQueues(t, x);
  }

  // Counting

  ghost function Members(sources: map<SourceKey, Account>, a: PrefixKey): (r: set<SourceKey>) {
    set k | k in sources && PrefixOf(k) == a
  }

  ghost function Total(sources: map<SourceKey, Account>, keys: set<SourceKey>): (r: nat)
    requires keys <= sources.Keys
  {
    if keys == {} then 0 else
      var k :| k in keys;
      sources[k].active + Total(sources, keys - {k})
  }

  lemma {:induction false} TotalWithout(sources: map<SourceKey, Account>, keys: set<SourceKey>, x: SourceKey)
    requires keys <= sources.Keys && x in keys
    ensures Total(sources, keys) == sources[x].active + Total(sources, keys - {x})
    decreases |keys|
  {
    var k :| k in keys && Total(sources, keys) == sources[k].active + Total(sources, keys - {k});
    if k != x {
      TotalWithout(sources, keys - {k}, x);
      TotalWithout(sources, keys - {x}, k);
      assert keys - {k} - {x} == keys - {x} - {k};
    }
  }

  lemma {:induction false} TotalFrame(m: map<SourceKey, Account>, n: map<SourceKey, Account>, keys: set<SourceKey>)
    requires keys <= m.Keys && keys <= n.Keys
    requires forall k | k in keys :: m[k].active == n[k].active
    ensures Total(m, keys) == Total(n, keys)
    decreases |keys|
  {
    if keys != {} {
      var k :| k in keys;
      TotalWithout(m, keys, k);
      TotalWithout(n, keys, k);
      TotalFrame(m, n, keys - {k});
    }
  }

  ghost predicate PrefixOk(t: Tracker, a: PrefixKey) {
    var members := Members(t.sources, a);
    && (a in t.prefixes <==> members != {})
    && (a in t.prefixes ==> t.prefixes[a].tracked == |members| && t.prefixes[a].active == Total(t.sources, members))
  }

  ghost predicate PrefixesOk(t: Tracker) {
    forall a :: PrefixOk(t, a)
  }

  /** Changing only what the counters do not count keeps the prefix table right. */
  lemma PrefixesFrame(t: Tracker, u: Tracker)
    requires PrefixesOk(t)
    requires u.sources.Keys == t.sources.Keys && u.prefixes.Keys == t.prefixes.Keys
    requires forall k | k in t.sources :: u.sources[k].active == t.sources[k].active
    requires forall a | a in t.prefixes ::
               u.prefixes[a].active == t.prefixes[a].active && u.prefixes[a].tracked == t.prefixes[a].tracked
    ensures PrefixesOk(u)
  {
    forall a ensures PrefixOk(u, a) {
      assert PrefixOk(t, a);
      assert Members(u.sources, a) == Members(t.sources, a);
      TotalFrame(t.sources, u.sources, Members(t.sources, a));
    }
  }

  lemma TrackPrefixes(c: Config, t: Tracker, x: SourceKey, now: real)
    requires PrefixesOk(t) && x !in t.sources
    ensures PrefixesOk(Track(c, t, x, now))
  {
    forall a ensures PrefixOk(Track(c, t, x, now), a) {
      assert PrefixOk(t, a);
      TrackPrefix(c, t, x, now, a);
    }
  }

  /** Adding a source without connections adds one member to its prefix and nothing else. */
  lemma AddedMember(sources: map<SourceKey, Account>, x: SourceKey, e: Account, a: PrefixKey)
    requires x !in sources && e.active == 0
    ensures var grown := sources[x := e];
            && (a == PrefixOf(x) ==> x in Members(grown, a))
            && |Members(grown, a)| == |Members(sources, a)| + (if a == PrefixOf(x) then 1 else 0)
            && Total(grown, Members(grown, a)) == Total(sources, Members(sources, a))
  {
    var grown := sources[x := e];
    assert grown - {x} == sources;
    RemovedMember(grown, x, a);
  }

  lemma TrackPrefix(c: Config, t: Tracker, x: SourceKey, now: real, a: PrefixKey)
    requires PrefixOk(t, a) && x !in t.sources
    ensures PrefixOk(Track(c, t, x, now), a)
  {
    AddedMember(t.sources, x, Track(c, t, x, now).sources[x], a);
    assert Members(t.sources, a) == {} <==> |Members(t.sources, a)| == 0;
    var after := Members(Track(c, t, x, now).sources, a);
    assert after == {} <==> |after| == 0;
  }

  lemma EvictPrefixes(t: Tracker, x: SourceKey)
    requires PrefixesOk(t) && x in t.sources && t.sources[x].active == 0
    ensures PrefixesOk(Evict(t, x))
  {
    forall a ensures PrefixOk(Evict(t, x), a) {
      assert PrefixOk(t, a);
      EvictPrefix(t, x, a);
    }
  }

  lemma RemovedMember(sources: map<SourceKey, Account>, x: SourceKey, a: PrefixKey)
    requires x in sources && sources[x].active == 0
    ensures var shrunk := sources - {x};
            && (a == PrefixOf(x) ==> x in Members(sources, a))
            && |Members(shrunk, a)| == |Members(sources, a)| - (if a == PrefixOf(x) then 1 else 0)
            && Total(shrunk, Members(shrunk, a)) == Total(sources, Members(sources, a))
            && (Members(shrunk, a) == {} ==> Total(sources, Members(sources, a)) == 0)
  {
    var shrunk := sources - {x};
    var before, after := Members(sources, a), Members(shrunk, a);
    TotalFrame(sources, shrunk, after);
    if a == PrefixOf(x) {
      assert x in before && after == before - {x};
      TotalWithout(sources, before, x);
    } else {
      assert after == before;
    }
    assert after == {} ==> Total(shrunk, after) == 0;
  }

  lemma EvictPrefix(t: Tracker, x: SourceKey, a: PrefixKey)
    requires PrefixOk(t, a) && x in t.sources && t.sources[x].active == 0
    ensures PrefixOk(Evict(t, x), a)
  {
    RemovedMember(t.sources, x, a);
    assert Members(t.sources, a) == {} <==> |Members(t.sources, a)| == 0;
    var after := Members(t.sources - {x}, a);
    assert after == {} <==> |after| == 0;
  }

  /** One source's and its prefix's counters move together. */
  lemma MovePrefixes(t: Tracker, u: Tracker, x: SourceKey)
    requires PrefixesOk(t) && x in t.sources
    requires u.sources.Keys == t.sources.Keys && u.prefixes.Keys == t.prefixes.Keys && PrefixOf(x) in t.prefixes
    requires forall k | k in t.sources && k != x :: u.sources[k].active == t.sources[k].active
    requires forall a | a in t.prefixes :: u.prefixes[a].tracked == t.prefixes[a].tracked
    requires forall a | a in t.prefixes && a != PrefixOf(x) :: u.prefixes[a].active == t.prefixes[a].active
    requires u.prefixes[PrefixOf(x)].active - t.prefixes[PrefixOf(x)].active ==
             u.sources[x].active - t.sources[x].active
    ensures PrefixesOk(u)
  {
    forall a ensures PrefixOk(u, a) {
      assert PrefixOk(t, a);
      var members := Members(t.sources, a);
      assert Members(u.sources, a) == members;
      if a == PrefixOf(x) {
        TotalWithout(t.sources, members, x);
        TotalWithout(u.sources, members, x);
        TotalFrame(t.sources, u.sources, members - {x});
      } else {
        TotalFrame(t.sources, u.sources, members);
      }
    }
  }

  /** A source's connections are part of its prefix's. */
  lemma SourceWithinPrefix(t: Tracker, x: SourceKey)
    requires PrefixesOk(t) && x in t.sources
    ensures PrefixOf(x) in t.prefixes && t.sources[x].active <= t.prefixes[PrefixOf(x)].active
  {
    var a := PrefixOf(x);
    assert PrefixOk(t, a);
    assert x in Members(t.sources, a);
    TotalWithout(t.sources, Members(t.sources, a), x);
  }

  // The whole invariant

  /** The live permits, counted by source. */
  type Permits = multiset<SourceKey>

  ghost predicate PermitsOk(t: Tracker, permits: Permits) {
    forall k :: permits[k] == if k in t.sources then t.sources[k].active else 0
  }

  ghost predicate CapsOk(c: Config, t: Tracker) {
    && (forall k | k in t.sources :: t.sources[k].active <= c.maxConnections)
    && (forall a | a in t.prefixes :: t.prefixes[a].active <= c.prefixMaxConnections)
  }

  ghost predicate BucketOk(b: Bucket, burst: nat) {
    0.0 <= b.tokens <= burst as real
  }

  ghost predicate BucketsOk(c: Config, t: Tracker) {
    && (forall k | k in t.sources ::
          BucketOk(t.sources[k].requests, c.requestBurst) && BucketOk(t.sources[k].connections, c.connectionBurst))
    && (forall a | a in t.prefixes :: BucketOk(t.prefixes[a].connections, c.connectionBurst))
  }

  /** Everything but the queues and the prefix table. */
  ghost predicate LimitsOk(c: Config, t: Tracker, permits: Permits) {
    PermitsOk(t, permits) && CapsOk(c, t) && BucketsOk(c, t) && |t.sources| <= c.tableCapacity
  }

  ghost predicate Inv(c: Config, t: Tracker, permits: Permits) {
    QueuesOk(t) && PrefixesOk(t) && LimitsOk(c, t, permits)
  }

  /** Steps that move only tokens and times. */
  lemma TouchKeeps(c: Config, t: Tracker, u: Tracker, permits: Permits)
    requires Inv(c, t, permits) && BucketsOk(c, u)
    requires u.refilled == t.refilled && u.limited == t.limited
    requires u.sources.Keys == t.sources.Keys && u.prefixes.Keys == t.prefixes.Keys
    requires forall k | k in t.sources :: u.sources[k].active == t.sources[k].active
    requires forall a | a in t.prefixes ::
               u.prefixes[a].active == t.prefixes[a].active && u.prefixes[a].tracked == t.prefixes[a].tracked
    ensures Inv(c, u, permits)
  {
    PrefixesFrame(t, u);
    assert |u.sources| == |u.sources.Keys| == |t.sources.Keys| == |t.sources|;
  }

  lemma PushKeeps(c: Config, t: Tracker, x: SourceKey, idle: IdleClass, permits: Permits)
    requires Inv(c, t, permits) && x in t.sources && t.sources[x].active == 0
    ensures Inv(c, PushIdle(t, x, idle), permits)
  {
    PushIdleQueues(t, x, idle);
    PrefixesFrame(t, PushIdle(t, x, idle));
  }

  /** A source that holds a live permit is never the victim. */
  lemma VictimIdle(t: Tracker, now: real, expiry: real)
    requires QueuesOk(t)
    ensures Victim(t, now, expiry).None? <==> forall k | k in t.sources :: t.sources[k].active > 0
    ensures Victim(t, now, expiry).Some? ==>
              var v := Victim(t, now, expiry).value; v in t.sources && t.sources[v].active == 0
  {
    if Victim(t, now, expiry).None? {
      forall k | k in t.sources ensures t.sources[k].active > 0 {
        assert !Idle(t, k);
      }
    } else {
      assert Idle(t, Victim(t, now, expiry).value);
    }
  }

  lemma EvictQueues(t: Tracker, x: SourceKey)
    requires QueuesOk(t)
    ensures QueuesOk(Evict(t, x))
  {
    RemoveIdleQueues(t, x);
  }

  lemma EvictSize(t: Tracker, x: SourceKey)
    requires x in t.sources
    ensures |Evict(t, x).sources| == |t.sources| - 1
  {
    var u := Evict(t, x);
    assert u.sources.Keys == t.sources.Keys - {x};
    assert |u.sources.Keys| == |t.sources.Keys| - 1;
  }

  lemma EvictLimits(c: Config, t: Tracker, x: SourceKey, permits: Permits)
    requires LimitsOk(c, t, permits) && x in t.sources && t.sources[x].active == 0
    ensures LimitsOk(c, Evict(t, x), permits)
  {
    EvictSize(t, x);
  }

  lemma EvictKeeps(c: Config, t: Tracker, x: SourceKey, permits: Permits)
    requires Inv(c, t, permits) && x in t.sources && t.sources[x].active == 0
    ensures Inv(c, Evict(t, x), permits) && |Evict(t, x).sources| == |t.sources| - 1
  {
    EvictQueues(t, x);
    EvictPrefixes(t, x);
    EvictSize(t, x);
    EvictLimits(c, t, x, permits);
  }

  lemma TrackQueues(c: Config, t: Tracker, x: SourceKey, now: real)
    requires QueuesOk(t) && x !in t.sources
    ensures QueuesOk(Track(c, t, x, now))
  {
    var u := Track(c, t, x, now);
    PushIdleQueues(t.(sources := u.sources, prefixes := u.prefixes), x, Refilled);
  }

  lemma TrackSize(c: Config, t: Tracker, x: SourceKey, now: real)
    requires x !in t.sources
    ensures |Track(c, t, x, now).sources| == |t.sources| + 1
  {
    var u := Track(c, t, x, now);
    assert u.sources.Keys == t.sources.Keys + {x};
    assert |u.sources.Keys| == |t.sources.Keys| + 1;
  }

  lemma TrackLimits(c: Config, t: Tracker, x: SourceKey, now: real, permits: Permits)
    requires LimitsOk(c, t, permits) && x !in t.sources && |t.sources| < c.tableCapacity
    ensures LimitsOk(c, Track(c, t, x, now), permits)
  {
    TrackSize(c, t, x, now);
  }

  lemma TrackKeeps(c: Config, t: Tracker, x: SourceKey, now: real, permits: Permits)
    requires Inv(c, t, permits) && x !in t.sources && |t.sources| < c.tableCapacity
    ensures Inv(c, Track(c, t, x, now), permits) && x in Track(c, t, x, now).sources
  {
    TrackQueues(c, t, x, now);
    TrackPrefixes(c, t, x, now);
    TrackLimits(c, t, x, now, permits);
  }

  lemma AdmitKeeps(c: Config, t: Tracker, x: SourceKey, now: real, permits: Permits)
    requires Inv(c, t, permits) && c.tableCapacity >= 1
    ensures Admit(c, t, x, now).Some? ==>
              var u := Admit(c, t, x, now).value; Inv(c, u, permits) && x in u.sources
  {
    VictimIdle(t, now, c.idleExpiry);
    if x !in t.sources && Admit(c, t, x, now).Some? {
      if |t.sources| >= c.tableCapacity {
        var v := Victim(t, now, c.idleExpiry).value;
        EvictKeeps(c, t, v, permits);
        TrackKeeps(c, Evict(t, v), x, now, permits);
      } else {
        TrackKeeps(c, t, x, now, permits);
      }
    }
  }

  lemma SpendKeeps(c: Config, t: Tracker, x: SourceKey, now: real, permits: Permits)
    requires Inv(c, t, permits) && x in t.sources
    ensures Inv(c, Spend(c, t, x, now).0, permits)
  {
    TouchKeeps(c, t, Spend(c, t, x, now).0, permits);
  }

  lemma SpendPrefixKeeps(c: Config, t: Tracker, a: PrefixKey, now: real, permits: Permits)
    requires Inv(c, t, permits) && a in t.prefixes
    ensures Inv(c, SpendPrefix(c, t, a, now).0, permits)
  {
    TouchKeeps(c, t, SpendPrefix(c, t, a, now).0, permits);
  }

  lemma OpenQueues(t: Tracker, x: SourceKey)
    requires QueuesOk(t) && x in t.sources && PrefixOf(x) in t.prefixes
    ensures QueuesOk(Open(t, x))
  {
    hide PrefixOf, Distinct;
    RemoveIdleQueues(t, x);
  }

  lemma OpenLimits(c: Config, t: Tracker, x: SourceKey, permits: Permits)
    requires LimitsOk(c, t, permits) && x in t.sources && PrefixOf(x) in t.prefixes
    requires t.sources[x].active < c.maxConnections && t.prefixes[PrefixOf(x)].active < c.prefixMaxConnections
    ensures LimitsOk(c, Open(t, x), permits + multiset{x})
  {
    assert Open(t, x).sources.Keys == t.sources.Keys;
  }

  lemma OpenKeeps(c: Config, t: Tracker, x: SourceKey, permits: Permits)
    requires Inv(c, t, permits) && x in t.sources && PrefixOf(x) in t.prefixes
    requires t.sources[x].active < c.maxConnections && t.prefixes[PrefixOf(x)].active < c.prefixMaxConnections
    ensures Inv(c, Open(t, x), permits + multiset{x})
  {
    OpenQueues(t, x);
    MovePrefixes(t, Open(t, x), x);
    OpenLimits(c, t, x, permits);
  }

  ghost function Held(permits: Permits, o: Outcome): (r: Permits) {
    if o.Granted? && o.key.Some? then permits + multiset{o.key.value} else permits
  }

  lemma ChargeKeeps(c: Config, t: Tracker, x: SourceKey, now: real, permits: Permits)
    requires Inv(c, t, permits) && x in t.sources
    ensures var (u, o) := Charge(c, t, x, now); Inv(c, u, Held(permits, o)) && o != Refused(TrackingCapacity)
  {
    SourceWithinPrefix(t, x);
    SpendKeeps(c, t, x, now, permits);
    var (u, limited) := Spend(c, t, x, now);
    if limited {
      if t.sources[x].active == 0 {
        PushKeeps(c, u, x, Limited, permits);
      }
    } else {
      SpendPrefixKeeps(c, u, PrefixOf(x), now, permits);
      var (w, prefixLimited) := SpendPrefix(c, u, PrefixOf(x), now);
      if !prefixLimited && t.sources[x].active < c.maxConnections {
        if w.prefixes[PrefixOf(x)].active < c.prefixMaxConnections {
          OpenKeeps(c, w, x, permits);
        } else if t.sources[x].active == 0 {
          PushKeeps(c, w, x, Limited, permits);
        }
      }
    }
  }

  lemma AcquireKeeps(c: Config, t: Tracker, source: IpAddr, now: real, permits: Permits)
    requires Inv(c, t, permits) && c.tableCapacity >= 1
    ensures var (u, o) := Acquire(c, t, source, now); Inv(c, u, Held(permits, o))
  {
    if c.enabled {
      AdmitKeeps(c, t, KeyOf(source), now, permits);
      if Admit(c, t, KeyOf(source), now).Some? {
        ChargeKeeps(c, Admit(c, t, KeyOf(source), now).value, KeyOf(source), now, permits);
      }
    }
  }

  lemma RequestKeeps(c: Config, t: Tracker, x: SourceKey, now: real, permits: Permits)
    requires Inv(c, t, permits)
    ensures Inv(c, Request(c, t, x, now).0, permits)
  {
    if x in t.sources {
      TouchKeeps(c, t, Request(c, t, x, now).0, permits);
    }
  }

  lemma CloseLimits(c: Config, t: Tracker, x: SourceKey, permits: Permits)
    requires LimitsOk(c, t, permits) && x in permits
    ensures LimitsOk(c, Close(t, x), permits - multiset{x})
  {
    hide CapsOk, BucketsOk;
    assert Close(t, x).sources.Keys == t.sources.Keys;
    CloseCaps(c, t, x);
  }

  lemma CloseCaps(c: Config, t: Tracker, x: SourceKey)
    requires CapsOk(c, t) && BucketsOk(c, t)
    ensures CapsOk(c, Close(t, x)) && BucketsOk(c, Close(t, x))
  {
    hide BucketOk;
  }

  lemma SettleQueues(c: Config, t: Tracker, x: SourceKey, now: real)
    requires QueuesBut(t, x) && x in t.sources && t.sources[x].active == 0
    ensures QueuesOk(Settle(c, t, x, now))
  {
    var u := t.(sources := Settle(c, t, x, now).sources);
    PushIdleQueues(u, x, Refilled);
    PushIdleQueues(u, x, Limited);
  }

  lemma SettleLimits(c: Config, t: Tracker, x: SourceKey, now: real, permits: Permits)
    requires LimitsOk(c, t, permits) && x in t.sources
    ensures LimitsOk(c, Settle(c, t, x, now), permits)
  {
    assert Settle(c, t, x, now).sources.Keys == t.sources.Keys;
  }

  lemma SettleKeeps(c: Config, t: Tracker, x: SourceKey, now: real, permits: Permits)
    requires QueuesBut(t, x) && PrefixesOk(t) && LimitsOk(c, t, permits) && x in t.sources && t.sources[x].active == 0
    ensures Inv(c, Settle(c, t, x, now), permits)
  {
    hide QueuesOk, QueuesBut, PrefixesOk, LimitsOk;
    SettleQueues(c, t, x, now);
    PrefixesFrame(t, Settle(c, t, x, now));
    SettleLimits(c, t, x, now, permits);
  }

  lemma PermitHeld(c: Config, t: Tracker, x: SourceKey, permits: Permits)
    requires LimitsOk(c, t, permits) && x in permits
    ensures x in t.sources && t.sources[x].active > 0
  {
    hide CapsOk, BucketsOk;
  }

  /** Releasing a live permit always finds what it decrements, so no counter saturates. */
  lemma ReleaseKeeps(c: Config, t: Tracker, x: SourceKey, now: real, permits: Permits)
    requires Inv(c, t, permits) && x in permits
    ensures x in t.sources && PrefixOf(x) in t.prefixes
    ensures t.sources[x].active > 0 && t.prefixes[PrefixOf(x)].active > 0
    ensures Inv(c, Release(c, t, x, now), permits - multiset{x})
  {
    hide QueuesOk, QueuesBut, PrefixesOk, LimitsOk;
    PermitHeld(c, t, x, permits);
    SourceWithinPrefix(t, x);
    var u := Close(t, x);
    CloseQueues(t, x);
    ClosePrefixes(t, x);
    CloseLimits(c, t, x, permits);
    if u.sources[x].active == 0 {
      SettleKeeps(c, u, x, now, permits - multiset{x});
    }
  }

  lemma CloseQueues(t: Tracker, x: SourceKey)
    requires QueuesOk(t) && x in t.sources && t.sources[x].active > 0
    ensures QueuesBut(Close(t, x), x)
    ensures Close(t, x).sources[x].active > 0 ==> QueuesOk(Close(t, x))
  {
    assert !Idle(t, x);
    assert !Idle(Close(t, x), x);
  }

  lemma ClosePrefixes(t: Tracker, x: SourceKey)
    requires PrefixesOk(t) && x in t.sources && t.sources[x].active > 0
    ensures PrefixesOk(Close(t, x))
  {
    SourceWithinPrefix(t, x);
    MovePrefixes(t, Close(t, x), x);
  }

  lemma EmptyKeeps(c: Config)
    requires c.tableCapacity >= 1
    ensures Inv(c, EMPTY, multiset{})
  {
    forall a ensures PrefixOk(EMPTY, a) {
      assert Members(EMPTY.sources, a) == {};
    }
  }
}

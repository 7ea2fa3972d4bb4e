/**
 Runs of the limiter under any interleaving of its callers: the invariant in every reachable
 state, and when a new source can be refused for want of room.
 */
module SourceLimitsRuns {
  import opened Basics
  import opened SourceLimits
  import opened SourceLimitsInvariant

  datatype Event =
    | Connect(source: IpAddr, now: real)
    | Ask(key: SourceKey, now: real)
    | Drop(key: SourceKey, now: real)

  datatype System = System(tracker: Tracker, permits: Permits)

  const START := System(EMPTY, multiset{})

  /** Requests and drops go through a permit, so they name a key that is held. */
  ghost predicate Possible(s: System, e: Event) {
    e.Connect? || e.key in s.permits
  }

  ghost function Next(c: Config, s: System, e: Event): (r: System) {
    match e
    case Connect(source, now) =>
      var (t, o) := Acquire(c, s.tracker, source, now);
      System(t, Held(s.permits, o))
    case Ask(key, now) => s.(tracker := Request(c, s.tracker, key, now).0)
    case Drop(key, now) => System(Release(c, s.tracker, key, now), s.permits - multiset{key})
  }

  ghost predicate Run(c: Config, states: seq<System>, events: seq<Event>) {
    && |states| == |events| + 1
    && states[0] == START
    && forall i :: 0 <= i < |events| ==>
      Possible(states[i], events[i]) && states[i + 1] == Next(c, states[i], events[i])
  }

  ghost predicate SystemOk(c: Config, s: System) {
    Inv(c, s.tracker, s.permits)
  }

  lemma NextKeeps(c: Config, s: System, e: Event)
    requires SystemOk(c, s) && c.tableCapacity >= 1 && Possible(s, e)
    ensures SystemOk(c, Next(c, s, e))
  {
    match e
    case Connect(source, now) => AcquireKeeps(c, s.tracker, source, now, s.permits);
    case Ask(key, now) => RequestKeeps(c, s.tracker, key, now, s.permits);
    case Drop(key, now) => ReleaseKeeps(c, s.tracker, key, now, s.permits);
  }

  /** Every reachable state satisfies the invariant. */
  lemma {:induction false} RunKeeps(c: Config, states: seq<System>, events: seq<Event>, n: nat)
    requires Run(c, states, events) && c.tableCapacity >= 1 && n <= |events|
    ensures SystemOk(c, states[n])
  {
    if n == 0 {
      EmptyKeeps(c);
    } else {
      RunKeeps(c, states, events, n - 1);
      NextKeeps(c, states[n - 1], events[n - 1]);
    }
  }

  // Capacity

  /** If every tracked source holds a permit, there are at least as many permits as sources. */
  lemma PermitsCoverSources(t: Tracker, permits: Permits)
    requires PermitsOk(t, permits)
    requires forall k | k in t.sources :: t.sources[k].active > 0
    ensures |permits| >= |t.sources|
  {
    var once := multiset(t.sources.Keys);
    assert once <= permits;
    assert permits == once + (permits - once);
    assert |once| == |t.sources.Keys|;
  }

  /** A new source is turned away exactly when the table is full and every entry is in use. */
  lemma RefusedForRoom(c: Config, s: System, source: IpAddr, now: real)
    requires SystemOk(c, s) && c.enabled && c.tableCapacity >= 1
    ensures Acquire(c, s.tracker, source, now).1 == Refused(TrackingCapacity) <==>
            && KeyOf(source) !in s.tracker.sources
            && |s.tracker.sources| == c.tableCapacity
            && forall k | k in s.tracker.sources :: s.tracker.sources[k].active > 0
  {
    VictimIdle(s.tracker, now, c.idleExpiry);
    AdmitKeeps(c, s.tracker, KeyOf(source), now, s.permits);
    if Admit(c, s.tracker, KeyOf(source), now).Some? {
      ChargeKeeps(c, Admit(c, s.tracker, KeyOf(source), now).value, KeyOf(source), now, s.permits);
    }
  }

  /** A global connection limit below the table's capacity rules that refusal out. */
  lemma NeverRefusedForRoom(c: Config, states: seq<System>, events: seq<Event>, n: nat, global: nat)
    requires Run(c, states, events) && n < |events| && events[n].Connect?
    requires c.enabled && global < c.tableCapacity && |states[n].permits| <= global
    ensures Acquire(c, states[n].tracker, events[n].source, events[n].now).1 != Refused(TrackingCapacity)
  {
    RunKeeps(c, states, events, n);
    RefusedForRoom(c, states[n], events[n].source, events[n].now);
    if forall k | k in states[n].tracker.sources :: states[n].tracker.sources[k].active > 0 {
      PermitsCoverSources(states[n].tracker, states[n].permits);
    }
  }

  /** With no expired head, refilled sources go before limited ones; each queue goes oldest first. */
  lemma EvictionOrder(t: Tracker, now: real, expiry: real)
    requires QueuesOk(t) && Victim(t, now, expiry).Some?
    ensures var v := Victim(t, now, expiry).value;
            || (t.refilled != [] && v == t.refilled[0] && Evict(t, v).refilled == t.refilled[1..]
                && Evict(t, v).limited == t.limited)
            || (t.limited != [] && v == t.limited[0] && Evict(t, v).limited == t.limited[1..]
                && Evict(t, v).refilled == t.refilled)
    ensures (&& t.refilled != [] && !Expired(t, t.refilled[0], now, expiry)
             && (t.limited == [] || !Expired(t, t.limited[0], now, expiry)))
            ==> Victim(t, now, expiry).value == t.refilled[0]
  {
    var v := Victim(t, now, expiry).value;
    if t.refilled != [] && v == t.refilled[0] {
      WithoutFirst(t.refilled);
      WithoutAbsent(t.limited, v);
    } else {
      WithoutFirst(t.limited);
      WithoutAbsent(t.refilled, v);
    }
  }

  lemma WithoutFirst(s: seq<SourceKey>)
    requires s != [] && Distinct(s)
    ensures Without(s, s[0]) == s[1..]
  {
    assert s[0] !in s[1..];
    WithoutAbsent(s[1..], s[0]);
  }
}

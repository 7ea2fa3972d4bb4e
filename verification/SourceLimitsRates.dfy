/**
 Rate guarantees. Over a nondecreasing clock a bucket is charged at most its burst plus its rate
 times the length of the window, for as long as it lives.
 */
module SourceLimitsRates {
  import opened Basics
  import opened SourceLimits
  import opened SourceLimitsInvariant
  import opened SourceLimitsRuns

  // One bucket

  /**
   What an event at time `t` does to a bucket. A charge takes one token of the refilled bucket,
   which must be there; without a charge the bucket is refilled or left alone.
   */
  ghost predicate Moves(b: Bucket, t: real, after: Bucket, charge: nat, rate: nat, burst: nat) {
    var filled := Refill(b, t, rate, burst);
    if charge == 0 then after == b || after == filled
    else charge == 1 && filled.tokens >= 1.0 && after == Take(filled)
  }

  ghost function Level(b: Bucket, t: real, rate: nat, burst: nat): (r: real) {
    Refill(b, t, rate, burst).tokens
  }

  ghost function Full(burst: nat, t: real): (r: Bucket) {
    Bucket(burst as real, t)
  }

  lemma AccruedAdds(x: real, y: real, rate: nat)
    ensures Accrued(x + y, rate) == Accrued(x, rate) + Accrued(y, rate)
  {
  }

  lemma LevelGrows(b: Bucket, t: real, u: real, rate: nat, burst: nat)
    requires b.updatedAt <= t <= u
    ensures Level(b, u, rate, burst) <= Level(b, t, rate, burst) + Accrued(u - t, rate)
  {
    AccruedAdds(t - b.updatedAt, u - t, rate);
    assert t - b.updatedAt + (u - t) == u - b.updatedAt;
  }

  /** What is charged and what is left come out of what was there and what accrues. */
  lemma MovesBound(b: Bucket, t: real, after: Bucket, charge: nat, u: real, rate: nat, burst: nat)
    requires Moves(b, t, after, charge, rate, burst) && b.updatedAt <= t <= u
    ensures after.updatedAt <= t
    ensures charge as real + Level(after, u, rate, burst) <= Level(b, t, rate, burst) + Accrued(u - t, rate)
  {
    if after == b {
      LevelGrows(b, t, u, rate, burst);
    } else {
      assert Elapsed(after.updatedAt, u) == u - t;
    }
  }

  // Charges and grants

  /** The table in which a connect charges its source, if it gets that far. */
  ghost function Admitted(c: Config, s: System, e: Event): (r: Option<Tracker>)
    ensures r.Some? ==> e.Connect? && KeyOf(e.source) in r.value.sources
  {
    if e.Connect? && c.enabled then
      var u := Admit(c, s.tracker, KeyOf(e.source), e.now);
      if u.Some? && KeyOf(e.source) in u.value.sources then u else None
    else None
  }

  ghost predicate ChargesSource(c: Config, s: System, e: Event, k: SourceKey) {
    var u := Admitted(c, s, e);
    u.Some? && KeyOf(e.source) == k && !Spend(c, u.value, k, e.now).1
  }

  ghost predicate ChargesPrefix(c: Config, s: System, e: Event, a: PrefixKey) {
    e.Connect? && PrefixOf(KeyOf(e.source)) == a && ChargesSource(c, s, e, KeyOf(e.source)) &&
    var t := Spend(c, Admitted(c, s, e).value, KeyOf(e.source), e.now).0;
    a in t.prefixes && !SpendPrefix(c, t, a, e.now).1
  }

  ghost predicate ChargesRequest(c: Config, s: System, e: Event, k: SourceKey) {
    e.Ask? && e.key == k && Request(c, s.tracker, k, e.now).1
  }

  ghost function GrantedTo(c: Config, s: System, e: Event): (r: Option<SourceKey>) {
    if e.Connect? then
      match Acquire(c, s.tracker, e.source, e.now).1 case Granted(key) => key case Refused(_) => None
    else None
  }

  // A source's two buckets

  /** Making room for one source leaves every other source that survives as it was. */
  lemma AdmitFrame(c: Config, t: Tracker, x: SourceKey, now: real, k: SourceKey)
    requires Admit(c, t, x, now).Some? && k in Admit(c, t, x, now).value.sources
    ensures Admit(c, t, x, now).value.sources[k] ==
            if k in t.sources then t.sources[k]
            else Account(0, Full(c.requestBurst, now), Full(c.connectionBurst, now), now)
    ensures k in t.sources || k == x
  {
  }

  lemma ChargeFrame(c: Config, t: Tracker, x: SourceKey, now: real)
    requires x in t.sources
    ensures var u := Charge(c, t, x, now).0;
            && u.sources.Keys == t.sources.Keys
            && (forall k | k in t.sources && k != x :: u.sources[k] == t.sources[k])
            && u.sources[x].requests == t.sources[x].requests
            && u.sources[x].connections == Spend(c, t, x, now).0.sources[x].connections
  {
    assert Spend(c, t, x, now).0.sources.Keys == t.sources.Keys;
  }

  lemma ReleaseRefills(c: Config, t: Tracker, x: SourceKey, now: real, k: SourceKey)
    requires k in Release(c, t, x, now).sources
    ensures k in t.sources
    ensures Moves(t.sources[k].connections, now, Release(c, t, x, now).sources[k].connections, 0,
                  c.connectionRate, c.connectionBurst)
    ensures Moves(t.sources[k].requests, now, Release(c, t, x, now).sources[k].requests, 0,
                  c.requestRate, c.requestBurst)
  {
  }

  /** The account an event finds, or the new one it makes. */
  ghost function AccountBefore(c: Config, s: System, e: Event, k: SourceKey): (r: Account) {
    if k in s.tracker.sources then s.tracker.sources[k]
    else Account(0, Full(c.requestBurst, e.now), Full(c.connectionBurst, e.now), e.now)
  }

  lemma ConnectMoves(c: Config, s: System, e: Event, k: SourceKey)
    requires e.Connect? && k in Next(c, s, e).tracker.sources
    ensures var before, after := AccountBefore(c, s, e, k), Next(c, s, e).tracker.sources[k];
            && Moves(before.connections, e.now, after.connections, if ChargesSource(c, s, e, k) then 1 else 0,
                     c.connectionRate, c.connectionBurst)
            && after.requests == before.requests
  {
    hide Moves, Charge;
    var x := KeyOf(e.source);
    if c.enabled && Admit(c, s.tracker, x, e.now).Some? {
      var u := Admit(c, s.tracker, x, e.now).value;
      if x in u.sources {
        ChargeFrame(c, u, x, e.now);
        SpendMoves(c, u, x, e.now);
      }
      AdmitFrame(c, s.tracker, x, e.now, k);
    }
    IdleMoves(AccountBefore(c, s, e, k).connections, e.now, c.connectionRate, c.connectionBurst);
  }

  lemma IdleMoves(b: Bucket, t: real, rate: nat, burst: nat)
    ensures Moves(b, t, b, 0, rate, burst)
  {
  }

  lemma SpendMoves(c: Config, t: Tracker, x: SourceKey, now: real)
    requires x in t.sources
    ensures Moves(t.sources[x].connections, now, Spend(c, t, x, now).0.sources[x].connections,
                  if Spend(c, t, x, now).1 then 0 else 1, c.connectionRate, c.connectionBurst)
  {
  }

  lemma AccountMoves(c: Config, s: System, e: Event, k: SourceKey)
    requires k in Next(c, s, e).tracker.sources
    ensures var before, after := AccountBefore(c, s, e, k), Next(c, s, e).tracker.sources[k];
            && Moves(before.connections, e.now, after.connections, if ChargesSource(c, s, e, k) then 1 else 0,
                     c.connectionRate, c.connectionBurst)
            && Moves(before.requests, e.now, after.requests, if ChargesRequest(c, s, e, k) then 1 else 0,
                     c.requestRate, c.requestBurst)
  {
    match e
    case Ask(_, _) =>
    case Drop(x, now) => ReleaseRefills(c, s.tracker, x, now, k);
    case Connect(_, _) =>
      ConnectMoves(c, s, e, k);
  }

  // A prefix's bucket

  /**
   A connect on a full table that evicts the only source of the newcomer's own prefix: the
   prefix is forgotten and made anew in one step, with a full bucket.
   */
  ghost predicate Renewed(c: Config, s: System, e: Event, a: PrefixKey) {
    && e.Connect? && c.enabled && PrefixOf(KeyOf(e.source)) == a
    && KeyOf(e.source) !in s.tracker.sources && |s.tracker.sources| >= c.tableCapacity
    && var v := Victim(s.tracker, e.now, c.idleExpiry);
       v.Some? && Members(s.tracker.sources, a) == {v.value}
  }

  /** The bucket an event finds, or the full one of a prefix it makes or makes anew. */
  ghost function PrefixBefore(c: Config, s: System, e: Event, a: PrefixKey): (r: Bucket) {
    if a in s.tracker.prefixes && !Renewed(c, s, e, a) then s.tracker.prefixes[a].connections
    else Full(c.connectionBurst, e.now)
  }

  lemma EvictPrefixBucket(t: Tracker, v: SourceKey, a: PrefixKey)
    requires PrefixesOk(t) && v in t.sources && t.sources[v].active == 0
    ensures a in Evict(t, v).prefixes <==> a in t.prefixes && Members(t.sources, a) != {v}
    ensures a in Evict(t, v).prefixes ==> Evict(t, v).prefixes[a].connections == t.prefixes[a].connections
  {
    EvictPrefixes(t, v);
    assert PrefixOk(t, a) && PrefixOk(Evict(t, v), a);
    assert Members(t.sources - {v}, a) == Members(t.sources, a) - {v};
    assert Members(t.sources, a) - {v} == {} <==> Members(t.sources, a) == {} || Members(t.sources, a) == {v};
  }

  lemma TrackPrefixBucket(c: Config, t: Tracker, x: SourceKey, now: real, a: PrefixKey)
    ensures a in Track(c, t, x, now).prefixes <==> a in t.prefixes || a == PrefixOf(x)
    ensures a in Track(c, t, x, now).prefixes ==>
              Track(c, t, x, now).prefixes[a].connections ==
              if a in t.prefixes then t.prefixes[a].connections else Full(c.connectionBurst, now)
  {
  }

  lemma AdmitPrefixBucket(c: Config, s: System, e: Event, a: PrefixKey)
    requires SystemOk(c, s) && e.Connect? && c.enabled
    requires Admit(c, s.tracker, KeyOf(e.source), e.now).Some?
    requires a in Admit(c, s.tracker, KeyOf(e.source), e.now).value.prefixes
    ensures Admit(c, s.tracker, KeyOf(e.source), e.now).value.prefixes[a].connections == PrefixBefore(c, s, e, a)
  {
    hide Victim, Evict, Track;
    var t, x := s.tracker, KeyOf(e.source);
    VictimIdle(t, e.now, c.idleExpiry);
    if x !in t.sources {
      if |t.sources| >= c.tableCapacity {
        var v := Victim(t, e.now, c.idleExpiry).value;
        EvictPrefixBucket(t, v, a);
        TrackPrefixBucket(c, Evict(t, v), x, e.now, a);
      } else {
        TrackPrefixBucket(c, t, x, e.now, a);
      }
    }
  }

  lemma ChargePrefixBucket(c: Config, t: Tracker, x: SourceKey, now: real, a: PrefixKey)
    requires x in t.sources
    ensures var u, w := Charge(c, t, x, now).0, Spend(c, t, x, now).0;
            && (a in u.prefixes <==> a in t.prefixes)
            && (a in t.prefixes ==>
                  Moves(t.prefixes[a].connections, now, u.prefixes[a].connections,
                        if PrefixOf(x) == a && !Spend(c, t, x, now).1 && !SpendPrefix(c, w, a, now).1 then 1 else 0,
                        c.connectionRate, c.connectionBurst))
  {
  }

  lemma ReleasePrefix(c: Config, t: Tracker, x: SourceKey, now: real, a: PrefixKey)
    requires a in Release(c, t, x, now).prefixes
    ensures a in t.prefixes && Release(c, t, x, now).prefixes[a].connections == t.prefixes[a].connections
  {
  }

  lemma ConnectPrefix(c: Config, s: System, e: Event, a: PrefixKey)
    requires SystemOk(c, s) && e.Connect? && a in Next(c, s, e).tracker.prefixes
    ensures Moves(PrefixBefore(c, s, e, a), e.now, Next(c, s, e).tracker.prefixes[a].connections,
                  if ChargesPrefix(c, s, e, a) then 1 else 0, c.connectionRate, c.connectionBurst)
  {
    hide Moves, Charge, Admit, SystemOk, Victim;
    var x := KeyOf(e.source);
    IdleMoves(PrefixBefore(c, s, e, a), e.now, c.connectionRate, c.connectionBurst);
    var u := Admit(c, s.tracker, x, e.now);
    if c.enabled && u.Some? {
      if x in u.value.sources {
        ChargePrefixBucket(c, u.value, x, e.now, a);
      }
      AdmitPrefixBucket(c, s, e, a);
    } else if c.enabled {
      assert Admit(c, s.tracker, x, e.now).None?;
      NotRenewed(c, s, e, a);
    }
  }

  lemma NotRenewed(c: Config, s: System, e: Event, a: PrefixKey)
    requires e.Connect? && Admit(c, s.tracker, KeyOf(e.source), e.now).None?
    ensures !Renewed(c, s, e, a)
  {
  }

  lemma PrefixMoves(c: Config, s: System, e: Event, a: PrefixKey)
    requires SystemOk(c, s) && a in Next(c, s, e).tracker.prefixes
    ensures Moves(PrefixBefore(c, s, e, a), e.now, Next(c, s, e).tracker.prefixes[a].connections,
                  if ChargesPrefix(c, s, e, a) then 1 else 0, c.connectionRate, c.connectionBurst)
  {
    hide SystemOk, Charge, Admit, Victim;
    match e
    case Ask(_, _) =>
    case Drop(x, now) => ReleasePrefix(c, s.tracker, x, now, a);
    case Connect(_, _) => ConnectPrefix(c, s, e, a);
  }

  // The clock

  /** No bucket was touched after `now`. */
  ghost predicate NotAhead(t: Tracker, now: real) {
    && (forall k | k in t.sources ::
          t.sources[k].requests.updatedAt <= now && t.sources[k].connections.updatedAt <= now)
    && (forall a | a in t.prefixes :: t.prefixes[a].connections.updatedAt <= now)
  }

  lemma ReleaseNotAhead(c: Config, t: Tracker, x: SourceKey, now: real)
    requires NotAhead(t, now)
    ensures NotAhead(Release(c, t, x, now), now)
  {
    assert NotAhead(Close(t, x), now);
  }

  lemma NextNotAhead(c: Config, s: System, e: Event, now: real)
    requires NotAhead(s.tracker, now) && now <= e.now
    ensures NotAhead(Next(c, s, e).tracker, e.now)
  {
    assert NotAhead(s.tracker, e.now);
    match e
    case Ask(_, _) =>
    case Drop(x, _) => ReleaseNotAhead(c, s.tracker, x, e.now);
    case Connect(source, _) =>
      var x := KeyOf(source);
      if c.enabled && Admit(c, s.tracker, x, e.now).Some? {
        AdmitNotAhead(c, s.tracker, x, e.now);
        if x in Admit(c, s.tracker, x, e.now).value.sources {
          ChargeNotAhead(c, Admit(c, s.tracker, x, e.now).value, x, e.now);
        }
      }
  }

  lemma EvictNotAhead(t: Tracker, v: SourceKey, now: real)
    requires NotAhead(t, now)
    ensures NotAhead(Evict(t, v), now)
  {
  }

  lemma TrackNotAhead(c: Config, t: Tracker, x: SourceKey, now: real)
    requires NotAhead(t, now)
    ensures NotAhead(Track(c, t, x, now), now)
  {
  }

  lemma AdmitNotAhead(c: Config, t: Tracker, x: SourceKey, now: real)
    requires NotAhead(t, now) && Admit(c, t, x, now).Some?
    ensures NotAhead(Admit(c, t, x, now).value, now)
  {
    if x !in t.sources {
      if |t.sources| >= c.tableCapacity {
        var v := Victim(t, now, c.idleExpiry).value;
        EvictNotAhead(t, v, now);
        TrackNotAhead(c, Evict(t, v), x, now);
      } else {
        TrackNotAhead(c, t, x, now);
      }
    }
  }

  lemma ChargeNotAhead(c: Config, t: Tracker, x: SourceKey, now: real)
    requires NotAhead(t, now) && x in t.sources
    ensures NotAhead(Charge(c, t, x, now).0, now)
  {
    hide Spend, SpendPrefix, NotAhead;
    SpendNotAhead(c, t, x, now);
    var u := Spend(c, t, x, now).0;
    if PrefixOf(x) in u.prefixes {
      SpendPrefixNotAhead(c, u, PrefixOf(x), now);
      var w := SpendPrefix(c, u, PrefixOf(x), now).0;
      OpenNotAhead(w, x, now);
      SameBuckets(w, PushIdle(w, x, Limited), now);
    }
    SameBuckets(u, PushIdle(u, x, Limited), now);
  }

  lemma SpendNotAhead(c: Config, t: Tracker, x: SourceKey, now: real)
    requires NotAhead(t, now) && x in t.sources
    ensures x in Spend(c, t, x, now).0.sources && NotAhead(Spend(c, t, x, now).0, now)
  {
  }

  lemma SpendPrefixNotAhead(c: Config, t: Tracker, a: PrefixKey, now: real)
    requires NotAhead(t, now) && a in t.prefixes
    ensures a in SpendPrefix(c, t, a, now).0.prefixes && SpendPrefix(c, t, a, now).0.sources == t.sources
    ensures NotAhead(SpendPrefix(c, t, a, now).0, now)
  {
  }

  lemma OpenNotAhead(t: Tracker, x: SourceKey, now: real)
    requires NotAhead(t, now) && x in t.sources && PrefixOf(x) in t.prefixes
    ensures NotAhead(Open(t, x), now)
  {
    hide PrefixOf;
  }

  lemma SameBuckets(t: Tracker, u: Tracker, now: real)
    requires NotAhead(t, now) && u.sources == t.sources && u.prefixes == t.prefixes
    ensures NotAhead(u, now)
  {
  }

  ghost predicate ClockForward(events: seq<Event>) {
    forall i :: 0 <= i < |events| - 1 ==> events[i].now <= events[i + 1].now
  }

  lemma {:induction false} RunNotAhead(c: Config, states: seq<System>, events: seq<Event>, n: nat)
    requires Run(c, states, events) && ClockForward(events) && n < |events|
    ensures NotAhead(states[n].tracker, events[n].now)
  {
    if n > 0 {
      RunNotAhead(c, states, events, n - 1);
      NextNotAhead(c, states[n - 1], events[n - 1], events[n - 1].now);
    }
  }

  // The bounds

  /** What a bucket meters: a source's connections, a prefix's connections, or a source's requests. */
  datatype Meter = SourceConnections(key: SourceKey) | PrefixConnections(prefix: PrefixKey) | Requests(key: SourceKey)

  ghost predicate Metered(s: System, m: Meter) {
    match m
    case SourceConnections(k) => k in s.tracker.sources
    case PrefixConnections(a) => a in s.tracker.prefixes
    case Requests(k) => k in s.tracker.sources
  }

  ghost function BucketOf(s: System, m: Meter): (r: Bucket)
    requires Metered(s, m)
  {
    match m
    case SourceConnections(k) => s.tracker.sources[k].connections
    case PrefixConnections(a) => s.tracker.prefixes[a].connections
    case Requests(k) => s.tracker.sources[k].requests
  }

  /** The bucket an event starts from: the one it finds, or a full one. */
  ghost function BucketBefore(c: Config, s: System, e: Event, m: Meter): (r: Bucket) {
    match m
    case SourceConnections(k) => AccountBefore(c, s, e, k).connections
    case PrefixConnections(a) => PrefixBefore(c, s, e, a)
    case Requests(k) => AccountBefore(c, s, e, k).requests
  }

  ghost function RateOf(c: Config, m: Meter): (r: nat) {
    if m.Requests? then c.requestRate else c.connectionRate
  }

  ghost function BurstOf(c: Config, m: Meter): (r: nat) {
    if m.Requests? then c.requestBurst else c.connectionBurst
  }

  /** The tokens one event takes under the meter. */
  ghost function ChargeOf(c: Config, s: System, e: Event, m: Meter): (r: nat) {
    var charged :=
      match m
      case SourceConnections(k) => ChargesSource(c, s, e, k)
      case PrefixConnections(a) => ChargesPrefix(c, s, e, a)
      case Requests(k) => ChargesRequest(c, s, e, k);
    if charged then 1 else 0
  }

  /** The connections or requests one event grants under the meter. */
  ghost function GrantsOf(c: Config, s: System, e: Event, m: Meter): (r: nat) {
    var granted :=
      match m
      case SourceConnections(k) => GrantedTo(c, s, e) == Some(k)
      case PrefixConnections(a) => GrantedTo(c, s, e).Some? && PrefixOf(GrantedTo(c, s, e).value) == a
      case Requests(k) => e.Ask? && e.key == k && Request(c, s.tracker, k, e.now).1;
    if granted then 1 else 0
  }

  /** Nothing is granted without a token of every meter concerned. */
  lemma GrantCharges(c: Config, s: System, e: Event, m: Meter)
    ensures GrantsOf(c, s, e, m) <= ChargeOf(c, s, e, m)
  {
  }

  /** One event moves a bucket, from the one it finds or a full one, by refill and by charge. */
  lemma MeterMoves(c: Config, s: System, e: Event, m: Meter)
    requires SystemOk(c, s) && Metered(Next(c, s, e), m)
    ensures Moves(BucketBefore(c, s, e, m), e.now, BucketOf(Next(c, s, e), m), ChargeOf(c, s, e, m),
                  RateOf(c, m), BurstOf(c, m))
  {
    hide SystemOk, Next, Moves, ChargesSource, ChargesPrefix, ChargesRequest, PrefixBefore, AccountBefore;
    match m
    case SourceConnections(k) => AccountMoves(c, s, e, k);
    case PrefixConnections(a) => PrefixMoves(c, s, e, a);
    case Requests(k) => AccountMoves(c, s, e, k);
  }

  /** The level a meter would refill to at time `u`. */
  ghost function LevelAt(c: Config, s: System, m: Meter, u: real): (r: real)
    requires Metered(s, m)
  {
    Level(BucketOf(s, m), u, RateOf(c, m), BurstOf(c, m))
  }

  /** The event loses no charge: it makes no prefix anew whose bucket is still below the burst. */
  ghost predicate Carries(c: Config, s: System, e: Event, m: Meter)
    requires Metered(s, m)
  {
    m.PrefixConnections? && Renewed(c, s, e, m.prefix) ==> LevelAt(c, s, m, e.now) == BurstOf(c, m) as real
  }

  /** Everything charged by the events from `from` up to `to`. */
  ghost function TotalCharged(c: Config, states: seq<System>, events: seq<Event>, m: Meter,
                              from: nat, to: nat): (r: nat)
    requires from <= to <= |events| && |states| == |events| + 1
  {
    if from == to then 0
    else TotalCharged(c, states, events, m, from, to - 1) + ChargeOf(c, states[to - 1], events[to - 1], m)
  }

  /** Everything granted by the events from `from` up to `to`. */
  ghost function TotalGranted(c: Config, states: seq<System>, events: seq<Event>, m: Meter,
                              from: nat, to: nat): (r: nat)
    requires from <= to <= |events| && |states| == |events| + 1
  {
    if from == to then 0
    else TotalGranted(c, states, events, m, from, to - 1) + GrantsOf(c, states[to - 1], events[to - 1], m)
  }

  lemma {:induction false} GrantedCharged(c: Config, states: seq<System>, events: seq<Event>, m: Meter, from: nat,
                                          to: nat)
    requires from <= to <= |events| && |states| == |events| + 1
    ensures TotalGranted(c, states, events, m, from, to) <= TotalCharged(c, states, events, m, from, to)
  {
    hide GrantsOf, ChargeOf;
    if from < to {
      GrantedCharged(c, states, events, m, from, to - 1);
      GrantCharges(c, states[to - 1], events[to - 1], m);
    }
  }

  /**
   One lifetime of a meter's bucket: it is there after every event of the window, so the first
   event may be the one that makes it, and no later event loses charges of it.
   */
  ghost predicate Lives(c: Config, states: seq<System>, events: seq<Event>, m: Meter, from: nat, to: nat)
    requires to <= |events| && |states| == |events| + 1
  {
    && (forall i :: from < i <= to ==> Metered(states[i], m))
    && (forall i :: from < i < to ==> Carries(c, states[i], events[i], m))
  }

  lemma OneStep(c: Config, s: System, e: Event, m: Meter, u: real)
    requires SystemOk(c, s) && NotAhead(s.tracker, e.now) && e.now <= u
    requires Metered(Next(c, s, e), m)
    ensures ChargeOf(c, s, e, m) as real + LevelAt(c, Next(c, s, e), m, u)
            <= BurstOf(c, m) as real + Accrued(u - e.now, RateOf(c, m))
    ensures Metered(s, m) && Carries(c, s, e, m) ==>
              ChargeOf(c, s, e, m) as real + LevelAt(c, Next(c, s, e), m, u)
              <= LevelAt(c, s, m, e.now) + Accrued(u - e.now, RateOf(c, m))
  {
    hide Next, SystemOk, ChargeOf, Accrued, Moves, Renewed;
    var b := BucketBefore(c, s, e, m);
    MeterMoves(c, s, e, m);
    MovesBound(b, e.now, BucketOf(Next(c, s, e), m), ChargeOf(c, s, e, m), u, RateOf(c, m), BurstOf(c, m));
  }

  lemma {:induction false} ChargedLevel(c: Config, states: seq<System>, events: seq<Event>, m: Meter,
                                        from: nat, to: nat, u: real)
    requires Run(c, states, events) && ClockForward(events) && c.tableCapacity >= 1
    requires from < to <= |events| && Lives(c, states, events, m, from, to) && events[to - 1].now <= u
    ensures TotalCharged(c, states, events, m, from, to) as real + LevelAt(c, states[to], m, u)
            <= BurstOf(c, m) as real + Accrued(u - events[from].now, RateOf(c, m))
  {
    hide Next, SystemOk, LevelAt, ChargeOf, Accrued, NotAhead, Metered, Carries;
    var last := events[to - 1].now;
    RunKeeps(c, states, events, to - 1);
    RunNotAhead(c, states, events, to - 1);
    assert Metered(states[to], m) && states[to - 1 + 1] == Next(c, states[to - 1], events[to - 1]);
    OneStep(c, states[to - 1], events[to - 1], m, u);
    if from < to - 1 {
      assert events[to - 2].now <= last;
      ChargedLevel(c, states, events, m, from, to - 1, last);
      AccruedAdds(last - events[from].now, u - last, RateOf(c, m));
      assert last - events[from].now + (u - last) == u - events[from].now;
    } else {
      assert TotalCharged(c, states, events, m, from, from) == 0;
    }
  }

  lemma LevelNotNegative(c: Config, s: System, m: Meter, u: real)
    requires SystemOk(c, s) && Metered(s, m)
    ensures LevelAt(c, s, m, u) >= 0.0
  {
    assert BucketOf(s, m).tokens >= 0.0;
  }

  /**
   In every run with a nondecreasing clock, over every window within one lifetime of a bucket,
   the admitting event included: what is charged, and so what is granted, to a source, to a
   prefix, or as requests, is at most the burst plus the rate times the window's length.
   */
  lemma RateBound(c: Config, states: seq<System>, events: seq<Event>, m: Meter, from: nat, to: nat)
    requires Run(c, states, events) && ClockForward(events) && c.tableCapacity >= 1
    requires from < to <= |events| && Lives(c, states, events, m, from, to)
    ensures TotalGranted(c, states, events, m, from, to) <= TotalCharged(c, states, events, m, from, to)
    ensures TotalCharged(c, states, events, m, from, to) as real
            <= BurstOf(c, m) as real + Accrued(events[to - 1].now - events[from].now, RateOf(c, m))
  {
    hide Next, SystemOk, LevelAt, ChargeOf, GrantsOf, Accrued, Metered, Carries;
    ChargedLevel(c, states, events, m, from, to, events[to - 1].now);
    RunKeeps(c, states, events, to);
    LevelNotNegative(c, states[to], m, events[to - 1].now);
    GrantedCharged(c, states, events, m, from, to);
  }
}

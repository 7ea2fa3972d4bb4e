/**
 When a prefix loses what it was charged: exactly when a full table evicts the prefix's only
 source for a newcomer of the same prefix. The rate of a prefix is not bounded across that.
 */
module SourceLimitsRenewal {
  import opened Basics
  import opened SourceLimits
  import opened SourceLimitsInvariant
  import opened SourceLimitsRuns
  import opened SourceLimitsRates

  lemma AdmitMembers(c: Config, s: System, e: Event, a: PrefixKey)
    requires SystemOk(c, s) && e.Connect? && c.enabled && Admit(c, s.tracker, KeyOf(e.source), e.now).Some?
    ensures var u := Admit(c, s.tracker, KeyOf(e.source), e.now).value;
            var before, after := Members(s.tracker.sources, a), Members(u.sources, a);
            before != {} && after != {} ==> (before * after == {} <==> Renewed(c, s, e, a))
  {
    hide QueuesOk, PrefixesOk, LimitsOk, Victim, KeyOf, PrefixOf;
    var t, x := s.tracker, KeyOf(e.source);
    var before, after := Members(t.sources, a), Members(Admit(c, t, x, e.now).value.sources, a);
    VictimIdle(t, e.now, c.idleExpiry);
    if x !in t.sources && |t.sources| >= c.tableCapacity {
      var v := Victim(t, e.now, c.idleExpiry).value;
      assert after == before - {v} + if PrefixOf(x) == a then {x} else {};
      assert before * after == before - {v};
      assert before - {v} == {} <==> before == {} || before == {v};
    } else {
      assert before <= after;
      assert before * after == before;
    }
  }

  /** A prefix there before and after is made anew exactly when no source of it stays tracked. */
  lemma RenewedIff(c: Config, s: System, e: Event, a: PrefixKey)
    requires SystemOk(c, s) && SystemOk(c, Next(c, s, e))
    requires a in s.tracker.prefixes && a in Next(c, s, e).tracker.prefixes
    ensures Renewed(c, s, e, a) <==>
            Members(s.tracker.sources, a) * Members(Next(c, s, e).tracker.sources, a) == {}
  {
    hide Charge, Admit, Victim, QueuesOk, LimitsOk;
    assert PrefixOk(s.tracker, a) && PrefixOk(Next(c, s, e).tracker, a);
    var before, after := Members(s.tracker.sources, a), Members(Next(c, s, e).tracker.sources, a);
    if e.Connect? && c.enabled && Admit(c, s.tracker, KeyOf(e.source), e.now).Some? {
      var u := Admit(c, s.tracker, KeyOf(e.source), e.now).value;
      AdmitMembers(c, s, e, a);
      if KeyOf(e.source) in u.sources {
        ChargeFrame(c, u, KeyOf(e.source), e.now);
      }
      assert after == Members(u.sources, a);
    } else {
      SameMembers(c, s, e, a);
    }
  }

  lemma SameMembers(c: Config, s: System, e: Event, a: PrefixKey)
    requires !(e.Connect? && c.enabled && Admit(c, s.tracker, KeyOf(e.source), e.now).Some?)
    ensures Next(c, s, e).tracker.sources.Keys == s.tracker.sources.Keys
    ensures Members(Next(c, s, e).tracker.sources, a) == Members(s.tracker.sources, a) && !Renewed(c, s, e, a)
  {
    hide Next, KeyOf, PrefixOf, Victim;
    SameKeys(c, s, e);
  }

  lemma SameKeys(c: Config, s: System, e: Event)
    requires !(e.Connect? && c.enabled && Admit(c, s.tracker, KeyOf(e.source), e.now).Some?)
    ensures Next(c, s, e).tracker.sources.Keys == s.tracker.sources.Keys
  {
    hide KeyOf, PrefixOf, Victim;
  }

  /**
   A prefix's bucket is moved by refill and charge alone exactly when the event does not make the
   prefix anew, or finds its bucket full again.
   */
  lemma CarriesIff(c: Config, s: System, e: Event, a: PrefixKey)
    requires SystemOk(c, s) && c.tableCapacity >= 1
    requires a in s.tracker.prefixes && a in Next(c, s, e).tracker.prefixes
    ensures Moves(s.tracker.prefixes[a].connections, e.now, Next(c, s, e).tracker.prefixes[a].connections,
                  if ChargesPrefix(c, s, e, a) then 1 else 0, c.connectionRate, c.connectionBurst)
            <==> Carries(c, s, e, PrefixConnections(a))
  {
    PrefixMoves(c, s, e, a);
    if Renewed(c, s, e, a) {
      RenewedCharges(c, s, e, a);
    }
  }

  lemma FullSpends(c: Config, t: Tracker, x: SourceKey, now: real)
    requires x in t.sources && PrefixOf(x) in t.prefixes
    requires t.sources[x].connections == t.prefixes[PrefixOf(x)].connections == Full(c.connectionBurst, now)
    ensures Spend(c, t, x, now).0.prefixes == t.prefixes
    ensures c.connectionBurst >= 1 <==> !Spend(c, t, x, now).1
    ensures c.connectionBurst >= 1 ==> !SpendPrefix(c, Spend(c, t, x, now).0, PrefixOf(x), now).1
  {
  }

  /** Making a prefix anew charges the full bucket, if there is a token in it at all. */
  lemma RenewedCharges(c: Config, s: System, e: Event, a: PrefixKey)
    requires SystemOk(c, s) && c.tableCapacity >= 1 && Renewed(c, s, e, a)
    ensures ChargesPrefix(c, s, e, a) <==> c.connectionBurst >= 1
  {
    hide Victim, QueuesOk, PrefixesOk, LimitsOk, Spend, SpendPrefix, Track, Evict;
    var t, x := s.tracker, KeyOf(e.source);
    AdmitKeeps(c, t, x, e.now, s.permits);
    var u := Admit(c, t, x, e.now).value;
    SourceWithinPrefix(u, x);
    AdmitPrefixBucket(c, s, e, a);
    AdmitFrame(c, t, x, e.now, x);
    FullSpends(c, u, x, e.now);
  }

  /** A prefix made anew grants, whatever it had been charged. */
  lemma RenewedGrants(c: Config, s: System, e: Event, a: PrefixKey)
    requires SystemOk(c, s) && c.tableCapacity >= 1 && Renewed(c, s, e, a)
    requires c.connectionBurst >= 1 && c.maxConnections >= 1 && c.prefixMaxConnections >= 1
    ensures GrantsOf(c, s, e, PrefixConnections(a)) == 1 && Metered(Next(c, s, e), PrefixConnections(a))
  {
    hide Victim, QueuesOk, LimitsOk, Track, Evict, Spend, SpendPrefix, Open;
    var t, x := s.tracker, KeyOf(e.source);
    AdmitKeeps(c, t, x, e.now, s.permits);
    var u := Admit(c, t, x, e.now).value;
    SourceWithinPrefix(u, x);
    AdmitFrame(c, t, x, e.now, x);
    AdmitPrefixBucket(c, s, e, a);
    FullSpends(c, u, x, e.now);
    AloneIdle(c, s, e, a);
    FullCharge(c, u, x, e.now);
  }

  /** The newcomer is alone in its prefix, and neither holds a connection. */
  lemma AloneIdle(c: Config, s: System, e: Event, a: PrefixKey)
    requires SystemOk(c, s) && c.tableCapacity >= 1 && Renewed(c, s, e, a)
    ensures var u := Admit(c, s.tracker, KeyOf(e.source), e.now).value;
            a in u.prefixes && u.prefixes[a].active == 0
  {
    hide QueuesOk, LimitsOk;
    var t, x := s.tracker, KeyOf(e.source);
    var v := Victim(t, e.now, c.idleExpiry).value;
    VictimIdle(t, e.now, c.idleExpiry);
    EvictPrefixBucket(t, v, a);
    assert a !in Evict(t, v).prefixes;
  }

  lemma FullCharge(c: Config, t: Tracker, x: SourceKey, now: real)
    requires x in t.sources && PrefixOf(x) in t.prefixes && c.connectionBurst >= 1
    requires t.sources[x].connections == t.prefixes[PrefixOf(x)].connections == Full(c.connectionBurst, now)
    requires t.sources[x].active < c.maxConnections && t.prefixes[PrefixOf(x)].active < c.prefixMaxConnections
    ensures Charge(c, t, x, now).1 == Outcome.Granted(Some(x)) && PrefixOf(x) in Charge(c, t, x, now).0.prefixes
  {
  }

  // A run in which a prefix of burst one gets two connections at one instant

  /** A table for two, above a global limit of one connection. */
  const TIGHT := Config(true, 1, 1, 1, 1, 1, 1, 2, 1.0)
  const EMPTIED := Bucket(0.0, 0.0)
  const ONE := Bucket(1.0, 0.0)

  ghost function Holding(t: Tracker, k: SourceKey): (r: Tracker) {
    t.(sources := t.sources[k := Account(1, ONE, EMPTIED, 0.0)],
       prefixes := t.prefixes[PrefixOf(k) := Prefix(1, 1, EMPTIED)])
  }

  ghost function Leaving(t: Tracker, k: SourceKey): (r: Tracker) {
    t.(sources := t.sources[k := Account(0, ONE, EMPTIED, 0.0)],
       prefixes := t.prefixes[PrefixOf(k) := Prefix(0, 1, EMPTIED)],
       limited := t.limited + [k])
  }

  /** A new source of a new prefix opens its first connection. */
  lemma Opens(t: Tracker, source: IpAddr)
    requires |t.sources| < 2 && KeyOf(source) !in t.sources && PrefixOf(KeyOf(source)) !in t.prefixes
    requires t.refilled == [] && KeyOf(source) !in t.limited
    ensures Acquire(TIGHT, t, source, 0.0) == (Holding(t, KeyOf(source)), Outcome.Granted(Some(KeyOf(source))))
  {
    var k := KeyOf(source);
    var u := Track(TIGHT, t, k, 0.0);
    WithoutAbsent(t.limited, k);
    assert Without([], k) == [] && Without([k], k) == [];
    assert u == t.(sources := t.sources[k := Account(0, ONE, ONE, 0.0)],
                   prefixes := t.prefixes[PrefixOf(k) := Prefix(0, 1, ONE)], refilled := [k]);
    Charges(t, u, k);
  }

  lemma Charges(t: Tracker, u: Tracker, k: SourceKey)
    requires t.refilled == [] && k !in t.limited
    requires u == t.(sources := t.sources[k := Account(0, ONE, ONE, 0.0)],
                     prefixes := t.prefixes[PrefixOf(k) := Prefix(0, 1, ONE)], refilled := [k])
    ensures Charge(TIGHT, u, k, 0.0) == (Holding(t, k), Outcome.Granted(Some(k)))
  {
    WithoutAbsent(t.limited, k);
    assert Without([k], k) == [];
    var w := Spend(TIGHT, u, k, 0.0).0;
    assert w.sources == t.sources[k := Account(0, ONE, EMPTIED, 0.0)];
    var x := SpendPrefix(TIGHT, w, PrefixOf(k), 0.0).0;
    assert x.prefixes == t.prefixes[PrefixOf(k) := Prefix(0, 1, EMPTIED)];
    assert Open(x, k) == Holding(t, k);
  }

  /** ...and closes it. */
  lemma Closes(t: Tracker, k: SourceKey)
    requires k !in t.refilled && k !in t.limited
    ensures Release(TIGHT, Holding(t, k), k, 0.0) == Leaving(t, k)
  {
    hide PrefixOf, Close, Settle;
    ClosesOne(t, k);
    SettlesOne(t, k);
  }

  lemma ClosesOne(t: Tracker, k: SourceKey)
    ensures Close(Holding(t, k), k) == Leaving(t, k).(limited := t.limited)
  {
    hide PrefixOf;
    var u, v := Close(Holding(t, k), k), Leaving(t, k);
    assert u.sources == v.sources;
    assert u.prefixes == v.prefixes;
  }

  lemma SettlesOne(t: Tracker, k: SourceKey)
    requires k !in t.refilled && k !in t.limited
    ensures Settle(TIGHT, Leaving(t, k).(limited := t.limited), k, 0.0) == Leaving(t, k)
  {
    hide PrefixOf;
    WithoutAbsent(t.limited, k);
    WithoutAbsent(t.refilled, k);
    var v := Leaving(t, k);
    assert v.sources[k := v.sources[k].(requests := ONE, connections := EMPTIED)] == v.sources;
  }

  const FIRST := Ipv4([192, 0, 2, 1])
  const SECOND := Ipv4([192, 0, 2, 2])
  const OTHER := Ipv4([198, 51, 100, 1])
  ghost const NET := PrefixOf(KeyOf(FIRST))

  lemma Addresses()
    ensures KeyOf(FIRST) != KeyOf(SECOND) && KeyOf(FIRST) != KeyOf(OTHER) && KeyOf(SECOND) != KeyOf(OTHER)
    ensures PrefixOf(KeyOf(SECOND)) == NET != PrefixOf(KeyOf(OTHER))
  {
    assert FIRST.v4[3] != SECOND.v4[3] && FIRST.v4[0] != OTHER.v4[0] && SECOND.v4[0] != OTHER.v4[0];
    assert FIRST.v4[..3] == [192, 0, 2] == SECOND.v4[..3] && OTHER.v4[..3][0] == 198;
  }

  /** The first source has come and gone, then the other; the table is full. */
  ghost const GONE := Leaving(Leaving(EMPTY, KeyOf(FIRST)), KeyOf(OTHER))

  lemma FirstIsVictim()
    ensures Renewed(TIGHT, System(GONE, multiset{}), Connect(SECOND, 0.0), NET)
  {
    Addresses();
    var k, o := KeyOf(FIRST), KeyOf(OTHER);
    assert GONE.sources.Keys == {k, o} && |GONE.sources| == |GONE.sources.Keys|;
    assert GONE.limited == [k, o] && GONE.refilled == [];
    assert Victim(GONE, 0.0, 1.0) == Some(k);
    assert Members(GONE.sources, NET) == {k};
  }

  lemma Steps()
    ensures var k, o := KeyOf(FIRST), KeyOf(OTHER);
            && Next(TIGHT, START, Connect(FIRST, 0.0)) == System(Holding(EMPTY, k), multiset{k})
            && GrantsOf(TIGHT, START, Connect(FIRST, 0.0), PrefixConnections(NET)) == 1
            && Next(TIGHT, System(Holding(EMPTY, k), multiset{k}), Drop(k, 0.0)) ==
               System(Leaving(EMPTY, k), multiset{})
            && Next(TIGHT, System(Leaving(EMPTY, k), multiset{}), Connect(OTHER, 0.0)) ==
               System(Holding(Leaving(EMPTY, k), o), multiset{o})
            && Next(TIGHT, System(Holding(Leaving(EMPTY, k), o), multiset{o}), Drop(o, 0.0)) == System(GONE, multiset{})
  {
    hide Acquire, Release;
    Addresses();
    var k, o := KeyOf(FIRST), KeyOf(OTHER);
    Opens(EMPTY, FIRST);
    Closes(EMPTY, k);
    assert |Leaving(EMPTY, k).sources.Keys| == |{k}|;
    Opens(Leaving(EMPTY, k), OTHER);
    Closes(Leaving(EMPTY, k), o);
    assert multiset{k} - multiset{k} == multiset{} && multiset{o} - multiset{o} == multiset{};
  }

  /**
   The bound without its condition on renewal is false. After each of these five events, all at
   one instant and never with more than one connection, the prefix is in the table, and it is
   granted two connections on a burst of one.
   */
  lemma RenewedPrefixExceeds() returns (states: seq<System>, events: seq<Event>)
    ensures Run(TIGHT, states, events) && ClockForward(events) && |events| == 5
    ensures forall i :: 1 <= i <= 5 ==> Metered(states[i], PrefixConnections(NET))
    ensures Renewed(TIGHT, states[4], events[4], NET)
    ensures events[0].now == events[4].now
    ensures TotalGranted(TIGHT, states, events, PrefixConnections(NET), 0, 5) >= 2 > TIGHT.connectionBurst
  {
    hide Next, GrantsOf, Renewed, TotalGranted, SystemOk, KeyOf;
    Addresses();
    Steps();
    var k, o := KeyOf(FIRST), KeyOf(OTHER);
    var gone := System(GONE, multiset{});
    events := [Connect(FIRST, 0.0), Drop(k, 0.0), Connect(OTHER, 0.0), Drop(o, 0.0), Connect(SECOND, 0.0)];
    states := [START, System(Holding(EMPTY, k), multiset{k}), System(Leaving(EMPTY, k), multiset{}),
               System(Holding(Leaving(EMPTY, k), o), multiset{o}), gone, Next(TIGHT, gone, events[4])];
    FirstIsVictim();
    RunKeeps(TIGHT, states, events, 4);
    RenewedGrants(TIGHT, gone, events[4], NET);
    FirstAndLast(states, events, PrefixConnections(NET));
  }

  lemma FirstAndLast(states: seq<System>, events: seq<Event>, m: Meter)
    requires |states| == 6 && |events| == 5
    ensures TotalGranted(TIGHT, states, events, m, 0, 5) >=
            GrantsOf(TIGHT, states[0], events[0], m) + GrantsOf(TIGHT, states[4], events[4], m)
  {
    hide GrantsOf;
    assert TotalGranted(TIGHT, states, events, m, 0, 1) ==
           TotalGranted(TIGHT, states, events, m, 0, 0) + GrantsOf(TIGHT, states[0], events[0], m);
    assert TotalGranted(TIGHT, states, events, m, 0, 3) >= TotalGranted(TIGHT, states, events, m, 0, 2);
    assert TotalGranted(TIGHT, states, events, m, 0, 4) >= TotalGranted(TIGHT, states, events, m, 0, 3);
  }
}

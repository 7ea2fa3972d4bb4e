/**
 Per-source accounting of the public federation listener, on values: which sources are
 tracked, how many connections each source and each network prefix holds, the token buckets,
 and the two queues of idle sources from which a full table evicts.
 */
module SourceLimits {
  import opened Basics

  // Source keys

  type Octets4 = s: seq<Byte> | |s| == 4 witness [0, 0, 0, 0]
  type Octets16 = s: seq<Byte> | |s| == 16 witness [0, 0, 0, 0, 0, 0, 0, 0, 0, 0, 0, 0, 0, 0, 0, 0]

  datatype IpAddr = Ipv4(v4: Octets4) | Ipv6(v6: Octets16)

  datatype SourceKey = V4(address: seq<Byte>) | V6Prefix(prefix: seq<Byte>)
  datatype PrefixKey = V4Net(net: seq<Byte>) | V6Net(net6: seq<Byte>)

  /** An IPv4-mapped IPv6 address, section 2.5.5.2 of RFC 4291. */
  predicate V4Mapped(a: Octets16) {
    (forall i :: 0 <= i < 10 ==> a[i] == 0) && a[10] == 0xFF && a[11] == 0xFF
  }

  function KeyOf(source: IpAddr): (r: SourceKey) {
    match source
    case Ipv4(a) => V4(a)
    case Ipv6(a) => if V4Mapped(a) then V4(a[12..]) else V6Prefix(a[..8])
  }

  function PrefixOf(key: SourceKey): (r: PrefixKey) {
    match key
    case V4(a) => V4Net(if |a| >= 3 then a[..3] else a)
    case V6Prefix(p) => V6Net(if |p| >= 6 then p[..6] else p)
  }

  /** A client is one source however it spells an IPv4 address, and one source per IPv6 /64. */
  lemma SameSource(a: IpAddr, b: IpAddr)
    ensures KeyOf(a) == KeyOf(b) <==>
            match (Unmapped(a), Unmapped(b))
            case (Ipv4(x), Ipv4(y)) => x == y
            case (Ipv6(x), Ipv6(y)) => x[..8] == y[..8]
            case _ => false
  {
  }

  function Unmapped(a: IpAddr): (r: IpAddr) {
    if a.Ipv6? && V4Mapped(a.v6) then Ipv4(a.v6[12..]) else a
  }

  // Token buckets over a clock in seconds

  datatype Bucket = Bucket(tokens: real, updatedAt: real)

  function Elapsed(since: real, now: real): (r: real)
    ensures r >= 0.0
  {
    if now >= since then now - since else 0.0
  }

  /** The tokens a rate yields over a time. */
  function Accrued(seconds: real, rate: nat): (r: real)
    ensures seconds >= 0.0 ==> r >= 0.0
  {
    seconds * rate as real
  }

  function Refill(b: Bucket, now: real, rate: nat, burst: nat): (r: Bucket)
    ensures r.updatedAt == now && r.tokens <= burst as real
    ensures b.tokens >= 0.0 ==> r.tokens >= 0.0
    ensures b.tokens <= burst as real ==> r.tokens >= b.tokens
  {
    var filled := b.tokens + Accrued(Elapsed(b.updatedAt, now), rate);
    Bucket(if filled < burst as real then filled else burst as real, now)
  }

  function Take(b: Bucket): (r: Bucket) {
    b.(tokens := b.tokens - 1.0)
  }

  // State

  datatype Config = Config(
    enabled: bool,
    maxConnections: nat,
    prefixMaxConnections: nat,
    connectionRate: nat,
    connectionBurst: nat,
    requestRate: nat,
    requestBurst: nat,
    tableCapacity: nat,
    idleExpiry: real)

  datatype Account = Account(active: nat, requests: Bucket, connections: Bucket, lastSeen: real)
  datatype Prefix = Prefix(active: nat, tracked: nat, connections: Bucket)
  datatype IdleClass = Refilled | Limited

  datatype Tracker = Tracker(
    sources: map<SourceKey, Account>,
    prefixes: map<PrefixKey, Prefix>,
    refilled: seq<SourceKey>,
    limited: seq<SourceKey>)

  datatype Refusal = SourceLimit | PrefixLimit | ConnectionRate | PrefixConnectionRate | TrackingCapacity
  datatype Outcome = Granted(key: Option<SourceKey>) | Refused(reason: Refusal)

  const EMPTY := Tracker(map[], map[], [], [])

  // The idle queues

  function Without<T(==)>(s: seq<T>, x: T): (r: seq<T>) {
    if s == [] then [] else (if s[0] == x then [] else [s[0]]) + Without(s[1..], x)
  }

  function RemoveIdle(t: Tracker, key: SourceKey): (r: Tracker) {
    t.(refilled := Without(t.refilled, key), limited := Without(t.limited, key))
  }

  function PushIdle(t: Tracker, key: SourceKey, idle: IdleClass): (r: Tracker) {
    var u := RemoveIdle(t, key);
    match idle
    case Refilled => u.(refilled := u.refilled + [key])
    case Limited => u.(limited := u.limited + [key])
  }

  predicate Expired(t: Tracker, key: SourceKey, now: real, expiry: real) {
    key in t.sources && Elapsed(t.sources[key].lastSeen, now) >= expiry
  }

  /** The victim: the staler of the expired heads, else the refilled head, else the limited head. */
  function Victim(t: Tracker, now: real, expiry: real): (r: Option<SourceKey>)
    ensures r.Some? ==> r.value in t.refilled || r.value in t.limited
  {
    var r, l := t.refilled, t.limited;
    var oldR, oldL := r != [] && Expired(t, r[0], now, expiry), l != [] && Expired(t, l[0], now, expiry);
    if oldR && (!oldL || t.sources[r[0]].lastSeen <= t.sources[l[0]].lastSeen) then Some(r[0])
    else if oldL then Some(l[0])
    else if r != [] then Some(r[0])
    else if l != [] then Some(l[0])
    else None
  }

  /** The prefix table when one source of `a` is forgotten. */
  function DropTracked(prefixes: map<PrefixKey, Prefix>, a: PrefixKey): (r: map<PrefixKey, Prefix>) {
    if a !in prefixes then prefixes else
      var p := prefixes[a];
      var left := Decrement(p.tracked);
      if left == 0 && p.active == 0 then prefixes - {a} else prefixes[a := p.(tracked := left)]
  }

  function Evict(t: Tracker, key: SourceKey): (r: Tracker) {
    RemoveIdle(t, key).(sources := t.sources - {key}, prefixes := DropTracked(t.prefixes, PrefixOf(key)))
  }

  /** Subtraction that stops at zero. */
  function Decrement(n: nat): (r: nat) {
    if n > 0 then n - 1 else 0
  }

  // Operations

  function Track(c: Config, t: Tracker, key: SourceKey, now: real): (r: Tracker) {
    var a := PrefixOf(key);
    var full := Bucket(c.connectionBurst as real, now);
    var account := Account(0, Bucket(c.requestBurst as real, now), full, now);
    var p := if a in t.prefixes then t.prefixes[a] else Prefix(0, 0, full);
    var prefixes := t.prefixes[a := p.(tracked := p.tracked + 1)];
    PushIdle(t.(sources := t.sources[key := account], prefixes := prefixes), key, Refilled)
  }

  /** The tracker with `key` tracked, evicting an idle source when the table is full. */
  function Admit(c: Config, t: Tracker, key: SourceKey, now: real): (r: Option<Tracker>) {
    if key in t.sources then Some(t)
    else if |t.sources| >= c.tableCapacity then
      match Victim(t, now, c.idleExpiry)
      case None => None
      case Some(v) => Some(Track(c, Evict(t, v), key, now))
    else Some(Track(c, t, key, now))
  }

  function Spend(c: Config, t: Tracker, key: SourceKey, now: real): (r: (Tracker, bool))
    requires key in t.sources
  {
    var e := t.sources[key];
    var b := Refill(e.connections, now, c.connectionRate, c.connectionBurst);
    var limited := b.tokens < 1.0;
    (t.(sources := t.sources[key := e.(connections := if limited then b else Take(b), lastSeen := now)]), limited)
  }

  function SpendPrefix(c: Config, t: Tracker, a: PrefixKey, now: real): (r: (Tracker, bool))
    requires a in t.prefixes
  {
    var p := t.prefixes[a];
    var b := Refill(p.connections, now, c.connectionRate, c.connectionBurst);
    var limited := b.tokens < 1.0;
    (t.(prefixes := t.prefixes[a := p.(connections := if limited then b else Take(b))]), limited)
  }

  function Open(t: Tracker, key: SourceKey): (r: Tracker)
    requires key in t.sources && PrefixOf(key) in t.prefixes
  {
    var e, p := t.sources[key], t.prefixes[PrefixOf(key)];
    var u := if e.active == 0 then RemoveIdle(t, key) else t;
    u.(sources := t.sources[key := e.(active := e.active + 1)],
       prefixes := t.prefixes[PrefixOf(key) := p.(active := p.active + 1)])
  }

  function Charge(c: Config, t: Tracker, key: SourceKey, now: real): (r: (Tracker, Outcome))
    requires key in t.sources
  {
    var (u, limited) := Spend(c, t, key, now);
    var held := t.sources[key].active;
    if limited then
      (if held == 0 then PushIdle(u, key, Limited) else u, Refused(ConnectionRate))
    else if PrefixOf(key) !in u.prefixes then (u, Refused(TrackingCapacity))
    else
      var (w, prefixLimited) := SpendPrefix(c, u, PrefixOf(key), now);
      if prefixLimited then (w, Refused(PrefixConnectionRate))
      else if held >= c.maxConnections then (w, Refused(SourceLimit))
      else if w.prefixes[PrefixOf(key)].active >= c.prefixMaxConnections then
        (if held == 0 then PushIdle(w, key, Limited) else w, Refused(PrefixLimit))
      else (Open(w, key), Granted(Some(key)))
  }

  function Acquire(c: Config, t: Tracker, source: IpAddr, now: real): (r: (Tracker, Outcome)) {
    if !c.enabled then (t, Granted(None))
    else
      match Admit(c, t, KeyOf(source), now)
      case None => (t, Refused(TrackingCapacity))
      case Some(u) =>
        if KeyOf(source) in u.sources then Charge(c, u, KeyOf(source), now) else (u, Refused(TrackingCapacity))
  }

  function Request(c: Config, t: Tracker, key: SourceKey, now: real): (r: (Tracker, bool)) {
    if key !in t.sources then (t, false) else
      var e := t.sources[key];
      var b := Refill(e.requests, now, c.requestRate, c.requestBurst);
      var allowed := b.tokens >= 1.0;
      (t.(sources := t.sources[key := e.(requests := if allowed then Take(b) else b, lastSeen := now)]), allowed)
  }

  function Close(t: Tracker, key: SourceKey): (r: Tracker) {
    var a := PrefixOf(key);
    var u := if a !in t.prefixes then t else
      t.(prefixes := t.prefixes[a := t.prefixes[a].(active := Decrement(t.prefixes[a].active))]);
    if key !in t.sources then u else
      u.(sources := t.sources[key := t.sources[key].(active := Decrement(t.sources[key].active))])
  }

  function Settle(c: Config, t: Tracker, key: SourceKey, now: real): (r: Tracker)
    requires key in t.sources
  {
    var e := t.sources[key];
    var q := Refill(e.requests, now, c.requestRate, c.requestBurst);
    var b := Refill(e.connections, now, c.connectionRate, c.connectionBurst);
    var full := q.tokens >= c.requestBurst as real && b.tokens >= c.connectionBurst as real;
    var u := t.(sources := t.sources[key := e.(requests := q, connections := b)]);
    PushIdle(u, key, if full then Refilled else Limited)
  }

  function Release(c: Config, t: Tracker, key: SourceKey, now: real): (r: Tracker) {
    var u := Close(t, key);
    if key !in u.sources || u.sources[key].active != 0 then u else Settle(c, u, key, now)
  }
}

/**
 The outbound spool of a federation node: forwards that could not be delivered wait in one queue
 per peer, and passes retry them.
 */
module Spool {
  import opened Basics

  type Peer = string

  /** A waiting forward. `ticket` is its place among all forwards ever spooled. */
  datatype Entry = Entry(peer: Peer, number: nat, ticket: nat, expires: nat)

  datatype Event =
    | Delivered(peer: Peer, ticket: nat)
    | DeadLettered(peer: Peer, ticket: nat)
    | Deferred(peer: Peer, ticket: nat)
    | Expired(peer: Peer, ticket: nat)

  datatype Answer = Accepted | Refused | Failed

  type Table = map<Peer, seq<Entry>>

  function Queue(t: Table, p: Peer): (r: seq<Entry>) {
    if p in t then t[p] else []
  }

  predicate Resolves(e: Event) {
    e.Delivered? || e.DeadLettered?
  }

  // Reading the history peer by peer

  ghost function Tickets(s: seq<Entry>): (r: seq<nat>)
    ensures |r| == |s| && forall i :: 0 <= i < |s| ==> r[i] == s[i].ticket
  {
    seq(|s|, i requires 0 <= i < |s| => s[i].ticket)
  }

  /** The tickets of a peer that were delivered or dead-lettered, in the order it happened. */
  ghost function Resolved(p: Peer, h: seq<Event>): (r: seq<nat>) {
    if h == [] then [] else
      var e := h[|h| - 1];
      Resolved(p, h[..|h| - 1]) + (if Resolves(e) && e.peer == p then [e.ticket] else [])
  }

  /** The tickets of a peer that ran out of time. */
  ghost function Lapsed(p: Peer, h: seq<Event>): (r: set<nat>) {
    if h == [] then {} else
      var e := h[|h| - 1];
      Lapsed(p, h[..|h| - 1]) + (if e.Expired? && e.peer == p then {e.ticket} else {})
  }

  ghost predicate Ascending(s: seq<nat>) {
    forall i, j :: 0 <= i < j < |s| ==> s[i] < s[j]
  }

  /** A peer's forwards in the order they were spooled: first what is resolved, then what waits. */
  ghost function Line(p: Peer, q: seq<Entry>, h: seq<Event>): (r: seq<nat>) {
    Resolved(p, h) + Tickets(q)
  }

  /** The peer's forwards resolve in the order they were spooled, and each of them is in exactly one
      place: resolved, waiting or expired. `owner` says whom each ticket was spooled for. */
  ghost predicate PeerOk(p: Peer, q: seq<Entry>, h: seq<Event>, owner: seq<Peer>) {
    && (forall i :: 0 <= i < |q| ==> q[i].peer == p)
    && (forall i, j :: 0 <= i < j < |q| ==> q[i].number < q[j].number)
    && Ascending(Line(p, q, h))
    && (forall t :: t in Line(p, q, h) ==> t !in Lapsed(p, h))
    && (forall t: nat :: t in Line(p, q, h) || t in Lapsed(p, h) <==> t < |owner| && owner[t] == p)
  }

  // One thing after the other

  lemma After(p: Peer, h: seq<Event>, e: Event)
    ensures Resolved(p, h + [e]) == Resolved(p, h) + (if Resolves(e) && e.peer == p then [e.ticket] else [])
    ensures Lapsed(p, h + [e]) == Lapsed(p, h) + (if e.Expired? && e.peer == p then {e.ticket} else {})
  {
    assert (h + [e])[..|h|] == h;
  }

  /** Resolving the first forward of a queue moves it along the line. */
  lemma ResolveFirst(p: Peer, q: seq<Entry>, h: seq<Event>, owner: seq<Peer>, e: Event)
    requires PeerOk(p, q, h, owner) && q != [] && Resolves(e) && e.peer == p && e.ticket == q[0].ticket
    ensures PeerOk(p, q[1..], h + [e], owner)
  {
    hide Line, Resolved, Lapsed, Ascending;
    After(p, h, e);
    LineMoves(p, q, h, e);
  }

  lemma LineMoves(p: Peer, q: seq<Entry>, h: seq<Event>, e: Event)
    requires q != [] && Resolves(e) && e.peer == p && e.ticket == q[0].ticket
    ensures Line(p, q[1..], h + [e]) == Line(p, q, h)
  {
    After(p, h, e);
    assert Tickets(q) == [e.ticket] + Tickets(q[1..]);
    Regroup(Resolved(p, h), e.ticket, Tickets(q[1..]));
  }

  lemma NotMine(p: Peer, q: seq<Entry>, h: seq<Event>, owner: seq<Peer>, e: Event)
    requires PeerOk(p, q, h, owner) && (e.Deferred? || e.peer != p)
    ensures PeerOk(p, q, h + [e], owner)
  {
    After(p, h, e);
    assert Line(p, q, h + [e]) == Line(p, q, h);
  }

  /** A forward that ran out of time leaves its place; the others keep their order. */
  lemma ExpireAny(p: Peer, q: seq<Entry>, h: seq<Event>, owner: seq<Peer>, i: nat)
    requires PeerOk(p, q, h, owner) && i < |q|
    ensures PeerOk(p, q[..i] + q[i + 1..], h + [Expired(p, q[i].ticket)], owner)
  {
    hide Line, Resolved, Lapsed, Ascending;
    LineCut(p, q, h, i);
    Gap(Line(p, q, h), |Resolved(p, h)| + i);
    CutOrder(p, q, i);
    After(p, h, Expired(p, q[i].ticket));
  }

  lemma LineCut(p: Peer, q: seq<Entry>, h: seq<Event>, i: nat)
    requires i < |q|
    ensures var a, k := Line(p, q, h), |Resolved(p, h)| + i;
            && k < |a| && a[k] == q[i].ticket
            && Line(p, q[..i] + q[i + 1..], h + [Expired(p, q[i].ticket)]) == a[..k] + a[k + 1..]
  {
    hide Resolved, Lapsed;
    After(p, h, Expired(p, q[i].ticket));
    var cut := q[..i] + q[i + 1..];
    assert Tickets(cut) == Tickets(q)[..i] + Tickets(q)[i + 1..];
    assert Line(p, cut, h + [Expired(p, q[i].ticket)]) == Resolved(p, h) + Tickets(cut);
  }

  lemma CutOrder(p: Peer, q: seq<Entry>, i: nat)
    requires i < |q| && (forall j :: 0 <= j < |q| ==> q[j].peer == p)
    requires (forall j, k :: 0 <= j < k < |q| ==> q[j].number < q[k].number)
    ensures var r := q[..i] + q[i + 1..];
            && (forall j :: 0 <= j < |r| ==> r[j].peer == p)
            && (forall j, k :: 0 <= j < k < |r| ==> r[j].number < r[k].number)
  {
  }

  lemma Gap(a: seq<nat>, k: nat)
    requires Ascending(a) && k < |a|
    ensures Ascending(a[..k] + a[k + 1..])
    ensures forall t :: t in a[..k] + a[k + 1..] <==> t in a && t != a[k]
  {
    var b := a[..k] + a[k + 1..];
    forall t ensures t in b <==> t in a && t != a[k] {
      if t in a && t != a[k] {
        var i :| 0 <= i < |a| && a[i] == t;
        assert b[if i < k then i else i - 1] == t;
      }
    }
  }

  lemma Snoc(s: seq<nat>, x: nat)
    requires Ascending(s) && forall t :: t in s ==> t < x
    ensures Ascending(s + [x])
  {
    assert forall i :: 0 <= i < |s| ==> s[i] in s;
  }

  lemma NothingSpooled(p: Peer)
    ensures PeerOk(p, [], [], [])
  {
    assert Line(p, [], []) == [];
  }

  /** A new forward goes to the end of its peer's queue. */
  lemma SpoolNew(p: Peer, q: seq<Entry>, h: seq<Event>, owner: seq<Peer>, d: Peer, e: Entry)
    requires PeerOk(p, q, h, owner) && e.peer == d && e.ticket == |owner|
    requires forall i :: 0 <= i < |q| ==> d == p ==> q[i].number < e.number
    ensures PeerOk(p, if d == p then q + [e] else q, h, owner + [d])
  {
    hide Resolved, Lapsed;
    var line, more := Line(p, q, h), owner + [d];
    assert |owner| !in line && |owner| !in Lapsed(p, h);
    assert forall t: nat :: t < |more| ==> more[t] == if t < |owner| then owner[t] else d;
    if d == p {
      var r := q + [e];
      assert Line(p, r, h) == line + [|owner|];
      assert forall t: nat :: t in line ==> t < |owner|;
      Snoc(line, |owner|);
      assert forall t: nat :: t in line + [|owner|] <==> t in line || t == |owner|;
      assert PeerOk(p, r, h, more);
    } else {
      assert PeerOk(p, q, h, more);
    }
  }

  // What this says of whole histories

  lemma {:induction false} ResolvedGrows(p: Peer, h: seq<Event>, k: nat)
    requires k <= |h|
    ensures Resolved(p, h[..k]) <= Resolved(p, h)
  {
    if k < |h| {
      ResolvedGrows(p, h[..|h| - 1], k);
      assert h[..|h| - 1][..k] == h[..k];
    } else {
      assert h[..k] == h;
    }
  }

  lemma ResolvedAt(p: Peer, h: seq<Event>, i: nat)
    requires i < |h| && Resolves(h[i]) && h[i].peer == p
    ensures var k := |Resolved(p, h[..i])|; k < |Resolved(p, h)| && Resolved(p, h)[k] == h[i].ticket
  {
    assert h[..i + 1][..i] == h[..i] && h[..i + 1][i] == h[i];
    ResolvedGrows(p, h, i + 1);
  }

  /** Whatever is delivered or dead-lettered for a peer comes in the order it was spooled, so that no
      forward meets both ends; what still waits was spooled later. */
  lemma InOrder(p: Peer, q: seq<Entry>, h: seq<Event>, owner: seq<Peer>, i: nat, j: nat)
    requires PeerOk(p, q, h, owner)
    requires i < |h| && Resolves(h[i]) && h[i].peer == p
    ensures i < j < |h| && Resolves(h[j]) && h[j].peer == p ==> h[i].ticket < h[j].ticket
    ensures j < |q| ==> h[i].ticket < q[j].ticket
    ensures h[i].ticket !in Lapsed(p, h)
  {
    hide Resolved, Lapsed;
    ResolvedAt(p, h, i);
    var line, k := Line(p, q, h), |Resolved(p, h[..i])|;
    assert line[k] == h[i].ticket;
    if i < j < |h| && Resolves(h[j]) && h[j].peer == p {
      ResolvedAt(p, h, j);
      assert h[..j][..i] == h[..i] && h[..j][i] == h[i];
      ResolvedAt(p, h[..j], i);
      assert line[|Resolved(p, h[..j])|] == h[j].ticket;
    }
    if j < |q| {
      assert line[|Resolved(p, h)| + j] == q[j].ticket;
    }
  }

  /** The number after the largest in a queue. */
  function NextNumber(q: seq<Entry>): (r: nat)
    ensures forall i :: 0 <= i < |q| ==> q[i].number < r
  {
    if q == [] then 1 else
      var rest := NextNumber(q[..|q| - 1]);
      if q[|q| - 1].number < rest then rest else q[|q| - 1].number + 1
  }

  /** A queue without the forward of that number. */
  function WithoutNumber(q: seq<Entry>, number: nat): (r: seq<Entry>) {
    if q == [] then [] else (if q[0].number == number then [] else [q[0]]) + WithoutNumber(q[1..], number)
  }

  ghost predicate Numbered(q: seq<Entry>) {
    forall i, j :: 0 <= i < j < |q| ==> q[i].number < q[j].number
  }

  lemma {:induction false} NumberAbsent(q: seq<Entry>, number: nat)
    requires forall i :: 0 <= i < |q| ==> q[i].number != number
    ensures WithoutNumber(q, number) == q
  {
    if q != [] {
      NumberAbsent(q[1..], number);
      assert q == [q[0]] + q[1..];
    }
  }

  lemma FirstByNumber(p: Peer, q: seq<Entry>, h: seq<Event>, owner: seq<Peer>)
    requires PeerOk(p, q, h, owner) && q != []
    ensures WithoutNumber(q, q[0].number) == q[1..]
  {
    NumberAbsent(q[1..], q[0].number);
  }

  lemma {:induction false} NumberGone(q: seq<Entry>, number: nat, x: Entry)
    ensures x in WithoutNumber(q, number) <==> x in q && x.number != number
  {
    if q != [] {
      NumberGone(q[1..], number, x);
      assert q == [q[0]] + q[1..];
    }
  }

  /** Removing a listed forward by its number takes nothing else away exactly when the forward still
      waits, or its number has not been given again. */
  lemma RemovesOnlyListed(q: seq<Entry>, e: Entry)
    requires Numbered(q)
    ensures (forall x :: x in q && x !in WithoutNumber(q, e.number) ==> x == e) <==>
            e in q || forall x :: x in q ==> x.number != e.number
  {
    forall x ensures x in WithoutNumber(q, e.number) <==> x in q && x.number != e.number {
      NumberGone(q, e.number, x);
    }
  }

  /** A sweep between the listing and the removal, then an arrival under the freed number: the listed
      forward was sent, and the removal takes away another that was never tried. */
  lemma SweptMeanwhile(p: Peer) returns (e: Entry, later: Entry, q: seq<Entry>)
    ensures q == Kept([e], e.expires) + [later] && later == Entry(p, NextNumber(Kept([e], e.expires)), 1, 9)
    ensures e == Entry(p, NextNumber([]), 0, 5) && WithoutNumber(q, e.number) == []
  {
    e := Entry(p, 1, 0, 5);
    assert [e][..0] == [];
    later := Entry(p, 1, 1, 9);
    q := [later];
  }

  function OneMore(attempts: map<(Peer, nat), nat>, p: Peer, number: nat): (r: map<(Peer, nat), nat>) {
    attempts[(p, number) := 1 + if (p, number) in attempts then attempts[(p, number)] else 0]
  }

  // One pass

  ghost function Count(p: Peer, s: seq<Entry>): (r: nat) {
    if s == [] then 0 else Count(p, s[..|s| - 1]) + (if s[|s| - 1].peer == p then 1 else 0)
  }

  /** A listing takes each peer's forwards from the front of its queue, in their order. */
  ghost predicate Listing(t: Table, s: seq<Entry>) {
    forall i :: 0 <= i < |s| ==>
      var k := Count(s[i].peer, s[..i]);
      k < |Queue(t, s[i].peer)| && s[i] == Queue(t, s[i].peer)[k]
  }

  /** The events of one peer. */
  ghost function EventsOf(p: Peer, h: seq<Event>): (r: seq<Event>) {
    if h == [] then [] else EventsOf(p, h[..|h| - 1]) + (if h[|h| - 1].peer == p then [h[|h| - 1]] else [])
  }

  lemma EventsMore(p: Peer, h: seq<Event>, e: Event)
    ensures EventsOf(p, h + [e]) == EventsOf(p, h) + (if e.peer == p then [e] else [])
  {
    assert (h + [e])[..|h|] == h;
  }

  /** The forwards of `q` are attempted in order, each resolved but perhaps the last, which is deferred. */
  ghost predicate Shape(events: seq<Event>, q: seq<Entry>) {
    && |events| <= |q|
    && forall i :: 0 <= i < |events| ==>
         && events[i].ticket == q[i].ticket
         && (if i < |events| - 1 then Resolves(events[i]) else Resolves(events[i]) || events[i].Deferred?)
  }

  ghost predicate AllResolve(events: seq<Event>) {
    forall i :: 0 <= i < |events| ==> Resolves(events[i])
  }

  /** The forwards of a queue were tried from its front; those not resolved are still in front. */
  ghost predicate Tried(events: seq<Event>, listed: seq<Entry>, left: seq<Entry>) {
    Shape(events, listed) && listed[Resolutions(events)..] <= left
  }

  /** How far a pass has come with one peer: a blocked peer is done with; any other has had all its
      forwards seen so far resolved. */
  ghost predicate PeerPass(p: Peer, start: Table, done: seq<Event>, t: Table, blocked: set<Peer>, seen: nat) {
    && Tried(EventsOf(p, done), Queue(start, p), Queue(t, p))
    && (p !in blocked ==> AllResolve(EventsOf(p, done)) && |EventsOf(p, done)| == seen <= |Queue(start, p)|)
  }

  lemma ShapeMore(events: seq<Event>, q: seq<Entry>, e: Event)
    requires Shape(events, q) && AllResolve(events) && |events| < |q| && e.ticket == q[|events|].ticket
    requires (Resolves(e) || e.Deferred?)
    ensures Shape(events + [e], q)
  {
  }

  lemma CountMore(p: Peer, s: seq<Entry>, i: nat)
    requires i < |s|
    ensures Count(p, s[..i + 1]) == Count(p, s[..i]) + (if s[i].peer == p then 1 else 0)
  {
    assert s[..i + 1][..i] == s[..i] && s[..i + 1][i] == s[i];
  }

  /** The forwards that still have time, in their order. */
  function Kept(q: seq<Entry>, now: nat): (r: seq<Entry>)
    ensures |r| <= |q|
  {
    if q == [] then [] else Kept(q[..|q| - 1], now) + (if q[|q| - 1].expires > now then [q[|q| - 1]] else [])
  }

  /** What is told of the others. */
  ghost function Lapses(p: Peer, q: seq<Entry>, now: nat): (r: seq<Event>) {
    if q == [] then [] else
      Lapses(p, q[..|q| - 1], now) + (if q[|q| - 1].expires > now then [] else [Expired(p, q[|q| - 1].ticket)])
  }

  lemma KeptMore(p: Peer, q: seq<Entry>, k: nat, now: nat)
    requires k < |q|
    ensures Kept(q[..k + 1], now) == Kept(q[..k], now) + (if q[k].expires > now then [q[k]] else [])
    ensures Lapses(p, q[..k + 1], now) ==
            Lapses(p, q[..k], now) + (if q[k].expires > now then [] else [Expired(p, q[k].ticket)])
  {
    assert q[..k + 1][..k] == q[..k] && q[..k + 1][k] == q[k];
  }

  /** A forward stays exactly when it was there and still has time. */
  lemma {:induction false} KeptIff(q: seq<Entry>, now: nat, e: Entry)
    ensures e in Kept(q, now) <==> e in q && e.expires > now
  {
    if q != [] {
      KeptIff(q[..|q| - 1], now, e);
      assert q == q[..|q| - 1] + [q[|q| - 1]];
    }
  }

  lemma {:induction false} LapsesOf(p: Peer, q: seq<Entry>, now: nat, d: Peer)
    ensures EventsOf(d, Lapses(p, q, now)) == if d == p then Lapses(p, q, now) else []
  {
    if q != [] {
      LapsesOf(p, q[..|q| - 1], now, d);
      if q[|q| - 1].expires <= now {
        EventsMore(d, Lapses(p, q[..|q| - 1], now), Expired(p, q[|q| - 1].ticket));
      } else {
        assert Lapses(p, q, now) == Lapses(p, q[..|q| - 1], now);
      }
    }
  }

  lemma {:induction false} EventsJoin(p: Peer, a: seq<Event>, b: seq<Event>)
    ensures EventsOf(p, a + b) == EventsOf(p, a) + EventsOf(p, b)
  {
    if b == [] {
      assert a + b == a;
    } else {
      hide EventsOf;
      var c, e := b[..|b| - 1], b[|b| - 1];
      EventsJoin(p, a, c);
      assert b == c + [e];
      Associative(a, c, [e]);
      EventsMore(p, a + c, e);
      EventsMore(p, c, e);
      Associative(EventsOf(p, a), EventsOf(p, c), if e.peer == p then [e] else []);
    }
  }

  /** How many of these tries resolved their forward, where only the last may have been deferred. */
  ghost function Resolutions(events: seq<Event>): (r: nat)
    ensures r <= |events|
  {
    if events != [] && events[|events| - 1].Deferred? then |events| - 1 else |events|
  }

  /**
   What a pass did for one peer. Of the queue it found, the expired forwards lapsed and all others
   stayed; `listed` is what stayed with what arrived before it was listed. Its forwards were tried
   from the front, all tries but perhaps the last resolved theirs, and what was not resolved is
   still there, in its order and before anything that came later.
   */
  ghost predicate Passed(p: Peer, found: seq<Entry>, now: nat, listed: seq<Entry>, added: seq<Event>,
                         left: seq<Entry>) {
    var events, lapses := EventsOf(p, added), Lapses(p, found, now);
    && Kept(found, now) <= listed && lapses <= events
    && Shape(events[|lapses|..], listed)
    && listed[Resolutions(events[|lapses|..])..] <= left
  }

  class Store {
    var table: Table
    var attempts: map<(Peer, nat), nat>
    ghost var history: seq<Event>
    /** Whom each ticket was spooled for. */
    var owner: seq<Peer>

    ghost predicate Valid()
      reads this
    {
      forall p :: PeerOk(p, Queue(table, p), history, owner)
    }

    constructor ()
      ensures Valid() && history == [] && owner == []
    {
      hide PeerOk;
      table, attempts, history, owner := map[], map[], [], [];
      new;
      forall p ensures PeerOk(p, Queue(table, p), history, owner) {
        NothingSpooled(p);
      }
    }

    /** Spools a forward that could not be sent. */
    method SpoolForward(p: Peer, expires: nat)
      requires Valid()
      modifies this`table, this`owner
      ensures Valid() && owner == old(owner) + [p]
      ensures forall d :: Queue(old(table), d) <= Queue(table, d)
      ensures Queue(table, p) == Queue(old(table), p)
              + [Entry(p, NextNumber(Queue(old(table), p)), |old(owner)|, expires)]
    {
      var e := Entry(p, NextNumber(Queue(table, p)), |owner|, expires);
      ghost var was := table;
      table := table[p := Queue(table, p) + [e]];
      owner := owner + [p];
      forall d ensures PeerOk(d, Queue(table, d), history, owner) {
        SpoolNew(d, Queue(was, d), history, old(owner), p, e);
      }
    }

    /** Forwards that arrive while a pass is under way. */
    method Arrivals()
      requires Valid()
      modifies this`table, this`owner
      ensures Valid() && forall d :: Queue(old(table), d) <= Queue(table, d)
    {
      var peers: seq<(Peer, nat)> := *;
      for i := 0 to |peers|
        invariant Valid() && forall d :: Queue(old(table), d) <= Queue(table, d)
      {
        ghost var was := table;
        SpoolForward(peers[i].0, peers[i].1);
        assert forall d :: Queue(was, d) <= Queue(table, d);
      }
    }

    /** Takes the first forward of a queue away by its number, delivered or dead-lettered. */
    method Resolve(p: Peer, number: nat, ghost e: Event)
      requires Valid() && Queue(table, p) != [] && number == Queue(table, p)[0].number
      requires Resolves(e) && e.peer == p && e.ticket == Queue(table, p)[0].ticket
      modifies this`table, this`history
      ensures Valid() && history == old(history) + [e]
      ensures table == old(table)[p := Queue(old(table), p)[1..]]
    {
      hide PeerOk;
      ghost var was, h := table, history;
      FirstByNumber(p, Queue(table, p), history, owner);
      table := table[p := WithoutNumber(Queue(table, p), number)];
      history := history + [e];
      forall d ensures PeerOk(d, Queue(table, d), history, owner) {
        if d == p {
          ResolveFirst(p, Queue(was, p), h, owner, e);
        } else {
          NotMine(d, Queue(was, d), h, owner, e);
        }
      }
    }

    /** Counts an attempt that did not get through. */
    method Defer(p: Peer, number: nat, ghost e: Event)
      requires Valid() && e.Deferred?
      modifies this`attempts, this`history
      ensures Valid() && history == old(history) + [e] && attempts == OneMore(old(attempts), p, number)
    {
      hide PeerOk;
      forall d ensures PeerOk(d, Queue(table, d), history + [e], owner) {
        NotMine(d, Queue(table, d), history, owner, e);
      }
      attempts := OneMore(attempts, p, number);
      history := history + [e];
    }

    /** Takes a forward that ran out of time out of its queue. */
    method Expire(p: Peer, i: nat)
      requires Valid() && i < |Queue(table, p)|
      modifies this`table, this`history
      ensures Valid() && table == old(table)[p := Queue(old(table), p)[..i] + Queue(old(table), p)[i + 1..]]
      ensures history == old(history) + [Expired(p, Queue(old(table), p)[i].ticket)]
    {
      hide PeerOk;
      ghost var was, h, e := table, history, Expired(p, Queue(table, p)[i].ticket);
      table := table[p := Queue(table, p)[..i] + Queue(table, p)[i + 1..]];
      history := history + [e];
      forall d ensures PeerOk(d, Queue(table, d), history, owner) {
        if d == p {
          ExpireAny(p, Queue(was, p), h, owner, i);
        } else {
          NotMine(d, Queue(was, d), h, owner, e);
        }
      }
    }

    /** Drops what has run out of time from one queue. */
    method ExpireQueue(p: Peer, now: nat)
      requires Valid()
      modifies this`table, this`history
      ensures Valid() && forall d :: d != p ==> Queue(table, d) == Queue(old(table), d)
      ensures Queue(table, p) == Kept(Queue(old(table), p), now)
      ensures history == old(history) + Lapses(p, Queue(old(table), p), now)
    {
      hide PeerOk, Kept, Lapses, Halfway;
      ghost var q, k := Queue(table, p), 0;
      var i := 0;
      HalfwayEnds(p, q, now);
      while i < |Queue(table, p)|
        invariant 0 <= k <= |q| && i == |Kept(q[..k], now)| && Valid()
        invariant Queue(table, p) == Halfway(q, k, now)
        invariant history == old(history) + Lapses(p, q[..k], now)
        invariant forall d :: d != p ==> Queue(table, d) == Queue(old(table), d)
        decreases |q| - k
      {
        HalfwayMore(p, q, k, now);
        if Queue(table, p)[i].expires <= now {
          Expire(p, i);
        } else {
          i := i + 1;
        }
        k := k + 1;
      }
    }

    /** Drops what has run out of time everywhere. */
    method Sweep(now: nat)
      requires Valid()
      modifies this`table, this`history
      ensures Valid() && old(history) <= history
      ensures forall p :: Queue(table, p) == Kept(Queue(old(table), p), now)
      ensures forall p :: EventsOf(p, history[|old(history)|..]) == Lapses(p, Queue(old(table), p), now)
    {
      hide PeerOk, Kept, Lapses, EventsOf, Queue, SweptPeer;
      var todo := table.Keys;
      ghost var told := [];
      NothingToSweep(table, now);
      while todo != {}
        invariant Valid() && history == old(history) + told
        invariant forall p :: SweptPeer(p, old(table), table, told, now, todo)
        decreases todo
      {
        var p :| p in todo;
        ghost var t := table;
        ExpireQueue(p, now);
        SweptMore(p, old(table), t, table, told, now, todo);
        told := told + Lapses(p, Queue(t, p), now);
        todo := todo - {p};
      }
      assert history[|old(history)|..] == told;
      SweptAll(old(table), table, told, now);
    }

    /** Lists up to `limit` waiting forwards, peer by peer. */
    method ListPending(limit: nat) returns (list: seq<Entry>)
      requires Valid()
      ensures Listing(table, list) && |list| <= limit
      ensures |list| == limit || forall p :: Count(p, list) == |Queue(table, p)|
    {
      hide Listing, Count, PeerOk;
      list := [];
      NothingListed(table);
      var todo := table.Keys;
      while todo != {} && |list| < limit
        invariant todo <= table.Keys && Listing(table, list) && |list| <= limit
        invariant forall p :: p in todo ==> Count(p, list) == 0
        invariant |list| == limit || forall p :: p !in todo ==> Count(p, list) == |Queue(table, p)|
        decreases todo
      {
        var p :| p in todo;
        list := ListPeer(p, list, limit);
        todo := todo - {p};
      }
    }

    /** Adds what waits for one peer, as far as the limit allows. */
    method ListPeer(p: Peer, before: seq<Entry>, limit: nat) returns (list: seq<Entry>)
      requires Valid() && Listing(table, before) && Count(p, before) == 0 && |before| <= limit
      ensures Listing(table, list) && |before| <= |list| <= limit
      ensures |list| == limit || Count(p, list) == |Queue(table, p)|
      ensures forall d :: d != p ==> Count(d, list) == Count(d, before)
    {
      hide Listing, Count, PeerOk;
      list := before;
      var q := if p in table then table[p] else [];
      MineOnly(p, Queue(table, p), history, owner);
      var i := 0;
      while i < |q| && |list| < limit
        invariant 0 <= i <= |q| && Listing(table, list) && |before| <= |list| <= limit && Count(p, list) == i
        invariant forall d :: d != p ==> Count(d, list) == Count(d, before)
      {
        ListingMore(table, list, q[i]);
        list := list + [q[i]];
        i := i + 1;
      }
    }

    /** One try of one forward. */
    method Attempt(e: Entry) returns (stored: bool, event: Option<Event>)
      requires Valid() && Queue(table, e.peer) != [] && Queue(table, e.peer)[0] == e
      modifies this
      ensures Valid() && history == old(history) + (if event.Some? then [event.value] else [])
      ensures !stored ==> event == None
      ensures event.Some? ==>
                event.value.peer == e.peer && event.value.ticket == e.ticket
                  && (Resolves(event.value) || event.value.Deferred?)
      ensures table ==
              if event.Some? && Resolves(event.value) then old(table)[e.peer := Queue(old(table), e.peer)[1..]]
              else old(table)
      ensures stored ==> event.Some?
      ensures attempts ==
              if event.Some? && event.value.Deferred? then OneMore(old(attempts), e.peer, e.number) else old(attempts)
    {
      hide PeerOk;
      var answer: Answer := *;
      stored := *;
      event := None;
      if !stored {
        return;
      }
      match answer {
        case Accepted =>
          event := Some(Delivered(e.peer, e.ticket));
          Resolve(e.peer, e.number, Delivered(e.peer, e.ticket));
        case Refused =>
          event := Some(DeadLettered(e.peer, e.ticket));
          Resolve(e.peer, e.number, DeadLettered(e.peer, e.ticket));
        case Failed =>
          event := Some(Deferred(e.peer, e.ticket));
          Defer(e.peer, e.number, Deferred(e.peer, e.ticket));
      }
    }

    /**
     A pass over the spool, with forwards arriving at any time and the store or a shutdown ending it
     at any point. It only adds to the history, and does for every peer what `Passed` says; when the
     sweep fails nothing changes. `listed` are the queues at the moment they are listed.
     */
    method RetryPass(now: nat, batch: nat) returns (ok: bool, swept: bool, ghost listed: Table)
      requires Valid()
      modifies this
      ensures Valid() && old(history) <= history && (ok ==> swept)
      ensures !swept ==> table == old(table) && history == old(history)
      ensures swept ==>
                forall p :: Passed(p, Queue(old(table), p), now, Queue(listed, p), history[|old(history)|..],
                                   Queue(table, p))
    {
      hide PeerOk, PeerPass, Passing, Passed, Shape, Listing, Count, Kept, Lapses, EventsOf, Queue;
      swept, ok, listed := *, false, table;
      if !swept {
        return;
      }
      Sweep(now);
      ghost var found, h, told := old(table), history, history[|old(history)|..];
      ghost var kept := table;
      Arrivals();
      listed := table;
      ghost var done: seq<Event>;
      ok, done := Retry(batch);
      assert history[|old(history)|..] == told + done;
      forall p ensures Passed(p, Queue(found, p), now, Queue(listed, p), told + done, Queue(table, p)) {
        assert Queue(kept, p) == Kept(Queue(found, p), now) && Queue(kept, p) <= Queue(listed, p);
        PassedPeer(p, Queue(found, p), now, Queue(listed, p), told, done, Queue(table, p));
      }
    }

    /** The tries of a pass. */
    method Retry(batch: nat) returns (ok: bool, ghost done: seq<Event>)
      requires Valid()
      modifies this
      ensures Valid() && history == old(history) + done
      ensures forall p :: Tried(EventsOf(p, done), Queue(old(table), p), Queue(table, p))
    {
      hide PeerOk, PeerPass, Passing, Shape, Listing, Count, EventsOf, Tried;
      ghost var start, before := table, history;
      done := [];
      var list := ListPending(batch);
      var blocked := {};
      var i := 0;
      PassStarts(start);
      assert list[..0] == [];
      while i < |list|
        invariant 0 <= i <= |list| && Valid() && Listing(start, list) && history == before + done
        invariant Passing(start, done, table, blocked, list[..i])
      {
        var shutdown: bool := *;
        if shutdown {
          break;
        }
        ghost var t := table;
        Arrivals();
        MoreWaits(start, done, t, table, blocked, list[..i]);
        var e := list[i];
        if e.peer !in blocked {
          FrontOfQueue(start, done, table, blocked, list, i);
          var event: Option<Event>;
          t := table;
          ok, event := Attempt(e);
          if !ok {
            PassTried(start, done, t, blocked, list[..i]);
            return;
          }
          Attempted(start, done, t, table, blocked, list, i, event.value);
          if event.value.Deferred? {
            blocked := blocked + {e.peer};
          }
          done := done + [event.value];
        } else {
          Skipped(start, done, table, blocked, list, i);
        }
        i := i + 1;
      }
      PassTried(start, done, table, blocked, list[..i]);
      ok := true;
    }
  }

  ghost predicate Passing(start: Table, done: seq<Event>, t: Table, blocked: set<Peer>, seen: seq<Entry>) {
    forall p :: PeerPass(p, start, done, t, blocked, Count(p, seen))
  }

  lemma PassStarts(start: Table)
    ensures Passing(start, [], start, {}, [])
  {
  }

  lemma PassTried(start: Table, done: seq<Event>, t: Table, blocked: set<Peer>, seen: seq<Entry>)
    requires Passing(start, done, t, blocked, seen)
    ensures forall p :: Tried(EventsOf(p, done), Queue(start, p), Queue(t, p))
  {
    forall p ensures Tried(EventsOf(p, done), Queue(start, p), Queue(t, p)) {
      assert PeerPass(p, start, done, t, blocked, Count(p, seen));
    }
  }

  /** A queue whose first `k` forwards have been looked at. */
  ghost function Halfway(q: seq<Entry>, k: nat, now: nat): (r: seq<Entry>)
    requires k <= |q|
    ensures |r| == |Kept(q[..k], now)| + |q| - k
  {
    Kept(q[..k], now) + q[k..]
  }

  lemma HalfwayEnds(p: Peer, q: seq<Entry>, now: nat)
    ensures Halfway(q, 0, now) == q && Kept(q[..0], now) == [] && Lapses(p, q[..0], now) == []
    ensures Halfway(q, |q|, now) == Kept(q, now) && q[..|q|] == q
  {
    assert q[..|q|] == q && q[|q|..] == [] && q[..0] == [];
    assert Kept(q, now) + [] == Kept(q, now);
  }

  lemma HalfwayMore(p: Peer, q: seq<Entry>, k: nat, now: nat)
    requires k < |q|
    ensures var half, i := Halfway(q, k, now), |Kept(q[..k], now)|;
            && i < |half| && half[i] == q[k]
            && (if q[k].expires <= now then
                  && Halfway(q, k + 1, now) == half[..i] + half[i + 1..] && |Kept(q[..k + 1], now)| == i
                  && Lapses(p, q[..k + 1], now) == Lapses(p, q[..k], now) + [Expired(p, q[k].ticket)]
                else
                  && Halfway(q, k + 1, now) == half && |Kept(q[..k + 1], now)| == i + 1
                  && Lapses(p, q[..k + 1], now) == Lapses(p, q[..k], now))
  {
    hide Kept, Lapses;
    KeptMore(p, q, k, now);
    CutMiddle(Kept(q[..k], now), q, k);
    assert Lapses(p, q[..k], now) + [] == Lapses(p, q[..k], now);
  }

  lemma CutMiddle(a: seq<Entry>, q: seq<Entry>, k: nat)
    requires k < |q|
    ensures (a + q[k..])[|a|] == q[k]
    ensures (a + q[k..])[..|a|] + (a + q[k..])[|a| + 1..] == a + q[k + 1..]
    ensures a + q[k..] == a + [q[k]] + q[k + 1..]
  {
  }

  /** A sweep is done with a peer, or has not touched it yet. */
  ghost predicate SweptPeer(p: Peer, before: Table, t: Table, told: seq<Event>, now: nat, todo: set<Peer>) {
    var q := Queue(before, p);
    if p !in todo then Queue(t, p) == Kept(q, now) && EventsOf(p, told) == Lapses(p, q, now)
    else Queue(t, p) == q && EventsOf(p, told) == []
  }

  lemma NothingToSweep(t: Table, now: nat)
    ensures forall p :: SweptPeer(p, t, t, [], now, t.Keys)
  {
  }

  lemma SweptMore(p: Peer, before: Table, t: Table, u: Table, told: seq<Event>, now: nat, todo: set<Peer>)
    requires p in todo && forall d :: SweptPeer(d, before, t, told, now, todo)
    requires Queue(u, p) == Kept(Queue(t, p), now) && forall d :: d != p ==> Queue(u, d) == Queue(t, d)
    ensures forall d :: SweptPeer(d, before, u, told + Lapses(p, Queue(t, p), now), now, todo - {p})
  {
    hide Kept, Lapses, EventsOf, Queue;
    var more := Lapses(p, Queue(t, p), now);
    forall d ensures SweptPeer(d, before, u, told + more, now, todo - {p}) {
      assert SweptPeer(d, before, t, told, now, todo);
      EventsJoin(d, told, more);
      LapsesOf(p, Queue(t, p), now, d);
    }
  }

  lemma SweptAll(before: Table, t: Table, told: seq<Event>, now: nat)
    requires forall p :: SweptPeer(p, before, t, told, now, {})
    ensures forall p :: Queue(t, p) == Kept(Queue(before, p), now)
    ensures forall p :: EventsOf(p, told) == Lapses(p, Queue(before, p), now)
  {
    hide Kept, Lapses, EventsOf, Queue;
    forall p ensures Queue(t, p) == Kept(Queue(before, p), now)
      && EventsOf(p, told) == Lapses(p, Queue(before, p), now) {
      assert SweptPeer(p, before, t, told, now, {});
    }
  }

  lemma PassedPeer(p: Peer, found: seq<Entry>, now: nat, listed: seq<Entry>, told: seq<Event>, done: seq<Event>,
                   left: seq<Entry>)
    requires EventsOf(p, told) == Lapses(p, found, now) && Kept(found, now) <= listed
    requires Tried(EventsOf(p, done), listed, left)
    ensures Passed(p, found, now, listed, told + done, left)
  {
    hide Kept, Lapses, EventsOf, Shape;
    EventsJoin(p, told, done);
    var events, lapses := EventsOf(p, told + done), Lapses(p, found, now);
    assert events[|lapses|..] == EventsOf(p, done);
  }

  lemma MoreWaits(start: Table, done: seq<Event>, t: Table, u: Table, blocked: set<Peer>, seen: seq<Entry>)
    requires Passing(start, done, t, blocked, seen) && forall p :: Queue(t, p) <= Queue(u, p)
    ensures Passing(start, done, u, blocked, seen)
  {
    forall p ensures PeerPass(p, start, done, u, blocked, Count(p, seen)) {
      assert PeerPass(p, start, done, t, blocked, Count(p, seen)) && Queue(t, p) <= Queue(u, p);
    }
  }

  lemma FrontOfQueue(start: Table, done: seq<Event>, t: Table, blocked: set<Peer>, list: seq<Entry>, i: nat)
    requires i < |list| && Listing(start, list) && Passing(start, done, t, blocked, list[..i])
    requires list[i].peer !in blocked
    ensures var p, k := list[i].peer, Count(list[i].peer, list[..i]);
            Queue(t, p) != [] && Queue(t, p)[0] == list[i] && k < |Queue(start, p)| && Queue(start, p)[k] == list[i]
  {
    assert PeerPass(list[i].peer, start, done, t, blocked, Count(list[i].peer, list[..i]));
  }

  lemma Skipped(start: Table, done: seq<Event>, t: Table, blocked: set<Peer>, list: seq<Entry>, i: nat)
    requires i < |list| && Passing(start, done, t, blocked, list[..i]) && list[i].peer in blocked
    ensures Passing(start, done, t, blocked, list[..i + 1])
  {
    hide Shape, AllResolve;
    var seen, more := list[..i], list[..i + 1];
    forall p ensures PeerPass(p, start, done, t, blocked, Count(p, more)) {
      assert PeerPass(p, start, done, t, blocked, Count(p, seen));
      CountMore(p, list, i);
    }
  }

  lemma AttemptedOne(start: Table, done: seq<Event>, t: Table, u: Table, blocked: set<Peer>, k: nat, e: Event)
    requires PeerPass(e.peer, start, done, t, blocked, k) && e.peer !in blocked && (Resolves(e) || e.Deferred?)
    requires k < |Queue(start, e.peer)| && Queue(start, e.peer)[k].ticket == e.ticket && Queue(t, e.peer) != []
    requires Queue(u, e.peer) == if Resolves(e) then Queue(t, e.peer)[1..] else Queue(t, e.peer)
    ensures PeerPass(e.peer, start, done + [e], u, if e.Deferred? then blocked + {e.peer} else blocked, k + 1)
  {
    hide EventsOf, Queue, Shape;
    EventsMore(e.peer, done, e);
    ShapeMore(EventsOf(e.peer, done), Queue(start, e.peer), e);
    if Resolves(e) {
      NextWaits(Queue(start, e.peer), Queue(t, e.peer), k);
    }
  }

  lemma AttemptedOther(p: Peer, start: Table, done: seq<Event>, t: Table, u: Table, blocked: set<Peer>,
                       now: set<Peer>, k: nat, e: Event)
    requires PeerPass(p, start, done, t, blocked, k) && p != e.peer && Queue(u, p) == Queue(t, p)
    requires (p in blocked <==> p in now)
    ensures PeerPass(p, start, done + [e], u, now, k)
  {
    hide Shape, AllResolve;
    EventsMore(p, done, e);
    assert EventsOf(p, done + [e]) == EventsOf(p, done);
  }

  lemma Attempted(start: Table, done: seq<Event>, t: Table, u: Table, blocked: set<Peer>, list: seq<Entry>,
                  i: nat, e: Event)
    requires i < |list| && Listing(start, list) && Passing(start, done, t, blocked, list[..i])
    requires list[i].peer !in blocked
    requires e.peer == list[i].peer && e.ticket == list[i].ticket && (Resolves(e) || e.Deferred?)
    requires u == if Resolves(e) then t[e.peer := Queue(t, e.peer)[1..]] else t
    requires Queue(t, e.peer) != []
    ensures Passing(start, done + [e], u, if e.Deferred? then blocked + {e.peer} else blocked, list[..i + 1])
  {
    hide PeerPass, Listing, Count, EventsOf;
    FrontOfQueue(start, done, t, blocked, list, i);
    var now := if e.Deferred? then blocked + {e.peer} else blocked;
    var longer, more := done + [e], list[..i + 1];
    forall p ensures PeerPass(p, start, longer, u, now, Count(p, more)) {
      PassingAt(start, done, t, blocked, list[..i], p);
      CountMore(p, list, i);
      if p == e.peer {
        AttemptedOne(start, done, t, u, blocked, Count(p, list[..i]), e);
      } else {
        AttemptedOther(p, start, done, t, u, blocked, now, Count(p, list[..i]), e);
      }
    }
  }

  lemma PassingAt(start: Table, done: seq<Event>, t: Table, blocked: set<Peer>, seen: seq<Entry>, p: Peer)
    requires Passing(start, done, t, blocked, seen)
    ensures PeerPass(p, start, done, t, blocked, Count(p, seen))
  {
  }

  lemma NextWaits(a: seq<Entry>, b: seq<Entry>, k: nat)
    requires k < |a| && a[k..] <= b
    ensures a[k + 1..] <= b[1..]
  {
  }

  lemma NothingListed(t: Table)
    ensures Listing(t, []) && forall p :: Count(p, []) == 0
  {
  }

  lemma MineOnly(p: Peer, q: seq<Entry>, h: seq<Event>, owner: seq<Peer>)
    requires PeerOk(p, q, h, owner)
    ensures forall i :: 0 <= i < |q| ==> q[i].peer == p
  {
  }

  lemma ListingMore(t: Table, s: seq<Entry>, e: Entry)
    requires Listing(t, s) && Count(e.peer, s) < |Queue(t, e.peer)| && e == Queue(t, e.peer)[Count(e.peer, s)]
    ensures Listing(t, s + [e])
    ensures forall p :: Count(p, s + [e]) == Count(p, s) + (if e.peer == p then 1 else 0)
  {
    assert (s + [e])[..|s|] == s;
    forall i | 0 <= i < |s| ensures (s + [e])[..i] == s[..i] && (s + [e])[i] == s[i] {
    }
  }
}

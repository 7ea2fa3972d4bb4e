/**
 The limiter as it runs: one table of sources in which two doubly linked idle lists are
 threaded through the entries by key. Every operation is proved to act on the table as the
 value-level operation acts on its view, where the two lists are plain sequences.
 */
module SourceTable {
  import opened Basics
  import opened SourceLimits
  import opened SourceLimitsInvariant

  datatype Entry = Entry(account: Account, idle: Option<IdleClass>, previous: Option<SourceKey>,
                         next: Option<SourceKey>)
  datatype IdleList = IdleList(head: Option<SourceKey>, tail: Option<SourceKey>)

  type Entries = map<SourceKey, Entry>

  ghost predicate Adjacent(entries: Entries, a: SourceKey, b: SourceKey)
    requires a in entries && b in entries
  {
    entries[a].next == Some(b) && entries[b].previous == Some(a)
  }

  ghost function Ends(s: seq<SourceKey>): (r: IdleList) {
    if s == [] then IdleList(None, None) else IdleList(Some(s[0]), Some(s[|s| - 1]))
  }

  /** The entries of one idle class are chained, both ways, in the order of `s`. */
  ghost predicate Linked(entries: Entries, idle: IdleClass, list: IdleList, s: seq<SourceKey>) {
    && Distinct(s)
    && list == Ends(s)
    && (forall k :: k in s <==> k in entries && entries[k].idle == Some(idle))
    && (forall i, j :: 0 <= i && i + 1 == j && j < |s| ==> Adjacent(entries, s[i], s[j]))
    && (s != [] ==> entries[s[0]].previous == None && entries[s[|s| - 1]].next == None)
  }

  ghost function Accounts(entries: Entries): (r: map<SourceKey, Account>) {
    map k | k in entries :: entries[k].account
  }

  // Linking and unlinking, on values

  ghost function Cut(s: seq<SourceKey>, i: nat): (r: seq<SourceKey>)
    requires i < |s|
  {
    s[..i] + s[i + 1..]
  }

  lemma {:induction false} WithoutAt(s: seq<SourceKey>, i: nat)
    requires Distinct(s) && i < |s|
    ensures Without(s, s[i]) == Cut(s, i)
  {
    if i == 0 {
      assert s[0] !in s[1..];
      WithoutAbsent(s[1..], s[0]);
    } else {
      WithoutAt(s[1..], i - 1);
      assert s[1..][i - 1] == s[i];
      assert Cut(s, i) == [s[0]] + Cut(s[1..], i - 1);
    }
  }

  /** The entries after `key` is taken out of the chain it is in. */
  ghost function Unlinked(entries: Entries, key: SourceKey): (r: Entries)
    requires key in entries
  {
    var e := entries[key];
    var m := if e.previous.Some? && e.previous.value in entries
             then entries[e.previous.value := entries[e.previous.value].(next := e.next)] else entries;
    var n := if e.next.Some? && e.next.value in m
             then m[e.next.value := m[e.next.value].(previous := e.previous)] else m;
    n[key := n[key].(idle := None, previous := None, next := None)]
  }

  lemma Neighbours(entries: Entries, idle: IdleClass, list: IdleList, s: seq<SourceKey>, i: nat)
    requires Linked(entries, idle, list, s) && i < |s|
    ensures entries[s[i]].previous == if i == 0 then None else Some(s[i - 1])
    ensures entries[s[i]].next == if i + 1 == |s| then None else Some(s[i + 1])
  {
    if i > 0 {
      assert Adjacent(entries, s[i - 1], s[i]);
    }
    if i + 1 < |s| {
      assert Adjacent(entries, s[i], s[i + 1]);
    }
  }

  /** Unlinking, entry by entry: only the two neighbours and the entry itself change. */
  lemma UnlinkedEntries(entries: Entries, idle: IdleClass, list: IdleList, s: seq<SourceKey>, i: nat)
    requires Linked(entries, idle, list, s) && i < |s|
    ensures var m := Unlinked(entries, s[i]);
            && m.Keys == entries.Keys
            && m[s[i]] == Entry(entries[s[i]].account, None, None, None)
            && (forall k | k in m && k != s[i] ::
                  m[k] == Entry(entries[k].account, entries[k].idle,
                                if i + 1 < |s| && k == s[i + 1] then entries[s[i]].previous else entries[k].previous,
                                if i > 0 && k == s[i - 1] then entries[s[i]].next else entries[k].next))
  {
    Neighbours(entries, idle, list, s, i);
  }

  lemma CutMembers(entries: Entries, idle: IdleClass, list: IdleList, s: seq<SourceKey>, i: nat, k: SourceKey)
    requires Linked(entries, idle, list, s) && i < |s|
    ensures var m := Unlinked(entries, s[i]); k in Cut(s, i) <==> k in m && m[k].idle == Some(idle)
  {
    UnlinkedEntries(entries, idle, list, s, i);
    if k in s && k != s[i] {
      var j :| 0 <= j < |s| && s[j] == k;
      assert Cut(s, i)[if j < i then j else j - 1] == k;
    }
  }

  lemma CutAdjacent(entries: Entries, idle: IdleClass, list: IdleList, s: seq<SourceKey>, i: nat, j: nat)
    requires Linked(entries, idle, list, s) && i < |s| && j + 1 < |Cut(s, i)|
    requires Cut(s, i)[j] in entries && Cut(s, i)[j + 1] in entries
    ensures Unlinked(entries, s[i]).Keys == entries.Keys
    ensures Adjacent(Unlinked(entries, s[i]), Cut(s, i)[j], Cut(s, i)[j + 1])
  {
    UnlinkedEntries(entries, idle, list, s, i);
    Neighbours(entries, idle, list, s, i);
    if j + 1 < i {
      assert Adjacent(entries, s[j], s[j + 1]);
    } else if j + 1 == i {
    } else {
      assert Adjacent(entries, s[j + 1], s[j + 2]);
    }
  }

  lemma CutEnds(entries: Entries, idle: IdleClass, list: IdleList, s: seq<SourceKey>, i: nat)
    requires Linked(entries, idle, list, s) && i < |s|
    ensures var e := entries[s[i]];
            Ends(Cut(s, i)) ==
            IdleList(if e.previous.Some? then list.head else e.next, if e.next.Some? then list.tail else e.previous)
    ensures Unlinked(entries, s[i]).Keys == entries.Keys
    ensures var r, m := Cut(s, i), Unlinked(entries, s[i]);
            r != [] && r[0] in m && r[|r| - 1] in m ==> m[r[0]].previous == None && m[r[|r| - 1]].next == None
  {
    UnlinkedEntries(entries, idle, list, s, i);
    Neighbours(entries, idle, list, s, i);
  }

  lemma UnlinkedChain(entries: Entries, idle: IdleClass, list: IdleList, s: seq<SourceKey>, i: nat)
    requires Linked(entries, idle, list, s) && i < |s|
    ensures var e := entries[s[i]];
            Linked(Unlinked(entries, s[i]), idle,
                   IdleList(if e.previous.Some? then list.head else e.next,
                            if e.next.Some? then list.tail else e.previous),
                   Cut(s, i))
  {
    var r, m := Cut(s, i), Unlinked(entries, s[i]);
    CutEnds(entries, idle, list, s, i);
    forall k ensures k in r <==> k in m && m[k].idle == Some(idle) {
      CutMembers(entries, idle, list, s, i, k);
    }
    forall j, n | 0 <= j && j + 1 == n && n < |r| ensures Adjacent(m, r[j], r[n]) {
      CutAdjacent(entries, idle, list, s, i, j);
    }
  }

  /** The other chain does not notice. */
  lemma UnlinkedOther(entries: Entries, idle: IdleClass, list: IdleList, s: seq<SourceKey>, i: nat,
                      other: IdleClass, otherList: IdleList, o: seq<SourceKey>)
    requires Linked(entries, idle, list, s) && i < |s| && other != idle && Linked(entries, other, otherList, o)
    ensures Linked(Unlinked(entries, s[i]), other, otherList, o)
  {
    UnlinkedEntries(entries, idle, list, s, i);
    assert forall k :: k in o ==> k !in s;
    assert forall k :: k in o ==> Unlinked(entries, s[i])[k] == entries[k];
  }

  /** The entries after `key`, in no chain, is put at the end of the chain that ended at `tail`. */
  ghost function Appended(entries: Entries, key: SourceKey, idle: IdleClass, tail: Option<SourceKey>): (r: Entries)
    requires key in entries
  {
    var m := if tail.Some? && tail.value in entries
             then entries[tail.value := entries[tail.value].(next := Some(key))] else entries;
    m[key := m[key].(idle := Some(idle), previous := tail, next := None)]
  }

  lemma AppendedChain(entries: Entries, idle: IdleClass, list: IdleList, s: seq<SourceKey>, key: SourceKey)
    requires Linked(entries, idle, list, s) && key in entries && entries[key].idle == None
    ensures Linked(Appended(entries, key, idle, list.tail), idle,
                   IdleList(if list.tail.Some? then list.head else Some(key), Some(key)), s + [key])
  {
    var r, m := s + [key], Appended(entries, key, idle, list.tail);
    assert forall j :: 0 <= j < |s| ==> r[j] == s[j];
    assert r[|s|] == key;
    assert key !in s;
  }

  lemma AppendedOther(entries: Entries, idle: IdleClass, list: IdleList, s: seq<SourceKey>, key: SourceKey,
                      other: IdleClass, otherList: IdleList, o: seq<SourceKey>)
    requires Linked(entries, idle, list, s) && key in entries && entries[key].idle == None
    requires other != idle && Linked(entries, other, otherList, o)
    ensures Linked(Appended(entries, key, idle, list.tail), other, otherList, o)
  {
    hide Linked;
    KeysOf(entries, idle, list, s);
    KeysOf(entries, other, otherList, o);
    SameChain(entries, Appended(entries, key, idle, list.tail), other, otherList, o);
  }

  lemma KeysOf(entries: Entries, idle: IdleClass, list: IdleList, s: seq<SourceKey>)
    requires Linked(entries, idle, list, s)
    ensures forall k :: k in s <==> k in entries && entries[k].idle == Some(idle)
    ensures list.tail.Some? ==> list.tail.value in s
  {
  }

  lemma SameChain(before: Entries, after: Entries, idle: IdleClass, list: IdleList, s: seq<SourceKey>)
    requires Linked(before, idle, list, s)
    requires forall k :: k in s ==> k in after && after[k] == before[k]
    requires forall k :: k in after && after[k].idle == Some(idle) ==> k in s
    ensures Linked(after, idle, list, s)
  {
  }

  /** Only the links matter to a chain: accounts may change, and unchained entries may come and go. */
  lemma LinksOnly(entries: Entries, updated: Entries, idle: IdleClass, list: IdleList, s: seq<SourceKey>)
    requires Linked(entries, idle, list, s)
    requires forall k | k in entries && entries[k].idle == Some(idle) ::
               k in updated && updated[k] == entries[k].(account := updated[k].account)
    requires forall k | k in updated && updated[k].idle == Some(idle) :: k in entries && entries[k].idle == Some(idle)
    ensures Linked(updated, idle, list, s)
  {
  }

  /** The ends of a chain that `e` has left. */
  ghost function Closed(list: IdleList, e: Entry): (r: IdleList) {
    IdleList(if e.previous.Some? then list.head else e.next, if e.next.Some? then list.tail else e.previous)
  }

  lemma RemovedChain(entries: Entries, idle: IdleClass, list: IdleList, s: seq<SourceKey>, key: SourceKey)
    requires Linked(entries, idle, list, s) && key in entries && entries[key].idle == Some(idle)
    ensures Linked(Unlinked(entries, key), idle, Closed(list, entries[key]), Without(s, key))
  {
    var i :| 0 <= i < |s| && s[i] == key;
    UnlinkedChain(entries, idle, list, s, i);
    WithoutAt(s, i);
  }

  lemma RemovedOther(entries: Entries, idle: IdleClass, list: IdleList, s: seq<SourceKey>,
                     other: IdleClass, otherList: IdleList, o: seq<SourceKey>, key: SourceKey)
    requires Linked(entries, idle, list, s) && Linked(entries, other, otherList, o) && other != idle
    requires key in entries && entries[key].idle == Some(idle)
    ensures Linked(Unlinked(entries, key), other, otherList, Without(o, key))
  {
    var i :| 0 <= i < |s| && s[i] == key;
    UnlinkedOther(entries, idle, list, s, i, other, otherList, o);
    WithoutAbsent(o, key);
  }

  lemma UnlinkedAccounts(entries: Entries, key: SourceKey)
    requires key in entries
    ensures Unlinked(entries, key).Keys == entries.Keys && Unlinked(entries, key)[key].idle == None
    ensures Accounts(Unlinked(entries, key)) == Accounts(entries)
  {
  }

  /** The ends of a chain that `key` has joined. */
  ghost function Joined(list: IdleList, key: SourceKey): (r: IdleList) {
    IdleList(if list.tail.Some? then list.head else Some(key), Some(key))
  }

  ghost predicate Chains(entries: Entries, refilledIdle: IdleList, limitedIdle: IdleList,
                         refilled: seq<SourceKey>, limited: seq<SourceKey>) {
    Linked(entries, Refilled, refilledIdle, refilled) && Linked(entries, Limited, limitedIdle, limited)
  }

  lemma Removed(entries: Entries, refilledIdle: IdleList, limitedIdle: IdleList,
                refilled: seq<SourceKey>, limited: seq<SourceKey>, key: SourceKey)
    requires Chains(entries, refilledIdle, limitedIdle, refilled, limited)
    requires key in entries && entries[key].idle.Some?
    ensures var e := entries[key];
            Chains(Unlinked(entries, key),
                   if e.idle == Some(Refilled) then Closed(refilledIdle, e) else refilledIdle,
                   if e.idle == Some(Limited) then Closed(limitedIdle, e) else limitedIdle,
                   Without(refilled, key), Without(limited, key))
  {
    match entries[key].idle.value
    case Refilled =>
      RemovedChain(entries, Refilled, refilledIdle, refilled, key);
      RemovedOther(entries, Refilled, refilledIdle, refilled, Limited, limitedIdle, limited, key);
    case Limited =>
      RemovedChain(entries, Limited, limitedIdle, limited, key);
      RemovedOther(entries, Limited, limitedIdle, limited, Refilled, refilledIdle, refilled, key);
  }

  lemma NotRemoved(entries: Entries, refilledIdle: IdleList, limitedIdle: IdleList,
                   refilled: seq<SourceKey>, limited: seq<SourceKey>, key: SourceKey)
    requires Chains(entries, refilledIdle, limitedIdle, refilled, limited)
    requires key !in entries || entries[key].idle == None
    ensures Without(refilled, key) == refilled && Without(limited, key) == limited
  {
    WithoutAbsent(refilled, key);
    WithoutAbsent(limited, key);
  }

  lemma Pushed(entries: Entries, refilledIdle: IdleList, limitedIdle: IdleList,
               refilled: seq<SourceKey>, limited: seq<SourceKey>, key: SourceKey, idle: IdleClass)
    requires Chains(entries, refilledIdle, limitedIdle, refilled, limited)
    requires key in entries && entries[key].idle == None
    ensures Chains(Appended(entries, key, idle, (if idle == Refilled then refilledIdle else limitedIdle).tail),
                   if idle == Refilled then Joined(refilledIdle, key) else refilledIdle,
                   if idle == Limited then Joined(limitedIdle, key) else limitedIdle,
                   if idle == Refilled then refilled + [key] else refilled,
                   if idle == Limited then limited + [key] else limited)
  {
    match idle
    case Refilled =>
      AppendedChain(entries, Refilled, refilledIdle, refilled, key);
      AppendedOther(entries, Refilled, refilledIdle, refilled, key, Limited, limitedIdle, limited);
    case Limited =>
      AppendedChain(entries, Limited, limitedIdle, limited, key);
      AppendedOther(entries, Limited, limitedIdle, limited, key, Refilled, refilledIdle, refilled);
  }

  lemma AppendedAccounts(entries: Entries, key: SourceKey, idle: IdleClass, tail: Option<SourceKey>)
    requires key in entries
    ensures Accounts(Appended(entries, key, idle, tail)) == Accounts(entries)
  {
  }

  class PublicSourceLimits {
    const config: Config
    var sources: Entries
    var aggregates: map<PrefixKey, Prefix>
    var refilledIdle: IdleList
    var limitedIdle: IdleList
    ghost var refilled: seq<SourceKey>
    ghost var limited: seq<SourceKey>
    /** The permits that have been handed out and not yet dropped. */
    ghost var permits: Permits

    ghost predicate Valid()
      reads this
    {
      Chains(sources, refilledIdle, limitedIdle, refilled, limited)
    }

    /** The table without its links. */
    ghost function View(): (r: Tracker)
      reads this
    {
      Tracker(Accounts(sources), aggregates, refilled, limited)
    }

    /** The linked lists stand for the view, and the view agrees with the live permits. */
    ghost predicate Sound()
      reads this
    {
      Valid() && Inv(config, View(), permits) && config.tableCapacity >= 1
    }

    constructor (config: Config)
      requires config.tableCapacity >= 1
      ensures Sound() && View() == EMPTY && permits == multiset{} && this.config == config
    {
      this.config := config;
      sources, aggregates := map[], map[];
      refilledIdle, limitedIdle := IdleList(None, None), IdleList(None, None);
      refilled, limited, permits := [], [], multiset{};
      new;
      assert Accounts(sources) == map[];
      EmptyKeeps(config);
    }

    method SetAccount(key: SourceKey, account: Account)
      requires Valid() && key in sources
      modifies this`sources
      ensures Valid() && View() == old(View()).(sources := old(View()).sources[key := account])
      ensures sources == old(sources)[key := old(sources)[key].(account := account)]
    {
      hide Linked;
      ghost var was := sources;
      sources := sources[key := sources[key].(account := account)];
      LinksOnly(was, sources, Refilled, refilledIdle, refilled);
      LinksOnly(was, sources, Limited, limitedIdle, limited);
      assert Accounts(sources) == Accounts(was)[key := account];
    }

    /** Takes a chained entry out of its chain. */
    method Unlink(key: SourceKey)
      requires key in sources && sources[key].idle.Some?
      modifies this`sources, this`refilledIdle, this`limitedIdle
      ensures var e := old(sources)[key];
              && sources == Unlinked(old(sources), key)
              && refilledIdle == (if e.idle == Some(Refilled) then Closed(old(refilledIdle), e) else old(refilledIdle))
              && limitedIdle == (if e.idle == Some(Limited) then Closed(old(limitedIdle), e) else old(limitedIdle))
      ensures Accounts(sources) == Accounts(old(sources)) && sources.Keys == old(sources).Keys
      ensures sources[key].idle == None
    {
      UnlinkedAccounts(sources, key);
      var e := sources[key];
      if e.previous.Some? {
        if e.previous.value in sources {
          sources := sources[e.previous.value := sources[e.previous.value].(next := e.next)];
        }
      } else {
        SetHead(e.idle.value, e.next);
      }
      if e.next.Some? {
        if e.next.value in sources {
          sources := sources[e.next.value := sources[e.next.value].(previous := e.previous)];
        }
      } else {
        SetTail(e.idle.value, e.previous);
      }
      sources := sources[key := sources[key].(idle := None, previous := None, next := None)];
    }

    method RemoveIdle(key: SourceKey)
      requires Valid()
      modifies this
      ensures permits == old(permits)
      ensures Valid() && View() == SourceLimits.RemoveIdle(old(View()), key)
      ensures key in sources ==> sources[key].idle == None
      ensures sources.Keys == old(sources).Keys
    {
      hide Linked, Chains;
      if key !in sources || sources[key].idle == None {
        NotRemoved(sources, refilledIdle, limitedIdle, refilled, limited, key);
        return;
      }
      Removed(sources, refilledIdle, limitedIdle, refilled, limited, key);
      refilled, limited := Without(refilled, key), Without(limited, key);
      Unlink(key);
    }

    method SetHead(idle: IdleClass, head: Option<SourceKey>)
      modifies this`refilledIdle, this`limitedIdle
      ensures refilledIdle == if idle == Refilled then old(refilledIdle).(head := head) else old(refilledIdle)
      ensures limitedIdle == if idle == Limited then old(limitedIdle).(head := head) else old(limitedIdle)
    {
      match idle
      case Refilled => refilledIdle := refilledIdle.(head := head);
      case Limited => limitedIdle := limitedIdle.(head := head);
    }

    method SetTail(idle: IdleClass, tail: Option<SourceKey>)
      modifies this`refilledIdle, this`limitedIdle
      ensures refilledIdle == if idle == Refilled then old(refilledIdle).(tail := tail) else old(refilledIdle)
      ensures limitedIdle == if idle == Limited then old(limitedIdle).(tail := tail) else old(limitedIdle)
    {
      match idle
      case Refilled => refilledIdle := refilledIdle.(tail := tail);
      case Limited => limitedIdle := limitedIdle.(tail := tail);
    }

    /** Puts an unchained entry at the end of a chain. */
    method Append(key: SourceKey, idle: IdleClass)
      requires key in sources
      modifies this`sources, this`refilledIdle, this`limitedIdle
      ensures sources == Appended(old(sources), key, idle,
                                  (if idle == Refilled then old(refilledIdle) else old(limitedIdle)).tail)
      ensures refilledIdle == if idle == Refilled then Joined(old(refilledIdle), key) else old(refilledIdle)
      ensures limitedIdle == if idle == Limited then Joined(old(limitedIdle), key) else old(limitedIdle)
      ensures Accounts(sources) == Accounts(old(sources))
    {
      var previous := match idle case Refilled => refilledIdle.tail case Limited => limitedIdle.tail;
      if previous.Some? {
        if previous.value in sources {
          sources := sources[previous.value := sources[previous.value].(next := Some(key))];
        }
      } else {
        SetHead(idle, Some(key));
      }
      SetTail(idle, Some(key));
      AppendedAccounts(old(sources), key, idle, previous);
      sources := sources[key := sources[key].(idle := Some(idle), previous := previous, next := None)];
    }

    method Enqueue(key: SourceKey, idle: IdleClass)
      requires Valid() && key in sources && sources[key].idle == None
      modifies this
      ensures permits == old(permits)
      ensures Valid() && Accounts(sources) == Accounts(old(sources)) && aggregates == old(aggregates)
      ensures refilled == if idle == Refilled then old(refilled) + [key] else old(refilled)
      ensures limited == if idle == Limited then old(limited) + [key] else old(limited)
    {
      hide Linked, Chains;
      Pushed(sources, refilledIdle, limitedIdle, refilled, limited, key, idle);
      refilled, limited :=
        if idle == Refilled then refilled + [key] else refilled, if idle == Limited then limited + [key] else limited;
      Append(key, idle);
    }

    method PushIdle(key: SourceKey, idle: IdleClass)
      requires Valid() && key in sources
      modifies this
      ensures permits == old(permits)
      ensures Valid() && View() == SourceLimits.PushIdle(old(View()), key, idle)
    {
      hide Linked, Chains;
      RemoveIdle(key);
      Enqueue(key, idle);
    }

    /** The longest idle expired head, else the first refilled source, else the first limited one. */
    method PickVictim(now: real) returns (r: Option<SourceKey>)
      requires Valid()
      ensures r == Victim(View(), now, config.idleExpiry)
      ensures r.Some? ==> r.value in sources
    {
      var first, second := refilledIdle.head, limitedIdle.head;
      r := None;
      if first.Some? && first.value in sources
        && Elapsed(sources[first.value].account.lastSeen, now) >= config.idleExpiry {
        r := first;
      }
      if second.Some? && second.value in sources
        && Elapsed(sources[second.value].account.lastSeen, now) >= config.idleExpiry {
        if r == None || sources[second.value].account.lastSeen < sources[r.value].account.lastSeen {
          r := second;
        }
      }
      r := if r.Some? then r else if first.Some? then first else second;
    }

    method Forget(key: SourceKey)
      requires Valid() && key in sources && sources[key].idle == None
      modifies this`sources
      ensures Valid() && View() == old(View()).(sources := old(View()).sources - {key})
    {
      hide Linked;
      ghost var was := sources;
      sources := sources - {key};
      LinksOnly(was, sources, Refilled, refilledIdle, refilled);
      LinksOnly(was, sources, Limited, limitedIdle, limited);
      assert Accounts(sources) == Accounts(was) - {key};
    }

    method EvictIdle(now: real) returns (r: Option<SourceKey>)
      requires Valid()
      modifies this
      ensures permits == old(permits)
      ensures Valid() && r == Victim(old(View()), now, config.idleExpiry)
      ensures View() == if r.Some? then Evict(old(View()), r.value) else old(View())
    {
      hide Linked, Chains;
      r := PickVictim(now);
      if r == None {
        return;
      }
      RemoveIdle(r.value);
      Forget(r.value);
      DropAggregate(PrefixOf(r.value));
    }

    method DropAggregate(a: PrefixKey)
      modifies this`aggregates
      ensures aggregates == DropTracked(old(aggregates), a)
    {
      if a in aggregates {
        aggregates := aggregates[a := aggregates[a].(tracked := Decrement(aggregates[a].tracked))];
        if aggregates[a].tracked == 0 && aggregates[a].active == 0 {
          aggregates := aggregates - {a};
        }
      }
    }

    method Insert(key: SourceKey, account: Account)
      requires Valid() && key !in sources
      modifies this`sources
      ensures Valid() && View() == old(View()).(sources := old(View()).sources[key := account])
      ensures key in sources
    {
      hide Linked;
      ghost var was := sources;
      sources := sources[key := Entry(account, None, None, None)];
      LinksOnly(was, sources, Refilled, refilledIdle, refilled);
      LinksOnly(was, sources, Limited, limitedIdle, limited);
      assert Accounts(sources) == Accounts(was)[key := account];
    }

    method Admit(key: SourceKey, now: real) returns (ok: bool)
      requires Valid()
      modifies this
      ensures permits == old(permits)
      ensures Valid() && ok == SourceLimits.Admit(config, old(View()), key, now).Some?
      ensures View() == if ok then SourceLimits.Admit(config, old(View()), key, now).value else old(View())
    {
      hide Linked, Chains;
      if key in sources {
        return true;
      }
      assert View().sources.Keys == sources.Keys;
      if |sources| >= config.tableCapacity {
        var victim := EvictIdle(now);
        if victim == None {
          return false;
        }
      }
      assert key !in View().sources;
      TrackSource(key, now);
      ok := true;
    }

    method TrackSource(key: SourceKey, now: real)
      requires Valid() && key !in sources
      modifies this
      ensures permits == old(permits)
      ensures Valid() && View() == Track(config, old(View()), key, now)
    {
      hide Linked, Chains;
      var full := Bucket(config.connectionBurst as real, now);
      Insert(key, Account(0, Bucket(config.requestBurst as real, now), full, now));
      GrowAggregate(PrefixOf(key), full);
      PushIdle(key, Refilled);
    }

    method GrowAggregate(a: PrefixKey, full: Bucket)
      requires Valid()
      modifies this`aggregates
      ensures Valid()
      ensures var p := if a in old(aggregates) then old(aggregates)[a] else Prefix(0, 0, full);
              View() == old(View()).(prefixes := old(View()).prefixes[a := p.(tracked := p.tracked + 1)])
    {
      if a !in aggregates {
        aggregates := aggregates[a := Prefix(0, 0, full)];
      }
      aggregates := aggregates[a := aggregates[a].(tracked := aggregates[a].tracked + 1)];
    }

    method AllowRequest(key: SourceKey, now: real) returns (allowed: bool)
      requires Sound()
      modifies this
      ensures Sound() && (View(), allowed) == SourceLimits.Request(config, old(View()), key, now)
      ensures permits == old(permits)
    {
      hide Linked, Chains, Inv;
      RequestKeeps(config, View(), key, now, permits);
      if key !in sources {
        return false;
      }
      var e := sources[key].account;
      var b := Refill(e.requests, now, config.requestRate, config.requestBurst);
      allowed := b.tokens >= 1.0;
      SetAccount(key, e.(requests := if allowed then Take(b) else b, lastSeen := now));
    }

    /** The drop of a permit. */
    method ReleaseConnection(key: SourceKey, now: real)
      requires Sound() && key in permits
      modifies this
      ensures Sound() && View() == SourceLimits.Release(config, old(View()), key, now)
      ensures permits == old(permits) - multiset{key}
    {
      hide Linked, Chains, Inv;
      ReleaseKeeps(config, View(), key, now, permits);
      permits := permits - multiset{key};
      var a := PrefixOf(key);
      if a in aggregates {
        aggregates := aggregates[a := aggregates[a].(active := Decrement(aggregates[a].active))];
      }
      if key !in sources {
        return;
      }
      var e := sources[key].account;
      e := e.(active := Decrement(e.active));
      SetAccount(key, e);
      if e.active != 0 {
        return;
      }
      SettleIdle(key, now);
    }

    method SettleIdle(key: SourceKey, now: real)
      requires Valid() && key in sources
      modifies this
      ensures permits == old(permits)
      ensures Valid() && View() == Settle(config, old(View()), key, now)
    {
      hide Linked, Chains;
      var e := sources[key].account;
      e := e.(requests := Refill(e.requests, now, config.requestRate, config.requestBurst),
              connections := Refill(e.connections, now, config.connectionRate, config.connectionBurst));
      SetAccount(key, e);
      var full := e.requests.tokens >= config.requestBurst as real
        && e.connections.tokens >= config.connectionBurst as real;
      PushIdle(key, if full then Refilled else Limited);
    }

    method SpendConnection(key: SourceKey, now: real) returns (limited: bool)
      requires Valid() && key in sources
      modifies this`sources
      ensures Valid() && (View(), limited) == Spend(config, old(View()), key, now)
      ensures key in sources && sources[key].account.active == old(sources)[key].account.active
    {
      hide Linked, Chains;
      var e := sources[key].account;
      var b := Refill(e.connections, now, config.connectionRate, config.connectionBurst);
      limited := b.tokens < 1.0;
      SetAccount(key, e.(connections := if limited then b else Take(b), lastSeen := now));
    }

    method SpendAggregate(a: PrefixKey, now: real) returns (limited: bool)
      requires a in aggregates
      modifies this`aggregates
      ensures (View(), limited) == SpendPrefix(config, old(View()), a, now)
    {
      var b := Refill(aggregates[a].connections, now, config.connectionRate, config.connectionBurst);
      limited := b.tokens < 1.0;
      aggregates := aggregates[a := aggregates[a].(connections := if limited then b else Take(b))];
    }

    method OpenConnection(key: SourceKey)
      requires Valid() && key in sources && PrefixOf(key) in aggregates
      modifies this
      ensures permits == old(permits)
      ensures Valid() && View() == Open(old(View()), key)
    {
      hide Linked, Chains;
      var e := sources[key].account;
      SetAccount(key, e.(active := e.active + 1));
      if e.active == 0 {
        RemoveIdle(key);
      }
      var a := PrefixOf(key);
      aggregates := aggregates[a := aggregates[a].(active := aggregates[a].active + 1)];
    }

    method ChargeConnection(key: SourceKey, now: real) returns (r: Outcome)
      requires Valid() && key in sources
      modifies this
      ensures permits == old(permits)
      ensures Valid() && (View(), r) == Charge(config, old(View()), key, now)
    {
      hide Linked, Chains;
      var held := sources[key].account.active;
      var rateLimited := SpendConnection(key, now);
      if rateLimited {
        if held == 0 {
          PushIdle(key, Limited);
        }
        return Refused(ConnectionRate);
      }
      var a := PrefixOf(key);
      if a !in aggregates {
        return Refused(TrackingCapacity);
      }
      var prefixLimited := SpendAggregate(a, now);
      if prefixLimited {
        return Refused(PrefixConnectionRate);
      }
      if held >= config.maxConnections {
        return Refused(SourceLimit);
      }
      if aggregates[a].active >= config.prefixMaxConnections {
        if held == 0 {
          PushIdle(key, Limited);
        }
        return Refused(PrefixLimit);
      }
      OpenConnection(key);
      r := Granted(Some(key));
    }

    method AcquireConnection(source: IpAddr, now: real) returns (r: Outcome)
      requires Sound()
      modifies this
      ensures Sound() && (View(), r) == Acquire(config, old(View()), source, now) && permits == Held(old(permits), r)
    {
      hide Linked, Chains, Inv;
      AcquireKeeps(config, View(), source, now, permits);
      permits := Held(permits, Acquire(config, View(), source, now).1);
      if !config.enabled {
        return Granted(None);
      }
      var ok := Admit(KeyOf(source), now);
      if !ok {
        return Refused(TrackingCapacity);
      }
      assert View().sources.Keys == sources.Keys;
      if KeyOf(source) !in sources {
        return Refused(TrackingCapacity);
      }
      r := ChargeConnection(KeyOf(source), now);
    }
  }
}

/**
 The demo node's maintenance transactions: managed files, immutable snapshots of them, the history
 of snapshots inside the owner record, and the marker of a transaction under way.
 */
module DemoSnapshots {
  import opened Basics

  type Name = string
  type Ref = string

  const OWNER: Name := "owner.json"
  const KEPT: nat := 4

  datatype Owner = Owner(history: seq<Ref>, current: Option<Ref>, version: string)
  datatype Content = Bytes(tag: nat) | Record(owner: Owner)
  datatype File = File(content: Content, mode: nat)
  type Files = map<Name, File>

  datatype Command = Up | Upgrade | Rollback
  /** A command under way; the first `up` has no snapshot to return to. */
  datatype Transaction = Transaction(command: Command, previous: Ref, target: Ref) | First(target: Ref)
  datatype Outcome = Committed | Declined | Interrupted

  /**
   Where a command stops: after the pending record, after the marker, after so many managed files or
   all of them, after so many files of the new snapshot, after that snapshot, after the new owner
   record, after so many prunings or all of them, after the pending record is gone again, or never.
   */
  datatype Point =
    | Prepared
    | Marked
    | Changing(steps: nat)
    | Changed
    | Capturing(steps: nat)
    | Captured
    | Owned
    | Pruning(steps: nat)
    | Cleared
    | Unpended
    | Never

  /** The point lies before the first pruning. */
  predicate BeforePrune(p: Point) {
    p.Prepared? || p.Marked? || p.Changing? || p.Changed? || p.Capturing? || p.Captured? || p.Owned? || p == Pruning(0)
  }

  /** The point lies after the new owner record. */
  predicate AfterOwner(p: Point) {
    p.Owned? || p.Pruning? || p.Cleared? || p.Unpended? || p.Never?
  }

  function OwnerOf(files: Files): (r: Option<Owner>) {
    if OWNER in files && files[OWNER].content.Record? then Some(files[OWNER].content.owner) else None
  }

  /** The last `KEPT` entries. */
  function Recent(h: seq<Ref>): (r: seq<Ref>) {
    if |h| <= KEPT then h else h[|h| - KEPT..]
  }

  /** The snapshot of `h[i]` carries the history up to itself. */
  ghost predicate RecordOk(h: seq<Ref>, i: nat, files: Files)
    requires i < |h|
  {
    var o := OwnerOf(files);
    o.Some? && o.value.history == h[..i + 1] && o.value.current == Some(h[i])
  }

  /** `r` is an entry of the history from `k` on. */
  ghost predicate From(h: seq<Ref>, k: nat, r: Ref) {
    exists i :: k <= i < |h| && h[i] == r
  }

  /** The snapshots on disk are the history from `k` on, each with its own record. */
  ghost predicate SuffixOk(h: seq<Ref>, k: nat, snapshots: map<Ref, Files>) {
    && k < |h| <= k + KEPT && Distinct(h)
    && (forall r :: r in snapshots ==> From(h, k, r))
    && (forall i :: k <= i < |h| ==> h[i] in snapshots && RecordOk(h, i, snapshots[h[i]]))
  }

  /** In the middle of a transaction: only snapshots of the old history and the target are there, and of
      the old history only the last one can be missing. */
  ghost predicate MidOk(h: seq<Ref>, k: nat, snapshots: map<Ref, Files>, target: Ref) {
    && k < |h| <= k + KEPT && Distinct(h)
    && (forall r :: r in snapshots ==> From(h, k, r) || r == target)
    && (forall i :: k <= i < |h| - 1 ==> h[i] in snapshots)
    && (forall i :: k <= i < |h| && h[i] in snapshots ==> RecordOk(h, i, snapshots[h[i]]))
    && (target in h ==> From(h, k, target))
  }

  // What the commands do to history and snapshots

  lemma SuffixIsMid(h: seq<Ref>, k: nat, snapshots: map<Ref, Files>, target: Ref)
    requires SuffixOk(h, k, snapshots) && (target in h ==> From(h, k, target))
    ensures MidOk(h, k, snapshots, target)
  {
  }

  lemma CaptureKeepsMid(h: seq<Ref>, k: nat, snapshots: map<Ref, Files>, target: Ref, files: Files)
    requires MidOk(h, k, snapshots, target) && target !in h
    ensures MidOk(h, k, snapshots[target := files], target)
  {
    assert forall i :: k <= i < |h| ==> h[i] != target;
  }

  /** `t` is what is left of `s` when the record of `g` decides what to keep. */
  ghost predicate Pruned(s: map<Ref, Files>, t: map<Ref, Files>, g: Owner, done: bool) {
    && (forall r :: r in t ==> r in s && t[r] == s[r])
    && (forall r :: r in s && (r in Recent(g.history) || g.current == Some(r)) ==> r in t)
    && (done ==> forall r :: r in t ==> r in Recent(g.history) || g.current == Some(r))
  }

  lemma RecentAt(h: seq<Ref>, i: nat)
    requires i < |h| <= i + KEPT
    ensures h[i] in Recent(h)
  {
    if |h| > KEPT {
      assert Recent(h)[i - (|h| - KEPT)] == h[i];
    }
  }

  /** The owner record a command leads to. */
  function Goal(o: Owner, command: Command, target: Ref, version: string): (r: Owner)
    requires o.history != []
  {
    match command
    case Up => Owner(o.history[..|o.history| - 1] + [target], Some(target), o.version)
    case Upgrade => Owner(o.history + [target], Some(target), version)
    case Rollback => Owner(o.history[..|o.history| - 1], Some(target), version)
  }

  /** Pruning at any point of a commit leaves what recovery needs of the old history, except perhaps its
      last snapshot. */
  lemma PruneKeepsMid(o: Owner, k: nat, s: map<Ref, Files>, t: map<Ref, Files>, command: Command, target: Ref,
                      version: string, done: bool)
    returns (m: nat)
    requires MidOk(o.history, k, s, target) && Pruned(s, t, Goal(o, command, target, version), done)
    requires if command == Rollback then |o.history| >= 2 else target !in o.history
    ensures MidOk(o.history, m, t, target)
    ensures (command == Upgrade && o.history[|o.history| - 1] in s ==> o.history[|o.history| - 1] in t)
  {
    hide Recent, RecordOk, From;
    var h, g := o.history, Goal(o, command, target, version).history;
    m := if command == Upgrade && k + 1 < |h| && h[k] !in t then k + 1 else k;
    forall i | m <= i < |h| - 1 ensures h[i] in t {
      assert g[i] == h[i];
      if |g| <= i + KEPT {
        RecentAt(g, i);
      }
    }
    if m == k + 1 {
      FromLater(h, k, t, target);
    }
    if command == Upgrade {
      RecentAt(g, |h| - 1);
    }
  }

  lemma FromLater(h: seq<Ref>, k: nat, t: map<Ref, Files>, target: Ref)
    requires k < |h| && h[k] !in t && forall r :: r in t ==> From(h, k, r) || r == target
    ensures forall r :: r in t ==> From(h, k + 1, r) || r == target
  {
  }

  /** The history a command leaves is an extension of a beginning of the old one. */
  lemma GoalRecord(o: Owner, command: Command, target: Ref, version: string, i: nat, files: Files)
    requires o.history != [] && i < |o.history| && RecordOk(o.history, i, files)
    requires i < |Goal(o, command, target, version).history|
    requires Goal(o, command, target, version).history[i] == o.history[i]
    requires command == Up ==> i < |o.history| - 1
    ensures RecordOk(Goal(o, command, target, version).history, i, files)
  {
    assert Goal(o, command, target, version).history[..i + 1] == o.history[..i + 1];
  }

  lemma RecentIn(h: seq<Ref>, r: Ref)
    requires r in Recent(h)
    ensures exists i :: 0 <= i < |h| <= i + KEPT && h[i] == r
  {
    var j :| 0 <= j < |Recent(h)| && Recent(h)[j] == r;
    assert h[if |h| <= KEPT then j else j + |h| - KEPT] == r;
  }

  /** What is kept after a commit is part of the new history. */
  lemma KeptIsRecent(o: Owner, s: map<Ref, Files>, t: map<Ref, Files>, command: Command, target: Ref,
                     version: string, r: Ref)
    requires o.history != [] && Pruned(s, t, Goal(o, command, target, version), true) && r in t
    requires command == Rollback ==> |o.history| >= 2 && target == o.history[|o.history| - 2]
    ensures var g := Goal(o, command, target, version).history;
            exists i :: 0 <= i < |g| <= i + KEPT && g[i] == r
  {
    var g := Goal(o, command, target, version).history;
    if r in Recent(g) {
      RecentIn(g, r);
    } else {
      assert g[|g| - 1] == target == r;
    }
  }

  ghost function NewStart(h: seq<Ref>, k: nat, command: Command): (r: nat) {
    if command == Upgrade && k + KEPT == |h| then k + 1 else k
  }

  /** After a commit, the snapshots on disk are again the end of the history, each with its own record. */
  lemma Settles(o: Owner, k: nat, s: map<Ref, Files>, t: map<Ref, Files>, command: Command, target: Ref,
                version: string)
    requires MidOk(o.history, k, s, target) && target in s && Pruned(s, t, Goal(o, command, target, version), true)
    requires command == Rollback ==> |o.history| >= 2 && target == o.history[|o.history| - 2] && k < |o.history| - 1
    requires command != Rollback ==>
               target !in o.history && OwnerOf(s[target]) == Some(Goal(o, command, target, version))
    requires command == Upgrade ==> o.history[|o.history| - 1] in s
    ensures SuffixOk(Goal(o, command, target, version).history, NewStart(o.history, k, command), t)
  {
    hide From, Recent, RecordOk, Pruned;
    var h, g, m := o.history, Goal(o, command, target, version).history, NewStart(o.history, k, command);
    GoalDistinct(o, command, target, version);
    forall r | r in t ensures From(g, m, r) {
      KeptIsRecent(o, s, t, command, target, version, r);
      StartsAt(o, k, s, t, command, target, version, r);
    }
    forall i | m <= i < |g| ensures g[i] in t && RecordOk(g, i, t[g[i]]) {
      SettlesAt(o, k, s, t, command, target, version, i);
    }
  }

  lemma SettlesAt(o: Owner, k: nat, s: map<Ref, Files>, t: map<Ref, Files>, command: Command, target: Ref,
                  version: string, i: nat)
    requires MidOk(o.history, k, s, target) && target in s && Pruned(s, t, Goal(o, command, target, version), true)
    requires command == Rollback ==> |o.history| >= 2 && target == o.history[|o.history| - 2] && k < |o.history| - 1
    requires command != Rollback ==>
               target !in o.history && OwnerOf(s[target]) == Some(Goal(o, command, target, version))
    requires command == Upgrade ==> o.history[|o.history| - 1] in s
    requires NewStart(o.history, k, command) <= i < |Goal(o, command, target, version).history|
    ensures var g := Goal(o, command, target, version).history; g[i] in t && RecordOk(g, i, t[g[i]])
  {
    hide From, Recent;
    var h, g := o.history, Goal(o, command, target, version).history;
    RecentAt(g, i);
    if i < |h| && g[i] == h[i] && (command == Up ==> i < |h| - 1) {
      GoalRecord(o, command, target, version, i, s[h[i]]);
    } else {
      assert g[i] == target && g[..i + 1] == g;
    }
  }

  lemma GoalDistinct(o: Owner, command: Command, target: Ref, version: string)
    requires o.history != [] && Distinct(o.history) && (command != Rollback ==> target !in o.history)
    ensures Distinct(Goal(o, command, target, version).history)
  {
    assert forall i :: 0 <= i < |o.history| ==> o.history[i] in o.history;
  }

  lemma StartsAt(o: Owner, k: nat, s: map<Ref, Files>, t: map<Ref, Files>, command: Command, target: Ref,
                 version: string, r: Ref)
    requires MidOk(o.history, k, s, target) && Pruned(s, t, Goal(o, command, target, version), true) && r in t
    requires command == Rollback ==> |o.history| >= 2 && target == o.history[|o.history| - 2] && k < |o.history| - 1
    requires command != Rollback ==> target !in o.history
    requires var g := Goal(o, command, target, version).history; exists i :: 0 <= i < |g| <= i + KEPT && g[i] == r
    ensures From(Goal(o, command, target, version).history, NewStart(o.history, k, command), r)
  {
    hide Recent, RecordOk;
    var h, g, m := o.history, Goal(o, command, target, version).history, NewStart(o.history, k, command);
    var i :| 0 <= i < |g| <= i + KEPT && g[i] == r;
    assert r in s && (From(h, k, r) || r == target);
    assert i >= m;
  }

  /** Recovery leaves the old history as it was. */
  lemma RecoverySettles(o: Owner, k: nat, s: map<Ref, Files>, t: map<Ref, Files>, target: Ref)
    requires MidOk(o.history, k, s, target) && o.history != [] && o.current == Some(o.history[|o.history| - 1])
    requires o.history[|o.history| - 1] in s && Pruned(s, t, o, true)
    ensures SuffixOk(o.history, k, t)
  {
    hide Recent, RecordOk;
    var h := o.history;
    forall i | k <= i < |h| ensures h[i] in t {
      RecentAt(h, i);
    }
    forall r | r in t ensures From(h, k, r) {
      if r in Recent(h) {
        RecentIn(h, r);
        assert r in h;
      }
    }
  }

  lemma RecoveryKeepsMid(o: Owner, k: nat, s: map<Ref, Files>, t: map<Ref, Files>, target: Ref, done: bool)
    requires MidOk(o.history, k, s, target) && o.history != [] && o.current == Some(o.history[|o.history| - 1])
    requires o.history[|o.history| - 1] in s && Pruned(s, t, o, done)
    ensures MidOk(o.history, k, t, target) && o.history[|o.history| - 1] in t
  {
    var h := o.history;
    forall i | k <= i < |h| ensures h[i] in t {
      RecentAt(h, i);
    }
  }

  /** What pruning by this record removes. */
  function Prunable(s: map<Ref, Files>, g: Owner): (r: set<Ref>) {
    set r | r in s && r !in Recent(g.history) && g.current != Some(r)
  }

  lemma PrunedSoFar(s: map<Ref, Files>, t: map<Ref, Files>, g: Owner, todo: set<Ref>)
    requires todo <= Prunable(s, g) && t.Keys == s.Keys - (Prunable(s, g) - todo)
    requires forall r :: r in t ==> r in s && t[r] == s[r]
    ensures Pruned(s, t, g, false) && (todo == {} ==> Pruned(s, t, g, true))
  {
    hide Recent;
  }

  /** The snapshots at the moment a commit starts to prune. */
  function Committing(s: map<Ref, Files>, command: Command, target: Ref, files: Files): (r: map<Ref, Files>) {
    if command == Rollback then s else s[target := files]
  }

  /** A repeated `up` and a `rollback` prune exactly the snapshot to return to; `upgrade` prunes at most
      one snapshot, and never that one. */
  lemma PrunesPrevious(o: Owner, k: nat, s: map<Ref, Files>, command: Command, target: Ref, version: string,
                       files: Files)
    requires SuffixOk(o.history, k, s)
    requires if command == Rollback then |o.history| >= 2 && target == o.history[|o.history| - 2] && target in s
             else target !in o.history
    ensures var gone := Prunable(Committing(s, command, target, files), Goal(o, command, target, version));
            var previous := o.history[|o.history| - 1];
            && |gone| <= 1 && (previous in gone <==> command != Upgrade) && (command != Upgrade ==> gone == {previous})
  {
    hide Recent, RecordOk;
    var h, g := o.history, Goal(o, command, target, version).history;
    var t, previous := Committing(s, command, target, files), h[|h| - 1];
    var gone := Prunable(t, Goal(o, command, target, version));
    if command == Upgrade {
      RecentAt(g, |h| - 1);
      assert g[|h| - 1] == previous;
      UpgradePrunes(o, k, s, target, version, files);
      Fewer(gone, {h[k]});
    } else {
      PreviousPruned(o, command, target, version);
      forall r | r in t && r != previous && r != target ensures r in Recent(g) {
        var i :| k <= i < |h| && h[i] == r;
        assert g[i] == r;
        RecentAt(g, i);
      }
      assert gone == {previous};
    }
  }

  lemma PreviousPruned(o: Owner, command: Command, target: Ref, version: string)
    requires o.history != [] && Distinct(o.history) && command != Upgrade
    requires if command == Rollback then |o.history| >= 2 && target == o.history[|o.history| - 2]
             else target !in o.history
    ensures var g, previous := Goal(o, command, target, version), o.history[|o.history| - 1];
            previous !in Recent(g.history) && g.current != Some(previous)
  {
    var g, previous := Goal(o, command, target, version), o.history[|o.history| - 1];
    assert forall i :: 0 <= i < |g.history| ==> g.history[i] != previous;
  }

  lemma UpgradePrunes(o: Owner, k: nat, s: map<Ref, Files>, target: Ref, version: string, files: Files)
    requires SuffixOk(o.history, k, s) && target !in o.history
    ensures Prunable(s[target := files], Goal(o, Upgrade, target, version)) <= {o.history[k]}
  {
    hide Recent, RecordOk;
    var h, g := o.history, Goal(o, Upgrade, target, version).history;
    forall r | r in s && r != target && r != h[k] ensures r in Recent(g) {
      var i :| k <= i < |h| && h[i] == r;
      assert g[i] == r;
      RecentAt(g, i);
    }
  }

  /** A node can be rolled back. */
  predicate CanRollBack(o: Owner, s: map<Ref, Files>) {
    |o.history| >= 2 && o.history[|o.history| - 2] in s
  }

  class Node {
    var files: Files
    var snapshots: map<Ref, Files>
    var pending: Option<Owner>
    var marker: Option<Transaction>

    /** No transaction under way. */
    ghost predicate Settled()
      reads this
    {
      && marker == None
      && OwnerOf(files).Some?
      && var o := OwnerOf(files).value;
         o.history != [] && o.current == Some(o.history[|o.history| - 1])
         && exists k :: SuffixOk(o.history, k, snapshots)
    }

    /** Copies the managed files, one by one, and makes the copy visible as a whole. */
    method Capture(target: Ref, owner: Owner, mode: nat, stop: Option<nat>) returns (done: bool)
      requires target !in snapshots
      modifies this`snapshots
      ensures done <==> stop == None
      ensures snapshots ==
              if done then old(snapshots)[target := files[OWNER := File(Record(owner), mode)]] else old(snapshots)
    {
      var sources := files[OWNER := File(Record(owner), mode)];
      var copy: Files := map[];
      var todo := sources.Keys;
      while todo != {}
        invariant todo <= sources.Keys && copy.Keys == sources.Keys - todo
        invariant forall n :: n in copy ==> copy[n] == sources[n]
        decreases todo
      {
        if stop == Some(|copy|) {
          return false;
        }
        var n :| n in todo;
        copy := copy[n := sources[n]];
        todo := todo - {n};
      }
      assert copy == sources;
      if stop.Some? {
        return false;
      }
      snapshots := snapshots[target := copy];
      done := true;
    }

    /** Makes the managed files those of a snapshot, one by one. It may stop anywhere; run to its end it
        gives the same result from whatever it finds. */
    method Restore(reference: Ref, stop: Option<nat>) returns (done: bool)
      requires reference in snapshots
      modifies this`files
      ensures done <==> stop == None
      ensures done ==> files == snapshots[reference]
    {
      var wanted := snapshots[reference];
      var extra := files.Keys - wanted.Keys;
      var steps := 0;
      while extra != {}
        invariant extra <= files.Keys && files.Keys - extra <= wanted.Keys && extra !! wanted.Keys
        decreases extra
      {
        if stop == Some(steps) {
          return false;
        }
        var n :| n in extra;
        files := files - {n};
        extra, steps := extra - {n}, steps + 1;
      }
      var todo := wanted.Keys;
      while todo != {}
        invariant todo <= wanted.Keys && files.Keys <= wanted.Keys && wanted.Keys - todo <= files.Keys
        invariant forall n :: n in wanted && n !in todo ==> files[n] == wanted[n]
        decreases todo
      {
        if stop == Some(steps) {
          return false;
        }
        var n :| n in todo;
        files := files[n := wanted[n]];
        todo, steps := todo - {n}, steps + 1;
      }
      assert files == wanted;
      done := stop == None;
    }

    /** Removes the snapshots the owner record no longer needs, one by one. A snapshot is gone once its
        removal starts, since an incomplete one is refused. */
    method Prune(owner: Owner, stop: Option<nat>) returns (done: bool)
      modifies this`snapshots
      ensures done <==> stop == None
      ensures Pruned(old(snapshots), snapshots, owner, done)
      ensures stop == Some(0) ==> snapshots == old(snapshots)
      ensures stop == None || stop.value >= |Prunable(old(snapshots), owner)| ==>
                snapshots.Keys == old(snapshots).Keys - Prunable(old(snapshots), owner)
    {
      hide Pruned, Prunable;
      var todo := Prunable(snapshots, owner);
      ghost var all := todo;
      PrunedSoFar(snapshots, snapshots, owner, todo);
      var steps := 0;
      while todo != {}
        invariant forall r :: r in snapshots ==> r in old(snapshots) && snapshots[r] == old(snapshots)[r]
        invariant todo <= all && snapshots.Keys == old(snapshots).Keys - (all - todo) && steps == |all| - |todo|
        invariant (steps == 0 ==> snapshots == old(snapshots)) && (stop.Some? ==> steps <= stop.value)
        decreases todo
      {
        PrunedSoFar(old(snapshots), snapshots, owner, todo);
        if stop == Some(steps) {
          return false;
        }
        var r :| r in todo;
        snapshots := snapshots - {r};
        todo, steps := todo - {r}, steps + 1;
      }
      PrunedSoFar(old(snapshots), snapshots, owner, todo);
      done := stop == None;
    }

    /** A transaction on the history of `o` is under way. */
    ghost predicate Midway(o: Owner)
      reads this
    {
      && marker.Some? && marker.value.Transaction?
      && o.history != [] && o.current == Some(o.history[|o.history| - 1])
      && marker.value.previous == o.history[|o.history| - 1]
      && exists k :: MidOk(o.history, k, snapshots, marker.value.target)
    }

    /** Nothing is there. */
    ghost predicate Empty()
      reads this
    {
      files == map[] && snapshots == map[] && pending == None && marker == None
    }

    /** The first `up` is under way. */
    ghost predicate Starting()
      reads this
    {
      marker.Some? && marker.value.First?
    }

    constructor ()
      ensures Empty()
    {
      files, snapshots, pending, marker := map[], map[], None, None;
    }

    /**
     The first `up`, on an empty directory. A pending record without a marker, left by one that stopped
     in between, makes it refuse, and is removed as it leaves.
     */
    method FirstUp(rendered: Files, target: Ref, version: string, point: Point) returns (outcome: Outcome)
      requires files == map[] && snapshots == map[] && marker == None && OWNER !in rendered
      modifies this
      ensures outcome.Declined? <==> old(pending).Some?
      ensures outcome.Declined? ==> Empty()
      ensures !outcome.Declined? ==> (outcome.Committed? <==> point.Never?)
      ensures outcome.Committed? ==>
                && Settled() && OwnerOf(files) == Some(Owner([target], Some(target), version))
                && files - {OWNER} == rendered
      ensures outcome.Interrupted? ==>
                if point.Prepared? then files == map[] && snapshots == map[] && marker == None else Starting()
    {
      if pending.Some? {
        pending := None;
        return Declined;
      }
      var o := Owner([target], Some(target), version);
      pending := Some(o);
      if point.Prepared? {
        return Interrupted;
      }
      marker := Some(First(target));
      if point.Marked? {
        return Interrupted;
      }
      files := rendered;
      if point.Changing? {
        var written: set<Name> := *;
        files := map n | n in rendered && n in written :: rendered[n];
        return Interrupted;
      }
      if point.Changed? {
        return Interrupted;
      }
      var done := Capture(target, o, 0, if point.Capturing? then Some(point.steps) else None);
      if !done || point.Captured? {
        return Interrupted;
      }
      files := files[OWNER := File(Record(o), 0)];
      assert snapshots == map[target := files] && files - {OWNER} == rendered;
      done := Finish(o, point);
      if !done {
        return Interrupted;
      }
      OneSnapshot(o, target, snapshots);
      outcome := Committed;
    }

    /** Undoes a first `up` that stopped: everything goes, the marker last, however often this stops itself. */
    method UndoFirst(stop: Option<nat>) returns (done: bool)
      requires Starting()
      modifies this
      ensures done <==> stop == None
      ensures if done then Empty() else Starting()
    {
      var steps := 0;
      while files != map[] || snapshots != map[] || pending.Some?
        invariant Starting()
        decreases files.Keys, snapshots.Keys, pending.Some?
      {
        if stop == Some(steps) {
          return false;
        }
        if files != map[] {
          var n :| n in files;
          ghost var was := files.Keys;
          files := files - {n};
          assert n in was && n !in files.Keys;
        } else if snapshots != map[] {
          var r :| r in snapshots;
          ghost var was := snapshots.Keys;
          snapshots := snapshots - {r};
          assert r in was && r !in snapshots.Keys;
        } else {
          pending := None;
        }
        steps := steps + 1;
      }
      if stop.Some? {
        return false;
      }
      marker := None;
      done := true;
    }

    /** Renders configuration, in part or all of it: the managed files change, the owner record does not. */
    method Render(ghost o: Owner)
      requires Midway(o) && OWNER in files
      modifies this`files
      ensures Midway(o) && OWNER in files && files[OWNER] == old(files)[OWNER]
    {
      hide MidOk;
      ghost var k :| MidOk(o.history, k, snapshots, marker.value.target);
      var rendered: Files := *;
      files := rendered[OWNER := files[OWNER]];
      assert MidOk(o.history, k, snapshots, marker.value.target);
    }

    /** The marker of a transaction that is about to begin. */
    method Mark(ghost o: Owner, ghost k: nat, transaction: Transaction)
      requires transaction.Transaction? && MidOk(o.history, k, snapshots, transaction.target)
      requires o.history != [] && o.current == Some(o.history[|o.history| - 1])
      requires transaction.previous == o.history[|o.history| - 1]
      modifies this`marker
      ensures Midway(o) && marker == Some(transaction)
    {
      hide MidOk;
      marker := Some(transaction);
      assert MidOk(o.history, k, snapshots, marker.value.target);
    }

    /** The end of a transaction: snapshots that are no longer needed go, then the pending record, then the marker. */
    method Finish(g: Owner, point: Point) returns (done: bool)
      requires marker.Some? && OwnerOf(files) == Some(g)
      modifies this`snapshots, this`pending, this`marker
      ensures done <==> point.Never?
      ensures marker == if done then None else old(marker)
      ensures Pruned(old(snapshots), snapshots, g, done)
      ensures BeforePrune(point) ==> snapshots == old(snapshots)
      ensures !BeforePrune(point) && |Prunable(old(snapshots), g)| <= 1 ==>
                snapshots.Keys == old(snapshots).Keys - Prunable(old(snapshots), g)
    {
      hide Recent;
      if BeforePrune(point) {
        return false;
      }
      done := Prune(g, if point.Pruning? then Some(point.steps) else None);
      if !done || point.Cleared? {
        return false;
      }
      pending := None;
      if point.Unpended? {
        return false;
      }
      marker := None;
      done := true;
    }

    /** A transaction whose owner record stands, from its pruning to its end. */
    method Conclude(ghost o: Owner, ghost k: nat, ghost command: Command, ghost target: Ref, g: Owner, point: Point)
      returns (outcome: Outcome)
      requires Midway(o) && marker.value.target == target && MidOk(o.history, k, snapshots, target)
      requires OwnerOf(files) == Some(g) && g == Goal(o, command, target, g.version)
      requires target in snapshots && marker.value.previous in snapshots
      requires if command == Rollback then
                 |o.history| >= 2 && target == o.history[|o.history| - 2] && k < |o.history| - 1
               else target !in o.history && OwnerOf(snapshots[target]) == Some(g)
      requires var gone := Prunable(snapshots, g);
               |gone| <= 1 && (marker.value.previous in gone <==> command != Upgrade)
      modifies this`snapshots, this`pending, this`marker
      ensures outcome == if point.Never? then Committed else Interrupted
      ensures outcome.Committed? ==> Settled()
      ensures outcome.Interrupted? ==>
                Midway(o) && (marker.value.previous in snapshots <==> command == Upgrade || BeforePrune(point))
    {
      hide MidOk, SuffixOk, Pruned, Prunable, Recent;
      ghost var s := snapshots;
      var done := Finish(g, point);
      if done {
        Settles(o, k, s, snapshots, command, target, g.version);
        return Committed;
      }
      ghost var m := PruneKeepsMid(o, k, s, snapshots, command, target, g.version, false);
      outcome := Interrupted;
    }

    /** `up` and `upgrade` after preparation: the new state is captured, made current, and the rest pruned. */
    method CommitNew(ghost o: Owner, ghost k: nat, command: Command, target: Ref, g: Owner, point: Point)
      returns (outcome: Outcome)
      requires Midway(o) && marker.value.command == command && marker.value.target == target
      requires command != Rollback && OWNER in files
      requires SuffixOk(o.history, k, snapshots) && target !in o.history && target !in snapshots
      requires g == Goal(o, command, target, g.version)
      modifies this
      ensures outcome == if point.Never? then Committed else Interrupted
      ensures outcome.Committed? ==> Settled() && OwnerOf(files) == Some(g)
      ensures outcome.Interrupted? ==>
                Midway(o) && (marker.value.previous in snapshots <==> command == Upgrade || BeforePrune(point))
      ensures AfterOwner(point) ==> OwnerOf(files) == Some(g)
    {
      hide MidOk, SuffixOk, Pruned, Prunable, Recent;
      SuffixIsMid(o.history, k, snapshots, target);
      LastThere(o.history, k, snapshots);
      ghost var s := snapshots;
      var early := point.Prepared? || point.Marked? || point.Changing? || point.Changed?;
      if early {
        return Interrupted;
      }
      var done := Capture(target, g, 0, if point.Capturing? then Some(point.steps) else None);
      if !done {
        return Interrupted;
      }
      CaptureKeepsMid(o.history, k, s, target, snapshots[target]);
      PrunesPrevious(o, k, s, command, target, g.version, snapshots[target]);
      assert MidOk(o.history, k, snapshots, marker.value.target);
      if point.Captured? {
        return Interrupted;
      }
      files := files[OWNER := File(Record(g), 0)];
      assert MidOk(o.history, k, snapshots, marker.value.target);
      outcome := Conclude(o, k, command, target, g, point);
    }

    /** `rollback`: the snapshot before the current one is restored, and what came after it pruned. */
    method CommitRollback(ghost o: Owner, ghost k: nat, target: Ref, point: Point) returns (outcome: Outcome)
      requires Midway(o) && marker.value.command == Rollback && marker.value.target == target
      requires SuffixOk(o.history, k, snapshots) && |o.history| >= 2 && target == o.history[|o.history| - 2]
      requires target in snapshots
      modifies this
      ensures outcome == if point.Never? then Committed else Interrupted
      ensures outcome.Committed? ==> Settled()
      ensures outcome.Interrupted? ==> Midway(o) && (marker.value.previous in snapshots <==> BeforePrune(point))
      ensures AfterOwner(point) ==>
                OwnerOf(files).Some? && OwnerOf(files).value.history == o.history[..|o.history| - 1]
    {
      hide MidOk, SuffixOk, Pruned, Prunable, Recent;
      LastThere(o.history, k, snapshots);
      TargetRecord(o, k, snapshots, target);
      SuffixIsMid(o.history, k, snapshots, target);
      assert MidOk(o.history, k, snapshots, marker.value.target);
      if point.Prepared? || point.Marked? {
        return Interrupted;
      }
      var done := Restore(target, if point.Changing? then Some(point.steps) else None);
      assert MidOk(o.history, k, snapshots, marker.value.target);
      if !done {
        return Interrupted;
      }
      var g := OwnerOf(files).value;
      assert g == Goal(o, Rollback, target, g.version);
      PrunesPrevious(o, k, snapshots, Rollback, target, g.version, map[]);
      outcome := Conclude(o, k, Rollback, target, g, point);
    }

    /**
     A command on a settled node. It declines without a trace, commits, or stops at the given point.
     When it stops, the snapshot to return to is missing exactly for `up` and `rollback` from the first
     pruning on.
     */
    method Transact(command: Command, created: Ref, version: string, point: Point) returns (outcome: Outcome)
      requires Settled() && (command != Rollback ==> created !in snapshots && created !in OwnerOf(files).value.history)
      modifies this
      ensures outcome.Declined? <==> command == Rollback && !CanRollBack(old(OwnerOf(files)).value, old(snapshots))
      ensures outcome.Declined? ==> Settled() && files == old(files) && snapshots == old(snapshots)
      ensures !outcome.Declined? ==> (outcome.Committed? <==> point.Never?)
      ensures outcome.Committed? ==> Settled()
      ensures outcome.Interrupted? && point.Prepared? ==>
                Settled() && files == old(files) && snapshots == old(snapshots)
      ensures outcome.Interrupted? && !point.Prepared? ==>
                && Midway(old(OwnerOf(files)).value)
                && (marker.value.previous in snapshots <==> command == Upgrade || BeforePrune(point))
      ensures !outcome.Declined? && AfterOwner(point) ==>
                OwnerOf(files).Some? && OwnerOf(files).value.history ==
                                        Goal(old(OwnerOf(files)).value, command, created, version).history
    {
      hide MidOk, SuffixOk, Pruned, Prunable, Recent;
      var o := OwnerOf(files).value;
      ghost var k :| SuffixOk(o.history, k, snapshots);
      var target := created;
      if command == Rollback {
        if !CanRollBack(o, snapshots) {
          return Declined;
        }
        target := o.history[|o.history| - 2];
        TargetRecord(o, k, snapshots, target);
      }
      LastThere(o.history, k, snapshots);
      SuffixIsMid(o.history, k, snapshots, target);
      var g := Goal(o, command, target, version);
      pending := Some(if command == Rollback then o else g);
      assert SuffixOk(o.history, k, snapshots);
      if point.Prepared? {
        return Interrupted;
      }
      Mark(o, k, Transaction(command, o.current.value, target));
      if command == Rollback {
        outcome := CommitRollback(o, k, target, point);
        return;
      }
      if !point.Marked? {
        Render(o);
      }
      outcome := CommitNew(o, k, command, target, g, point);
    }

    /** Recovery after an interrupted transaction: possible exactly when the previous snapshot is still there,
        from any point, and as often as it is itself interrupted; it brings the old history back. */
    method Recover(ghost o: Owner, point: Point) returns (outcome: Outcome)
      requires Midway(o)
      modifies this
      ensures outcome.Declined? <==> old(marker).value.previous !in old(snapshots)
      ensures outcome.Declined? ==> files == old(files) && snapshots == old(snapshots) && marker == old(marker)
      ensures !outcome.Declined? ==> (outcome.Committed? <==> point.Never?)
      ensures outcome.Committed? ==> Settled() && OwnerOf(files).value.history == o.history
      ensures outcome.Interrupted? ==> Midway(o) && marker.value.previous in snapshots
    {
      hide MidOk, SuffixOk, Pruned, Prunable, Recent;
      var previous := marker.value.previous;
      if previous !in snapshots {
        return Declined;
      }
      ghost var k :| MidOk(o.history, k, snapshots, marker.value.target);
      PreviousRecord(o, k, snapshots, marker.value.target);
      if point.Prepared? || point.Marked? {
        return Interrupted;
      }
      var done := Restore(previous, if point.Changing? then Some(point.steps) else None);
      assert MidOk(o.history, k, snapshots, marker.value.target);
      if !done {
        return Interrupted;
      }
      pending := None;
      var g := OwnerOf(files).value;
      ghost var s, target := snapshots, marker.value.target;
      done := Finish(g, point);
      if done {
        RecoverySettles(g, k, s, snapshots, target);
        return Committed;
      }
      RecoveryKeepsMid(g, k, s, snapshots, target, false);
      outcome := Interrupted;
    }
  }

  /**
   A command that stops anywhere once its marker stands, then recovery, from every settled node:
   recovery is refused exactly when an `up` or a `rollback` stopped after it began to prune, and
   otherwise brings the old history back unless it is itself interrupted.
   */
  method InterruptAndRecover(node: Node, command: Command, created: Ref, version: string, point: Point, again: Point)
    returns (first: Outcome, second: Outcome)
    requires node.Settled() && !point.Prepared? && !point.Never?
    requires if command == Rollback then CanRollBack(OwnerOf(node.files).value, node.snapshots)
             else created !in node.snapshots && created !in OwnerOf(node.files).value.history
    modifies node
    ensures first.Interrupted?
    ensures second.Declined? <==> command != Upgrade && !BeforePrune(point)
    ensures !second.Declined? ==> (second.Committed? <==> again.Never?)
    ensures second.Committed? ==>
              node.Settled() && OwnerOf(node.files).value.history == old(OwnerOf(node.files)).value.history
  {
    ghost var o := OwnerOf(node.files).value;
    first := node.Transact(command, created, version, point);
    second := node.Recover(o, again);
  }

  /** From an empty directory: a first `up`, a second one that stops with everything pruned and its marker
      standing, and no way back. */
  method Stranded() returns (node: Node, outcome: Outcome)
    ensures fresh(node) && outcome.Declined?
    ensures node.marker.Some? && node.marker.value.Transaction? && node.marker.value.previous !in node.snapshots
  {
    node := new Node();
    outcome := node.FirstUp(map[], "a", "v", Never);
    ghost var o := OwnerOf(node.files).value;
    Lone(node.snapshots, "a", "b");
    outcome := node.Transact(Up, "b", "v", Cleared);
    outcome := node.Recover(o, Never);
  }

  lemma Lone(s: map<Ref, Files>, a: Ref, b: Ref)
    requires a != b && exists k :: SuffixOk([a], k, s)
    ensures b !in s && b !in [a]
  {
    var k :| SuffixOk([a], k, s);
    assert b in s ==> From([a], k, b);
  }

  lemma OneSnapshot(o: Owner, target: Ref, s: map<Ref, Files>)
    requires o.history == [target] && o.current == Some(target)
    requires target in s && s.Keys <= {target} && OwnerOf(s[target]) == Some(o)
    ensures SuffixOk(o.history, 0, s)
  {
    assert o.history[0] == target && o.history[..1] == o.history && From(o.history, 0, target);
  }

  lemma TargetRecord(o: Owner, k: nat, snapshots: map<Ref, Files>, target: Ref)
    requires SuffixOk(o.history, k, snapshots) && |o.history| >= 2 && target == o.history[|o.history| - 2]
    requires target in snapshots
    ensures k < |o.history| - 1 && From(o.history, k, target) && OwnerOf(snapshots[target]).Some?
    ensures var g := OwnerOf(snapshots[target]).value; g == Goal(o, Rollback, target, g.version)
  {
    var i := |o.history| - 2;
    assert From(o.history, k, target);
    assert RecordOk(o.history, i, snapshots[o.history[i]]);
  }

  lemma PreviousRecord(o: Owner, k: nat, snapshots: map<Ref, Files>, target: Ref)
    requires MidOk(o.history, k, snapshots, target) && o.history[|o.history| - 1] in snapshots
    ensures o.history != []
    ensures var g := OwnerOf(snapshots[o.history[|o.history| - 1]]);
            g.Some? && g.value.history == o.history && g.value.current == Some(o.history[|o.history| - 1])
  {
    var i := |o.history| - 1;
    assert RecordOk(o.history, i, snapshots[o.history[i]]);
    assert o.history[..i + 1] == o.history;
  }

  lemma LastThere(h: seq<Ref>, k: nat, snapshots: map<Ref, Files>)
    requires SuffixOk(h, k, snapshots)
    ensures h != [] && h[|h| - 1] in snapshots && k < |h| && Distinct(h)
  {
  }
}

/**
 What becomes of a reply goal. Every event of a batch carries its version, so when the last one is
 accepted nothing else has happened to the surface in between, whoever else writes to it and however
 often the host crashes: the surface was on the goal.
 */
module PlanDelivery {
  import opened Basics
  import opened Surface
  import opened SurfacePlan
  import opened SurfacePlanRuns
  import opened SurfacePlanGoal
  import opened SurfaceReplies
  import SurfaceReplyLimits
  import W = WriteAhead

  // The surfaces

  /** Every command ever accepted for each surface, from whomever, by conversation and surface. */
  type World = (string, Id) -> seq<Command>

  ghost predicate Legal(w: World) {
    forall c, id :: ApplyAll(NEW, c, w(c, id)).Ok?
  }

  ghost function HistoryOf(w: World, p: W.Pending): (r: seq<Command>)
    requires p.goal.Some?
  {
    w(p.conversation, p.goal.value.plan.target.surface)
  }

  /** The surface at a version. */
  ghost function At(conversation: string, h: seq<Command>, v: nat): (r: State)
    requires v <= |h| && ApplyAll(NEW, conversation, h[..v]).Ok?
  {
    ApplyAll(NEW, conversation, h[..v]).value
  }

  lemma Past(conversation: string, h: seq<Command>, v: nat)
    requires ApplyAll(NEW, conversation, h).Ok? && v <= |h|
    ensures ApplyAll(NEW, conversation, h[..v]).Ok?
  {
    assert h == h[..v] + h[v..];
    ApplyAllSplit(NEW, conversation, h[..v], h[v..]);
  }

  lemma Between(conversation: string, h: seq<Command>, u: nat, v: nat)
    requires ApplyAll(NEW, conversation, h).Ok? && u <= v <= |h|
    ensures ApplyAll(NEW, conversation, h[..u]).Ok? && ApplyAll(NEW, conversation, h[..v]).Ok?
    ensures ApplyAll(At(conversation, h, u), conversation, h[u..v]) == Ok(At(conversation, h, v))
  {
    Past(conversation, h, u);
    Past(conversation, h, v);
    assert h[..v] == h[..u] + h[u..v];
    ApplyAllSplit(NEW, conversation, h[..u], h[u..v]);
  }

  lemma StateThere(conversation: string, h: seq<Command>, v: nat)
    requires ApplyAll(NEW, conversation, h).Ok? && 1 <= v <= |h|
    ensures ApplyAll(NEW, conversation, h[..v]).Ok?
    ensures var s := At(conversation, h, v);
            Consistent(s) && s.content.Some? && s.conversation == Some(conversation)
  {
    hide ApplyAll, Consistent;
    Past(conversation, h, v);
    Beginning(conversation, h);
    ApplyAllKeeps(NEW, conversation, h[..v]);
    SpokenIn(conversation, h[..v]);
  }

  lemma SpokenIn(conversation: string, commands: seq<Command>)
    requires commands != [] && ApplyAll(NEW, conversation, commands).Ok?
    ensures ApplyAll(NEW, conversation, commands).value.conversation == Some(conversation)
  {
    hide Accepted, FinalsMatch;
    ApplyAllFirst(NEW, conversation, commands);
    var s := Apply(NEW, conversation, 1, commands[0]).value;
    StaysIn(s, conversation, commands[1..]);
  }

  lemma {:induction false} StaysIn(s: State, conversation: string, commands: seq<Command>)
    requires s.content.Some? && s.conversation == Some(conversation) && ApplyAll(s, conversation, commands).Ok?
    ensures ApplyAll(s, conversation, commands).value.conversation == Some(conversation)
    decreases |commands|
  {
    hide Accepted, FinalsMatch;
    if commands != [] {
      ApplyAllFirst(s, conversation, commands);
      StaysIn(Apply(s, conversation, s.version + 1, commands[0]).value, conversation, commands[1..]);
    }
  }

  // Truthful answers

  /** The event is in the history, under its version. */
  ghost predicate Holds(h: seq<Command>, o: W.Output) {
    o.body.Event? && 1 <= o.body.version <= |h| && h[o.body.version - 1] == o.body.command
  }

  /** The view is of the surface as it was at that version. */
  ghost predicate TrueView(conversation: string, h: seq<Command>, seen: W.Seen) {
    && 1 <= seen.version <= |h| && ApplyAll(NEW, conversation, h[..seen.version]).Ok?
    && var s := At(conversation, h, seen.version);
       s.content.Some? && seen.view == ViewOf(s)
  }

  /** What is answered about a goal's surface is so: accepted events are there, views are of it. */
  ghost predicate TrueAt(w: World, t: W.Track, e: W.Entry) {
    t.live.Some? && W.Planned(t.live.value.pending) ==>
      var p := t.live.value.pending;
      && (e.Accept? && e.output.kind == W.SurfaceSend ==> Holds(HistoryOf(w, p), e.output))
      && (e.Replan? || e.Found? ==> TrueView(p.conversation, HistoryOf(w, p), e.seen))
  }

  ghost predicate Truthful(w: World, log: seq<W.Entry>) {
    forall i :: 0 <= i < |log| ==> W.Run(log[..i]).Some? && TrueAt(w, W.Run(log[..i]).value, log[i])
  }

  lemma TruthfulBefore(w: World, log: seq<W.Entry>, k: nat)
    requires Truthful(w, log) && k <= |log|
    ensures Truthful(w, log[..k])
  {
    forall i | 0 <= i < k ensures log[..k][..i] == log[..i] && log[..k][i] == log[i] {
    }
  }

  // What every truthful run keeps

  /** The version before the first event of a batch. */
  function StartOf(batch: seq<W.Output>): (r: int) {
    if batch != [] && batch[0].body.Event? then batch[0].body.version - 1 else 0
  }

  /** Where a batch starts from: a new surface, or one at a version from which it was re-derived. */
  ghost predicate Starts(w: World, s: W.Slot)
    requires W.Planned(s.pending)
  {
    var p, v, commands := s.pending, StartOf(s.batch), W.CommandsOf(s.batch);
    && v >= 0 && W.Numbered(s.batch, v + 1)
    && if v == 0 then W.GoalOf(p.goal.value, p.conversation, commands)
       else Rederives(p.goal.value, p.conversation, HistoryOf(w, p), v, commands)
  }

  ghost predicate Rederives(g: W.Goal, conversation: string, h: seq<Command>, v: nat, commands: seq<Command>) {
    && 1 <= v <= |h| && ApplyAll(NEW, conversation, h[..v]).Ok? && At(conversation, h, v).content.Some?
    && Lists(g.order, g.plan.streams)
    && Rederive(g.plan, ViewOf(At(conversation, h, v)), g.order) == Ok(commands)
  }

  /** A record of a goal: its batch starts where it should, and what was delivered of it is there. */
  ghost predicate Landed(w: World, s: W.Slot, upto: nat) {
    W.Planned(s.pending) ==>
      && Accepted(s.pending.goal.value.plan.target)
      && (s.pending.head.kind != W.SurfaceResync ==> Starts(w, s) && There(HistoryOf(w, s.pending), s.batch, upto))
  }

  /** The first outputs of a batch are in the history. */
  ghost predicate There(h: seq<Command>, batch: seq<W.Output>, upto: nat) {
    upto <= |batch| && forall i :: 0 <= i < upto ==> Holds(h, batch[i])
  }

  ghost predicate Good(w: World, t: W.Track) {
    && (t.live.Some? ==> Landed(w, t.live.value, t.live.value.done))
    && (t.disk.Some? ==> Landed(w, t.disk.value, t.disk.value.done))
    && (t.live.Some? && t.stage == W.Answered ==> Landed(w, t.live.value, t.live.value.done + 1))
  }

  lemma OpeningLands(w: World, p: W.Pending)
    requires W.Opening(p)
    ensures Landed(w, W.Fresh(p), 0)
  {
    hide ApplyAll, StreamsIn;
    if W.Planned(p) {
      var batch := [p.head] + p.remaining;
      var commands := W.CommandsOf(batch);
      assert batch[0].body == W.Event(1, W.CommandOf(batch[0]));
      Beginning(p.conversation, commands);
      ApplyAllKeeps(NEW, p.conversation, commands);
    }
  }

  lemma ReplanLands(w: World, s: W.Slot, outputs: seq<W.Output>, seen: W.Seen)
    requires W.Planned(s.pending) ==>
               && Accepted(s.pending.goal.value.plan.target)
               && TrueView(s.pending.conversation, HistoryOf(w, s.pending), seen)
    requires outputs != [] && W.Continuing(s.pending, outputs, seen)
    ensures Landed(w, W.Slot(W.WithOutputs(s.pending, outputs), outputs, 0, s.replans + 1), 0)
  {
    hide ApplyAll, Rederive, Accepted;
    if W.Planned(s.pending) {
      assert outputs[0].body == W.Event(seen.version + 1, W.CommandOf(outputs[0]));
    }
  }

  lemma AcceptLands(w: World, s: W.Slot, output: W.Output)
    requires Landed(w, s, s.done) && W.SlotOk(s) && output == s.pending.head
    requires W.Planned(s.pending) && output.kind == W.SurfaceSend ==> Holds(HistoryOf(w, s.pending), output)
    ensures Landed(w, s, s.done + 1)
  {
    hide Accepted, W.GoalOf, Rederives, Holds;
    if W.Planned(s.pending) && s.pending.head.kind != W.SurfaceResync {
      assert s.batch[s.done].kind == W.SurfaceSend;
    }
  }

  lemma AdvanceLands(w: World, s: W.Slot)
    requires Landed(w, s, s.done + 1) && W.SlotOk(s) && s.pending.remaining != []
    ensures var next := s.(pending := W.WithOutputs(s.pending, s.pending.remaining), done := s.done + 1);
            Landed(w, next, next.done)
  {
    hide Accepted, W.GoalOf, Rederives, There, W.Numbered;
  }

  lemma MarkLands(w: World, s: W.Slot, code: W.Code)
    requires Landed(w, s, s.done)
    ensures Landed(w, s.(pending := W.Marked(s.pending, code)), s.done)
  {
    hide Accepted, There, W.Numbered, Rederive, ApplyAll;
  }

  lemma NextGood(w: World, t: W.Track, e: W.Entry)
    requires Good(w, t) && W.Next(t, e).Some? && TrueAt(w, t, e)
    requires t.live.Some? ==> W.SlotOk(t.live.value)
    ensures Good(w, W.Next(t, e).value)
  {
    hide W.Opening, W.Continuing, W.SlotOk, Starts, There, Accepted, Holds, TrueView;
    match e
    case Begin(p) => OpeningLands(w, p);
    case Replan(outputs, seen) => ReplanLands(w, t.live.value, outputs, seen);
    case Accept(output) => AcceptLands(w, t.live.value, output);
    case Advance => AdvanceLands(w, t.live.value);
    case Mark(code) => MarkLands(w, t.live.value, code);
    case _ =>
  }

  lemma {:induction false} RunGood(w: World, log: seq<W.Entry>)
    requires W.Run(log).Some? && Truthful(w, log)
    ensures Good(w, W.Run(log).value)
  {
    hide TrueAt, W.Next, W.SlotOk, W.Delivered, Landed;
    if log != [] {
      var last := |log| - 1;
      var before := log[..last];
      TruthfulBefore(w, log, last);
      RunGood(w, before);
      W.RunSound(before);
      NextGood(w, W.Run(before).value, log[last]);
    }
  }

  // Where a goal ends

  /** The commands of a batch that is all there are the part of the history after its start. */
  lemma BatchThere(h: seq<Command>, batch: seq<W.Output>, start: nat)
    requires W.Numbered(batch, start + 1) && There(h, batch, |batch|) && batch != []
    ensures start + |batch| <= |h| && h[start..start + |batch|] == W.CommandsOf(batch)
  {
    var n := |batch|;
    assert Holds(h, batch[n - 1]);
    forall i | 0 <= i < n ensures h[start + i] == W.CommandsOf(batch)[i] {
      assert Holds(h, batch[i]) && batch[i].body == W.Event(start + 1 + i, W.CommandOf(batch[i]));
    }
  }

  /** The commands of a reply: a new surface, then texts, fallbacks and an end. */
  ghost predicate ReplyShaped(commands: seq<Command>) {
    commands != [] && commands[0].Create? && forall h :: h in commands[1..] ==> Reply(h)
  }

  lemma ReplyReached(g: W.Goal, conversation: string, commands: seq<Command>)
    requires W.GoalOf(g, conversation, commands) && ReplyShaped(commands)
    ensures var t := ApplyAll(NEW, conversation, commands).value; t.content.Some? && Reached(g.plan, t)
  {
    hide Accepted, FinalsMatch, Reached;
    ApplyAllFirst(NEW, conversation, commands);
    var first, rest := Apply(NEW, conversation, 1, commands[0]).value, commands[1..];
    var t := ApplyAll(NEW, conversation, commands).value;
    Beginning(conversation, commands);
    ApplyKeeps(NEW, conversation, 1, commands[0]);
    ApplyAllKeeps(NEW, conversation, commands);
    FinishedThere(g.plan, first, conversation, rest, t);
  }

  lemma FinishedThere(plan: Plan, first: State, conversation: string, rest: seq<Command>, t: State)
    requires Consistent(first) && first.content.Some? && Consistent(t) && t.content.Some?
    requires ApplyAll(first, conversation, rest) == Ok(t) && forall h :: h in rest ==> Reply(h)
    requires Aims(plan, t) && plan.streams == StreamsIn(rest)
    ensures Reached(plan, t)
  {
    hide ApplyAll, Consistent, StreamsIn, StreamsOf;
    forall id | id in plan.streams && plan.streams[id] ensures id in StreamsOf(t) && StreamsOf(t)[id] == Final {
      SurfaceReplyLimits.FinalsGrow(first, conversation, rest, t, id);
      StreamsExist(first, conversation, rest, t, id);
      StreamLookup(t, id);
    }
  }

  /**
   Whoever else writes to the surface, and whatever crashes there were: when the last event of a
   goal's batch is accepted, the surface at that event's version has the planned content and is
   closed as planned. Every planned stream is finished too, if the batch was re-derived or is a reply
   of the usual shape.
   */
  lemma GoalReached(w: World, log: seq<W.Entry>)
    requires Legal(w) && W.Run(log).Some? && Truthful(w, log)
    requires var t := W.Run(log).value;
             && t.live.Some? && W.Planned(t.live.value.pending) && t.stage == W.Answered
             && t.live.value.pending.remaining == [] && t.live.value.pending.head.kind != W.SurfaceResync
    ensures var s := W.Run(log).value.live.value;
            var p, h := s.pending, HistoryOf(w, s.pending);
            && p.head.body.Event? && p.head.body.version <= |h|
            && ApplyAll(NEW, p.conversation, h[..p.head.body.version]).Ok?
            && var t := At(p.conversation, h, p.head.body.version);
               && Aims(p.goal.value.plan, t)
               && (StartOf(s.batch) > 0 || ReplyShaped(W.CommandsOf(s.batch)) ==> Reached(p.goal.value.plan, t))
  {
    hide W.Next, W.Delivered, Truthful, TrueAt, ApplyAll, Rederive;
    RunGood(w, log);
    W.RunSound(log);
    var s := W.Run(log).value.live.value;
    BatchEnds(w, s);
  }

  lemma BatchEnds(w: World, s: W.Slot)
    requires Legal(w) && W.SlotOk(s) && Landed(w, s, s.done + 1)
    requires W.Planned(s.pending) && s.pending.remaining == [] && s.pending.head.kind != W.SurfaceResync
    ensures var p, h := s.pending, HistoryOf(w, s.pending);
            && p.head.body.Event? && p.head.body.version <= |h|
            && ApplyAll(NEW, p.conversation, h[..p.head.body.version]).Ok?
            && var t := At(p.conversation, h, p.head.body.version);
               && Aims(p.goal.value.plan, t)
               && (StartOf(s.batch) > 0 || ReplyShaped(W.CommandsOf(s.batch)) ==> Reached(p.goal.value.plan, t))
  {
    hide ApplyAll, Rederive, Accepted, ReplyShaped, Reached, Holds, Lists, Consistent, Aims;
    var p, h, v := s.pending, HistoryOf(w, s.pending), StartOf(s.batch);
    assert s.done + 1 == |s.batch| && s.batch[s.done].body == W.Event(v + 1 + s.done, W.CommandOf(s.batch[s.done]));
    BatchThere(h, s.batch, v);
    var commands := W.CommandsOf(s.batch);
    Between(p.conversation, h, v, v + |s.batch|);
    if v == 0 {
      assert h[..0] == [];
      NothingMore(NEW, p.conversation, map[]);
      if ReplyShaped(commands) {
        ReplyReached(p.goal.value, p.conversation, commands);
      }
    } else {
      StateThere(p.conversation, h, v);
      RederiveReaches(p.goal.value.plan, At(p.conversation, h, v), p.goal.value.order, commands, p.conversation);
      ReachedAims(p.goal.value.plan, At(p.conversation, h, v + |s.batch|));
    }
  }

  lemma ReachedAims(plan: Plan, t: State)
    requires t.content.Some? && Reached(plan, t)
    ensures Aims(plan, t)
  {
  }

  /** A record retired because nothing is left to re-derive: the surface as it was seen is on the goal. */
  lemma FoundReached(w: World, log: seq<W.Entry>, seen: W.Seen)
    requires Legal(w) && W.Run(log + [W.Found(seen)]).Some? && Truthful(w, log + [W.Found(seen)])
    ensures W.Run(log).Some? && W.Run(log).value.live.Some?
    ensures var p := W.Run(log).value.live.value.pending;
            && W.Planned(p) && TrueView(p.conversation, HistoryOf(w, p), seen)
            && Reached(p.goal.value.plan, At(p.conversation, HistoryOf(w, p), seen.version))
  {
    hide ApplyAll, Rederive, Accepted, Reached, Lists, TrueView, Starts, There, W.Numbered, W.Delivered, W.SlotOk;
    var more := log + [W.Found(seen)];
    assert more[..|log|] == log && more[|log|] == W.Found(seen);
    TruthfulBefore(w, more, |log|);
    RunGood(w, log);
    var p := W.Run(log).value.live.value.pending;
    assert W.CommandsOf([]) == [];
    SeenReached(p.goal.value, p.conversation, HistoryOf(w, p), seen);
  }

  lemma SeenReached(g: W.Goal, conversation: string, h: seq<Command>, seen: W.Seen)
    requires ApplyAll(NEW, conversation, h).Ok? && TrueView(conversation, h, seen)
    requires Accepted(g.plan.target) && Lists(g.order, g.plan.streams) && Rederive(g.plan, seen.view, g.order) == Ok([])
    ensures Reached(g.plan, At(conversation, h, seen.version))
  {
    hide ApplyAll, Rederive, Accepted, Reached, Lists, Consistent;
    StateThere(conversation, h, seen.version);
    var s := At(conversation, h, seen.version);
    RederiveReaches(g.plan, s, g.order, [], conversation);
    NothingMore(s, conversation, map[]);
  }
}

/**
 The rules of the write-ahead output slot, as an automaton over everything that happens to it:
 assignments in memory, durable writes, requests, answers and crashes.
 */
module WriteAhead {
  import opened Basics
  import Surface
  import SurfacePlan
  import SurfaceReplies

  type Key = string

  datatype Method = Text | SurfaceSend | SurfaceResync
  /** What a request carries: an event of a surface with its version, or anything else. */
  datatype Body = Event(version: nat, command: Surface.Command) | Other(tag: nat)
  datatype Output = Output(kind: Method, operation: string, body: Body)
  datatype Code =
    | StaleVersion | StaleHash | OutOfSync | NotPermitted | SurfaceClosed | TooLarge | OtherRefusal(tag: nat)
  datatype Action = Action(key: Key, attempts: nat)
  /** A reply goal, the order its streams are gone through, and how often it was tried again. */
  datatype Goal = Goal(plan: SurfacePlan.Plan, order: seq<Surface.Id>, attempts: nat)
  /** A surface as it was found, at a version. */
  datatype Seen = Seen(version: nat, view: SurfacePlan.View)

  /** The output that is due, those after it, and what they are derived from. */
  datatype Pending = Pending(
    number: nat,
    conversation: string,
    head: Output,
    remaining: seq<Output>,
    action: Option<Action>,
    goal: Option<Goal>,
    rederive: Option<Code>)

  datatype Entry =
    | Begin(pending: Pending)
    | Mark(code: Code)
    | Replan(outputs: seq<Output>, seen: Seen)
    | Found(seen: Seen)
    | Resync(output: Output)
    | Advance
    | Retire
    | Store
    | Send(output: Output)
    | Accept(output: Output)
    | Crash

  /** A pending record with its history: the batch it comes from, how far that has been delivered,
      and how often it has been derived anew. */
  datatype Slot = Slot(pending: Pending, batch: seq<Output>, done: nat, replans: nat)
  datatype Stage = Idle | Waiting | Answered
  datatype Track = Track(live: Option<Slot>, disk: Option<Slot>, stage: Stage)

  const START := Track(None, None, Idle)
  const MAX_ATTEMPTS: nat := 2

  predicate Derived(p: Pending) {
    p.action.Some? || p.goal.Some?
  }

  function Attempts(p: Pending): (r: nat) {
    if p.action.Some? then p.action.value.attempts else if p.goal.Some? then p.goal.value.attempts else 0
  }

  function Retried(p: Pending): (r: Pending) {
    if p.action.Some? then p.(action := Some(p.action.value.(attempts := p.action.value.attempts + 1)))
    else if p.goal.Some? then p.(goal := Some(p.goal.value.(attempts := p.goal.value.attempts + 1)))
    else p
  }

  /** A re-derivation this record is still entitled to. */
  function Credit(p: Pending): (r: nat) {
    if p.rederive.Some? || p.head.kind == SurfaceResync then 1 else 0
  }

  predicate NoResync(outputs: seq<Output>) {
    forall o :: o in outputs ==> o.kind != SurfaceResync
  }

  // Batches that carry out a reply goal

  /** The record is led by a goal, not by an action. */
  predicate Planned(p: Pending) {
    p.goal.Some? && p.action == None
  }

  function CommandOf(o: Output): (r: Surface.Command) {
    if o.body.Event? then o.body.command else Surface.Close("")
  }

  function CommandsOf(outputs: seq<Output>): (r: seq<Surface.Command>)
    ensures |r| == |outputs|
  {
    seq(|outputs|, i requires 0 <= i < |outputs| => CommandOf(outputs[i]))
  }

  /** The outputs send events with consecutive versions from `start` on. */
  ghost predicate Numbered(outputs: seq<Output>, start: nat) {
    forall i :: 0 <= i < |outputs| ==>
      outputs[i].kind == SurfaceSend && outputs[i].body == Event(start + i, CommandOf(outputs[i]))
  }

  /** The goal is where these commands lead on a new surface. */
  ghost predicate GoalOf(g: Goal, conversation: string, commands: seq<Surface.Command>) {
    && commands != [] && g.plan.streams == SurfaceReplies.StreamsIn(commands)
    && var r := Surface.ApplyAll(Surface.NEW, conversation, commands);
       r.Ok? && SurfaceReplies.Aims(g.plan, r.value)
  }

  /** The first batch of a goal is the reply it was made from. */
  ghost predicate Opening(p: Pending) {
    Planned(p) ==>
      var outputs := [p.head] + p.remaining;
      p.rederive == None && Numbered(outputs, 1) && GoalOf(p.goal.value, p.conversation, CommandsOf(outputs))
  }

  /** A later batch is what re-derivation asks for on the surface as it was found. */
  ghost predicate Continuing(p: Pending, outputs: seq<Output>, seen: Seen) {
    Planned(p) ==>
      && SurfacePlan.Lists(p.goal.value.order, p.goal.value.plan.streams)
      && Numbered(outputs, seen.version + 1)
      && SurfacePlan.Rederive(p.goal.value.plan, seen.view, p.goal.value.order) == Ok(CommandsOf(outputs))
  }

  /** What every pending record looks like. */
  ghost predicate SlotOk(s: Slot) {
    var p := s.pending;
    && s.done < |s.batch| && s.batch[s.done] == p.head && s.batch[s.done + 1..] == p.remaining
    && NoResync(p.remaining)
    && (p.head.kind == SurfaceResync ==> p.remaining == [])
    && (p.goal.Some? ==> SurfacePlan.Lists(p.goal.value.order, p.goal.value.plan.streams))
    && (Derived(p) ==> s.replans + Credit(p) <= if Attempts(p) < MAX_ATTEMPTS then Attempts(p) else MAX_ATTEMPTS)
  }

  ghost function Fresh(p: Pending): (r: Slot) {
    Slot(p, [p.head] + p.remaining, 0, 0)
  }

  function WithOutputs(p: Pending, outputs: seq<Output>): (r: Pending)
    requires outputs != []
  {
    p.(head := outputs[0], remaining := outputs[1..], rederive := None)
  }

  /** The record after a refusal, or after an accepted resynchronisation, has been noted. */
  function Marked(p: Pending, code: Code): (r: Pending) {
    (if p.head.kind == SurfaceResync then p else Retried(p)).(rederive := Some(code))
  }

  /** One thing that happens; `None` when the rules forbid it. */
  ghost function Next(t: Track, e: Entry): (r: Option<Track>) {
    match e
    case Begin(p) =>
      if t.live == None && SlotOk(Fresh(p)) && Opening(p) then Some(t.(live := Some(Fresh(p)), stage := Idle)) else None
    case Mark(code) =>
      if t.live.Some? && t.live.value.pending.rederive == None
         && (if t.live.value.pending.head.kind == SurfaceResync then t.stage == Answered
             else Derived(t.live.value.pending) ==> Attempts(t.live.value.pending) < MAX_ATTEMPTS)
      then Some(t.(live := Some(t.live.value.(pending := Marked(t.live.value.pending, code))), stage := Idle)) else None
    case Replan(outputs, seen) =>
      if t.live.Some? && t.live.value.pending.rederive.Some? && Derived(t.live.value.pending) && outputs != []
        && NoResync(outputs) && Continuing(t.live.value.pending, outputs, seen)
      then Some(t.(live := Some(Slot(WithOutputs(t.live.value.pending, outputs), outputs, 0,
                                     t.live.value.replans + 1)), stage := Idle))
      else None
    case Found(seen) =>
      if t.live.Some? && t.live.value.pending.rederive.Some? && Planned(t.live.value.pending)
        && Continuing(t.live.value.pending, [], seen)
      then Some(t) else None
    case Resync(output) =>
      if t.live.Some? && t.live.value.pending.rederive.Some? && output.kind == SurfaceResync
      then Some(t.(live := Some(Slot(WithOutputs(t.live.value.pending, [output]), [output], 0,
                                     t.live.value.replans)), stage := Idle))
      else None
    case Advance =>
      if t.live.Some? && t.stage == Answered && t.live.value.pending.remaining != []
      then
        var s := t.live.value;
        Some(t.(live := Some(s.(pending := WithOutputs(s.pending, s.pending.remaining), done := s.done + 1)),
                stage := Idle))
      else None
    case Retire => if t.live.Some? then Some(t.(live := None, stage := Idle)) else None
    case Store => Some(t.(disk := t.live))
    case Send(output) =>
      if t.live.Some? && t.disk == t.live && t.live.value.pending.rederive == None
        && output == t.live.value.pending.head
      then Some(t.(stage := Waiting)) else None
    case Accept(output) =>
      if t.stage == Waiting && t.live.Some? && output == t.live.value.pending.head then Some(t.(stage := Answered))
        else None
    case Crash => Some(Track(t.disk, t.disk, Idle))
  }

  ghost function Run(log: seq<Entry>): (r: Option<Track>) {
    if log == [] then Some(START) else
      var before := Run(log[..|log| - 1]);
      if before == None then None else Next(before.value, log[|log| - 1])
  }

  // What the rules imply of every legal run

  /** The outputs were accepted, one after the other, in this order. */
  ghost predicate Delivered(log: seq<Entry>, outputs: seq<Output>)
    decreases |outputs|
  {
    outputs == [] ||
    exists k :: 0 <= k < |log| && log[k] == Accept(outputs[|outputs| - 1])
      && Delivered(log[..k], outputs[..|outputs| - 1])
  }

  lemma {:induction false} DeliveredLater(log: seq<Entry>, e: Entry, outputs: seq<Output>)
    requires Delivered(log, outputs)
    ensures Delivered(log + [e], outputs)
  {
    if outputs != [] {
      var k :| 0 <= k < |log| && log[k] == Accept(outputs[|outputs| - 1])
        && Delivered(log[..k], outputs[..|outputs| - 1]);
      assert (log + [e])[..k] == log[..k] && (log + [e])[k] == log[k];
    }
  }

  lemma DeliveredNow(log: seq<Entry>, outputs: seq<Output>, output: Output)
    requires Delivered(log, outputs)
    ensures Delivered(log + [Accept(output)], outputs + [output])
  {
    var more, longer := outputs + [output], log + [Accept(output)];
    assert more[..|more| - 1] == outputs && longer[..|log|] == log && longer[|log|] == Accept(output);
  }

  ghost predicate SlotDelivered(log: seq<Entry>, s: Option<Slot>) {
    s.Some? ==> SlotOk(s.value) && Delivered(log, s.value.batch[..s.value.done])
  }

  ghost predicate Sound(log: seq<Entry>, t: Track) {
    && SlotDelivered(log, t.live)
    && SlotDelivered(log, t.disk)
    && (t.stage != Idle ==> t.live.Some? && t.live.value.pending.rederive == None)
    && (t.stage == Answered ==> Delivered(log, t.live.value.batch[..t.live.value.done + 1]))
  }

  lemma SlotLater(log: seq<Entry>, e: Entry, s: Option<Slot>)
    requires SlotDelivered(log, s)
    ensures SlotDelivered(log + [e], s)
  {
    if s.Some? {
      DeliveredLater(log, e, s.value.batch[..s.value.done]);
    }
  }

  lemma AnswerLater(log: seq<Entry>, e: Entry, t: Track)
    requires Sound(log, t)
    ensures t.stage == Answered ==> Delivered(log + [e], t.live.value.batch[..t.live.value.done + 1])
  {
    hide Delivered;
    if t.stage == Answered {
      DeliveredLater(log, e, t.live.value.batch[..t.live.value.done + 1]);
    }
  }

  lemma AdvanceKeeps(log: seq<Entry>, t: Track)
    requires Sound(log, t) && Next(t, Advance).Some?
    ensures SlotDelivered(log + [Advance], Next(t, Advance).value.live)
  {
    var s := t.live.value;
    var next := Next(t, Advance).value.live.value;
    DeliveredLater(log, Advance, s.batch[..s.done + 1]);
    assert s.batch[s.done + 1] == s.pending.remaining[0];
    assert s.batch[next.done + 1..] == s.pending.remaining[1..];
  }

  lemma AcceptKeeps(log: seq<Entry>, t: Track, output: Output)
    requires Sound(log, t) && Next(t, Accept(output)).Some?
    ensures Sound(log + [Accept(output)], Next(t, Accept(output)).value)
  {
    hide Delivered, SurfacePlan.Lists, Opening, Continuing;
    var s := t.live.value;
    SlotLater(log, Accept(output), t.live);
    SlotLater(log, Accept(output), t.disk);
    DeliveredNow(log, s.batch[..s.done], output);
    assert s.batch[..s.done + 1] == s.batch[..s.done] + [output];
  }

  lemma MarkKeeps(t: Track, code: Code)
    requires t.live.Some? && SlotOk(t.live.value) && Next(t, Mark(code)).Some?
    ensures SlotOk(Next(t, Mark(code)).value.live.value)
  {
    hide SurfacePlan.Lists;
  }

  lemma ReplanKeeps(t: Track, outputs: seq<Output>, seen: Seen)
    requires t.live.Some? && SlotOk(t.live.value) && Next(t, Replan(outputs, seen)).Some?
    ensures SlotOk(Next(t, Replan(outputs, seen)).value.live.value)
  {
    hide SurfacePlan.Lists, Continuing;
    assert outputs[0] in outputs;
  }

  lemma ResyncKeeps(t: Track, output: Output)
    requires t.live.Some? && SlotOk(t.live.value) && Next(t, Resync(output)).Some?
    ensures SlotOk(Next(t, Resync(output)).value.live.value)
  {
    hide SurfacePlan.Lists;
  }

  lemma NewSlot(s: Slot, log: seq<Entry>)
    requires s.done == 0 && SlotOk(s)
    ensures SlotDelivered(log, Some(s))
  {
    assert s.batch[..0] == [];
  }

  lemma NextKeeps(log: seq<Entry>, t: Track, e: Entry)
    requires Sound(log, t) && Next(t, e).Some?
    ensures Sound(log + [e], Next(t, e).value)
  {
    hide SlotOk, Opening, Continuing, Delivered;
    var u := Next(t, e).value;
    SlotLater(log, e, t.live);
    SlotLater(log, e, t.disk);
    AnswerLater(log, e, t);
    match e
    case Advance => AdvanceKeeps(log, t);
    case Accept(output) => AcceptKeeps(log, t, output);
    case Begin(p) => NewSlot(u.live.value, log + [e]);
    case Mark(code) => MarkKeeps(t, code);
    case Replan(outputs, seen) =>
      ReplanKeeps(t, outputs, seen);
      NewSlot(u.live.value, log + [e]);
    case Resync(output) =>
      ResyncKeeps(t, output);
      NewSlot(u.live.value, log + [e]);
    case _ =>
  }

  lemma {:induction false} RunSound(log: seq<Entry>)
    requires Run(log).Some?
    ensures Sound(log, Run(log).value)
  {
    if log != [] {
      var before := log[..|log| - 1];
      RunSound(before);
      NextKeeps(before, Run(before).value, log[|log| - 1]);
      assert log == before + [log[|log| - 1]];
    }
  }

  lemma {:induction false} RunPrefix(log: seq<Entry>, k: nat)
    requires Run(log).Some? && k <= |log|
    ensures Run(log[..k]).Some?
  {
    if k < |log| {
      RunPrefix(log[..|log| - 1], k);
      assert log[..|log| - 1][..k] == log[..k];
    } else {
      assert log[..k] == log;
    }
  }

  lemma RunMore(log: seq<Entry>, e: Entry)
    requires Run(log).Some?
    ensures Run(log + [e]) == Next(Run(log).value, e)
  {
    assert (log + [e])[..|log|] == log;
  }

  /**
   Every request of a legal run: it is the due output of the record that is durable at that moment,
   and every earlier output of its batch has been accepted before, in order.
   */
  lemma SentWriteAhead(log: seq<Entry>, i: nat)
    requires Run(log).Some? && i < |log| && log[i].Send?
    ensures Run(log[..i]).Some? && Run(log[..i]).value.disk.Some?
    ensures var s := Run(log[..i]).value.disk.value;
            && s.pending.head == log[i].output && s.pending.rederive == None
            && s.done < |s.batch| && s.batch[s.done] == log[i].output
            && Delivered(log[..i], s.batch[..s.done])
  {
    hide Delivered;
    RunPrefix(log, i);
    RunPrefix(log, i + 1);
    assert log[..i + 1][..i] == log[..i] && log[..i + 1][i] == log[i];
    RunSound(log[..i]);
  }

  /** A work item is derived anew at most twice, counted along the record that survives crashes. */
  lemma FewReplans(log: seq<Entry>)
    requires Run(log).Some?
    ensures var t := Run(log).value;
            && (t.live.Some? && Derived(t.live.value.pending) ==> t.live.value.replans <= MAX_ATTEMPTS)
            && (t.disk.Some? && Derived(t.disk.value.pending) ==> t.disk.value.replans <= MAX_ATTEMPTS)
  {
    RunSound(log);
  }

  /** A crash after any prefix of a legal run leaves a legal run, with the durable record as the live one. */
  lemma CrashAnywhere(log: seq<Entry>, k: nat)
    requires Run(log).Some? && k <= |log|
    ensures Run(log[..k] + [Crash]).Some?
    ensures Run(log[..k]).Some?
    ensures Run(log[..k] + [Crash]).value == Track(Run(log[..k]).value.disk, Run(log[..k]).value.disk, Idle)
  {
    hide Run;
    RunPrefix(log, k);
    RunMore(log[..k], Crash);
  }

  /** What can be done first to a record found after a crash: send the same request again, derive it
      anew, note a refusal, or retire it. */
  lemma AfterCrash(log: seq<Entry>, e: Entry)
    requires Run(log + [Crash] + [e]).Some? && Run(log).Some? && Run(log).value.disk.Some?
    ensures var p := Run(log).value.disk.value.pending;
            || (e == Send(p.head) && p.rederive == None)
            || ((e.Replan? || e.Found? || e.Resync?) && p.rederive.Some?)
            || (e.Mark? && p.rederive == None && p.head.kind != SurfaceResync)
            || e in {Retire, Store, Crash}
  {
    hide Run;
    RunMore(log, Crash);
    RunPrefix(log + [Crash] + [e], |log| + 1);
    assert (log + [Crash] + [e])[..|log| + 1] == log + [Crash];
    RunMore(log + [Crash], e);
  }

  /** A record is replaced by one of another event only after it has been retired. */
  lemma SameBatch(t: Track, e: Entry)
    requires Next(t, e).Some? && t.live.Some? && Next(t, e).value.live.Some? && e != Crash
    ensures var p, q := t.live.value.pending, Next(t, e).value.live.value.pending;
            && q.number == p.number && q.conversation == p.conversation
            && (q.action.Some? <==> p.action.Some?) && (p.action.Some? ==> q.action.value.key == p.action.value.key)
            && (q.goal.Some? <==> p.goal.Some?)
            && (p.goal.Some? ==> q.goal.value.plan == p.goal.value.plan && q.goal.value.order == p.goal.value.order)
            && Attempts(p) <= Attempts(q)
  {
  }

  lemma NothingYet()
    ensures Run([]) == Some(START)
  {
  }

  lemma FirstAccepted(p: Pending)
    requires SlotOk(Fresh(p)) && Opening(p) && p.rederive == None
    ensures Run([Begin(p), Store, Send(p.head), Accept(p.head)]) ==
            Some(Track(Some(Fresh(p)), Some(Fresh(p)), Answered))
  {
    hide Run, SlotOk, Opening, Continuing;
    var one, two, three := [Begin(p)], [Begin(p), Store], [Begin(p), Store, Send(p.head)];
    assert [] + [Begin(p)] == one && one + [Store] == two && two + [Send(p.head)] == three;
    assert three + [Accept(p.head)] == [Begin(p), Store, Send(p.head), Accept(p.head)];
    NothingYet();
    RunMore([], Begin(p));
    RunMore(one, Store);
    RunMore(two, Send(p.head));
    RunMore(three, Accept(p.head));
  }

  /** A record retired in memory comes back after a crash when the write that should have recorded
      it did not happen. */
  lemma RetiredMayReturn(p: Pending)
    requires SlotOk(Fresh(p)) && Opening(p) && p.rederive == None
    ensures var log := [Begin(p), Store, Send(p.head), Accept(p.head), Retire];
            && Run(log).Some? && Run(log).value.live == None
            && Run(log + [Crash]).Some? && Run(log + [Crash]).value.live == Some(Fresh(p))
            && Run(log + [Store]).Some? && Run(log + [Store] + [Crash]).Some?
              && Run(log + [Store] + [Crash]).value.live == None
  {
    hide Run, SlotOk, Opening, Continuing;
    var four := [Begin(p), Store, Send(p.head), Accept(p.head)];
    var log := [Begin(p), Store, Send(p.head), Accept(p.head), Retire];
    FirstAccepted(p);
    assert four + [Retire] == log;
    RunMore(four, Retire);
    RunMore(log, Crash);
    RunMore(log, Store);
    RunMore(log + [Store], Crash);
  }
}

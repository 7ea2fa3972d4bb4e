/**
 The agent host's output slot as it runs: a checkpoint in memory, its durable copy, and a bus and
 a store that may answer anything. The ghost log records what happens to the slot; every method
 keeps it a legal run.
 */
module AgentHost {
  import opened Basics
  import opened WriteAhead
  import Surface
  import SurfacePlan
  import SurfacePlanner
  import SurfaceReplies

  datatype Error =
    | Bus | StreamLost | IdentityLost | Storage | Limit | Unauthorized | BadState | LeaseUnavailable
    | Refused(code: Code)

  datatype Outcome = Done | Failed(error: Error)
  /** Whether the output loop goes on. */
  datatype Turn = Again | Finished | Stopped(error: Error)

  datatype Checkpoint = Checkpoint(cursor: Option<nat>, pending: Option<Pending>, handled: seq<Key>,
                                   refusal: Option<Code>)

  const MAX_HANDLED: nat := 2048
  const MAX_BATCH: nat := 96

  predicate StopsHost(e: Error) {
    e == IdentityLost || e == Storage
  }

  predicate Reconnects(e: Error) {
    e == Bus || e == StreamLost
  }

  function RefusalOf(e: Error): (r: Code) {
    match e
    case Refused(code) => code
    case Unauthorized => NotPermitted
    case Limit => OtherRefusal(0)
    case _ => OtherRefusal(1)
  }

  function Cursor(c: Option<nat>): (r: nat) {
    if c.Some? then c.value else 0
  }

  function Later(c: Option<nat>, number: nat): (r: Option<nat>) {
    Some(if Cursor(c) < number then number else Cursor(c))
  }

  /** The cursor is kept or moves to a later event. */
  predicate NotBack(before: Option<nat>, after: Option<nat>) {
    before == after || (after.Some? && Cursor(before) <= after.value)
  }

  // How far the output loop is from its end

  function Budget(p: Pending): (r: nat) {
    if Derived(p) then (if Attempts(p) < MAX_ATTEMPTS then MAX_ATTEMPTS - Attempts(p) else 0)
    else if p.head.kind == SurfaceResync then 0 else 1
  }

  function StageRank(p: Pending): (r: nat) {
    if p.rederive.Some? then 2 else if p.head.kind == SurfaceResync then 1 else 0
  }

  ghost predicate Closer(p: Pending, q: Pending) {
    || Budget(q) < Budget(p)
    || (Budget(q) == Budget(p)
        && (StageRank(q) < StageRank(p) || (StageRank(q) == StageRank(p) && |q.remaining| < |p.remaining|)))
  }

  /** The slot holds this record, or none. */
  ghost predicate Shows(slot: Option<Slot>, pending: Option<Pending>) {
    pending == match slot case None => None case Some(s) => Some(s.pending)
  }

  /** Refusals that are worth another try: a stale or out-of-sync surface, and attempts left. */
  predicate Retryable(p: Pending, code: Code) {
    && (code == StaleVersion || code == StaleHash || code == OutOfSync) && p.head.kind != SurfaceResync
    && (Derived(p) ==> Attempts(p) < MAX_ATTEMPTS)
  }

  function ErrorOf(e: SurfacePlan.Error): (r: Error) {
    match e
    case BadState => BadState
    case Unauthorized => Unauthorized
    case RefusedClosed => Refused(SurfaceClosed)
    case RefusedStale => Refused(StaleHash)
  }

  /** Outputs that send these commands, with consecutive versions from `start` on. */
  function Events(commands: seq<Surface.Command>, start: nat, names: seq<string>): (r: seq<Output>)
    ensures CommandsOf(r) == commands && Numbered(r, start) && NoResync(r)
  {
    seq(|commands|, i requires 0 <= i < |commands| =>
      Output(SurfaceSend, if i < |names| then names[i] else "", Event(start + i, commands[i])))
  }

  class Host {
    var state: Checkpoint
    var disk: Checkpoint
    ghost var log: seq<Entry>

    ghost predicate Valid()
      reads this
    {
      && Run(log).Some?
      && Shows(Run(log).value.live, state.pending) && Shows(Run(log).value.disk, disk.pending)
      && |state.handled| <= MAX_HANDLED && Distinct(state.handled)
    }

    /** What is due in memory is durable. */
    ghost predicate Synced()
      reads this
    {
      Run(log).Some? && (Run(log).value.live.Some? ==> Run(log).value.disk == Run(log).value.live)
    }

    ghost method Note(e: Entry)
      requires Run(log).Some? && Next(Run(log).value, e).Some?
      modifies this`log
      ensures log == old(log) + [e] && Run(log) == Next(old(Run(log)).value, e)
    {
      RunMore(log, e);
      log := log + [e];
    }

    /** Writes the checkpoint. A write that is too large changes nothing; one that fails may or may not have
        happened. */
    method Save() returns (r: Outcome)
      requires Valid()
      modifies this`disk, this`log
      ensures Valid()
      ensures r.Done? ==> disk == state && Synced()
      ensures r.Failed? ==> r.error == Limit || r.error == Storage
      ensures Run(log).value.live == old(Run(log)).value.live && Run(log).value.stage == old(Run(log)).value.stage
      ensures old(log) <= log
    {
      var outcome: nat := *;
      if outcome == 0 {
        return Failed(Limit);
      }
      if outcome == 1 {
        return Failed(Storage);
      }
      Note(Store);
      disk := state;
      r := if outcome == 2 then Failed(Storage) else Done;
    }

    method RememberAction(key: Key)
      requires |state.handled| <= MAX_HANDLED && Distinct(state.handled)
      modifies this`state
      ensures |state.handled| <= MAX_HANDLED && Distinct(state.handled) && key in state.handled
      ensures state == old(state).(handled := state.handled)
      ensures key in old(state.handled) ==> state == old(state)
      ensures key !in old(state.handled) ==>
                state.handled == (old(state.handled) + [key])[if |old(state.handled)| == MAX_HANDLED then 1 else 0..]
    {
      if key !in state.handled {
        if |state.handled| >= MAX_HANDLED {
          state := state.(handled := state.handled[1..]);
        }
        state := state.(handled := state.handled + [key]);
        assert state.handled[|state.handled| - 1] == key;
      }
    }

    /** Empties the slot: the event is done, its action remembered. */
    method CompletePending(p: Pending) returns (r: Outcome)
      requires Valid() && state.pending == Some(p)
      modifies this
      ensures Valid() && state.pending == None
      ensures r.Failed? ==> r.error == Limit || r.error == Storage
      ensures state.cursor == Later(old(state.cursor), p.number) && state.refusal == old(state.refusal)
      ensures p.action.Some? ==> p.action.value.key in state.handled
      ensures old(log) <= log
    {
      if p.action.Some? {
        RememberAction(p.action.value.key);
      }
      Note(Retire);
      state := state.(cursor := Later(state.cursor, p.number), pending := None);
      r := Save();
    }

    method StopOutput(p: Pending, code: Code) returns (r: Outcome)
      requires Valid() && state.pending == Some(p)
      modifies this
      ensures Valid() && state.pending == None && state.refusal == Some(code)
      ensures r.Failed? ==> r.error == Limit || r.error == Storage
      ensures state.cursor == Later(old(state.cursor), p.number)
      ensures old(log) <= log
    {
      state := state.(refusal := Some(code));
      r := CompletePending(p);
    }

    /** The slot after a turn that was to continue it: something else is due now. */
    ghost predicate Continued(p: Pending)
      reads this
    {
      && Synced() && state.pending.Some?
      && var q := state.pending.value;
         q.number == p.number && Derived(q) == Derived(p) && q.rederive == None && Attempts(q) == Attempts(p)
         && (if q.head.kind == SurfaceResync then q.remaining == [] else Derived(q))
    }

    /** What a turn may do to the slot of `p` and to the cursor. */
    twostate predicate Turned(p: Pending, t: Turn)
      reads this
    {
      && old(log) <= log
      && (t.Finished? ==> state.pending == None)
      && (t.Stopped? && Reconnects(t.error) ==>
          Synced() && state.pending.Some? && state.pending.value.number == p.number)
      && (state.pending.Some? ==> state.pending.value.number == p.number && state.cursor == old(state.cursor))
      && (state.pending == None ==> state.cursor == Later(old(state.cursor), p.number))
    }

    /** Gives up on the record. */
    method EndTurn(p: Pending, code: Code) returns (t: Turn)
      requires Valid() && state.pending == Some(p)
      modifies this
      ensures Valid() && Turned(p, t) && !t.Again? && state.pending == None && state.refusal == Some(code)
    {
      var r := StopOutput(p, code);
      t := if r.Done? then Finished else Stopped(r.error);
    }

    /** Derives the outputs of an action from its surface, whatever it is. */
    method DeriveAction() returns (r: Option<Error>, outputs: seq<Output>)
      ensures NoResync(outputs)
    {
      var error: Option<Error> := *;
      var bodies: seq<(string, nat)> := *;
      outputs := [];
      if error.Some? {
        return error, outputs;
      }
      if |bodies| > MAX_BATCH {
        return Some(Limit), outputs;
      }
      outputs := seq(|bodies|, i requires 0 <= i < |bodies| => Output(SurfaceSend, bodies[i].0, Other(bodies[i].1)));
      r := None;
    }

    /** Re-derives what is left of a goal on the surface as it was found. */
    method DeriveGoal(p: Pending, seen: Seen) returns (r: Option<Error>, outputs: seq<Output>)
      requires Planned(p) && SurfacePlan.Lists(p.goal.value.order, p.goal.value.plan.streams)
      ensures r == None ==> Continuing(p, outputs, seen) && NoResync(outputs)
    {
      hide SurfacePlan.Rederive;
      var goal := p.goal.value;
      outputs := [];
      if !SurfacePlanner.TextsValid(goal.plan.target) || !SurfacePlanner.TextsValid(seen.view.snapshot) {
        return Some(BadState), outputs;
      }
      var commands := SurfacePlanner.Rederive(goal.plan, seen.view, goal.order);
      if commands.Err? {
        return Some(ErrorOf(commands.error)), outputs;
      }
      if |commands.value| > MAX_BATCH {
        return Some(Limit), outputs;
      }
      var names: seq<string> := *;
      outputs := Events(commands.value, seen.version + 1, names);
      r := None;
    }

    /** Replaces a marked record by what is derived anew; where nothing is left to do it is done. */
    method RederivePending(p: Pending, code: Code, seen: Seen) returns (t: Turn)
      requires Valid() && Synced() && state.pending == Some(p) && p.rederive.Some?
      modifies this
      ensures Valid() && Turned(p, t)
      ensures t.Again? ==> Continued(p) && state.pending.value.head.kind != SurfaceResync
      ensures t.Again? && Planned(p) ==>
                exists outputs :: outputs != [] && Continuing(p, outputs, seen)
                                  && state.pending == Some(WithOutputs(p, outputs))
      ensures Planned(p) && t.Finished? ==> state.refusal.Some? || old(log) + [Found(seen)] <= log
    {
      hide Run, SlotOk, Delivered, Distinct;
      if !Derived(p) {
        t := EndTurn(p, code);
        return;
      }
      LiveLists(p);
      var error: Option<Error>, outputs: seq<Output>;
      if p.action.Some? {
        error, outputs := DeriveAction();
      } else {
        error, outputs := DeriveGoal(p, seen);
      }
      if error.Some? {
        if error.value.Refused? {
          t := EndTurn(p, error.value.code);
          return;
        }
        return Stopped(error.value);
      }
      if outputs == [] {
        if Planned(p) {
          Note(Found(seen));
        }
        var r := CompletePending(p);
        return if r.Done? then Finished else Stopped(r.error);
      }
      t := PutBatch(p, outputs, seen);
    }

    /** A new batch takes the place of a marked one, and is saved. */
    method PutBatch(p: Pending, outputs: seq<Output>, seen: Seen) returns (t: Turn)
      requires Valid() && Synced() && state.pending == Some(p) && p.rederive.Some? && Derived(p)
      requires outputs != [] && NoResync(outputs) && Continuing(p, outputs, seen)
      modifies this
      ensures Valid() && Turned(p, t) && !t.Finished?
      ensures state.pending == Some(WithOutputs(p, outputs)) && outputs[0].kind != SurfaceResync
      ensures t.Again? ==> Continued(p)
    {
      hide SlotOk, Delivered, Continuing;
      Note(Replan(outputs, seen));
      state := state.(pending := Some(WithOutputs(p, outputs)));
      assert outputs[0] in outputs;
      var r := Save();
      t := if r.Done? then Again else Stopped(r.error);
    }

    /** Notes that the record has to be derived anew, saves it and goes on from there. */
    method MarkPending(p: Pending, code: Code) returns (t: Turn)
      requires Valid() && Synced() && state.pending == Some(p) && Next(Run(log).value, Mark(code)).Some?
      requires p.head.kind == SurfaceResync ==> code != OutOfSync && Derived(p)
      modifies this
      ensures Valid() && Turned(p, t) && old(log) + [Mark(code)] <= log
      ensures t.Again? ==> Synced() && state.pending.Some? && Closer(p, state.pending.value)
    {
      hide Run, SlotOk, Delivered, Opening, Continuing, Distinct;
      Note(Mark(code));
      var next := Marked(p, code);
      state := state.(pending := Some(next));
      var r := Save();
      if r.Failed? {
        return Stopped(r.error);
      }
      t := ResumeRefused(next, code);
    }

    /** The streams of a live goal are listed. */
    lemma LiveLists(p: Pending)
      requires Valid() && state.pending == Some(p)
      ensures p.goal.Some? ==> SurfacePlan.Lists(p.goal.value.order, p.goal.value.plan.streams)
    {
      hide Delivered, Next;
      RunSound(log);
    }

    method ResumeRefused(p: Pending, code: Code) returns (t: Turn)
      requires Valid() && Synced() && state.pending == Some(p) && p.rederive == Some(code)
      modifies this
      ensures Valid() && Turned(p, t)
      ensures t.Again? ==> Continued(p)
      ensures t.Again? && code != OutOfSync && p.head.kind == SurfaceResync ==>
                state.pending.value.head.kind != SurfaceResync
    {
      var unseen: Option<Error> := *;
      var outOfSync: bool, seen: Seen := *, *;
      if unseen.Some? {
        if unseen.value.Refused? {
          t := EndTurn(p, unseen.value.code);
          return;
        }
        return Stopped(unseen.value);
      }
      if p.head.kind == SurfaceResync && outOfSync {
        t := EndTurn(p, OutOfSync);
        return;
      }
      if code == OutOfSync || outOfSync {
        var operation: string := *;
        var body: nat := *;
        var output := Output(SurfaceResync, operation, Other(body));
        Note(Resync(output));
        state := state.(pending := Some(WithOutputs(p, [output])));
        var r := Save();
        return if r.Done? then Again else Stopped(r.error);
      }
      t := RederivePending(p, code, seen);
    }

    method HandleRefusal(p: Pending, code: Code) returns (t: Turn)
      requires Valid() && Synced() && state.pending == Some(p) && p.rederive == None
      modifies this
      ensures Valid() && Turned(p, t)
      ensures if Retryable(p, code) then old(log) + [Mark(code)] <= log
              else !t.Again? && state.pending == None && state.refusal == Some(code)
      ensures t.Again? ==> Synced() && state.pending.Some? && Closer(p, state.pending.value)
    {
      hide Run, SlotOk, Opening, Continuing, Distinct;
      if (code != StaleVersion && code != StaleHash && code != OutOfSync) || p.head.kind == SurfaceResync {
        t := EndTurn(p, code);
        return;
      }
      if Derived(p) && Attempts(p) >= MAX_ATTEMPTS {
        t := EndTurn(p, code);
        return;
      }
      t := MarkPending(p, code);
    }

    /** The request for the due output, with any answer the bus may give. */
    method Request(p: Pending) returns (error: Option<Error>)
      requires Valid() && Synced() && state.pending == Some(p) && p.rederive == None
      modifies this`log
      ensures Valid() && Synced()
      ensures Run(log).value.live == old(Run(log)).value.live
      ensures error == None ==> Run(log).value.stage == Answered
      ensures old(log) + [Send(p.head)] <= log
    {
      Note(Send(p.head));
      error := *;
      if error == None {
        Note(Accept(p.head));
      }
    }

    /** What follows an accepted answer. */
    method Accepted(p: Pending) returns (t: Turn)
      requires Valid() && Synced() && state.pending == Some(p) && p.rederive == None && Run(log).value.stage == Answered
      modifies this
      ensures Valid() && Turned(p, t)
      ensures if p.head.kind == SurfaceResync && Derived(p) then old(log) + [Mark(StaleHash)] <= log
              else if p.remaining == [] then !t.Again? && state.pending == None
              else !t.Finished? && state.pending == Some(WithOutputs(p, p.remaining)) && old(log) + [Advance] <= log
      ensures t.Again? ==> Synced() && state.pending.Some? && Closer(p, state.pending.value)
    {
      hide Run, Delivered, Opening, Continuing, Distinct;
      RunSound(log);
      if p.head.kind == SurfaceResync && Derived(p) {
        t := MarkPending(p, StaleHash);
        return;
      }
      if p.remaining == [] {
        var r := CompletePending(p);
        return if r.Done? then Finished else Stopped(r.error);
      }
      Note(Advance);
      state := state.(pending := Some(WithOutputs(p, p.remaining)));
      assert p.remaining[0] in p.remaining;
      var r := Save();
      t := if r.Done? then Again else Stopped(r.error);
    }

    /** One round of the output loop. */
    method Round(p: Pending) returns (t: Turn)
      requires Valid() && Synced() && state.pending == Some(p)
      modifies this
      ensures Valid() && Turned(p, t)
      ensures t.Again? ==> Synced() && state.pending.Some? && Closer(p, state.pending.value)
    {
      hide Run, Next, SlotOk, Opening, Continuing, Distinct;
      if p.action.Some? && p.action.value.attempts > MAX_ATTEMPTS {
        t := EndTurn(p, StaleVersion);
        return;
      }
      var unknown: Option<Error> := *;
      if unknown.Some? {
        return Stopped(unknown.value);
      }
      var member: bool := *;
      if !member {
        t := EndTurn(p, NotPermitted);
        return;
      }
      if p.rederive.Some? {
        t := ResumeRefused(p, p.rederive.value);
        return;
      }
      var scope: Option<Error>, inScope: bool := *, *;
      if scope.Some? {
        return Stopped(scope.value);
      }
      if !inScope {
        var r := CompletePending(p);
        return if r.Done? then Finished else Stopped(r.error);
      }
      var error := Request(p);
      if error == None {
        t := Accepted(p);
        return;
      }
      match error.value {
        case LeaseUnavailable =>
          t := EndTurn(p, NotPermitted);
          if t == Finished {
            var r := Save();
            t := if r.Done? then Finished else Stopped(r.error);
          }
        case Refused(code) =>
          t := HandleRefusal(p, code);
        case other =>
          t := Stopped(other);
      }
    }

    method RecoverOutputs() returns (r: Outcome)
      requires Valid() && Synced()
      modifies this
      ensures Valid()
      ensures r.Done? ==> state.pending == None
      ensures r.Failed? && Reconnects(r.error) ==> Synced()
      ensures Settled(old(state.pending))
    {
      hide Next;
      while state.pending.Some?
        invariant Valid() && Synced() && Settled(old(state.pending))
        invariant state.pending.Some? ==> state.cursor == old(state.cursor)
        decreases if state.pending.Some? then Budget(state.pending.value) else 0,
                  if state.pending.Some? then StageRank(state.pending.value) else 0,
                  if state.pending.Some? then |state.pending.value.remaining| else 0
      {
        var t := Round(state.pending.value);
        if t.Finished? {
          return Done;
        }
        if t.Stopped? {
          return Failed(t.error);
        }
      }
      r := Done;
    }

    /** The cursor moves, if at all, to the event of the record that was there, and only once it is gone. */
    twostate predicate Settled(before: Option<Pending>)
      reads this
    {
      && old(log) <= log
      && (state.pending.Some? ==>
            && before.Some? && state.pending.value.number == before.value.number
            && state.cursor == old(state.cursor))
      && (state.cursor == old(state.cursor)
          || (before.Some? && state.cursor == Later(old(state.cursor), before.value.number)))
    }

    /** Delivers, re-derives or retires what is pending; a record it cannot deliver is retired. */
    method RecoverPending() returns (r: Outcome)
      requires Valid() && Synced()
      modifies this
      ensures Valid() && Settled(old(state.pending))
      ensures r.Done? ==> state.pending == None
      ensures r.Failed? ==> StopsHost(r.error) || Reconnects(r.error) || r.error == Limit
      ensures r.Failed? && Reconnects(r.error) ==> Synced()
      ensures r.Failed? && r.error == Limit ==> state.pending == None
    {
      hide Next;
      r := RecoverOutputs();
      if r.Failed? && !StopsHost(r.error) && !Reconnects(r.error) {
        if state.pending.Some? {
          r := StopOutput(state.pending.value, RefusalOf(r.error));
        } else {
          r := Done;
        }
      }
    }

    // The steps of the host

    /** A process started on what an earlier one left, wherever that one stopped. */
    constructor (history: seq<Entry>, saved: Checkpoint)
      requires Run(history).Some?
      requires Shows(Run(history).value.disk, saved.pending)
      requires |saved.handled| <= MAX_HANDLED && Distinct(saved.handled)
      ensures Valid() && Synced() && state == saved && disk == saved && log == history + [Crash]
    {
      RunMore(history, Crash);
      state, disk, log := saved, saved, history + [Crash];
    }

    /** Subscribes from the cursor, or from the head of the stream when history is gone, and recovers. */
    method Start() returns (r: Outcome)
      requires Valid()
      modifies this
      ensures Valid() && old(log) <= log
      ensures r.Done? ==> state.pending == None && state.cursor.Some?
    {
      hide Next;
      var error: Option<Error>, gone: bool, head: nat := *, *, *;
      if error.Some? {
        return Failed(error.value);
      }
      if gone {
        state := state.(cursor := None);
      }
      if state.cursor == None {
        state := state.(cursor := Some(head));
      }
      var saved := Save();
      if saved.Failed? {
        return saved;
      }
      assert Run(log).value.live.Some? ==> state.pending.Some?;
      r := RecoverPending();
    }

    /** The outcome of one output batch: delivered or retired, or kept for a reconnect. */
    twostate predicate Emitted(number: nat, r: Outcome)
      reads this
    {
      && old(log) <= log
      && (r.Done? ==> state.pending == None)
      && (state.pending.Some? ==> state.pending.value.number == number)
      && (state.cursor == old(state.cursor) || state.cursor == Later(old(state.cursor), number))
      && (r.Failed? && Reconnects(r.error) ==> Synced())
    }

    /** Puts a batch into the empty slot, saves it, and delivers it. */
    method Deliver(p: Pending) returns (r: Outcome)
      requires Valid() && state.pending == None && SlotOk(Fresh(p)) && Opening(p)
      modifies this
      ensures Valid() && Emitted(p.number, r) && old(log) + [Begin(p)] <= log
    {
      Note(Begin(p));
      state := state.(pending := Some(p));
      r := Save();
      if r.Done? {
        r := RecoverPending();
      }
    }

    /** The same for an action whose surface is out of sync before anything could be derived. */
    method DeliverRefused(original: Pending) returns (r: Outcome)
      requires Valid() && state.pending == None && original.action.Some? && original.action.value.attempts == 0
      requires original.goal == None && original.rederive == None
      requires original.head.kind == SurfaceSend && original.remaining == []
      modifies this
      ensures Valid() && Emitted(original.number, r)
    {
      hide Run, Distinct, SlotOk, Opening, Continuing;
      var p := Marked(original, OutOfSync);
      MarkedOpens(original);
      Note(Begin(p));
      state := state.(pending := Some(p));
      r := Save();
      if r.Failed? {
        return;
      }
      var t := ResumeRefused(p, OutOfSync);
      if t.Stopped? {
        return Failed(t.error);
      }
      r := RecoverPending();
    }

    /** A reply to the event `number`: a text, once for a group and once for each device of a peer, or
        the commands of a new surface with its goal. */
    method EmitIntents(number: nat) returns (r: Outcome)
      requires Valid() && state.pending == None
      modifies this
      ensures Valid() && Emitted(number, r)
    {
      hide Next, GoalOf;
      var error: Option<Error>, silent: bool, surface: bool, conversation: string := *, *, *, *;
      if error.Some? {
        return Failed(error.value);
      }
      if silent {
        return Done;
      }
      if surface {
        var commands: seq<Surface.Command> := *;
        r := EmitSurface(number, conversation, commands);
        return;
      }
      var bodies: seq<(string, nat)> := *;
      if bodies == [] || |bodies| > MAX_BATCH {
        return Failed(Limit);
      }
      var outputs := seq(|bodies|, i requires 0 <= i < |bodies| => Output(Text, bodies[i].0, Other(bodies[i].1)));
      assert outputs[0] in outputs;
      r := Deliver(Pending(number, conversation, outputs[0], outputs[1..], None, None, None));
    }

    /** A new surface: its goal is made from the commands, which are its first batch. */
    method EmitSurface(number: nat, conversation: string, commands: seq<Surface.Command>) returns (r: Outcome)
      requires Valid() && state.pending == None
      modifies this
      ensures Valid() && Emitted(number, r)
    {
      hide Next, Opening, Surface.ApplyAll, SurfaceReplies.StreamsIn;
      if commands == [] || !commands[0].Create? {
        return Failed(BadState);
      }
      var plan := SurfaceReplies.NewPlan(conversation, commands);
      if plan.Err? {
        if plan.error == SurfaceReplies.TooLarge {
          state := state.(refusal := Some(TooLarge));
          r := Save();
          return;
        }
        return Failed(BadState);
      }
      if |commands| > MAX_BATCH {
        return Failed(Limit);
      }
      var names: seq<string> := *;
      var order := SurfacePlanner.ListStreams(plan.value.streams);
      var outputs := Events(commands, 1, names);
      var p := Pending(number, conversation, outputs[0], outputs[1..], None, Some(Goal(plan.value, order, 0)), None);
      OpensGoal(p, outputs);
      r := Deliver(p);
    }

    /** The answer to an action on an own surface. */
    method EmitAction(number: nat, key: Key) returns (r: Outcome)
      requires Valid() && state.pending == None
      modifies this
      ensures Valid() && Emitted(number, r)
      ensures key in old(state.handled) ==> log == old(log) && state == old(state) && r.Done?
    {
      if key in state.handled {
        return Done;
      }
      var conversation: string := *;
      var error, outputs := DeriveAction();
      if error == Some(Refused(OutOfSync)) {
        var body: nat := *;
        var output := Output(SurfaceSend, "", Other(body));
        r := DeliverRefused(Pending(number, conversation, output, [], Some(Action(key, 0)), None, None));
        return;
      }
      if error.Some? {
        return Failed(error.value);
      }
      if outputs == [] {
        RememberAction(key);
        return Done;
      }
      assert outputs[0] in outputs;
      r := Deliver(Pending(number, conversation, outputs[0], outputs[1..], Some(Action(key, 0)), None, None));
    }

    /** Resynchronisation of an own surface found out of sync. */
    method ResyncOwned(number: nat) returns (r: Outcome)
      requires Valid() && state.pending == None
      modifies this
      ensures Valid() && Emitted(number, r)
    {
      var error: Option<Error>, outOfSync: bool, conversation: string, operation: string, body: nat := *, *, *, *, *;
      if error.Some? {
        return Failed(error.value);
      }
      if !outOfSync {
        return Done;
      }
      r := Deliver(Pending(number, conversation, Output(SurfaceResync, operation, Other(body)), [], None, None, None));
    }

    /** The events an engine hands over, each answered before the next. */
    method HandleEvents(number: nat) returns (r: Outcome)
      requires Valid() && state.pending == None
      modifies this
      ensures Valid() && Emitted(number, r)
    {
      hide Next;
      var events: seq<nat> := *;
      r := Done;
      for i := 0 to |events|
        invariant Valid() && Emitted(number, r) && r.Done?
      {
        r := EmitIntents(number);
        if r.Done? {
          r := Save();
        }
        if r.Failed? {
          return;
        }
      }
    }

    method SurfaceChanged(number: nat) returns (r: Outcome)
      requires Valid() && state.pending == None
      modifies this
      ensures Valid() && Emitted(number, r)
    {
      var resync: bool, key: Key, own: bool, deferred: bool := *, *, *, *;
      if !own {
        return Done;
      }
      if deferred {
        r := Save();
      } else if resync {
        r := ResyncOwned(number);
      } else {
        r := EmitAction(number, key);
      }
    }

    method ApplyEvent(number: nat) returns (r: Outcome)
      requires Valid() && Synced() && Cursor(state.cursor) <= number
      modifies this
      ensures Valid() && NotBack(old(state.cursor), state.cursor) && old(log) <= log
      ensures r.Done? ==> state.pending == None && state.cursor.Some? && number <= state.cursor.value
    {
      hide Next;
      if state.pending.Some? {
        r := RecoverPending();
        if r.Failed? {
          return;
        }
        if state.cursor.Some? && number <= state.cursor.value {
          return;
        }
      }
      var message: bool, surface: bool := *, *;
      if message {
        r := HandleEvents(number);
        if r.Failed? {
          return;
        }
      }
      if surface {
        r := SurfaceChanged(number);
        if r.Failed? {
          return;
        }
      }
      state := state.(cursor := Some(number));
      r := Save();
    }

    /** An error that neither stops the host nor asks for a reconnect skips the event. */
    method FinishEvent(result: Outcome, number: nat) returns (r: Outcome)
      requires Valid()
      modifies this
      ensures Valid() && NotBack(old(state.cursor), state.cursor) && old(log) <= log
      ensures result.Done? ==> r.Done? && state == old(state) && log == old(log)
      ensures r.Done? && result.Failed? ==> state.pending == None && number <= Cursor(state.cursor)
      ensures r.Failed? ==> StopsHost(r.error) || Reconnects(r.error) || r.error == Limit
    {
      if result.Done? || StopsHost(result.error) || Reconnects(result.error) {
        return result;
      }
      if state.pending.Some? {
        r := StopOutput(state.pending.value, RefusalOf(result.error));
        if r.Failed? {
          return;
        }
      } else {
        state := state.(refusal := Some(RefusalOf(result.error)));
      }
      state := state.(cursor := Later(state.cursor, number));
      r := Save();
    }

    /** One event of the stream. One at or below the cursor changes nothing; the cursor never goes back. */
    method Apply(number: nat) returns (r: Outcome)
      requires Valid() && Synced()
      modifies this
      ensures Valid() && NotBack(old(state.cursor), state.cursor) && old(log) <= log
      ensures old(state.cursor).Some? && number <= old(state.cursor).value ==>
                r.Done? && state == old(state) && disk == old(disk) && log == old(log)
      ensures r.Done? && !(old(state.cursor).Some? && number <= old(state.cursor).value) ==>
                state.pending == None && number <= Cursor(state.cursor)
    {
      hide Next;
      if state.cursor.Some? && number <= state.cursor.value {
        return Done;
      }
      r := ApplyEvent(number);
      r := FinishEvent(r, number);
    }

    /** Asks for new messages; a failure that does not end the connection is noted once. */
    method Receive() returns (r: Outcome)
      requires Valid() && Synced()
      modifies this
      ensures Valid() && state == old(state).(refusal := state.refusal) && old(log) <= log
      ensures r.Done? ==> Synced()
    {
      hide Next;
      var error: Option<Error> := *;
      if error == None {
        return Done;
      }
      if StopsHost(error.value) || Reconnects(error.value) {
        return Failed(error.value);
      }
      r := Done;
      if state.refusal != Some(RefusalOf(error.value)) {
        state := state.(refusal := Some(RefusalOf(error.value)));
        r := Save();
      }
    }

    /** The periodic step: recover, then what engines and deferred surfaces have for us. */
    method Poll(deferred: seq<nat>) returns (r: Outcome)
      requires Valid() && Synced()
      modifies this
      ensures Valid() && NotBack(old(state.cursor), state.cursor) && old(log) <= log
      ensures r.Done? ==> state.pending == None
    {
      hide Next;
      r := Receive();
      if r.Failed? {
        return;
      }
      r := RecoverPending();
      if r.Failed? {
        return;
      }
      r := HandleEvents(Cursor(state.cursor));
      if r.Failed? {
        return;
      }
      for i := 0 to |deferred|
        invariant Valid() && state.pending == None && NotBack(old(state.cursor), state.cursor) && old(log) <= log
      {
        r := SurfaceChanged(deferred[i]);
        r := FinishEvent(r, deferred[i]);
        if r.Failed? {
          return;
        }
        r := Save();
        if r.Failed? {
          return;
        }
      }
      r := Done;
    }
  }

  lemma MarkedOpens(p: Pending)
    requires p.action.Some? && p.action.value.attempts == 0 && p.goal == None
    requires p.head.kind == SurfaceSend && p.remaining == []
    ensures SlotOk(Fresh(Marked(p, OutOfSync))) && Opening(Marked(p, OutOfSync))
  {
  }

  lemma OpensGoal(p: Pending, outputs: seq<Output>)
    requires outputs != [] && NoResync(outputs) && Numbered(outputs, 1)
    requires p.head == outputs[0] && p.remaining == outputs[1..] && p.rederive == None && Planned(p)
    requires p.goal.value.attempts == 0 && SurfacePlan.Lists(p.goal.value.order, p.goal.value.plan.streams)
    requires GoalOf(p.goal.value, p.conversation, CommandsOf(outputs))
    ensures SlotOk(Fresh(p)) && Opening(p)
  {
    hide GoalOf;
    assert [p.head] + p.remaining == outputs && outputs[0] in outputs;
  }
}

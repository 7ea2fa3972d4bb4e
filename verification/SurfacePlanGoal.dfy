/**
 The plan as a whole: exactly when a re-derived batch goes through, and that it then ends on
 the target from wherever it was resumed.
 */
module SurfacePlanGoal {
  import opened Basics
  import opened Utf8
  import opened Surface
  import opened SurfacePlan
  import opened SurfacePlanSteps
  import opened SurfacePlanRuns

  // The commands after the appends

  ghost function Retitled(plan: Plan, s: State): (r: State) {
    s.(content := Some(plan.target), version := s.version + 1)
  }

  ghost function Ended(s: State): (r: State) {
    s.(closed := true, version := s.version + 1)
  }

  lemma ApplyPatch(plan: Plan, s: State, fallback: seq<Byte>)
    requires Consistent(s) && s.content == Some(Middle(plan, fallback)) && !s.closed && Accepted(plan.target)
    ensures var c := s.content.value;
            var h := Patch(c.surface, Hash(c), [SetFallback(plan.target.fallback)], Hash(plan.target));
            Apply(s, s.conversation.value, s.version + 1, h) ==
            if s.version < MAX_VERSION then Ok(Retitled(plan, s)) else Err(VersionExhausted)
  {
    var c := s.content.value;
    var ops := [SetFallback(plan.target.fallback)];
    assert ops[1..] == [];
    assert ApplyOps(c, ops) == ApplyOps(plan.target, ops[1..]) == Ok(plan.target);
  }

  lemma PatchKeepsTrack(plan: Plan, s: State, order: seq<Id>)
    requires OnTrack(plan, s, order) && TodoAll(plan, ViewOf(s), order) == Ok([]) && !s.closed
    requires s.content.value == Middle(plan, s.content.value.fallback) && Consistent(Retitled(plan, s))
    ensures OnTrack(plan, Retitled(plan, s), order) && TodoAll(plan, ViewOf(Retitled(plan, s)), order) == Ok([])
  {
    var t := Retitled(plan, s);
    forall id | id in order
      ensures TextOf(plan.target, id) == TextOf(s.content.value, id)
      ensures Todo(plan, ViewOf(t), id) == Todo(plan, ViewOf(s), id)
    {
      StreamLookup(s, id);
      StreamLookup(t, id);
      TodoOther(plan, ViewOf(s), ViewOf(t), id);
    }
    TodoSame(plan, ViewOf(s), ViewOf(t), order);
    AdoptIdle(plan.target, plan.target, order);
  }

  lemma CloseKeepsTrack(plan: Plan, s: State, order: seq<Id>)
    requires OnTrack(plan, s, order) && TodoAll(plan, ViewOf(s), order) == Ok([]) && plan.closed
    requires s.content.value == plan.target && Consistent(Ended(s))
    ensures OnTrack(plan, Ended(s), order) && TodoAll(plan, ViewOf(Ended(s)), order) == Ok([])
  {
    hide TodoAll, Adopt, Accepted, StreamsOf, Todo;
    var t := Ended(s);
    TodoEach(plan, ViewOf(s), order);
    forall id | id in order ensures Todo(plan, ViewOf(t), id) == Ok([]) {
      TodoNothing(plan, ViewOf(s), id);
      ClosedTodo(plan, t, id);
    }
    TodoNone(plan, ViewOf(t), order);
  }

  lemma ClosedTodo(plan: Plan, t: State, id: Id)
    requires Consistent(t) && t.content == Some(plan.target) && t.closed && id in plan.streams
    requires TextOf(plan.target, id).Some?
    ensures Todo(plan, ViewOf(t), id) == Ok([])
  {
    hide Accepted, StreamsOf;
    StreamLookup(t, id);
    var text := TextOf(plan.target, id).value;
    assert text[|text|..] == [];
  }

  lemma {:induction false} TodoNone(plan: Plan, view: View, order: seq<Id>)
    requires forall id :: id in order ==> id in plan.streams && Todo(plan, view, id) == Ok([])
    ensures TodoAll(plan, view, order) == Ok([])
  {
    if order != [] {
      TodoNone(plan, view, order[1..]);
      var none: seq<Command> := [];
      assert none + none == none;
    }
  }

  /** After the appends: the fallback, then the close; each is accepted while versions last. */
  lemma StepTail(plan: Plan, s: State, order: seq<Id>) returns (h: Command)
    requires OnTrack(plan, s, order) && TodoAll(plan, ViewOf(s), order) == Ok([]) && Tail(plan, ViewOf(s)) != []
    ensures h == Tail(plan, ViewOf(s))[0] && !h.Append?
    ensures var r := Apply(s, s.conversation.value, s.version + 1, h);
            && (r.Ok? <==> s.version < MAX_VERSION)
            && (r.Ok? ==> OnTrack(plan, r.value, order) && Left(plan, r.value, order) == Tail(plan, ViewOf(s))[1..]
                          && r.value.finals == s.finals && r.value.version == s.version + 1
                            && r.value.conversation == s.conversation)
  {
    hide Apply, TodoAll, Adopt, Begins, Accepted, StreamsOf;
    TextsReached(plan, s, order);
    var c := s.content.value;
    h := Tail(plan, ViewOf(s))[0];
    if c.fallback != plan.target.fallback {
      ApplyPatch(plan, s, c.fallback);
      if s.version < MAX_VERSION {
        ApplyKeeps(s, s.conversation.value, s.version + 1, h);
        PatchKeepsTrack(plan, s, order);
      }
    } else {
      assert c == plan.target;
      ApplyClose(s);
      if s.version < MAX_VERSION {
        ApplyKeeps(s, s.conversation.value, s.version + 1, h);
        CloseKeepsTrack(plan, s, order);
      }
    }
  }

  lemma ApplyClose(s: State)
    requires Consistent(s) && s.content.Some? && !s.closed
    ensures Apply(s, s.conversation.value, s.version + 1, Close(s.content.value.surface)) ==
            if s.version < MAX_VERSION then Ok(Ended(s)) else Err(VersionExhausted)
  {
    hide Accepted;
  }

  // Whether the whole batch goes through

  ghost predicate HasAppend(commands: seq<Command>) {
    exists i :: 0 <= i < |commands| && commands[i].Append?
  }

  /** The number of streams the commands end. */
  ghost function Lasts(commands: seq<Command>): (r: nat) {
    if commands == [] then 0 else (if commands[0].Append? && commands[0].last then 1 else 0) + Lasts(commands[1..])
  }

  /** The three limits a batch can meet: the snapshot checks with the texts complete but the old
      fallback, the room for finished streams, and the version counter. */
  ghost predicate Feasible(plan: Plan, s: State, commands: seq<Command>)
    requires s.content.Some?
  {
    && (HasAppend(commands) ==> Accepted(Middle(plan, s.content.value.fallback)))
    && |s.finals| + Lasts(commands) <= MAX_FINAL
    && s.version + |commands| <= MAX_VERSION
  }

  lemma FeasibleAppend(plan: Plan, s: State, order: seq<Id>, h: Command)
    requires OnTrack(plan, s, order) && NextUp(plan, s, order, h) && Left(plan, s, order)[0] == h
    requires Feasible(plan, s, Left(plan, s, order))
    ensures s.version < MAX_VERSION && (h.last ==> |s.finals| < MAX_FINAL) && Accepted(Appended(s, h).content.value)
  {
    AppendedShorter(plan, s, order, h);
    AppendedTexts(s, h);
    assert HasAppend(Left(plan, s, order));
    ShorterAccepted(Appended(s, h).content.value, Middle(plan, s.content.value.fallback));
  }

  lemma StillFeasible(plan: Plan, s: State, t: State, commands: seq<Command>)
    requires s.content.Some? && t.content.Some? && commands != [] && commands[0].Append?
    requires t.version == s.version + 1 && t.content.value.fallback == s.content.value.fallback
    requires |t.finals| == |s.finals| + if commands[0].last then 1 else 0
    ensures Feasible(plan, s, commands) <==>
            Feasible(plan, t, commands[1..]) && Accepted(Middle(plan, s.content.value.fallback))
  {
    if HasAppend(commands[1..]) {
      var i :| 0 <= i < |commands| - 1 && commands[1..][i].Append?;
      assert commands[i + 1].Append?;
    }
    assert HasAppend(commands);
  }

  lemma FeasibleBack(plan: Plan, t: State, order: seq<Id>)
    requires OnTrack(plan, t, order) && Feasible(plan, t, Left(plan, t, order))
    ensures HasAppend(Left(plan, t, order)) || TodoAll(plan, ViewOf(t), order).value == []
    ensures TodoAll(plan, ViewOf(t), order).value == [] ==> Accepted(Middle(plan, t.content.value.fallback))
  {
    if TodoAll(plan, ViewOf(t), order).value != [] {
      var h := NextAppend(plan, t, order);
      assert Left(plan, t, order)[0] == h;
    } else {
      TextsReached(plan, t, order);
    }
  }

  lemma {:induction false} NoAppends(commands: seq<Command>)
    requires forall i :: 0 <= i < |commands| ==> !commands[i].Append?
    ensures !HasAppend(commands) && Lasts(commands) == 0
  {
    if commands != [] {
      NoAppends(commands[1..]);
    }
  }

  lemma StepFeasible(plan: Plan, s: State, order: seq<Id>, h: Command)
    requires OnTrack(plan, s, order) && NextUp(plan, s, order, h) && Left(plan, s, order) != []
    requires Left(plan, s, order)[0] == h
    requires OnTrack(plan, Appended(s, h), order) && Left(plan, Appended(s, h), order) == Left(plan, s, order)[1..]
    ensures Feasible(plan, s, Left(plan, s, order)) <==> Feasible(plan, Appended(s, h), Left(plan, s, order)[1..])
  {
    StillFeasible(plan, s, Appended(s, h), Left(plan, s, order));
    if Feasible(plan, Appended(s, h), Left(plan, s, order)[1..]) {
      FeasibleBack(plan, Appended(s, h), order);
    }
  }

  /** One command of the batch: it is accepted and the rest is feasible just when the batch is,
      and a re-derivation from the new state asks for exactly the rest. */
  ghost predicate Stepped(plan: Plan, s: State, order: seq<Id>, r: Result<State, Reject>)
    requires OnTrack(plan, s, order) && Left(plan, s, order) != []
  {
    var left := Left(plan, s, order);
    && (r.Ok? ==> OnTrack(plan, r.value, order) && Left(plan, r.value, order) == left[1..]
                  && r.value.version == s.version + 1 && r.value.conversation == s.conversation)
    && (Feasible(plan, s, left) <==> r.Ok? && Feasible(plan, r.value, left[1..]))
  }

  lemma StepOfAppends(plan: Plan, s: State, order: seq<Id>)
    requires OnTrack(plan, s, order) && TodoAll(plan, ViewOf(s), order).value != [] && Left(plan, s, order) != []
    ensures Stepped(plan, s, order, Apply(s, s.conversation.value, s.version + 1, Left(plan, s, order)[0]))
  {
    hide Apply, Feasible, Accepted, TodoAll, Adopt, Begins, StreamsOf;
    var h := FirstLeft(plan, s, order);
    if Apply(s, s.conversation.value, s.version + 1, h).Ok? {
      ApplyKeeps(s, s.conversation.value, s.version + 1, h);
      TakeAppend(plan, s, order, h);
      StepFeasible(plan, s, order, h);
    } else if Feasible(plan, s, Left(plan, s, order)) {
      FeasibleAppend(plan, s, order, h);
    }
  }

  lemma Step(plan: Plan, s: State, order: seq<Id>)
    requires OnTrack(plan, s, order) && Left(plan, s, order) != []
    ensures Stepped(plan, s, order, Apply(s, s.conversation.value, s.version + 1, Left(plan, s, order)[0]))
  {
    hide Apply, Feasible, Accepted, TodoAll, Adopt, Begins, StreamsOf, Consistent, Stepped;
    if TodoAll(plan, ViewOf(s), order).value != [] {
      StepOfAppends(plan, s, order);
    } else {
      StepOfTail(plan, s, order);
    }
  }

  lemma StepOfTail(plan: Plan, s: State, order: seq<Id>)
    requires OnTrack(plan, s, order) && TodoAll(plan, ViewOf(s), order).value == [] && Left(plan, s, order) != []
    ensures Stepped(plan, s, order, Apply(s, s.conversation.value, s.version + 1, Left(plan, s, order)[0]))
  {
    hide Apply, Accepted, TodoAll, Adopt, Begins, StreamsOf, HasAppend, Lasts;
    var tail := Tail(plan, ViewOf(s));
    assert Left(plan, s, order) == tail;
    var h := StepTail(plan, s, order);
    NoAppends(tail);
    NoAppends(tail[1..]);
  }

  ghost predicate Reached(plan: Plan, t: State)
    requires t.content.Some?
  {
    && t.content.value == plan.target && t.closed == plan.closed
    && forall id :: id in plan.streams && plan.streams[id] ==> id in StreamsOf(t) && StreamsOf(t)[id] == Final
  }

  lemma NothingLeft(plan: Plan, s: State, order: seq<Id>)
    requires OnTrack(plan, s, order) && Left(plan, s, order) == []
    ensures Reached(plan, s)
  {
    TodoEach(plan, ViewOf(s), order);
    TextsReached(plan, s, order);
    forall id | id in plan.streams && plan.streams[id] ensures id in StreamsOf(s) && StreamsOf(s)[id] == Final {
      assert id in order;
      TodoNothing(plan, ViewOf(s), id);
    }
  }

  /** All commands were accepted and the goal stands, at version `version`. */
  ghost predicate Arrived(plan: Plan, t: State, order: seq<Id>, version: nat) {
    OnTrack(plan, t, order) && Reached(plan, t) && Left(plan, t, order) == [] && t.version == version
  }

  lemma Complete(plan: Plan, s: State, order: seq<Id>)
    requires OnTrack(plan, s, order) && Left(plan, s, order) == []
    ensures Feasible(plan, s, []) && Arrived(plan, s, order, s.version)
  {
    NothingLeft(plan, s, order);
    NoAppends([]);
  }

  lemma ApplyAllFirst(s: State, conversation: Id, commands: seq<Command>)
    requires commands != []
    ensures var r := Apply(s, conversation, s.version + 1, commands[0]);
            ApplyAll(s, conversation, commands) == if r.Ok? then ApplyAll(r.value, conversation, commands[1..]) else r
  {
    hide Apply;
  }

  /**
   Whatever state the surface is in, if the plan can be re-derived there, then its commands are
   all accepted exactly when the three limits leave room for them, and they end on the target.
   */
  lemma {:induction false} Completes(plan: Plan, s: State, order: seq<Id>, left: seq<Command>, conversation: Id)
    requires OnTrack(plan, s, order) && left == Left(plan, s, order) && s.conversation == Some(conversation)
    ensures ApplyAll(s, conversation, left).Ok? <==> Feasible(plan, s, left)
    ensures ApplyAll(s, conversation, left).Ok? ==>
              Arrived(plan, ApplyAll(s, conversation, left).value, order, s.version + |left|)
    decreases |left|
  {
    hide Apply, OnTrack, Left, Feasible, Arrived;
    if left == [] {
      Complete(plan, s, order);
    } else {
      Step(plan, s, order);
      ApplyAllFirst(s, conversation, left);
      var r := Apply(s, conversation, s.version + 1, left[0]);
      if r.Ok? {
        Completes(plan, r.value, order, left[1..], conversation);
      }
    }
  }

  lemma Advance(plan: Plan, s: State, order: seq<Id>, conversation: Id, t: State)
    requires OnTrack(plan, s, order) && Left(plan, s, order) != [] && s.conversation == Some(conversation)
    requires Apply(s, conversation, s.version + 1, Left(plan, s, order)[0]) == Ok(t)
    ensures OnTrack(plan, t, order) && Left(plan, t, order) == Left(plan, s, order)[1..]
    ensures t.conversation == Some(conversation)
  {
    hide Apply, Feasible, Accepted, TodoAll, Adopt, Begins, StreamsOf, Consistent;
    Step(plan, s, order);
  }

  /** After any number of the commands, a fresh re-derivation asks for exactly the others. */
  lemma {:induction false} Resumes(plan: Plan, s: State, order: seq<Id>, done: seq<Command>,
                                   rest: seq<Command>, conversation: Id, t: State)
    requires OnTrack(plan, s, order) && Left(plan, s, order) == done + rest && s.conversation == Some(conversation)
    requires ApplyAll(s, conversation, done) == Ok(t)
    ensures OnTrack(plan, t, order) && Left(plan, t, order) == rest
    decreases |done|
  {
    hide Apply, OnTrack, Left;
    if done == [] {
      assert done + rest == rest;
    } else {
      assert (done + rest)[1..] == done[1..] + rest && (done + rest)[0] == done[0];
      ApplyAllFirst(s, conversation, done);
      var u := Apply(s, conversation, s.version + 1, done[0]).value;
      Advance(plan, s, order, conversation, u);
      Resumes(plan, u, order, done[1..], rest, conversation, t);
    }
  }

  /**
   The same in terms of the view: the re-derived commands are accepted one after the other exactly
   when the limits leave room, end on the target, and then nothing is left to re-derive.
   */
  lemma RederiveReaches(plan: Plan, s: State, order: seq<Id>, commands: seq<Command>, conversation: Id)
    requires Consistent(s) && s.content.Some? && s.conversation == Some(conversation)
    requires Accepted(plan.target) && Lists(order, plan.streams)
    requires Rederive(plan, ViewOf(s), order) == Ok(commands)
    ensures var r := ApplyAll(s, conversation, commands);
            && (r.Ok? <==> Feasible(plan, s, commands))
            && (r.Ok? ==>
                  r.value.content.Some? && Reached(plan, r.value) && Rederive(plan, ViewOf(r.value), order) == Ok([]))
  {
    hide Apply, Accepted, Adopt;
    TrackIff(plan, s, order);
    Completes(plan, s, order, commands, conversation);
    var r := ApplyAll(s, conversation, commands);
    if r.Ok? {
      TrackIff(plan, r.value, order);
    }
  }
}

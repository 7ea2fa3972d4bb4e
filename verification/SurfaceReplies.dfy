/**
 Plans made from a reply: the commands that create a surface, stream its texts, set its
 fallback and close it. After any of them a re-derivation finds the way to the same end.
 */
module SurfaceReplies {
  import opened Basics
  import opened Utf8
  import opened Surface
  import opened SurfacePlan
  import opened SurfacePlanSteps
  import opened SurfacePlanRuns
  import opened SurfacePlanGoal

  /** What a reply does to a surface it has created. */
  ghost predicate Reply(h: Command) {
    h.Append? || h.Close? || (h.Patch? && |h.ops| == 1 && h.ops[0].SetFallback?)
  }

  /** The streams of a reply, each with the end mark of its last append. */
  function StreamsIn(commands: seq<Command>): (r: map<Id, bool>) {
    if commands == [] then map[] else
      (if commands[0].Append? then map[commands[0].id := commands[0].last] else map[]) + StreamsIn(commands[1..])
  }

  ghost predicate Aims(plan: Plan, t: State) {
    t.content == Some(plan.target) && t.closed == plan.closed
  }

  // Splitting a run

  lemma {:induction false} ApplyAllSplit(s: State, conversation: Id, a: seq<Command>, b: seq<Command>)
    ensures ApplyAll(s, conversation, a + b) ==
            match ApplyAll(s, conversation, a) { case Err(e) => Err(e) case Ok(u) => ApplyAll(u, conversation, b) }
    decreases |a|
  {
    hide Apply;
    if a == [] {
      assert a + b == b;
    } else {
      ApplyAllFirst(s, conversation, a + b);
      ApplyAllFirst(s, conversation, a);
      assert (a + b)[1..] == a[1..] + b;
      var r := Apply(s, conversation, s.version + 1, a[0]);
      if r.Ok? {
        ApplyAllSplit(r.value, conversation, a[1..], b);
      }
    }
  }

  lemma {:induction false} ApplyAllKeeps(s: State, conversation: Id, commands: seq<Command>)
    requires Consistent(s) && ApplyAll(s, conversation, commands).Ok?
    ensures Consistent(ApplyAll(s, conversation, commands).value)
    ensures s.content.Some? || commands != [] ==> ApplyAll(s, conversation, commands).value.content.Some?
    decreases |commands|
  {
    hide Apply;
    if commands != [] {
      ApplyAllFirst(s, conversation, commands);
      ApplyKeeps(s, conversation, s.version + 1, commands[0]);
      ApplyAllKeeps(Apply(s, conversation, s.version + 1, commands[0]).value, conversation, commands[1..]);
    }
  }

  // One command of a reply

  lemma ReplyEffect(s: State, conversation: Id, h: Command, t: State)
    requires Consistent(s) && s.content.Some? && Reply(h) && Apply(s, conversation, s.version + 1, h) == Ok(t)
    ensures !s.closed && t.content.Some? && Consistent(t) && s.version < MAX_VERSION && t.version == s.version + 1
    ensures h.Append? ==> TextOf(s.content.value, h.id).Some? && h.id !in s.finals && t == Appended(s, h)
    ensures !h.Append? ==>
              t.finals == s.finals && t.content.value == s.content.value.(fallback := t.content.value.fallback)
    ensures h.Patch? ==> !t.closed
  {
    hide Accepted, FinalsMatch;
    ApplyKeeps(s, conversation, s.version + 1, h);
    if h.Patch? {
      OneFallback(s.content.value, h.ops);
    }
  }

  lemma OneFallback(c: Content, ops: seq<Op>)
    requires |ops| == 1 && ops[0].SetFallback?
    ensures ApplyOps(c, ops) == Ok(c.(fallback := ops[0].fallback))
  {
    assert ops[1..] == [];
    assert ApplyOps(c.(fallback := ops[0].fallback), ops[1..]) == Ok(c.(fallback := ops[0].fallback));
  }

  lemma ReplyTexts(s: State, conversation: Id, h: Command, t: State, id: Id)
    requires Consistent(s) && s.content.Some? && Reply(h) && Apply(s, conversation, s.version + 1, h) == Ok(t)
    ensures t.content.Some?
    ensures TextOf(t.content.value, id).Some? <==> TextOf(s.content.value, id).Some?
    ensures TextOf(s.content.value, id).Some? ==> TextOf(s.content.value, id).value <= TextOf(t.content.value, id).value
    ensures !(h.Append? && h.id == id) ==> TextOf(t.content.value, id) == TextOf(s.content.value, id)
    ensures id in s.finals ==> id in t.finals && TextOf(t.content.value, id) == TextOf(s.content.value, id)
  {
    ReplyEffect(s, conversation, h, t);
    if h.Append? {
      TextAfter(s.content.value, h.id, TextOf(s.content.value, h.id).value + h.delta, id);
    }
  }

  lemma {:induction false} StreamsExist(s: State, conversation: Id, commands: seq<Command>, t: State, id: Id)
    requires Consistent(s) && s.content.Some? && ApplyAll(s, conversation, commands) == Ok(t)
    requires forall h :: h in commands ==> Reply(h)
    ensures t.content.Some?
    ensures TextOf(s.content.value, id).Some? || id in StreamsIn(commands) ==> TextOf(t.content.value, id).Some?
    decreases |commands|
  {
    if commands != [] {
      ApplyAllFirst(s, conversation, commands);
      var u := Apply(s, conversation, s.version + 1, commands[0]).value;
      ReplyEffect(s, conversation, commands[0], u);
      ReplyTexts(s, conversation, commands[0], u, id);
      StreamsExist(u, conversation, commands[1..], t, id);
    }
  }

  // Back from the end

  lemma AtEnd(plan: Plan, t: State, order: seq<Id>)
    requires Consistent(t) && Aims(plan, t) && Lists(order, plan.streams)
    requires forall id :: id in order ==> TextOf(plan.target, id).Some?
    ensures OnTrack(plan, t, order)
  {
    hide TodoAll, Todo, Adopt, Accepted, StreamsOf;
    AdoptIdle(plan.target, plan.target, order);
    forall id | id in order ensures Todo(plan, ViewOf(t), id).Ok? {
      TodoAtEnd(plan, t, id);
    }
    TodoAllOk(plan, ViewOf(t), order);
  }

  lemma TodoAtEnd(plan: Plan, t: State, id: Id)
    requires Consistent(t) && Aims(plan, t) && id in plan.streams && TextOf(plan.target, id).Some?
    ensures Todo(plan, ViewOf(t), id).Ok?
  {
    hide Accepted, StreamsOf, Appends;
    StreamLookup(t, id);
    var text := TextOf(plan.target, id).value;
    assert text[|text|..] == [];
  }

  lemma {:induction false} TodoAllOk(plan: Plan, view: View, order: seq<Id>)
    requires forall id :: id in order ==> id in plan.streams && Todo(plan, view, id).Ok?
    ensures TodoAll(plan, view, order).Ok?
  {
    if order != [] {
      TodoAllOk(plan, view, order[1..]);
    }
  }

  lemma TodoBefore(plan: Plan, s: State, conversation: Id, h: Command, t: State, order: seq<Id>, id: Id)
    requires Consistent(s) && s.content.Some? && Reply(h) && Apply(s, conversation, s.version + 1, h) == Ok(t)
    requires OnTrack(plan, t, order) && id in order
    ensures Todo(plan, ViewOf(s), id).Ok?
  {
    hide Apply;
    ReplyEffect(s, conversation, h, t);
    ReplyTexts(s, conversation, h, t, id);
    StreamLookup(s, id);
    StreamLookup(t, id);
    TodoEach(plan, ViewOf(t), order);
    if id in s.finals {
      TodoFinal(plan, ViewOf(t), id);
    }
    TextValid(plan.target, id);
    TextValid(s.content.value, id);
    TodoOk(plan, ViewOf(s), id);
  }

  lemma TodoFinal(plan: Plan, view: View, id: Id)
    requires id in plan.streams && Todo(plan, view, id).Ok? && id in view.streams && view.streams[id] == Final
    ensures TextOf(view.snapshot, id) == TextOf(plan.target, id)
  {
    var wanted, current := TextOf(plan.target, id).value, TextOf(view.snapshot, id).value;
    assert wanted[|current|..] == [];
    assert wanted == current + wanted[|current|..] == current;
  }

  lemma TodoOk(plan: Plan, view: View, id: Id)
    requires id in plan.streams && id in view.streams && TextOf(plan.target, id).Some?
    requires TextOf(view.snapshot, id).Some?
    requires TextOf(view.snapshot, id).value <= TextOf(plan.target, id).value
    requires Valid(TextOf(view.snapshot, id).value) && Valid(TextOf(plan.target, id).value)
    requires view.streams[id] == Final ==> TextOf(view.snapshot, id) == TextOf(plan.target, id)
    ensures Todo(plan, view, id).Ok?
  {
    SuffixValid(TextOf(plan.target, id).value, TextOf(view.snapshot, id).value);
  }

  /** A state one reply command before a state on track is on track. */
  lemma BackStep(plan: Plan, s: State, conversation: Id, h: Command, t: State, order: seq<Id>)
    requires Consistent(s) && s.content.Some? && Reply(h) && Apply(s, conversation, s.version + 1, h) == Ok(t)
    requires OnTrack(plan, t, order) && (h.Append? ==> h.id in order)
    ensures OnTrack(plan, s, order)
  {
    hide Apply;
    ReplyEffect(s, conversation, h, t);
    BackAdopt(plan, s, conversation, h, t, order);
    forall id | id in order ensures Todo(plan, ViewOf(s), id).Ok? {
      TodoBefore(plan, s, conversation, h, t, order, id);
    }
    TodoAllOk(plan, ViewOf(s), order);
  }

  lemma BackAdopt(plan: Plan, s: State, conversation: Id, h: Command, t: State, order: seq<Id>)
    requires Consistent(s) && s.content.Some? && Reply(h) && Apply(s, conversation, s.version + 1, h) == Ok(t)
    requires OnTrack(plan, t, order) && (h.Append? ==> h.id in order)
    ensures var c := s.content.value;
            && c.surface == plan.target.surface && Begins(c, plan.target, order)
            && Adopt(c.(fallback := plan.target.fallback), plan.target, order) == plan.target
  {
    hide Apply;
    ReplyEffect(s, conversation, h, t);
    var c, d, fallback := s.content.value, t.content.value, plan.target.fallback;
    forall id | id in order ensures TextOf(c, id).Some? && TextOf(c, id).value <= TextOf(plan.target, id).value {
      ReplyTexts(s, conversation, h, t, id);
    }
    if h.Append? {
      AdoptAbsorbs(c.(fallback := fallback), plan.target, order, h.id, TextOf(c, h.id).value + h.delta);
      assert d.(fallback := fallback) == WithText(c.(fallback := fallback), h.id, TextOf(c, h.id).value + h.delta);
    }
  }

  /** Every state from which a reply reaches the target is on track. */
  lemma {:induction false} ReplyOnTrack(plan: Plan, s: State, conversation: Id, commands: seq<Command>,
                                        t: State, order: seq<Id>)
    requires Consistent(s) && s.content.Some? && ApplyAll(s, conversation, commands) == Ok(t) && Aims(plan, t)
    requires Lists(order, plan.streams) && forall id :: id in order ==> TextOf(plan.target, id).Some?
    requires forall h :: h in commands ==> Reply(h) && (h.Append? ==> h.id in order)
    ensures OnTrack(plan, s, order)
    decreases |commands|
  {
    hide Apply;
    if commands == [] {
      AtEnd(plan, s, order);
    } else {
      ApplyAllFirst(s, conversation, commands);
      var u := Apply(s, conversation, s.version + 1, commands[0]).value;
      ReplyEffect(s, conversation, commands[0], u);
      ReplyOnTrack(plan, u, conversation, commands[1..], t, order);
      BackStep(plan, s, conversation, commands[0], u, order);
    }
  }

  /**
   A plan made from a reply to the surface `first`, just created. After any of its commands
   re-derivation succeeds, so that `Completes` says where it leads.
   */
  lemma ReplyResumes(conversation: Id, first: State, made: seq<Command>, s: State, rest: seq<Command>,
                     t: State, order: seq<Id>)
    requires Consistent(first) && first.content.Some? && first.conversation == Some(conversation)
    requires forall h :: h in made + rest ==> Reply(h)
    requires ApplyAll(first, conversation, made) == Ok(s) && ApplyAll(s, conversation, rest) == Ok(t)
    requires t.content.Some? && Lists(order, StreamsIn(made + rest))
    ensures OnTrack(Plan(t.content.value, t.closed, StreamsIn(made + rest)), s, order)
    ensures s.conversation == Some(conversation)
  {
    hide Apply;
    var plan := Plan(t.content.value, t.closed, StreamsIn(made + rest));
    ApplyAllSplit(first, conversation, made, rest);
    ApplyAllKeeps(first, conversation, made);
    assert forall h :: h in made ==> h in made + rest;
    forall id | id in order ensures TextOf(plan.target, id).Some? {
      StreamsExist(first, conversation, made + rest, t, id);
    }
    forall h | h in rest ensures Reply(h) && (h.Append? ==> h.id in order) {
      assert h in made + rest;
      AppendListed(made + rest, h);
    }
    KeepsConversation(first, conversation, made, s);
    ReplyOnTrack(plan, s, conversation, rest, t, order);
  }

  lemma {:induction false} AppendListed(commands: seq<Command>, h: Command)
    requires h in commands
    ensures h.Append? ==> h.id in StreamsIn(commands)
  {
    if commands[0] != h {
      AppendListed(commands[1..], h);
    }
  }

  lemma {:induction false} KeepsConversation(s: State, conversation: Id, commands: seq<Command>, t: State)
    requires Consistent(s) && s.content.Some? && s.conversation == Some(conversation)
    requires ApplyAll(s, conversation, commands) == Ok(t)
    requires forall h :: h in commands ==> Reply(h)
    ensures t.conversation == Some(conversation)
    decreases |commands|
  {
    if commands != [] {
      ApplyAllFirst(s, conversation, commands);
      var u := Apply(s, conversation, s.version + 1, commands[0]).value;
      ReplyEffect(s, conversation, commands[0], u);
      KeepsConversation(u, conversation, commands[1..], t);
    }
  }

  // Making a plan

  /** The streams noted so far, with those still to come. */
  ghost function Noted(streams: map<Id, bool>, commands: seq<Command>): (r: map<Id, bool>) {
    streams + StreamsIn(commands)
  }

  lemma StreamsOverride(streams: map<Id, bool>, commands: seq<Command>)
    requires commands != []
    ensures var h := commands[0];
            streams + StreamsIn(commands) == (if h.Append? then streams[h.id := h.last] else streams)
              + StreamsIn(commands[1..])
  {
  }

  lemma OneMore(s: State, conversation: Id, streams: map<Id, bool>, commands: seq<Command>, i: nat)
    requires i < |commands|
    ensures var r := Apply(s, conversation, s.version + 1, commands[i]);
            ApplyAll(s, conversation, commands[i..]) ==
            if r.Ok? then ApplyAll(r.value, conversation, commands[i + 1..]) else r
    ensures var h := commands[i];
            Noted(streams, commands[i..]) ==
              Noted(if h.Append? then streams[h.id := h.last] else streams, commands[i + 1..])
  {
    assert commands[i..][1..] == commands[i + 1..] && commands[i..][0] == commands[i];
    ApplyAllFirst(s, conversation, commands[i..]);
    StreamsOverride(streams, commands[i..]);
  }

  lemma Beginning(conversation: Id, commands: seq<Command>)
    ensures Consistent(NEW) && Noted(map[], commands) == StreamsIn(commands)
    ensures ApplyAll(NEW, conversation, []) == Ok(NEW)
  {
  }

  lemma NothingMore(s: State, conversation: Id, streams: map<Id, bool>)
    ensures ApplyAll(s, conversation, []) == Ok(s) && Noted(streams, []) == streams
  {
  }

  datatype PlanError = TooLarge | Unusable

  /** Plays the commands on an empty surface, noting the streams on the way. */
  method PlayAll(conversation: Id, commands: seq<Command>) returns (r: Result<State, Reject>, streams: map<Id, bool>)
    ensures r == ApplyAll(NEW, conversation, commands)
    ensures r.Ok? ==> streams == StreamsIn(commands) && (r.value.content.Some? <==> commands != [])
  {
    hide Apply, ApplyAll, StreamsIn, Consistent, Noted;
    var state := NEW;
    streams := map[];
    var i := 0;
    assert commands[0..] == commands;
    Beginning(conversation, commands);
    while i < |commands|
      invariant 0 <= i <= |commands| && Consistent(state) && state.version == i && (state.content == None <==> i == 0)
      invariant ApplyAll(state, conversation, commands[i..]) == ApplyAll(NEW, conversation, commands)
      invariant Noted(streams, commands[i..]) == StreamsIn(commands)
    {
      OneMore(state, conversation, streams, commands, i);
      if commands[i].Append? {
        streams := streams[commands[i].id := commands[i].last];
      }
      r := Play(state, conversation, commands[i]);
      if r.Err? {
        return;
      }
      state := r.value;
      i := i + 1;
    }
    assert commands[i..] == [];
    NothingMore(state, conversation, streams);
    r := Ok(state);
  }

  /** The plan is where the commands lead. */
  method NewPlan(conversation: Id, commands: seq<Command>) returns (r: Result<Plan, PlanError>)
    ensures r.Ok? <==> commands != [] && ApplyAll(NEW, conversation, commands).Ok?
    ensures r.Ok? ==>
              Aims(r.value, ApplyAll(NEW, conversation, commands).value) && r.value.streams == StreamsIn(commands)
    ensures r == Err(TooLarge) <==> ApplyAll(NEW, conversation, commands) == Err(LimitExceeded)
  {
    hide Apply, ApplyAll, StreamsIn;
    var played, streams := PlayAll(conversation, commands);
    if played.Err? {
      return Err(if played.error == LimitExceeded then TooLarge else Unusable);
    }
    if played.value.content == None {
      return Err(Unusable);
    }
    r := Ok(Plan(played.value.content.value, played.value.closed, streams));
  }

  method Play(s: State, conversation: Id, h: Command) returns (r: Result<State, Reject>)
    requires Consistent(s)
    ensures r == Apply(s, conversation, s.version + 1, h)
    ensures r.Ok? ==> Consistent(r.value) && r.value.version == s.version + 1 && r.value.content.Some?
  {
    r := Apply(s, conversation, s.version + 1, h);
    if r.Ok? {
      ApplyKeeps(s, conversation, s.version + 1, h);
    }
  }
}

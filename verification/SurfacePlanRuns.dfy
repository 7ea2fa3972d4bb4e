/**
 Carrying out a re-derived plan: when every command is accepted, what is reached, and what a
 re-derivation from any point on the way asks for.
 */
module SurfacePlanRuns {
  import opened Basics
  import opened Utf8
  import opened Surface
  import opened SurfacePlan
  import opened SurfacePlanSteps

  /** A consistent state from which the plan can be continued. */
  ghost predicate OnTrack(plan: Plan, s: State, order: seq<Id>) {
    && Consistent(s) && s.content.Some?
    && Accepted(plan.target)
    && Lists(order, plan.streams)
    && s.content.value.surface == plan.target.surface
    && (s.closed ==> plan.closed && s.content.value == plan.target)
    && Begins(s.content.value, plan.target, order)
    && Adopt(s.content.value.(fallback := plan.target.fallback), plan.target, order) == plan.target
    && TodoAll(plan, ViewOf(s), order).Ok?
  }

  ghost function Left(plan: Plan, s: State, order: seq<Id>): (r: seq<Command>)
    requires OnTrack(plan, s, order)
  {
    TodoAll(plan, ViewOf(s), order).value + Tail(plan, ViewOf(s))
  }

  /**
   The surface differs from the target in nothing but its fallback and the listed texts, these begin
   the target's, no finished one lacks anything, and a closed surface is the target itself.
   */
  ghost predicate Continuable(plan: Plan, s: State, order: seq<Id>)
    requires s.content.Some?
  {
    var c, target := s.content.value, plan.target;
    && c.surface == target.surface && (s.closed ==> plan.closed && c == target)
    && Begins(c, target, order) && Adopt(c.(fallback := target.fallback), target, order) == target
    && forall id :: id in order && id in s.finals ==> TextOf(c, id) == TextOf(target, id)
  }

  lemma TodoIff(plan: Plan, s: State, id: Id)
    requires Consistent(s) && s.content.Some? && Accepted(plan.target) && id in plan.streams
    requires Begins(s.content.value, plan.target, [id]) && (s.closed ==> s.content.value == plan.target)
    ensures Todo(plan, ViewOf(s), id).Ok? <==>
            (id in s.finals ==> TextOf(s.content.value, id) == TextOf(plan.target, id))
  {
    hide StreamsOf;
    assert id in [id];
    StreamLookup(s, id);
    var wanted, current := TextOf(plan.target, id).value, TextOf(s.content.value, id).value;
    assert wanted[|current|..] == [] <==> wanted == current;
    TextValid(s.content.value, id);
    TextValid(plan.target, id);
    SuffixValid(wanted, current);
  }

  lemma TextValid(c: Content, id: Id)
    requires Accepted(c) && TextOf(c, id).Some?
    ensures Valid(TextOf(c, id).value)
  {
    assert c.blocks[Position(c.blocks, id)] in c.blocks;
  }

  lemma {:induction false} TodoAllIff(plan: Plan, view: View, order: seq<Id>)
    requires forall id :: id in order ==> id in plan.streams
    ensures TodoAll(plan, view, order).Ok? <==> forall id :: id in order ==> Todo(plan, view, id).Ok?
  {
    hide Todo;
    if order != [] {
      TodoAllIff(plan, view, order[1..]);
      assert order == [order[0]] + order[1..];
    }
  }

  lemma ContinuableIff(plan: Plan, s: State, order: seq<Id>)
    requires Consistent(s) && s.content.Some? && Accepted(plan.target) && Lists(order, plan.streams)
    ensures OnTrack(plan, s, order) <==> Continuable(plan, s, order)
  {
    hide Todo, TodoAll, Adopt, Consistent, Accepted, ViewOf, TextOf;
    TodoAllIff(plan, ViewOf(s), order);
    if Begins(s.content.value, plan.target, order) && (s.closed ==> s.content.value == plan.target) {
      forall id | id in order
        ensures Todo(plan, ViewOf(s), id).Ok? <==>
                (id in s.finals ==> TextOf(s.content.value, id) == TextOf(plan.target, id))
      {
        TodoIff(plan, s, id);
      }
    }
  }

  /** Exactly the continuable states can be continued, and this is what is left. */
  lemma TrackIff(plan: Plan, s: State, order: seq<Id>)
    requires Consistent(s) && s.content.Some? && Accepted(plan.target) && Lists(order, plan.streams)
    ensures Rederive(plan, ViewOf(s), order).Ok? <==> Continuable(plan, s, order)
    ensures OnTrack(plan, s, order) <==> Continuable(plan, s, order)
    ensures OnTrack(plan, s, order) ==> Rederive(plan, ViewOf(s), order) == Ok(Left(plan, s, order))
  {
    hide Continuable;
    ObstacleIff(plan.target, s.content.value, order);
    ContinuableIff(plan, s, order);
  }

  lemma StreamLookup(s: State, id: Id)
    requires Consistent(s) && s.content.Some?
    ensures id in StreamsOf(s) <==> TextOf(s.content.value, id).Some?
    ensures id in StreamsOf(s) ==> StreamsOf(s)[id] == if s.closed || id in s.finals then Final else Open
  {
    var blocks := s.content.value.blocks;
    var p := Position(blocks, id);
    if p < |blocks| {
      assert blocks[p] in blocks;
      forall x | x in blocks && x.id == id ensures x == blocks[p] {
      }
    }
  }

  /** The content is the target with some texts cut short and perhaps another fallback. */
  lemma TrackShape(plan: Plan, s: State, order: seq<Id>)
    requires OnTrack(plan, s, order)
    ensures var c := s.content.value;
            && Adopt(c, plan.target, order) == Middle(plan, c.fallback)
            && Shorter(c.blocks, plan.target.blocks) && c.rest == plan.target.rest
  {
    var c := s.content.value;
    AdoptFallback(c, plan.target, order, plan.target.fallback);
    AdoptShorter(c, plan.target, order);
  }

  /** With no append left, the texts are the target's. */
  lemma TextsReached(plan: Plan, s: State, order: seq<Id>)
    requires OnTrack(plan, s, order) && TodoAll(plan, ViewOf(s), order) == Ok([])
    ensures s.content.value == Middle(plan, s.content.value.fallback)
    ensures forall id :: id in order ==> TextOf(s.content.value, id) == TextOf(plan.target, id)
  {
    var c := s.content.value;
    TrackShape(plan, s, order);
    TodoEach(plan, ViewOf(s), order);
    forall id | id in order ensures TextOf(c, id) == TextOf(plan.target, id) {
      TodoNothing(plan, ViewOf(s), id);
    }
    AdoptIdle(c, plan.target, order);
  }

  // The next append

  ghost function Appended(s: State, h: Command): (r: State)
    requires s.content.Some? && h.Append? && TextOf(s.content.value, h.id).Some?
  {
    var c := s.content.value;
    var p := Position(c.blocks, h.id);
    var text := c.blocks[p].text.value;
    var grown := text.(text := text.text + h.delta);
    s.(content := Some(WithText(c, h.id, grown.text)), version := s.version + 1,
       finals := if h.last then s.finals[h.id := grown] else s.finals)
  }

  /** `h` is the first append that is left. */
  ghost predicate NextUp(plan: Plan, s: State, order: seq<Id>, h: Command) {
    && Consistent(s) && s.content.Some? && Lists(order, plan.streams) && !s.closed
    && TodoAll(plan, ViewOf(s), order).Ok? && TodoAll(plan, ViewOf(s), order).value != []
    && h == TodoAll(plan, ViewOf(s), order).value[0]
    && h.Append? && TextOf(s.content.value, h.id).Some? && h.id in order && h.id !in s.finals
    && Todo(plan, ViewOf(s), h.id).Ok? && Todo(plan, ViewOf(s), h.id).value != []
      && Todo(plan, ViewOf(s), h.id).value[0] == h
      && TextOf(plan.target, h.id).Some?
        && TextOf(s.content.value, h.id).value + h.delta <= TextOf(plan.target, h.id).value
    && Valid(h.delta)
  }

  lemma NextAppend(plan: Plan, s: State, order: seq<Id>) returns (h: Command)
    requires OnTrack(plan, s, order) && TodoAll(plan, ViewOf(s), order).value != []
    ensures NextUp(plan, s, order, h) && h.surface == s.content.value.surface && |h.delta| <= MAX_DELTA
  {
    var view := ViewOf(s);
    var id := TodoFirst(plan, view, order);
    h := Todo(plan, view, id).value[0];
    StreamLookup(s, id);
    TodoHead(plan, view, id);
  }

  lemma AppendedTexts(s: State, h: Command)
    requires Consistent(s) && s.content.Some? && h.Append? && TextOf(s.content.value, h.id).Some? && Valid(h.delta)
    requires h.id !in s.finals
    ensures FinalsMatch(Appended(s, h).content.value, Appended(s, h).finals)
    ensures forall b :: b in Appended(s, h).content.value.blocks && b.text.Some? ==> Valid(b.text.value.text)
  {
    var c := s.content.value;
    var p := Position(c.blocks, h.id);
    assert BlockOk(c.blocks[p]);
    ConcatValid(c.blocks[p].text.value.text, h.delta);
    var d := Appended(s, h).content.value;
    forall b | b in d.blocks
      ensures b.id in Appended(s, h).finals ==> b.text == Some(Appended(s, h).finals[b.id])
      ensures b.text.Some? ==> Valid(b.text.value.text)
    {
      var i :| 0 <= i < |d.blocks| && d.blocks[i] == b;
      if i != p {
        assert c.blocks[i] in c.blocks && BlockOk(c.blocks[i]);
      }
    }
  }

  /** When an append is accepted, and what it leads to. */
  ghost predicate AppendResult(s: State, h: Command, r: Result<State, Reject>)
    requires s.content.Some? && h.Append? && TextOf(s.content.value, h.id).Some?
  {
    && (r.Ok? <==>
          s.version < MAX_VERSION && (h.last ==> |s.finals| < MAX_FINAL) && Accepted(Appended(s, h).content.value))
    && (r.Ok? ==> r.value == Appended(s, h))
  }

  lemma ApplyAppend(s: State, h: Command)
    requires Consistent(s) && s.content.Some? && !s.closed && h.Append? && h.surface == s.content.value.surface
    requires h.id !in s.finals && |h.delta| <= MAX_DELTA && Valid(h.delta)
    requires TextOf(s.content.value, h.id).Some? && |TextOf(s.content.value, h.id).value| + |h.delta| <= MAX_BYTES
    ensures AppendResult(s, h, Apply(s, s.conversation.value, s.version + 1, h))
  {
    hide Position, FinalsMatch;
    AppendedTexts(s, h);
  }

  /** When the next append is accepted, and what it leads to. */
  lemma AppendOutcome(plan: Plan, s: State, order: seq<Id>) returns (h: Command)
    requires OnTrack(plan, s, order) && TodoAll(plan, ViewOf(s), order).value != []
    ensures NextUp(plan, s, order, h)
    ensures AppendResult(s, h, Apply(s, s.conversation.value, s.version + 1, h))
  {
    hide Apply;
    h := NextAppend(plan, s, order);
    TargetText(plan.target, h.id);
    ApplyAppend(s, h);
  }

  lemma TargetText(target: Content, id: Id)
    requires Accepted(target) && TextOf(target, id).Some?
    ensures |TextOf(target, id).value| <= MAX_BYTES
  {
    TextBounded(target.blocks, Position(target.blocks, id));
  }

  // One step

  lemma AppendedStreams(s: State, h: Command, id: Id)
    requires Consistent(s) && s.content.Some? && h.Append? && TextOf(s.content.value, h.id).Some?
    requires Consistent(Appended(s, h)) && !s.closed && h.id !in s.finals
    ensures var t := Appended(s, h);
            && TextOf(t.content.value, id) ==
               (if id == h.id then Some(TextOf(s.content.value, id).value + h.delta) else TextOf(s.content.value, id))
            && (id in StreamsOf(t) <==> id in StreamsOf(s))
            && (id != h.id && id in StreamsOf(s) ==> StreamsOf(t)[id] == StreamsOf(s)[id])
            && (id == h.id && id in StreamsOf(t) ==> StreamsOf(t)[id] == if h.last then Final else Open)
  {
    var c := s.content.value;
    TextAfter(c, h.id, TextOf(c, h.id).value + h.delta, id);
    StreamLookup(s, id);
    StreamLookup(Appended(s, h), id);
  }

  lemma TodoOfOthers(plan: Plan, s: State, h: Command, id: Id)
    requires Consistent(s) && s.content.Some? && h.Append? && TextOf(s.content.value, h.id).Some?
    requires Consistent(Appended(s, h)) && !s.closed && h.id !in s.finals && id in plan.streams && id != h.id
    ensures Todo(plan, ViewOf(Appended(s, h)), id) == Todo(plan, ViewOf(s), id)
  {
    AppendedStreams(s, h, id);
    TodoOther(plan, ViewOf(s), ViewOf(Appended(s, h)), id);
  }

  lemma TodoOfStream(plan: Plan, s: State, h: Command)
    requires Consistent(s) && s.content.Some? && h.Append? && TextOf(s.content.value, h.id).Some?
    requires Consistent(Appended(s, h)) && !s.closed && h.id !in s.finals && h.id in plan.streams
    requires Todo(plan, ViewOf(s), h.id).Ok? && Todo(plan, ViewOf(s), h.id).value != []
    requires Todo(plan, ViewOf(s), h.id).value[0] == h
    ensures Todo(plan, ViewOf(Appended(s, h)), h.id) == Ok(Todo(plan, ViewOf(s), h.id).value[1..])
  {
    AppendedStreams(s, h, h.id);
    StreamLookup(s, h.id);
    TodoTail(plan, ViewOf(s), ViewOf(Appended(s, h)), h.id);
  }

  lemma AppendKeepsTodo(plan: Plan, s: State, order: seq<Id>, h: Command)
    requires NextUp(plan, s, order, h) && Consistent(Appended(s, h))
    ensures TodoAll(plan, ViewOf(Appended(s, h)), order) == Ok(TodoAll(plan, ViewOf(s), order).value[1..])
  {
    forall id | id in order && id != h.id ensures Todo(plan, ViewOf(Appended(s, h)), id) == Todo(plan, ViewOf(s), id) {
      TodoOfOthers(plan, s, h, id);
    }
    TodoOfStream(plan, s, h);
    TodoStep(plan, ViewOf(s), ViewOf(Appended(s, h)), order, h.id);
  }

  lemma AppendKeepsBeginning(plan: Plan, s: State, order: seq<Id>, h: Command)
    requires NextUp(plan, s, order, h) && Consistent(Appended(s, h))
    requires Begins(s.content.value, plan.target, order)
    ensures Obstacle(plan.target, Appended(s, h).content.value, order) == None
  {
    var d := Appended(s, h).content.value;
    forall id | id in order
      ensures TextOf(d, id).Some? && TextOf(d, id).value <= TextOf(plan.target, id).value
    {
      AppendedStreams(s, h, id);
    }
    ObstacleIff(plan.target, d, order);
  }

  lemma AppendKeepsTrack(plan: Plan, s: State, order: seq<Id>, h: Command)
    requires OnTrack(plan, s, order) && NextUp(plan, s, order, h) && Consistent(Appended(s, h))
    ensures OnTrack(plan, Appended(s, h), order)
  {
    AppendKeepsTodo(plan, s, order, h);
    var c := s.content.value;
    AppendKeepsBeginning(plan, s, order, h);
    ObstacleIff(plan.target, Appended(s, h).content.value, order);
    AdoptAbsorbs(c.(fallback := plan.target.fallback), plan.target, order, h.id, TextOf(c, h.id).value + h.delta);
  }

  lemma DropFirst<T>(a: seq<T>, b: seq<T>)
    requires a != []
    ensures a + b != [] && (a + b)[0] == a[0] && (a + b)[1..] == a[1..] + b
  {
  }

  /** The next append, when it is accepted, leaves exactly the rest. */
  lemma TakeAppend(plan: Plan, s: State, order: seq<Id>, h: Command)
    requires OnTrack(plan, s, order) && NextUp(plan, s, order, h) && Consistent(Appended(s, h))
    ensures OnTrack(plan, Appended(s, h), order) && Left(plan, s, order) != []
    ensures Left(plan, Appended(s, h), order) == Left(plan, s, order)[1..]
  {
    hide TodoAll, Adopt, Begins, StreamsOf, Accepted, Consistent;
    AppendKeepsTodo(plan, s, order, h);
    AppendKeepsTrack(plan, s, order, h);
    DropFirst(TodoAll(plan, ViewOf(s), order).value, Tail(plan, ViewOf(s)));
  }

  lemma FirstLeft(plan: Plan, s: State, order: seq<Id>) returns (h: Command)
    requires OnTrack(plan, s, order) && TodoAll(plan, ViewOf(s), order).value != []
    ensures NextUp(plan, s, order, h) && Left(plan, s, order) != [] && Left(plan, s, order)[0] == h
    ensures AppendResult(s, h, Apply(s, s.conversation.value, s.version + 1, h))
  {
    h := AppendOutcome(plan, s, order);
    DropFirst(TodoAll(plan, ViewOf(s), order).value, Tail(plan, ViewOf(s)));
  }

  /** The grown content is still the target cut short. */
  lemma AppendedShorter(plan: Plan, s: State, order: seq<Id>, h: Command)
    requires OnTrack(plan, s, order) && NextUp(plan, s, order, h)
    ensures var d := Appended(s, h).content.value;
            Shorter(d.blocks, plan.target.blocks) && d == Middle(plan, s.content.value.fallback).(blocks := d.blocks)
  {
    var c, x := s.content.value, TextOf(s.content.value, h.id).value + h.delta;
    var d := WithText(c, h.id, x);
    AdoptAbsorbs(c, plan.target, order, h.id, x);
    TrackShape(plan, s, order);
    forall id | id in order ensures TextOf(d, id).Some? && TextOf(d, id).value <= TextOf(plan.target, id).value {
      TextAfter(c, h.id, x, id);
    }
    AdoptShorter(d, plan.target, order);
  }
}

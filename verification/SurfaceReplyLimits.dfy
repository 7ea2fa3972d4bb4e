/**
 The limits a resumed reply can meet. A reply that sets its fallback only after its last append
 meets none of them but the version counter; in general the old fallback can stand in the way.
 */
module SurfaceReplyLimits {
  import opened Basics
  import opened Utf8
  import opened Surface
  import opened SurfacePlan
  import opened SurfacePlanSteps
  import opened SurfacePlanRuns
  import opened SurfacePlanGoal
  import opened SurfaceReplies

  /** No append comes after a patch. */
  ghost predicate TextFirst(commands: seq<Command>) {
    forall i, j :: 0 <= i < j < |commands| && commands[i].Patch? ==> !commands[j].Append?
  }

  // What the rest of a reply does

  lemma {:induction false} NoAppendEffect(s: State, conversation: Id, commands: seq<Command>, t: State)
    requires Consistent(s) && s.content.Some? && ApplyAll(s, conversation, commands) == Ok(t)
    requires (forall h :: h in commands ==> Reply(h)) && !HasAppend(commands)
    ensures t.content.Some? && t.content.value == s.content.value.(fallback := t.content.value.fallback)
    ensures t.finals == s.finals
    decreases |commands|
  {
    if commands != [] {
      ApplyAllFirst(s, conversation, commands);
      var u := Apply(s, conversation, s.version + 1, commands[0]).value;
      ReplyEffect(s, conversation, commands[0], u);
      assert !commands[0].Append? && !HasAppend(commands[1..]) by {
        assert forall i :: 0 <= i < |commands| - 1 ==> commands[1..][i] == commands[i + 1];
      }
      NoAppendEffect(u, conversation, commands[1..], t);
    }
  }

  /** The content with all texts but the old fallback has been there, so it is acceptable. */
  lemma {:induction false} MiddleAccepted(s: State, conversation: Id, commands: seq<Command>, t: State)
    requires Consistent(s) && s.content.Some? && ApplyAll(s, conversation, commands) == Ok(t)
    requires (forall h :: h in commands ==> Reply(h)) && TextFirst(commands) && HasAppend(commands)
    ensures t.content.Some? && Accepted(t.content.value.(fallback := s.content.value.fallback))
    decreases |commands|
  {
    ApplyAllFirst(s, conversation, commands);
    var u, rest := Apply(s, conversation, s.version + 1, commands[0]).value, commands[1..];
    ReplyEffect(s, conversation, commands[0], u);
    assert forall i :: 0 <= i < |rest| ==> rest[i] == commands[i + 1];
    AppendComesFirst(s, conversation, commands, u);
    if HasAppend(rest) {
      MiddleAccepted(u, conversation, rest, t);
    } else {
      NoAppendEffect(u, conversation, rest, t);
    }
  }

  lemma AppendComesFirst(s: State, conversation: Id, commands: seq<Command>, u: State)
    requires Consistent(s) && s.content.Some? && commands != [] && Reply(commands[0]) && TextFirst(commands)
    requires HasAppend(commands)
    requires Apply(s, conversation, s.version + 1, commands[0]) == Ok(u) && ApplyAll(u, conversation, commands[1..]).Ok?
    ensures commands[0].Append?
  {
    if commands[0].Close? && |commands| > 1 {
      ApplyAllFirst(u, conversation, commands[1..]);
    }
  }

  lemma {:induction false} FinalsGrow(s: State, conversation: Id, commands: seq<Command>, t: State, id: Id)
    requires Consistent(s) && s.content.Some? && ApplyAll(s, conversation, commands) == Ok(t)
    requires forall h :: h in commands ==> Reply(h)
    ensures id in s.finals || (id in StreamsIn(commands) && StreamsIn(commands)[id]) ==> id in t.finals
    decreases |commands|
  {
    if commands != [] {
      ApplyAllFirst(s, conversation, commands);
      var u := Apply(s, conversation, s.version + 1, commands[0]).value;
      ReplyEffect(s, conversation, commands[0], u);
      ReplyTexts(s, conversation, commands[0], u, id);
      FinalsGrow(u, conversation, commands[1..], t, id);
    }
  }

  // Counting the streams that are still to be finished

  lemma {:induction false} LastsJoin(a: seq<Command>, b: seq<Command>)
    ensures Lasts(a + b) == Lasts(a) + Lasts(b)
  {
    if a == [] {
      assert a + b == b;
    } else {
      LastsJoin(a[1..], b);
      assert (a + b)[1..] == a[1..] + b;
    }
  }

  lemma {:induction false} LastsOfAppends(surface: Id, id: Id, suffix: seq<Byte>, last: bool)
    requires Valid(suffix)
    ensures Lasts(Appends(surface, id, suffix, last)) == if last then 1 else 0
    decreases |suffix|
  {
    var all := Appends(surface, id, suffix, last);
    if all != [] {
      AppendsHead(surface, id, suffix, last);
      var h := all[0];
      if !h.last {
        if |h.delta| == 0 {
          FirstNotEmpty(surface, id, suffix, last);
        }
        LastsOfAppends(surface, id, suffix[|h.delta|..], last);
      }
    } else {
      AppendsNothing(surface, id, suffix, last);
    }
  }

  lemma FirstNotEmpty(surface: Id, id: Id, suffix: seq<Byte>, last: bool)
    requires Valid(suffix) && Appends(surface, id, suffix, last) != []
    ensures var h := Appends(surface, id, suffix, last)[0]; h.Append? && (h.delta != [] || h.last)
  {
  }

  /** The listed streams that should be final and are not. */
  ghost function Unfinished(plan: Plan, s: State, order: seq<Id>): (r: set<Id>) {
    set id | id in order && id in plan.streams && plan.streams[id] && id !in s.finals
  }

  lemma LastsOfStream(plan: Plan, s: State, id: Id)
    requires Consistent(s) && s.content.Some? && id in plan.streams && Todo(plan, ViewOf(s), id).Ok?
    ensures Lasts(Todo(plan, ViewOf(s), id).value) <= if plan.streams[id] && id !in s.finals then 1 else 0
  {
    StreamLookup(s, id);
    if StreamsOf(s)[id] == Open {
      var wanted, current := TextOf(plan.target, id).value, TextOf(s.content.value, id).value;
      LastsOfAppends(s.content.value.surface, id, wanted[|current|..], plan.streams[id]);
    }
  }

  lemma {:induction false} LastsBounded(plan: Plan, s: State, order: seq<Id>)
    requires Consistent(s) && s.content.Some? && (forall id :: id in order ==> id in plan.streams)
    requires forall i, j :: 0 <= i < j < |order| ==> order[i] != order[j]
    requires TodoAll(plan, ViewOf(s), order).Ok?
    ensures Lasts(TodoAll(plan, ViewOf(s), order).value) <= |Unfinished(plan, s, order)|
  {
    if order != [] {
      TodoCons(plan, ViewOf(s), order);
      LastsBounded(plan, s, order[1..]);
      LastsOfStream(plan, s, order[0]);
      LastsJoin(Todo(plan, ViewOf(s), order[0]).value, TodoAll(plan, ViewOf(s), order[1..]).value);
      UnfinishedCons(plan, s, order);
    }
  }

  lemma UnfinishedCons(plan: Plan, s: State, order: seq<Id>)
    requires order != [] && order[0] in plan.streams && order[0] !in order[1..]
    ensures |Unfinished(plan, s, order)| ==
            |Unfinished(plan, s, order[1..])| + if plan.streams[order[0]] && order[0] !in s.finals then 1 else 0
  {
    var mine := if plan.streams[order[0]] && order[0] !in s.finals then {order[0]} else {};
    assert Unfinished(plan, s, order) == mine + Unfinished(plan, s, order[1..]);
  }

  lemma RoomForFinals(plan: Plan, s: State, t: State, order: seq<Id>)
    requires |t.finals| <= MAX_FINAL
    requires forall id :: id in s.finals || id in Unfinished(plan, s, order) ==> id in t.finals
    ensures |s.finals| + |Unfinished(plan, s, order)| <= MAX_FINAL
  {
    var both := s.finals.Keys + Unfinished(plan, s, order);
    assert |both| == |s.finals.Keys| + |Unfinished(plan, s, order)|;
    Fewer(both, t.finals.Keys);
  }

  // Resumed replies

  /** When nothing is left to append in the reply, re-derivation appends nothing either. */
  lemma NoAppendLeft(plan: Plan, s: State, conversation: Id, rest: seq<Command>, t: State, order: seq<Id>)
    requires OnTrack(plan, s, order) && ApplyAll(s, conversation, rest) == Ok(t) && Aims(plan, t)
    requires (forall h :: h in rest ==> Reply(h)) && !HasAppend(rest)
    requires forall id :: id in order && plan.streams[id] ==> id in t.finals
    ensures !HasAppend(Left(plan, s, order))
  {
    hide TodoAll, Todo, Adopt, Begins, Accepted, StreamsOf, ApplyAll, Consistent, Aims;
    NoAppendEffect(s, conversation, rest, t);
    forall id | id in order ensures Todo(plan, ViewOf(s), id) == Ok([]) {
      SettledStream(plan, s, t, order, id);
    }
    TodoNone(plan, ViewOf(s), order);
    assert Left(plan, s, order) == Tail(plan, ViewOf(s));
  }

  lemma SettledStream(plan: Plan, s: State, t: State, order: seq<Id>, id: Id)
    requires Consistent(s) && s.content.Some? && Lists(order, plan.streams) && id in order
    requires Begins(s.content.value, plan.target, order) && t.content.Some? && Aims(plan, t)
    requires t.content.value == s.content.value.(fallback := t.content.value.fallback) && t.finals == s.finals
    requires plan.streams[id] ==> id in t.finals
    ensures Todo(plan, ViewOf(s), id) == Ok([])
  {
    hide Todo, Accepted, StreamsOf, FinalsMatch;
    StreamLookup(s, id);
    TodoSettled(plan, ViewOf(s), id);
  }

  lemma TodoSettled(plan: Plan, view: View, id: Id)
    requires id in plan.streams && id in view.streams && (plan.streams[id] ==> view.streams[id] == Final)
    requires TextOf(view.snapshot, id).Some? && TextOf(plan.target, id) == TextOf(view.snapshot, id)
    ensures Todo(plan, view, id) == Ok([])
  {
    var text := TextOf(plan.target, id).value;
    assert text[|text|..] == [];
  }

  lemma FinalsFit(plan: Plan, s: State, t: State, order: seq<Id>)
    requires OnTrack(plan, s, order) && |t.finals| <= MAX_FINAL
    requires forall id :: id in s.finals || (id in order && plan.streams[id]) ==> id in t.finals
    ensures |s.finals| + Lasts(Left(plan, s, order)) <= MAX_FINAL
  {
    hide TodoAll, Adopt, Begins, Accepted, Consistent, StreamsOf, Lasts;
    LastsBounded(plan, s, order);
    RoomForFinals(plan, s, t, order);
    LastsJoin(TodoAll(plan, ViewOf(s), order).value, Tail(plan, ViewOf(s)));
    NoAppends(Tail(plan, ViewOf(s)));
  }

  /**
   A reply whose texts come before its fallback goes through from every point it can be resumed
   at: only the version counter could stop it.
   */
  lemma ReplyGoesThrough(conversation: Id, first: State, made: seq<Command>, s: State, rest: seq<Command>,
                         t: State, order: seq<Id>)
    requires Consistent(first) && first.content.Some? && first.conversation == Some(conversation)
    requires (forall h :: h in made + rest ==> Reply(h)) && TextFirst(made + rest)
    requires ApplyAll(first, conversation, made) == Ok(s) && ApplyAll(s, conversation, rest) == Ok(t)
    requires t.content.Some? && Lists(order, StreamsIn(made + rest))
    ensures var plan := Plan(t.content.value, t.closed, StreamsIn(made + rest));
            && OnTrack(plan, s, order)
            && (s.version + |Left(plan, s, order)| <= MAX_VERSION ==> Feasible(plan, s, Left(plan, s, order)))
  {
    var plan := Plan(t.content.value, t.closed, StreamsIn(made + rest));
    ReplyResumes(conversation, first, made, s, rest, t, order);
    RestOfReply(made, rest);
    ApplyAllSplit(first, conversation, made, rest);
    ApplyAllKeeps(s, conversation, rest);
    forall id | id in s.finals || (id in order && plan.streams[id]) ensures id in t.finals {
      FinalsGrow(s, conversation, rest, t, id);
      FinalsGrow(first, conversation, made + rest, t, id);
    }
    FinalsFit(plan, s, t, order);
    if HasAppend(rest) {
      MiddleAccepted(s, conversation, rest, t);
    } else {
      NoAppendLeft(plan, s, conversation, rest, t, order);
    }
  }

  lemma RestOfReply(made: seq<Command>, rest: seq<Command>)
    requires (forall h :: h in made + rest ==> Reply(h)) && TextFirst(made + rest)
    ensures (forall h :: h in rest ==> Reply(h)) && TextFirst(rest)
  {
    forall i, j | 0 <= i < j < |rest| && rest[i].Patch? ensures !rest[j].Append? {
      assert (made + rest)[|made| + i] == rest[i] && (made + rest)[|made| + j] == rest[j];
    }
    assert forall h :: h in rest ==> h in made + rest;
  }

  // The old fallback can stand in the way

  const LETTER: Byte := 0x61

  function Example(text: seq<Byte>, fallback: seq<Byte>): (r: Content) {
    Content("s", [Block("b", Some(Text(false, text)), Opaque(0, 0, true))], fallback, Opaque(0, 16382, true))
  }

  lemma LetterFallback(n: nat)
    requires 1 <= n <= 2
    ensures FallbackOk(seq(n, i => LETTER)) && Escaped(seq(n, i => LETTER)) == n
  {
    var one, two := [LETTER], [LETTER, LETTER];
    assert seq(n, i => LETTER) == if n == 1 then one else two;
    assert one[1..] == [] && two[1..] == one;
    var a: seq<Scalar>, aa: seq<Scalar> := [0x61], [0x61, 0x61];
    assert a[1..] == [] && aa[1..] == a;
    assert Encode(a) == one && Encode(aa) == two;
    DecodeEncode(a);
    DecodeEncode(aa);
    assert a[0] in a && aa[0] in aa;
  }

  lemma ExampleSize(text: seq<Byte>, fallback: seq<Byte>)
    ensures Size(Example(text, fallback)) == 16382 + Escaped(fallback) + Escaped(text)
  {
    var blocks := Example(text, fallback).blocks;
    assert blocks[1..] == [];
    assert BlocksSize(blocks) == Escaped(text) + BlocksSize(blocks[1..]) && BlocksSize(blocks[1..]) == 0;
  }

  const ONE: seq<Byte> := [LETTER]
  const TWO: seq<Byte> := [LETTER, LETTER]

  /** A plan with one letter of text and one of fallback, just within the limit. */
  ghost const PLAN := Plan(Example(ONE, ONE), false, map["b" := true])
  /** The surface of that plan without its text, but with a longer fallback. */
  ghost const OLD := State(Some(Example([], TWO)), Some("c"), 1, false, map[])
  const LAST := Append("s", "b", ONE, true)

  lemma Letters()
    ensures FallbackOk(ONE) && FallbackOk(TWO) && Escaped(ONE) == 1 && Escaped(TWO) == 2 && Valid(ONE) && Valid([])
  {
    LetterFallback(1);
    LetterFallback(2);
    assert seq(1, i => LETTER) == ONE && seq(2, i => LETTER) == TWO;
  }

  lemma ExampleAccepted(text: seq<Byte>, fallback: seq<Byte>)
    requires Valid(text) && FallbackOk(fallback)
    ensures Accepted(Example(text, fallback)) <==> Escaped(fallback) + Escaped(text) <= 2
  {
    hide FallbackOk;
    ExampleSize(text, fallback);
  }

  lemma ExampleText(text: seq<Byte>, fallback: seq<Byte>, more: seq<Byte>)
    ensures TextOf(Example(text, fallback), "b") == Some(text)
    ensures WithText(Example(text, fallback), "b", more) == Example(more, fallback)
  {
    var c := Example(text, fallback);
    assert Position(c.blocks, "b") == 0;
    assert WithText(c, "b", more).blocks == Example(more, fallback).blocks;
  }

  lemma OneAppend()
    requires Valid(ONE)
    ensures Appends("s", "b", ONE, true) == [LAST]
  {
  }

  lemma ExamplesFit()
    ensures Accepted(Example([], ONE)) && Accepted(Example([], TWO)) && Accepted(Example(ONE, ONE))
    ensures !Accepted(Example(ONE, TWO)) && Consistent(OLD)
  {
    hide Accepted;
    Letters();
    ExampleAccepted([], ONE);
    ExampleAccepted([], TWO);
    ExampleAccepted(ONE, ONE);
    ExampleAccepted(ONE, TWO);
    assert FinalsMatch(Example([], TWO), map[]);
  }

  lemma OneStream()
    ensures StreamsIn([Create(Example([], ONE)), LAST]) == PLAN.streams
  {
    assert [Create(Example([], ONE)), LAST][1..] == [LAST] && [LAST][1..] == [];
    assert StreamsIn([LAST][1..]) == map[] && StreamsIn([LAST]) == map["b" := true];
  }

  lemma PlanMade()
    ensures var commands := [Create(Example([], ONE)), LAST];
            ApplyAll(NEW, "c", commands).Ok? && Aims(PLAN, ApplyAll(NEW, "c", commands).value)
            && PLAN.streams == StreamsIn(commands)
  {
    hide Accepted, StreamsIn;
    Letters();
    ExamplesFit();
    ExampleText([], ONE, ONE);
    OneStream();
    var commands := [Create(Example([], ONE)), LAST];
    assert commands[1..] == [LAST];
    var first := State(Some(Example([], ONE)), Some("c"), 1, false, map[]);
    assert Apply(NEW, "c", 1, commands[0]) == Ok(first);
    AppendThere(first, ONE);
    ApplyAllFirst(NEW, "c", commands);
    ApplyAllFirst(first, "c", [LAST]);
  }

  lemma AppendThere(s: State, fallback: seq<Byte>)
    requires s == State(Some(Example([], fallback)), Some("c"), 1, false, map[]) && Consistent(s)
    ensures AppendResult(s, LAST, Apply(s, "c", 2, LAST))
    ensures Appended(s, LAST).content == Some(Example(ONE, fallback))
  {
    hide Accepted, Apply;
    Letters();
    ExampleText([], fallback, ONE);
    assert [] + ONE == ONE;
    ApplyAppend(s, LAST);
  }

  lemma OldTodo()
    ensures TodoAll(PLAN, ViewOf(OLD), ["b"]) == Ok([LAST])
  {
    hide Accepted, Appends;
    Letters();
    ExamplesFit();
    ExampleText([], TWO, ONE);
    ExampleText(ONE, ONE, ONE);
    StreamLookup(OLD, "b");
    OneAppend();
    assert ONE[0..] == ONE;
    assert Todo(PLAN, ViewOf(OLD), "b") == Ok([LAST]);
    assert ["b"][1..] == [] && [LAST] + [] == [LAST];
  }

  lemma OldOnTrack()
    ensures OnTrack(PLAN, OLD, ["b"]) && Left(PLAN, OLD, ["b"]) != [] && Left(PLAN, OLD, ["b"])[0] == LAST
  {
    hide Accepted, TodoAll;
    ExamplesFit();
    OldTodo();
    ExampleText([], TWO, ONE);
    ExampleText([], ONE, ONE);
    ExampleText(ONE, ONE, ONE);
    var order := ["b"];
    assert order[1..] == [];
    assert Adopt(Example(ONE, ONE), PLAN.target, order[1..]) == PLAN.target;
  }

  /**
   A surface whose fallback is one byte longer than planned, with no room to spare: the plan, made
   from a reply of two commands, is re-derived there, and its first append is refused.
   */
  lemma OldFallbackRefuses()
    ensures var commands := [Create(Example([], ONE)), LAST];
            ApplyAll(NEW, "c", commands).Ok? && Aims(PLAN, ApplyAll(NEW, "c", commands).value)
            && PLAN.streams == StreamsIn(commands)
    ensures OnTrack(PLAN, OLD, ["b"]) && Left(PLAN, OLD, ["b"]) != [] && Left(PLAN, OLD, ["b"])[0] == LAST
    ensures Rederive(PLAN, ViewOf(OLD), ["b"]) == Ok(Left(PLAN, OLD, ["b"]))
    ensures Apply(OLD, "c", OLD.version + 1, LAST).Err?
  {
    hide Apply, ApplyAll, OnTrack, Left, Accepted, Rederive;
    PlanMade();
    OldOnTrack();
    ExamplesFit();
    AppendThere(OLD, TWO);
    OldRederived();
  }

  lemma OldRederived()
    requires OnTrack(PLAN, OLD, ["b"])
    ensures Rederive(PLAN, ViewOf(OLD), ["b"]) == Ok(Left(PLAN, OLD, ["b"]))
  {
    hide Accepted, TodoAll, Rederive;
    TrackIff(PLAN, OLD, ["b"]);
  }
}

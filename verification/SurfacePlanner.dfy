/**
 The planner as it runs: loops that rewrite a working copy of the content and collect commands,
 proved to compute the plan and the re-derivation.
 */
module SurfacePlanner {
  import opened Basics
  import opened Utf8
  import opened Surface
  import opened SurfacePlan
  import opened SurfacePlanSteps
  import Chunking

  // Appends for the pieces of a text

  ghost function Marked(surface: Id, id: Id, parts: seq<seq<Byte>>, last: bool): (r: seq<Command>) {
    if parts == [] then []
    else [Append(surface, id, parts[0], last && |parts| == 1)] + Marked(surface, id, parts[1..], last)
  }

  lemma {:induction false} MarkedPieces(surface: Id, id: Id, suffix: seq<Byte>, last: bool)
    requires Valid(suffix) && suffix != []
    ensures Marked(surface, id, Chunking.Pieces(suffix, MAX_DELTA), last) == Appends(surface, id, suffix, last)
    decreases |suffix|
  {
    Chunking.FirstCutBounds(suffix, MAX_DELTA);
    var end := Chunking.FirstCut(suffix, MAX_DELTA);
    var rest := Chunking.Pieces(suffix[end..], MAX_DELTA);
    var parts := [suffix[..end]] + rest;
    assert Chunking.Pieces(suffix, MAX_DELTA) == parts && parts[1..] == rest;
    if end == |suffix| {
      assert suffix[..end] == suffix;
      assert rest == [];
    } else {
      assert rest != [];
      MarkedPieces(surface, id, suffix[end..], last);
    }
  }

  /** One append for each piece, the last one marked. */
  method AppendPieces(surface: Id, id: Id, parts: seq<seq<Byte>>, last: bool) returns (commands: seq<Command>)
    ensures commands == Marked(surface, id, parts, last)
  {
    commands := [];
    var i := 0;
    assert parts[0..] == parts;
    while i < |parts|
      invariant 0 <= i <= |parts|
      invariant commands + Marked(surface, id, parts[i..], last) == Marked(surface, id, parts, last)
    {
      Regroup(commands, Append(surface, id, parts[i], last && i + 1 == |parts|),
              Marked(surface, id, parts[i + 1..], last));
      assert parts[i..][1..] == parts[i + 1..];
      commands := commands + [Append(surface, id, parts[i], last && i + 1 == |parts|)];
      i := i + 1;
    }
    assert parts[i..] == [];
    assert commands + [] == commands;
  }

  method StreamAppends(surface: Id, id: Id, suffix: seq<Byte>, last: bool) returns (commands: seq<Command>)
    requires Valid(suffix)
    ensures commands == Appends(surface, id, suffix, last)
  {
    var parts := Chunking.Chunks(suffix, MAX_DELTA);
    if suffix != [] {
      MarkedPieces(surface, id, suffix, last);
    }
    if parts == [] && last {
      parts := parts + [[]];
      assert parts[1..] == [];
    }
    assert Marked(surface, id, parts, last) == Appends(surface, id, suffix, last);
    commands := AppendPieces(surface, id, parts, last);
  }

  // Re-derivation

  predicate TextsValid(c: Content) {
    forall b :: b in c.blocks && b.text.Some? ==> Valid(b.text.value.text)
  }

  lemma SuffixOf(target: Content, c: Content, id: Id)
    requires TextsValid(target) && TextsValid(c) && TextOf(target, id).Some? && TextOf(c, id).Some?
    requires TextOf(c, id).value <= TextOf(target, id).value
    ensures Valid(TextOf(target, id).value[|TextOf(c, id).value|..])
  {
    assert target.blocks[Position(target.blocks, id)] in target.blocks;
    assert c.blocks[Position(c.blocks, id)] in c.blocks;
    SuffixValid(TextOf(target, id).value, TextOf(c, id).value);
  }

  /** Looks for a stream that has moved away from the target while completing a copy of the content. */
  method CheckStreams(target: Content, content: Content, order: seq<Id>) returns (obstacle: Option<Error>,
                      normalized: Content)
    ensures obstacle == Obstacle(target, content, order)
    ensures obstacle == None ==> normalized == Adopt(content.(fallback := target.fallback), target, order)
  {
    normalized := content.(fallback := target.fallback);
    var i := 0;
    while i < |order|
      invariant 0 <= i <= |order|
      invariant Obstacle(target, content, order[i..]) == Obstacle(target, content, order)
      invariant Adopt(normalized, target, order[i..]) == Adopt(content.(fallback := target.fallback), target, order)
    {
      assert order[i..][1..] == order[i + 1..];
      var wanted, current := TextOf(target, order[i]), TextOf(content, order[i]);
      if wanted == None || current == None {
        return Some(BadState), normalized;
      }
      if !(current.value <= wanted.value) {
        return Some(RefusedStale), normalized;
      }
      normalized := WithText(normalized, order[i], wanted.value);
      i := i + 1;
    }
    obstacle := None;
  }

  /** The commands of one stream. */
  method StreamCommands(plan: Plan, view: View, id: Id) returns (r: Commands)
    requires id in plan.streams && TextsValid(plan.target) && TextsValid(view.snapshot)
    requires TextOf(plan.target, id).Some? && TextOf(view.snapshot, id).Some?
    requires TextOf(view.snapshot, id).value <= TextOf(plan.target, id).value
    ensures r == Todo(plan, view, id)
    ensures r.Ok? ==> id in view.streams
    ensures r.Ok? && view.streams[id] == Final ==> TextOf(view.snapshot, id) == TextOf(plan.target, id)
  {
    var wanted, current := TextOf(plan.target, id).value, TextOf(view.snapshot, id).value;
    var suffix := wanted[|current|..];
    SuffixOf(plan.target, view.snapshot, id);
    assert wanted == current + suffix;
    assert suffix == [] ==> wanted == current;
    if id !in view.streams {
      return Err(BadState);
    }
    if view.streams[id] == Final {
      return if suffix == [] then Ok([]) else Err(RefusedClosed);
    }
    var commands := StreamAppends(view.snapshot.surface, id, suffix, plan.streams[id]);
    r := Ok(commands);
  }

  /** The commands of all streams, and the content they lead to. */
  method AllStreams(plan: Plan, view: View, order: seq<Id>) returns (r: Commands, content: Content)
    requires Lists(order, plan.streams) && TextsValid(plan.target) && TextsValid(view.snapshot)
    requires Begins(view.snapshot, plan.target, order)
    ensures r == TodoAll(plan, view, order)
    ensures r.Ok? ==> content == Adopt(view.snapshot, plan.target, order)
  {
    hide Todo, TodoAll, Adopt, Join, TextOf, WithText, TextsValid;
    content := view.snapshot;
    var commands: seq<Command> := [];
    var i := 0;
    assert order[0..] == order;
    JoinNothing(TodoAll(plan, view, order));
    while i < |order|
      invariant 0 <= i <= |order|
      invariant Join(Ok(commands), TodoAll(plan, view, order[i..])) == TodoAll(plan, view, order)
      invariant Adopt(content, plan.target, order[i..]) == Adopt(view.snapshot, plan.target, order)
      invariant forall j :: i <= j < |order| ==> TextOf(content, order[j]) == TextOf(view.snapshot, order[j])
    {
      var id := order[i];
      NextStream(plan, view, content, order, i);
      var mine := StreamCommands(plan, view, id);
      JoinMore(commands, mine, TodoAll(plan, view, order[i + 1..]));
      if mine.Err? {
        return mine, content;
      }
      commands := commands + mine.value;
      if view.streams[id] == Final {
        SameText(content, id, TextOf(plan.target, id).value);
      } else {
        forall j | i < j < |order|
          ensures TextOf(WithText(content, id, TextOf(plan.target, id).value), order[j]) == TextOf(content, order[j])
        {
          TextAfter(content, id, TextOf(plan.target, id).value, order[j]);
        }
        content := WithText(content, id, TextOf(plan.target, id).value);
      }
      i := i + 1;
    }
    assert order[i..] == [];
    NoStream(plan, view, content, commands);
    r := Ok(commands);
  }

  lemma NextStream(plan: Plan, view: View, content: Content, order: seq<Id>, i: nat)
    requires (forall id :: id in order ==> id in plan.streams) && i < |order| && TextOf(plan.target, order[i]).Some?
    ensures TodoAll(plan, view, order[i..]) == Join(Todo(plan, view, order[i]), TodoAll(plan, view, order[i + 1..]))
    ensures Adopt(content, plan.target, order[i..]) ==
            Adopt(WithText(content, order[i], TextOf(plan.target, order[i]).value), plan.target, order[i + 1..])
  {
    hide Todo, Join;
    assert order[i..][1..] == order[i + 1..] && order[i..][0] == order[i];
  }

  lemma NoStream(plan: Plan, view: View, content: Content, commands: seq<Command>)
    ensures Join(Ok(commands), TodoAll(plan, view, [])) == Ok(commands) && Adopt(content, plan.target, []) == content
  {
    assert commands + [] == commands;
  }

  lemma JoinNothing(rest: Commands)
    ensures Join(Ok([]), rest) == rest
  {
    if rest.Ok? {
      assert [] + rest.value == rest.value;
    }
  }

  lemma JoinMore(commands: seq<Command>, first: Commands, rest: Commands)
    ensures Join(Ok(commands), Join(first, rest)) ==
            if first.Err? then first else Join(Ok(commands + first.value), rest)
  {
    if first.Ok? && rest.Ok? {
      assert commands + (first.value + rest.value) == commands + first.value + rest.value;
    }
  }

  method Rederive(plan: Plan, view: View, order: seq<Id>) returns (r: Commands)
    requires Lists(order, plan.streams) && TextsValid(plan.target) && TextsValid(view.snapshot)
    ensures r == SurfacePlan.Rederive(plan, view, order)
  {
    hide TextsValid, TodoAll, Adopt, Begins, Obstacle;
    var content := view.snapshot;
    if view.hash != Hash(content) {
      return Err(BadState);
    }
    if content.surface != plan.target.surface {
      return Err(Unauthorized);
    }
    if view.closed && (!plan.closed || content != plan.target) {
      return Err(RefusedClosed);
    }
    var obstacle, normalized := CheckStreams(plan.target, content, order);
    if obstacle.Some? {
      return Err(obstacle.value);
    }
    if normalized != plan.target {
      return Err(RefusedStale);
    }
    ObstacleIff(plan.target, content, order);
    r, content := AllStreams(plan, view, order);
    if r.Err? {
      return;
    }
    AdoptFallback(view.snapshot, plan.target, order, plan.target.fallback);
    AdoptFallback(view.snapshot, plan.target, order, view.snapshot.fallback);
    assert content == Middle(plan, view.snapshot.fallback);
    var commands := r.value;
    ghost var todo := commands;
    if content.fallback != plan.target.fallback {
      var base := Hash(content);
      content := content.(fallback := plan.target.fallback);
      commands := commands + [Patch(content.surface, base, [SetFallback(content.fallback)], Hash(content))];
    }
    if plan.closed && !view.closed {
      commands := commands + [Close(content.surface)];
    }
    r := Ok(commands);
    assert commands == todo + Tail(plan, view);
  }

  /** The streams of a plan, one after the other. */
  method ListStreams(streams: map<Id, bool>) returns (order: seq<Id>)
    ensures Lists(order, streams)
  {
    order := [];
    var todo := streams.Keys;
    while todo != {}
      invariant todo <= streams.Keys
      invariant forall i, j :: 0 <= i < j < |order| ==> order[i] != order[j]
      invariant forall id :: id in order <==> id in streams && id !in todo
      decreases todo
    {
      var id :| id in todo;
      order, todo := order + [id], todo - {id};
    }
  }
}

/**
 One re-derived command at a time: whatever is left to do after the first command is what a
 fresh re-derivation from the new state asks for.
 */
module SurfacePlanSteps {
  import opened Basics
  import opened Utf8
  import opened Surface
  import opened SurfacePlan
  import Chunking

  // Reading and writing texts

  lemma {:induction false} SameIdsPosition(a: seq<Block>, b: seq<Block>, id: Id)
    requires |a| == |b| && forall i :: 0 <= i < |a| ==> a[i].id == b[i].id
    ensures Position(a, id) == Position(b, id)
  {
    if a != [] {
      assert forall i :: 0 <= i < |a| - 1 ==> a[1..][i].id == b[1..][i].id;
      SameIdsPosition(a[1..], b[1..], id);
    }
  }

  lemma WithTextPosition(c: Content, id: Id, x: seq<Byte>, other: Id)
    ensures Position(WithText(c, id, x).blocks, other) == Position(c.blocks, other)
  {
    SameIdsPosition(WithText(c, id, x).blocks, c.blocks, other);
  }

  lemma TextAfter(c: Content, id: Id, x: seq<Byte>, other: Id)
    ensures TextOf(WithText(c, id, x), other) ==
            if other == id && TextOf(c, id).Some? then Some(x) else TextOf(c, other)
  {
    WithTextPosition(c, id, x, other);
  }

  lemma SameText(c: Content, id: Id, x: seq<Byte>)
    requires TextOf(c, id) == None || TextOf(c, id) == Some(x)
    ensures WithText(c, id, x) == c
  {
    var p := Position(c.blocks, id);
    if p < |c.blocks| && c.blocks[p].text.Some? {
      assert WithText(c, id, x).blocks == c.blocks;
    }
  }

  lemma Overwrite(c: Content, id: Id, x: seq<Byte>, y: seq<Byte>)
    ensures WithText(WithText(c, id, x), id, y) == WithText(c, id, y)
  {
    WithTextPosition(c, id, x, id);
    assert WithText(WithText(c, id, x), id, y).blocks == WithText(c, id, y).blocks;
  }

  lemma Commute(c: Content, id: Id, x: seq<Byte>, other: Id, y: seq<Byte>)
    requires id != other
    ensures WithText(WithText(c, id, x), other, y) == WithText(WithText(c, other, y), id, x)
  {
    hide Position;
    WithTextPosition(c, id, x, other);
    WithTextPosition(c, other, y, id);
    assert WithText(WithText(c, id, x), other, y).blocks == WithText(WithText(c, other, y), id, x).blocks;
  }

  // Adopting the target's texts

  lemma {:induction false} AdoptAbsorbs(c: Content, target: Content, order: seq<Id>, id: Id, x: seq<Byte>)
    requires id in order && TextOf(target, id).Some?
    ensures Adopt(WithText(c, id, x), target, order) == Adopt(c, target, order)
    decreases |order|
  {
    var wanted := TextOf(target, order[0]);
    if order[0] == id {
      Overwrite(c, id, x, wanted.value);
    } else if wanted == None {
      AdoptAbsorbs(c, target, order[1..], id, x);
    } else {
      Commute(c, id, x, order[0], wanted.value);
      AdoptAbsorbs(WithText(c, order[0], wanted.value), target, order[1..], id, x);
    }
  }

  lemma {:induction false} AdoptIdle(c: Content, target: Content, order: seq<Id>)
    requires forall id :: id in order ==> TextOf(c, id) == TextOf(target, id)
    ensures Adopt(c, target, order) == c
    decreases |order|
  {
    if order != [] {
      if TextOf(target, order[0]).Some? {
        SameText(c, order[0], TextOf(target, order[0]).value);
      }
      AdoptIdle(c, target, order[1..]);
    }
  }

  lemma {:induction false} AdoptFallback(c: Content, target: Content, order: seq<Id>, fallback: seq<Byte>)
    ensures Adopt(c.(fallback := fallback), target, order) == Adopt(c, target, order).(fallback := fallback)
    decreases |order|
  {
    if order != [] {
      match TextOf(target, order[0])
      case None => AdoptFallback(c, target, order[1..], fallback);
      case Some(wanted) => AdoptFallback(WithText(c, order[0], wanted), target, order[1..], fallback);
    }
  }

  ghost predicate Begins(c: Content, target: Content, order: seq<Id>) {
    forall id :: id in order ==>
      TextOf(target, id).Some? && TextOf(c, id).Some? && TextOf(c, id).value <= TextOf(target, id).value
  }

  lemma {:induction false} ObstacleIff(target: Content, c: Content, order: seq<Id>)
    ensures Obstacle(target, c, order) == None <==> Begins(c, target, order)
  {
    if order != [] {
      ObstacleIff(target, c, order[1..]);
      assert order == [order[0]] + order[1..];
    }
  }

  lemma ShorterText(c: Content, id: Id, x: seq<Byte>)
    requires TextOf(c, id).Some? ==> TextOf(c, id).value <= x
    ensures Shorter(c.blocks, WithText(c, id, x).blocks)
  {
  }

  lemma ShorterTransitive(a: seq<Block>, b: seq<Block>, c: seq<Block>)
    requires Shorter(a, b) && Shorter(b, c)
    ensures Shorter(a, c)
  {
    forall i | 0 <= i < |a| ensures ShorterBlock(a[i], c[i]) {
      assert ShorterBlock(a[i], b[i]) && ShorterBlock(b[i], c[i]);
    }
  }

  lemma {:induction false} AdoptShorter(c: Content, target: Content, order: seq<Id>)
    requires Begins(c, target, order) && forall i, j :: 0 <= i < j < |order| ==> order[i] != order[j]
    ensures Shorter(c.blocks, Adopt(c, target, order).blocks)
    ensures Adopt(c, target, order) == c.(blocks := Adopt(c, target, order).blocks)
    decreases |order|
  {
    if order != [] {
      var wanted := TextOf(target, order[0]).value;
      var d := WithText(c, order[0], wanted);
      assert order[0] in order;
      forall id | id in order[1..] ensures TextOf(d, id) == TextOf(c, id) {
        TextAfter(c, order[0], wanted, id);
      }
      ShorterText(c, order[0], wanted);
      AdoptShorter(d, target, order[1..]);
      ShorterTransitive(c.blocks, d.blocks, Adopt(d, target, order[1..]).blocks);
    }
  }

  // The appends of one stream

  /** The first append carries a valid piece of the suffix and marks the end only with all of it. */
  lemma AppendsHead(surface: Id, id: Id, suffix: seq<Byte>, last: bool)
    requires Valid(suffix) && Appends(surface, id, suffix, last) != []
    ensures var h := Appends(surface, id, suffix, last)[0];
            && h == Append(surface, id, h.delta, h.last)
            && h.delta <= suffix && |h.delta| <= MAX_DELTA && Valid(h.delta) && Valid(suffix[|h.delta|..])
            && (h.last ==> last && h.delta == suffix)
            && Appends(surface, id, suffix, last)[1..] ==
              (if h.last then [] else Appends(surface, id, suffix[|h.delta|..], last))
  {
    if suffix != [] {
      Chunking.FirstCutBounds(suffix, MAX_DELTA);
      var end := Chunking.FirstCut(suffix, MAX_DELTA);
      if end == |suffix| {
        assert suffix[..end] == suffix && suffix[|suffix|..] == [];
      }
    } else {
      assert suffix[0..] == [];
    }
  }

  lemma AppendsNothing(surface: Id, id: Id, suffix: seq<Byte>, last: bool)
    requires Valid(suffix)
    ensures Appends(surface, id, suffix, last) == [] <==> suffix == [] && !last
  {
  }

  lemma Grow(current: seq<Byte>, wanted: seq<Byte>, d: seq<Byte>)
    requires current <= wanted && d <= wanted[|current|..]
    ensures current + d <= wanted
    ensures wanted[|current + d|..] == wanted[|current|..][|d|..]
    ensures d == wanted[|current|..] ==> current + d == wanted
  {
    assert wanted == current + wanted[|current|..];
  }

  // The list of all streams

  lemma {:induction false} TodoSame(plan: Plan, view: View, next: View, order: seq<Id>)
    requires forall id :: id in order ==> id in plan.streams && Todo(plan, next, id) == Todo(plan, view, id)
    ensures TodoAll(plan, next, order) == TodoAll(plan, view, order)
  {
    hide Todo;
    if order != [] {
      TodoSame(plan, view, next, order[1..]);
    }
  }

  lemma {:induction false} TodoEach(plan: Plan, view: View, order: seq<Id>)
    requires forall id :: id in order ==> id in plan.streams
    requires TodoAll(plan, view, order).Ok?
    ensures forall id :: id in order ==> Todo(plan, view, id).Ok?
    ensures TodoAll(plan, view, order).value == [] <==> forall id :: id in order ==> Todo(plan, view, id) == Ok([])
  {
    hide Todo;
    if order != [] {
      TodoEach(plan, view, order[1..]);
      assert order == [order[0]] + order[1..];
    }
  }

  /** The stream the first append belongs to. */
  lemma {:induction false} TodoFirst(plan: Plan, view: View, order: seq<Id>) returns (id: Id)
    requires forall x :: x in order ==> x in plan.streams
    requires TodoAll(plan, view, order).Ok? && TodoAll(plan, view, order).value != []
    ensures id in order && Todo(plan, view, id).Ok? && Todo(plan, view, id).value != []
    ensures TodoAll(plan, view, order).value[0] == Todo(plan, view, id).value[0]
  {
    hide Todo;
    if Todo(plan, view, order[0]).value != [] {
      id := order[0];
    } else {
      id := TodoFirst(plan, view, order[1..]);
    }
  }

  lemma TodoOther(plan: Plan, view: View, next: View, id: Id)
    requires id in plan.streams && TextOf(next.snapshot, id) == TextOf(view.snapshot, id)
    requires next.snapshot.surface == view.snapshot.surface
    requires id in next.streams <==> id in view.streams
    requires id in view.streams ==> next.streams[id] == view.streams[id]
    ensures Todo(plan, next, id) == Todo(plan, view, id)
  {
  }

  /** A stream with nothing left to do has the target's text, and is final if it should be. */
  lemma TodoNothing(plan: Plan, view: View, id: Id)
    requires id in plan.streams && Todo(plan, view, id) == Ok([])
    ensures TextOf(view.snapshot, id) == TextOf(plan.target, id)
    ensures plan.streams[id] ==> id in view.streams && view.streams[id] == Final
  {
    var wanted, current := TextOf(plan.target, id).value, TextOf(view.snapshot, id).value;
    var suffix := wanted[|current|..];
    if view.streams[id] == Open {
      AppendsNothing(view.snapshot.surface, id, suffix, plan.streams[id]);
    }
    assert suffix == [];
    assert wanted == current + suffix == current;
  }

  /** The first append of a stream. */
  lemma TodoHead(plan: Plan, view: View, id: Id)
    requires id in plan.streams && Todo(plan, view, id).Ok? && Todo(plan, view, id).value != []
    ensures id in view.streams && view.streams[id] == Open
    ensures var h := Todo(plan, view, id).value[0];
            && h.Append? && h.id == id && h.surface == view.snapshot.surface && |h.delta| <= MAX_DELTA && Valid(h.delta)
            && TextOf(view.snapshot, id).Some? && TextOf(plan.target, id).Some?
            && TextOf(view.snapshot, id).value + h.delta <= TextOf(plan.target, id).value
            && (h.last ==>
                  plan.streams[id] && TextOf(view.snapshot, id).value + h.delta == TextOf(plan.target, id).value)
  {
    var wanted, current := TextOf(plan.target, id).value, TextOf(view.snapshot, id).value;
    AppendsHead(view.snapshot.surface, id, wanted[|current|..], plan.streams[id]);
    Grow(current, wanted, Todo(plan, view, id).value[0].delta);
  }

  /** Once the first append is in, the stream asks for the others. */
  lemma TodoTail(plan: Plan, view: View, next: View, id: Id)
    requires id in plan.streams && Todo(plan, view, id).Ok? && Todo(plan, view, id).value != []
    requires var h := Todo(plan, view, id).value[0];
             && TextOf(view.snapshot, id).Some?
             && h.Append? && TextOf(next.snapshot, id) == Some(TextOf(view.snapshot, id).value + h.delta)
             && next.snapshot.surface == view.snapshot.surface
             && id in next.streams && next.streams[id] == if h.last then Final else Open
    ensures Todo(plan, next, id) == Ok(Todo(plan, view, id).value[1..])
  {
    var wanted, current := TextOf(plan.target, id).value, TextOf(view.snapshot, id).value;
    var suffix := wanted[|current|..];
    AppendsHead(view.snapshot.surface, id, suffix, plan.streams[id]);
    var h := Todo(plan, view, id).value[0];
    Grow(current, wanted, h.delta);
  }

  lemma {:induction false} TodoStep(plan: Plan, view: View, next: View, order: seq<Id>, id: Id)
    requires forall i, j :: 0 <= i < j < |order| ==> order[i] != order[j]
    requires forall x :: x in order ==> x in plan.streams
    requires TodoAll(plan, view, order).Ok? && TodoAll(plan, view, order).value != []
    requires TodoAll(plan, view, order).value[0].Append? && TodoAll(plan, view, order).value[0].id == id && id in order
    requires Todo(plan, view, id).Ok? && Todo(plan, view, id).value != []
    requires Todo(plan, next, id) == Ok(Todo(plan, view, id).value[1..])
    requires forall x :: x in order && x != id ==> Todo(plan, next, x) == Todo(plan, view, x)
    ensures TodoAll(plan, next, order) == Ok(TodoAll(plan, view, order).value[1..])
    decreases |order|, 1
  {
    hide Todo;
    TodoCons(plan, view, order);
    var first, rest := Todo(plan, view, order[0]).value, TodoAll(plan, view, order[1..]).value;
    TodoStepRest(plan, view, next, order, id);
    JoinTail(first, rest);
  }

  lemma JoinTail(first: seq<Command>, rest: seq<Command>)
    requires first + rest != []
    ensures Join(Ok(if first == [] then [] else first[1..]), Ok(if first == [] then rest[1..] else rest)) ==
            Ok((first + rest)[1..])
  {
    if first == [] {
      assert [] + rest == rest;
      assert [] + rest[1..] == rest[1..];
    } else {
      assert (first + rest)[1..] == first[1..] + rest;
    }
  }

  lemma TodoCons(plan: Plan, view: View, order: seq<Id>)
    requires order != [] && forall x :: x in order ==> x in plan.streams
    requires TodoAll(plan, view, order).Ok?
    ensures Todo(plan, view, order[0]).Ok? && TodoAll(plan, view, order[1..]).Ok?
    ensures TodoAll(plan, view, order).value == Todo(plan, view, order[0]).value + TodoAll(plan, view, order[1..]).value
  {
    hide Todo;
  }

  lemma {:induction false} TodoStepRest(plan: Plan, view: View, next: View, order: seq<Id>, id: Id)
    requires order != [] && forall i, j :: 0 <= i < j < |order| ==> order[i] != order[j]
    requires forall x :: x in order ==> x in plan.streams
    requires Todo(plan, view, order[0]).Ok? && TodoAll(plan, view, order[1..]).Ok?
    requires var all := Todo(plan, view, order[0]).value + TodoAll(plan, view, order[1..]).value;
             all != [] && all[0].Append? && all[0].id == id && id in order
    requires Todo(plan, view, id).Ok? && Todo(plan, view, id).value != []
    requires Todo(plan, next, id) == Ok(Todo(plan, view, id).value[1..])
    requires forall x :: x in order && x != id ==> Todo(plan, next, x) == Todo(plan, view, x)
    ensures var first, rest := Todo(plan, view, order[0]).value, TodoAll(plan, view, order[1..]).value;
            && Todo(plan, next, order[0]) == Ok(if first == [] then [] else first[1..])
            && TodoAll(plan, next, order[1..]) == Ok(if first == [] then rest[1..] else rest)
    decreases |order|, 0
  {
    hide Todo;
    assert forall x :: x in order[1..] ==> x in order && x != order[0];
    assert forall x :: x in order ==> x == order[0] || x in order[1..];
    if Todo(plan, view, order[0]).value == [] {
      TodoStep(plan, view, next, order[1..], id);
    } else {
      TodoHead(plan, view, order[0]);
      TodoSame(plan, view, next, order[1..]);
    }
  }
}

/**
 How many commands a re-derived plan can have: few enough for one batch of the host.
 */
module SurfaceBatchSize {
  import opened Basics
  import opened Utf8
  import opened Surface
  import opened SurfacePlan
  import opened SurfacePlanSteps
  import opened SurfacePlanRuns
  import Chunking

  /** The most commands the host sends as one batch. */
  const MAX_BATCH: nat := 96
  /** All pieces but the last of a text are at least this long. */
  const PIECE: nat := MAX_DELTA - 3

  lemma {:induction false} AppendsFew(surface: Id, id: Id, suffix: seq<Byte>, last: bool)
    requires Valid(suffix)
    ensures PIECE * |Appends(surface, id, suffix, last)| <= |suffix| + PIECE
    decreases |suffix|
  {
    hide Appends, Valid, Chunking.FirstCut;
    if suffix == [] {
      AppendsOfNothing(surface, id, last);
    } else {
      AppendsLength(surface, id, suffix, last);
      var end := Chunking.FirstCut(suffix, MAX_DELTA);
      if end < |suffix| {
        AppendsFew(surface, id, suffix[end..], last);
      }
    }
  }

  lemma AppendsOfNothing(surface: Id, id: Id, last: bool)
    ensures Valid([]) && |Appends(surface, id, [], last)| <= 1
  {
  }

  lemma AppendsLength(surface: Id, id: Id, suffix: seq<Byte>, last: bool)
    requires Valid(suffix) && suffix != []
    ensures var end := Chunking.FirstCut(suffix, MAX_DELTA);
            && 0 < end && (end == |suffix| || end >= PIECE) && Valid(suffix[end..])
            && |Appends(surface, id, suffix, last)| ==
               if end == |suffix| then 1 else 1 + |Appends(surface, id, suffix[end..], last)|
  {
    hide Valid;
    Chunking.FirstCutBounds(suffix, MAX_DELTA);
  }

  function Length(c: Content, id: Id): (r: nat) {
    if TextOf(c, id).Some? then |TextOf(c, id).value| else 0
  }

  ghost function Lengths(c: Content, order: seq<Id>): (r: nat) {
    if order == [] then 0 else Length(c, order[0]) + Lengths(c, order[1..])
  }

  lemma TodoFew(plan: Plan, view: View, id: Id)
    requires id in plan.streams && Todo(plan, view, id).Ok?
    ensures PIECE * |Todo(plan, view, id).value| <= Length(plan.target, id) + PIECE
  {
    if view.streams[id] == Open {
      var suffix := TextOf(plan.target, id).value[|TextOf(view.snapshot, id).value|..];
      AppendsFew(view.snapshot.surface, id, suffix, plan.streams[id]);
    }
  }

  lemma {:induction false} TodoAllFew(plan: Plan, view: View, order: seq<Id>)
    requires (forall id :: id in order ==> id in plan.streams) && TodoAll(plan, view, order).Ok?
    ensures PIECE * |TodoAll(plan, view, order).value| <= Lengths(plan.target, order) + PIECE * |order|
  {
    hide Todo, Length;
    if order != [] {
      TodoCons(plan, view, order);
      TodoFew(plan, view, order[0]);
      TodoAllFew(plan, view, order[1..]);
    }
  }

  // All texts together fit into the snapshot

  lemma {:induction false} Cleared(blocks: seq<Block>, p: nat)
    requires p < |blocks| && blocks[p].text.Some?
    ensures var t := blocks[p].text.value;
            BlocksSize(blocks[p := blocks[p].(text := Some(t.(text := [])))]) + |t.text| <= BlocksSize(blocks)
  {
    var t := blocks[p].text.value;
    var c := blocks[p := blocks[p].(text := Some(t.(text := [])))];
    if p == 0 {
      EscapedPrefix([], t.text);
      assert c[1..] == blocks[1..];
    } else {
      Cleared(blocks[1..], p - 1);
      assert c[1..] == blocks[1..][p - 1 := blocks[p].(text := Some(t.(text := [])))];
    }
  }

  lemma {:induction false} LengthsSame(c: Content, d: Content, order: seq<Id>)
    requires forall id :: id in order ==> TextOf(d, id) == TextOf(c, id)
    ensures Lengths(d, order) == Lengths(c, order)
  {
    if order != [] {
      LengthsSame(c, d, order[1..]);
    }
  }

  lemma {:induction false} LengthsFit(c: Content, order: seq<Id>)
    requires Distinct(order)
    ensures Lengths(c, order) <= BlocksSize(c.blocks)
    decreases |order|
  {
    if order != [] {
      var id := order[0];
      var d := WithText(c, id, []);
      forall x | x in order[1..] ensures TextOf(d, x) == TextOf(c, x) {
        TextAfter(c, id, [], x);
      }
      LengthsSame(c, d, order[1..]);
      LengthsFit(d, order[1..]);
      if TextOf(c, id).Some? {
        Cleared(c.blocks, Position(c.blocks, id));
      }
    }
  }

  lemma {:induction false} DistinctSize(s: seq<Id>)
    requires Distinct(s)
    ensures |set x | x in s| == |s|
  {
    if s != [] {
      DistinctSize(s[1..]);
      assert (set x | x in s) == {s[0]} + set x | x in s[1..];
    }
  }

  lemma {:induction false} IdsFew(blocks: seq<Block>)
    ensures |set b | b in blocks :: b.id| <= |blocks|
  {
    if blocks != [] {
      IdsFew(blocks[1..]);
      assert (set b | b in blocks :: b.id) == {blocks[0].id} + set b | b in blocks[1..] :: b.id;
    }
  }

  lemma StreamsFew(c: Content, order: seq<Id>)
    requires Distinct(order) && forall id :: id in order ==> TextOf(c, id).Some?
    ensures |order| <= |c.blocks|
  {
    DistinctSize(order);
    IdsFew(c.blocks);
    var ids := set b | b in c.blocks :: b.id;
    forall id | id in order ensures id in ids {
      assert c.blocks[Position(c.blocks, id)] in c.blocks;
    }
    Fewer((set x | x in order), ids);
  }

  /** A re-derived plan always fits into one batch. */
  lemma BatchFits(plan: Plan, s: State, order: seq<Id>)
    requires OnTrack(plan, s, order)
    ensures |Left(plan, s, order)| <= 70 < MAX_BATCH
  {
    hide Adopt, Todo, TodoAll, Begins, Lengths, Consistent, Accepted, StreamsOf;
    TodoAllFew(plan, ViewOf(s), order);
    TargetFits(s.content.value, plan.target, order);
    PiecesFew(|TodoAll(plan, ViewOf(s), order).value|, Lengths(plan.target, order), |order|);
  }

  lemma TargetFits(c: Content, target: Content, order: seq<Id>)
    requires Accepted(target) && Distinct(order) && Begins(c, target, order)
    ensures Lengths(target, order) <= MAX_BYTES && |order| <= MAX_BLOCKS
  {
    hide BlocksSize, Lengths, Sound;
    LengthsFit(target, order);
    StreamsFew(target, order);
  }

  lemma PiecesFew(n: nat, bytes: nat, streams: nat)
    requires PIECE * n <= bytes + PIECE * streams && bytes <= MAX_BYTES && streams <= MAX_BLOCKS
    ensures n <= 68
  {
  }
}

/**
 A durable reply goal and the commands that still lead to it from whatever state the surface
 is found in.
 */
module SurfacePlan {
  import opened Basics
  import opened Utf8
  import opened Surface
  import Chunking

  datatype Stream = Open | Final
  datatype View = View(snapshot: Content, hash: Hash, closed: bool, streams: map<Id, Stream>)
  datatype Plan = Plan(target: Content, closed: bool, streams: map<Id, bool>)
  datatype Error = BadState | Unauthorized | RefusedClosed | RefusedStale

  type Commands = Result<seq<Command>, Error>

  // The view of a state

  ghost function StreamsOf(s: State): (r: map<Id, Stream>)
    requires s.content.Some?
  {
    var blocks := s.content.value.blocks;
    map b | b in (set x | x in blocks && x.text.Some? :: x.id) ::
      var t := blocks[Position(blocks, b)].text;
      if s.closed || (b in s.finals && t == Some(s.finals[b])) then Final else Open
  }

  ghost function ViewOf(s: State): (r: View)
    requires s.content.Some?
  {
    View(s.content.value, Hash(s.content.value), s.closed, StreamsOf(s))
  }

  // Re-derivation

  ghost predicate Lists(order: seq<Id>, streams: map<Id, bool>) {
    && (forall i, j :: 0 <= i < j < |order| ==> order[i] != order[j])
    && (forall id :: id in order <==> id in streams)
  }

  /** The first thing that makes the streams of `content` no beginnings of the target's. */
  function Obstacle(target: Content, content: Content, order: seq<Id>): (r: Option<Error>) {
    if order == [] then None else
      var wanted, current := TextOf(target, order[0]), TextOf(content, order[0]);
      if wanted == None || current == None then Some(BadState)
      else if !(current.value <= wanted.value) then Some(RefusedStale)
      else Obstacle(target, content, order[1..])
  }

  /** `content` with the target's texts for the listed streams. */
  function Adopt(content: Content, target: Content, order: seq<Id>): (r: Content)
    decreases |order|
  {
    if order == [] then content else
      match TextOf(target, order[0])
      case None => Adopt(content, target, order[1..])
      case Some(wanted) => Adopt(WithText(content, order[0], wanted), target, order[1..])
  }

  /** The appends of one stream; an empty final append when only the end is missing. */
  ghost function Appends(surface: Id, id: Id, suffix: seq<Byte>, last: bool): (r: seq<Command>)
    requires Valid(suffix)
    decreases |suffix|
  {
    if suffix == [] then (if last then [Append(surface, id, [], true)] else []) else
      Chunking.FirstCutBounds(suffix, MAX_DELTA);
      var end := Chunking.FirstCut(suffix, MAX_DELTA);
      if end == |suffix| then [Append(surface, id, suffix, last)]
      else [Append(surface, id, suffix[..end], false)] + Appends(surface, id, suffix[end..], last)
  }

  ghost function Todo(plan: Plan, view: View, id: Id): (r: Commands)
    requires id in plan.streams
  {
    var wanted, current := TextOf(plan.target, id), TextOf(view.snapshot, id);
    if wanted == None || current == None || !(current.value <= wanted.value) || id !in view.streams then Err(BadState)
    else
      var suffix := wanted.value[|current.value|..];
      if view.streams[id] == Final then (if suffix == [] then Ok([]) else Err(RefusedClosed))
      else if !Valid(suffix) then Err(BadState)
      else Ok(Appends(view.snapshot.surface, id, suffix, plan.streams[id]))
  }

  ghost function TodoAll(plan: Plan, view: View, order: seq<Id>): (r: Commands)
    requires forall id :: id in order ==> id in plan.streams
  {
    if order == [] then Ok([]) else Join(Todo(plan, view, order[0]), TodoAll(plan, view, order[1..]))
  }

  function Join(first: Commands, rest: Commands): (r: Commands) {
    if first.Err? then first else if rest.Err? then rest else Ok(first.value + rest.value)
  }

  /** The target as it stands before its fallback text is set. */
  function Middle(plan: Plan, fallback: seq<Byte>): (r: Content) {
    plan.target.(fallback := fallback)
  }

  function Tail(plan: Plan, view: View): (r: seq<Command>) {
    var c := view.snapshot;
    (if c.fallback != plan.target.fallback
     then [Patch(c.surface, Hash(Middle(plan, c.fallback)), [SetFallback(plan.target.fallback)], Hash(plan.target))]
     else [])
    + (if plan.closed && !view.closed then [Close(c.surface)] else [])
  }

  ghost function Rederive(plan: Plan, view: View, order: seq<Id>): (r: Commands)
    requires Lists(order, plan.streams)
  {
    var c := view.snapshot;
    if view.hash != Hash(c) then Err(BadState)
    else if c.surface != plan.target.surface then Err(Unauthorized)
    else if view.closed && (!plan.closed || c != plan.target) then Err(RefusedClosed)
    else
      match Obstacle(plan.target, c, order)
      case Some(e) => Err(e)
      case None =>
        if Adopt(c.(fallback := plan.target.fallback), plan.target, order) != plan.target then Err(RefusedStale)
        else
          match TodoAll(plan, view, order)
          case Err(e) => Err(e)
          case Ok(commands) => Ok(commands + Tail(plan, view))
  }
}

/**
 The shared trust state of a federation node: readers take a snapshot of the published value at
 any time; a writer copies it under a gate, changes the copy, stores it, and publishes it. Threads
 interleave freely, one step at a time.
 */
module TrustState {
  import opened Basics

  type Thread = nat
  type Value = nat

  /** Where a writer stands. `base` is the value it started from. */
  datatype Stand =
    | Entered
    | Copied(base: Value)
    | Changed(base: Value, next: Value)
    | Stored(base: Value, next: Value)

  datatype Publication = Publication(writer: Thread, base: Value, next: Value)

  /** A snapshot, and how many publications there were when it was taken. */
  datatype Observation = Observation(value: Value, count: nat)

  datatype State = State(
    current: Value,
    store: Option<Value>,
    gate: Option<Thread>,
    poisoned: bool,
    writers: map<Thread, Stand>,
    published: seq<Publication>,
    observed: seq<Observation>)

  datatype Step =
    | Enter(writer: Thread)
    | Copy(writer: Thread)
    | Change(writer: Thread, next: Value)
    | Save(writer: Thread)
    | Publish(writer: Thread)
    | Fail(writer: Thread)
    | Panic(writer: Thread)
    | Read

  function Initial(value: Value): (r: State) {
    State(value, None, None, false, map[], [], [])
  }

  function Leave(s: State, w: Thread): (r: State) {
    s.(gate := None, writers := s.writers - {w})
  }

  /** One step of one thread; `None` when the thread cannot take it. */
  function Next(s: State, step: Step): (r: Option<State>) {
    match step
    case Enter(w) =>
      if s.gate == None && !s.poisoned && w !in s.writers
      then Some(s.(gate := Some(w), writers := s.writers[w := Entered])) else None
    case Copy(w) =>
      if w in s.writers && s.writers[w] == Entered then Some(s.(writers := s.writers[w := Copied(s.current)])) else None
    case Change(w, next) =>
      if w in s.writers && s.writers[w].Copied?
      then Some(s.(writers := s.writers[w := Changed(s.writers[w].base, next)])) else None
    case Save(w) =>
      if w in s.writers && s.writers[w].Changed?
      then Some(s.(store := Some(s.writers[w].next),
                   writers := s.writers[w := Stored(s.writers[w].base, s.writers[w].next)])) else None
    case Publish(w) =>
      if w in s.writers && s.writers[w].Stored?
      then
        var p := Publication(w, s.writers[w].base, s.writers[w].next);
        Some(Leave(s, w).(current := p.next, published := s.published + [p]))
      else None
    case Fail(w) => if w in s.writers then Some(Leave(s, w)) else None
    case Panic(w) => if w in s.writers && s.writers[w].Copied? then Some(Leave(s, w).(poisoned := true)) else None
    case Read => Some(s.(observed := s.observed + [Observation(s.current, |s.published|)]))
  }

  ghost function Run(value: Value, steps: seq<Step>): (r: Option<State>) {
    if steps == [] then Some(Initial(value)) else
      var before := Run(value, steps[..|steps| - 1]);
      if before == None then None else Next(before.value, steps[|steps| - 1])
  }

  /** The value after the first `n` publications. */
  ghost function After(value: Value, published: seq<Publication>, n: nat): (r: Value)
    requires n <= |published|
  {
    if n == 0 then value else published[n - 1].next
  }

  /** Each publication starts from what the one before it left. */
  ghost predicate Chained(value: Value, published: seq<Publication>) {
    forall i :: 0 <= i < |published| ==> published[i].base == After(value, published, i)
  }

  /** Every snapshot is the value its moment had published, and later snapshots are not older. */
  ghost predicate InTime(value: Value, published: seq<Publication>, observed: seq<Observation>) {
    && (forall i :: 0 <= i < |observed| ==>
          observed[i].count <= |published| && observed[i].value == After(value, published, observed[i].count))
    && (forall i, j :: 0 <= i < j < |observed| ==> observed[i].count <= observed[j].count)
  }

  ghost predicate Sound(value: Value, s: State) {
    && Chained(value, s.published)
    && s.current == After(value, s.published, |s.published|)
    && (forall w :: w in s.writers <==> s.gate == Some(w))
    && (forall w :: w in s.writers && !s.writers[w].Entered? ==> s.writers[w].base == s.current)
    && (forall w :: w in s.writers && s.writers[w].Stored? ==> s.store == Some(s.writers[w].next))
    && InTime(value, s.published, s.observed)
  }

  lemma PublishKeeps(value: Value, s: State, w: Thread)
    requires Sound(value, s) && Next(s, Publish(w)).Some?
    ensures Sound(value, Next(s, Publish(w)).value)
  {
    var t := Next(s, Publish(w)).value;
    forall n | 0 <= n <= |s.published| ensures After(value, t.published, n) == After(value, s.published, n) {
    }
  }

  lemma NextKeeps(value: Value, s: State, step: Step)
    requires Sound(value, s) && Next(s, step).Some?
    ensures Sound(value, Next(s, step).value)
  {
    match step
    case Publish(w) => PublishKeeps(value, s, w);
    case _ =>
  }

  /**
   Under any interleaving: the published values are the results of successive updates, each made from
   the value before it; readers see them in that order.
   */
  lemma {:induction false} RunSound(value: Value, steps: seq<Step>)
    requires Run(value, steps).Some?
    ensures Sound(value, Run(value, steps).value)
  {
    if steps != [] {
      RunSound(value, steps[..|steps| - 1]);
      NextKeeps(value, Run(value, steps[..|steps| - 1]).value, steps[|steps| - 1]);
    }
  }

  /** What is published was stored first, and was computed from what is replaced: no update is lost. */
  lemma PublishedWasStored(value: Value, s: State, w: Thread)
    requires Sound(value, s) && Next(s, Publish(w)).Some?
    ensures var t := Next(s, Publish(w)).value;
            && s.store == Some(t.current) && s.gate == Some(w)
            && t.published[|s.published|] == Publication(w, s.current, t.current)
  {
  }

  /** Only publishing changes what readers see: a failed update, a failed write or a panic does not. */
  lemma OthersKeepCurrent(s: State, step: Step)
    requires Next(s, step).Some? && !step.Publish?
    ensures Next(s, step).value.current == s.current && Next(s, step).value.published == s.published
  {
  }
}

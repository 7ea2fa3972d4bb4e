/**
 The host's bridges against the engine, on values: what couples them, what each change keeps,
 exactly when a bridge stands beside an idle engine, and exactly which bridges clean-up misses.
 */
module ApprovalBridges {
  import opened Basics
  import opened ApprovalTrace
  import opened Prx

  type Bridges = map<Conversation, Bridge>

  const MAX_APPROVALS: nat := 64

  /** How a host operation ends: an error either stops the host or does not. */
  datatype Ending = Fine | Fails | Stops

  /** A bridge and its engine: before the decision the engine holds that very decision and runs
      nothing; afterwards it runs the turn or has its result. */
  ghost predicate Coupled(e: Engine, c: Conversation, b: Bridge) {
    if b.phase == Resuming then c in e.jobs || c in e.completed
    else c !in e.jobs && c in e.pending && e.pending[c] == b.decision
  }

  /** A lost bridge has not been decided, and the engine holds no decision it has already told of. */
  ghost predicate Uncoupled(e: Engine, c: Conversation, b: Bridge) {
    b.phase != Resuming && (c in e.pending ==> c in e.completed)
  }

  ghost predicate BridgeOk(e: Engine, c: Conversation, b: Bridge, lost: bool) {
    if lost then Uncoupled(e, c, b) else Coupled(e, c, b)
  }

  /** All bridges but perhaps that of `except`. */
  ghost predicate BridgesBut(e: Engine, a: Bridges, lost: set<Conversation>, except: set<Conversation>) {
    lost <= a.Keys && forall c :: c in a && c !in except ==> BridgeOk(e, c, a[c], c in lost)
  }

  ghost predicate BridgesOk(e: Engine, a: Bridges, lost: set<Conversation>) {
    BridgesBut(e, a, lost, {})
  }

  /** The same bridge, perhaps with an earlier deadline. */
  predicate Capped(proposed: Bridge, b: Bridge) {
    b == proposed.(deadline := b.deadline) && b.deadline <= proposed.deadline
  }

  /** The record of one bridge: outside `open` nothing was granted before it resumes, and the lost
      bridges are those the record tells of. */
  ghost predicate TracedAt(s: Step, b: Bridge, lost: bool, open: bool) {
    Capped(s.bridge, b) && (!open ==> (b.phase != Resuming ==> !s.granted && s.tries == 0) && lost == s.lost)
  }

  ghost predicate Traced(trace: seq<Note>, a: Bridges, lost: set<Conversation>, open: set<Conversation>) {
    && Run(trace).Some? && Run(trace).value.Keys == a.Keys
    && forall c :: c in a ==> TracedAt(Run(trace).value[c], a[c], c in lost, c in open)
  }

  // When a bridge stands beside an idle engine

  /**
   In every state a host step leaves behind: a bridge's engine is idle exactly when the record
   tells that its decision was lost and no other turn is under way.
   */
  lemma IdleIff(e: Engine, a: Bridges, lost: set<Conversation>, trace: seq<Note>, c: Conversation)
    requires BridgesOk(e, a, lost) && Traced(trace, a, lost, {}) && c in a
    ensures !IsBusy(e, c) <==> Lost(trace, c) && c !in e.jobs && c !in e.completed
    ensures !Lost(trace, c) ==> IsBusy(e, c) && c in Active(e)
  {
    hide Run, Lost;
    LostIff(trace, c);
    assert c !in {} && BridgeOk(e, c, a[c], c in lost);
  }

  /** If the record tells of no loss, every bridge has a busy engine. */
  lemma NoLossAllBusy(e: Engine, a: Bridges, lost: set<Conversation>, trace: seq<Note>)
    requires BridgesOk(e, a, lost) && Traced(trace, a, lost, {})
    requires forall i, c :: 0 <= i < |trace| ==> !Loses(trace[i], c)
    ensures forall c :: c in a ==> IsBusy(e, c) && c in Active(e)
  {
    forall c | c in a ensures IsBusy(e, c) && c in Active(e) {
      IdleIff(e, a, lost, trace, c);
    }
  }

  // Opening a bridge

  type Digest = s: string | |s| == 43 witness seq(43, _ => 'A')
  type Label = s: string | s != "" && Bytes(s) <= 96 witness "x"

  /** What is sent back, or that the conversation is gone. */
  datatype Delivery = Gone | Sent(ending: Ending)

  /** Answers on the way to a bridge: the requests that register it, whether a fresh approval is
      required, the ids, the engine's answer to a decline, the proposal, and the reply sent. */
  datatype Setup = Setup(
    asked: Ending,
    required: bool,
    digest: Digest,
    tool: Label,
    approval: string,
    requested: Option<string>,
    told: Decided,
    proposed: Ending,
    reply: Delivery)

  predicate Short(s: string) {
    s != "" && Bytes(s) <= 1024
  }

  function GrantOf(requested: Option<string>, approval: string): (r: string) {
    if requested.Some? && requested.value != "" && Bytes(requested.value) <= 256 then requested.value
    else "grant_" + approval
  }

  function NewBridge(message: string, decision: string, deadline: nat, s: Setup): (r: Bridge)
    ensures r.phase == Proposed && r.decision == decision
  {
    Bridge(message, decision, "prx-" + s.digest, "approval", s.tool, GrantOf(s.requested, s.approval), s.approval,
           deadline, Proposed)
  }

  datatype Started = Started(engine: Engine, approvals: Bridges, begun: bool, ending: Ending)

  /** An approval the engine asks for, where there is no bridge yet, up to the first checkpoint. */
  function Start(e: Engine, a: Bridges, c: Conversation, message: string, decision: string, deadline: nat,
                 s: Setup): (r: Started) {
    if |a| >= MAX_APPROVALS then Started(e, a, true, Fails)
    else if !s.asked.Fine? then Started(e, a, true, s.asked)
    else if !s.required then Started(Declined(e, c, decision), a, false, Fine)
    else if !Short(s.approval) then Started(e, a, true, Fails)
    else Started(e, a[c := NewBridge(message, decision, deadline, s)], true, Fine)
  }

  // What can be stored

  /** Everything of a bridge that a restart looks at, except the length of its grant. */
  predicate Fits(c: Conversation, b: Bridge) {
    && Short(c) && Short(b.message) && Short(b.decision) && Short(b.task) && Short(b.step) && Short(b.tool)
    && Short(b.approval) && b.grant != ""
  }

  ghost predicate Fit(a: Bridges) {
    |a| <= MAX_APPROVALS && forall c :: c in a ==> Fits(c, a[c])
  }

  /** The check a restart makes on the stored bridges. */
  predicate Storable(a: Bridges) {
    |a| <= MAX_APPROVALS && forall c :: c in a ==> Fits(c, a[c]) && Bytes(a[c].grant) <= 1024
  }

  lemma {:induction false} BytesJoin(s: string, t: string)
    ensures Bytes(s + t) == Bytes(s) + Bytes(t)
  {
    if s == "" {
      assert s + t == t;
    } else {
      BytesJoin(s[1..], t);
      assert (s + t)[1..] == s[1..] + t;
    }
  }

  lemma {:induction false} AsciiBytes(s: string)
    requires forall i :: 0 <= i < |s| ==> s[i] < '\U{80}'
    ensures Bytes(s) == |s|
  {
    if s != "" {
      AsciiBytes(s[1..]);
    }
  }

  /** A grant made up from the approval is stored but not restored exactly when that id is longer
      than 1018 bytes. */
  lemma GrantFits(requested: Option<string>, approval: string)
    requires Short(approval)
    ensures Bytes(GrantOf(requested, approval)) <= 1024 <==>
            (requested.Some? && requested.value != "" && Bytes(requested.value) <= 256) || Bytes(approval) <= 1018
  {
    BytesJoin("grant_", approval);
    AsciiBytes("grant_");
  }

  lemma {:induction false} BytesMost(s: string)
    ensures Bytes(s) <= 4 * |s|
  {
    if s != "" {
      BytesMost(s[1..]);
    }
  }

  lemma NewFits(c: Conversation, message: string, decision: string, deadline: nat, s: Setup)
    requires ValidId(c) && ValidId(message) && ValidSegment(decision) && Short(s.approval)
    ensures Fits(c, NewBridge(message, decision, deadline, s))
  {
    BytesMost("prx-" + s.digest);
    BytesMost("approval");
  }

  /** A bridge that opens and is saved, and that no restart accepts. */
  lemma UnstorableGrant() returns (s: Setup)
    ensures var a := Start(EMPTY, map[], "c", "m", "d", 1, s).approvals;
            "c" in a && Fits("c", a["c"]) && !Storable(a)
  {
    var id := seq(1024, _ => 'a');
    AsciiBytes(id);
    var digest: Digest := seq(43, _ => 'A');
    AsciiBytes("x");
    s := Setup(Fine, true, digest, "x", id, None, Done, Fine, Sent(Fine));
    GrantFits(None, id);
    AsciiBytes("c");
    AsciiBytes("m");
    AsciiBytes("d");
    NewFits("c", "m", "d", 1, s);
  }

  // The two ways to lose a decision, and what clean-up makes of it

  /** A denial always leaves the engine idle, so the bridge is idle exactly when it stays. */
  lemma DeniedIdle(e: Engine, a: Bridges, lost: set<Conversation>, c: Conversation, max: nat)
    requires EngineOk(e, max) && BridgesOk(e, a, lost) && c in a && c !in lost
    requires a[c].phase == AwaitingDecision && c !in e.completed
    ensures IsBusy(e, c) && !IsBusy(Declined(e, c, a[c].decision), c)
  {
    assert CellOk(e, c);
    assert c !in {} && BridgeOk(e, c, a[c], c in lost);
  }

  const ASKED := Question("t", "", "e", "d", 9)
  const HELD := Engine(map["c" := "s"], map[], map["c" := Approval("m", "d", ASKED)], map["c" := "d"])
  const WAITING := Engine(map["c" := "s"], map[], map[], map["c" := "d"])
  const BRIDGE := Bridge("m", "d", "t", "p", "x", "g", "i", 9, AwaitingDecision)

  lemma Letters()
    ensures ValidId("c") && ValidId("m") && ValidSegment("d") && ValidSegment("s") && ValidQuestion(ASKED)
  {
    AsciiBytes("c");
    AsciiBytes("m");
    AsciiBytes("d");
    AsciiBytes("s");
    AsciiBytes("t");
    AsciiBytes("e");
  }

  lemma HeldOk()
    ensures EngineOk(HELD, 1) && EngineOk(WAITING, 1)
    ensures BridgesOk(WAITING, map["c" := BRIDGE], {})
  {
    Letters();
    assert |map["c" := "s"]| == 1;
    forall c ensures CellOk(HELD, c) && CellOk(WAITING, c) {
    }
  }

  /** The human denies, the engine cannot be reached, the bridge stays and its engine is idle. */
  lemma DenialLost() returns (after: Engine)
    ensures EngineOk(WAITING, 1) && BridgesOk(WAITING, map["c" := BRIDGE], {}) && IsBusy(WAITING, "c")
    ensures after == Declined(WAITING, "c", BRIDGE.decision) && !IsBusy(after, "c")
    ensures Unreached(DeclineAnswer(WAITING, "c", BRIDGE.decision, Undone(Timeout)))
  {
    Letters();
    HeldOk();
    after := Declined(WAITING, "c", BRIDGE.decision);
    assert after.pending == map[];
  }

  /**
   A bridge opens without its decision. A standing grant makes the host decline the decision, the
   reply fails so that the event stays, and when the event comes again a fresh approval is asked for.
   */
  lemma OpenedWithoutDecision(standing: Setup, anew: Setup) returns (first: Started, second: Started, after: Engine)
    requires standing.asked.Fine? && !standing.required
    requires anew.asked.Fine? && anew.required && Short(anew.approval)
    ensures EngineOk(HELD, 1)
    ensures first == Start(HELD, map[], "c", "m", "d", ASKED.deadline, standing)
    ensures !first.begun && first.engine.completed == HELD.completed
    ensures second == Start(first.engine, first.approvals, "c", "m", "d", ASKED.deadline, anew)
    ensures second.begun && second.ending.Fine? && after == WithoutCompleted(second.engine, "c")
    ensures "c" in second.approvals && !IsBusy(after, "c")
  {
    Letters();
    HeldOk();
    first := Start(HELD, map[], "c", "m", "d", ASKED.deadline, standing);
    second := Start(first.engine, first.approvals, "c", "m", "d", ASKED.deadline, anew);
    after := WithoutCompleted(second.engine, "c");
    assert first.engine.pending == map[] && after.completed == map[];
  }

  /** Clean-up walks over the active conversations, so it reaches a bridge exactly when the engine
      still has the conversation's session. */
  lemma ReachedIff(e: Engine, c: Conversation, max: nat)
    requires EngineOk(e, max)
    ensures c in Active(e) <==> c in e.sessions
  {
    assert CellOk(e, c);
  }

  /**
   A bridge no clean-up reaches: its denial was lost, then a turn is tried on its session, which the
   engine does not know, and no new session can be made.
   */
  lemma BeyondCleanUp(failing: Failing) returns (denied: Engine, after: Engine)
    ensures EngineOk(WAITING, 1) && BridgesOk(WAITING, map["c" := BRIDGE], {})
    ensures denied == Declined(WAITING, "c", BRIDGE.decision) && !IsBusy(denied, "c")
    ensures after == Submitted(denied, "c", "n", 9, 1,
                               TurnAnswers(NotMade(failing), NotFound, NotMade(failing), Other)).0
    ensures "c" !in Active(after) && BridgesOk(after, map["c" := BRIDGE], {"c"})
  {
    Letters();
    HeldOk();
    denied := Declined(WAITING, "c", BRIDGE.decision);
    var without := WithoutSession(denied, "c");
    assert without.sessions == map[] && without.pending == map[] && |without.sessions| == 0;
    after := Submitted(denied, "c", "n", 9, 1, TurnAnswers(NotMade(failing), NotFound, NotMade(failing), Other)).0;
    assert after == without;
  }

  // What changes keep

  lemma BridgesElsewhere(e: Engine, f: Engine, a: Bridges, lost: set<Conversation>, c: Conversation)
    requires BridgesBut(e, a, lost, {c}) && OnlyAt(e, f, c)
    ensures BridgesBut(f, a, lost, {c})
  {
    forall d | d in a && d !in {c} ensures BridgeOk(f, d, a[d], d in lost) {
      assert SameAt(e, f, d);
      assert BridgeOk(e, d, a[d], d in lost);
    }
  }

  lemma Weaken(e: Engine, a: Bridges, lost: set<Conversation>, trace: seq<Note>, c: Conversation)
    requires BridgesOk(e, a, lost) && Traced(trace, a, lost, {})
    ensures BridgesBut(e, a, lost, {c}) && Traced(trace, a, lost, {c})
  {
    hide BridgeOk, Run;
    forall d | d in a && d !in {c} ensures BridgeOk(e, d, a[d], d in lost) {
      assert d !in {};
    }
  }

  lemma DroppedTraced(trace: seq<Note>, a: Bridges, lost: set<Conversation>, c: Conversation)
    requires Traced(trace, a, lost, {c})
    ensures c in a ==> Run(trace).Some? && Next(Run(trace).value, Drops(c)).Some?
    ensures Traced(if c in a then trace + [Drops(c)] else trace, a - {c}, lost - {c}, {})
  {
    hide Run;
    if c in a {
      RunMore(trace, Drops(c));
    }
  }

  lemma DroppedBridges(e: Engine, a: Bridges, lost: set<Conversation>, c: Conversation)
    requires BridgesBut(e, a, lost, {c})
    ensures BridgesOk(e, a - {c}, lost - {c})
  {
    hide BridgeOk;
    var b, l := a - {c}, lost - {c};
    forall d | d in b ensures BridgeOk(e, d, b[d], d in l) {
      assert d in a && d !in {c};
    }
  }

  /** One job of several under way has ended. */
  lemma PolledOne(s: Engine, e: Engine, c: Conversation, event: Completed, todo: set<Conversation>)
    requires c in todo && c in e.jobs && event.message == e.jobs[c].message && OnlyAt(e, Finished(e, c, event), c)
    requires forall d :: if d in todo then SameAt(s, e, d) else PolledAt(s, e, d)
    ensures var f := Finished(e, c, event);
            forall d :: if d in todo - {c} then SameAt(s, f, d) else PolledAt(s, f, d)
  {
    var f := Finished(e, c, event);
    FinishedPolled(s, e, c, event);
    hide Finished;
    forall d ensures if d in todo - {c} then SameAt(s, f, d) else PolledAt(s, f, d) {
      assert if d in todo then SameAt(s, e, d) else PolledAt(s, e, d);
      if d != c {
        assert SameAt(e, f, d);
      }
    }
  }

  lemma FinishedPolled(s: Engine, e: Engine, c: Conversation, event: Completed)
    requires SameAt(s, e, c) && c in e.jobs && event.message == e.jobs[c].message
    ensures PolledAt(s, Finished(e, c, event), c)
  {
  }

  lemma OpenedTraced(trace: seq<Note>, a: Bridges, lost: set<Conversation>, c: Conversation, b: Bridge, held: bool)
    requires Traced(trace, a, lost, {}) && lost <= a.Keys && c !in a && b.phase == Proposed
    ensures Run(trace).Some? && Next(Run(trace).value, Proposes(c, b, held)).Some?
    ensures Traced(trace + [Proposes(c, b, held)], a[c := b], if held then lost else lost + {c}, {})
  {
    RunMore(trace, Proposes(c, b, held));
  }

  ghost predicate Holds(e: Engine, c: Conversation, decision: string) {
    c in e.pending && e.pending[c] == decision
  }

  lemma OpenedBridges(e: Engine, a: Bridges, lost: set<Conversation>, c: Conversation, b: Bridge)
    requires BridgesOk(e, a, lost) && c !in a && c !in e.jobs && c in e.completed && b.phase == Proposed
    ensures BridgesOk(e, a[c := b], if Holds(e, c, b.decision) then lost else lost + {c})
  {
    var m := a[c := b];
    var l := if Holds(e, c, b.decision) then lost else lost + {c};
    forall d | d in m ensures BridgeOk(e, d, m[d], d in l) {
      assert d != c ==> d in a && d !in {};
    }
  }

  lemma OpenedFit(a: Bridges, c: Conversation, b: Bridge)
    requires Fit(a) && |a| < MAX_APPROVALS && Fits(c, b)
    ensures Fit(a[c := b])
  {
    hide Fits;
    var more := a[c := b];
    assert more.Keys == a.Keys + {c};
    assert |more.Keys| <= |a.Keys| + 1;
  }

  lemma FewerFit(a: Bridges, c: Conversation)
    requires Fit(a)
    ensures Fit(a - {c})
  {
    Fewer((a - {c}).Keys, a.Keys);
  }

  lemma PhaseFit(a: Bridges, c: Conversation, phase: Phase)
    requires Fit(a) && c in a
    ensures Fit(a[c := a[c].(phase := phase)])
  {
    assert a[c := a[c].(phase := phase)].Keys == a.Keys;
  }

  lemma ConfirmedBridges(e: Engine, a: Bridges, lost: set<Conversation>, c: Conversation)
    requires BridgesOk(e, a, lost) && c in a && a[c].phase != Resuming && c !in e.jobs && Holds(e, c, a[c].decision)
    ensures BridgesOk(e, a, lost - {c})
  {
    forall d | d in a ensures BridgeOk(e, d, a[d], d in lost - {c}) {
      assert d !in {} && BridgeOk(e, d, a[d], d in lost);
    }
  }

  lemma ConfirmedTraced(trace: seq<Note>, a: Bridges, lost: set<Conversation>, c: Conversation)
    requires Traced(trace, a, lost, {}) && c in a && a[c].phase != Resuming
    ensures Run(trace).Some? && Next(Run(trace).value, Confirms(c)).Some?
    ensures Traced(trace + [Confirms(c)], a, lost - {c}, {})
  {
    RunMore(trace, Confirms(c));
  }

  lemma GrantedTraced(trace: seq<Note>, a: Bridges, lost: set<Conversation>, c: Conversation)
    requires Traced(trace, a, lost, {c}) && c in a && a[c].phase == AwaitingDecision
    ensures Run(trace).Some? && c in Run(trace).value && Run(trace).value[c].bridge.phase == AwaitingDecision
  {
  }

  lemma TriedTraced(before: seq<Note>, after: seq<Note>, a: Bridges, lost: set<Conversation>, c: Conversation)
    requires Traced(before, a, lost, {c}) && Run(after).Some? && Run(after).value.Keys == Run(before).value.Keys
    requires c in Run(before).value
    requires forall d :: d in Run(after).value && d != c ==> Run(after).value[d] == Run(before).value[d]
    requires Run(after).value[c].bridge == Run(before).value[c].bridge
    ensures Traced(after, a, lost, {c})
  {
    hide Run;
  }

  lemma AwaitingBridges(e: Engine, a: Bridges, lost: set<Conversation>, c: Conversation)
    requires BridgesOk(e, a, lost) && c in a && a[c].phase == Proposed
    ensures BridgesOk(e, a[c := a[c].(phase := AwaitingDecision)], lost)
  {
    var b := a[c := a[c].(phase := AwaitingDecision)];
    forall d | d in b ensures BridgeOk(e, d, b[d], d in lost) {
      assert d in a && d !in {} && BridgeOk(e, d, a[d], d in lost);
    }
  }

  lemma ResumingBridges(e: Engine, a: Bridges, lost: set<Conversation>, c: Conversation)
    requires BridgesBut(e, a, lost, {c}) && c in a && c in e.jobs
    ensures BridgesOk(e, a[c := a[c].(phase := Resuming)], lost - {c})
  {
    var b := a[c := a[c].(phase := Resuming)];
    forall d | d in b ensures BridgeOk(e, d, b[d], d in lost - {c}) {
      assert d != c ==> d in a && d !in {c};
    }
  }

  lemma ResumingTraced(trace: seq<Note>, a: Bridges, lost: set<Conversation>, c: Conversation)
    requires Traced(trace, a, lost, {c}) && c in a && a[c].phase == AwaitingDecision && c in Run(trace).value
    requires Run(trace).value[c].granted && Run(trace).value[c].tries > 0
    ensures Run(trace).Some? && Next(Run(trace).value, Resumes(c)).Some?
    ensures Traced(trace + [Resumes(c)], a[c := a[c].(phase := Resuming)], lost - {c}, {})
  {
    RunMore(trace, Resumes(c));
  }

  lemma AwaitingTraced(trace: seq<Note>, a: Bridges, lost: set<Conversation>, c: Conversation)
    requires Traced(trace, a, lost, {}) && c in a && a[c].phase == Proposed
    ensures Run(trace).Some? && Next(Run(trace).value, Awaits(c)).Some?
    ensures Traced(trace + [Awaits(c)], a[c := a[c].(phase := AwaitingDecision)], lost, {})
  {
    RunMore(trace, Awaits(c));
  }

  lemma DeniedTraced(trace: seq<Note>, a: Bridges, lost: set<Conversation>, c: Conversation, now: nat, row: Row,
                     reached: bool)
    requires Traced(trace, a, lost, {}) && c in a && a[c].phase == AwaitingDecision
    requires now < a[c].deadline && Matches(row, a[c]) && !row.approved
    ensures Run(trace).Some? && Next(Run(trace).value, Denies(c, now, row, reached)).Some?
    ensures !reached ==> Traced(trace + [Denies(c, now, row, reached)], a, lost + {c}, {})
    ensures Traced(trace + [Denies(c, now, row, reached)], a, lost, {c})
  {
    hide Run;
    RunMore(trace, Denies(c, now, row, reached));
    var steps, after := Run(trace).value, Run(trace + [Denies(c, now, row, reached)]).value;
    assert TracedAt(steps[c], a[c], c in lost, false);
    assert after == steps[c := steps[c].(lost := !reached)];
  }

  /** A denial that did not reach the engine leaves the bridge lost. */
  lemma DeniedBridges(e: Engine, a: Bridges, lost: set<Conversation>, c: Conversation)
    requires BridgesBut(e, a, lost, {c}) && c in a && a[c].phase == AwaitingDecision && c !in e.pending
    ensures BridgesOk(e, a, lost + {c})
  {
    forall d | d in a ensures BridgeOk(e, d, a[d], d in lost + {c}) {
      assert d != c ==> d !in {c};
    }
  }

  /** What polling does to one conversation. */
  ghost predicate PolledAt(e: Engine, f: Engine, c: Conversation) {
    || SameAt(e, f, c)
    || (c in e.jobs && c !in f.jobs && c in f.completed && f.completed[c].message == e.jobs[c].message
        && (f.completed[c].Approval? ==> Holds(f, c, f.completed[c].decision)))
  }

  lemma PollKeepsBridges(e: Engine, f: Engine, a: Bridges, lost: set<Conversation>)
    requires BridgesOk(e, a, lost) && forall c :: PolledAt(e, f, c)
    ensures BridgesOk(f, a, lost)
  {
    forall c | c in a ensures BridgeOk(f, c, a[c], c in lost) {
      assert PolledAt(e, f, c);
      assert c !in {} && BridgeOk(e, c, a[c], c in lost);
    }
  }

  lemma RestoredBridges(e: Engine, f: Engine, a: Bridges, b: Bridges, lost: set<Conversation>)
    requires BridgesOk(e, a, lost) && f.jobs.Keys == e.jobs.Keys && f.completed.Keys == e.completed.Keys
    requires f.pending == e.pending
    requires b.Keys == a.Keys && forall c :: c in a ==> Capped(a[c], b[c])
    ensures BridgesOk(f, b, lost)
  {
    forall d | d in b ensures BridgeOk(f, d, b[d], d in lost) {
      assert d in a && d !in {} && BridgeOk(e, d, a[d], d in lost);
    }
  }

  lemma RestoredTrace(trace: seq<Note>, a: Bridges, b: Bridges, lost: set<Conversation>)
    requires Traced(trace, a, lost, {}) && b.Keys == a.Keys && forall c :: c in a ==> Capped(a[c], b[c])
    ensures Traced(trace, b, lost, {})
  {
    hide Run;
  }

  lemma RestoredFit(a: Bridges, b: Bridges)
    requires Fit(a) && b.Keys == a.Keys && forall c :: c in a ==> Capped(a[c], b[c])
    ensures Fit(b)
    ensures Storable(b) <==> forall c :: c in a ==> Bytes(a[c].grant) <= 1024
  {
    assert |b| == |b.Keys| == |a.Keys| == |a|;
  }

  lemma StillSame(s: Engine, e: Engine, f: Engine, c: Conversation, todo: set<Conversation>)
    requires (forall d :: d in todo ==> SameAt(s, e, d)) && OnlyAt(e, f, c)
    requires e.completed.Keys == todo && c in todo && c !in f.completed
    ensures (forall d :: d in todo - {c} ==> SameAt(s, f, d)) && f.completed.Keys == todo - {c}
  {
    forall d ensures (d in todo - {c} ==> SameAt(s, f, d)) && (d in f.completed <==> d in todo - {c}) {
      if d != c {
        assert SameAt(e, f, d);
      }
    }
  }

  lemma IdleBridge(e: Engine, a: Bridges, lost: set<Conversation>, c: Conversation)
    requires BridgesOk(e, a, lost) && !IsBusy(e, c)
    ensures c in a ==> c in lost && a[c].phase != Resuming
  {
    assert c in a ==> c !in {} && BridgeOk(e, c, a[c], c in lost);
  }

  lemma LostBridge(e: Engine, a: Bridges, lost: set<Conversation>, c: Conversation)
    requires BridgesBut(e, a, lost, {c}) && (c in a ==> c in lost && a[c].phase != Resuming && c !in e.pending)
    ensures BridgesOk(e, a, lost)
  {
    forall d | d in a ensures BridgeOk(e, d, a[d], d in lost) {
      assert d != c ==> d !in {c};
    }
  }

  lemma AcknowledgedBridges(e: Engine, f: Engine, a: Bridges, lost: set<Conversation>, c: Conversation)
    requires BridgesOk(e, a, lost) && f == WithoutCompleted(e, c)
    requires c in a ==> (a[c].phase != Resuming || c in e.jobs) && (c in lost ==> c !in e.pending)
    ensures BridgesOk(f, a, lost)
  {
    forall d | d in a ensures BridgeOk(f, d, a[d], d in lost) {
      assert d !in {} && BridgeOk(e, d, a[d], d in lost);
    }
  }

  lemma NoBridge(e: Engine, a: Bridges, lost: set<Conversation>, trace: seq<Note>, c: Conversation)
    requires BridgesBut(e, a, lost, {c}) && c !in a && Traced(trace, a, lost, {c})
    ensures BridgesOk(e, a, lost) && c !in lost && Traced(trace, a, lost, {})
  {
    forall d | d in a ensures BridgeOk(e, d, a[d], d in lost) {
      assert d !in {c};
    }
  }

  /** A change at one conversation leaves the others as they were. */
  lemma Others(e: Engine, f: Engine, a: Bridges, b: Bridges, lost: set<Conversation>, left: set<Conversation>,
               c: Conversation)
    requires OnlyAt(e, f, c) && a - {c} == b - {c} && lost - {c} == left - {c}
    ensures forall d ::
              d != c ==>
                && (d in a <==> d in b) && (d in lost <==> d in left) && (IsBusy(e, d) <==> IsBusy(f, d))
                && (d in e.sessions <==> d in f.sessions)
    ensures e.completed == map[] && c !in f.completed ==> f.completed == map[]
  {
    forall d | d != c ensures (d in a <==> d in b) && (d in lost <==> d in left) && SameAt(e, f, d) {
      assert SameAt(e, f, d);
      assert d in a <==> d in a - {c};
      assert d in b <==> d in b - {c};
      assert d in lost <==> d in lost - {c};
      assert d in left <==> d in left - {c};
    }
    if e.completed == map[] && c !in f.completed {
      forall d ensures d !in f.completed {
        assert d != c ==> SameAt(e, f, d);
      }
    }
  }

  /** What clean-up has done for one conversation while it is to walk over `todo`. */
  ghost predicate WalkedAt(e: Engine, f: Engine, a: Bridges, b: Bridges, gone: set<Conversation>,
                           todo: set<Conversation>, c: Conversation)
  {
    && (c in gone && c !in todo ==> c !in f.sessions && !IsBusy(f, c))
    && (c in gone && c !in todo && c in e.sessions ==> c !in b)
    && (c in todo || c !in gone || c !in e.sessions ==>
          (c in b <==> c in a) && (IsBusy(f, c) <==> IsBusy(e, c)))
  }

  ghost predicate Walked(e: Engine, f: Engine, a: Bridges, b: Bridges, gone: set<Conversation>,
                         todo: set<Conversation>)
  {
    forall c :: WalkedAt(e, f, a, b, gone, todo, c)
  }

  lemma AllReached(e: Engine, max: nat)
    requires EngineOk(e, max)
    ensures Active(e) == e.sessions.Keys
    ensures forall c :: c !in e.sessions ==> !IsBusy(e, c)
  {
    forall c ensures c in Active(e) <==> c in e.sessions {
      ReachedIff(e, c, max);
    }
    forall c | c !in e.sessions ensures !IsBusy(e, c) {
      assert CellOk(e, c);
    }
  }

  lemma WalkBegins(e: Engine, a: Bridges, gone: set<Conversation>, max: nat)
    requires EngineOk(e, max)
    ensures Active(e) <= e.sessions.Keys && Walked(e, e, a, a, gone, Active(e))
  {
    hide EngineOk;
    AllReached(e, max);
  }

  lemma WalkSkips(e: Engine, f: Engine, a: Bridges, b: Bridges, gone: set<Conversation>, todo: set<Conversation>,
                  c: Conversation)
    requires Walked(e, f, a, b, gone, todo) && c !in gone
    ensures Walked(e, f, a, b, gone, todo - {c})
  {
    forall d ensures WalkedAt(e, f, a, b, gone, todo - {c}, d) {
      assert WalkedAt(e, f, a, b, gone, todo, d);
    }
  }

  lemma WalkRemoves(e: Engine, f: Engine, g: Engine, a: Bridges, b: Bridges, gone: set<Conversation>,
                    todo: set<Conversation>, c: Conversation)
    requires Walked(e, f, a, b, gone, todo) && c in gone && c in e.sessions
    requires OnlyAt(f, g, c) && c !in g.sessions && !IsBusy(g, c)
    ensures Walked(e, g, a, b - {c}, gone, todo - {c})
  {
    forall d ensures WalkedAt(e, g, a, b - {c}, gone, todo - {c}, d) {
      assert WalkedAt(e, f, a, b, gone, todo, d);
      assert d != c ==> SameAt(f, g, d);
    }
  }

  lemma WalkEnds(e: Engine, f: Engine, a: Bridges, b: Bridges, gone: set<Conversation>, todo: set<Conversation>)
    requires Walked(e, f, a, b, gone, todo)
    ensures forall c :: c !in gone ==> (c in b <==> c in a) && (IsBusy(f, c) <==> IsBusy(e, c))
    ensures todo == {} ==> forall c :: c in gone ==> c !in f.sessions && !IsBusy(f, c)
    ensures todo == {} ==> forall c :: c in gone && c in a ==> (c in b <==> c !in e.sessions)
  {
    hide IsBusy;
    forall c
      ensures c !in gone ==> (c in b <==> c in a) && (IsBusy(f, c) <==> IsBusy(e, c))
      ensures todo == {} && c in gone ==> c !in f.sessions && !IsBusy(f, c)
      ensures todo == {} && c in gone && c in a ==> (c in b <==> c !in e.sessions)
    {
      assert WalkedAt(e, f, a, b, gone, todo, c);
    }
  }
}

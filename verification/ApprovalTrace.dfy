/**
 The rules of human approval, as an automaton over what happens to the bridges between a
 conversation's engine and what its human decides.
 */
module ApprovalTrace {
  import opened Basics

  type Conversation = string

  datatype Phase = Proposed | AwaitingDecision | Resuming
  datatype Bridge = Bridge(
    message: string,
    decision: string,
    task: string,
    step: string,
    tool: string,
    grant: string,
    approval: string,
    deadline: nat,
    phase: Phase)

  /** A row of recorded decisions. */
  datatype Row = Row(grant: string, task: string, step: string, approved: bool)

  /**
   What happens to a bridge. A bridge is proposed while the engine holds its decision or does not
   (`held`), and confirmed when the engine asks for the same decision again. An approval is
   answered with success or not, and a denial reaches the engine or does not.
   */
  datatype Note =
    | Proposes(conversation: Conversation, bridge: Bridge, held: bool)
    | Confirms(conversation: Conversation)
    | Awaits(conversation: Conversation)
    | Approves(conversation: Conversation, now: nat, row: Row, success: bool)
    | Denies(conversation: Conversation, now: nat, row: Row, reached: bool)
    | Tries(conversation: Conversation)
    | Resumes(conversation: Conversation)
    | Drops(conversation: Conversation)

  /** A bridge, whether its approval has been taken, how often resuming was tried since, and whether
      the engine has lost its decision. */
  datatype Step = Step(bridge: Bridge, granted: bool, tries: nat, lost: bool)
  type Steps = map<Conversation, Step>

  const MAX_TRIES: nat := 3

  predicate Matches(row: Row, b: Bridge) {
    row.grant == b.grant && row.task == b.task && row.step == b.step
  }

  /** A decision may be passed on: the bridge awaits it, in time, and the row is its own. */
  ghost predicate Decides(s: Step, now: nat, row: Row) {
    s.bridge.phase == AwaitingDecision && !s.granted && now < s.bridge.deadline && Matches(row, s.bridge)
  }

  ghost function Next(t: Steps, n: Note): (r: Option<Steps>) {
    var c := n.conversation;
    match n
    case Proposes(_, b, held) =>
      if c !in t && b.phase == Proposed then Some(t[c := Step(b, false, 0, !held)]) else None
    case Confirms(_) =>
      if c in t && t[c].bridge.phase != Resuming then Some(t[c := t[c].(lost := false)]) else None
    case Awaits(_) =>
      if c in t && t[c].bridge.phase == Proposed
      then Some(t[c := t[c].(bridge := t[c].bridge.(phase := AwaitingDecision))]) else None
    case Approves(_, now, row, success) =>
      if c in t && Decides(t[c], now, row) && row.approved then Some(t[c := t[c].(granted := success)]) else None
    case Denies(_, now, row, reached) =>
      if c in t && Decides(t[c], now, row) && !row.approved then Some(t[c := t[c].(lost := !reached)]) else None
    case Tries(_) =>
      if c in t && t[c].granted && t[c].bridge.phase == AwaitingDecision && t[c].tries < MAX_TRIES
      then Some(t[c := t[c].(tries := t[c].tries + 1)]) else None
    case Resumes(_) =>
      if c in t && t[c].granted && t[c].bridge.phase == AwaitingDecision && t[c].tries > 0
      then Some(t[c := t[c].(bridge := t[c].bridge.(phase := Resuming), lost := false)]) else None
    case Drops(_) => if c in t then Some(t - {c}) else None
  }

  ghost function Run(trace: seq<Note>): (r: Option<Steps>) {
    if trace == [] then Some(map[]) else
      var before := Run(trace[..|trace| - 1]);
      if before == None then None else Next(before.value, trace[|trace| - 1])
  }

  lemma RunMore(trace: seq<Note>, n: Note)
    requires Run(trace).Some?
    ensures Run(trace + [n]) == Next(Run(trace).value, n)
  {
    assert (trace + [n])[..|trace|] == trace;
  }

  lemma {:induction false} RunPrefix(trace: seq<Note>, k: nat)
    requires Run(trace).Some? && k <= |trace|
    ensures Run(trace[..k]).Some?
  {
    if k < |trace| {
      RunPrefix(trace[..|trace| - 1], k);
      assert trace[..|trace| - 1][..k] == trace[..k];
    } else {
      assert trace[..k] == trace;
    }
  }

  lemma RunStep(trace: seq<Note>, k: nat)
    requires Run(trace).Some? && k < |trace|
    ensures Run(trace[..k]).Some? && Run(trace[..k + 1]).Some?
    ensures Run(trace[..k + 1]) == Next(Run(trace[..k]).value, trace[k])
  {
    RunPrefix(trace, k);
    RunPrefix(trace, k + 1);
    assert trace[..k + 1][..k] == trace[..k] && trace[..k + 1][k] == trace[k];
  }

  /** The bridge was proposed at `p` and not dropped since. */
  ghost predicate Since(trace: seq<Note>, c: Conversation, p: int, b: Bridge) {
    && 0 <= p < |trace| && trace[p].Proposes? && trace[p].conversation == c && trace[p].bridge == b
    && forall k :: p < k < |trace| ==> trace[k] != Drops(c)
  }

  /** ...and passed to awaiting its decision at `q`. */
  ghost predicate Passed(trace: seq<Note>, c: Conversation, p: int, q: int) {
    0 <= p < q < |trace| && trace[q] == Awaits(c)
  }

  /** Every bridge there is was proposed once, with the identity it still has, and awaited its
      decision before anything was decided. */
  lemma {:induction false} History(trace: seq<Note>, c: Conversation) returns (p: int, q: int)
    requires Run(trace).Some? && c in Run(trace).value
    ensures var b := Run(trace).value[c].bridge; Since(trace, c, p, b.(phase := Proposed))
    ensures Run(trace).value[c].bridge.phase != Proposed ==> Passed(trace, c, p, q)
    ensures Run(trace).value[c].granted ==> Run(trace).value[c].bridge.phase != Proposed
    ensures Run(trace).value[c].tries <= MAX_TRIES
  {
    var last := |trace| - 1;
    var n := trace[last];
    var before := Run(trace[..last]).value;
    if n.conversation == c && n.Proposes? {
      p, q := last, 0;
    } else {
      p, q := History(trace[..last], c);
      hide Run;
      assert trace == trace[..last] + [n];
      if n == Awaits(c) {
        q := last;
      }
    }
  }

  /** An approving decision is taken only for a bridge that was proposed and then awaited its
      decision, before its deadline, on a row for its grant, task and step. */
  lemma ApprovedProperly(trace: seq<Note>, i: nat) returns (b: Bridge, p: int, q: int)
    requires Run(trace).Some? && i < |trace| && trace[i].Approves?
    ensures var c := trace[i].conversation;
            Since(trace[..i], c, p, b.(phase := Proposed)) && Passed(trace[..i], c, p, q)
    ensures trace[i].now < b.deadline && Matches(trace[i].row, b) && trace[i].row.approved
  {
    RunStep(trace, i);
    b := Run(trace[..i]).value[trace[i].conversation].bridge;
    p, q := History(trace[..i], trace[i].conversation);
  }

  /** Once granted, a bridge stays granted until it is dropped. */
  lemma {:induction false} GrantedStays(trace: seq<Note>, c: Conversation, i: nat, j: nat)
    requires Run(trace).Some? && i <= j <= |trace|
    requires Run(trace[..i]).Some? && c in Run(trace[..i]).value && Run(trace[..i]).value[c].granted
    requires forall k :: i <= k < j ==> trace[k] != Drops(c)
    ensures Run(trace[..j]).Some? && c in Run(trace[..j]).value && Run(trace[..j]).value[c].granted
  {
    hide Run, Next;
    if i < j {
      GrantedStays(trace, c, i, j - 1);
      RunStep(trace, j - 1);
      GrantedNext(Run(trace[..j - 1]).value, trace[j - 1], c);
    }
  }

  lemma GrantedNext(t: Steps, n: Note, c: Conversation)
    requires c in t && t[c].granted && n != Drops(c) && Next(t, n).Some?
    ensures c in Next(t, n).value && Next(t, n).value[c].granted
  {
  }

  /** Between two approvals that were answered with success for a conversation, its bridge was dropped. */
  lemma OneSuccess(trace: seq<Note>, c: Conversation, i: nat, j: nat)
    requires Run(trace).Some? && i < j < |trace|
    requires trace[i].Approves? && trace[i].conversation == c && trace[i].success
    requires trace[j].Approves? && trace[j].conversation == c
    ensures exists k :: i < k < j && trace[k] == Drops(c)
  {
    RunStep(trace, i);
    RunStep(trace, j);
    if forall k :: i + 1 <= k < j ==> trace[k] != Drops(c) {
      GrantedStays(trace, c, i + 1, j);
    }
  }

  /** Resuming is tried only after a success, and the bridge that resumes was granted. */
  lemma TriesAfterSuccess(trace: seq<Note>, i: nat)
    requires Run(trace).Some? && i < |trace| && (trace[i].Tries? || trace[i].Resumes?)
    ensures var c := trace[i].conversation;
            && Run(trace[..i]).Some? && c in Run(trace[..i]).value && Run(trace[..i]).value[c].granted
            && (trace[i].Tries? ==> Run(trace[..i]).value[c].tries < MAX_TRIES)
  {
    RunStep(trace, i);
  }

  // Lost decisions

  /** The engine loses a bridge's decision: it did not hold it, or was not reached by the denial. */
  predicate Loses(n: Note, c: Conversation) {
    n.conversation == c && ((n.Proposes? && !n.held) || (n.Denies? && !n.reached))
  }

  /** ...and gets over it. */
  predicate Settles(n: Note, c: Conversation) {
    n.conversation == c && (n.Proposes? || n.Confirms? || n.Denies? || n.Resumes? || n.Drops?) && !Loses(n, c)
  }

  /** The note at `i` lost the decision, and nothing settled it since. */
  ghost predicate LostAt(trace: seq<Note>, c: Conversation, i: nat) {
    && i < |trace| && Loses(trace[i], c)
    && forall k :: i < k < |trace| ==> !Settles(trace[k], c)
  }

  ghost predicate Lost(trace: seq<Note>, c: Conversation) {
    exists i :: LostAt(trace, c, i)
  }

  lemma LostNext(trace: seq<Note>, n: Note, c: Conversation)
    ensures Lost(trace + [n], c) <==> Loses(n, c) || (Lost(trace, c) && !Settles(n, c))
  {
    var more := trace + [n];
    if Lost(more, c) {
      var i: nat :| LostAt(more, c, i);
      if i < |trace| {
        assert more[i] == trace[i] && more[|trace|] == n;
        assert forall k :: i < k < |trace| ==> more[k] == trace[k];
        assert LostAt(trace, c, i);
      }
    }
    if Loses(n, c) {
      assert LostAt(more, c, |trace|);
    } else if Lost(trace, c) && !Settles(n, c) {
      var i: nat :| LostAt(trace, c, i);
      assert forall k :: i < k < |trace| ==> more[k] == trace[k];
      assert LostAt(more, c, i);
    }
  }

  /** A decision is lost exactly when the record tells of a loss that nothing settled since. */
  lemma {:induction false} LostIff(trace: seq<Note>, c: Conversation)
    requires Run(trace).Some?
    ensures Lost(trace, c) <==> c in Run(trace).value && Run(trace).value[c].lost
  {
    if trace != [] {
      var last := |trace| - 1;
      assert trace == trace[..last] + [trace[last]];
      LostIff(trace[..last], c);
      LostNext(trace[..last], trace[last], c);
    }
  }

  /** A denial is passed on only for a bridge that awaits its decision, in time, on a row of its own. */
  lemma DeniedProperly(trace: seq<Note>, i: nat) returns (b: Bridge, p: int, q: int)
    requires Run(trace).Some? && i < |trace| && trace[i].Denies?
    ensures var c := trace[i].conversation;
            Since(trace[..i], c, p, b.(phase := Proposed)) && Passed(trace[..i], c, p, q)
    ensures trace[i].now < b.deadline && Matches(trace[i].row, b) && !trace[i].row.approved
  {
    RunStep(trace, i);
    b := Run(trace[..i]).value[trace[i].conversation].bridge;
    p, q := History(trace[..i], trace[i].conversation);
  }
}

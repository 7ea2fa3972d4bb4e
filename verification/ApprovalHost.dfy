/**
 The host's bridges and the engine together, step by step. Requests to the engine and to the bus
 may be answered in any way; the ghost trace records what happens to the bridges, and `lost` holds
 the bridges whose decision the engine no longer has.
 */
module ApprovalHost {
  import opened Basics
  import opened ApprovalTrace
  import opened Prx
  import opened ApprovalBridges

  class Agent {
    const max: nat
    const turn: nat
    const approval: nat
    const full: bool
    var engine: Engine
    var approvals: Bridges
    ghost var trace: seq<Note>
    ghost var lost: set<Conversation>

    var savedEngine: Engine
    var savedApprovals: Bridges
    ghost var savedTrace: seq<Note>
    ghost var savedLost: set<Conversation>

    /** What the last checkpoint holds is consistent in itself. */
    ghost predicate SavedOk()
      reads this
    {
      && EngineOk(savedEngine, max) && BridgesOk(savedEngine, savedApprovals, savedLost)
      && Traced(savedTrace, savedApprovals, savedLost, {}) && Fit(savedApprovals)
    }

    /** Everything holds, except perhaps of the bridge at `c`. */
    ghost predicate ValidBut(c: Conversation)
      reads this
    {
      && EngineOk(engine, max) && BridgesBut(engine, approvals, lost, {c}) && Traced(trace, approvals, lost, {c})
      && Fit(approvals) && SavedOk()
    }

    ghost predicate Valid()
      reads this
    {
      && EngineOk(engine, max) && BridgesOk(engine, approvals, lost) && Traced(trace, approvals, lost, {})
      && Fit(approvals) && SavedOk()
    }

    /** A bridge has an idle engine exactly when its decision was lost and no other turn is under way. */
    ghost predicate Exact()
      reads this
    {
      forall c :: c in approvals ==>
        (!IsBusy(engine, c) <==> Lost(trace, c) && c !in engine.jobs && c !in engine.completed)
    }

    lemma ValidExact()
      requires Valid()
      ensures Exact()
    {
      hide EngineOk, BridgesBut, Traced, Lost, IsBusy, Fit;
      forall c | c in approvals
        ensures !IsBusy(engine, c) <==> Lost(trace, c) && c !in engine.jobs && c !in engine.completed
      {
        IdleIff(engine, approvals, lost, trace, c);
      }
    }

    ghost method Record(n: Note)
      requires Run(trace).Some? && Next(Run(trace).value, n).Some?
      modifies this`trace
      ensures trace == old(trace) + [n] && Run(trace) == Next(old(Run(trace)).value, n)
    {
      RunMore(trace, n);
      trace := trace + [n];
    }

    /** Takes the bridge of a conversation away, if there is one. */
    method Drop(c: Conversation)
      requires ValidBut(c)
      modifies this`approvals, this`trace, this`lost
      ensures Valid() && approvals == old(approvals) - {c} && lost == old(lost) - {c} && old(trace) <= trace
    {
      hide EngineOk, BridgesBut, Traced, Fit, Next;
      DroppedTraced(trace, approvals, lost, c);
      DroppedBridges(engine, approvals, lost, c);
      FewerFit(approvals, c);
      if c in approvals {
        Record(Drops(c));
      }
      approvals := approvals - {c};
      lost := lost - {c};
    }

    /** Writes the checkpoint; the attempt may fail, and then it may or may not have been written. */
    method Save() returns (r: Ending)
      requires Valid()
      modifies this`savedEngine, this`savedApprovals, this`savedTrace, this`savedLost
      ensures Valid()
      ensures r.Fine? ==> savedEngine == engine && savedApprovals == approvals
    {
      hide EngineOk, BridgesBut, Traced, Fit;
      r := *;
      var written: bool := *;
      if r.Fine? || (r.Stops? && written) {
        savedEngine, savedApprovals, savedTrace, savedLost := engine, approvals, trace, lost;
      }
    }

    // The engine

    method RevokePending(c: Conversation)
      requires EngineOk(engine, max)
      modifies this`engine
      ensures EngineOk(engine, max) && OnlyAt(old(engine), engine, c)
      ensures engine == WithoutPending(old(engine), c)
    {
      PendingRemoved(engine, c, max);
      engine := engine.(pending := engine.pending - {c});
    }

    method CancelEngine(c: Conversation)
      requires EngineOk(engine, max)
      modifies this`engine
      ensures EngineOk(engine, max) && OnlyAt(old(engine), engine, c)
      ensures c !in engine.sessions && !IsBusy(engine, c)
    {
      ClearedOk(engine, c, max);
      engine := engine.(jobs := engine.jobs - {c});
      engine := engine.(pending := engine.pending - {c});
      engine := engine.(completed := engine.completed - {c}, sessions := engine.sessions - {c});
    }

    /** A session of the conversation's own. */
    method CreateSession(c: Conversation, made: Created) returns (failed: Option<Failing>)
      requires EngineOk(engine, max) && ValidId(c)
      modifies this`engine
      ensures (engine, failed) == NewSession(old(engine), c, max, made)
    {
      if |engine.sessions| >= max && c !in engine.sessions {
        return Some(Rejected);
      }
      if made.NotMade? {
        return Some(made.failing);
      }
      if !ValidSession(made.session) {
        return Some(Invalid);
      }
      engine := engine.(sessions := engine.sessions[c := made.session]);
      failed := None;
    }

    /** Starts a turn. Only an idle conversation gets here. */
    method SubmitMessage(c: Conversation, message: string, now: nat, t: TurnAnswers) returns (failed: Option<Failing>)
      requires EngineOk(engine, max) && ValidId(c) && !IsBusy(engine, c)
      modifies this`engine
      ensures (engine, failed) == Submitted(old(engine), c, message, now + turn, max, t)
      ensures EngineOk(engine, max) && OnlyAt(old(engine), engine, c)
      ensures c !in engine.pending && c !in engine.completed
      ensures failed == None <==> c in engine.jobs
      ensures failed == None ==> engine.jobs[c] == engine.jobs[c].(message := message, deadline := now + turn)
    {
      hide EngineOk, OnlyAt, ValidId, ValidPath;
      SubmittedOk(engine, c, message, now + turn, max, t);
      failed := None;
      if c !in engine.sessions {
        failed := CreateSession(c, t.created);
        if failed.Some? {
          return;
        }
      }
      var posted := t.posted;
      if posted.NotFound? {
        NewSessionOk(old(engine), c, max, t.created);
        SessionRemoved(engine, c, max);
        engine := engine.(sessions := engine.sessions - {c});
        failed := CreateSession(c, t.again);
        if failed.Some? {
          return;
        }
        posted := t.reposted;
      }
      match posted {
        case NotFound => return Some(Rejected);
        case Other => return Some(Rejected);
        case Failed(failing) => return Some(failing);
        case Taken(id, poll, cancel) =>
          var job := Job(id, poll, cancel, message, now + turn);
          if !ValidJob(job) {
            return Some(Invalid);
          }
          engine := engine.(jobs := engine.jobs[c := job]);
      }
    }

    /** What becomes of a running job; no event while it runs or cannot be asked for. */
    method JobResult(job: Job, now: nat, answer: JobAnswer) returns (event: Option<Completed>)
      requires ValidJob(job)
      ensures event.Some? ==>
                event.value.message == job.message && ValidCompleted(event.value)
                  && event.value != Failure(job.message, Busy)
      ensures now >= job.deadline ==> event == Some(Failure(job.message, TurnTimeout))
      ensures event.None? <==> now < job.deadline && (answer.Running? || answer.Silence?)
      ensures event.Some? && event.value.Reply? ==> answer == Says(event.value.text) && event.value.text != ""
      ensures event.Some? && event.value.Silent? <==> now < job.deadline && answer == Says("")
      ensures event.Some? && event.value.Approval? ==>
                !full && answer.Asks? && event.value.decision == answer.decision
                  && now < event.value.question.deadline <= now + approval
    {
      if now >= job.deadline {
        return Some(Failure(job.message, TurnTimeout));
      }
      match answer {
        case Running => return None;
        case Silence => return None;
        case Refuses => return Some(Failure(job.message, Refused));
        case Says(text) =>
          if text == "" {
            return Some(Silent(job.message));
          }
          var fine := Bytes(text) <= MAX_TEXT_BYTES && SafeText(text);
          return Some(if fine then Reply(job.message, text) else Failure(job.message, Refused));
        case Asks(decision, seen) =>
          if !ValidSegment(decision) {
            return Some(Failure(job.message, Refused));
          }
          if full {
            return Some(Failure(job.message, AuthorizationMismatch));
          }
          if seen == None {
            return Some(Failure(job.message, ApprovalUnavailable));
          }
          var question := Sooner(seen.value, now + approval);
          if !ValidQuestion(question) || question.deadline <= now {
            return Some(Failure(job.message, ApprovalUnavailable));
          }
          event := Some(Approval(job.message, decision, question));
      }
    }

    method PollJobs(now: nat)
      requires Valid()
      modifies this`engine
      ensures Valid() && engine.sessions == old(engine).sessions
      ensures forall c :: PolledAt(old(engine), engine, c)
    {
      hide BridgesBut, Traced, Fit, OnlyAt, Finished, ValidId, ValidPath, ValidJob, ValidCompleted, PolledAt;
      var todo := engine.jobs.Keys;
      ghost var e := engine;
      AllSame(e);
      while todo != {}
        invariant todo <= engine.jobs.Keys && EngineOk(engine, max) && engine.sessions == e.sessions
        invariant forall c :: if c in todo then SameAt(e, engine, c) else PolledAt(e, engine, c)
        decreases todo
      {
        var c :| c in todo;
        assert CellOk(engine, c) && SameAt(e, engine, c);
        var answer: JobAnswer := *;
        var event := JobResult(engine.jobs[c], now, answer);
        if event.Some? {
          JobFinished(engine, c, event.value, max);
          PolledOne(e, engine, c, event.value, todo);
          StillRunning(engine, c, event.value, todo);
          engine := Finished(engine, c, event.value);
        } else {
          SamePolled(e, engine, c);
        }
        todo := todo - {c};
      }
      PollKeepsBridges(e, engine, approvals, lost);
    }

    /** Tells the engine that the decision is negative. Locally it is final even when the engine cannot be reached. */
    method Decline(c: Conversation, decision: string, told: Decided) returns (r: Decided)
      requires EngineOk(engine, max)
      modifies this`engine
      ensures EngineOk(engine, max) && OnlyAt(old(engine), engine, c)
      ensures engine == Declined(old(engine), c, decision) && r == DeclineAnswer(old(engine), c, decision, told)
      ensures r != Undone(Rejected) && r != Undone(Invalid) ==> c !in engine.pending && c !in engine.jobs
    {
      hide EngineOk, OnlyAt, ValidSegment;
      DeclinedOk(engine, c, decision, max);
      if !ValidSegment(decision) {
        return Undone(Invalid);
      }
      if c in engine.jobs || c !in engine.sessions {
        return Undone(Rejected);
      }
      engine := engine.(pending := engine.pending - {c});
      r := told;
    }

    /** Asks the engine to go on after a granted approval, up to three times. */
    method ResumeApproved(c: Conversation) returns (resumed: bool)
      requires Run(trace).Some? && c in Run(trace).value
      requires var s := Run(trace).value[c]; s.granted && s.bridge.phase == AwaitingDecision && s.tries == 0
      modifies this`trace
      ensures Run(trace).Some? && old(trace) <= trace && Run(trace).value.Keys == old(Run(trace)).value.Keys
      ensures forall d :: d in Run(trace).value && d != c ==> Run(trace).value[d] == old(Run(trace)).value[d]
      ensures var s := old(Run(trace)).value[c];
              Run(trace).value[c] == s.(tries := Run(trace).value[c].tries)
                && 0 < Run(trace).value[c].tries <= MAX_TRIES
    {
      hide Run;
      ghost var before := Run(trace).value;
      var attempt := 0;
      while attempt < MAX_TRIES
        invariant 0 <= attempt <= MAX_TRIES && Run(trace).Some? && old(trace) <= trace
        invariant Run(trace).value == before[c := before[c].(tries := attempt)]
      {
        Record(Tries(c));
        attempt := attempt + 1;
        var accepted: bool, final: bool := *, *;
        if accepted {
          return true;
        }
        if final {
          return false;
        }
      }
      resumed := false;
    }

    /** The approving request itself. */
    method PostApproval(c: Conversation, now: nat, row: Row) returns (failed: Option<Failing>)
      requires Traced(trace, approvals, lost, {}) && c in approvals && approvals[c].phase == AwaitingDecision
      requires now < approvals[c].deadline && Matches(row, approvals[c]) && row.approved
      modifies this`trace
      ensures old(trace) <= trace && Traced(trace, approvals, lost, {c})
      ensures failed.Some? ==> Traced(trace, approvals, lost, {})
      ensures failed == None ==> Run(trace).value[c].granted && Run(trace).value[c].tries == 0
    {
      failed := *;
      Record(Approves(c, now, row, failed == None));
    }

    /** Resumes the turn the engine had stopped, as a job. */
    method GoOn(c: Conversation, job: Job) returns (r: Decided)
      requires EngineOk(engine, max) && c in engine.sessions && c !in engine.completed && c !in engine.jobs
      requires Traced(trace, approvals, lost, {c}) && c in approvals && approvals[c].phase == AwaitingDecision
      requires Run(trace).value[c].granted && Run(trace).value[c].tries == 0
      modifies this`engine, this`trace
      ensures EngineOk(engine, max) && OnlyAt(old(engine), engine, c) && engine.completed == old(engine).completed
      ensures old(trace) <= trace && Traced(trace, approvals, lost, {c})
      ensures r == Done ==>
                c in engine.jobs && c in Run(trace).value && Run(trace).value[c].granted
                  && Run(trace).value[c].tries > 0
      ensures r == Done || r == Undone(Rejected) || r == Undone(Invalid)
    {
      hide EngineOk, OnlyAt, Traced, Next;
      GrantedTraced(trace, approvals, lost, c);
      ghost var before := trace;
      var resumed := ResumeApproved(c);
      TriedTraced(before, trace, approvals, lost, c);
      RevokePending(c);
      if !resumed {
        return Undone(Rejected);
      }
      if !ValidJob(job) {
        return Undone(Invalid);
      }
      JobAdded(engine, c, job, max);
      OnlyAtTwice(old(engine), engine, WithJob(engine, c, job), c);
      engine := engine.(jobs := engine.jobs[c := job]);
      r := Done;
    }

    /** Tells the engine that the human approved. */
    method Approve(c: Conversation, message: string, decision: string, now: nat, row: Row) returns (r: Decided)
      requires Valid() && c in approvals && approvals[c].phase == AwaitingDecision && c !in engine.completed
      requires now < approvals[c].deadline && Matches(row, approvals[c]) && row.approved
      modifies this`engine, this`trace
      ensures ValidBut(c) && OnlyAt(old(engine), engine, c) && old(trace) <= trace
      ensures engine.completed == old(engine).completed
      ensures r == Undone(Unavailable) || r == Undone(Timeout) ==> Valid() && engine == old(engine)
      ensures r == Done ==>
                c in engine.jobs && c in Run(trace).value && Run(trace).value[c].granted
                  && Run(trace).value[c].tries > 0
    {
      hide EngineOk, OnlyAt, Next, BridgesBut, Traced, ValidSegment, Run, Matches, Fit;
      Unchanged(engine, c);
      Weaken(engine, approvals, lost, trace, c);
      if !ValidSegment(decision) {
        return Undone(Invalid);
      }
      if full {
        RevokePending(c);
        BridgesElsewhere(old(engine), engine, approvals, lost, c);
        return Undone(Rejected);
      }
      if c in engine.jobs || c !in engine.sessions {
        return Undone(Rejected);
      }
      r := ApproveNow(c, message, now, row);
    }

    method ApproveNow(c: Conversation, message: string, now: nat, row: Row) returns (r: Decided)
      requires Valid() && c in approvals && approvals[c].phase == AwaitingDecision
      requires c in engine.sessions && c !in engine.completed && c !in engine.jobs
      requires now < approvals[c].deadline && Matches(row, approvals[c]) && row.approved
      modifies this`engine, this`trace
      ensures ValidBut(c) && OnlyAt(old(engine), engine, c) && old(trace) <= trace
      ensures engine.completed == old(engine).completed
      ensures r == Undone(Unavailable) || r == Undone(Timeout) ==> Valid() && engine == old(engine)
      ensures r == Done ==>
                c in engine.jobs && c in Run(trace).value && Run(trace).value[c].granted
                  && Run(trace).value[c].tries > 0
    {
      hide EngineOk, OnlyAt, Next, BridgesBut, Traced, Run, Fit;
      Weaken(engine, approvals, lost, trace, c);
      r := PostAndGoOn(c, message, now, row);
      BridgesElsewhere(old(engine), engine, approvals, lost, c);
    }

    method PostAndGoOn(c: Conversation, message: string, now: nat, row: Row) returns (r: Decided)
      requires EngineOk(engine, max) && c in engine.sessions && c !in engine.completed && c !in engine.jobs
      requires Traced(trace, approvals, lost, {}) && c in approvals && approvals[c].phase == AwaitingDecision
      requires now < approvals[c].deadline && Matches(row, approvals[c]) && row.approved
      modifies this`engine, this`trace
      ensures EngineOk(engine, max) && OnlyAt(old(engine), engine, c) && engine.completed == old(engine).completed
      ensures old(trace) <= trace && Traced(trace, approvals, lost, {c})
      ensures r == Undone(Unavailable) || r == Undone(Timeout) ==>
              Traced(trace, approvals, lost, {}) && engine == old(engine)
      ensures r == Done ==>
                c in engine.jobs && c in Run(trace).value && Run(trace).value[c].granted
                  && Run(trace).value[c].tries > 0
    {
      hide EngineOk, OnlyAt, Next, Traced, Run;
      Unchanged(engine, c);
      var failed := PostApproval(c, now, row);
      if failed.Some? {
        if failed.value == Rejected {
          RevokePending(c);
        }
        return Undone(failed.value);
      }
      var id: string, poll: string, cancel: string := *, *, *;
      r := GoOn(c, Job(id, poll, cancel, message, now + turn));
    }

    // The bridges

    /** Cancels everything about a conversation, on both sides. */
    method Remove(c: Conversation)
      requires ValidBut(c)
      modifies this`engine, this`approvals, this`trace, this`lost
      ensures Valid() && OnlyAt(old(engine), engine, c) && !IsBusy(engine, c) && c !in engine.sessions
      ensures approvals == old(approvals) - {c} && lost == old(lost) - {c} && old(trace) <= trace
    {
      hide EngineOk, OnlyAt, BridgesBut, Traced, Fit;
      CancelEngine(c);
      BridgesElsewhere(old(engine), engine, approvals, lost, c);
      Drop(c);
    }

    /** Gives up on an approval: the engine is told, the bridge goes, the conversation is cancelled. */
    method Abandon(c: Conversation, decision: string) returns (r: Ending)
      requires ValidBut(c)
      modifies this
      ensures Valid() && OnlyAt(old(engine), engine, c) && !IsBusy(engine, c)
      ensures approvals == old(approvals) - {c} && lost == old(lost) - {c} && old(trace) <= trace
    {
      hide EngineOk, OnlyAt, BridgesBut, Traced, Fit;
      var answer: Decided := *;
      var told := Decline(c, decision, answer);
      BridgesElsewhere(old(engine), engine, approvals, lost, c);
      ghost var e := engine;
      if c in approvals && approvals[c].decision != decision {
        answer := *;
        told := Decline(c, approvals[c].decision, answer);
        BridgesElsewhere(e, engine, approvals, lost, c);
        OnlyAtTwice(old(engine), e, engine, c);
      }
      e := engine;
      Remove(c);
      OnlyAtTwice(old(engine), e, engine, c);
      r := Save();
    }

    /** Ends an approval that failed: its task is closed if it lets itself be closed. */
    method FailApproval(c: Conversation) returns (r: Ending)
      requires ValidBut(c)
      modifies this
      ensures ValidBut(c) && engine == old(engine) && old(trace) <= trace
      ensures r.Fine? ==> Valid() && approvals == old(approvals) - {c} && lost == old(lost) - {c}
      ensures !r.Fine? ==> approvals - {c} == old(approvals) - {c} && lost - {c} == old(lost) - {c}
    {
      hide EngineOk, BridgesBut, Traced, Fit;
      r := *;
      if r.Fine? {
        Drop(c);
        Weaken(engine, approvals, lost, trace, c);
        r := Save();
      }
    }

    /** The bridge now waits for its human. */
    method MarkAwaiting(c: Conversation) returns (r: Ending)
      requires Valid() && c in approvals && approvals[c].phase == Proposed
      modifies this
      ensures Valid() && engine == old(engine) && lost == old(lost) && old(trace) <= trace
      ensures approvals == old(approvals)[c := old(approvals)[c].(phase := AwaitingDecision)]
    {
      hide EngineOk, BridgesBut, Traced, Fit;
      AwaitingTraced(trace, approvals, lost, c);
      AwaitingBridges(engine, approvals, lost, c);
      Record(Awaits(c));
      PhaseFit(approvals, c, AwaitingDecision);
      approvals := approvals[c := approvals[c].(phase := AwaitingDecision)];
      r := Save();
    }

    /** Closes the human task of a turn that had been resumed; a task that is still undecided stays. */
    method CompleteResumed(c: Conversation) returns (r: Ending)
      requires Valid()
      modifies this
      ensures Valid() && engine == old(engine) && old(trace) <= trace
      ensures r.Fine? && c in old(approvals) && old(approvals)[c].phase == Resuming ==>
                approvals == old(approvals) - {c} && lost == old(lost) - {c}
      ensures !(c in old(approvals) && old(approvals)[c].phase == Resuming) ==>
                r.Fine? && approvals == old(approvals) && lost == old(lost)
      ensures approvals - {c} == old(approvals) - {c} && lost - {c} == old(lost) - {c} && lost <= old(lost)
      ensures !r.Fine? ==> c in approvals ==> approvals == old(approvals) && lost == old(lost)
    {
      hide EngineOk, BridgesBut, Traced, Fit;
      LostThere(engine, approvals, lost);
      if c !in approvals || approvals[c].phase != Resuming {
        return Fine;
      }
      r := *;
      if r.Fine? {
        Weaken(engine, approvals, lost, trace, c);
        Drop(c);
        r := Save();
      }
    }

    /** Sends a reply; a conversation that is gone is removed instead. */
    method EmitIntents(c: Conversation, reply: Delivery) returns (r: Ending)
      requires Valid()
      modifies this
      ensures Valid() && OnlyAt(old(engine), engine, c) && old(trace) <= trace
      ensures if reply.Sent?
              then r == reply.ending && engine == old(engine) && approvals == old(approvals) && lost == old(lost)
              else !IsBusy(engine, c) && approvals == old(approvals) - {c} && lost == old(lost) - {c}
    {
      hide EngineOk, OnlyAt, BridgesBut, Traced, Fit;
      Unchanged(engine, c);
      if reply.Sent? {
        return reply.ending;
      }
      Weaken(engine, approvals, lost, trace, c);
      Remove(c);
      r := Save();
    }

    /** What driving one bridge may change. */
    twostate predicate Driven(c: Conversation, r: Ending)
      reads this
    {
      && ValidBut(c) && (r.Fine? ==> Valid())
      && OnlyAt(old(engine), engine, c) && engine.completed == old(engine).completed && old(trace) <= trace
      && approvals - {c} == old(approvals) - {c} && lost - {c} == old(lost) - {c}
    }

    /** Declines in the engine, then fails its task. */
    method DeclineAndFail(c: Conversation) returns (r: Ending)
      requires Valid() && c in approvals
      modifies this
      ensures Driven(c, r) && (r.Fine? ==> c !in approvals && c !in lost)
    {
      hide EngineOk, OnlyAt, BridgesBut, Traced, Fit;
      Weaken(engine, approvals, lost, trace, c);
      var answer: Decided := *;
      var told := Decline(c, approvals[c].decision, answer);
      BridgesElsewhere(old(engine), engine, approvals, lost, c);
      r := FailApproval(c);
    }

    /** The human closed it: the decision is declined and the bridge goes. */
    method RetireTerminal(c: Conversation) returns (r: Ending)
      requires Valid() && c in approvals
      modifies this
      ensures Driven(c, r) && c !in approvals && c !in lost
    {
      hide EngineOk, OnlyAt, BridgesBut, Traced, Fit;
      Weaken(engine, approvals, lost, trace, c);
      var answer: Decided := *;
      var told := Decline(c, approvals[c].decision, answer);
      BridgesElsewhere(old(engine), engine, approvals, lost, c);
      Drop(c);
      Weaken(engine, approvals, lost, trace, c);
      r := Save();
    }

    /** The approved turn runs again. */
    method MarkResuming(c: Conversation) returns (r: Ending)
      requires ValidBut(c) && c in approvals && approvals[c].phase == AwaitingDecision && c in engine.jobs
      requires c in Run(trace).value && Run(trace).value[c].granted && Run(trace).value[c].tries > 0
      modifies this
      ensures Valid() && engine == old(engine) && old(trace) <= trace
      ensures approvals == old(approvals)[c := old(approvals)[c].(phase := Resuming)] && lost == old(lost) - {c}
    {
      hide EngineOk, BridgesBut, Traced, Fit;
      ResumingTraced(trace, approvals, lost, c);
      ResumingBridges(engine, approvals, lost, c);
      Record(Resumes(c));
      PhaseFit(approvals, c, Resuming);
      approvals := approvals[c := approvals[c].(phase := Resuming)];
      lost := lost - {c};
      r := Save();
    }

    /** Passes an approving decision on: the turn resumes, the bridge goes, or nothing happened. */
    method DriveApproved(c: Conversation, now: nat, row: Row) returns (r: Ending)
      requires Valid() && c in approvals && approvals[c].phase == AwaitingDecision && c !in engine.completed
      requires now < approvals[c].deadline && Matches(row, approvals[c]) && row.approved
      modifies this
      ensures Driven(c, r)
      ensures r.Fine? ==>
                || (c in engine.jobs && lost == old(lost) - {c}
                    && approvals == old(approvals)[c := old(approvals)[c].(phase := Resuming)])
                || (approvals == old(approvals) - {c} && lost == old(lost) - {c})
                || (engine == old(engine) && approvals == old(approvals) && lost == old(lost))
    {
      hide EngineOk, OnlyAt, BridgesBut, Traced, Next, Fit;
      Unchanged(engine, c);
      Weaken(engine, approvals, lost, trace, c);
      var told := Approve(c, approvals[c].message, approvals[c].decision, now, row);
      match told {
        case Done =>
          r := MarkResuming(c);
          Weaken(engine, approvals, lost, trace, c);
        case Undone(failing) =>
          if failing == Unavailable || failing == Timeout {
            r := Fine;
          } else {
            r := FailApproval(c);
          }
      }
    }

    /** Passes a denial on. When the engine cannot be reached it has forgotten the decision, and the bridge stays. */
    method DriveDenied(c: Conversation, now: nat, row: Row, told: Decided) returns (r: Ending)
      requires Valid() && c in approvals && approvals[c].phase == AwaitingDecision && c !in engine.completed
      requires now < approvals[c].deadline && Matches(row, approvals[c]) && !row.approved
      modifies this
      ensures Driven(c, r) && engine == Declined(old(engine), c, old(approvals)[c].decision)
      ensures var missed := Unreached(DeclineAnswer(old(engine), c, old(approvals)[c].decision, told));
              && old(trace) + [Denies(c, now, row, !missed)] <= trace
              && (missed ==> r.Fine? && approvals == old(approvals) && lost == old(lost) + {c} && !IsBusy(engine, c))
              && (!missed && r.Fine? ==> approvals == old(approvals) - {c} && lost == old(lost) - {c})
    {
      hide EngineOk, OnlyAt, Traced, Next, BridgesBut, Fit;
      Unchanged(engine, c);
      Weaken(engine, approvals, lost, trace, c);
      var answer := Decline(c, approvals[c].decision, told);
      BridgesElsewhere(old(engine), engine, approvals, lost, c);
      DeniedTraced(trace, approvals, lost, c, now, row, !Unreached(answer));
      Record(Denies(c, now, row, !Unreached(answer)));
      if Unreached(answer) {
        DeniedBridges(engine, approvals, lost, c);
        lost := lost + {c};
        Weaken(engine, approvals, lost, trace, c);
        return Fine;
      }
      r := FailApproval(c);
    }

    /** Drives one bridge. It becomes lost only by a denial that does not reach the engine. */
    method DriveApproval(c: Conversation, now: nat) returns (r: Ending)
      requires Valid() && c in approvals && c !in engine.completed
      modifies this
      ensures Driven(c, r)
      ensures r.Fine? && c in lost && c !in old(lost) ==>
                |trace| > |old(trace)| && trace[|old(trace)|].Denies? && Loses(trace[|old(trace)|], c)
    {
      hide EngineOk, OnlyAt, BridgesBut, Traced, Fit;
      Unchanged(engine, c);
      Weaken(engine, approvals, lost, trace, c);
      var b := approvals[c];
      r := *;
      if !r.Fine? {
        return;
      }
      var present: bool, ours: bool, terminal: bool, awaiting: bool, running: bool, resolved: bool := *, *, *, *, *, *;
      var row: Option<Row> := *;
      if !present {
        return if b.phase == Proposed then Fine else Fails;
      }
      if !ours {
        return Fails;
      }
      if b.phase != Resuming && now >= b.deadline {
        r := DeclineAndFail(c);
        return;
      }
      match b.phase {
        case Proposed =>
          if terminal {
            r := RetireTerminal(c);
          } else if awaiting || running {
            if !awaiting {
              var asked: Ending := *;
              if !asked.Fine? {
                return asked;
              }
            }
            r := MarkAwaiting(c);
            Weaken(engine, approvals, lost, trace, c);
          }
        case AwaitingDecision =>
          if terminal {
            r := RetireTerminal(c);
          } else if resolved {
            if !row.Some? || !Matches(row.value, b) {
              return Fails;
            }
            if row.value.approved {
              r := DriveApproved(c, now, row.value);
            } else {
              var told: Decided := *;
              r := DriveDenied(c, now, row.value, told);
            }
          }
        case Resuming =>
      }
    }

    /** Drives every bridge once; one that fails is abandoned. */
    method DriveApprovals(now: nat) returns (r: Ending)
      requires Valid() && engine.completed == map[]
      modifies this
      ensures (!r.Stops? ==> Valid()) && SavedOk() && old(trace) <= trace
      ensures r.Fine? ==> engine.completed == map[] && approvals.Keys <= old(approvals).Keys
    {
      hide EngineOk, OnlyAt, BridgesBut, Traced, Fit;
      var todo := approvals.Keys;
      while todo != {}
        invariant Valid() && engine.completed == map[] && old(trace) <= trace
        invariant todo <= approvals.Keys <= old(approvals).Keys
        decreases todo
      {
        var c :| c in todo;
        ghost var e, a, l := engine, approvals, lost;
        var decision := approvals[c].decision;
        r := DriveApproval(c, now);
        Others(e, engine, a, approvals, l, lost, c);
        if r.Stops? {
          return;
        }
        if r.Fails? {
          ghost var e1, a1, l1 := engine, approvals, lost;
          r := Abandon(c, decision);
          Others(e1, engine, a1, approvals, l1, lost, c);
          if r.Fine? {
            r := Save();
          }
          if !r.Fine? {
            return;
          }
        }
        todo := todo - {c};
      }
      r := Fine;
    }

    /** A new bridge for a decision the engine waits for; without that decision it is lost from the start. */
    method Open(c: Conversation, b: Bridge) returns (r: Ending)
      requires Valid() && c !in approvals && c !in engine.jobs && c in engine.completed && b.phase == Proposed
      requires |approvals| < MAX_APPROVALS && Fits(c, b)
      modifies this
      ensures Valid() && engine == old(engine)
      ensures trace == old(trace) + [Proposes(c, b, Holds(engine, c, b.decision))]
      ensures approvals == old(approvals)[c := b]
      ensures lost == if Holds(engine, c, b.decision) then old(lost) else old(lost) + {c}
    {
      hide EngineOk, BridgesBut, Traced, Fit;
      ghost var held := Holds(engine, c, b.decision);
      LostThere(engine, approvals, lost);
      OpenedTraced(trace, approvals, lost, c, b, held);
      OpenedBridges(engine, approvals, lost, c, b);
      OpenedFit(approvals, c, b);
      Record(Proposes(c, b, held));
      approvals := approvals[c := b];
      if !held {
        lost := lost + {c};
      }
      r := Save();
    }

    /** What handling one engine event may change. */
    twostate predicate Handled(c: Conversation)
      reads this
    {
      && Valid() && OnlyAt(old(engine), engine, c) && old(trace) <= trace
      && approvals - {c} == old(approvals) - {c} && lost - {c} == old(lost) - {c}
    }

    /** Opens or confirms the bridge for an approval the engine asks for. `started` is false when no
        human decision can be had, and the engine has been told so. */
    method StartApproval(c: Conversation, message: string, decision: string, deadline: nat, s: Setup)
      returns (r: Ending, started: bool)
      requires Valid() && c !in engine.jobs && c in engine.completed
               && (c in approvals ==> approvals[c].phase != Resuming)
      requires ValidId(c) && ValidId(message) && ValidSegment(decision)
      modifies this
      ensures Handled(c) && (started ==> engine == old(engine)) && (!started ==> c !in approvals)
      ensures c in old(approvals) ==> started && approvals == old(approvals)
      ensures r.Fine? && c in approvals ==> (Holds(engine, c, decision) ==> c !in lost)
      ensures c in approvals ==> approvals[c].phase != Resuming
      ensures c !in old(approvals) ==>
                var st := Start(old(engine), old(approvals), c, message, decision, deadline, s);
                && engine == st.engine && approvals == st.approvals && started == st.begun
                && (!st.ending.Fine? ==> r == st.ending) && (!st.begun ==> r == Fine)
      ensures c !in old(approvals) && c in approvals ==> (c in lost <==> !Holds(old(engine), c, decision))
    {
      hide EngineOk, OnlyAt, BridgesBut, Traced, Fit, ValidId, ValidSegment, Holds, NewBridge;
      LostThere(engine, approvals, lost);
      if c in approvals {
        started := true;
        r := ConfirmApproval(c, message, decision, s.proposed);
      } else {
        r, started := BeginApproval(c, message, decision, deadline, s);
      }
    }

    method ConfirmApproval(c: Conversation, message: string, decision: string, proposed: Ending) returns (r: Ending)
      requires Valid() && c !in engine.jobs && c in approvals && approvals[c].phase != Resuming
      modifies this
      ensures Handled(c) && engine == old(engine) && approvals == old(approvals) && lost <= old(lost)
      ensures r.Fine? && Holds(engine, c, decision) ==> c !in lost
    {
      hide EngineOk, OnlyAt, BridgesBut, Traced, Fit;
      Unchanged(engine, c);
      if approvals[c].decision != decision || approvals[c].message != message {
        return Fails;
      }
      Confirm(c);
      r := proposed;
    }

    method BeginApproval(c: Conversation, message: string, decision: string, deadline: nat, s: Setup)
      returns (r: Ending, started: bool)
      requires Valid() && c !in engine.jobs && c in engine.completed && c !in approvals
      requires ValidId(c) && ValidId(message) && ValidSegment(decision)
      modifies this
      ensures Handled(c) && (started ==> engine == old(engine)) && (!started ==> c !in approvals)
      ensures c in approvals ==> approvals[c].phase == Proposed && (c in lost <==> !Holds(old(engine), c, decision))
      ensures var st := Start(old(engine), old(approvals), c, message, decision, deadline, s);
              && engine == st.engine && approvals == st.approvals && started == st.begun
              && (!st.ending.Fine? ==> r == st.ending) && (!st.begun ==> r == Fine)
    {
      hide EngineOk, OnlyAt, BridgesOk, BridgesBut, Traced, Fit, ValidId, ValidSegment, Declined, Holds;
      hide NewBridge, Fits, Short, Bytes;
      Unchanged(engine, c);
      LostThere(engine, approvals, lost);
      started := true;
      if |approvals| >= MAX_APPROVALS {
        return Fails, started;
      }
      if !s.asked.Fine? {
        return s.asked, started;
      }
      if !s.required {
        DeclineUnbridged(c, decision, s.told);
        return Fine, false;
      }
      if !Short(s.approval) {
        return Fails, started;
      }
      NewFits(c, message, decision, deadline, s);
      AddedOnly(approvals, lost, c, NewBridge(message, decision, deadline, s));
      r := Open(c, NewBridge(message, decision, deadline, s));
      if r.Fine? {
        r := s.proposed;
      }
    }

    /** A standing grant never authorizes a new decision: the decision is declined. */
    method DeclineUnbridged(c: Conversation, decision: string, answer: Decided)
      requires Valid() && c !in approvals
      modifies this`engine
      ensures Valid() && OnlyAt(old(engine), engine, c) && engine == Declined(old(engine), c, decision)
    {
      hide EngineOk, OnlyAt, BridgesBut, Traced, Fit, Declined;
      Weaken(engine, approvals, lost, trace, c);
      var told := Decline(c, decision, answer);
      BridgesElsewhere(old(engine), engine, approvals, lost, c);
      NoBridge(engine, approvals, lost, trace, c);
    }

    /** The engine asks for a bridge's decision again; if it holds it, nothing is lost any more. */
    ghost method Confirm(c: Conversation)
      requires Valid() && c in approvals && approvals[c].phase != Resuming && c !in engine.jobs
      modifies this`trace, this`lost
      ensures Valid() && old(trace) <= trace
      ensures lost == if Holds(engine, c, approvals[c].decision) then old(lost) - {c} else old(lost)
    {
      hide EngineOk, BridgesBut, Traced, Fit;
      if Holds(engine, c, approvals[c].decision) {
        ConfirmedBridges(engine, approvals, lost, c);
        ConfirmedTraced(trace, approvals, lost, c);
        Record(Confirms(c));
        lost := lost - {c};
      }
    }

    /** The event has been dealt with. */
    method Acknowledge(c: Conversation)
      requires Valid()
      requires c in approvals ==>
               (approvals[c].phase != Resuming || c in engine.jobs) && (c in lost ==> c !in engine.pending)
      modifies this`engine
      ensures Valid() && engine == WithoutCompleted(old(engine), c) && OnlyAt(old(engine), engine, c)
    {
      hide BridgesBut, Traced, Fit;
      CompletedRemoved(engine, c, max);
      engine := engine.(completed := engine.completed - {c});
      AcknowledgedBridges(old(engine), engine, approvals, lost, c);
    }

    /** Gives up on an approval that could not be opened, and says so. */
    method RefuseApproval(c: Conversation, decision: string) returns (r: Ending)
      requires Valid()
      modifies this
      ensures Handled(c) && c !in engine.completed && c !in engine.pending && c !in lost && c !in approvals
    {
      hide EngineOk, OnlyAt, BridgesBut, Traced, Fit;
      Weaken(engine, approvals, lost, trace, c);
      r := Abandon(c, decision);
      if r.Fine? {
        ghost var e := engine;
        var reply: Delivery := *;
        r := EmitIntents(c, reply);
        OnlyAtTwice(old(engine), e, engine, c);
      }
    }

    /** The reply to a finished turn. */
    method HandleResult(c: Conversation, silent: bool) returns (r: Ending)
      requires Valid()
      modifies this
      ensures Handled(c) && lost <= old(lost)
      ensures r.Fine? ==> c !in approvals || approvals[c].phase != Resuming
      ensures engine == old(engine) || (!IsBusy(engine, c) && c !in approvals)
      ensures c in approvals ==> approvals == old(approvals)
    {
      hide EngineOk, OnlyAt, BridgesBut, Traced, Fit;
      Unchanged(engine, c);
      r := Fine;
      if !silent {
        var reply: Delivery := *;
        r := EmitIntents(c, reply);
      }
      if r.Fine? {
        r := CompleteResumed(c);
      }
    }

    /** The approval a turn asks for. */
    method HandleApproval(c: Conversation, message: string, decision: string, deadline: nat,
                          s: Setup) returns (r: Ending)
      requires Valid() && c !in engine.jobs && c in engine.completed
      requires engine.completed[c].Approval? && engine.completed[c].decision == decision
      requires ValidId(c) && ValidId(message) && ValidSegment(decision)
      modifies this
      ensures Handled(c)
      ensures r.Fine? ==> c !in approvals || (approvals[c].phase != Resuming && (c in lost ==> c !in engine.pending))
      ensures c !in old(approvals) ==>
                var st := Start(old(engine), old(approvals), c, message, decision, deadline, s);
                && (!st.begun && s.reply.Sent? ==>
                    r == s.reply.ending && engine == st.engine && approvals == st.approvals)
                && (st.begun && st.ending.Fine? && r.Fine? && c in approvals ==>
                    engine == st.engine && approvals == st.approvals)
    {
      hide EngineOk, OnlyAt, BridgesBut, Traced, Fit, ValidId, ValidSegment, Start, Holds;
      Unchanged(engine, c);
      if c in engine.pending {
        HeldDecision(engine, c, max);
      }
      var started := true;
      r := CompleteResumed(c);
      if r.Fine? {
        r, started := StartApproval(c, message, decision, deadline, s);
      }
      ghost var e := engine;
      if r.Fails? {
        r := RefuseApproval(c, decision);
        OnlyAtTwice(old(engine), e, engine, c);
      } else if r.Fine? && !started {
        r := EmitIntents(c, s.reply);
        OnlyAtTwice(old(engine), e, engine, c);
      }
    }

    /** One event of the engine. Without a bridge, a standing grant whose reply fails leaves the event
        there without its decision; a bridge that then opens for it finds the engine idle. */
    method HandleEvent(c: Conversation, s: Setup) returns (r: Ending)
      requires Valid() && c in engine.completed
      modifies this
      ensures Handled(c) && (r.Fine? ==> c !in engine.completed)
      ensures c !in old(approvals) && old(engine).completed[c].Approval? ==>
                var q := old(engine).completed[c];
                var st := Start(old(engine), old(approvals), c, q.message, q.decision, q.question.deadline, s);
                && (!st.begun && s.reply.Sent? && !s.reply.ending.Fine? ==>
                      r == s.reply.ending && engine == st.engine && approvals == st.approvals)
                && (st.begun && st.ending.Fine? && r.Fine? && c in approvals ==>
                      engine == WithoutCompleted(st.engine, c) && approvals == st.approvals)
    {
      hide OnlyAt, BridgesBut, Traced, Fit, ValidId, ValidSegment, Start;
      assert CellOk(engine, c);
      match engine.completed[c] {
        case Approval(message, decision, question) =>
          r := HandleApproval(c, message, decision, question.deadline, s);
        case Silent(_) =>
          r := HandleResult(c, true);
        case Reply(_, _) =>
          r := HandleResult(c, false);
        case Failure(_, _) =>
          r := HandleResult(c, false);
      }
      if r.Fine? {
        ghost var e := engine;
        assert CellOk(engine, c);
        Acknowledge(c);
        OnlyAtTwice(old(engine), e, engine, c);
        r := Save();
      }
    }

    // The steps of the host

    constructor (max: nat, turn: nat, approval: nat, full: bool)
      ensures Valid() && engine == EMPTY && approvals == map[] && lost == {}
    {
      this.max, this.turn, this.approval, this.full := max, turn, approval, full;
      engine, approvals, trace, lost := EMPTY, map[], [], {};
      savedEngine, savedApprovals, savedTrace, savedLost := EMPTY, map[], [], {};
    }

    /** A crash: the host and the engine go on from the last checkpoint, unless a stored grant is too long. */
    method Restart(now: nat) returns (ok: bool)
      requires SavedOk()
      modifies this
      ensures SavedOk() && (ok <==> forall c :: c in savedApprovals ==> Bytes(savedApprovals[c].grant) <= 1024)
      ensures savedApprovals == old(savedApprovals) && savedEngine == old(savedEngine)
      ensures ok ==>
                && Valid() && lost == savedLost && approvals.Keys == savedApprovals.Keys
                && (forall c ::
                      c in approvals ==>
                        Capped(savedApprovals[c], approvals[c]) && approvals[c].deadline <= now + approval)
                && Restore(savedEngine, max, now, turn, approval) == Some(engine)
    {
      hide EngineOk, BridgesBut, Traced, Fit, Restore, Storable, Bytes;
      RestoreAccepts(savedEngine, max, now, turn, approval);
      var loaded := Loaded(savedApprovals, now + approval);
      RestoredFit(savedApprovals, loaded);
      if !Storable(loaded) {
        return false;
      }
      ok := true;
      engine := Restore(savedEngine, max, now, turn, approval).value;
      approvals := loaded;
      trace, lost := savedTrace, savedLost;
      RestoredBridges(savedEngine, engine, savedApprovals, approvals, lost);
      RestoredTrace(trace, savedApprovals, approvals, lost);
    }

    /** The events of all finished turns, in some order. */
    method HandleEvents() returns (r: Ending)
      requires Valid()
      modifies this
      ensures Valid() && old(trace) <= trace
      ensures r.Fine? ==> engine.completed == map[]
    {
      hide EngineOk, OnlyAt, BridgesBut, Traced, Fit;
      ghost var start := engine;
      var todo := engine.completed.Keys;
      while todo != {}
        invariant Valid() && old(trace) <= trace && engine.completed.Keys == todo
        invariant forall c :: c in todo ==> SameAt(start, engine, c)
        decreases todo
      {
        var c :| c in todo;
        ghost var e := engine;
        var s: Setup := *;
        r := HandleEvent(c, s);
        if !r.Fine? {
          return;
        }
        StillSame(start, e, engine, c, todo);
        todo := todo - {c};
      }
      r := Fine;
    }

    /** The periodic step. It leaves a bridge with an idle engine exactly when the record tells that the
        decision was lost and no other turn is under way. */
    method Poll(now: nat) returns (r: Ending)
      requires Valid()
      modifies this
      ensures (!r.Stops? ==> Valid() && Exact()) && SavedOk() && old(trace) <= trace
      ensures r.Fine? ==> engine.completed == map[]
    {
      hide EngineOk, OnlyAt, BridgesBut, Traced, PolledAt, Fit, Exact;
      PollJobs(now);
      r := Save();
      ValidExact();
      if !r.Fine? {
        return;
      }
      r := HandleEvents();
      ValidExact();
      if !r.Fine? {
        return;
      }
      r := DriveApprovals(now);
      if !r.Stops? {
        ValidExact();
      }
      if !r.Fine? {
        return;
      }
      var told: seq<Conversation> := *;
      for i := 0 to |told|
        invariant Valid() && old(trace) <= trace && engine.completed == map[]
      {
        ghost var e, a, l := engine, approvals, lost;
        r := HandleResult(told[i], false);
        Others(e, engine, a, approvals, l, lost, told[i]);
        ValidExact();
        if !r.Fine? {
          return;
        }
      }
      r := Fine;
      ValidExact();
    }

    /** A message of a conversation: a turn is started unless the engine is busy with it. A conversation
        with a bridge starts none unless its decision was lost, and the acceptance of a turn closes no task. */
    method Message(c: Conversation, message: string, now: nat, t: TurnAnswers) returns (r: Ending, accepted: bool)
      requires Valid() && ValidId(c)
      modifies this
      ensures Handled(c) && lost <= old(lost)
      ensures IsBusy(old(engine), c) ==> !accepted
      ensures !IsBusy(old(engine), c) ==>
                (accepted <==> Submitted(old(engine), c, message, now + turn, max, t).1 == None)
      ensures accepted ==>
                && engine == Submitted(old(engine), c, message, now + turn, max, t).0 && c in engine.jobs
                && approvals == old(approvals) && lost == old(lost) && (c in old(approvals) ==> Lost(old(trace), c))
      ensures !IsBusy(old(engine), c) && !accepted && c in approvals ==>
                engine == Submitted(old(engine), c, message, now + turn, max, t).0 && approvals == old(approvals)
    {
      hide OnlyAt, BridgesBut, Traced, Fit, Submitted, Run, Lost, ValidId, ValidPath;
      Unchanged(engine, c);
      accepted := false;
      if IsBusy(engine, c) {
        var reply: Delivery := *;
        r := EmitIntents(c, reply);
        return;
      }
      IdleBridge(engine, approvals, lost, c);
      if c in approvals {
        IdleIff(engine, approvals, lost, trace, c);
      }
      Weaken(engine, approvals, lost, trace, c);
      var failed := SubmitMessage(c, message, now, t);
      BridgesElsewhere(old(engine), engine, approvals, lost, c);
      LostBridge(engine, approvals, lost, c);
      if failed == None {
        accepted := true;
        r := CompleteResumed(c);
        return;
      }
      if failed.value == Unavailable {
        return Fine, accepted;
      }
      ghost var e := engine;
      r := HandleResult(c, false);
      OnlyAtTwice(old(engine), e, engine, c);
    }

    /**
     Clean-up after conversations went away: whatever the engine knows of is cancelled. Once all are
     walked over, a bridge of a conversation that is gone is left exactly when the engine has no
     session for it.
     */
    method CleanUp(gone: set<Conversation>) returns (r: Ending, walked: bool)
      requires Valid()
      modifies this
      ensures Valid() && old(trace) <= trace && (r.Fine? ==> walked)
      ensures walked ==>
                forall c :: c in gone ==> c !in engine.sessions && !IsBusy(engine, c)
      ensures walked ==>
                forall c :: c in gone && c in old(approvals) ==> (c in approvals <==> c !in old(engine).sessions)
      ensures forall c ::
                c !in gone ==>
                  (c in approvals <==> c in old(approvals)) && (IsBusy(engine, c) <==> IsBusy(old(engine), c))
    {
      hide EngineOk, OnlyAt, BridgesBut, Traced, Fit, IsBusy, Walked;
      walked := false;
      var todo := Active(engine);
      WalkBegins(engine, approvals, gone, max);
      while todo != {}
        invariant Valid() && old(trace) <= trace && todo <= old(engine).sessions.Keys
        invariant Walked(old(engine), engine, old(approvals), approvals, gone, todo)
        decreases todo
      {
        var c :| c in todo;
        r := *;
        if !r.Fine? {
          WalkEnds(old(engine), engine, old(approvals), approvals, gone, todo);
          return;
        }
        if c in gone {
          ghost var e, a := engine, approvals;
          Weaken(engine, approvals, lost, trace, c);
          Remove(c);
          WalkRemoves(old(engine), e, engine, old(approvals), a, gone, todo, c);
        } else {
          WalkSkips(old(engine), engine, old(approvals), approvals, gone, todo, c);
        }
        todo := todo - {c};
      }
      WalkEnds(old(engine), engine, old(approvals), approvals, gone, todo);
      walked := true;
      r := Save();
    }

    /** The account is locked or this device revoked: nothing is left on either side. */
    method Lock() returns (r: Ending)
      requires Valid()
      modifies this
      ensures Valid() && approvals == map[] && lost == {} && Active(engine) == {} && old(trace) <= trace
    {
      hide EngineOk, OnlyAt, BridgesBut, Traced, Fit;
      var todo := Active(engine);
      AllReached(engine, max);
      while todo != {}
        invariant Valid() && old(trace) <= trace && engine.sessions.Keys <= todo
        decreases todo
      {
        var c :| c in todo;
        ghost var e, a, l := engine, approvals, lost;
        Weaken(engine, approvals, lost, trace, c);
        Remove(c);
        Others(e, engine, a, approvals, l, lost, c);
        todo := todo - {c};
      }
      AllReached(engine, max);
      ClearApprovals();
      r := Save();
    }

    method ClearApprovals()
      requires Valid()
      modifies this`approvals, this`trace, this`lost
      ensures Valid() && approvals == map[] && lost == {} && old(trace) <= trace
    {
      hide EngineOk, BridgesBut, Traced, Fit;
      while approvals != map[]
        invariant Valid() && old(trace) <= trace
        decreases approvals.Keys
      {
        var c :| c in approvals;
        Weaken(engine, approvals, lost, trace, c);
        ghost var a := approvals;
        Drop(c);
        assert c in a.Keys && c !in approvals.Keys;
      }
      LostThere(engine, approvals, lost);
    }
  }

  /** The stored bridges, with no deadline later than `latest`. */
  function Loaded(a: Bridges, latest: nat): (r: Bridges)
    ensures r.Keys == a.Keys && forall c :: c in a ==> Capped(a[c], r[c]) && r[c].deadline <= latest
  {
    map c | c in a :: a[c].(deadline := Earlier(a[c].deadline, latest))
  }

  lemma HeldDecision(e: Engine, c: Conversation, max: nat)
    requires EngineOk(e, max) && c in e.completed && e.completed[c].Approval? && c in e.pending
    ensures Holds(e, c, e.completed[c].decision)
  {
    assert CellOk(e, c);
  }

  lemma AllSame(e: Engine)
    ensures forall c :: SameAt(e, e, c) && PolledAt(e, e, c)
  {
  }

  lemma SamePolled(e: Engine, f: Engine, c: Conversation)
    requires SameAt(e, f, c)
    ensures PolledAt(e, f, c)
  {
  }

  lemma StillRunning(e: Engine, c: Conversation, event: Completed, todo: set<Conversation>)
    requires todo <= e.jobs.Keys
    ensures todo - {c} <= Finished(e, c, event).jobs.Keys
  {
  }

  lemma AddedOnly(a: Bridges, lost: set<Conversation>, c: Conversation, b: Bridge)
    ensures a[c := b] - {c} == a - {c} && lost + {c} - {c} == lost - {c}
  {
  }

  lemma LostThere(e: Engine, a: Bridges, lost: set<Conversation>)
    requires BridgesOk(e, a, lost)
    ensures lost <= a.Keys
  {
  }
}
